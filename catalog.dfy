/**
 * The catalog behind `/api/items`: eight seeded items and POST, which appends
 * an item numbered one above the largest id present. Neither endpoint checks a
 * token.
 */
module Catalog {
  import opened Wrappers
  import Js

  /** `price` is stored as supplied; the catalog never computes with it. */
  datatype Item = Item(id: int, name: string, price: Js.Amount, description: string)

  /** The items the process starts with (prices in hundredths). */
  function Seed(): seq<Item> {
    [ Item(1, "Laptop", 99999, "High-performance laptop"),
      Item(2, "Wireless Mouse", 2999, "Ergonomic wireless mouse"),
      Item(3, "USB-C Cable", 1499, "Durable USB-C charging cable"),
      Item(4, "Mechanical Keyboard", 12999, "RGB mechanical keyboard"),
      Item(5, "4K Monitor", 39999, "Ultra HD 4K display"),
      Item(6, "Headphones", 19999, "Noise-cancelling headphones"),
      Item(7, "Phone Stand", 1999, "Adjustable phone stand"),
      Item(8, "Webcam", 7999, "1080p HD webcam") ]
  }

  /** `Math.max(...items.map((i) => i.id))`: the largest id, which some item has. */
  function MaxId(items: seq<Item>): (m: int)
    requires items != []
    ensures forall k :: 0 <= k < |items| ==> items[k].id <= m
    ensures exists k :: 0 <= k < |items| && items[k].id == m
  {
    if |items| == 1 then items[0].id
    else
      var rest := MaxId(items[1..]);
      if items[0].id >= rest then items[0].id else rest
  }

  /** The catalog's invariant: never empty (so the maximum exists), ids pairwise distinct. */
  predicate WellFormed(items: seq<Item>) {
    && items != []
    && (forall j, k :: 0 <= j < k < |items| ==> items[j].id != items[k].id)
  }

  /** The seeded catalog holds eight items with ids 1 to 8 in order. */
  lemma SeedIds()
    ensures |Seed()| == 8 && forall k :: 0 <= k < 8 ==> Seed()[k].id == k + 1
  {
    var s := Seed();
    assert |s| == 8;
    assert forall k :: 0 <= k < 8 ==> s[k].id == k + 1;
  }

  /** The seeded catalog is well formed: non-empty, with distinct ids. */
  lemma SeedWellFormed()
    ensures WellFormed(Seed())
  {
    SeedIds();
  }

  /** The largest seeded id is 8, so the first item POST adds is numbered 9. */
  lemma SeedMaxId()
    ensures MaxId(Seed()) == 8
  {
    SeedIds();
    var m := MaxId(Seed());
    assert Seed()[7].id <= m;
  }

  /** A new id is larger than every id present, so appending it keeps ids distinct. */
  lemma {:induction false} AppendKeepsWellFormed(items: seq<Item>, item: Item)
    requires WellFormed(items)
    requires item.id == MaxId(items) + 1
    ensures forall k :: 0 <= k < |items| ==> items[k].id < item.id
    ensures WellFormed(items + [item])
  {
    var r := items + [item];
    forall j, k | 0 <= j < k < |r|
      ensures r[j].id != r[k].id
    {
      assert r[j] == items[j];
      if k < |items| {
        assert r[k] == items[k];
      }
    }
  }

  class Store {
    var items: seq<Item>

    ghost predicate Valid()
      reads this
    {
      WellFormed(items)
    }

    constructor ()
      ensures Valid()
      ensures items == Seed()
    {
      SeedWellFormed();
      items := Seed();
    }

    /** GET /api/items: the whole catalog in order. */
    method Get() returns (status: int, all: seq<Item>)
      ensures status == 200 && all == items
    {
      return 200, items;
    }

    /**
     * POST /api/items with body `{name, price, description}`: 400 when `name`
     * is missing or empty or `price` is missing (a price of 0 is accepted),
     * otherwise 201 with the new item, appended at the end.
     */
    method Post(name: Option<string>, price: Option<Js.Amount>, description: Option<string>)
      returns (status: int, created: Option<Item>)
      requires Valid()
      modifies this
      ensures Valid()
      ensures !Js.IsPresentString(name) || price.None? ==>
                status == 400 && created.None? && items == old(items)
      ensures Js.IsPresentString(name) && price.Some? ==>
                && status == 201
                && created == Some(Item(MaxId(old(items)) + 1, name.value, price.value, Js.OrEmpty(description)))
                && items == old(items) + [created.value]
    {
      if !Js.IsPresentString(name) || price.None? {
        return 400, None;
      }
      var item := Item(MaxId(items) + 1, name.value, price.value, Js.OrEmpty(description));
      AppendKeepsWellFormed(items, item);
      items := items + [item];
      return 201, Some(item);
    }
  }
}
