/**
 * The cart store behind `/api/carts`: a list of carts, at most one per user,
 * and the counter that numbers new carts. POST adds an item to a user's cart
 * (creating the cart on first use and merging repeated items), GET lists every
 * cart, DELETE empties a user's cart without removing it.
 */
module Carts {
  import opened Wrappers
  import Js
  import Arrays
  import Auth
  import Numbers

  datatype CartItem = CartItem(itemId: int, quantity: int)

  datatype Cart = Cart(id: int, userId: int, items: seq<CartItem>, createdAt: Js.Timestamp)

  /** The store's two fields, as one value: the carts in insertion order and `nextCartId`. */
  datatype State = State(carts: seq<Cart>, nextCartId: int)

  /** `carts.find((c) => c.user_id === userId)`, as the index of the cart found. */
  function FindCart(carts: seq<Cart>, userId: int): (r: Option<nat>)
    ensures r.Some? ==> r.value < |carts| && carts[r.value].userId == userId
    ensures r.Some? ==> forall k :: 0 <= k < r.value ==> carts[k].userId != userId
    ensures r.None? ==> forall k :: 0 <= k < |carts| ==> carts[k].userId != userId
  {
    Arrays.FindIndex(carts, (c: Cart) => c.userId == userId)
  }

  /** `cart.items.find((i) => i.item_id === itemId)`, as the index of the line found. */
  function FindLine(items: seq<CartItem>, itemId: int): (r: Option<nat>)
    ensures r.Some? ==> r.value < |items| && items[r.value].itemId == itemId
    ensures r.Some? ==> forall k :: 0 <= k < r.value ==> items[k].itemId != itemId
    ensures r.None? ==> forall k :: 0 <= k < |items| ==> items[k].itemId != itemId
  {
    Arrays.FindIndex(items, (l: CartItem) => l.itemId == itemId)
  }

  predicate HasItem(items: seq<CartItem>, itemId: int) {
    exists k :: 0 <= k < |items| && items[k].itemId == itemId
  }

  /** No two lines of a cart share an item id. */
  predicate DistinctItems(items: seq<CartItem>) {
    forall j, k :: 0 <= j < k < |items| ==> items[j].itemId != items[k].itemId
  }

  /**
   * The store's invariant: at most one cart per user, item ids distinct within
   * each cart, and cart ids increasing in list order and below the counter.
   */
  predicate WellFormed(s: State) {
    && 1 <= s.nextCartId
    && (forall k :: 0 <= k < |s.carts| ==> 1 <= s.carts[k].id < s.nextCartId)
    && (forall j, k :: 0 <= j < k < |s.carts| ==> s.carts[j].id < s.carts[k].id)
    && (forall j, k :: 0 <= j < k < |s.carts| ==> s.carts[j].userId != s.carts[k].userId)
    && (forall k :: 0 <= k < |s.carts| ==> DistinctItems(s.carts[k].items))
  }

  /** The total quantity the lines of `items` hold for `itemId`, summed over every line. */
  function QuantityOf(items: seq<CartItem>, itemId: int): int {
    if items == [] then 0
    else (if items[0].itemId == itemId then items[0].quantity else 0) + QuantityOf(items[1..], itemId)
  }

  /** Merge-on-add: the line for `itemId` grows by `quantity`, or a new line is appended. */
  function AddLine(items: seq<CartItem>, itemId: int, quantity: int): seq<CartItem> {
    match FindLine(items, itemId)
    case Some(k) => items[k := items[k].(quantity := items[k].quantity + quantity)]
    case None => items + [CartItem(itemId, quantity)]
  }

  /** The state after a successful POST: find or create the user's cart, then add the line. */
  function AfterAdd(s: State, userId: int, itemId: int, quantity: int, now: Js.Timestamp): State {
    match FindCart(s.carts, userId)
    case Some(k) =>
      State(s.carts[k := s.carts[k].(items := AddLine(s.carts[k].items, itemId, quantity))], s.nextCartId)
    case None =>
      State(s.carts + [Cart(s.nextCartId, userId, AddLine([], itemId, quantity), now)], s.nextCartId + 1)
  }

  /** `carts[k].items = []`: the cart stays, with its id, owner and creation time. */
  function AfterClear(carts: seq<Cart>, k: nat): seq<Cart>
    requires k < |carts|
  {
    carts[k := carts[k].(items := [])]
  }

  /** The cart DELETE empties: the first one whose owner equals `Number.parseInt(userId)`. */
  function ClearTarget(carts: seq<Cart>, userIdParam: string): Option<nat> {
    match Numbers.ParseInt(userIdParam)
    case None => None
    case Some(u) => FindCart(carts, u)
  }

  /** The quantity of `itemId` in the cart of `userId`, 0 when the user has no cart. */
  function CartQuantity(carts: seq<Cart>, userId: int, itemId: int): int {
    match FindCart(carts, userId)
    case None => 0
    case Some(k) => QuantityOf(carts[k].items, itemId)
  }

  // ---------------------------------------------------------------------------
  // Properties of a single line update

  lemma {:induction false} QuantityOfAppend(items: seq<CartItem>, line: CartItem, itemId: int)
    ensures QuantityOf(items + [line], itemId)
         == QuantityOf(items, itemId) + (if line.itemId == itemId then line.quantity else 0)
  {
    if items != [] {
      assert (items + [line])[1..] == items[1..] + [line];
      QuantityOfAppend(items[1..], line, itemId);
    } else {
      assert [line][1..] == [];
    }
  }

  lemma {:induction false} QuantityOfUpdate(items: seq<CartItem>, k: nat, line: CartItem, itemId: int)
    requires k < |items|
    ensures QuantityOf(items[k := line], itemId)
         == QuantityOf(items, itemId)
            - (if items[k].itemId == itemId then items[k].quantity else 0)
            + (if line.itemId == itemId then line.quantity else 0)
  {
    if k > 0 {
      assert items[k := line][1..] == items[1..][k - 1 := line];
      QuantityOfUpdate(items[1..], k - 1, line, itemId);
    } else {
      assert items[k := line][1..] == items[1..];
    }
  }

  /**
   * Adding `quantity` of an item raises that item's total by exactly
   * `quantity` and leaves every other item's total as it was.
   */
  lemma AddLineQuantities(items: seq<CartItem>, itemId: int, quantity: int, other: int)
    requires other != itemId
    ensures QuantityOf(AddLine(items, itemId, quantity), itemId) == QuantityOf(items, itemId) + quantity
    ensures QuantityOf(AddLine(items, itemId, quantity), other) == QuantityOf(items, other)
  {
    match FindLine(items, itemId)
    case Some(k) =>
      var line := items[k].(quantity := items[k].quantity + quantity);
      QuantityOfUpdate(items, k, line, itemId);
      QuantityOfUpdate(items, k, line, other);
    case None =>
      QuantityOfAppend(items, CartItem(itemId, quantity), itemId);
      QuantityOfAppend(items, CartItem(itemId, quantity), other);
  }

  /**
   * The shape of a merge: existing lines keep their item ids and order, only
   * the line for `itemId` changes, and a line `{itemId, quantity}` is appended
   * at the end exactly when the cart did not hold the item.
   */
  lemma AddLineShape(items: seq<CartItem>, itemId: int, quantity: int)
    ensures |AddLine(items, itemId, quantity)| == |items| + (if HasItem(items, itemId) then 0 else 1)
    ensures forall k :: 0 <= k < |items| ==> AddLine(items, itemId, quantity)[k].itemId == items[k].itemId
    ensures forall k :: 0 <= k < |items| && items[k].itemId != itemId ==> AddLine(items, itemId, quantity)[k] == items[k]
    ensures !HasItem(items, itemId) ==> AddLine(items, itemId, quantity)[|items|] == CartItem(itemId, quantity)
    ensures HasItem(AddLine(items, itemId, quantity), itemId)
  {
    var r := AddLine(items, itemId, quantity);
    match FindLine(items, itemId)
    case Some(k) =>
      assert r[k].itemId == itemId;
    case None =>
      assert r[|items|].itemId == itemId;
  }

  /** Merging never creates a second line for an item. */
  lemma AddLineKeepsDistinct(items: seq<CartItem>, itemId: int, quantity: int)
    requires DistinctItems(items)
    ensures DistinctItems(AddLine(items, itemId, quantity))
  {
    AddLineShape(items, itemId, quantity);
  }

  // ---------------------------------------------------------------------------
  // Properties of POST and DELETE on the whole store

  /** POST keeps the store's invariant. */
  lemma AfterAddWellFormed(s: State, userId: int, itemId: int, quantity: int, now: Js.Timestamp)
    requires WellFormed(s)
    ensures WellFormed(AfterAdd(s, userId, itemId, quantity, now))
  {
    var s' := AfterAdd(s, userId, itemId, quantity, now);
    match FindCart(s.carts, userId)
    case Some(k) =>
      AddLineKeepsDistinct(s.carts[k].items, itemId, quantity);
    case None =>
      AddLineKeepsDistinct([], itemId, quantity);
  }

  /**
   * After POST exactly one cart belongs to `userId`. It is the cart the user
   * already had, or, when there was none, a new cart appended at the end with id
   * `nextCartId` (the counter then moves on). The carts of other users, and the
   * id and owner of every cart, are unchanged.
   */
  lemma AfterAddCarts(s: State, userId: int, itemId: int, quantity: int, now: Js.Timestamp)
    requires WellFormed(s)
    ensures var s' := AfterAdd(s, userId, itemId, quantity, now);
      && FindCart(s'.carts, userId).Some?
      && (forall k :: 0 <= k < |s'.carts| && k != FindCart(s'.carts, userId).value ==> s'.carts[k].userId != userId)
      && (forall k :: 0 <= k < |s.carts| && s.carts[k].userId != userId ==> s'.carts[k] == s.carts[k])
      && (forall k :: 0 <= k < |s.carts| ==> s'.carts[k].id == s.carts[k].id && s'.carts[k].userId == s.carts[k].userId)
      && (FindCart(s.carts, userId).Some? ==>
            |s'.carts| == |s.carts| && s'.nextCartId == s.nextCartId
            && FindCart(s'.carts, userId) == FindCart(s.carts, userId))
      && (FindCart(s.carts, userId).None? ==>
            |s'.carts| == |s.carts| + 1 && s'.nextCartId == s.nextCartId + 1
            && s'.carts[|s.carts|] == Cart(s.nextCartId, userId, [CartItem(itemId, quantity)], now))
  {
    var s' := AfterAdd(s, userId, itemId, quantity, now);
    AfterAddWellFormed(s, userId, itemId, quantity, now);
    match FindCart(s.carts, userId)
    case Some(k) =>
      assert s'.carts[k].userId == userId;
    case None =>
      assert s'.carts[|s.carts|].userId == userId;
  }

  /** POST adds exactly `quantity` to the user's total for the item. */
  lemma AfterAddQuantity(s: State, userId: int, itemId: int, quantity: int, now: Js.Timestamp)
    requires WellFormed(s)
    ensures CartQuantity(AfterAdd(s, userId, itemId, quantity, now).carts, userId, itemId)
         == CartQuantity(s.carts, userId, itemId) + quantity
  {
    AfterAddCarts(s, userId, itemId, quantity, now);
    var s' := AfterAdd(s, userId, itemId, quantity, now);
    match FindCart(s.carts, userId)
    case Some(k) =>
      AddLineQuantities(s.carts[k].items, itemId, quantity, itemId + 1);
    case None =>
      AddLineQuantities([], itemId, quantity, itemId + 1);
      assert FindCart(s'.carts, userId) == Some(|s.carts|);
  }

  /** A run of POSTs of the same item by the same user, with quantities `qs`. */
  function AddAll(s: State, userId: int, itemId: int, qs: seq<int>, now: Js.Timestamp): State
    decreases |qs|
  {
    if qs == [] then s else AddAll(AfterAdd(s, userId, itemId, qs[0], now), userId, itemId, qs[1..], now)
  }

  function Sum(qs: seq<int>): int {
    if qs == [] then 0 else qs[0] + Sum(qs[1..])
  }

  /** Repeated adds accumulate: the cart's quantity grows by the sum of the quantities supplied. */
  lemma {:induction false} AddAllQuantity(s: State, userId: int, itemId: int, qs: seq<int>, now: Js.Timestamp)
    requires WellFormed(s)
    ensures WellFormed(AddAll(s, userId, itemId, qs, now))
    ensures CartQuantity(AddAll(s, userId, itemId, qs, now).carts, userId, itemId)
         == CartQuantity(s.carts, userId, itemId) + Sum(qs)
    decreases |qs|
  {
    if qs != [] {
      AfterAddWellFormed(s, userId, itemId, qs[0], now);
      AfterAddQuantity(s, userId, itemId, qs[0], now);
      AddAllQuantity(AfterAdd(s, userId, itemId, qs[0], now), userId, itemId, qs[1..], now);
    }
  }

  /**
   * DELETE keeps the invariant and the cart: the same number of carts, the
   * cleared one with its id and owner and no items, every other cart as it was.
   */
  lemma AfterClearCarts(s: State, k: nat)
    requires WellFormed(s) && k < |s.carts|
    ensures WellFormed(State(AfterClear(s.carts, k), s.nextCartId))
    ensures |AfterClear(s.carts, k)| == |s.carts|
    ensures AfterClear(s.carts, k)[k].id == s.carts[k].id
    ensures AfterClear(s.carts, k)[k].userId == s.carts[k].userId
    ensures AfterClear(s.carts, k)[k].items == []
    ensures forall j :: 0 <= j < |s.carts| && j != k ==> AfterClear(s.carts, k)[j] == s.carts[j]
    ensures FindCart(AfterClear(s.carts, k), s.carts[k].userId) == FindCart(s.carts, s.carts[k].userId)
  {
  }

  /** A client's `userId=${u}` reaches the cart of user `u`, if there is one. */
  lemma ClearTargetOfDecimal(carts: seq<Cart>, userId: int)
    ensures ClearTarget(carts, Numbers.ToDecimal(userId)) == FindCart(carts, userId)
  {
    Numbers.ParseIntRoundTrip(userId);
  }

  // ---------------------------------------------------------------------------
  // The store

  class CartStore {
    var carts: seq<Cart>
    var nextCartId: int

    ghost predicate Valid()
      reads this
    {
      WellFormed(State(carts, nextCartId))
    }

    constructor ()
      ensures Valid()
      ensures carts == [] && nextCartId == 1
    {
      carts := [];
      nextCartId := 1;
    }

    /**
     * POST /api/carts with body `{user_id, item_id, quantity = 1}`: 401 without
     * a token, 400 when `user_id` or `item_id` is missing or 0, otherwise 200
     * with the user's updated cart.
     */
    method Post(authorization: Option<string>, userId: Option<int>, itemId: Option<int>,
                quantity: Option<int>, now: Js.Timestamp)
      returns (status: int, cart: Option<Cart>)
      requires Valid()
      modifies this
      ensures Valid()
      ensures !Auth.Authorized(authorization) ==>
                status == 401 && cart.None? && carts == old(carts) && nextCartId == old(nextCartId)
      ensures Auth.Authorized(authorization) && !(Js.IsPresentNumber(userId) && Js.IsPresentNumber(itemId)) ==>
                status == 400 && cart.None? && carts == old(carts) && nextCartId == old(nextCartId)
      ensures Auth.Authorized(authorization) && Js.IsPresentNumber(userId) && Js.IsPresentNumber(itemId) ==>
                && status == 200
                && State(carts, nextCartId)
                   == AfterAdd(old(State(carts, nextCartId)), userId.value, itemId.value, Js.WithDefault(quantity, 1), now)
                && FindCart(carts, userId.value).Some?
                && cart == Some(carts[FindCart(carts, userId.value).value])
    {
      if !Auth.Authorized(authorization) {
        return 401, None;
      }
      if !Js.IsPresentNumber(userId) || !Js.IsPresentNumber(itemId) {
        return 400, None;
      }
      var c := AddToCart(userId.value, itemId.value, Js.WithDefault(quantity, 1), now);
      return 200, Some(c);
    }

    /**
     * The body of a successful POST: find the user's cart or push a new one
     * (taking the next id), then raise the quantity of an existing line or
     * append a new line. Returns the updated cart.
     */
    method AddToCart(userId: int, itemId: int, quantity: int, now: Js.Timestamp) returns (cart: Cart)
      requires Valid()
      modifies this
      ensures Valid()
      ensures State(carts, nextCartId) == AfterAdd(old(State(carts, nextCartId)), userId, itemId, quantity, now)
      ensures FindCart(carts, userId).Some? && cart == carts[FindCart(carts, userId).value]
    {
      ghost var s := State(carts, nextCartId);
      AfterAddCarts(s, userId, itemId, quantity, now);
      AfterAddWellFormed(s, userId, itemId, quantity, now);

      var k := FindCart(carts, userId);
      if k.None? {
        carts := carts + [Cart(nextCartId, userId, [], now)];
        nextCartId := nextCartId + 1;
        k := Some(|carts| - 1);
      }
      var c := carts[k.value];
      var line := FindLine(c.items, itemId);
      if line.Some? {
        var j := line.value;
        c := c.(items := c.items[j := c.items[j].(quantity := c.items[j].quantity + quantity)]);
      } else {
        c := c.(items := c.items + [CartItem(itemId, quantity)]);
      }
      carts := carts[k.value := c];
      assert State(carts, nextCartId) == AfterAdd(s, userId, itemId, quantity, now);
      return c;
    }

    /** GET /api/carts: every cart of every user, or 401 without a token. */
    method Get(authorization: Option<string>) returns (status: int, all: seq<Cart>)
      ensures Auth.Authorized(authorization) ==> status == 200 && all == carts
      ensures !Auth.Authorized(authorization) ==> status == 401 && all == []
    {
      if !Auth.Authorized(authorization) {
        return 401, [];
      }
      return 200, carts;
    }

    /**
     * DELETE /api/carts?userId=N: 401 without a token, 400 when `userId` is
     * missing or empty, 404 when no cart belongs to `Number.parseInt(userId)`,
     * otherwise 200 with that cart's items emptied.
     */
    method Delete(authorization: Option<string>, userIdParam: Option<string>) returns (status: int)
      requires Valid()
      modifies this
      ensures Valid()
      ensures nextCartId == old(nextCartId)
      ensures !Auth.Authorized(authorization) ==> status == 401 && carts == old(carts)
      ensures Auth.Authorized(authorization) && !Js.IsPresentString(userIdParam) ==>
                status == 400 && carts == old(carts)
      ensures Auth.Authorized(authorization) && Js.IsPresentString(userIdParam) ==>
                match ClearTarget(old(carts), userIdParam.value)
                case None => status == 404 && carts == old(carts)
                case Some(k) => status == 200 && carts == AfterClear(old(carts), k)
    {
      if !Auth.Authorized(authorization) {
        return 401;
      }
      if !Js.IsPresentString(userIdParam) {
        return 400;
      }
      var target := ClearTarget(carts, userIdParam.value);
      if target.Some? {
        AfterClearCarts(State(carts, nextCartId), target.value);
        carts := carts[target.value := carts[target.value].(items := [])];
        return 200;
      }
      return 404;
    }
  }
}
