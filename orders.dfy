/**
 * The order ledger behind `/api/orders`: an append-only list of orders and the
 * counter that numbers them. An order stores what the client sent, as sent; the
 * total is neither recomputed nor checked.
 */
module Orders {
  import opened Wrappers
  import Js
  import Auth
  import Carts

  /** An order line has the shape of a cart line: `{item_id, quantity}`. */
  type OrderLine = Carts.CartItem

  /** `total` is whatever the body held, possibly nothing. */
  datatype Order = Order(id: int, userId: int, cartId: int, items: seq<OrderLine>,
                         total: Option<Js.Amount>, createdAt: Js.Timestamp)

  /** The ledger's invariant: ids start at 1, increase in list order and stay below the counter. */
  predicate Ledger(orders: seq<Order>, nextOrderId: int) {
    && 1 <= nextOrderId
    && (forall k :: 0 <= k < |orders| ==> 1 <= orders[k].id < nextOrderId)
    && (forall j, k :: 0 <= j < k < |orders| ==> orders[j].id < orders[k].id)
  }

  /** The fields POST requires: `user_id`, `cart_id` and `items` must all be truthy. */
  predicate Accepts(userId: Option<int>, cartId: Option<int>, items: Option<seq<OrderLine>>) {
    Js.IsPresentNumber(userId) && Js.IsPresentNumber(cartId) && Js.IsPresentArray(items)
  }

  /**
   * Which bodies POST accepts: ids must be present and non-zero, while `items`
   * need only be present, so an empty list is accepted; `total` is never looked at.
   */
  lemma AcceptsIff(userId: Option<int>, cartId: Option<int>, items: Option<seq<OrderLine>>)
    ensures Accepts(userId, cartId, items)
        <==> userId.Some? && userId.value != 0 && cartId.Some? && cartId.value != 0 && items.Some?
  {
  }

  /**
   * Appending the order numbered by the counter keeps the invariant: the new id
   * is larger than every id issued before it.
   */
  lemma {:induction false} AppendKeepsLedger(orders: seq<Order>, nextOrderId: int, order: Order)
    requires Ledger(orders, nextOrderId)
    requires order.id == nextOrderId
    ensures forall k :: 0 <= k < |orders| ==> orders[k].id < order.id
    ensures Ledger(orders + [order], nextOrderId + 1)
  {
    var r := orders + [order];
    forall j, k | 0 <= j < k < |r|
      ensures r[j].id < r[k].id
    {
      if k == |orders| {
        assert r[j] == orders[j];
      } else {
        assert r[j] == orders[j] && r[k] == orders[k];
      }
    }
  }

  class OrderLedger {
    var orders: seq<Order>
    var nextOrderId: int

    ghost predicate Valid()
      reads this
    {
      Ledger(orders, nextOrderId)
    }

    constructor ()
      ensures Valid()
      ensures orders == [] && nextOrderId == 1
    {
      orders := [];
      nextOrderId := 1;
    }

    /**
     * POST /api/orders with body `{user_id, cart_id, items, total}`: 401 without
     * a token, 400 when a required field is falsy, otherwise 201 with the new
     * order, which is appended to the ledger.
     */
    method Post(authorization: Option<string>, userId: Option<int>, cartId: Option<int>,
                items: Option<seq<OrderLine>>, total: Option<Js.Amount>, now: Js.Timestamp)
      returns (status: int, order: Option<Order>)
      requires Valid()
      modifies this
      ensures Valid()
      ensures !Auth.Authorized(authorization) ==>
                status == 401 && order.None? && orders == old(orders) && nextOrderId == old(nextOrderId)
      ensures Auth.Authorized(authorization) && !Accepts(userId, cartId, items) ==>
                status == 400 && order.None? && orders == old(orders) && nextOrderId == old(nextOrderId)
      ensures Auth.Authorized(authorization) && Accepts(userId, cartId, items) ==>
                && status == 201
                && order == Some(Order(old(nextOrderId), userId.value, cartId.value, items.value, total, now))
                && orders == old(orders) + [order.value]
                && nextOrderId == old(nextOrderId) + 1
    {
      if !Auth.Authorized(authorization) {
        return 401, None;
      }
      if !Js.IsPresentNumber(userId) || !Js.IsPresentNumber(cartId) || !Js.IsPresentArray(items) {
        return 400, None;
      }
      var o := Order(nextOrderId, userId.value, cartId.value, items.value, total, now);
      AppendKeepsLedger(orders, nextOrderId, o);
      nextOrderId := nextOrderId + 1;
      orders := orders + [o];
      return 201, Some(o);
    }

    /** GET /api/orders: the whole ledger in insertion order, or 401 without a token. */
    method Get(authorization: Option<string>) returns (status: int, all: seq<Order>)
      ensures Auth.Authorized(authorization) ==> status == 200 && all == orders
      ensures !Auth.Authorized(authorization) ==> status == 401 && all == []
    {
      if !Auth.Authorized(authorization) {
        return 401, [];
      }
      return 200, orders;
    }
  }
}
