/**
 * Checkout as the shop page performs it: there is no checkout endpoint. The
 * client POSTs an order built from its copy of the cart, then DELETEs the cart
 * and reports success without looking at the DELETE's answer. The two requests
 * are not one transaction: an order can be placed while the cart stays as it
 * was (the DELETE answers 404 when the user has no cart).
 */
module Checkout {
  import opened Wrappers
  import Js
  import Auth
  import Numbers
  import Carts
  import Orders

  datatype Outcome =
    | EmptyCart                                        // "Your cart is empty": nothing is sent
    | NotSignedIn                                      // no token: nothing is sent
    | OrderRejected(status: int)                       // the order POST failed: nothing changed
    | Placed(order: Orders.Order, clearStatus: int)    // the order exists; `clearStatus` is the DELETE's

  /**
   * The client's checkout for `userId`, holding `token`, with its copy of the
   * cart (`cartId`, `items`) and the total it priced. The order is created
   * first; the cart is then emptied if the user has one, and the outcome is a
   * success either way.
   */
  method Checkout(carts: Carts.CartStore, ledger: Orders.OrderLedger, token: string, userId: int,
                  cartId: int, items: seq<Carts.CartItem>, total: Js.Amount, now: Js.Timestamp)
    returns (outcome: Outcome)
    requires carts.Valid() && ledger.Valid()
    modifies carts, ledger
    ensures carts.Valid() && ledger.Valid()
    ensures carts.nextCartId == old(carts.nextCartId)
    ensures outcome.EmptyCart? <==> items == []
    ensures outcome.NotSignedIn? <==> items != [] && token == ""
    ensures outcome.OrderRejected? <==> items != [] && token != "" && (userId == 0 || cartId == 0)
    ensures !outcome.Placed? ==>
              && carts.carts == old(carts.carts)
              && ledger.orders == old(ledger.orders) && ledger.nextOrderId == old(ledger.nextOrderId)
    ensures outcome.OrderRejected? ==> outcome.status == 400
    ensures outcome.Placed? ==>
              && outcome.order == Orders.Order(old(ledger.nextOrderId), userId, cartId, items, Some(total), now)
              && ledger.orders == old(ledger.orders) + [outcome.order]
              && ledger.nextOrderId == old(ledger.nextOrderId) + 1
    ensures outcome.Placed? ==>
              match Carts.FindCart(old(carts.carts), userId)
              case None => outcome.clearStatus == 404 && carts.carts == old(carts.carts)
              case Some(k) => outcome.clearStatus == 200 && carts.carts == Carts.AfterClear(old(carts.carts), k)
  {
    if items == [] {
      return EmptyCart;
    }
    if token == "" {
      return NotSignedIn;
    }
    var header := Some(Auth.Bearer + token);
    Auth.BearerToken(token);
    var status, order := ledger.Post(header, Some(userId), Some(cartId), Some(items), Some(total), now);
    if status != 201 {
      return OrderRejected(status);
    }
    var query := Numbers.ToDecimal(userId);
    Carts.ClearTargetOfDecimal(carts.carts, userId);
    assert query[0] == '-' || Numbers.IsDigit(query[0], 10);
    var clearStatus := carts.Delete(header, Some(query));
    return Placed(order.value, clearStatus);
  }

  /** The first add to an empty store creates cart 1, owned by the user, with one line. */
  lemma FirstAdd(userId: int, itemId: int, quantity: int, now: Js.Timestamp)
    ensures Carts.AfterAdd(Carts.State([], 1), userId, itemId, quantity, now)
            == Carts.State([Carts.Cart(1, userId, [Carts.CartItem(itemId, quantity)], now)], 2)
  {
    assert Carts.FindCart([], userId) == None;
    assert Carts.FindLine([], itemId) == None;
    assert Carts.AddLine([], itemId, quantity) == [Carts.CartItem(itemId, quantity)];
  }

  /**
   * Adding to a one-line cart an item that line already holds raises that
   * line's quantity, adds no line and leaves the counter alone.
   */
  lemma SecondAdd(id: int, userId: int, itemId: int, q0: int, q: int, next: int,
                  created: Js.Timestamp, now: Js.Timestamp)
    ensures Carts.AfterAdd(Carts.State([Carts.Cart(id, userId, [Carts.CartItem(itemId, q0)], created)], next),
                           userId, itemId, q, now)
            == Carts.State([Carts.Cart(id, userId, [Carts.CartItem(itemId, q0 + q)], created)], next)
  {
    var cs := [Carts.Cart(id, userId, [Carts.CartItem(itemId, q0)], created)];
    assert Carts.FindCart(cs, userId) == Some(0);
    assert Carts.FindLine(cs[0].items, itemId) == Some(0);
    assert Carts.AddLine(cs[0].items, itemId, q) == [Carts.CartItem(itemId, q0 + q)];
  }

  /** Two adds of item 1 by user 7, of 1 and then 2, leave one line of quantity 3. */
  method MergeScenario(token: string, now: Js.Timestamp) returns (carts: Carts.CartStore)
    requires token != ""
    ensures fresh(carts)
    ensures carts.Valid() && carts.carts == [Carts.Cart(1, 7, [Carts.CartItem(1, 3)], now)]
  {
    var header := Some(Auth.Bearer + token);
    Auth.BearerToken(token);
    carts := new Carts.CartStore();
    FirstAdd(7, 1, 1, now);
    assert Js.WithDefault(None, 1) == 1;
    var status, cart := carts.Post(header, Some(7), Some(1), None, now);
    SecondAdd(1, 7, 1, 1, 2, 2, now, now);
    assert Js.WithDefault(Some(2), 1) == 2;
    status, cart := carts.Post(header, Some(7), Some(1), Some(2), now);
  }

  /** Checking out that cart records the order as sent and leaves the cart empty. */
  method CheckoutScenario(token: string, now: Js.Timestamp)
    returns (outcome: Outcome, orders: seq<Orders.Order>, cartsAfter: seq<Carts.Cart>)
    requires token != ""
    ensures outcome.Placed? && outcome.clearStatus == 200
    ensures orders == [Orders.Order(1, 7, 1, [Carts.CartItem(1, 3)], Some(4497), now)]
    ensures cartsAfter == [Carts.Cart(1, 7, [], now)]
  {
    var carts := MergeScenario(token, now);
    var ledger := new Orders.OrderLedger();
    assert Carts.FindCart(carts.carts, 7) == Some(0);
    outcome := Checkout(carts, ledger, token, 7, 1, [Carts.CartItem(1, 3)], 4497, now);
    orders, cartsAfter := ledger.orders, carts.carts;
  }

  /** Clearing the cart of a user who has none answers 404 and changes nothing. */
  method MissingCartScenario(token: string, now: Js.Timestamp) returns (status: int, cartsAfter: seq<Carts.Cart>)
    requires token != ""
    ensures status == 404
    ensures cartsAfter == [Carts.Cart(1, 7, [Carts.CartItem(1, 3)], now)]
  {
    var header := Some(Auth.Bearer + token);
    Auth.BearerToken(token);
    var carts := MergeScenario(token, now);
    Carts.ClearTargetOfDecimal(carts.carts, 999);
    status := carts.Delete(header, Some(Numbers.ToDecimal(999)));
    cartsAfter := carts.carts;
  }
}
