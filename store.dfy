/** The database the four writing routes change, as one object whose tables
    the route handlers update one statement at a time. Each handler is proved
    to end in the state, and to answer the response, that the route's
    function gives for the state it started from. */
module Server {
  import opened Schema
  import opened Tables
  import opened Http
  import CartAdd
  import OrderCreate
  import OrderCancel
  import PaymentModify

  class Store {
    var users: seq<User>
    var restaurants: seq<Restaurant>
    var items: seq<Item>
    var carts: seq<Cart>
    var lines: seq<CartLine>

    /** The tables as a value. */
    function Snapshot(): Db
      reads this
    {
      Db(users, restaurants, items, carts, lines)
    }

    /** Line ids are unique and every line's subtotal is its quantity times
        its item's price. Every route keeps this (the cart totals are not
        part of it: the removing decrement breaks them). */
    ghost predicate Consistent()
      reads this
    {
      UniqueLineIds(lines) && CartAdd.LinePricesMatch(Snapshot())
    }

    constructor(db: Db)
      ensures Snapshot() == db
    {
      users := db.users;
      restaurants := db.restaurants;
      items := db.items;
      carts := db.carts;
      lines := db.lines;
    }

    /** POST /api/cart/add, with the writes in the route's order. `newLineId`
        is the id the database gives a created line. */
    method AddToCart(token: AccessToken, req: CartAdd.AddRequest, newLineId: string) returns (r: Response)
      modifies this
      ensures Outcome(r, Snapshot()) == CartAdd.AddToCart(old(Snapshot()), token, req, newLineId)
      ensures old(Consistent()) && LineIdFresh(old(lines), newLineId) ==> Consistent()
    {
      ghost var before := Snapshot();
      ghost var wasConsistent := Consistent() && LineIdFresh(lines, newLineId);
      var g := CartAdd.Authorize(Snapshot(), token, req);
      if g.Reject? {
        return g.response;
      }
      var (cart, item) := g.value;
      r := ApplyChange(cart, item, CartAdd.ChangeOf(req.kind.value), newLineId);
      if wasConsistent {
        CartAdd.AddToCartKeepsLineIds(before, token, req, newLineId);
        CartAdd.AddToCartKeepsLinePrices(before, token, req, newLineId);
      }
    }

    /** The writes of the route once its cart and item are known. */
    method ApplyChange(cart: Cart, item: Item, change: CartAdd.Change, newLineId: string) returns (r: Response)
      modifies this
      ensures Outcome(r, Snapshot()) == CartAdd.Mutate(old(Snapshot()), cart, item, change, newLineId)
    {
      var existing := FindLine(lines, cart.id, item.id);
      if existing.None? {
        r := AddLine(cart, item, newLineId);
        return;
      }
      var line := existing.value;
      match change {
        case Increment =>
          r := IncrementLine(cart, item, line);
        case Decrement =>
          r := DecrementLine(cart, item, line);
        case Delete =>
          r := DeleteLine(cart, line);
        case Unrecognised =>
          r := Fail(400, InvalidType);
      }
    }

    /** A new line of one unit, and the item's price onto the total. */
    method AddLine(cart: Cart, item: Item, newLineId: string) returns (r: Response)
      modifies this
      ensures Outcome(r, Snapshot()) == CartAdd.AddLine(old(Snapshot()), cart, item, newLineId)
    {
      lines := lines + [CartLine(newLineId, cart.id, item.id, 1, item.price)];
      carts := AddToTotal(carts, cart.id, item.price);
      r := Ok(ItemAdded);
    }

    /** One unit more on the line, and the item's price onto the total. */
    method IncrementLine(cart: Cart, item: Item, line: CartLine) returns (r: Response)
      modifies this
      ensures Outcome(r, Snapshot()) == CartAdd.IncrementLine(old(Snapshot()), cart, item, line)
    {
      lines := SetLine(lines, line.id, line.quantity + 1, line.price + item.price);
      carts := AddToTotal(carts, cart.id, item.price);
      r := Ok(QuantityUpdated);
    }

    /** The decrement: one unit off the line and the total, then, if the line
        had at most one unit, the line's deletion and its original subtotal
        off the total once more. */
    method DecrementLine(cart: Cart, item: Item, line: CartLine) returns (r: Response)
      modifies this
      ensures line.quantity <= 1 ==>
                Outcome(r, Snapshot()) == CartAdd.DecrementLastUnit(old(Snapshot()), cart, item, line)
      ensures line.quantity > 1 ==>
                Outcome(r, Snapshot()) == CartAdd.DecrementLine(old(Snapshot()), cart, item, line)
    {
      CartAdd.DecrementLastUnitLines(Snapshot(), cart, item, line);
      CartAdd.DecrementLastUnitCarts(Snapshot(), cart, item, line);
      lines := SetLine(lines, line.id, line.quantity - 1, line.price - item.price);
      carts := AddToTotal(carts, cart.id, -item.price);
      if line.quantity <= 1 {
        r := DeleteLine(cart, line);
      } else {
        r := Ok(QuantityDecremented);
      }
    }

    /** The line's deletion and its subtotal off the cart's total. */
    method DeleteLine(cart: Cart, line: CartLine) returns (r: Response)
      modifies this
      ensures Outcome(r, Snapshot()) == CartAdd.DeleteLine(old(Snapshot()), cart, line)
    {
      lines := RemoveLine(lines, line.id);
      carts := AddToTotal(carts, cart.id, -line.price);
      r := Ok(ItemRemoved);
    }

    /** POST /api/order/create: at most one cart update. */
    method CreateOrder(token: AccessToken, phoneNo: OrderCreate.PhoneArg) returns (r: Response)
      modifies this
      ensures Outcome(r, Snapshot()) == OrderCreate.CreateOrder(old(Snapshot()), token, phoneNo)
      ensures old(Consistent()) ==> Consistent()
    {
      var g := OrderCreate.Caller(Snapshot(), token);
      if g.Reject? {
        return g.response;
      }
      var user := g.value;
      var userId := UserIdClaim(token).value;
      var owner := userId;
      if !OrderCreate.SelfOrder(user, phoneNo) {
        if phoneNo.NoPhone? {
          return Fail(500, InternalServerError);
        }
        var client := FindUserByPhone(users, phoneNo.number);
        if client.None? {
          return Fail(404, ClientNotFound);
        }
        owner := client.value.id;
      }
      var cart := FirstPendingCart(carts, userId);
      if cart.None? {
        return Fail(404, CartNotFound);
      }
      carts := PlaceOrder(carts, cart.value.id, userId, owner);
      r := if OrderCreate.SelfOrder(user, phoneNo) then Ok(OrderPlaced) else Ok(OrderCreated);
    }

    /** POST /api/order/cancel: at most one cart update; the updated cart is
        sent back. */
    method CancelOrder(token: AccessToken, cartId: Option<string>) returns (r: Response)
      modifies this
      ensures Outcome(r, Snapshot()) == OrderCancel.CancelOrder(old(Snapshot()), token, cartId)
      ensures old(Consistent()) ==> Consistent()
    {
      var g := OrderCancel.Canceller(Snapshot(), token, cartId);
      if g.Reject? {
        return g.response;
      }
      var cart := FindCartWithStatus(carts, cartId.value, Ordered);
      if cart.None? {
        return Fail(404, CartNotCancellable);
      }
      carts := SetStatus(carts, cartId.value, Cancelled);
      r := Response(200, CancelledOrder(OrderCancelled, cart.value.(status := Cancelled)));
    }

    /** POST /api/order/payment/modify: at most one cart update. */
    method ModifyPayment(token: AccessToken, req: PaymentModify.PaymentRequest) returns (r: Response)
      modifies this
      ensures Outcome(r, Snapshot()) == PaymentModify.ModifyPayment(old(Snapshot()), token, req)
      ensures old(Consistent()) ==> Consistent()
    {
      var g := PaymentModify.Modifier(Snapshot(), token, req);
      if g.Reject? {
        return g.response;
      }
      var customer := g.value;
      var cart := FindCartWithStatus(carts, req.cartId.value, Completed);
      if cart.None? {
        return Fail(404, CartNotCompleted);
      }
      if cart.value.userId != customer.id {
        return Fail(403, CartOfOtherCustomer);
      }
      carts := SetPaymentMethod(carts, req.cartId.value, req.paymentMethod.value);
      r := Ok(PaymentModified);
    }
  }
}
