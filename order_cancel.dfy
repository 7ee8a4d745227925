/** POST /api/order/cancel: a MANAGER or ADMIN cancels an ORDERED cart. */
module OrderCancel {
  import opened Schema
  import opened Tables
  import opened Http

  /** The checks before the cart lookup: cart id in the body (checked before
      the token), token, user id, user, and the MANAGER/ADMIN role. */
  function Canceller(db: Db, token: AccessToken, cartId: Option<string>): (g: Guard<User>)
    ensures g.Reject? ==> g.response.status in {400, 401, 403, 404}
    ensures (g.Reject? && g.response.status == 400) <==> !Present(cartId)
    ensures (g.Reject? && g.response.status == 401) <==>
              Present(cartId) && (token.Missing? || !Present(UserIdClaim(token)))
    ensures (g.Reject? && g.response.status == 404) <==>
              Present(cartId) && Present(UserIdClaim(token)) && FindUser(db.users, UserIdClaim(token).value).None?
    ensures (g.Reject? && g.response.status == 403) <==>
              && Present(cartId) && Present(UserIdClaim(token))
              && FindUser(db.users, UserIdClaim(token).value).Some?
              && FindUser(db.users, UserIdClaim(token).value).value.role !in {Manager, Admin}
    ensures g.Pass? <==>
              && Present(cartId) && Present(UserIdClaim(token))
              && FindUser(db.users, UserIdClaim(token).value).Some?
              && FindUser(db.users, UserIdClaim(token).value).value.role in {Manager, Admin}
    ensures g.Pass? ==> FindUser(db.users, UserIdClaim(token).value) == Some(g.value)
  {
    if !Present(cartId) then Reject(Fail(400, OrderIdRequired))
    else if token.Missing? then Reject(Fail(401, AccessTokenRequired))
    else if !Present(UserIdClaim(token)) then Reject(Fail(401, InvalidAccessToken))
    else match FindUser(db.users, UserIdClaim(token).value)
      case None => Reject(Fail(404, UserNotFound))
      case Some(user) =>
        if user.role != Manager && user.role != Admin then Reject(Fail(403, UnauthorizedAccess))
        else Pass(user)
  }

  /** The whole route: an ORDERED cart with the id becomes CANCELLED and is
      sent back as updated. */
  function CancelOrder(db: Db, token: AccessToken, cartId: Option<string>): (o: Outcome)
    ensures o.response.status in {200, 400, 401, 403, 404}
    ensures o.response.status != 200 ==> o.db == db
    ensures o.db == db.(carts := o.db.carts)
    ensures Canceller(db, token, cartId).Reject? ==> o.response == Canceller(db, token, cartId).response
    ensures o.response.status == 200 <==>
              Canceller(db, token, cartId).Pass? && FindCartWithStatus(db.carts, cartId.value, Ordered).Some?
    ensures Canceller(db, token, cartId).Pass? && FindCartWithStatus(db.carts, cartId.value, Ordered).None? ==>
              o.response == Fail(404, CartNotCancellable)
  {
    match Canceller(db, token, cartId)
    case Reject(response) => Outcome(response, db)
    case Pass(_) =>
      match FindCartWithStatus(db.carts, cartId.value, Ordered)
      case None => Outcome(Fail(404, CartNotCancellable), db)
      case Some(cart) =>
        Outcome(Response(200, CancelledOrder(OrderCancelled, cart.(status := Cancelled))),
                db.(carts := SetStatus(db.carts, cartId.value, Cancelled)))
  }

  /** A cancellation turns the carts with that id CANCELLED and changes
      nothing else of the cart table. */
  lemma {:induction false} CancelChangesOnlyStatus(db: Db, token: AccessToken, cartId: Option<string>)
    requires CancelOrder(db, token, cartId).response.status == 200
    ensures var after := CancelOrder(db, token, cartId).db.carts;
      && |after| == |db.carts|
      && forall i :: 0 <= i < |db.carts| ==>
           after[i] == if db.carts[i].id == cartId.value then db.carts[i].(status := Cancelled) else db.carts[i]
  {
    assert CancelOrder(db, token, cartId).db.carts == SetStatus(db.carts, cartId.value, Cancelled);
  }

  /** The cart sent back is the ORDERED cart found, now CANCELLED, and it is
      what the table holds after the update. */
  lemma {:induction false} CancelReturnsUpdatedCart(db: Db, token: AccessToken, cartId: Option<string>)
    requires CancelOrder(db, token, cartId).response.status == 200
    ensures var o := CancelOrder(db, token, cartId);
      && o.response.payload.CancelledOrder?
      && o.response.payload.cart == FindCartWithStatus(db.carts, cartId.value, Ordered).value.(status := Cancelled)
      && o.response.payload.cart in o.db.carts
  {
    var cart := FindCartWithStatus(db.carts, cartId.value, Ordered).value;
    var after := SetStatus(db.carts, cartId.value, Cancelled);
    assert CancelOrder(db, token, cartId).db.carts == after;
    var i :| 0 <= i < |db.carts| && db.carts[i] == cart;
    assert after[i] == cart.(status := Cancelled);
  }

  /** Cancelling twice fails the second time, and changes nothing then. */
  lemma {:induction false} CancelTwiceFails(db: Db, token: AccessToken, cartId: Option<string>)
    requires CancelOrder(db, token, cartId).response.status == 200
    ensures var once := CancelOrder(db, token, cartId).db;
            var twice := CancelOrder(once, token, cartId);
      twice.response == Fail(404, CartNotCancellable) && twice.db == once
  {
    var once := CancelOrder(db, token, cartId).db;
    assert once.users == db.users;
    forall c | c in once.carts ensures c.id != cartId.value || c.status != Ordered {
      var i :| 0 <= i < |once.carts| && once.carts[i] == c;
    }
  }

  /** Only an ORDERED cart can be cancelled: a PENDING, COMPLETED or
      already CANCELLED cart is refused with 404 when no ORDERED row has
      its id. */
  lemma {:induction false} OnlyOrderedCancellable(db: Db, token: AccessToken, cartId: Option<string>)
    requires Canceller(db, token, cartId).Pass?
    requires forall c :: c in db.carts && c.id == cartId.value ==> c.status != Ordered
    ensures CancelOrder(db, token, cartId) == Outcome(Fail(404, CartNotCancellable), db)
  {
  }
}
