/** POST /api/order/create: turns the caller's PENDING cart into an order.
    A caller of role "USER", or one who sends `phoneNo: null`, orders for
    themself; anyone else orders on behalf of the client whose phone number
    they send, and the cart is handed over to that client. */
module OrderCreate {
  import opened Schema
  import opened Tables
  import opened Http

  /** The body's `phoneNo`: JSON null, left out of the body, or a value. */
  datatype PhoneArg = NullPhone | NoPhone | Phone(number: string)

  /** The caller orders for themself (the route's first branch). There is no
      role check on the other branch: every role but "USER" may order for a
      client. */
  predicate SelfOrder(user: User, phoneNo: PhoneArg) {
    user.role == UserRole || phoneNo.NullPhone?
  }

  /** Token, user id and user checks. */
  function Caller(db: Db, token: AccessToken): (g: Guard<User>)
    ensures g.Reject? ==> g.response.status in {401, 404}
    ensures (g.Reject? && g.response.status == 401) <==> token.Missing? || !Present(UserIdClaim(token))
    ensures g.Pass? <==>
              !token.Missing? && Present(UserIdClaim(token)) && FindUser(db.users, UserIdClaim(token).value).Some?
    ensures g.Pass? ==> g.value in db.users && g.value.id == UserIdClaim(token).value
  {
    if token.Missing? then Reject(Fail(401, AccessTokenRequired))
    else if !Present(UserIdClaim(token)) then Reject(Fail(401, UserIdNotInToken))
    else match FindUser(db.users, UserIdClaim(token).value)
      case None => Reject(Fail(404, UserNotFound))
      case Some(user) => Pass(user)
  }

  /** The whole route. A proxy order with no `phoneNo` in the body asks the
      store for the user with an undefined unique key, which throws: 500. */
  function CreateOrder(db: Db, token: AccessToken, phoneNo: PhoneArg): (o: Outcome)
    ensures o.response.status in {200, 401, 404, 500}
    ensures o.response.status != 200 ==> o.db == db
    ensures o.db == db.(carts := o.db.carts)
    ensures |o.db.carts| == |db.carts|
    ensures o.response.status == 500 <==> Caller(db, token).Pass? && !SelfOrder(Caller(db, token).value, phoneNo) && phoneNo.NoPhone?
  {
    match Caller(db, token)
    case Reject(response) => Outcome(response, db)
    case Pass(user) =>
      var userId := UserIdClaim(token).value;
      if SelfOrder(user, phoneNo) then
        match FirstPendingCart(db.carts, userId)
        case None => Outcome(Fail(404, CartNotFound), db)
        case Some(cart) =>
          Outcome(Ok(OrderPlaced), db.(carts := PlaceOrder(db.carts, cart.id, userId, userId)))
      else if phoneNo.NoPhone? then Outcome(Fail(500, InternalServerError), db)
      else match FindUserByPhone(db.users, phoneNo.number)
        case None => Outcome(Fail(404, ClientNotFound), db)
        case Some(client) =>
          match FirstPendingCart(db.carts, userId)
          case None => Outcome(Fail(404, CartNotFound), db)
          case Some(cart) =>
            Outcome(Ok(OrderCreated), db.(carts := PlaceOrder(db.carts, cart.id, userId, client.id)))
  }

  /** Who owns the cart after a successful order: the caller, or the client
      the phone number names. */
  function NewOwner(db: Db, user: User, phoneNo: PhoneArg): string {
    if SelfOrder(user, phoneNo) || phoneNo.NoPhone? then user.id
    else match FindUserByPhone(db.users, phoneNo.number)
      case None => user.id
      case Some(client) => client.id
  }

  /** An order succeeds exactly when the caller is known, has a PENDING cart
      and, on the proxy branch, names the phone number of a known client. */
  lemma {:induction false} OrderSucceedsWhen(db: Db, token: AccessToken, phoneNo: PhoneArg)
    ensures CreateOrder(db, token, phoneNo).response.status == 200 <==>
              && Caller(db, token).Pass?
              && FirstPendingCart(db.carts, UserIdClaim(token).value).Some?
              && (SelfOrder(Caller(db, token).value, phoneNo) ||
                  (phoneNo.Phone? && FindUserByPhone(db.users, phoneNo.number).Some?))
  {
  }

  /** A successful order moves exactly the caller's first PENDING cart to
      ORDERED under its new owner; every other cart, and every field but
      status and owner, stays as it was. */
  lemma {:induction false} OrderMovesOneCart(db: Db, token: AccessToken, phoneNo: PhoneArg)
    requires CreateOrder(db, token, phoneNo).response.status == 200
    ensures var user := Caller(db, token).value;
            var cart := FirstPendingCart(db.carts, user.id).value;
            var owner := NewOwner(db, user, phoneNo);
            var after := CreateOrder(db, token, phoneNo).db.carts;
      forall i :: 0 <= i < |db.carts| ==>
        if db.carts[i] == cart then after[i] == cart.(status := Ordered, userId := owner)
        else db.carts[i].id != cart.id || db.carts[i].userId != user.id || db.carts[i].status != Pending
             ==> after[i] == db.carts[i]
  {
  }

  /** The ordered cart leaves the table as it was: no row is still that
      PENDING cart, so the same cart cannot be ordered twice. */
  lemma {:induction false} OrderedCartLeavesPending(db: Db, token: AccessToken, phoneNo: PhoneArg)
    requires CreateOrder(db, token, phoneNo).response.status == 200
    ensures FirstPendingCart(db.carts, Caller(db, token).value.id).value !in CreateOrder(db, token, phoneNo).db.carts
  {
    var user := Caller(db, token).value;
    var cart := FirstPendingCart(db.carts, user.id).value;
    assert CreateOrder(db, token, phoneNo).db.carts == PlaceOrder(db.carts, cart.id, cart.userId, NewOwner(db, user, phoneNo));
    PlaceOrderTakes(db.carts, cart, NewOwner(db, user, phoneNo));
  }

  /** A self order keeps every cart's owner. */
  lemma {:induction false} SelfOrderKeepsOwners(db: Db, token: AccessToken, phoneNo: PhoneArg)
    requires Caller(db, token).Pass? && SelfOrder(Caller(db, token).value, phoneNo)
    ensures var after := CreateOrder(db, token, phoneNo).db.carts;
      forall i :: 0 <= i < |db.carts| ==> after[i].userId == db.carts[i].userId
  {
  }

  /** A proxy order hands the cart over to a user whose phone number is the
      one in the body. */
  lemma {:induction false} ProxyOrderHandsOver(db: Db, token: AccessToken, phoneNo: PhoneArg)
    requires CreateOrder(db, token, phoneNo).response.status == 200
    requires !SelfOrder(Caller(db, token).value, phoneNo)
    ensures phoneNo.Phone?
    ensures var after := CreateOrder(db, token, phoneNo).db.carts;
      forall i :: 0 <= i < |db.carts| && after[i] != db.carts[i] ==>
        exists u :: u in db.users && u.phoneNumber == Some(phoneNo.number) && after[i].userId == u.id
  {
    var client := FindUserByPhone(db.users, phoneNo.number).value;
    var after := CreateOrder(db, token, phoneNo).db.carts;
    forall i | 0 <= i < |db.carts| && after[i] != db.carts[i]
      ensures exists u :: u in db.users && u.phoneNumber == Some(phoneNo.number) && after[i].userId == u.id
    {
      assert after[i].userId == client.id;
    }
  }

  /** Without a PENDING cart nothing is ordered, on either branch. */
  lemma {:induction false} NoPendingCartNoOrder(db: Db, token: AccessToken, phoneNo: PhoneArg)
    requires Caller(db, token).Pass? && FirstPendingCart(db.carts, UserIdClaim(token).value).None?
    ensures var o := CreateOrder(db, token, phoneNo);
      o.db == db && o.response.status in {404, 500}
  {
  }
}
