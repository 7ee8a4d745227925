/** POST /api/order/payment/modify: an ADMIN sets the payment method of a
    COMPLETED cart that belongs to the customer whose phone number the
    token carries. */
module PaymentModify {
  import opened Schema
  import opened Tables
  import opened Http

  /** The JSON body `{ cartId, payment_method }`. */
  datatype PaymentRequest = PaymentRequest(cartId: Option<string>, paymentMethod: Option<string>)

  /** Every field the route demands before any lookup is there: cart id,
      payment method, and a token with a user id and a phone number. */
  predicate Supplied(token: AccessToken, req: PaymentRequest) {
    && Present(req.cartId) && Present(req.paymentMethod)
    && Present(UserIdClaim(token)) && Present(PhoneClaim(token))
  }

  /** The user the token names is a known ADMIN. */
  predicate KnownAdmin(db: Db, token: AccessToken) {
    && Present(UserIdClaim(token))
    && FindUser(db.users, UserIdClaim(token).value).Some?
    && FindUser(db.users, UserIdClaim(token).value).value.role == Admin
  }

  /** The checks before the cart lookup, in the route's order: cart id,
      payment method, token, user id, phone (each missing one is a 400),
      user, ADMIN role, and the customer with the token's phone. */
  function Modifier(db: Db, token: AccessToken, req: PaymentRequest): (g: Guard<User>)
    ensures g.Reject? ==> g.response.status in {400, 403, 404}
    ensures (g.Reject? && g.response.status == 400) <==> !Supplied(token, req)
    ensures (g.Reject? && g.response.status == 403) <==>
              && Supplied(token, req)
              && FindUser(db.users, UserIdClaim(token).value).Some?
              && FindUser(db.users, UserIdClaim(token).value).value.role != Admin
    ensures (g.Reject? && g.response.status == 404) <==>
              && Supplied(token, req)
              && (|| FindUser(db.users, UserIdClaim(token).value).None?
                  || (KnownAdmin(db, token) && FindUserByPhone(db.users, PhoneClaim(token).value).None?))
    ensures g.Pass? <==>
              && Supplied(token, req) && KnownAdmin(db, token)
              && FindUserByPhone(db.users, PhoneClaim(token).value).Some?
    ensures g.Pass? ==> FindUserByPhone(db.users, PhoneClaim(token).value) == Some(g.value)
  {
    if !Present(req.cartId) then Reject(Fail(400, CartIdRequired))
    else if !Present(req.paymentMethod) then Reject(Fail(400, PaymentMethodRequired))
    else if token.Missing? then Reject(Fail(400, AccessTokenRequired))
    else if !Present(UserIdClaim(token)) then Reject(Fail(400, UserIdNotInToken))
    else if !Present(PhoneClaim(token)) then Reject(Fail(400, PhoneNotInToken))
    else match FindUser(db.users, UserIdClaim(token).value)
      case None => Reject(Fail(404, UserNotFound))
      case Some(user) =>
        if user.role != Admin then Reject(Fail(403, UnauthorizedAccess))
        else match FindUserByPhone(db.users, PhoneClaim(token).value)
          case None => Reject(Fail(404, CustomerNotFound))
          case Some(customer) => Pass(customer)
  }

  /** The whole route. The payment method is stored as sent: the route does
      not check it against the schema's list of methods. */
  function ModifyPayment(db: Db, token: AccessToken, req: PaymentRequest): (o: Outcome)
    ensures o.response.status in {200, 400, 403, 404}
    ensures o.response.status != 200 ==> o.db == db
    ensures o.db == db.(carts := o.db.carts)
    ensures Modifier(db, token, req).Reject? ==> o.response == Modifier(db, token, req).response
    ensures Modifier(db, token, req).Pass? && FindCartWithStatus(db.carts, req.cartId.value, Completed).None? ==>
              o.response == Fail(404, CartNotCompleted)
    ensures Modifier(db, token, req).Pass? && FindCartWithStatus(db.carts, req.cartId.value, Completed).Some? &&
            FindCartWithStatus(db.carts, req.cartId.value, Completed).value.userId != Modifier(db, token, req).value.id ==>
              o.response == Fail(403, CartOfOtherCustomer)
    ensures o.response.status == 200 <==>
              && Modifier(db, token, req).Pass?
              && FindCartWithStatus(db.carts, req.cartId.value, Completed).Some?
              && FindCartWithStatus(db.carts, req.cartId.value, Completed).value.userId == Modifier(db, token, req).value.id
  {
    match Modifier(db, token, req)
    case Reject(response) => Outcome(response, db)
    case Pass(customer) =>
      match FindCartWithStatus(db.carts, req.cartId.value, Completed)
      case None => Outcome(Fail(404, CartNotCompleted), db)
      case Some(cart) =>
        if cart.userId != customer.id then Outcome(Fail(403, CartOfOtherCustomer), db)
        else Outcome(Ok(PaymentModified),
                     db.(carts := SetPaymentMethod(db.carts, req.cartId.value, req.paymentMethod.value)))
  }

  /** A payment change writes only the payment method of the carts with
      that id: status, owner and total stay as they were. */
  lemma {:induction false} PaymentChangesOnlyMethod(db: Db, token: AccessToken, req: PaymentRequest)
    requires ModifyPayment(db, token, req).response.status == 200
    ensures var after := ModifyPayment(db, token, req).db.carts;
      && |after| == |db.carts|
      && forall i :: 0 <= i < |db.carts| ==>
           after[i] == if db.carts[i].id == req.cartId.value
                       then db.carts[i].(paymentMethod := req.paymentMethod)
                       else db.carts[i]
  {
    assert ModifyPayment(db, token, req).db.carts ==
           SetPaymentMethod(db.carts, req.cartId.value, req.paymentMethod.value);
  }

  /** Setting the payment method twice in a row is the same as once. */
  lemma {:induction false} SetPaymentMethodTwice(carts: seq<Cart>, id: string, m: string)
    ensures SetPaymentMethod(SetPaymentMethod(carts, id, m), id, m) == SetPaymentMethod(carts, id, m)
  {
    var once := SetPaymentMethod(carts, id, m);
    var twice := SetPaymentMethod(once, id, m);
    assert |twice| == |once|;
    forall i | 0 <= i < |once| ensures twice[i] == once[i] {
    }
  }

  /** The COMPLETED cart found is found again after its payment method
      changed: the update touches no column the lookup reads. */
  lemma {:induction false} SetPaymentMethodKeepsLookup(carts: seq<Cart>, id: string, m: string)
    ensures var c := FindCartWithStatus(carts, id, Completed);
            var d := FindCartWithStatus(SetPaymentMethod(carts, id, m), id, Completed);
      c.Some? == d.Some? && (c.Some? ==> d.value == c.value.(paymentMethod := Some(m)))
  {
    var after := SetPaymentMethod(carts, id, m);
    var p := (c: Cart) => c.id == id && c.status == Completed;
    assert forall i :: 0 <= i < |carts| ==> (p(after[i]) <==> p(carts[i]));
    FirstIndexAgree(carts, after, p);
  }

  /** The route is idempotent: repeating a successful request succeeds again
      and leaves the store as the first request left it. */
  lemma {:induction false} ModifyPaymentIdempotent(db: Db, token: AccessToken, req: PaymentRequest)
    requires ModifyPayment(db, token, req).response.status == 200
    ensures var once := ModifyPayment(db, token, req);
            var twice := ModifyPayment(once.db, token, req);
      twice == once
  {
    var once := ModifyPayment(db, token, req).db;
    assert once.users == db.users;
    SetPaymentMethodKeepsLookup(db.carts, req.cartId.value, req.paymentMethod.value);
    SetPaymentMethodTwice(db.carts, req.cartId.value, req.paymentMethod.value);
  }
}
