/** GET /api/order/fetch/latest: a MANAGER or ADMIN reads the most recently
    updated cart, of any status, of the customer whose phone number the token
    carries. */
module OrderFetchLatest {
  import opened Schema
  import opened Tables
  import opened Http
  import opened Listings

  /** `formatCartItems`: no cart, or a cart without lines, gives no
      entries; otherwise one entry per line, tagged with the cart's id. */
  function FormatCartItems(cart: Option<CartView>): (r: seq<FormattedItem>)
    ensures cart.None? ==> r == []
    ensures cart.Some? ==> |r| == |cart.value.items|
    ensures cart.Some? ==> forall i :: 0 <= i < |r| ==>
              && r[i].id == cart.value.items[i].item.id && r[i].price == cart.value.items[i].item.price
              && r[i].quantity == cart.value.items[i].line.quantity
              && r[i].restaurentId == cart.value.restaurantId && r[i].cartId == Some(cart.value.id)
  {
    match cart
    case None => []
    case Some(c) => if |c.items| == 0 then [] else Entries(c.items, c.restaurantId, Some(c.id))
  }

  /** The checks before the customer lookup: token, user id, user, role and
      the phone claim. */
  function Reader(db: Db, token: AccessToken): (g: Guard<User>)
    ensures g.Reject? ==> g.response.status in {400, 401, 403, 404}
    ensures (g.Reject? && g.response.status == 401) <==> token.Missing? || !Present(UserIdClaim(token))
    ensures (g.Reject? && g.response.status == 400) <==>
              && Present(UserIdClaim(token))
              && FindUser(db.users, UserIdClaim(token).value).Some?
              && FindUser(db.users, UserIdClaim(token).value).value.role in {Manager, Admin}
              && !Present(PhoneClaim(token))
    ensures (g.Reject? && g.response.status == 404) <==>
              Present(UserIdClaim(token)) && FindUser(db.users, UserIdClaim(token).value).None?
    ensures (g.Reject? && g.response.status == 403) <==>
              && Present(UserIdClaim(token))
              && FindUser(db.users, UserIdClaim(token).value).Some?
              && FindUser(db.users, UserIdClaim(token).value).value.role !in {Manager, Admin}
    ensures g.Pass? <==>
              && Present(UserIdClaim(token)) && Present(PhoneClaim(token))
              && FindUser(db.users, UserIdClaim(token).value).Some?
              && FindUser(db.users, UserIdClaim(token).value).value.role in {Manager, Admin}
    ensures g.Pass? ==> FindUser(db.users, UserIdClaim(token).value) == Some(g.value)
  {
    if token.Missing? then Reject(Fail(401, AccessTokenRequired))
    else if !Present(UserIdClaim(token)) then Reject(Fail(401, InvalidAccessToken))
    else match FindUser(db.users, UserIdClaim(token).value)
      case None => Reject(Fail(404, UserNotFound))
      case Some(user) =>
        if user.role != Manager && user.role != Admin then Reject(Fail(403, UnauthorizedAccess))
        else if !Present(PhoneClaim(token)) then Reject(Fail(400, PhoneNotInToken))
        else Pass(user)
  }

  /** The whole route. With no such customer, reading the null customer's id
      throws, which the route answers with 500. */
  function FetchLatest(db: Db, token: AccessToken): (resp: Response)
    ensures resp.status in {200, 400, 401, 403, 404, 500}
    ensures resp.status == 500 <==>
              Reader(db, token).Pass? && FindUserByPhone(db.users, PhoneClaim(token).value).None?
    ensures resp.status == 200 <==>
              Reader(db, token).Pass? && FindUserByPhone(db.users, PhoneClaim(token).value).Some?
    ensures resp.status == 200 ==> resp.payload.CartItems?
    ensures Reader(db, token).Reject? ==> resp == Reader(db, token).response
  {
    match Reader(db, token)
    case Reject(response) => response
    case Pass(_) =>
      match FindUserByPhone(db.users, PhoneClaim(token).value)
      case None => Fail(500, InternalError)
      case Some(customer) =>
        var latest := LatestCartOf(db.carts, customer.id);
        Response(200, CartItems(FormatCartItems(
          match latest case None => None case Some(c) => Some(ViewOf(db, c)))))
  }

  /** The cart listed is the customer's cart with the latest `updatedAt`,
      whatever its status: every entry is one of its lines, tagged with its
      id, and no cart of the customer was updated later. */
  lemma {:induction false} LatestListingIsNewestCart(db: Db, token: AccessToken)
    requires FetchLatest(db, token).status == 200
    ensures var listed := FetchLatest(db, token).payload.formattedItems;
            var customer := FindUserByPhone(db.users, PhoneClaim(token).value).value;
            var latest := LatestCartOf(db.carts, customer.id);
      && (latest.None? ==> listed == [])
      && (latest.Some? ==>
            && (forall c :: c in db.carts && c.userId == customer.id ==> c.updatedAt <= latest.value.updatedAt)
            && (forall e :: e in listed ==> ListedLine(db, latest.value, e) && e.cartId == Some(latest.value.id)))
  {
    var customer := FindUserByPhone(db.users, PhoneClaim(token).value).value;
    var latest := LatestCartOf(db.carts, customer.id);
    if latest.Some? {
      ListingIsTheCart(db, latest.value, Some(latest.value.id));
    }
  }
}
