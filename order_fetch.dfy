/** GET /api/order/fetch: a MANAGER or ADMIN reads the ORDERED cart of the
    customer whose phone number the token carries. */
module OrderFetch {
  import opened Schema
  import opened Tables
  import opened Http
  import opened Listings

  /** `formatCartItems`: the lines of the FIRST cart only, each tagged with
      that cart's id; no cart gives no entries. */
  function FormatCartItems(carts: seq<CartView>): (r: seq<FormattedItem>)
    ensures |carts| == 0 ==> r == []
    ensures |carts| > 0 ==> |r| == |carts[0].items|
    ensures |carts| > 0 ==> forall i :: 0 <= i < |r| ==>
              && r[i].id == carts[0].items[i].item.id && r[i].price == carts[0].items[i].item.price
              && r[i].quantity == carts[0].items[i].line.quantity
              && r[i].restaurentId == carts[0].restaurantId && r[i].cartId == Some(carts[0].id)
  {
    if |carts| == 0 then [] else Entries(carts[0].items, carts[0].restaurantId, Some(carts[0].id))
  }

  /** `cart.findMany({ where: { userId, status: "ORDERED" } })`. */
  function OrderedCarts(db: Db, userId: string): (r: seq<Cart>)
    ensures forall c :: c in r <==> c in db.carts && c.userId == userId && c.status == Ordered
  {
    Where(db.carts, (c: Cart) => c.userId == userId && c.status == Ordered)
  }

  /** The checks before the customer lookup: token, user id, user, role. */
  function Reader(db: Db, token: AccessToken): (g: Guard<User>)
    ensures g.Reject? ==> g.response.status in {401, 403, 404}
    ensures (g.Reject? && g.response.status == 401) <==> token.Missing? || !Present(UserIdClaim(token))
    ensures (g.Reject? && g.response.status == 404) <==>
              Present(UserIdClaim(token)) && FindUser(db.users, UserIdClaim(token).value).None?
    ensures (g.Reject? && g.response.status == 403) <==>
              && Present(UserIdClaim(token))
              && FindUser(db.users, UserIdClaim(token).value).Some?
              && FindUser(db.users, UserIdClaim(token).value).value.role !in {Manager, Admin}
    ensures g.Pass? <==>
              && Present(UserIdClaim(token))
              && FindUser(db.users, UserIdClaim(token).value).Some?
              && FindUser(db.users, UserIdClaim(token).value).value.role in {Manager, Admin}
    ensures g.Pass? ==> FindUser(db.users, UserIdClaim(token).value) == Some(g.value)
  {
    if token.Missing? then Reject(Fail(401, AccessTokenRequired))
    else if !Present(UserIdClaim(token)) then Reject(Fail(401, InvalidAccessToken))
    else match FindUser(db.users, UserIdClaim(token).value)
      case None => Reject(Fail(404, UserNotFound))
      case Some(user) =>
        if user.role != Manager && user.role != Admin then Reject(Fail(403, UnauthorizedAccess))
        else Pass(user)
  }

  /** The whole route. With no phone claim the customer lookup has an
      undefined unique key and throws; with no such customer, reading the
      null customer's id throws: both are answered with 500. */
  function FetchOrders(db: Db, token: AccessToken): (resp: Response)
    ensures resp.status in {200, 401, 403, 404, 500}
    ensures resp.status == 500 <==>
              Reader(db, token).Pass? &&
              (PhoneClaim(token).None? || FindUserByPhone(db.users, PhoneClaim(token).value).None?)
    ensures resp.status == 200 <==>
              && Reader(db, token).Pass? && PhoneClaim(token).Some?
              && FindUserByPhone(db.users, PhoneClaim(token).value).Some?
    ensures resp.status == 200 ==> resp.payload.CartItems?
    ensures Reader(db, token).Reject? ==> resp == Reader(db, token).response
  {
    match Reader(db, token)
    case Reject(response) => response
    case Pass(_) =>
      if PhoneClaim(token).None? then Fail(500, InternalError)
      else match FindUserByPhone(db.users, PhoneClaim(token).value)
        case None => Fail(500, InternalError)
        case Some(customer) =>
          Response(200, CartItems(FormatCartItems(ViewsOf(db, OrderedCarts(db, customer.id)))))
  }

  /** The listing is the customer's first ORDERED cart, line by line and
      tagged with its id, or nothing when there is none. */
  lemma {:induction false} OrderListingIsFirstOrdered(db: Db, token: AccessToken)
    requires FetchOrders(db, token).status == 200
    ensures var listed := FetchOrders(db, token).payload.formattedItems;
            var customer := FindUserByPhone(db.users, PhoneClaim(token).value).value;
            var first := First(db.carts, (c: Cart) => c.userId == customer.id && c.status == Ordered);
      && (first.None? ==> listed == [])
      && (first.Some? ==> listed == Entries(ViewOf(db, first.value).items, first.value.restaurantId, Some(first.value.id)))
  {
    var customer := FindUserByPhone(db.users, PhoneClaim(token).value).value;
    WhereHead(db.carts, (c: Cart) => c.userId == customer.id && c.status == Ordered);
  }

  /** Only the customer's ORDERED carts are read: every entry is a line of
      an ORDERED cart of the customer, tagged with that cart's id. */
  lemma {:induction false} OrderListingIsOrdered(db: Db, token: AccessToken)
    requires FetchOrders(db, token).status == 200
    ensures var listed := FetchOrders(db, token).payload.formattedItems;
            var customer := FindUserByPhone(db.users, PhoneClaim(token).value).value;
      forall e :: e in listed ==>
        exists c :: c in db.carts && c.userId == customer.id && c.status == Ordered
                    && e.cartId == Some(c.id) && ListedLine(db, c, e)
  {
    var listed := FetchOrders(db, token).payload.formattedItems;
    var customer := FindUserByPhone(db.users, PhoneClaim(token).value).value;
    var first := First(db.carts, (c: Cart) => c.userId == customer.id && c.status == Ordered);
    OrderListingIsFirstOrdered(db, token);
    if first.Some? {
      ListingIsTheCart(db, first.value, Some(first.value.id));
    }
  }
}
