/** GET /api/cart/fetch: the lines of the caller's PENDING cart. */
module CartFetch {
  import opened Schema
  import opened Tables
  import opened Http
  import opened Listings

  /** `formatCartItems`: the lines of the FIRST cart only, without a cart
      id; no cart gives no entries. */
  function FormatCartItems(carts: seq<CartView>): (r: seq<FormattedItem>)
    ensures |carts| == 0 ==> r == []
    ensures |carts| > 0 ==> |r| == |carts[0].items|
    ensures |carts| > 0 ==> forall i :: 0 <= i < |r| ==>
              && r[i].id == carts[0].items[i].item.id && r[i].price == carts[0].items[i].item.price
              && r[i].quantity == carts[0].items[i].line.quantity
              && r[i].restaurentId == carts[0].restaurantId && r[i].cartId.None?
  {
    if |carts| == 0 then [] else Entries(carts[0].items, carts[0].restaurantId, None)
  }

  /** `cart.findMany({ where: { userId, status: "PENDING" } })`. */
  function PendingCarts(db: Db, userId: string): (r: seq<Cart>)
    ensures forall c :: c in r <==> c in db.carts && c.userId == userId && c.status == Pending
  {
    Where(db.carts, (c: Cart) => c.userId == userId && c.status == Pending)
  }

  /** The whole route. */
  function FetchCart(db: Db, token: AccessToken): (resp: Response)
    ensures resp.status in {200, 401, 404}
    ensures resp.status == 401 <==> token.Missing? || !Present(UserIdClaim(token))
    ensures resp.status == 404 <==>
              !token.Missing? && Present(UserIdClaim(token)) && FindUser(db.users, UserIdClaim(token).value).None?
    ensures resp.status == 200 ==> resp.payload.CartItems?
  {
    if token.Missing? then Fail(401, AccessTokenRequired)
    else if !Present(UserIdClaim(token)) then Fail(401, InvalidAccessToken)
    else match FindUser(db.users, UserIdClaim(token).value)
      case None => Fail(404, UserNotFound)
      case Some(user) =>
        Response(200, CartItems(FormatCartItems(ViewsOf(db, PendingCarts(db, user.id)))))
  }

  /** The listing is the caller's first PENDING cart in storage order, line
      by line, or nothing when there is none. */
  lemma {:induction false} CartListingIsFirstPending(db: Db, token: AccessToken)
    requires FetchCart(db, token).status == 200
    ensures var listed := FetchCart(db, token).payload.formattedItems;
            var first := FirstPendingCart(db.carts, UserIdClaim(token).value);
      && (first.None? ==> listed == [])
      && (first.Some? ==> listed == Entries(ViewOf(db, first.value).items, first.value.restaurantId, None))
  {
    var user := FindUser(db.users, UserIdClaim(token).value).value;
    WhereHead(db.carts, (c: Cart) => c.userId == user.id && c.status == Pending);
  }

  /** What the caller sees is exactly the lines of their first PENDING cart:
      each entry is one of its lines at the item's unit price, and each of
      its lines is listed. */
  lemma {:induction false} CartListingShowsLines(db: Db, token: AccessToken)
    requires FetchCart(db, token).status == 200
    requires FirstPendingCart(db.carts, UserIdClaim(token).value).Some?
    ensures var listed := FetchCart(db, token).payload.formattedItems;
            var cart := FirstPendingCart(db.carts, UserIdClaim(token).value).value;
      && (forall e :: e in listed ==> ListedLine(db, cart, e) && e.restaurentId == cart.restaurantId)
      && (forall l :: l in db.lines && l.cartId == cart.id && FindItem(db.items, l.itemId).Some? ==>
            Entry(LineView(l, FindItem(db.items, l.itemId).value), cart.restaurantId, None) in listed)
  {
    CartListingIsFirstPending(db, token);
    ListingIsTheCart(db, FirstPendingCart(db.carts, UserIdClaim(token).value).value, None);
  }
}
