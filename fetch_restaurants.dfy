/** GET /api/fetch/restaurants: the restaurants a caller may see. An ADMIN
    sees every restaurant, anyone else those of their own country. */
module FetchRestaurants {
  import opened Schema
  import opened Tables
  import opened Http

  /** A restaurant as the listing sends it: `location` becomes `address`,
      `priceLevel` becomes `pricelevel`, the country is not sent. */
  function Formatted(r: Restaurant): (f: FormattedRestaurant)
    ensures f.id == r.id && f.name == r.name && f.address == r.location && f.cuisine == r.cuisine
    ensures f.rating == r.rating && f.image == r.image && f.pricelevel == r.priceLevel
  {
    FormattedRestaurant(r.id, r.name, r.location, r.cuisine, r.rating, r.image, r.priceLevel)
  }

  /** `formatRestaurants`: one entry per restaurant, in order. */
  function FormatRestaurants(rs: seq<Restaurant>): (r: seq<FormattedRestaurant>)
    ensures |r| == |rs|
    ensures forall i :: 0 <= i < |rs| ==> r[i] == Formatted(rs[i])
  {
    seq(|rs|, i requires 0 <= i < |rs| => Formatted(rs[i]))
  }

  /** Which restaurants the query returns. For a caller with no user record
      the country filter is undefined, and an undefined filter value is
      dropped: every restaurant is returned. */
  predicate Visible(user: Option<User>, r: Restaurant) {
    match user
    case None => true
    case Some(u) => u.role == Admin || r.country == u.country
  }

  /** The whole route. A token that decodes without a user id makes the user
      lookup throw, which the route answers with 500. */
  function FetchRestaurants(db: Db, token: AccessToken): (resp: Response)
    ensures resp.status in {200, 401, 500}
    ensures resp.status == 401 <==> token.Missing? || token.Invalid?
    ensures resp.status == 500 <==> token.Decoded? && token.claims.id.None?
    ensures resp.status == 200 ==> resp.payload.Restaurants?
  {
    if token.Missing? then Fail(401, AccessTokenRequired)
    else if token.Invalid? then Fail(401, InvalidAccessToken)
    else if token.claims.id.None? then Fail(500, FetchRestaurantsFailed)
    else
      var user := FindUser(db.users, token.claims.id.value);
      Response(200, Restaurants(FormatRestaurants(Where(db.restaurants, (r: Restaurant) => Visible(user, r)))))
  }

  /** `f` is how some restaurant of `rs` that `user` may see is sent. */
  ghost predicate ShownTo(rs: seq<Restaurant>, user: Option<User>, f: FormattedRestaurant) {
    exists r :: r in rs && Visible(user, r) && f == Formatted(r)
  }

  /** Every restaurant the caller may see is listed, and every entry listed
      is a restaurant the caller may see. */
  lemma {:induction false} ListingIsVisible(db: Db, token: AccessToken)
    requires token.Decoded? && token.claims.id.Some?
    ensures var user := FindUser(db.users, token.claims.id.value);
            var listed := FetchRestaurants(db, token).payload.formatted;
      && (forall r :: r in db.restaurants && Visible(user, r) ==> Formatted(r) in listed)
      && (forall f :: f in listed ==> ShownTo(db.restaurants, user, f))
  {
    var user := FindUser(db.users, token.claims.id.value);
    var shown := Where(db.restaurants, (r: Restaurant) => Visible(user, r));
    var listed := FormatRestaurants(shown);
    assert FetchRestaurants(db, token).payload.formatted == listed;
    forall r | r in db.restaurants && Visible(user, r) ensures Formatted(r) in listed {
      var i :| 0 <= i < |shown| && shown[i] == r;
      assert listed[i] == Formatted(r);
    }
    forall f | f in listed ensures ShownTo(db.restaurants, user, f) {
      var i :| 0 <= i < |listed| && listed[i] == f;
      assert shown[i] in shown;
    }
  }

  /** An ADMIN gets every restaurant, in storage order. */
  lemma {:induction false} AdminSeesAll(db: Db, token: AccessToken)
    requires token.Decoded? && token.claims.id.Some?
    requires FindUser(db.users, token.claims.id.value).Some?
    requires FindUser(db.users, token.claims.id.value).value.role == Admin
    ensures FetchRestaurants(db, token) == Response(200, Restaurants(FormatRestaurants(db.restaurants)))
  {
    var user := FindUser(db.users, token.claims.id.value);
    WhereAll(db.restaurants, (r: Restaurant) => Visible(user, r));
  }

  /** A caller with no user record gets every restaurant too. */
  lemma {:induction false} UnknownUserSeesAll(db: Db, token: AccessToken)
    requires token.Decoded? && token.claims.id.Some?
    requires FindUser(db.users, token.claims.id.value).None?
    ensures FetchRestaurants(db, token) == Response(200, Restaurants(FormatRestaurants(db.restaurants)))
  {
    WhereAll(db.restaurants, (r: Restaurant) => Visible(None, r));
  }

  /** Any other caller gets exactly the restaurants of their own country,
      in storage order. */
  lemma {:induction false} OthersSeeOwnCountry(db: Db, token: AccessToken)
    requires token.Decoded? && token.claims.id.Some?
    requires FindUser(db.users, token.claims.id.value).Some?
    requires FindUser(db.users, token.claims.id.value).value.role != Admin
    ensures var u := FindUser(db.users, token.claims.id.value).value;
      FetchRestaurants(db, token) ==
        Response(200, Restaurants(FormatRestaurants(Where(db.restaurants, (r: Restaurant) => r.country == u.country))))
  {
    var user := FindUser(db.users, token.claims.id.value);
    WhereAgree(db.restaurants, (r: Restaurant) => Visible(user, r), (r: Restaurant) => r.country == user.value.country);
  }
}
