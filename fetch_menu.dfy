/** GET /api/fetch/menu: the items of the restaurant named in the token. An
    ADMIN gets all of them; anyone else only when the restaurant is in their
    own country. */
module FetchMenu {
  import opened Schema
  import opened Tables
  import opened Http

  /** `item.restaurant?.name ?? ""`. */
  function RestaurantName(restaurants: seq<Restaurant>, id: string): (n: string)
    ensures FindRestaurant(restaurants, id).Some? ==> n == FindRestaurant(restaurants, id).value.name
    ensures FindRestaurant(restaurants, id).None? ==> n == ""
  {
    match FindRestaurant(restaurants, id)
    case None => ""
    case Some(r) => r.name
  }

  /** An item as the menu sends it. */
  function MenuEntry(restaurants: seq<Restaurant>, item: Item): (m: MenuItem)
    ensures m.id == item.id && m.name == item.name && m.description == item.description
    ensures m.price == item.price && m.imageUrl == item.image
    ensures m.restaurantName == RestaurantName(restaurants, item.restaurantId)
  {
    MenuItem(item.id, item.name, item.description, item.price,
             RestaurantName(restaurants, item.restaurantId), item.image)
  }

  /** `mapItemsToMenu`: one entry per item, in order. */
  function MapItemsToMenu(restaurants: seq<Restaurant>, items: seq<Item>): (m: seq<MenuItem>)
    ensures |m| == |items|
    ensures forall i :: 0 <= i < |items| ==> m[i] == MenuEntry(restaurants, items[i])
  {
    seq(|items|, i requires 0 <= i < |items| => MenuEntry(restaurants, items[i]))
  }

  /** The relation filter `restaurant: { country }`: the item's restaurant
      is in `country`. */
  predicate InCountry(restaurants: seq<Restaurant>, item: Item, country: string) {
    match FindRestaurant(restaurants, item.restaurantId)
    case None => false
    case Some(r) => r.country == country
  }

  /** The item query of each branch. */
  function MenuItems(db: Db, user: User, restaurantId: string): seq<Item> {
    if user.role != Admin then
      Where(db.items, (i: Item) => i.restaurantId == restaurantId && InCountry(db.restaurants, i, user.country))
    else
      Where(db.items, (i: Item) => i.restaurantId == restaurantId)
  }

  /** The checks before the item query: token, user id, user, restaurant id
      claim, restaurant. */
  function Reader(db: Db, token: AccessToken): (g: Guard<(User, Restaurant)>)
    ensures g.Reject? ==> g.response.status in {400, 401}
    ensures (g.Reject? && g.response.status == 401) <==>
              || token.Missing? || token.Invalid? || !Present(UserIdClaim(token))
              || (FindUser(db.users, UserIdClaim(token).value).Some? && !Present(RestaurantClaim(token)))
    ensures (g.Reject? && g.response.status == 400) <==>
              && Present(UserIdClaim(token))
              && (|| FindUser(db.users, UserIdClaim(token).value).None?
                  || (Present(RestaurantClaim(token)) && FindRestaurant(db.restaurants, RestaurantClaim(token).value).None?))
    ensures g.Pass? <==>
              && Present(UserIdClaim(token)) && Present(RestaurantClaim(token))
              && FindUser(db.users, UserIdClaim(token).value).Some?
              && FindRestaurant(db.restaurants, RestaurantClaim(token).value).Some?
    ensures g.Pass? ==>
              && FindUser(db.users, UserIdClaim(token).value) == Some(g.value.0)
              && FindRestaurant(db.restaurants, RestaurantClaim(token).value) == Some(g.value.1)
  {
    if token.Missing? then Reject(Fail(401, AccessTokenRequired))
    else if token.Invalid? then Reject(Fail(401, InvalidAccessToken))
    else if !Present(UserIdClaim(token)) then Reject(Fail(401, UserIdNotInToken))
    else match FindUser(db.users, UserIdClaim(token).value)
      case None => Reject(Fail(400, UserNotFound))
      case Some(user) =>
        if !Present(RestaurantClaim(token)) then Reject(Fail(401, RestaurantIdNotInToken))
        else match FindRestaurant(db.restaurants, RestaurantClaim(token).value)
          case None => Reject(Fail(400, RestaurantNotFound))
          case Some(restaurant) => Pass((user, restaurant))
  }

  /** The whole route: an empty menu is an error on both branches. */
  function FetchMenu(db: Db, token: AccessToken): (resp: Response)
    ensures resp.status in {200, 400, 401}
    ensures resp.status == 200 ==> resp.payload.Menu? && |resp.payload.menu| > 0
    ensures Reader(db, token).Reject? ==> resp == Reader(db, token).response
    ensures Reader(db, token).Pass? ==>
              (resp.status == 200 <==>
                 |MenuItems(db, Reader(db, token).value.0, RestaurantClaim(token).value)| > 0)
  {
    match Reader(db, token)
    case Reject(response) => response
    case Pass((user, restaurant)) =>
      var items := MenuItems(db, user, RestaurantClaim(token).value);
      if |items| == 0 then Fail(400, NoItems)
      else Response(200, Menu(MapItemsToMenu(db.restaurants, items)))
  }

  /** The entry is the menu entry of an item of the restaurant, and for a
      caller other than an ADMIN that restaurant is in the caller's country. */
  ghost predicate Served(db: Db, user: User, rid: string, m: MenuItem) {
    exists item :: item in db.items && item.restaurantId == rid && m == MenuEntry(db.restaurants, item)
                   && (user.role != Admin ==> InCountry(db.restaurants, item, user.country))
  }

  /** Every entry of a menu is an item of the restaurant in the token (in
      the caller's country unless the caller is an ADMIN) and carries that
      restaurant's name. */
  lemma {:induction false} MenuIsTheRestaurants(db: Db, token: AccessToken)
    requires FetchMenu(db, token).status == 200
    ensures var (user, restaurant) := Reader(db, token).value;
            var menu := FetchMenu(db, token).payload.menu;
      forall i :: 0 <= i < |menu| ==>
        menu[i].restaurantName == restaurant.name && Served(db, user, RestaurantClaim(token).value, menu[i])
  {
    var (user, restaurant) := Reader(db, token).value;
    var rid := RestaurantClaim(token).value;
    var items := MenuItems(db, user, rid);
    var menu := MapItemsToMenu(db.restaurants, items);
    assert FetchMenu(db, token).payload.menu == menu;
    forall i | 0 <= i < |menu|
      ensures menu[i].restaurantName == restaurant.name && Served(db, user, rid, menu[i])
    {
      assert items[i] in items;
      assert items[i].restaurantId == rid;
      assert items[i] in db.items && menu[i] == MenuEntry(db.restaurants, items[i]);
    }
  }

  /** An ADMIN's menu lists every item of the restaurant. */
  lemma {:induction false} AdminMenuIsComplete(db: Db, token: AccessToken)
    requires Reader(db, token).Pass? && Reader(db, token).value.0.role == Admin
    ensures var rid := RestaurantClaim(token).value;
      forall item :: item in db.items && item.restaurantId == rid ==>
        FetchMenu(db, token).status == 200 && MenuEntry(db.restaurants, item) in FetchMenu(db, token).payload.menu
  {
    var user := Reader(db, token).value.0;
    var rid := RestaurantClaim(token).value;
    var items := MenuItems(db, user, rid);
    var menu := MapItemsToMenu(db.restaurants, items);
    forall item | item in db.items && item.restaurantId == rid
      ensures FetchMenu(db, token).status == 200 && MenuEntry(db.restaurants, item) in FetchMenu(db, token).payload.menu
    {
      var i :| 0 <= i < |items| && items[i] == item;
      assert menu[i] == MenuEntry(db.restaurants, item);
    }
  }

  /** Any other caller gets no menu from a restaurant of another country:
      400, whatever items it has. */
  lemma {:induction false} ForeignMenuIsEmpty(db: Db, token: AccessToken)
    requires Reader(db, token).Pass?
    requires Reader(db, token).value.0.role != Admin
    requires Reader(db, token).value.1.country != Reader(db, token).value.0.country
    ensures FetchMenu(db, token) == Fail(400, NoItems)
  {
    var (user, restaurant) := Reader(db, token).value;
    var rid := RestaurantClaim(token).value;
    WhereNone(db.items, (i: Item) => i.restaurantId == rid && InCountry(db.restaurants, i, user.country));
  }

  /** In a restaurant of their own country, any other caller gets the same
      menu an ADMIN gets. */
  lemma {:induction false} HomeMenuIsFull(db: Db, token: AccessToken)
    requires Reader(db, token).Pass?
    requires Reader(db, token).value.1.country == Reader(db, token).value.0.country
    ensures var rid := RestaurantClaim(token).value;
      MenuItems(db, Reader(db, token).value.0, rid) == Where(db.items, (i: Item) => i.restaurantId == rid)
  {
    var (user, restaurant) := Reader(db, token).value;
    var rid := RestaurantClaim(token).value;
    if user.role != Admin {
      WhereAgree(db.items, (i: Item) => i.restaurantId == rid && InCountry(db.restaurants, i, user.country),
                 (i: Item) => i.restaurantId == rid);
    }
  }
}
