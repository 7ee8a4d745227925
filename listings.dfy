/** What the three cart-listing routes read: a cart with its lines, each
    line joined with its item (the nested `select` of cart/fetch, order/fetch
    and order/fetch/latest), and the entry each line becomes. */
module Listings {
  import opened Schema
  import opened Tables
  import opened Http

  /** A cart line with its item. */
  datatype LineView = LineView(line: CartLine, item: Item)

  /** A cart with its lines, in storage order. */
  datatype CartView = CartView(id: string, restaurantId: string, items: seq<LineView>)

  /** The lines joined with their items. The item relation is required, so a
      line always has its item; a line whose item is missing is dropped. */
  function Joined(lines: seq<CartLine>, items: seq<Item>): (r: seq<LineView>)
    ensures |r| <= |lines|
    ensures forall v :: v in r ==> v.line in lines && FindItem(items, v.line.itemId) == Some(v.item)
    ensures forall l :: l in lines && FindItem(items, l.itemId).Some? ==>
              LineView(l, FindItem(items, l.itemId).value) in r
    decreases |lines|
  {
    if |lines| == 0 then []
    else
      var rest := Joined(lines[1..], items);
      match FindItem(items, lines[0].itemId)
      case None => rest
      case Some(item) => [LineView(lines[0], item)] + rest
  }

  /** A cart as the listing routes read it. */
  function ViewOf(db: Db, cart: Cart): (v: CartView)
    ensures v.id == cart.id && v.restaurantId == cart.restaurantId
    ensures forall x :: x in v.items ==>
              x.line in db.lines && x.line.cartId == cart.id && FindItem(db.items, x.line.itemId) == Some(x.item)
    ensures forall l :: l in db.lines && l.cartId == cart.id && FindItem(db.items, l.itemId).Some? ==>
              LineView(l, FindItem(db.items, l.itemId).value) in v.items
  {
    CartView(cart.id, cart.restaurantId, Joined(LinesOf(db.lines, cart.id), db.items))
  }

  /** Several carts as the listing routes read them, in the same order. */
  function ViewsOf(db: Db, carts: seq<Cart>): (r: seq<CartView>)
    ensures |r| == |carts|
    ensures forall i :: 0 <= i < |carts| ==> r[i] == ViewOf(db, carts[i])
  {
    seq(|carts|, i requires 0 <= i < |carts| => ViewOf(db, carts[i]))
  }

  /** The entry a line becomes: the item's id, name, image and unit price
      (not the line subtotal), the line's quantity, the cart's restaurant, a
      fixed category "Null" and, for the order routes, the cart's id. */
  function Entry(v: LineView, restaurantId: string, cartId: Option<string>): FormattedItem {
    FormattedItem(v.item.id, v.item.name, "Null", v.item.image, v.item.price, v.line.quantity, restaurantId, cartId)
  }

  /** The entries of a cart's lines, in order. */
  function Entries(vs: seq<LineView>, restaurantId: string, cartId: Option<string>): (r: seq<FormattedItem>)
    ensures |r| == |vs|
    ensures forall i :: 0 <= i < |vs| ==>
              && r[i].id == vs[i].item.id && r[i].name == vs[i].item.name && r[i].image == vs[i].item.image
              && r[i].price == vs[i].item.price && r[i].quantity == vs[i].line.quantity
              && r[i].category == "Null" && r[i].restaurentId == restaurantId && r[i].cartId == cartId
  {
    seq(|vs|, i requires 0 <= i < |vs| => Entry(vs[i], restaurantId, cartId))
  }

  /** `e` is how a line of `cart` is listed: the line's item, at the item's
      unit price, with the line's quantity. */
  ghost predicate ListedLine(db: Db, cart: Cart, e: FormattedItem) {
    exists l :: l in db.lines && l.cartId == cart.id && l.itemId == e.id && l.quantity == e.quantity
                && FindItem(db.items, l.itemId).Some? && FindItem(db.items, l.itemId).value.price == e.price
  }

  /** Every entry of a cart's listing is one of its lines, and every line of
      the cart (whose item exists) is listed. */
  lemma {:induction false} ListingIsTheCart(db: Db, cart: Cart, cartId: Option<string>)
    ensures var listed := Entries(ViewOf(db, cart).items, cart.restaurantId, cartId);
      && (forall e :: e in listed ==> ListedLine(db, cart, e) && e.restaurentId == cart.restaurantId && e.cartId == cartId)
      && (forall l :: l in db.lines && l.cartId == cart.id && FindItem(db.items, l.itemId).Some? ==>
            Entry(LineView(l, FindItem(db.items, l.itemId).value), cart.restaurantId, cartId) in listed)
  {
    var vs := ViewOf(db, cart).items;
    var listed := Entries(vs, cart.restaurantId, cartId);
    forall e | e in listed ensures ListedLine(db, cart, e) && e.restaurentId == cart.restaurantId && e.cartId == cartId {
      var i :| 0 <= i < |listed| && listed[i] == e;
      assert vs[i] in vs;
      assert vs[i].line.itemId == vs[i].item.id;
    }
    forall l | l in db.lines && l.cartId == cart.id && FindItem(db.items, l.itemId).Some?
      ensures Entry(LineView(l, FindItem(db.items, l.itemId).value), cart.restaurantId, cartId) in listed
    {
      var v := LineView(l, FindItem(db.items, l.itemId).value);
      var i :| 0 <= i < |vs| && vs[i] == v;
      assert listed[i] == Entry(v, cart.restaurantId, cartId);
    }
  }
}
