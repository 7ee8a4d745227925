/** The cart page's local state: the listed entries and the loading flag,
    the list updates it makes once the server has accepted a change, and the
    two totals it shows. */
module CartPage {
  import opened Schema
  import opened Tables
  import opened Http
  import opened Listings
  import opened CartAdd

  // ------------------------------------------------------------ list updates

  /** The entries with id `id` get one more unit; the others stay. */
  function Incremented(items: seq<FormattedItem>, id: string): (r: seq<FormattedItem>)
    ensures |r| == |items|
    ensures forall i :: 0 <= i < |items| ==>
              r[i] == if items[i].id == id then items[i].(quantity := items[i].quantity + 1) else items[i]
  {
    seq(|items|, i requires 0 <= i < |items| =>
      if items[i].id == id then items[i].(quantity := items[i].quantity + 1) else items[i])
  }

  /** The entries with id `id` get one unit less, but never fewer than zero;
      an entry that reaches zero stays in the list. */
  function Decremented(items: seq<FormattedItem>, id: string): (r: seq<FormattedItem>)
    ensures |r| == |items|
    ensures forall i :: 0 <= i < |items| && items[i].id == id ==>
              r[i] == items[i].(quantity := if items[i].quantity - 1 > 0 then items[i].quantity - 1 else 0)
    ensures forall i :: 0 <= i < |items| && items[i].id != id ==> r[i] == items[i]
    ensures forall i :: 0 <= i < |items| && items[i].id == id ==> r[i].quantity >= 0
  {
    seq(|items|, i requires 0 <= i < |items| =>
      if items[i].id == id then items[i].(quantity := if items[i].quantity - 1 > 0 then items[i].quantity - 1 else 0)
      else items[i])
  }

  /** Every entry with id `id` is dropped; the rest keep their order. */
  function Without(items: seq<FormattedItem>, id: string): (r: seq<FormattedItem>)
    ensures |r| <= |items|
    ensures forall x :: x in r <==> x in items && x.id != id
    decreases |items|
  {
    if |items| == 0 then []
    else (if items[0].id == id then [] else [items[0]]) + Without(items[1..], id)
  }

  /** The update a change of kind `kind` makes to the list once the server
      has answered 200; any other kind leaves the list as it is. */
  function Applied(items: seq<FormattedItem>, id: string, kind: string): seq<FormattedItem> {
    if kind == "increment" then Incremented(items, id)
    else if kind == "decrement" then Decremented(items, id)
    else if kind == "delete" then Without(items, id)
    else items
  }

  // ------------------------------------------------------------------ totals

  /** The item count shown: the sum of the quantities. */
  function TotalQuantity(items: seq<FormattedItem>): int
    decreases |items|
  {
    if |items| == 0 then 0 else items[0].quantity + TotalQuantity(items[1..])
  }

  /** The subtotal shown: the sum of unit price times quantity. */
  function Subtotal(items: seq<FormattedItem>): int
    decreases |items|
  {
    if |items| == 0 then 0 else items[0].price * items[0].quantity + Subtotal(items[1..])
  }

  /** How many entries have id `id`, and their quantities and prices. */
  function Count(items: seq<FormattedItem>, id: string): nat
    decreases |items|
  {
    if |items| == 0 then 0 else (if items[0].id == id then 1 else 0) + Count(items[1..], id)
  }

  function QuantityOf(items: seq<FormattedItem>, id: string): int
    decreases |items|
  {
    if |items| == 0 then 0 else (if items[0].id == id then items[0].quantity else 0) + QuantityOf(items[1..], id)
  }

  function PriceOf(items: seq<FormattedItem>, id: string): int
    decreases |items|
  {
    if |items| == 0 then 0 else (if items[0].id == id then items[0].price else 0) + PriceOf(items[1..], id)
  }

  function SubtotalOf(items: seq<FormattedItem>, id: string): int
    decreases |items|
  {
    if |items| == 0 then 0
    else (if items[0].id == id then items[0].price * items[0].quantity else 0) + SubtotalOf(items[1..], id)
  }

  // -------------------------------------------------------------- properties

  /** An increment adds one unit per matching entry to the item count, and
      their unit prices to the subtotal. */
  lemma {:induction false} IncrementTotals(items: seq<FormattedItem>, id: string)
    ensures TotalQuantity(Incremented(items, id)) == TotalQuantity(items) + Count(items, id)
    ensures Subtotal(Incremented(items, id)) == Subtotal(items) + PriceOf(items, id)
    decreases |items|
  {
    if |items| > 0 {
      assert Incremented(items, id)[1..] == Incremented(items[1..], id);
      IncrementTotals(items[1..], id);
    }
  }

  /** A delete takes the deleted entries' quantities off the item count and
      their amounts off the subtotal. */
  lemma {:induction false} DeleteTotals(items: seq<FormattedItem>, id: string)
    ensures TotalQuantity(Without(items, id)) == TotalQuantity(items) - QuantityOf(items, id)
    ensures Subtotal(Without(items, id)) == Subtotal(items) - SubtotalOf(items, id)
    decreases |items|
  {
    if |items| > 0 {
      DeleteTotals(items[1..], id);
      SumsSplit(if items[0].id == id then [] else [items[0]], Without(items[1..], id));
    }
  }

  lemma {:induction false} SumsSplit(a: seq<FormattedItem>, b: seq<FormattedItem>)
    ensures TotalQuantity(a + b) == TotalQuantity(a) + TotalQuantity(b)
    ensures Subtotal(a + b) == Subtotal(a) + Subtotal(b)
    decreases |a|
  {
    if |a| > 0 {
      assert (a + b)[1..] == a[1..] + b;
      SumsSplit(a[1..], b);
    } else {
      assert a + b == b;
    }
  }

  /** A decrement undoes an increment when no matching entry was below zero. */
  lemma {:induction false} DecrementUndoesIncrement(items: seq<FormattedItem>, id: string)
    requires forall i :: 0 <= i < |items| && items[i].id == id ==> items[i].quantity >= 0
    ensures Decremented(Incremented(items, id), id) == items
  {
    var r := Decremented(Incremented(items, id), id);
    forall i | 0 <= i < |items| ensures r[i] == items[i] {
    }
  }

  /** A decrement keeps every quantity that was not negative not negative. */
  lemma {:induction false} DecrementKeepsNonNegative(items: seq<FormattedItem>, id: string)
    requires forall i :: 0 <= i < |items| ==> items[i].quantity >= 0
    ensures forall x :: x in Decremented(items, id) ==> x.quantity >= 0
  {
    var r := Decremented(items, id);
    forall x | x in r ensures x.quantity >= 0 {
      var i :| 0 <= i < |r| && r[i] == x;
    }
  }

  /** Deleting twice is deleting once. */
  lemma {:induction false} DeleteIdempotent(items: seq<FormattedItem>, id: string)
    ensures Without(Without(items, id), id) == Without(items, id)
    decreases |items|
  {
    if |items| > 0 {
      DeleteIdempotent(items[1..], id);
      WithoutSplit(if items[0].id == id then [] else [items[0]], Without(items[1..], id), id);
    }
  }

  lemma {:induction false} WithoutSplit(a: seq<FormattedItem>, b: seq<FormattedItem>, id: string)
    ensures Without(a + b, id) == Without(a, id) + Without(b, id)
    decreases |a|
  {
    if |a| > 0 {
      assert (a + b)[1..] == a[1..] + b;
      WithoutSplit(a[1..], b, id);
      var head := if a[0].id == id then [] else [a[0]];
      assert Without(a + b, id) == head + Without(a[1..] + b, id);
      assert head + (Without(a[1..], id) + Without(b, id)) == (head + Without(a[1..], id)) + Without(b, id);
    } else {
      assert a + b == b;
    }
  }

  /** On a listing of a cart whose lines are priced at their items' prices,
      the subtotal the page shows is the sum of the cart's line subtotals,
      which is the total the server stores for the cart. */
  lemma {:induction false} ListedSubtotalIsLineSum(db: Db, cart: Cart, cartId: Option<string>)
    requires LinePricesMatch(db)
    ensures Subtotal(Entries(ViewOf(db, cart).items, cart.restaurantId, cartId)) == LineSum(db.lines, cart.id)
  {
    JoinedSubtotal(db.lines, db.items, cart.id, cart.restaurantId, cartId);
  }

  lemma {:induction false} JoinedSubtotal(lines: seq<CartLine>, items: seq<Item>, cid: string, rid: string, cartId: Option<string>)
    requires PricedIn(lines, items)
    ensures Subtotal(Entries(Joined(LinesOf(lines, cid), items), rid, cartId)) == LineSum(lines, cid)
    decreases |lines|
  {
    if |lines| > 0 {
      var l := lines[0];
      var rest := LinesOf(lines[1..], cid);
      JoinedSubtotal(lines[1..], items, cid, rid, cartId);
      LinesOfCons(lines, cid);
      if l.cartId == cid {
        var v := LineView(l, FindItem(items, l.itemId).value);
        ListedAmount(l, items);
        JoinedCons(l, rest, items);
        EntriesCons(v, Joined(rest, items), rid, cartId);
      } else {
        assert [] + rest == rest;
      }
    }
  }

  /** A priced line's amount on the page is its stored subtotal. */
  lemma ListedAmount(l: CartLine, items: seq<Item>)
    requires LinePriced(l, items)
    ensures FindItem(items, l.itemId).value.price * l.quantity == l.price
  {
  }

  /** `Joined` unfolded once, for a line whose item exists. */
  lemma JoinedCons(l: CartLine, ls: seq<CartLine>, items: seq<Item>)
    requires FindItem(items, l.itemId).Some?
    ensures Joined([l] + ls, items) == [LineView(l, FindItem(items, l.itemId).value)] + Joined(ls, items)
  {
    assert ([l] + ls)[1..] == ls;
  }

  /** `LinesOf` unfolded once. */
  lemma LinesOfCons(lines: seq<CartLine>, cid: string)
    requires |lines| > 0
    ensures LinesOf(lines, cid) == (if lines[0].cartId == cid then [lines[0]] else []) + LinesOf(lines[1..], cid)
  {
  }

  lemma EntriesCons(v: LineView, vs: seq<LineView>, rid: string, cartId: Option<string>)
    ensures Subtotal(Entries([v] + vs, rid, cartId)) == v.item.price * v.line.quantity + Subtotal(Entries(vs, rid, cartId))
  {
    assert Entries([v] + vs, rid, cartId)[1..] == Entries(vs, rid, cartId);
  }

  // ------------------------------------------------------------- the page

  /** Where the page's session is. */
  datatype SessionStatus = Loading | SignedOut | SignedIn

  class Page {
    var cartItems: seq<FormattedItem>
    var loading: bool

    constructor()
      ensures cartItems == [] && loading
    {
      cartItems := [];
      loading := true;
    }

    /** `handleQuantityChange`: while the session loads nothing happens;
        signed out, the loading flag drops; signed in, the change is sent and
        the list is updated only if the server answers 200 (`status` is the
        server's answer; a failed request is any other status). The loading
        flag drops in every case once the request is done. */
    method HandleQuantityChange(session: SessionStatus, id: string, kind: string, status: int)
      modifies this
      ensures session == Loading ==> cartItems == old(cartItems) && loading == old(loading)
      ensures session == SignedOut ==> cartItems == old(cartItems) && !loading
      ensures session == SignedIn ==>
                && !loading
                && cartItems == if status == 200 then Applied(old(cartItems), id, kind) else old(cartItems)
    {
      if session == Loading {
        return;
      }
      if session == SignedOut {
        loading := false;
        return;
      }
      if status == 200 {
        if kind == "increment" {
          cartItems := Incremented(cartItems, id);
        } else if kind == "decrement" {
          cartItems := Decremented(cartItems, id);
        } else if kind == "delete" {
          cartItems := Without(cartItems, id);
        }
      }
      loading := false;
    }

    /** The item count the page shows. */
    method ShownQuantity() returns (n: int)
      ensures n == TotalQuantity(cartItems)
    {
      n := 0;
      var i := 0;
      while i < |cartItems|
        invariant 0 <= i <= |cartItems|
        invariant n + TotalQuantity(cartItems[i..]) == TotalQuantity(cartItems)
      {
        assert cartItems[i..][1..] == cartItems[i + 1..];
        n := n + cartItems[i].quantity;
        i := i + 1;
      }
    }

    /** The subtotal the page shows. */
    method ShownSubtotal() returns (s: int)
      ensures s == Subtotal(cartItems)
    {
      s := 0;
      var i := 0;
      while i < |cartItems|
        invariant 0 <= i <= |cartItems|
        invariant s + Subtotal(cartItems[i..]) == Subtotal(cartItems)
      {
        assert cartItems[i..][1..] == cartItems[i + 1..];
        s := s + cartItems[i].price * cartItems[i].quantity;
        i := i + 1;
      }
    }
  }
}
