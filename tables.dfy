/** The store's queries and writes, standing in for the ORM calls of the
    route handlers: findUnique/findFirst pick the first matching row in
    storage order, findMany keeps every matching row in order, an update or
    delete applies to every row its filter selects. */
module Tables {
  import opened Schema

  // ---------------------------------------------------------------- generic

  /** Position of the first row satisfying `p`. */
  function FirstIndex<T>(s: seq<T>, p: T -> bool): (r: Option<nat>)
    ensures r.Some? ==> r.value < |s| && p(s[r.value]) && forall j :: 0 <= j < r.value ==> !p(s[j])
    ensures r.None? ==> forall j :: 0 <= j < |s| ==> !p(s[j])
    decreases |s|
  {
    if |s| == 0 then None
    else if p(s[0]) then Some(0)
    else match FirstIndex(s[1..], p)
      case None => None
      case Some(k) => Some(k + 1)
  }

  function First<T(!new)>(s: seq<T>, p: T -> bool): (r: Option<T>)
    ensures r.Some? ==> r.value in s && p(r.value)
    ensures r.None? <==> forall x :: x in s ==> !p(x)
  {
    match FirstIndex(s, p)
    case None => None
    case Some(i) => Some(s[i])
  }

  /** Position of the matching row with the largest `key` (an `orderBy: desc`
      query with a limit of one); among equal keys the earliest row wins. */
  function LatestIndex<T>(s: seq<T>, p: T -> bool, key: T -> int): (r: Option<nat>)
    ensures r.Some? ==> r.value < |s| && p(s[r.value])
    ensures r.Some? ==> forall j :: 0 <= j < |s| && p(s[j]) ==> key(s[j]) <= key(s[r.value])
    ensures r.Some? ==> forall j :: 0 <= j < r.value && p(s[j]) ==> key(s[j]) < key(s[r.value])
    ensures r.None? ==> forall j :: 0 <= j < |s| ==> !p(s[j])
    decreases |s|
  {
    if |s| == 0 then None
    else
      var rest := LatestIndex(s[1..], p, key);
      if p(s[0]) && (rest.None? || key(s[0]) >= key(s[1 + rest.value])) then Some(0)
      else if rest.None? then None
      else Some(rest.value + 1)
  }

  /** Two tables whose rows agree on a filter, row by row, give the same
      first match position. */
  lemma {:induction false} FirstIndexAgree<T>(s: seq<T>, t: seq<T>, p: T -> bool)
    requires |s| == |t|
    requires forall i :: 0 <= i < |s| ==> (p(s[i]) <==> p(t[i]))
    ensures FirstIndex(s, p) == FirstIndex(t, p)
    decreases |s|
  {
    if |s| > 0 {
      FirstIndexAgree(s[1..], t[1..], p);
    }
  }

  /** The matching rows, in storage order (a `findMany` with a filter). */
  function Where<T(!new)>(s: seq<T>, p: T -> bool): (r: seq<T>)
    ensures |r| <= |s|
    ensures forall x :: x in r <==> x in s && p(x)
    decreases |s|
  {
    if |s| == 0 then []
    else (if p(s[0]) then [s[0]] else []) + Where(s[1..], p)
  }

  /** Two filters that agree on every row select the same rows. */
  lemma {:induction false} WhereAgree<T(!new)>(s: seq<T>, p: T -> bool, q: T -> bool)
    requires forall x :: x in s ==> p(x) == q(x)
    ensures Where(s, p) == Where(s, q)
    decreases |s|
  {
    if |s| > 0 {
      WhereAgree(s[1..], p, q);
    }
  }

  /** A filter every row passes keeps the table as it is. */
  lemma {:induction false} WhereAll<T(!new)>(s: seq<T>, p: T -> bool)
    requires forall x :: x in s ==> p(x)
    ensures Where(s, p) == s
    decreases |s|
  {
    if |s| > 0 {
      WhereAll(s[1..], p);
    }
  }

  /** A filter no row passes selects nothing. */
  lemma {:induction false} WhereNone<T(!new)>(s: seq<T>, p: T -> bool)
    requires forall x :: x in s ==> !p(x)
    ensures Where(s, p) == []
    decreases |s|
  {
    if |s| > 0 {
      WhereNone(s[1..], p);
    }
  }

  /** The first row a filter selects is the row `First` finds. */
  lemma {:induction false} WhereHead<T(!new)>(s: seq<T>, p: T -> bool)
    ensures |Where(s, p)| > 0 <==> First(s, p).Some?
    ensures |Where(s, p)| > 0 ==> Where(s, p)[0] == First(s, p).value
    decreases |s|
  {
    if |s| > 0 && !p(s[0]) {
      WhereHead(s[1..], p);
      assert Where(s, p) == Where(s[1..], p);
      assert FirstIndex(s, p) == match FirstIndex(s[1..], p) case None => None case Some(k) => Some(k + 1);
    }
  }

  /** Rewrites every cart the filter selects (an `update` on the cart table). */
  function UpdateCarts(carts: seq<Cart>, p: Cart -> bool, f: Cart -> Cart): (r: seq<Cart>)
    ensures |r| == |carts|
    ensures forall i :: 0 <= i < |carts| ==> r[i] == if p(carts[i]) then f(carts[i]) else carts[i]
    decreases |carts|
  {
    if |carts| == 0 then []
    else [if p(carts[0]) then f(carts[0]) else carts[0]] + UpdateCarts(carts[1..], p, f)
  }

  // ----------------------------------------------------------------- lookups

  function FindUser(users: seq<User>, id: string): (r: Option<User>)
    ensures r.Some? ==> r.value in users && r.value.id == id
    ensures r.None? <==> forall u :: u in users ==> u.id != id
  {
    First(users, (u: User) => u.id == id)
  }

  function FindUserByPhone(users: seq<User>, phone: string): (r: Option<User>)
    ensures r.Some? ==> r.value in users && r.value.phoneNumber == Some(phone)
    ensures r.None? <==> forall u :: u in users ==> u.phoneNumber != Some(phone)
  {
    First(users, (u: User) => u.phoneNumber == Some(phone))
  }

  function FindRestaurant(restaurants: seq<Restaurant>, id: string): (r: Option<Restaurant>)
    ensures r.Some? ==> r.value in restaurants && r.value.id == id
    ensures r.None? <==> forall x :: x in restaurants ==> x.id != id
  {
    First(restaurants, (x: Restaurant) => x.id == id)
  }

  function FindItem(items: seq<Item>, id: string): (r: Option<Item>)
    ensures r.Some? ==> r.value in items && r.value.id == id
    ensures r.None? <==> forall x :: x in items ==> x.id != id
  {
    First(items, (x: Item) => x.id == id)
  }

  /** `cart.findUnique({ where: { id, status } })`. */
  function FindCartWithStatus(carts: seq<Cart>, id: string, status: Status): (r: Option<Cart>)
    ensures r.Some? ==> r.value in carts && r.value.id == id && r.value.status == status
    ensures r.None? <==> forall c :: c in carts ==> c.id != id || c.status != status
  {
    First(carts, (c: Cart) => c.id == id && c.status == status)
  }

  /** `cart.findFirst({ where: { status: "PENDING", userId } })`, no ordering. */
  function FirstPendingCart(carts: seq<Cart>, userId: string): (r: Option<Cart>)
    ensures r.Some? ==> r.value in carts && r.value.userId == userId && r.value.status == Pending
    ensures r.None? <==> forall c :: c in carts ==> c.userId != userId || c.status != Pending
  {
    First(carts, (c: Cart) => c.userId == userId && c.status == Pending)
  }

  /** The user's PENDING cart with the latest `createdAt`. */
  function LatestPendingCart(carts: seq<Cart>, userId: string): (r: Option<Cart>)
    ensures r.Some? ==> r.value in carts && r.value.userId == userId && r.value.status == Pending
    ensures r.Some? ==> forall c :: c in carts && c.userId == userId && c.status == Pending ==>
                          c.createdAt <= r.value.createdAt
    ensures r.None? <==> forall c :: c in carts ==> c.userId != userId || c.status != Pending
  {
    match LatestIndex(carts, (c: Cart) => c.userId == userId && c.status == Pending, (c: Cart) => c.createdAt)
    case None => None
    case Some(i) => Some(carts[i])
  }

  /** The user's cart of any status with the latest `updatedAt`. */
  function LatestCartOf(carts: seq<Cart>, userId: string): (r: Option<Cart>)
    ensures r.Some? ==> r.value in carts && r.value.userId == userId
    ensures r.Some? ==> forall c :: c in carts && c.userId == userId ==> c.updatedAt <= r.value.updatedAt
    ensures r.None? <==> forall c :: c in carts ==> c.userId != userId
  {
    match LatestIndex(carts, (c: Cart) => c.userId == userId, (c: Cart) => c.updatedAt)
    case None => None
    case Some(i) => Some(carts[i])
  }

  /** `cartItem.findFirst({ where: { cartId, itemId } })`. */
  function FindLine(lines: seq<CartLine>, cartId: string, itemId: string): (r: Option<CartLine>)
    ensures r.Some? ==> r.value in lines && r.value.cartId == cartId && r.value.itemId == itemId
    ensures r.None? <==> forall l :: l in lines ==> l.cartId != cartId || l.itemId != itemId
  {
    First(lines, (l: CartLine) => l.cartId == cartId && l.itemId == itemId)
  }

  /** The lines of one cart, in storage order (the cart's `items` relation). */
  function LinesOf(lines: seq<CartLine>, cartId: string): (r: seq<CartLine>)
    ensures forall l :: l in r <==> l in lines && l.cartId == cartId
  {
    Where(lines, (l: CartLine) => l.cartId == cartId)
  }

  // ------------------------------------------------------------- line writes

  /** `cartItem.update({ where: { id }, data: { quantity, price } })`. */
  function SetLine(lines: seq<CartLine>, id: string, quantity: int, price: int): (r: seq<CartLine>)
    ensures |r| == |lines|
    decreases |lines|
  {
    if |lines| == 0 then []
    else [if lines[0].id == id then lines[0].(quantity := quantity, price := price) else lines[0]]
         + SetLine(lines[1..], id, quantity, price)
  }

  /** The rows `SetLine` rewrites are exactly those with the given id. */
  lemma {:induction false} SetLineAt(lines: seq<CartLine>, id: string, quantity: int, price: int)
    ensures forall i :: 0 <= i < |lines| ==>
              SetLine(lines, id, quantity, price)[i]
              == if lines[i].id == id then lines[i].(quantity := quantity, price := price) else lines[i]
    decreases |lines|
  {
    if |lines| > 0 {
      SetLineAt(lines[1..], id, quantity, price);
      var r := SetLine(lines, id, quantity, price);
      forall i | 1 <= i < |lines|
        ensures r[i] == if lines[i].id == id then lines[i].(quantity := quantity, price := price) else lines[i]
      {
        assert r[i] == SetLine(lines[1..], id, quantity, price)[i - 1];
        assert lines[i] == lines[1..][i - 1];
      }
    }
  }

  /** `cartItem.delete({ where: { id } })`. */
  function RemoveLine(lines: seq<CartLine>, id: string): (r: seq<CartLine>)
    ensures |r| <= |lines|
    ensures forall l :: l in r <==> l in lines && l.id != id
    decreases |lines|
  {
    if |lines| == 0 then []
    else (if lines[0].id == id then [] else [lines[0]]) + RemoveLine(lines[1..], id)
  }

  // ------------------------------------------------------------- cart writes

  /** `cart.update({ where: { id }, data: { totalPrice: { increment: delta } } })`;
      a decrement is a negative `delta`. */
  function AddToTotal(carts: seq<Cart>, id: string, delta: int): (r: seq<Cart>)
    ensures |r| == |carts|
    decreases |carts|
  {
    if |carts| == 0 then []
    else [if carts[0].id == id then carts[0].(totalPrice := carts[0].totalPrice + delta) else carts[0]]
         + AddToTotal(carts[1..], id, delta)
  }

  /** The carts `AddToTotal` rewrites are exactly those with the given id. */
  lemma {:induction false} AddToTotalAt(carts: seq<Cart>, id: string, delta: int, i: nat)
    requires i < |carts|
    ensures AddToTotal(carts, id, delta)[i]
            == if carts[i].id == id then carts[i].(totalPrice := carts[i].totalPrice + delta) else carts[i]
    decreases i
  {
    if i > 0 {
      AddToTotalAt(carts[1..], id, delta, i - 1);
    }
  }

  function SetStatus(carts: seq<Cart>, id: string, status: Status): (r: seq<Cart>)
    ensures |r| == |carts|
    ensures forall i :: 0 <= i < |carts| ==>
              r[i] == if carts[i].id == id then carts[i].(status := status) else carts[i]
  {
    UpdateCarts(carts, (c: Cart) => c.id == id, (c: Cart) => c.(status := status))
  }

  function SetPaymentMethod(carts: seq<Cart>, id: string, paymentMethod: string): (r: seq<Cart>)
    ensures |r| == |carts|
    ensures forall i :: 0 <= i < |carts| ==>
              r[i] == if carts[i].id == id then carts[i].(paymentMethod := Some(paymentMethod)) else carts[i]
  {
    UpdateCarts(carts, (c: Cart) => c.id == id, (c: Cart) => c.(paymentMethod := Some(paymentMethod)))
  }

  /** The order-placing update `where: { id, userId, status: "PENDING" }`,
      setting the status to ORDERED and the owner to `owner`. */
  function PlaceOrder(carts: seq<Cart>, id: string, userId: string, owner: string): (r: seq<Cart>)
    ensures |r| == |carts|
    ensures forall i :: 0 <= i < |carts| ==>
              r[i] == if carts[i].id == id && carts[i].userId == userId && carts[i].status == Pending
                      then carts[i].(status := Ordered, userId := owner) else carts[i]
  {
    UpdateCarts(carts, (c: Cart) => c.id == id && c.userId == userId && c.status == Pending,
                (c: Cart) => c.(status := Ordered, userId := owner))
  }

  /** The order-placing update leaves no copy of the PENDING cart it takes. */
  lemma PlaceOrderTakes(carts: seq<Cart>, c: Cart, owner: string)
    requires c.status == Pending
    ensures c !in PlaceOrder(carts, c.id, c.userId, owner)
  {
    var r := PlaceOrder(carts, c.id, c.userId, owner);
    forall i | 0 <= i < |r| ensures r[i] != c {
    }
  }

  // --------------------------------------------------------------- line sums

  /** The sum of the subtotals of a cart's lines. */
  function LineSum(lines: seq<CartLine>, cartId: string): int
    decreases |lines|
  {
    if |lines| == 0 then 0
    else (if lines[0].cartId == cartId then lines[0].price else 0) + LineSum(lines[1..], cartId)
  }

  lemma {:induction false} SetLineAbsent(lines: seq<CartLine>, id: string, quantity: int, price: int)
    requires LineIdFresh(lines, id)
    ensures SetLine(lines, id, quantity, price) == lines
    decreases |lines|
  {
    if |lines| > 0 {
      SetLineAbsent(lines[1..], id, quantity, price);
      assert lines == [lines[0]] + lines[1..];
    }
  }

  lemma {:induction false} RemoveLineAbsent(lines: seq<CartLine>, id: string)
    requires LineIdFresh(lines, id)
    ensures RemoveLine(lines, id) == lines
    decreases |lines|
  {
    if |lines| > 0 {
      RemoveLineAbsent(lines[1..], id);
    }
  }

  /** Rewriting one line moves its cart's sum by the change of its subtotal. */
  lemma {:induction false} SetLineSum(lines: seq<CartLine>, line: CartLine, quantity: int, price: int, cartId: string)
    requires UniqueLineIds(lines) && line in lines
    ensures LineSum(SetLine(lines, line.id, quantity, price), cartId)
            == LineSum(lines, cartId) + (if line.cartId == cartId then price - line.price else 0)
    decreases |lines|
  {
    var r := SetLine(lines, line.id, quantity, price);
    assert r[1..] == SetLine(lines[1..], line.id, quantity, price);
    if lines[0] == line {
      SetLineAbsent(lines[1..], line.id, quantity, price);
    } else {
      assert line in lines[1..];
      FreshNotIn(lines[1..], lines[0].id, line);
      SetLineSum(lines[1..], line, quantity, price, cartId);
    }
  }

  /** Deleting one line lowers its cart's sum by its subtotal. */
  lemma {:induction false} RemoveLineSum(lines: seq<CartLine>, line: CartLine, cartId: string)
    requires UniqueLineIds(lines) && line in lines
    ensures LineSum(RemoveLine(lines, line.id), cartId)
            == LineSum(lines, cartId) - (if line.cartId == cartId then line.price else 0)
    decreases |lines|
  {
    var r := RemoveLine(lines, line.id);
    if lines[0] == line {
      RemoveLineAbsent(lines[1..], line.id);
      assert r == RemoveLine(lines[1..], line.id);
    } else {
      assert line in lines[1..];
      FreshNotIn(lines[1..], lines[0].id, line);
      RemoveLineSum(lines[1..], line, cartId);
      assert r == [lines[0]] + RemoveLine(lines[1..], line.id);
      assert r[1..] == RemoveLine(lines[1..], line.id);
    }
  }

  /** Appending a line raises its cart's sum by its subtotal. */
  lemma {:induction false} AppendLineSum(lines: seq<CartLine>, line: CartLine, cartId: string)
    ensures LineSum(lines + [line], cartId) == LineSum(lines, cartId) + (if line.cartId == cartId then line.price else 0)
    decreases |lines|
  {
    if |lines| > 0 {
      assert (lines + [line])[1..] == lines[1..] + [line];
      AppendLineSum(lines[1..], line, cartId);
    }
  }

  /** Deleting a line after rewriting it is the same as deleting it. */
  lemma {:induction false} RemoveAfterSet(lines: seq<CartLine>, id: string, quantity: int, price: int)
    ensures RemoveLine(SetLine(lines, id, quantity, price), id) == RemoveLine(lines, id)
    decreases |lines|
  {
    if |lines| > 0 {
      var s := SetLine(lines, id, quantity, price);
      assert s[1..] == SetLine(lines[1..], id, quantity, price);
      RemoveAfterSet(lines[1..], id, quantity, price);
    }
  }

  /** Two total adjustments of one cart add up. */
  lemma {:induction false} AddToTotalTwice(carts: seq<Cart>, id: string, a: int, b: int)
    ensures AddToTotal(AddToTotal(carts, id, a), id, b) == AddToTotal(carts, id, a + b)
    decreases |carts|
  {
    if |carts| > 0 {
      var x := AddToTotal(carts, id, a);
      assert x[1..] == AddToTotal(carts[1..], id, a);
      AddToTotalTwice(carts[1..], id, a, b);
    }
  }

  // ---------------------------------------------------- key uniqueness

  /** No line of a table in which `id` is fresh carries `id`. */
  lemma {:induction false} FreshNotIn(lines: seq<CartLine>, id: string, l: CartLine)
    requires LineIdFresh(lines, id) && l in lines
    ensures l.id != id
    decreases |lines|
  {
    if l != lines[0] {
      assert l in lines[1..];
      FreshNotIn(lines[1..], id, l);
    }
  }

  /** Two lines of a table with unique ids that share an id are the same line. */
  lemma {:induction false} SameIdSameLine(lines: seq<CartLine>, l: CartLine, m: CartLine)
    requires UniqueLineIds(lines) && l in lines && m in lines && l.id == m.id
    ensures l == m
    decreases |lines|
  {
    if l != lines[0] && m != lines[0] {
      assert l in lines[1..] && m in lines[1..];
      SameIdSameLine(lines[1..], l, m);
    } else if l != lines[0] {
      assert l in lines[1..];
      FreshNotIn(lines[1..], lines[0].id, l);
    } else if m != lines[0] {
      assert m in lines[1..];
      FreshNotIn(lines[1..], lines[0].id, m);
    }
  }

  /** Rewriting lines keeps an id that was absent absent. */
  lemma {:induction false} SetLineKeepsFresh(lines: seq<CartLine>, id: string, quantity: int, price: int, x: string)
    requires LineIdFresh(lines, x)
    ensures LineIdFresh(SetLine(lines, id, quantity, price), x)
    decreases |lines|
  {
    if |lines| > 0 {
      SetLineKeepsFresh(lines[1..], id, quantity, price, x);
      var r := SetLine(lines, id, quantity, price);
      assert r[1..] == SetLine(lines[1..], id, quantity, price);
    }
  }

  /** Deleting lines keeps an id that was absent absent. */
  lemma {:induction false} RemoveLineKeepsFresh(lines: seq<CartLine>, id: string, x: string)
    requires LineIdFresh(lines, x)
    ensures LineIdFresh(RemoveLine(lines, id), x)
    decreases |lines|
  {
    if |lines| > 0 {
      var rest := RemoveLine(lines[1..], id);
      RemoveLineKeepsFresh(lines[1..], id, x);
      if lines[0].id != id {
        var r := [lines[0]] + rest;
        assert r[1..] == rest;
        assert RemoveLine(lines, id) == r;
      } else {
        assert RemoveLine(lines, id) == rest;
      }
    }
  }

  /** Appending a line whose id differs from `x` keeps `x` absent. */
  lemma {:induction false} AppendKeepsFresh(lines: seq<CartLine>, line: CartLine, x: string)
    requires LineIdFresh(lines, x) && line.id != x
    ensures LineIdFresh(lines + [line], x)
    decreases |lines|
  {
    if |lines| > 0 {
      assert (lines + [line])[1..] == lines[1..] + [line];
      AppendKeepsFresh(lines[1..], line, x);
    } else {
      assert ([] + [line])[1..] == [];
    }
  }

  lemma {:induction false} SetLineKeepsIds(lines: seq<CartLine>, id: string, quantity: int, price: int)
    requires UniqueLineIds(lines)
    ensures UniqueLineIds(SetLine(lines, id, quantity, price))
    decreases |lines|
  {
    if |lines| > 0 {
      var r := SetLine(lines, id, quantity, price);
      assert r[1..] == SetLine(lines[1..], id, quantity, price);
      SetLineKeepsIds(lines[1..], id, quantity, price);
      SetLineKeepsFresh(lines[1..], id, quantity, price, lines[0].id);
    }
  }

  lemma {:induction false} RemoveLineKeepsIds(lines: seq<CartLine>, id: string)
    requires UniqueLineIds(lines)
    ensures UniqueLineIds(RemoveLine(lines, id))
    decreases |lines|
  {
    if |lines| > 0 {
      var rest := RemoveLine(lines[1..], id);
      RemoveLineKeepsIds(lines[1..], id);
      if lines[0].id != id {
        RemoveLineKeepsFresh(lines[1..], id, lines[0].id);
        var r := [lines[0]] + rest;
        assert r[1..] == rest;
        assert RemoveLine(lines, id) == r;
      } else {
        assert RemoveLine(lines, id) == rest;
      }
    }
  }

  lemma {:induction false} AppendKeepsIds(lines: seq<CartLine>, line: CartLine)
    requires UniqueLineIds(lines) && LineIdFresh(lines, line.id)
    ensures UniqueLineIds(lines + [line])
    decreases |lines|
  {
    if |lines| > 0 {
      var r := lines + [line];
      assert r[1..] == lines[1..] + [line];
      AppendKeepsFresh(lines[1..], line, lines[0].id);
      AppendKeepsIds(lines[1..], line);
    } else {
      assert ([] + [line])[1..] == [];
    }
  }
}
