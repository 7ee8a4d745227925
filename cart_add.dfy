/** POST /api/cart/add: increments, decrements or deletes a line of the
    caller's PENDING cart, keeping the line subtotal and the cart's stored
    `totalPrice` in step. The guard chain and the writes are specified here
    as functions of the store; Server.Store.AddToCart performs the writes. */
module CartAdd {
  import opened Schema
  import opened Tables
  import opened Http

  /** The JSON body `{ itemId, restaurantId, type }`. */
  datatype AddRequest = AddRequest(itemId: Option<string>, restaurantId: Option<string>, kind: Option<string>)

  /** The caller has no PENDING cart, or the latest one belongs to another
      restaurant: either way the request is refused. */
  predicate RestaurantMismatch(carts: seq<Cart>, userId: string, restaurantId: string) {
    match LatestPendingCart(carts, userId)
    case None => true
    case Some(c) => c.restaurantId != restaurantId
  }

  /** Every check before the item lookup passes. */
  predicate Admitted(db: Db, token: AccessToken, req: AddRequest) {
    && !token.Missing? && Present(UserIdClaim(token))
    && Present(req.itemId) && Present(req.restaurantId) && Present(req.kind)
    && !RestaurantMismatch(db.carts, UserIdClaim(token).value, req.restaurantId.value)
  }

  /** The checks of the route before any write: token, user id, body
      fields, the caller's latest PENDING cart and the item. */
  function Authorize(db: Db, token: AccessToken, req: AddRequest): (g: Guard<(Cart, Item)>)
    ensures g.Reject? ==> g.response.status in {400, 401, 404}
    ensures (g.Reject? && g.response.status == 401) <==> token.Missing? || !Present(UserIdClaim(token))
    ensures (g.Reject? && g.response.status == 400) <==>
              && !token.Missing? && Present(UserIdClaim(token))
              && (|| !Present(req.itemId) || !Present(req.restaurantId) || !Present(req.kind)
                  || RestaurantMismatch(db.carts, UserIdClaim(token).value, req.restaurantId.value))
    ensures (g.Reject? && g.response.status == 404) <==>
              Admitted(db, token, req) && FindItem(db.items, req.itemId.value).None?
    ensures g.Pass? <==> Admitted(db, token, req) && FindItem(db.items, req.itemId.value).Some?
    ensures g.Pass? ==>
              && LatestPendingCart(db.carts, UserIdClaim(token).value) == Some(g.value.0)
              && g.value.0.userId == UserIdClaim(token).value && g.value.0.status == Pending
              && g.value.0.restaurantId == req.restaurantId.value
              && FindItem(db.items, req.itemId.value) == Some(g.value.1)
  {
    if token.Missing? then Reject(Fail(401, AccessTokenRequired))
    else if !Present(UserIdClaim(token)) then Reject(Fail(401, UserIdNotInToken))
    else if !Present(req.itemId) || !Present(req.restaurantId) || !Present(req.kind) then
      Reject(Fail(400, FieldsRequired))
    else
      var userId := UserIdClaim(token).value;
      var existing := LatestPendingCart(db.carts, userId);
      if existing.None? || existing.value.restaurantId != req.restaurantId.value then
        Reject(Fail(400, DifferentRestaurant))
      else match FindItem(db.items, req.itemId.value)
        case None => Reject(Fail(404, ItemNotFound))
        case Some(item) => Pass((existing.value, item))
  }

  /** What the body's `type` asks for. */
  datatype Change = Increment | Decrement | Delete | Unrecognised

  /** The route compares `type` with the three literal names. */
  function ChangeOf(kind: string): (c: Change)
    ensures c == Increment <==> kind == "increment"
    ensures c == Decrement <==> kind == "decrement"
    ensures c == Delete <==> kind == "delete"
  {
    if kind == "increment" then Increment
    else if kind == "decrement" then Decrement
    else if kind == "delete" then Delete
    else Unrecognised
  }

  /** `before` and `after` hold the same carts in the same places, except
      that the carts with id `cartId` may have another total. */
  ghost predicate OnlyTotalMoved(before: seq<Cart>, after: seq<Cart>, cartId: string)
    decreases |before|
  {
    && |after| == |before|
    && (|before| == 0 ||
        (&& after[0] == before[0].(totalPrice := after[0].totalPrice)
         && (before[0].id != cartId ==> after[0] == before[0])
         && OnlyTotalMoved(before[1..], after[1..], cartId)))
  }

  /** The same, position by position. */
  lemma {:induction false} OnlyTotalMovedAt(before: seq<Cart>, after: seq<Cart>, cartId: string)
    requires OnlyTotalMoved(before, after, cartId)
    ensures |after| == |before|
    ensures forall i :: 0 <= i < |before| ==>
              && after[i] == before[i].(totalPrice := after[i].totalPrice)
              && (before[i].id != cartId ==> after[i] == before[i])
    decreases |before|
  {
    if |before| > 0 {
      OnlyTotalMovedAt(before[1..], after[1..], cartId);
      forall i | 1 <= i < |before|
        ensures && after[i] == before[i].(totalPrice := after[i].totalPrice)
                && (before[i].id != cartId ==> after[i] == before[i])
      {
        assert after[i] == after[1..][i - 1] && before[i] == before[1..][i - 1];
      }
    }
  }


  // ------------------------------------------------------------ the writes

  /** No line for the item yet: a line of one unit at the item's price is
      created and the cart total rises by that price. */
  function AddLine(db: Db, cart: Cart, item: Item, newLineId: string): Outcome {
    Outcome(Ok(ItemAdded),
      db.(lines := db.lines + [CartLine(newLineId, cart.id, item.id, 1, item.price)],
          carts := AddToTotal(db.carts, cart.id, item.price)))
  }

  /** `type` is "increment": one unit more on the line and on the total. */
  function IncrementLine(db: Db, cart: Cart, item: Item, line: CartLine): Outcome {
    Outcome(Ok(QuantityUpdated),
      db.(lines := SetLine(db.lines, line.id, line.quantity + 1, line.price + item.price),
          carts := AddToTotal(db.carts, cart.id, item.price)))
  }

  /** `type` is "decrement" on a line of more than one unit: one unit less
      on the line and on the total. */
  function DecrementLine(db: Db, cart: Cart, item: Item, line: CartLine): Outcome {
    Outcome(Ok(QuantityDecremented),
      db.(lines := SetLine(db.lines, line.id, line.quantity - 1, line.price - item.price),
          carts := AddToTotal(db.carts, cart.id, -item.price)))
  }

  /** `type` is "decrement" on a line of at most one unit: after the same
      one-unit updates the line is deleted and its ORIGINAL subtotal is taken
      off the total a second time. The two updates and the deletion are
      given here by their net effect. */
  function DecrementLastUnit(db: Db, cart: Cart, item: Item, line: CartLine): Outcome {
    Outcome(Ok(ItemRemoved),
      db.(lines := RemoveLine(db.lines, line.id),
          carts := AddToTotal(db.carts, cart.id, -(item.price + line.price))))
  }

  /** The net effect on the lines is that of the route's statements in
      order: the one-unit line update, then the deletion. */
  lemma DecrementLastUnitLines(db: Db, cart: Cart, item: Item, line: CartLine)
    ensures DecrementLastUnit(db, cart, item, line).db.lines
            == RemoveLine(SetLine(db.lines, line.id, line.quantity - 1, line.price - item.price), line.id)
  {
    RemoveAfterSet(db.lines, line.id, line.quantity - 1, line.price - item.price);
  }

  /** The net effect on the carts is that of the route's two total updates
      in order. */
  lemma DecrementLastUnitCarts(db: Db, cart: Cart, item: Item, line: CartLine)
    ensures DecrementLastUnit(db, cart, item, line).db.carts
            == AddToTotal(AddToTotal(db.carts, cart.id, -item.price), cart.id, -line.price)
  {
    var first, second := -item.price, -line.price;
    AddToTotalTwice(db.carts, cart.id, first, second);
  }

  /** `type` is "delete": the line goes and its subtotal leaves the total. */
  function DeleteLine(db: Db, cart: Cart, line: CartLine): Outcome {
    Outcome(Ok(ItemRemoved),
      db.(lines := RemoveLine(db.lines, line.id),
          carts := AddToTotal(db.carts, cart.id, -line.price)))
  }

  /** The writes of the route once the cart and the item are known, as their
      net effect on the store. `type` is only looked at when the cart already
      has a line for the item. */
  function Mutate(db: Db, cart: Cart, item: Item, change: Change, newLineId: string): (o: Outcome)
    ensures o.response.status in {200, 400}
    ensures o.response.status == 400 <==>
              FindLine(db.lines, cart.id, item.id).Some? && change.Unrecognised?
    ensures o.response.status == 400 ==> o.db == db
    ensures o.db.users == db.users && o.db.restaurants == db.restaurants && o.db.items == db.items
    ensures |o.db.carts| == |db.carts|
  {
    match FindLine(db.lines, cart.id, item.id)
    case None => AddLine(db, cart, item, newLineId)
    case Some(line) =>
      match change
      case Increment => IncrementLine(db, cart, item, line)
      case Decrement =>
        if line.quantity <= 1 then DecrementLastUnit(db, cart, item, line)
        else DecrementLine(db, cart, item, line)
      case Delete => DeleteLine(db, cart, line)
      case Unrecognised => Outcome(Fail(400, InvalidType), db)
  }

  /** The whole route. */
  function AddToCart(db: Db, token: AccessToken, req: AddRequest, newLineId: string): (o: Outcome)
    ensures o.response.status != 200 ==> o.db == db
    ensures o.response.status in {200, 400, 401, 404}
    ensures o.db.users == db.users && o.db.restaurants == db.restaurants && o.db.items == db.items
    // no cart is ever created: the carts keep their places and every field but the total
    ensures |o.db.carts| == |db.carts|
    ensures o.response.status == 200 ==> Authorize(db, token, req).Pass?
  {
    match Authorize(db, token, req)
    case Reject(response) => Outcome(response, db)
    case Pass((cart, item)) => Mutate(db, cart, item, ChangeOf(req.kind.value), newLineId)
  }

  /** With no line for the item, whatever `type` says (even an unknown
      one) a line of one unit is added, and the cart's line sum rises by the
      item's price. */
  lemma {:induction false} NewLineForAnyType(db: Db, cart: Cart, item: Item, change: Change, newLineId: string)
    requires FindLine(db.lines, cart.id, item.id).None?
    ensures var o := Mutate(db, cart, item, change, newLineId);
      && o.response == Ok(ItemAdded)
      && o.db.lines == db.lines + [CartLine(newLineId, cart.id, item.id, 1, item.price)]
      && LineSum(o.db.lines, cart.id) == LineSum(db.lines, cart.id) + item.price
  {
    AppendLineSum(db.lines, CartLine(newLineId, cart.id, item.id, 1, item.price), cart.id);
  }

  // ------------------------------------------------- invariants of the store

  /** Every cart's stored total equals the sum of its lines' subtotals. */
  ghost predicate TotalsMatch(db: Db) {
    TotalsMatchIn(db.carts, db.lines)
  }

  ghost predicate TotalsMatchIn(carts: seq<Cart>, lines: seq<CartLine>)
    decreases |carts|
  {
    |carts| == 0 || (carts[0].totalPrice == LineSum(lines, carts[0].id) && TotalsMatchIn(carts[1..], lines))
  }

  /** Every line's subtotal is its quantity times its item's price. */
  ghost predicate LinePricesMatch(db: Db) {
    PricedIn(db.lines, db.items)
  }

  ghost predicate LinePriced(line: CartLine, items: seq<Item>) {
    FindItem(items, line.itemId).Some? && line.price == line.quantity * FindItem(items, line.itemId).value.price
  }

  ghost predicate PricedIn(lines: seq<CartLine>, items: seq<Item>)
    decreases |lines|
  {
    |lines| == 0 || (LinePriced(lines[0], items) && PricedIn(lines[1..], items))
  }

  /** The line `line` is the one the route finds for `item` in `cart`. */
  ghost predicate LineOf(db: Db, cart: Cart, item: Item, line: CartLine) {
    line in db.lines && line.cartId == cart.id && line.itemId == item.id
  }

  /** The request reaches the decrement of a line of quantity 1 or less. */
  predicate DecrementRemoves(db: Db, token: AccessToken, req: AddRequest) {
    match Authorize(db, token, req)
    case Reject(_) => false
    case Pass((cart, item)) =>
      ChangeOf(req.kind.value) == Decrement &&
      match FindLine(db.lines, cart.id, item.id)
      case None => false
      case Some(line) => line.quantity <= 1
  }

  /** With totals matched, each cart's total is the sum of its lines. */
  lemma {:induction false} MatchedTotal(carts: seq<Cart>, lines: seq<CartLine>, c: Cart)
    requires TotalsMatchIn(carts, lines) && c in carts
    ensures c.totalPrice == LineSum(lines, c.id)
    decreases |carts|
  {
    if c != carts[0] {
      assert c in carts[1..];
      MatchedTotal(carts[1..], lines, c);
    }
  }

  /** Totals stay matched when each cart's line sum moves exactly as the
      writes move the total of cart `cartId`. */
  lemma {:induction false} TotalsFollow(carts: seq<Cart>, lines: seq<CartLine>, newLines: seq<CartLine>, cartId: string, delta: int)
    requires TotalsMatchIn(carts, lines)
    requires forall x :: LineSum(newLines, x) == LineSum(lines, x) + (if x == cartId then delta else 0)
    ensures TotalsMatchIn(AddToTotal(carts, cartId, delta), newLines)
    decreases |carts|
  {
    if |carts| > 0 {
      var r := AddToTotal(carts, cartId, delta);
      assert r[1..] == AddToTotal(carts[1..], cartId, delta);
      assert LineSum(newLines, carts[0].id) == LineSum(lines, carts[0].id) + (if carts[0].id == cartId then delta else 0);
      TotalsFollow(carts[1..], lines, newLines, cartId, delta);
    }
  }

  /** Appending a line of cart `line.cartId` and raising that cart's total
      by the line's subtotal keeps the totals matched. */
  lemma {:induction false} AppendKeepsTotals(db: Db, line: CartLine)
    requires TotalsMatch(db)
    ensures TotalsMatch(db.(carts := AddToTotal(db.carts, line.cartId, line.price), lines := db.lines + [line]))
  {
    forall x ensures LineSum(db.lines + [line], x) == LineSum(db.lines, x) + (if x == line.cartId then line.price else 0) {
      AppendLineSum(db.lines, line, x);
    }
    TotalsFollow(db.carts, db.lines, db.lines + [line], line.cartId, line.price);
  }

  /** Rewriting a line's subtotal and moving its cart's total by the change
      keeps the totals matched. */
  lemma {:induction false} SetKeepsTotals(db: Db, line: CartLine, quantity: int, price: int, delta: int)
    requires UniqueLineIds(db.lines) && TotalsMatch(db) && line in db.lines
    requires price == line.price + delta
    ensures TotalsMatch(db.(carts := AddToTotal(db.carts, line.cartId, delta),
                           lines := SetLine(db.lines, line.id, quantity, price)))
  {
    var lines := SetLine(db.lines, line.id, quantity, price);
    forall x ensures LineSum(lines, x) == LineSum(db.lines, x) + (if x == line.cartId then delta else 0) {
      SetLineSum(db.lines, line, quantity, price, x);
    }
    TotalsFollow(db.carts, db.lines, lines, line.cartId, delta);
  }

  /** Deleting a line and lowering its cart's total by its subtotal keeps
      the totals matched. */
  lemma {:induction false} RemoveKeepsTotals(db: Db, line: CartLine)
    requires UniqueLineIds(db.lines) && TotalsMatch(db) && line in db.lines
    ensures TotalsMatch(db.(carts := AddToTotal(db.carts, line.cartId, -line.price),
                           lines := RemoveLine(db.lines, line.id)))
  {
    var lines := RemoveLine(db.lines, line.id);
    forall x ensures LineSum(lines, x) == LineSum(db.lines, x) + (if x == line.cartId then -line.price else 0) {
      RemoveLineSum(db.lines, line, x);
    }
    TotalsFollow(db.carts, db.lines, lines, line.cartId, -line.price);
  }

  /** With line prices matched, each line is priced at its quantity times
      its item's price. */
  lemma {:induction false} PricedLine(lines: seq<CartLine>, items: seq<Item>, l: CartLine)
    requires PricedIn(lines, items) && l in lines
    ensures LinePriced(l, items)
    decreases |lines|
  {
    if l != lines[0] {
      assert l in lines[1..];
      PricedLine(lines[1..], items, l);
    }
  }

  /** Appending a priced line keeps the lines priced. */
  lemma {:induction false} AppendKeepsPriced(lines: seq<CartLine>, items: seq<Item>, line: CartLine)
    requires PricedIn(lines, items) && LinePriced(line, items)
    ensures PricedIn(lines + [line], items)
    decreases |lines|
  {
    if |lines| > 0 {
      assert (lines + [line])[1..] == lines[1..] + [line];
      AppendKeepsPriced(lines[1..], items, line);
    } else {
      assert ([] + [line])[1..] == [];
    }
  }

  /** Deleting lines keeps the remaining lines priced. */
  lemma {:induction false} RemoveKeepsPriced(lines: seq<CartLine>, items: seq<Item>, id: string)
    requires PricedIn(lines, items)
    ensures PricedIn(RemoveLine(lines, id), items)
    decreases |lines|
  {
    if |lines| > 0 {
      RemoveKeepsPriced(lines[1..], items, id);
      if lines[0].id != id {
        var r := [lines[0]] + RemoveLine(lines[1..], id);
        assert r[1..] == RemoveLine(lines[1..], id);
        assert RemoveLine(lines, id) == r;
      } else {
        assert RemoveLine(lines, id) == RemoveLine(lines[1..], id);
      }
    }
  }

  /** Rewriting a line to a quantity and the matching subtotal keeps the
      lines priced. */
  lemma {:induction false} SetKeepsPriced(lines: seq<CartLine>, items: seq<Item>, line: CartLine, quantity: int, price: int)
    requires UniqueLineIds(lines) && PricedIn(lines, items) && line in lines
    requires LinePriced(line.(quantity := quantity, price := price), items)
    ensures PricedIn(SetLine(lines, line.id, quantity, price), items)
    decreases |lines|
  {
    var r := SetLine(lines, line.id, quantity, price);
    assert r[1..] == SetLine(lines[1..], line.id, quantity, price);
    if lines[0] == line {
      SetLineAbsent(lines[1..], line.id, quantity, price);
    } else {
      assert line in lines[1..];
      FreshNotIn(lines[1..], lines[0].id, line);
      SetKeepsPriced(lines[1..], items, line, quantity, price);
    }
  }

  /** One unit more or less moves a subtotal of `quantity` units by one unit price. */
  lemma StepPrice(quantity: int, unit: int, price: int)
    requires price == quantity * unit
    ensures price + unit == (quantity + 1) * unit
    ensures price - unit == (quantity - 1) * unit
  {
  }

  // ------------------------------------------------ each branch's writes

  /** Adding a line with a fresh id keeps line ids unique. */
  lemma {:induction false} AddLineKeepsIds(db: Db, cart: Cart, item: Item, newLineId: string)
    requires UniqueLineIds(db.lines) && LineIdFresh(db.lines, newLineId)
    ensures UniqueLineIds(AddLine(db, cart, item, newLineId).db.lines)
  {
    AppendKeepsIds(db.lines, CartLine(newLineId, cart.id, item.id, 1, item.price));
  }

  lemma {:induction false} IncrementLineKeepsIds(db: Db, cart: Cart, item: Item, line: CartLine)
    requires UniqueLineIds(db.lines)
    ensures UniqueLineIds(IncrementLine(db, cart, item, line).db.lines)
  {
    SetLineKeepsIds(db.lines, line.id, line.quantity + 1, line.price + item.price);
  }

  lemma {:induction false} DecrementLineKeepsIds(db: Db, cart: Cart, item: Item, line: CartLine)
    requires UniqueLineIds(db.lines)
    ensures UniqueLineIds(DecrementLine(db, cart, item, line).db.lines)
  {
    SetLineKeepsIds(db.lines, line.id, line.quantity - 1, line.price - item.price);
  }

  lemma {:induction false} DecrementLastUnitKeepsIds(db: Db, cart: Cart, item: Item, line: CartLine)
    requires UniqueLineIds(db.lines)
    ensures UniqueLineIds(DecrementLastUnit(db, cart, item, line).db.lines)
  {
    RemoveLineKeepsIds(db.lines, line.id);
  }

  lemma {:induction false} DeleteLineKeepsIds(db: Db, cart: Cart, line: CartLine)
    requires UniqueLineIds(db.lines)
    ensures UniqueLineIds(DeleteLine(db, cart, line).db.lines)
  {
    RemoveLineKeepsIds(db.lines, line.id);
  }

  /** Adding a line keeps every cart's total equal to its line sum. */
  lemma {:induction false} AddLineKeepsTotals(db: Db, cart: Cart, item: Item, newLineId: string)
    requires TotalsMatch(db)
    ensures TotalsMatch(AddLine(db, cart, item, newLineId).db)
  {
    AppendKeepsTotals(db, CartLine(newLineId, cart.id, item.id, 1, item.price));
  }

  lemma {:induction false} IncrementLineKeepsTotals(db: Db, cart: Cart, item: Item, line: CartLine)
    requires UniqueLineIds(db.lines) && TotalsMatch(db) && LineOf(db, cart, item, line)
    ensures TotalsMatch(IncrementLine(db, cart, item, line).db)
  {
    SetKeepsTotals(db, line, line.quantity + 1, line.price + item.price, item.price);
  }

  lemma {:induction false} DecrementLineKeepsTotals(db: Db, cart: Cart, item: Item, line: CartLine)
    requires UniqueLineIds(db.lines) && TotalsMatch(db) && LineOf(db, cart, item, line)
    ensures TotalsMatch(DecrementLine(db, cart, item, line).db)
  {
    SetKeepsTotals(db, line, line.quantity - 1, line.price - item.price, -item.price);
  }

  lemma {:induction false} DeleteLineKeepsTotals(db: Db, cart: Cart, line: CartLine)
    requires UniqueLineIds(db.lines) && TotalsMatch(db) && line in db.lines && line.cartId == cart.id
    ensures TotalsMatch(DeleteLine(db, cart, line).db)
  {
    RemoveKeepsTotals(db, line);
  }

  /** Adding a line at the stored item's price keeps every line priced. */
  lemma {:induction false} AddLineKeepsLinePrices(db: Db, cart: Cart, item: Item, newLineId: string)
    requires LinePricesMatch(db) && FindItem(db.items, item.id) == Some(item)
    ensures LinePricesMatch(AddLine(db, cart, item, newLineId).db)
  {
    AppendKeepsPriced(db.lines, db.items, CartLine(newLineId, cart.id, item.id, 1, item.price));
  }

  lemma {:induction false} IncrementLineKeepsLinePrices(db: Db, cart: Cart, item: Item, line: CartLine)
    requires UniqueLineIds(db.lines) && LinePricesMatch(db) && LineOf(db, cart, item, line)
    requires FindItem(db.items, item.id) == Some(item)
    ensures LinePricesMatch(IncrementLine(db, cart, item, line).db)
  {
    PricedLine(db.lines, db.items, line);
    StepPrice(line.quantity, item.price, line.price);
    SetKeepsPriced(db.lines, db.items, line, line.quantity + 1, line.price + item.price);
  }

  lemma {:induction false} DecrementLineKeepsLinePrices(db: Db, cart: Cart, item: Item, line: CartLine)
    requires UniqueLineIds(db.lines) && LinePricesMatch(db) && LineOf(db, cart, item, line)
    requires FindItem(db.items, item.id) == Some(item)
    ensures LinePricesMatch(DecrementLine(db, cart, item, line).db)
  {
    PricedLine(db.lines, db.items, line);
    StepPrice(line.quantity, item.price, line.price);
    SetKeepsPriced(db.lines, db.items, line, line.quantity - 1, line.price - item.price);
  }

  lemma {:induction false} DecrementLastUnitKeepsLinePrices(db: Db, cart: Cart, item: Item, line: CartLine)
    requires LinePricesMatch(db)
    ensures LinePricesMatch(DecrementLastUnit(db, cart, item, line).db)
  {
    RemoveKeepsPriced(db.lines, db.items, line.id);
  }

  lemma {:induction false} DeleteLineKeepsLinePrices(db: Db, cart: Cart, line: CartLine)
    requires LinePricesMatch(db)
    ensures LinePricesMatch(DeleteLine(db, cart, line).db)
  {
    RemoveKeepsPriced(db.lines, db.items, line.id);
  }

  /** Deleting a line while lowering its cart's total by its subtotal plus
      `unit` leaves that cart's total `unit` below its new line sum. */
  lemma {:induction false} RemovalShortfall(carts: seq<Cart>, lines: seq<CartLine>, line: CartLine, unit: int)
    requires UniqueLineIds(lines) && TotalsMatchIn(carts, lines) && line in lines
    ensures forall i :: 0 <= i < |carts| && carts[i].id == line.cartId ==>
              AddToTotal(carts, line.cartId, -(unit + line.price))[i].totalPrice
              == LineSum(RemoveLine(lines, line.id), line.cartId) - unit
  {
    RemoveLineSum(lines, line, line.cartId);
    forall i | 0 <= i < |carts| && carts[i].id == line.cartId
      ensures AddToTotal(carts, line.cartId, -(unit + line.price))[i].totalPrice
              == LineSum(RemoveLine(lines, line.id), line.cartId) - unit
    {
      AddToTotalAt(carts, line.cartId, -(unit + line.price), i);
      MatchedTotal(carts, lines, carts[i]);
    }
  }

  /** ... so when `unit` is not 0 the totals no longer match. */
  lemma {:induction false} RemovalBreaksTotals(carts: seq<Cart>, lines: seq<CartLine>, line: CartLine, unit: int, k: nat)
    requires UniqueLineIds(lines) && TotalsMatchIn(carts, lines) && line in lines
    requires k < |carts| && carts[k].id == line.cartId && unit != 0
    ensures !TotalsMatchIn(AddToTotal(carts, line.cartId, -(unit + line.price)), RemoveLine(lines, line.id))
  {
    var delta := -(unit + line.price);
    var after := AddToTotal(carts, line.cartId, delta);
    var remaining := RemoveLine(lines, line.id);
    var sum := LineSum(lines, line.cartId);
    RemoveLineSum(lines, line, line.cartId);
    assert LineSum(remaining, line.cartId) == sum - line.price;
    MatchedTotal(carts, lines, carts[k]);
    AddToTotalAt(carts, line.cartId, delta, k);
    assert after[k].id == line.cartId && after[k].totalPrice == sum + delta;
    if TotalsMatchIn(after, remaining) {
      MatchedTotal(after, remaining, after[k]);
    }
  }

  /** The decrement that removes a line leaves the cart's total one unit
      price below the sum of its remaining lines: a cart holding one line of
      one unit ends at minus the unit price instead of 0. */
  lemma {:induction false} RemovingDecrementBreaksTotal(db: Db, cart: Cart, item: Item, line: CartLine)
    requires UniqueLineIds(db.lines) && TotalsMatch(db) && cart in db.carts
    requires LineOf(db, cart, item, line)
    ensures var after := DecrementLastUnit(db, cart, item, line).db;
      forall i :: 0 <= i < |db.carts| && db.carts[i].id == cart.id ==>
        after.carts[i].totalPrice == LineSum(after.lines, cart.id) - item.price
    ensures item.price != 0 ==> !TotalsMatch(DecrementLastUnit(db, cart, item, line).db)
  {
    RemovalShortfall(db.carts, db.lines, line, item.price);
    if item.price != 0 {
      var k :| 0 <= k < |db.carts| && db.carts[k] == cart;
      RemovalBreaksTotals(db.carts, db.lines, line, item.price, k);
    }
  }

  // ------------------------------------------------------------ the route

  /** With a fresh id for a new line, every branch keeps line ids unique. */
  lemma {:induction false} MutateKeepsLineIds(db: Db, cart: Cart, item: Item, change: Change, newLineId: string)
    requires UniqueLineIds(db.lines) && LineIdFresh(db.lines, newLineId)
    ensures UniqueLineIds(Mutate(db, cart, item, change, newLineId).db.lines)
  {
    match FindLine(db.lines, cart.id, item.id)
    case None => AddLineKeepsIds(db, cart, item, newLineId);
    case Some(line) =>
      match change
      case Increment => IncrementLineKeepsIds(db, cart, item, line);
      case Decrement =>
        if line.quantity <= 1 {
          DecrementLastUnitKeepsIds(db, cart, item, line);
        } else {
          DecrementLineKeepsIds(db, cart, item, line);
        }
      case Delete => DeleteLineKeepsIds(db, cart, line);
      case Unrecognised =>
  }

  /** Every branch but the decrement that removes a line keeps each cart's
      total equal to the sum of its lines. */
  lemma {:induction false} MutateKeepsTotals(db: Db, cart: Cart, item: Item, change: Change, newLineId: string)
    requires UniqueLineIds(db.lines) && TotalsMatch(db)
    requires change == Decrement && FindLine(db.lines, cart.id, item.id).Some? ==>
               FindLine(db.lines, cart.id, item.id).value.quantity > 1
    ensures TotalsMatch(Mutate(db, cart, item, change, newLineId).db)
  {
    match FindLine(db.lines, cart.id, item.id)
    case None => AddLineKeepsTotals(db, cart, item, newLineId);
    case Some(line) =>
      match change
      case Increment => IncrementLineKeepsTotals(db, cart, item, line);
      case Decrement => DecrementLineKeepsTotals(db, cart, item, line);
      case Delete => DeleteLineKeepsTotals(db, cart, line);
      case Unrecognised =>
  }

  /** Every branch keeps each line's subtotal equal to its quantity times
      its item's price, when `item` is the stored item. */
  lemma {:induction false} MutateKeepsLinePrices(db: Db, cart: Cart, item: Item, change: Change, newLineId: string)
    requires UniqueLineIds(db.lines) && LinePricesMatch(db) && FindItem(db.items, item.id) == Some(item)
    ensures LinePricesMatch(Mutate(db, cart, item, change, newLineId).db)
  {
    match FindLine(db.lines, cart.id, item.id)
    case None => AddLineKeepsLinePrices(db, cart, item, newLineId);
    case Some(line) =>
      match change
      case Increment => IncrementLineKeepsLinePrices(db, cart, item, line);
      case Decrement =>
        if line.quantity <= 1 {
          DecrementLastUnitKeepsLinePrices(db, cart, item, line);
        } else {
          DecrementLineKeepsLinePrices(db, cart, item, line);
        }
      case Delete => DeleteLineKeepsLinePrices(db, cart, line);
      case Unrecognised =>
  }

  /** With a fresh id for a new line, every request keeps line ids unique. */
  lemma {:induction false} AddToCartKeepsLineIds(db: Db, token: AccessToken, req: AddRequest, newLineId: string)
    requires UniqueLineIds(db.lines) && LineIdFresh(db.lines, newLineId)
    ensures UniqueLineIds(AddToCart(db, token, req, newLineId).db.lines)
  {
    match Authorize(db, token, req)
    case Reject(_) =>
    case Pass((cart, item)) =>
      MutateKeepsLineIds(db, cart, item, ChangeOf(req.kind.value), newLineId);
  }

  /** Every request but the decrement that removes a line keeps each cart's
      total equal to the sum of its lines. */
  lemma {:induction false} AddToCartKeepsTotals(db: Db, token: AccessToken, req: AddRequest, newLineId: string)
    requires UniqueLineIds(db.lines) && TotalsMatch(db)
    requires !DecrementRemoves(db, token, req)
    ensures TotalsMatch(AddToCart(db, token, req, newLineId).db)
  {
    match Authorize(db, token, req)
    case Reject(_) =>
    case Pass((cart, item)) =>
      MutateKeepsTotals(db, cart, item, ChangeOf(req.kind.value), newLineId);
  }

  /** Every request keeps each line's subtotal equal to its quantity times
      its item's price. */
  lemma {:induction false} AddToCartKeepsLinePrices(db: Db, token: AccessToken, req: AddRequest, newLineId: string)
    requires UniqueLineIds(db.lines) && LinePricesMatch(db)
    ensures LinePricesMatch(AddToCart(db, token, req, newLineId).db)
  {
    match Authorize(db, token, req)
    case Reject(_) =>
    case Pass((cart, item)) =>
      MutateKeepsLinePrices(db, cart, item, ChangeOf(req.kind.value), newLineId);
  }

  /** The same break, for the whole route. */
  lemma {:induction false} DecrementRemovalBreaksTotal(db: Db, token: AccessToken, req: AddRequest, newLineId: string)
    requires UniqueLineIds(db.lines) && TotalsMatch(db)
    requires DecrementRemoves(db, token, req)
    ensures var (cart, item) := Authorize(db, token, req).value;
            var o := AddToCart(db, token, req, newLineId);
      forall i :: 0 <= i < |db.carts| && db.carts[i].id == cart.id ==>
        o.db.carts[i].totalPrice == LineSum(o.db.lines, cart.id) - item.price
    ensures var item := Authorize(db, token, req).value.1;
      item.price != 0 ==> !TotalsMatch(AddToCart(db, token, req, newLineId).db)
  {
    var (cart, item) := Authorize(db, token, req).value;
    var line := FindLine(db.lines, cart.id, item.id).value;
    RemovingDecrementBreaksTotal(db, cart, item, line);
  }

  /** The route's writes touch one cart's total and nothing else of the
      cart table. */
  lemma {:induction false} MutateMovesOneTotal(db: Db, cart: Cart, item: Item, change: Change, newLineId: string)
    ensures OnlyTotalMoved(db.carts, Mutate(db, cart, item, change, newLineId).db.carts, cart.id)
  {
    var after := Mutate(db, cart, item, change, newLineId).db.carts;
    match FindLine(db.lines, cart.id, item.id)
    case None =>
      assert after == AddToTotal(db.carts, cart.id, item.price);
      AddToTotalMoves(db.carts, cart.id, item.price);
    case Some(line) =>
      match change
      case Increment =>
        assert after == AddToTotal(db.carts, cart.id, item.price);
        AddToTotalMoves(db.carts, cart.id, item.price);
      case Decrement =>
        if line.quantity <= 1 {
          assert after == AddToTotal(db.carts, cart.id, -(item.price + line.price));
          AddToTotalMoves(db.carts, cart.id, -(item.price + line.price));
        } else {
          assert after == AddToTotal(db.carts, cart.id, -item.price);
          AddToTotalMoves(db.carts, cart.id, -item.price);
        }
      case Delete =>
        assert after == AddToTotal(db.carts, cart.id, -line.price);
        AddToTotalMoves(db.carts, cart.id, -line.price);
      case Unrecognised =>
        assert after == db.carts;
        NothingMoved(db.carts, cart.id);
  }

  lemma {:induction false} NothingMoved(carts: seq<Cart>, id: string)
    ensures OnlyTotalMoved(carts, carts, id)
    decreases |carts|
  {
    if |carts| > 0 {
      NothingMoved(carts[1..], id);
    }
  }

  /** Moving one cart's total changes nothing else of the cart table. */
  lemma {:induction false} AddToTotalMoves(carts: seq<Cart>, id: string, delta: int)
    ensures OnlyTotalMoved(carts, AddToTotal(carts, id, delta), id)
    decreases |carts|
  {
    if |carts| > 0 {
      var r := AddToTotal(carts, id, delta);
      assert r[1..] == AddToTotal(carts[1..], id, delta);
      AddToTotalMoves(carts[1..], id, delta);
    }
  }

  /** No request creates, deletes or reorders a cart, and no field of a cart
      but its total changes. */
  lemma {:induction false} AddToCartKeepsCarts(db: Db, token: AccessToken, req: AddRequest, newLineId: string)
    ensures var after := AddToCart(db, token, req, newLineId).db.carts;
      && |after| == |db.carts|
      && forall i :: 0 <= i < |db.carts| ==> after[i] == db.carts[i].(totalPrice := after[i].totalPrice)
  {
    match Authorize(db, token, req)
    case Reject(_) =>
    case Pass((cart, item)) =>
      MutateMovesOneTotal(db, cart, item, ChangeOf(req.kind.value), newLineId);
      OnlyTotalMovedAt(db.carts, Mutate(db, cart, item, ChangeOf(req.kind.value), newLineId).db.carts, cart.id);
  }
}
