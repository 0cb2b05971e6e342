/**
 * The cart manager: the single "carrito" order of each user, the lines added
 * to and removed from it, and the amount of its payment kept in step with the
 * order's total.
 */
module Orders {
  import opened Common
  import opened Models
  import opened Integrity
  import opened Storage
  import opened OrderSchemas

  const NotFound: int := 404

  datatype AddReply = Added(line: OrderDetail) | ArrangementNotFound
  datatype RemoveReply = LineRemoved | LineNotInCart

  /** `calculate_final_price`: the catalogue price less its percentage discount. */
  function FinalPrice(price: real, discount: int): (r: real)
    ensures discount == 0 ==> r == price
    ensures discount == 100 ==> r == 0.0
    ensures 0 <= discount <= 100 && price >= 0.0 ==> 0.0 <= r <= price
  {
    var factor := 1.0 - discount as real / 100.0;
    assert 0 <= discount <= 100 && price >= 0.0 ==> price * factor <= price * 1.0;
    price * factor
  }

  // ---------------------------------------------------------------------------
  // get_or_create_cart

  /** `get_or_create_cart`: the id of the user's cart, creating an empty one when there is none. */
  function CartStep(t: Tables, userId: int, now: Time): (s: Step<int>)
    ensures CartIndex(s.after.orders, userId).Some?
    ensures s.after.orders[CartIndex(s.after.orders, userId).value].id == s.reply
  {
    match CartIndex(t.orders, userId)
    case Some(i) => Step(t.orders[i].id, t)
    case None =>
      var cart := NewOrder(t.nextOrderId, Some(userId), 0.0, now);
      var orders := t.orders + [cart];
      assert IsCartOf(orders[|t.orders|], userId);
      Step(cart.id, t.(orders := orders, nextOrderId := t.nextOrderId + 1))
  }

  /** An existing cart is returned untouched; otherwise exactly one order, an empty cart, is inserted. */
  lemma CartStepEffect(t: Tables, userId: int, now: Time)
    ensures var s := CartStep(t, userId, now);
      if CartIndex(t.orders, userId).Some? then
        s.after == t && s.reply == t.orders[CartIndex(t.orders, userId).value].id
      else
        && s.after.orders == t.orders + [s.after.orders[|t.orders|]]
        && s.after.orders[|t.orders|] == NewOrder(t.nextOrderId, Some(userId), 0.0, now)
        && s.after == t.(orders := s.after.orders, nextOrderId := t.nextOrderId + 1)
        && s.reply == t.nextOrderId
  {
  }

  /** A second call finds the cart the first one returned and changes nothing. */
  lemma CartStepIdempotent(t: Tables, userId: int, now: Time, later: Time)
    ensures var s := CartStep(t, userId, now);
      CartStep(s.after, userId, later) == Step(s.reply, s.after)
  {
  }

  lemma CartStepPreservesValid(t: Tables, userId: int, now: Time)
    requires TablesValid(t)
    ensures TablesValid(CartStep(t, userId, now).after)
  {
    if CartIndex(t.orders, userId).None? {
      var after := CartStep(t, userId, now).after;
      forall i | 0 <= i < |t.details|
        ensures HasOrder(after.orders, t.details[i].orderId)
      {
        var k :| 0 <= k < |t.orders| && t.orders[k].id == t.details[i].orderId;
        assert after.orders[k] == t.orders[k];
      }
      forall i | 0 <= i < |t.payments|
        ensures HasOrder(after.orders, t.payments[i].orderId)
      {
        var k :| 0 <= k < |t.orders| && t.orders[k].id == t.payments[i].orderId;
        assert after.orders[k] == t.orders[k];
      }
    }
  }

  /** After the call the user has exactly one cart, and it is the one returned. */
  lemma {:induction false} CartStepSingleCart(t: Tables, userId: int, now: Time)
    requires TablesValid(t)
    ensures var s := CartStep(t, userId, now);
      forall i :: 0 <= i < |s.after.orders| && IsCartOf(s.after.orders[i], userId) ==>
        s.after.orders[i].id == s.reply
  {
    CartStepPreservesValid(t, userId, now);
  }

  method GetOrCreateCart(db: Store, userId: int, now: Time) returns (cartId: int)
    requires db.Valid()
    modifies db
    ensures db.Valid()
    ensures Step(cartId, db.Snapshot()) == CartStep(old(db.Snapshot()), userId, now)
  {
    CartStepPreservesValid(db.Snapshot(), userId, now);
    var found := CartIndex(db.orders, userId);
    if found.Some? {
      cartId := db.orders[found.value].id;
    } else {
      var cart := NewOrder(db.nextOrderId, Some(userId), 0.0, now);
      db.orders := db.orders + [cart];
      db.nextOrderId := db.nextOrderId + 1;
      cartId := cart.id;
    }
  }

  // ---------------------------------------------------------------------------
  // get_user_orders and the cart quantity endpoint

  /** `get_user_orders`: the caller's orders that are no longer a cart, in table order. */
  function GetUserOrders(orders: seq<Order>, userId: int): (r: seq<Order>)
    ensures forall o :: o in r <==> o in orders && o.userId == Some(userId) && o.state != CartState
  {
    Filter(orders, (o: Order) => o.userId == Some(userId) && o.state != CartState)
  }

  /** The cart quantity endpoint: the number of lines in the caller's cart (created if missing). */
  method GetUserCart(db: Store, userId: int, now: Time) returns (count: nat)
    requires db.Valid()
    modifies db
    ensures db.Valid()
    ensures var s := CartStep(old(db.Snapshot()), userId, now);
      db.Snapshot() == s.after && count == |LinesOf(s.after.details, s.reply)|
  {
    var cartId := GetOrCreateCart(db, userId, now);
    count := |LinesOf(db.details, cartId)|;
  }

  // ---------------------------------------------------------------------------
  // add_to_cart

  /** Sets the amount of the order's payment, if the order has one; nothing else changes. */
  function SyncAmount(payments: seq<Payment>, orderId: int, amount: real): (r: seq<Payment>)
    ensures |r| == |payments|
    ensures forall k :: 0 <= k < |r| ==> r[k] == payments[k].(amount := r[k].amount)
    ensures forall k :: 0 <= k < |r| && payments[k].orderId != orderId ==> r[k] == payments[k]
    ensures PaymentOfOrder(payments, orderId).Some? ==> r[PaymentOfOrder(payments, orderId).value].amount == amount
    ensures PaymentOfOrder(payments, orderId).None? ==> r == payments
  {
    match PaymentOfOrder(payments, orderId)
    case None => payments
    case Some(k) => payments[k := payments[k].(amount := amount)]
  }

  /** The payment an order had is still the one found for it after its amount is set. */
  lemma SyncAmountKeepsPayment(payments: seq<Payment>, orderId: int, amount: real)
    ensures PaymentOfOrder(SyncAmount(payments, orderId, amount), orderId) == PaymentOfOrder(payments, orderId)
  {
    var r := SyncAmount(payments, orderId, amount);
    match PaymentOfOrder(payments, orderId)
    case None =>
    case Some(k) =>
      forall j | 0 <= j < k ensures r[j].orderId != orderId {
        assert r[j].orderId == payments[j].orderId;
      }
  }

  /** `add_to_cart` on the tables. */
  function AddStep(t: Tables, userId: int, item: DetailCreate, now: Time): (s: Step<AddReply>)
    ensures s.reply.ArrangementNotFound? <==> ArrangementIndex(t.arrangements, item.arrangementId).None?
    ensures s.reply.ArrangementNotFound? ==> s.after == t
    ensures s.reply.Added? ==> s.reply.line.arrangementId == item.arrangementId && s.reply.line.quantity == item.quantity
    ensures s.reply.Added? ==> s.after.details == CartStep(t, userId, now).after.details + [s.reply.line]
    ensures s.after.users == t.users && s.after.arrangements == t.arrangements
  {
    match ArrangementIndex(t.arrangements, item.arrangementId)
    case None => Step(ArrangementNotFound, t)
    case Some(a) =>
      var c := CartStep(t, userId, now);
      var cart := c.after.orders[CartIndex(c.after.orders, userId).value];
      var line := NewDetail(c.after.nextDetailId, c.reply, item.arrangementId, item.quantity,
                            FinalPrice(t.arrangements[a].price, t.arrangements[a].discount));
      Step(Added(line), c.after.(details := c.after.details + [line],
                                 nextDetailId := c.after.nextDetailId + 1,
                                 payments := SyncAmount(c.after.payments, c.reply, cart.total)))
  }

  method AddToCart(db: Store, userId: int, item: DetailCreate, now: Time) returns (reply: AddReply)
    requires db.Valid()
    requires item.arrangementId > 0 && item.quantity > 0
    modifies db
    ensures db.Valid()
    ensures Step(reply, db.Snapshot()) == AddStep(old(db.Snapshot()), userId, item, now)
  {
    AddPreservesValid(db.Snapshot(), userId, item, now);
    var a := ArrangementIndex(db.arrangements, item.arrangementId);
    if a.None? {
      return ArrangementNotFound;
    }
    var arrangement := db.arrangements[a.value];
    var cartId := GetOrCreateCart(db, userId, now);
    var cart := db.orders[CartIndex(db.orders, userId).value];
    var line := NewDetail(db.nextDetailId, cartId, item.arrangementId, item.quantity,
                          FinalPrice(arrangement.price, arrangement.discount));
    db.details := db.details + [line];
    db.nextDetailId := db.nextDetailId + 1;
    db.payments := SyncAmount(db.payments, cartId, cart.total);
    reply := Added(line);
  }

  /** An unknown arrangement is answered with 404 before any cart is created or any line added. */
  lemma AddUnknownArrangement(t: Tables, userId: int, item: DetailCreate, now: Time)
    requires ArrangementIndex(t.arrangements, item.arrangementId).None?
    ensures AddStep(t, userId, item, now) == Step(ArrangementNotFound, t)
  {
  }

  /** The lines of one order for one arrangement. */
  function LinesFor(details: seq<OrderDetail>, orderId: int, arrangementId: int): seq<OrderDetail>
  {
    Filter(details, (d: OrderDetail) => d.orderId == orderId && d.arrangementId == arrangementId)
  }

  lemma FilterAppend<T(!new)>(s: seq<T>, x: T, p: T -> bool)
    ensures Filter(s + [x], p) == Filter(s, p) + (if p(x) then [x] else [])
  {
    FilterConcat(s, [x], p);
  }

  /**
   * `add_to_cart` appends exactly one new line carrying the requested quantity
   * and the discounted price; earlier lines are untouched and a line for the
   * same arrangement is never merged into: the cart's line count for that
   * arrangement, and the cart's quantity endpoint, both grow by one.
   */
  lemma {:induction false} AddAppendsOneLine(t: Tables, userId: int, item: DetailCreate, now: Time)
    requires ArrangementIndex(t.arrangements, item.arrangementId).Some?
    ensures var c := CartStep(t, userId, now);
      var s := AddStep(t, userId, item, now);
      var a := t.arrangements[ArrangementIndex(t.arrangements, item.arrangementId).value];
      && s.reply.Added?
      && s.after.details == c.after.details + [s.reply.line]
      && s.reply.line == NewDetail(c.after.nextDetailId, c.reply, item.arrangementId, item.quantity, FinalPrice(a.price, a.discount))
      && |LinesFor(s.after.details, c.reply, item.arrangementId)| == |LinesFor(c.after.details, c.reply, item.arrangementId)| + 1
      && |LinesOf(s.after.details, c.reply)| == |LinesOf(c.after.details, c.reply)| + 1
  {
    var c := CartStep(t, userId, now);
    var s := AddStep(t, userId, item, now);
    FilterAppend(c.after.details, s.reply.line, (d: OrderDetail) => d.orderId == c.reply && d.arrangementId == item.arrangementId);
    FilterAppend(c.after.details, s.reply.line, (d: OrderDetail) => d.orderId == c.reply);
  }

  /**
   * `add_to_cart` copies the cart's stored total into its payment, but never
   * adds the new line to that total: orders are as `get_or_create_cart` left
   * them, and the payment's amount is the total from before the line was added.
   */
  lemma AddLeavesTotalStale(t: Tables, userId: int, item: DetailCreate, now: Time)
    requires ArrangementIndex(t.arrangements, item.arrangementId).Some?
    ensures var c := CartStep(t, userId, now);
      var s := AddStep(t, userId, item, now);
      var cart := c.after.orders[CartIndex(c.after.orders, userId).value];
      && s.after.orders == c.after.orders
      && (CartIndex(t.orders, userId).None? ==> cart.total == 0.0)
      && (CartIndex(t.orders, userId).Some? ==> cart.total == t.orders[CartIndex(t.orders, userId).value].total)
      && (PaymentOfOrder(s.after.payments, c.reply).Some? ==>
            s.after.payments[PaymentOfOrder(s.after.payments, c.reply).value].amount == cart.total)
  {
    var c := CartStep(t, userId, now);
    SyncAmountKeepsPayment(c.after.payments, c.reply, c.after.orders[CartIndex(c.after.orders, userId).value].total);
  }

  lemma AddPreservesValid(t: Tables, userId: int, item: DetailCreate, now: Time)
    requires TablesValid(t)
    requires item.arrangementId > 0 && item.quantity > 0
    ensures TablesValid(AddStep(t, userId, item, now).after)
  {
    match ArrangementIndex(t.arrangements, item.arrangementId)
    case None =>
    case Some(a) =>
      var c := CartStep(t, userId, now);
      CartStepPreservesValid(t, userId, now);
      var t1 := c.after;
      var s := AddStep(t, userId, item, now);
      var line := s.reply.line;
      var t2 := t1.(details := t1.details + [line], nextDetailId := t1.nextDetailId + 1);
      var ci := CartIndex(t1.orders, userId).value;
      assert HasOrder(t1.orders, line.orderId) by { assert t1.orders[ci].id == line.orderId; }
      assert HasArrangement(t1.arrangements, line.arrangementId) by { assert t.arrangements[a].id == line.arrangementId; }
      AppendDetailValid(t1, line);
      PaymentsKeptShapeValid(t2, s.after.payments);
      assert s.after == t2.(payments := s.after.payments);
  }

  // ---------------------------------------------------------------------------
  // remove_from_cart

  /** What a line adds to its order's total: unit price times quantity. */
  function LineAmount(d: OrderDetail): (r: real)
    ensures d.quantity == 0 ==> r == 0.0
    ensures d.price >= 0.0 && d.quantity >= 0 ==> r >= 0.0
  {
    d.price * d.quantity as real
  }

  /** The caller's line `detailId`, looked up within the cart only. */
  function DetailInCart(details: seq<OrderDetail>, detailId: int, cartId: int): (r: Option<nat>)
    ensures r.Some? ==> r.value < |details| && details[r.value].id == detailId && details[r.value].orderId == cartId
    ensures r.Some? ==> forall j :: 0 <= j < r.value ==> !(details[j].id == detailId && details[j].orderId == cartId)
    ensures r.None? ==> forall j :: 0 <= j < |details| ==> !(details[j].id == detailId && details[j].orderId == cartId)
  {
    FirstIndex(details, (d: OrderDetail) => d.id == detailId && d.orderId == cartId)
  }

  /** The sequence without its element at `i` (`db.delete` of one row). */
  function Delete<T>(s: seq<T>, i: nat): (r: seq<T>)
    requires i < |s|
    ensures |r| == |s| - 1
    ensures forall k :: 0 <= k < i ==> r[k] == s[k]
    ensures forall k :: i <= k < |r| ==> r[k] == s[k + 1]
  {
    s[..i] + s[i + 1..]
  }

  /** Deleting the line with a given id from a table of distinct ids leaves exactly the other lines. */
  lemma DeleteById(ds: seq<OrderDetail>, i: nat)
    requires i < |ds|
    requires forall a, b :: 0 <= a < b < |ds| ==> ds[a].id != ds[b].id
    ensures forall d :: d in Delete(ds, i) <==> d in ds && d.id != ds[i].id
  {
    var r := Delete(ds, i);
    forall d ensures d in r <==> d in ds && d.id != ds[i].id {
      if d in r {
        var k :| 0 <= k < |r| && r[k] == d;
        if k < i {
          assert ds[k] == d;
        } else {
          assert ds[k + 1] == d;
        }
      }
      if d in ds && d.id != ds[i].id {
        var j :| 0 <= j < |ds| && ds[j] == d;
        if j < i {
          assert r[j] == d;
        } else {
          assert r[j - 1] == d;
        }
      }
    }
  }

  /** Deleting an order line keeps every integrity rule. */
  lemma DeleteDetailValid(t: Tables, i: nat)
    requires TablesValid(t)
    requires i < |t.details|
    ensures TablesValid(t.(details := Delete(t.details, i)))
  {
    var r := Delete(t.details, i);
    forall a, b | 0 <= a < b < |r| ensures r[a].id != r[b].id {
      var a' := if a < i then a else a + 1;
      var b' := if b < i then b else b + 1;
      assert r[a] == t.details[a'] && r[b] == t.details[b'];
    }
  }

  /** `remove_from_cart` on the tables. */
  function RemoveStep(t: Tables, userId: int, detailId: int, now: Time): (s: Step<RemoveReply>)
    ensures s.reply.LineNotInCart? <==> DetailInCart(CartStep(t, userId, now).after.details, detailId, CartStep(t, userId, now).reply).None?
    ensures s.reply.LineNotInCart? ==> s.after == CartStep(t, userId, now).after
    ensures s.reply.LineRemoved? ==> |s.after.details| == |CartStep(t, userId, now).after.details| - 1
    ensures s.after.users == t.users && s.after.arrangements == t.arrangements
  {
    var c := CartStep(t, userId, now);
    var t1 := c.after;
    match DetailInCart(t1.details, detailId, c.reply)
    case None => Step(LineNotInCart, t1)
    case Some(di) =>
      var ci := CartIndex(t1.orders, userId).value;
      var line := t1.details[di];
      var total := ClampAtZero(t1.orders[ci].total - LineAmount(line));
      Step(LineRemoved, t1.(orders := t1.orders[ci := t1.orders[ci].(total := total)],
                            payments := SyncAmount(t1.payments, c.reply, total),
                            details := Delete(t1.details, di)))
  }

  method RemoveFromCart(db: Store, userId: int, detailId: int, now: Time) returns (reply: RemoveReply)
    requires db.Valid()
    modifies db
    ensures db.Valid()
    ensures Step(reply, db.Snapshot()) == RemoveStep(old(db.Snapshot()), userId, detailId, now)
  {
    ghost var t0 := db.Snapshot();
    RemovePreservesValid(t0, userId, detailId, now);
    var cartId := GetOrCreateCart(db, userId, now);
    ghost var t1 := db.Snapshot();
    var found := DetailInCart(db.details, detailId, cartId);
    if found.None? {
      return LineNotInCart;
    }
    var line := db.details[found.value];
    var ci := CartIndex(db.orders, userId).value;
    var total := ClampAtZero(db.orders[ci].total - LineAmount(line));
    var orders := db.orders[ci := db.orders[ci].(total := total)];
    var payments := SyncAmount(db.payments, cartId, total);
    var details := Delete(db.details, found.value);
    RemoveStepFound(t0, userId, detailId, now, t1, cartId, found.value, ci, total);
    db.orders, db.payments, db.details := orders, payments, details;
    reply := LineRemoved;
    assert db.Snapshot() == t1.(orders := orders, payments := payments, details := details);
  }

  /** The tables `RemoveStep` leaves when the line is found, given the cart step's outcome. */
  lemma RemoveStepFound(t: Tables, userId: int, detailId: int, now: Time,
                        t1: Tables, cartId: int, di: nat, ci: nat, total: real)
    requires CartStep(t, userId, now) == Step(cartId, t1)
    requires DetailInCart(t1.details, detailId, cartId) == Some(di)
    requires CartIndex(t1.orders, userId) == Some(ci)
    requires total == ClampAtZero(t1.orders[ci].total - LineAmount(t1.details[di]))
    ensures RemoveStep(t, userId, detailId, now)
              == Step(LineRemoved, t1.(orders := t1.orders[ci := t1.orders[ci].(total := total)],
                                       payments := SyncAmount(t1.payments, cartId, total),
                                       details := Delete(t1.details, di)))
  {
  }

  /** A line that is not in the caller's cart is answered with 404 and nothing is deleted (a cart may have been created). */
  lemma RemoveNotInCart(t: Tables, userId: int, detailId: int, now: Time)
    requires var c := CartStep(t, userId, now); DetailInCart(c.after.details, detailId, c.reply).None?
    ensures RemoveStep(t, userId, detailId, now) == Step(LineNotInCart, CartStep(t, userId, now).after)
  {
  }

  /**
   * Removing a line lowers the cart's total by the line's amount, clamped at 0,
   * gives the cart's payment that same amount, and leaves the other orders alone.
   */
  lemma RemoveClampsTotal(t: Tables, userId: int, detailId: int, now: Time)
    requires var c := CartStep(t, userId, now); DetailInCart(c.after.details, detailId, c.reply).Some?
    ensures var c := CartStep(t, userId, now);
      var s := RemoveStep(t, userId, detailId, now);
      var ci := CartIndex(c.after.orders, userId).value;
      var line := c.after.details[DetailInCart(c.after.details, detailId, c.reply).value];
      var total := s.after.orders[ci].total;
      && s.reply == LineRemoved
      && total >= 0.0
      && total == ClampAtZero(c.after.orders[ci].total - LineAmount(line))
      && (forall i :: 0 <= i < |s.after.orders| && i != ci ==> s.after.orders[i] == c.after.orders[i])
      && (PaymentOfOrder(s.after.payments, c.reply).Some? ==>
            s.after.payments[PaymentOfOrder(s.after.payments, c.reply).value].amount == total)
  {
    var c := CartStep(t, userId, now);
    var di := DetailInCart(c.after.details, detailId, c.reply).value;
    var ci := CartIndex(c.after.orders, userId).value;
    var line := c.after.details[di];
    SyncAmountKeepsPayment(c.after.payments, c.reply, ClampAtZero(c.after.orders[ci].total - LineAmount(line)));
  }

  /** Removing a line deletes that one line: every other line of every order stays. */
  lemma RemoveDeletesOnlyThatLine(t: Tables, userId: int, detailId: int, now: Time)
    requires TablesValid(t)
    requires var c := CartStep(t, userId, now); DetailInCart(c.after.details, detailId, c.reply).Some?
    ensures var c := CartStep(t, userId, now);
      forall d :: d in RemoveStep(t, userId, detailId, now).after.details <==> d in c.after.details && d.id != detailId
  {
    var c := CartStep(t, userId, now);
    CartStepPreservesValid(t, userId, now);
    DeleteById(c.after.details, DetailInCart(c.after.details, detailId, c.reply).value);
  }

  lemma RemovePreservesValid(t: Tables, userId: int, detailId: int, now: Time)
    requires TablesValid(t)
    ensures TablesValid(RemoveStep(t, userId, detailId, now).after)
  {
    var c := CartStep(t, userId, now);
    CartStepPreservesValid(t, userId, now);
    var t1 := c.after;
    match DetailInCart(t1.details, detailId, c.reply)
    case None =>
    case Some(di) =>
      var ci := CartIndex(t1.orders, userId).value;
      var total := ClampAtZero(t1.orders[ci].total - LineAmount(t1.details[di]));
      RemoveStepFound(t, userId, detailId, now, t1, c.reply, di, ci, total);
      RemoveLineValid(t1, c.reply, di, ci, total);
  }

  /** Deleting a line, changing one order's total and syncing its payment keeps every integrity rule. */
  lemma RemoveLineValid(t: Tables, orderId: int, di: nat, ci: nat, total: real)
    requires TablesValid(t)
    requires di < |t.details| && ci < |t.orders|
    ensures TablesValid(t.(orders := t.orders[ci := t.orders[ci].(total := total)],
                           payments := SyncAmount(t.payments, orderId, total),
                           details := Delete(t.details, di)))
  {
    var t2 := t.(details := Delete(t.details, di));
    DeleteDetailValid(t, di);
    var orders := t.orders[ci := t.orders[ci].(total := total)];
    OrdersKeptShapeValid(t2, orders);
    PaymentsKeptShapeValid(t2.(orders := orders), SyncAmount(t.payments, orderId, total));
  }


}
