/**
 * The records of the shop's relational store (orders, order lines, payments,
 * arrangements, users), their column defaults, the integrity rules the
 * schema declares, and the row lookups the handlers perform.
 *
 * Tables are sequences in insertion order, so a query's `.first()` is the
 * first matching row. Money is `real`; time is whole seconds of UTC.
 */
module Models {
  import opened Common

  type Time = int

  /** Order states written by the handlers. */
  const CartState: string := "carrito"
  const CompletedState: string := "completado"
  const CancelledState: string := "cancelado"

  /** Payment states written by the handlers. */
  const PendingPayment: string := "pendiente"
  const ApprovedPayment: string := "aprobado"

  /** A registered customer; `direction` is the nullable `user_direction` column. */
  datatype User = User(id: int, role: string, direction: Option<string>)

  /** A catalogue entry; `discount` is a whole percentage. */
  datatype Arrangement = Arrangement(
    id: int, name: string, description: string, price: real, imgUrl: string,
    available: bool, categoryId: int, stock: int, discount: int)

  /**
   * An order. `userId` is None for a guest order, which carries the guest
   * contact fields instead. `total` and `reference` are used by the handlers
   * although the table declares no such columns.
   */
  datatype Order = Order(
    id: int, userId: Option<int>,
    guestName: Option<string>, guestEmail: Option<string>,
    guestPhone: Option<string>, guestAddress: Option<string>,
    state: string, date: Time, total: real, reference: Option<string>)

  /** One line of an order: a unit price snapshot and a quantity. */
  datatype OrderDetail = OrderDetail(
    id: int, orderId: int, arrangementId: int, quantity: int, price: real, discount: real)

  /** A payment for an order; `transactionId` is nullable and unique. */
  datatype Payment = Payment(
    id: int, orderId: int, payMethod: string, state: string, amount: real,
    transactionId: Option<string>, date: Time)

  /** The whole store, with the next values of the two id sequences the handlers draw from. */
  datatype Tables = Tables(
    users: seq<User>, arrangements: seq<Arrangement>, orders: seq<Order>,
    details: seq<OrderDetail>, payments: seq<Payment>,
    nextOrderId: int, nextDetailId: int)

  /** What a handler answers, and the store it leaves behind. */
  datatype Step<R> = Step(reply: R, after: Tables)

  // ---------------------------------------------------------------------------
  // Column defaults

  /** A new order row: state defaults to "carrito", the date to now, no guest data. */
  function NewOrder(id: int, userId: Option<int>, total: real, now: Time): (o: Order)
    ensures o.id == id && o.userId == userId && o.total == total && o.date == now
    ensures o.state == CartState
    ensures o.guestName.None? && o.guestEmail.None? && o.guestPhone.None? && o.guestAddress.None?
    ensures o.reference.None?
  {
    Order(id, userId, None, None, None, None, CartState, now, total, None)
  }

  /** A new payment row: state defaults to "pendiente", the date to now, no transaction id. */
  function NewPayment(id: int, orderId: int, payMethod: string, amount: real, now: Time): (p: Payment)
    ensures p.id == id && p.orderId == orderId && p.payMethod == payMethod && p.amount == amount
    ensures p.state == PendingPayment && p.transactionId.None? && p.date == now
  {
    Payment(id, orderId, payMethod, PendingPayment, amount, None, now)
  }

  /** A new order line: the discount column defaults to 0.0. */
  function NewDetail(id: int, orderId: int, arrangementId: int, quantity: int, price: real): (d: OrderDetail)
    ensures d.id == id && d.orderId == orderId && d.arrangementId == arrangementId
    ensures d.quantity == quantity && d.price == price && d.discount == 0.0
  {
    OrderDetail(id, orderId, arrangementId, quantity, price, 0.0)
  }

  /** A new arrangement: available, stock 10 and no discount unless given. */
  function NewArrangement(id: int, name: string, description: string, price: real, imgUrl: string, categoryId: int): (a: Arrangement)
    ensures a.id == id && a.name == name && a.price == price && a.categoryId == categoryId
    ensures a.available && a.stock == 10 && a.discount == 0
  {
    Arrangement(id, name, description, price, imgUrl, true, categoryId, 10, 0)
  }

  /** A new user: `user_direction` defaults to "N/A". */
  function NewUser(id: int, role: string): (u: User)
    ensures u.id == id && u.role == role && u.direction == Some("N/A")
  {
    User(id, role, Some("N/A"))
  }

  // ---------------------------------------------------------------------------
  // Row lookups: `.first()` over a table

  /** Index of the first element satisfying `p`, if any. */
  function FirstIndex<T>(s: seq<T>, p: T -> bool): (r: Option<nat>)
    ensures r.Some? ==> r.value < |s| && p(s[r.value])
    ensures r.Some? ==> forall j :: 0 <= j < r.value ==> !p(s[j])
    ensures r.None? ==> forall j :: 0 <= j < |s| ==> !p(s[j])
  {
    if s == [] then None
    else if p(s[0]) then Some(0)
    else match FirstIndex(s[1..], p)
      case None => None
      case Some(k) => Some(k + 1)
  }

  /** The rows satisfying `p`, in table order (`query(...).filter(...).all()`). */
  function Filter<T(!new)>(s: seq<T>, p: T -> bool): (r: seq<T>)
    ensures |r| <= |s|
    ensures forall x :: x in r <==> x in s && p(x)
    ensures |s| == 1 ==> r == (if p(s[0]) then s else [])
  {
    if s == [] then []
    else (if p(s[0]) then [s[0]] else []) + Filter(s[1..], p)
  }

  /**
   * Filtering distributes over concatenation; with the one-row case above this
   * fixes both the order and the multiplicity of the rows `.all()` returns.
   */
  lemma {:induction false} FilterConcat<T(!new)>(a: seq<T>, b: seq<T>, p: T -> bool)
    ensures Filter(a + b, p) == Filter(a, p) + Filter(b, p)
  {
    if a == [] {
      assert a + b == b;
    } else {
      assert (a + b)[0] == a[0];
      assert (a + b)[1..] == a[1..] + b;
      FilterConcat(a[1..], b, p);
    }
  }

  function ArrangementIndex(arrangements: seq<Arrangement>, id: int): (r: Option<nat>)
    ensures r.Some? ==> r.value < |arrangements| && arrangements[r.value].id == id
    ensures r.None? ==> forall j :: 0 <= j < |arrangements| ==> arrangements[j].id != id
  {
    FirstIndex(arrangements, (a: Arrangement) => a.id == id)
  }

  function UserIndex(users: seq<User>, id: int): (r: Option<nat>)
    ensures r.Some? ==> r.value < |users| && users[r.value].id == id
    ensures r.None? ==> forall j :: 0 <= j < |users| ==> users[j].id != id
  {
    FirstIndex(users, (u: User) => u.id == id)
  }

  function OrderIndex(orders: seq<Order>, id: int): (r: Option<nat>)
    ensures r.Some? ==> r.value < |orders| && orders[r.value].id == id
    ensures r.None? ==> forall j :: 0 <= j < |orders| ==> orders[j].id != id
  {
    FirstIndex(orders, (o: Order) => o.id == id)
  }

  predicate IsCartOf(o: Order, userId: int)
  {
    o.userId == Some(userId) && o.state == CartState
  }

  /** The user's cart: the first order of that user in state "carrito". */
  function CartIndex(orders: seq<Order>, userId: int): (r: Option<nat>)
    ensures r.Some? ==> r.value < |orders| && IsCartOf(orders[r.value], userId)
    ensures r.Some? ==> forall j :: 0 <= j < r.value ==> !IsCartOf(orders[j], userId)
    ensures r.None? ==> forall j :: 0 <= j < |orders| ==> !IsCartOf(orders[j], userId)
  {
    FirstIndex(orders, (o: Order) => IsCartOf(o, userId))
  }

  /** `order.payment`: the first payment row that references the order. */
  function PaymentOfOrder(payments: seq<Payment>, orderId: int): (r: Option<nat>)
    ensures r.Some? ==> r.value < |payments| && payments[r.value].orderId == orderId
    ensures r.Some? ==> forall j :: 0 <= j < r.value ==> payments[j].orderId != orderId
    ensures r.None? ==> forall j :: 0 <= j < |payments| ==> payments[j].orderId != orderId
  {
    FirstIndex(payments, (p: Payment) => p.orderId == orderId)
  }

  /** The first payment whose transaction id equals `txn`. */
  function PaymentByTransaction(payments: seq<Payment>, txn: string): (r: Option<nat>)
    ensures r.Some? ==> r.value < |payments| && payments[r.value].transactionId == Some(txn)
    ensures r.Some? ==> forall j :: 0 <= j < r.value ==> payments[j].transactionId != Some(txn)
    ensures r.None? ==> forall j :: 0 <= j < |payments| ==> payments[j].transactionId != Some(txn)
  {
    FirstIndex(payments, (p: Payment) => p.transactionId == Some(txn))
  }

  /** The lines of one order, in table order. */
  function LinesOf(details: seq<OrderDetail>, orderId: int): (r: seq<OrderDetail>)
    ensures forall d :: d in r <==> d in details && d.orderId == orderId
  {
    Filter(details, (d: OrderDetail) => d.orderId == orderId)
  }

  // ---------------------------------------------------------------------------
  // Integrity rules of the schema

  ghost predicate HasOrder(orders: seq<Order>, id: int)
  {
    exists i :: 0 <= i < |orders| && orders[i].id == id
  }

  ghost predicate HasArrangement(arrangements: seq<Arrangement>, id: int)
  {
    exists i :: 0 <= i < |arrangements| && arrangements[i].id == id
  }

  /** Primary keys of orders are distinct and below the next id to be drawn. */
  ghost predicate OrderKeys(orders: seq<Order>, nextId: int)
  {
    && (forall i, j :: 0 <= i < j < |orders| ==> orders[i].id != orders[j].id)
    && (forall i :: 0 <= i < |orders| ==> orders[i].id < nextId)
  }

  /** Primary keys of order lines are distinct and below the next id to be drawn. */
  ghost predicate DetailKeys(details: seq<OrderDetail>, nextId: int)
  {
    && (forall i, j :: 0 <= i < j < |details| ==> details[i].id != details[j].id)
    && (forall i :: 0 <= i < |details| ==> details[i].id < nextId)
  }

  /** An order line references an existing order and arrangement and has a positive quantity. */
  ghost predicate DetailsLinked(details: seq<OrderDetail>, orders: seq<Order>, arrangements: seq<Arrangement>)
  {
    forall i :: 0 <= i < |details| ==>
      && details[i].quantity > 0
      && HasOrder(orders, details[i].orderId)
      && HasArrangement(arrangements, details[i].arrangementId)
  }

  /** `pay_transaction_id` is nullable but unique. */
  ghost predicate TransactionIdsUnique(payments: seq<Payment>)
  {
    forall i, j :: 0 <= i < j < |payments| && payments[i].transactionId.Some? ==>
      payments[i].transactionId != payments[j].transactionId
  }

  /** Every payment references an order, and an order has at most one payment. */
  ghost predicate PaymentsLinked(payments: seq<Payment>, orders: seq<Order>)
  {
    && (forall i :: 0 <= i < |payments| ==> HasOrder(orders, payments[i].orderId))
    && (forall i, j :: 0 <= i < j < |payments| ==> payments[i].orderId != payments[j].orderId)
  }

  /** A registered user has at most one order in state "carrito". */
  ghost predicate CartsUnique(orders: seq<Order>)
  {
    forall i, j ::
      (0 <= i < j < |orders| && orders[i].userId.Some? &&
       orders[i].state == CartState && orders[j].state == CartState) ==>
      orders[i].userId != orders[j].userId
  }

  ghost predicate TablesValid(t: Tables)
  {
    && OrderKeys(t.orders, t.nextOrderId)
    && DetailKeys(t.details, t.nextDetailId)
    && DetailsLinked(t.details, t.orders, t.arrangements)
    && TransactionIdsUnique(t.payments)
    && PaymentsLinked(t.payments, t.orders)
    && CartsUnique(t.orders)
  }
}

/** Facts about updates that keep the integrity rules. */
module Integrity {
  import opened Common
  import opened Models

  /** `after` has the same orders, except that some may have left the "carrito" state or changed totals. */
  ghost predicate OrdersKeptShape(before: seq<Order>, after: seq<Order>)
  {
    && |after| == |before|
    && (forall i :: 0 <= i < |after| ==> after[i].id == before[i].id && after[i].userId == before[i].userId)
    && (forall i :: 0 <= i < |after| && after[i].state == CartState ==> before[i].state == CartState)
  }

  /** `after` has the same payments, except for their amounts and states. */
  ghost predicate PaymentsKeptShape(before: seq<Payment>, after: seq<Payment>)
  {
    && |after| == |before|
    && forall i :: 0 <= i < |after| ==>
         after[i].orderId == before[i].orderId && after[i].transactionId == before[i].transactionId
  }

  lemma HasOrderKept(before: seq<Order>, after: seq<Order>, id: int)
    requires OrdersKeptShape(before, after)
    requires HasOrder(before, id)
    ensures HasOrder(after, id)
  {
    var i :| 0 <= i < |before| && before[i].id == id;
    assert after[i].id == id;
  }

  /** Orders that keep their shape keep every integrity rule about orders. */
  lemma OrdersKeptShapeValid(t: Tables, orders: seq<Order>)
    requires TablesValid(t)
    requires OrdersKeptShape(t.orders, orders)
    ensures TablesValid(t.(orders := orders))
  {
    forall i | 0 <= i < |t.details|
      ensures HasOrder(orders, t.details[i].orderId)
    {
      HasOrderKept(t.orders, orders, t.details[i].orderId);
    }
    forall i | 0 <= i < |t.payments|
      ensures HasOrder(orders, t.payments[i].orderId)
    {
      HasOrderKept(t.orders, orders, t.payments[i].orderId);
    }
  }

  /** Appending a line with a fresh id, a positive quantity and existing references keeps every integrity rule. */
  lemma AppendDetailValid(t: Tables, line: OrderDetail)
    requires TablesValid(t)
    requires line.id == t.nextDetailId && line.quantity > 0
    requires HasOrder(t.orders, line.orderId) && HasArrangement(t.arrangements, line.arrangementId)
    ensures TablesValid(t.(details := t.details + [line], nextDetailId := t.nextDetailId + 1))
  {
    var ds := t.details + [line];
    assert forall i :: 0 <= i < |t.details| ==> ds[i] == t.details[i];
  }

  /** Payments that keep their shape keep every integrity rule about payments. */
  lemma PaymentsKeptShapeValid(t: Tables, payments: seq<Payment>)
    requires TablesValid(t)
    requires PaymentsKeptShape(t.payments, payments)
    ensures TablesValid(t.(payments := payments))
  {
  }
}
