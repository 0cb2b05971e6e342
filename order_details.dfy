/**
 * `GET /order/details/{order_id}`: the access decision for an order and the
 * assembly of its detail view (its lines with their arrangements, the
 * delivery address, the payment summary).
 *
 * As written, the ownership test compares the order's integer owner with the
 * token's subject, which is always text, so it never matches; and the view
 * never supplies `order_comments`, which the response model requires, so
 * every request that passes the access test ends in a validation error.
 * `OrderDetailsAsWritten` models that handler; `OrderDetails` the corrected one.
 */
module OrderDetails {
  import opened Common
  import opened Models

  const Forbidden := 403
  const NotFound := 404
  const ServerError := 500

  const AdminRole: string := "Administrador"
  const ClientRole: string := "Cliente"

  /**
   * The authenticated caller: the user id and role of the token, and its
   * subject claim, which the token layer always turns into text.
   */
  datatype Caller = Caller(id: int, role: string, sub: string)

  /** The Python values the ownership test compares: `None`, an `int` or a `str`. */
  datatype PyValue = PyNone | PyInt(i: int) | PyStr(s: string)

  /** `order.order_user_id` as a Python value. */
  function OwnerValue(o: Order): (v: PyValue)
    ensures !v.PyStr?
  {
    if o.userId.Some? then PyInt(o.userId.value) else PyNone
  }

  /** Roles that skip the ownership test. */
  predicate Bypasses(role: string)
  {
    role == AdminRole || role == ClientRole
  }

  /**
   * The access test as written: `order_user_id != current_user["sub"]` is a
   * comparison of an `int` (or `None`) with a `str`, never equal, so only the
   * two bypass roles are ever let through.
   */
  function AccessAsWritten(o: Order, caller: Caller): (allowed: bool)
    ensures allowed <==> Bypasses(caller.role)
  {
    Bypasses(caller.role) || OwnerValue(o) == PyStr(caller.sub)
  }

  /** The access test as intended: a bypass role, or the order's owner. */
  function Access(o: Order, caller: Caller): (allowed: bool)
    ensures allowed <==> Bypasses(caller.role) || o.userId == Some(caller.id)
  {
    Bypasses(caller.role) || OwnerValue(o) == PyInt(caller.id)
  }

  /** The owner of an order, calling with a role such as "Empleado", is refused as written and admitted as intended. */
  lemma OwnerDeniedAsWritten()
    ensures var o := NewOrder(1, Some(7), 0.0, 0);
      var caller := Caller(7, "Empleado", "7");
      !AccessAsWritten(o, caller) && Access(o, caller)
  {
  }

  // ---------------------------------------------------------------------------
  // The view

  /** One entry of the `arrangements` list (`ArrangementInOrder`). */
  datatype ArrangementInOrder = ArrangementInOrder(
    name: string, imgUrl: string, quantity: int, price: real, discount: real)

  /** The response body (`OrderDetailResponse`, without `order_comments`). */
  datatype DetailView = DetailView(
    orderId: int, state: string, date: Time, deliveryAddress: string,
    payMethod: string, payState: string, totalPaid: real,
    arrangements: seq<ArrangementInOrder>)

  datatype DetailsReply = Shown(view: DetailView) | Refused(code: int)

  /** The entry for one line: the arrangement's name and image, the line's quantity, price and discount. */
  function Entry(a: Arrangement, line: OrderDetail): ArrangementInOrder
  {
    ArrangementInOrder(a.name, a.imgUrl, line.quantity, line.price, line.discount)
  }

  /**
   * The entries for `lines`, in order; None when some line's arrangement is
   * missing (`arr.arr_name` on `None` raises).
   */
  function ArrangementsFor(lines: seq<OrderDetail>, arrangements: seq<Arrangement>): (r: Option<seq<ArrangementInOrder>>)
    ensures r.Some? <==> forall i :: 0 <= i < |lines| ==> ArrangementIndex(arrangements, lines[i].arrangementId).Some?
    ensures r.Some? ==> |r.value| == |lines|
    ensures r.Some? ==> forall i :: 0 <= i < |lines| ==>
      r.value[i] == Entry(arrangements[ArrangementIndex(arrangements, lines[i].arrangementId).value], lines[i])
  {
    if lines == [] then Some([])
    else
      var init := lines[..|lines| - 1];
      var last := lines[|lines| - 1];
      assert forall i :: 0 <= i < |init| ==> init[i] == lines[i];
      match ArrangementsFor(init, arrangements)
      case None => None
      case Some(entries) =>
        match ArrangementIndex(arrangements, last.arrangementId)
        case None => None
        case Some(a) => Some(entries + [Entry(arrangements[a], last)])
  }

  /** The loop that builds the `arrangements` list, one lookup per line. */
  method BuildArrangements(lines: seq<OrderDetail>, arrangements: seq<Arrangement>) returns (r: Option<seq<ArrangementInOrder>>)
    ensures r == ArrangementsFor(lines, arrangements)
  {
    var entries: seq<ArrangementInOrder> := [];
    var i := 0;
    while i < |lines|
      invariant 0 <= i <= |lines|
      invariant ArrangementsFor(lines[..i], arrangements) == Some(entries)
    {
      assert lines[..i + 1][..i] == lines[..i];
      var a := ArrangementIndex(arrangements, lines[i].arrangementId);
      if a.None? {
        assert ArrangementsFor(lines[..i + 1], arrangements).None?;
        ArrangementsForPrefix(lines, arrangements, i + 1);
        return None;
      }
      entries := entries + [Entry(arrangements[a.value], lines[i])];
      i := i + 1;
    }
    assert lines[..i] == lines;
    return Some(entries);
  }

  /** Once a prefix of the lines has no entries, neither has the whole. */
  lemma ArrangementsForPrefix(lines: seq<OrderDetail>, arrangements: seq<Arrangement>, n: nat)
    requires n <= |lines|
    requires ArrangementsFor(lines[..n], arrangements).None?
    ensures ArrangementsFor(lines, arrangements).None?
  {
    var i :| 0 <= i < n && ArrangementIndex(arrangements, lines[..n][i].arrangementId).None?;
    assert lines[..n][i] == lines[i];
  }

  /**
   * `order.guest_address or order.user.user_direction`; None when a guest
   * order has no address (its `user` is `None`), when the user is missing, or
   * when the user's address is NULL, which the response model refuses.
   */
  function DeliveryAddress(users: seq<User>, o: Order): (r: Option<string>)
    ensures o.guestAddress.Some? && o.guestAddress.value != "" ==> r == o.guestAddress
    ensures (o.guestAddress.None? || o.guestAddress.value == "") && o.userId.Some? &&
            UserIndex(users, o.userId.value).Some? ==>
              r == users[UserIndex(users, o.userId.value).value].direction
    ensures (o.guestAddress.None? || o.guestAddress.value == "") && o.userId.None? ==> r.None?
  {
    if o.guestAddress.Some? && o.guestAddress.value != "" then o.guestAddress
    else if o.userId.None? then None
    else match UserIndex(users, o.userId.value)
      case None => None
      case Some(u) => users[u].direction
  }

  /** The view of the `oi`-th order, or None where building it raises. */
  function Assemble(t: Tables, oi: nat): (v: Option<DetailView>)
    requires oi < |t.orders|
    ensures v.Some? ==> v.value.orderId == t.orders[oi].id && v.value.state == t.orders[oi].state
    ensures v.Some? ==> v.value.date == t.orders[oi].date
    ensures v.Some? ==> Some(v.value.deliveryAddress) == DeliveryAddress(t.users, t.orders[oi])
    ensures v.Some? ==> Some(v.value.arrangements) == ArrangementsFor(LinesOf(t.details, t.orders[oi].id), t.arrangements)
    ensures v.Some? ==> var p := PaymentOfOrder(t.payments, t.orders[oi].id);
      && (p.None? ==> v.value.payMethod == "N/A" && v.value.payState == "N/A" && v.value.totalPaid == 0.0)
      && (p.Some? ==> v.value.payMethod == t.payments[p.value].payMethod && v.value.payState == t.payments[p.value].state
                      && v.value.totalPaid == t.payments[p.value].amount)
    ensures v.None? <==> ArrangementsFor(LinesOf(t.details, t.orders[oi].id), t.arrangements).None? ||
                         DeliveryAddress(t.users, t.orders[oi]).None?
  {
    var o := t.orders[oi];
    match ArrangementsFor(LinesOf(t.details, o.id), t.arrangements)
    case None => None
    case Some(entries) =>
      match DeliveryAddress(t.users, o)
      case None => None
      case Some(address) =>
        var p := PaymentOfOrder(t.payments, o.id);
        Some(DetailView(o.id, o.state, o.date, address,
                        if p.Some? then t.payments[p.value].payMethod else "N/A",
                        if p.Some? then t.payments[p.value].state else "N/A",
                        if p.Some? then t.payments[p.value].amount else 0.0,
                        entries))
  }

  /** The handler as written: 404, 403, or the validation error that the missing `order_comments` raises. */
  function OrderDetailsAsWritten(t: Tables, orderId: int, caller: Caller): (r: DetailsReply)
    ensures !r.Shown?
    ensures r == Refused(NotFound) <==> OrderIndex(t.orders, orderId).None?
    ensures r == Refused(Forbidden) <==>
      OrderIndex(t.orders, orderId).Some? && !AccessAsWritten(t.orders[OrderIndex(t.orders, orderId).value], caller)
  {
    match OrderIndex(t.orders, orderId)
    case None => Refused(NotFound)
    case Some(oi) =>
      if !AccessAsWritten(t.orders[oi], caller) then Refused(Forbidden)
      else Refused(ServerError)
  }

  /** The handler with the owner compared by id and the view returned. */
  function OrderDetails(t: Tables, orderId: int, caller: Caller): (r: DetailsReply)
    ensures r == Refused(NotFound) <==> OrderIndex(t.orders, orderId).None?
    ensures r == Refused(Forbidden) <==>
      OrderIndex(t.orders, orderId).Some? && !Access(t.orders[OrderIndex(t.orders, orderId).value], caller)
    ensures r.Shown? ==> r.view.orderId == orderId && Access(t.orders[OrderIndex(t.orders, orderId).value], caller)
  {
    match OrderIndex(t.orders, orderId)
    case None => Refused(NotFound)
    case Some(oi) =>
      if !Access(t.orders[oi], caller) then Refused(Forbidden)
      else match Assemble(t, oi)
        case None => Refused(ServerError)
        case Some(view) => Shown(view)
  }

  /** `get_user_order_details` as written; it builds the list, then fails validating the response. */
  method GetUserOrderDetails(t: Tables, orderId: int, caller: Caller) returns (r: DetailsReply)
    ensures r == OrderDetailsAsWritten(t, orderId, caller)
    ensures !r.Shown?
  {
    var oi := OrderIndex(t.orders, orderId);
    if oi.None? {
      return Refused(NotFound);
    }
    var order := t.orders[oi.value];
    if !AccessAsWritten(order, caller) {
      return Refused(Forbidden);
    }
    var entries := BuildArrangements(LinesOf(t.details, orderId), t.arrangements);
    r := Refused(ServerError);
  }

  /** `get_user_order_details` corrected: the owner test by id and a response without `order_comments`. */
  method GetUserOrderDetailsFixed(t: Tables, orderId: int, caller: Caller) returns (r: DetailsReply)
    ensures r == OrderDetails(t, orderId, caller)
  {
    var oi := OrderIndex(t.orders, orderId);
    if oi.None? {
      return Refused(NotFound);
    }
    var order := t.orders[oi.value];
    if !Access(order, caller) {
      return Refused(Forbidden);
    }
    var payment := PaymentOfOrder(t.payments, order.id);
    var entries := BuildArrangements(LinesOf(t.details, order.id), t.arrangements);
    if entries.None? {
      return Refused(ServerError);
    }
    var address := DeliveryAddress(t.users, order);
    if address.None? {
      return Refused(ServerError);
    }
    var view := DetailView(order.id, order.state, order.date, address.value,
                           if payment.Some? then t.payments[payment.value].payMethod else "N/A",
                           if payment.Some? then t.payments[payment.value].state else "N/A",
                           if payment.Some? then t.payments[payment.value].amount else 0.0,
                           entries.value);
    r := Shown(view);
  }

  // ---------------------------------------------------------------------------
  // Properties

  /** An unknown order id is answered with 404, by both handlers. */
  lemma UnknownOrderNotFound(t: Tables, orderId: int, caller: Caller)
    requires forall j :: 0 <= j < |t.orders| ==> t.orders[j].id != orderId
    ensures OrderDetails(t, orderId, caller) == Refused(NotFound)
    ensures OrderDetailsAsWritten(t, orderId, caller) == Refused(NotFound)
  {
  }

  /** As written, no request ever gets the view: every known order ends in 403 or 500. */
  lemma NeverShownAsWritten(t: Tables, orderId: int, caller: Caller)
    ensures !OrderDetailsAsWritten(t, orderId, caller).Shown?
    ensures OrderIndex(t.orders, orderId).Some? ==>
      OrderDetailsAsWritten(t, orderId, caller) == Refused(if Bypasses(caller.role) then ServerError else Forbidden)
  {
  }

  /** The two bypass roles are never refused with 403, whoever owns the order. */
  lemma BypassRolesNotForbidden(t: Tables, orderId: int, caller: Caller)
    requires Bypasses(caller.role)
    ensures OrderDetails(t, orderId, caller) != Refused(Forbidden)
    ensures OrderDetailsAsWritten(t, orderId, caller) != Refused(Forbidden)
  {
  }

  /** Any other role gets 403 on an order that is not its own, and the view of its own order. */
  lemma OtherRolesOwnOrdersOnly(t: Tables, orderId: int, caller: Caller)
    requires !Bypasses(caller.role)
    requires OrderIndex(t.orders, orderId).Some?
    ensures var o := t.orders[OrderIndex(t.orders, orderId).value];
      OrderDetails(t, orderId, caller) == Refused(Forbidden) <==> o.userId != Some(caller.id)
  {
  }

  /**
   * The view lists one entry per line of the order, in table order, with the
   * line's quantity, price and discount; without a payment its method and
   * state are "N/A" and the amount paid 0.
   */
  lemma ShownView(t: Tables, orderId: int, caller: Caller)
    requires OrderDetails(t, orderId, caller).Shown?
    ensures var v := OrderDetails(t, orderId, caller).view;
      var lines := LinesOf(t.details, orderId);
      && v.orderId == orderId
      && |v.arrangements| == |lines|
      && (forall i :: 0 <= i < |lines| ==>
            v.arrangements[i].quantity == lines[i].quantity && v.arrangements[i].price == lines[i].price &&
            v.arrangements[i].discount == lines[i].discount)
      && (PaymentOfOrder(t.payments, orderId).None? ==> v.payMethod == "N/A" && v.payState == "N/A" && v.totalPaid == 0.0)
  {
    var oi := OrderIndex(t.orders, orderId).value;
    assert t.orders[oi].id == orderId;
  }
}
