/**
 * Payment creation and verification against the provider: the amount check
 * and merchant reference of `POST /payment/create`, and the status
 * translation and conditional state update of `GET /payments/verify`.
 *
 * The provider is an input of the model: `create_payment_link` becomes a
 * function from the request's values to the link object it returns (None when
 * it raises), and the token request plus the HTTP lookup of a transaction
 * become a function from the transaction id to what the lookup yields.
 */
module Payments {
  import opened Common
  import opened Json
  import opened Models
  import opened Integrity
  import opened Storage

  const BadRequest := 400
  const ServerError := 500
  const HttpOk := 200

  // ---------------------------------------------------------------------------
  // The merchant reference: "ORD-" + YYYYMMDD + "-" + six hex characters

  /** A calendar date as `datetime.now()` gives it; `%Y` is four digits from year 1000 on. */
  datatype Date = Date(year: int, month: int, day: int)

  predicate ValidDate(d: Date)
  {
    1000 <= d.year <= 9999 && 1 <= d.month <= 12 && 1 <= d.day <= 31
  }

  predicate IsDigit(c: char)
  {
    '0' <= c <= '9'
  }

  predicate IsHexDigit(c: char)
  {
    '0' <= c <= '9' || 'a' <= c <= 'f'
  }

  /** What `uuid.uuid4().hex` yields: 32 lower-case hexadecimal characters. */
  predicate IsUuidHex(s: string)
  {
    |s| == 32 && forall i :: 0 <= i < |s| ==> IsHexDigit(s[i])
  }

  function Pow10(w: nat): (p: nat)
    ensures p >= 1
  {
    if w == 0 then 1 else 10 * Pow10(w - 1)
  }

  /** `n` in decimal on exactly `width` digits, with leading zeros (`%m`, `%d`, `%Y`). */
  function Digits(n: nat, width: nat): (s: string)
    requires n < Pow10(width)
    ensures |s| == width
    ensures forall i :: 0 <= i < |s| ==> IsDigit(s[i])
  {
    if width == 0 then ""
    else Digits(n / 10, width - 1) + [('0' as int + n % 10) as char]
  }

  /** The number a string of decimal digits denotes. */
  function ValueOf(s: string): nat
    requires forall i :: 0 <= i < |s| ==> IsDigit(s[i])
  {
    if s == [] then 0
    else assert IsDigit(s[|s| - 1]); 10 * ValueOf(s[..|s| - 1]) + (s[|s| - 1] as int - '0' as int)
  }

  /** Reading back the digits of `n` gives `n`. */
  lemma {:induction false} ValueOfDigits(n: nat, width: nat)
    requires n < Pow10(width)
    ensures ValueOf(Digits(n, width)) == n
  {
    if width > 0 {
      var s := Digits(n, width);
      assert s[..|s| - 1] == Digits(n / 10, width - 1);
      ValueOfDigits(n / 10, width - 1);
    }
  }

  /** The reference `create_wompi_payment` sends to the provider. */
  function Reference(today: Date, uuidHex: string): (r: string)
    requires ValidDate(today) && IsUuidHex(uuidHex)
    ensures |r| == 19
    ensures r[..4] == "ORD-" && r[12] == '-'
    ensures forall i :: 4 <= i < 12 ==> IsDigit(r[i])
    ensures r[13..] == uuidHex[..6]
  {
    "ORD-" + Digits(today.year, 4) + Digits(today.month, 2) + Digits(today.day, 2) + "-" + uuidHex[..6]
  }

  /** The date and hex suffix of a well-formed reference. */
  function ParseReference(r: string): Option<(Date, string)>
  {
    if |r| == 19 && r[..4] == "ORD-" && r[12] == '-' && forall i :: 4 <= i < 12 ==> IsDigit(r[i]) then
      Some((Date(ValueOf(r[4..8]), ValueOf(r[8..10]), ValueOf(r[10..12])), r[13..]))
    else None
  }

  /** Every reference reads back as the date it was made on and the first six hex characters. */
  lemma ReferenceRoundTrip(today: Date, uuidHex: string)
    requires ValidDate(today) && IsUuidHex(uuidHex)
    ensures ParseReference(Reference(today, uuidHex)) == Some((today, uuidHex[..6]))
  {
    var r := Reference(today, uuidHex);
    assert r[4..8] == Digits(today.year, 4);
    assert r[8..10] == Digits(today.month, 2);
    assert r[10..12] == Digits(today.day, 2);
    ValueOfDigits(today.year, 4);
    ValueOfDigits(today.month, 2);
    ValueOfDigits(today.day, 2);
  }

  /** Two references are equal only when made on the same date from the same six hex characters. */
  lemma ReferenceInjective(d1: Date, h1: string, d2: Date, h2: string)
    requires ValidDate(d1) && IsUuidHex(h1) && ValidDate(d2) && IsUuidHex(h2)
    requires Reference(d1, h1) == Reference(d2, h2)
    ensures d1 == d2 && h1[..6] == h2[..6]
  {
    ReferenceRoundTrip(d1, h1);
    ReferenceRoundTrip(d2, h2);
  }

  // ---------------------------------------------------------------------------
  // create_wompi_payment

  /** `create_payment_link(amount, description, reference, customer_email)`; None when it raises. */
  type LinkGateway = (Json, string, string, Json) -> Option<Json>

  const Description: string := "Compra de arreglos florales"

  datatype CreateReply = Created(paymentUrl: Json) | CreateFailed(code: int)

  /**
   * The amount check: a missing or falsy amount, or a number at most 0, is
   * refused with 400; comparing a text, list or object with 0 raises outside
   * the handler's `try`, which the framework answers with 500. None lets the
   * request through.
   */
  function AmountCheck(amount: Json): (r: Option<int>)
    ensures r.None? <==> (amount.JNum? && amount.n > 0.0) || amount == JBool(true)
    ensures r == Some(BadRequest) <==> !Truthy(amount) || (amount.JNum? && amount.n <= 0.0)
  {
    if !Truthy(amount) then Some(BadRequest)
    else match amount
      case JNum(n) => if n <= 0.0 then Some(BadRequest) else None
      case JBool(_) => None
      case _ => Some(ServerError)
  }

  /**
   * `create_wompi_payment` on the posted object. Nothing is stored on any
   * path: the store is not an argument.
   */
  function CreatePayment(data: map<string, Json>, today: Date, uuidHex: string, gateway: LinkGateway): (r: CreateReply)
    requires ValidDate(today) && IsUuidHex(uuidHex)
    ensures r.Created? ==> "amount" in data && AmountCheck(data["amount"]).None? && "email" in data
    ensures r == CreateFailed(BadRequest) <==> AmountCheck(if "amount" in data then data["amount"] else JNull) == Some(BadRequest)
    ensures r.CreateFailed? ==> r.code == BadRequest || r.code == ServerError
  {
    var amount := if "amount" in data then data["amount"] else JNull;
    match AmountCheck(amount)
    case Some(code) => CreateFailed(code)
    case None =>
      if "email" !in data then CreateFailed(ServerError)
      else match gateway(amount, Description, Reference(today, uuidHex), data["email"])
        case None => CreateFailed(ServerError)
        case Some(link) =>
          if link.JObj? && "url" in link.fields then Created(link.fields["url"])
          else CreateFailed(ServerError)
  }

  /** A missing, falsy or non-positive amount is refused with 400 whatever the gateway would do. */
  lemma CreateRejectsBadAmount(data: map<string, Json>, today: Date, uuidHex: string, g1: LinkGateway, g2: LinkGateway)
    requires ValidDate(today) && IsUuidHex(uuidHex)
    requires "amount" !in data || !Truthy(data["amount"]) || (data["amount"].JNum? && data["amount"].n <= 0.0)
    ensures CreatePayment(data, today, uuidHex, g1) == CreatePayment(data, today, uuidHex, g2) == CreateFailed(BadRequest)
  {
  }

  /**
   * A link is only returned for a positive amount and a present email, and is
   * the `url` of what the gateway answered for this very request.
   */
  lemma CreatedLink(data: map<string, Json>, today: Date, uuidHex: string, gateway: LinkGateway)
    requires ValidDate(today) && IsUuidHex(uuidHex)
    requires CreatePayment(data, today, uuidHex, gateway).Created?
    ensures "amount" in data && "email" in data
    ensures (data["amount"].JNum? && data["amount"].n > 0.0) || data["amount"] == JBool(true)
    ensures var link := gateway(data["amount"], Description, Reference(today, uuidHex), data["email"]);
      link.Some? && link.value.JObj? && "url" in link.value.fields &&
      CreatePayment(data, today, uuidHex, gateway).paymentUrl == link.value.fields["url"]
  {
    var amount := if "amount" in data then data["amount"] else JNull;
    assert AmountCheck(amount).None?;
  }

  /** When the gateway raises, the answer is 500. */
  lemma CreateGatewayFailure(data: map<string, Json>, today: Date, uuidHex: string, gateway: LinkGateway)
    requires ValidDate(today) && IsUuidHex(uuidHex)
    requires "amount" in data && "email" in data && AmountCheck(data["amount"]).None?
    requires gateway(data["amount"], Description, Reference(today, uuidHex), data["email"]).None?
    ensures CreatePayment(data, today, uuidHex, gateway) == CreateFailed(ServerError)
  {
  }

  // ---------------------------------------------------------------------------
  // The status map

  const Approved: string := "APPROVED"
  const Declined: string := "DECLINED"
  const Pending: string := "PENDING"

  predicate IsStatus(s: string)
  {
    s == Approved || s == Declined || s == Pending
  }

  /**
   * `status_map.get(estado, "PENDING")`; None is the `TypeError` an
   * unhashable value (a list or an object) raises.
   */
  function StatusMap(estado: Json): (r: Option<string>)
    ensures r.None? <==> estado.JArr? || estado.JObj?
    ensures r.Some? ==> IsStatus(r.value)
    ensures estado.JStr? && IsStatus(estado.s) ==> r == Some(estado.s)
    ensures estado.JStr? && (estado.s == "VOIDED" || estado.s == "ERROR") ==> r == Some(Declined)
    ensures (!estado.JArr? && !estado.JObj? &&
             !(estado.JStr? && (IsStatus(estado.s) || estado.s == "VOIDED" || estado.s == "ERROR"))) ==>
              r == Some(Pending)
  {
    match estado
    case JArr(_) => None
    case JObj(_) => None
    case JStr(s) =>
      if s == Approved || s == Declined || s == Pending then Some(s)
      else if s == "VOIDED" || s == "ERROR" then Some(Declined)
      else Some(Pending)
    case _ => Some(Pending)
  }

  /** Translating a translated status again changes nothing. */
  lemma StatusMapIdempotent(estado: Json)
    requires StatusMap(estado).Some?
    ensures StatusMap(JStr(StatusMap(estado).value)) == StatusMap(estado)
  {
  }

  // ---------------------------------------------------------------------------
  // verify_payment

  /** What the token request and the transaction lookup yield. */
  datatype Lookup =
    | LookupFailed                           // `create_token` or the HTTP request raised
    | Responded(code: int, body: Option<Json>) // body None: `response.json()` raised

  datatype OrderSummary = OrderSummary(id: int, date: Time, total: real, payMethod: string)

  /** A 200 answer with a status, the 400 `"PENDING"` answer, or an HTTP error. */
  datatype VerifyReply = Verified(status: string, order: OrderSummary) | Unconfirmed | VerifyFailed(code: int)

  /** The first order whose reference is `reference`. */
  function OrderByReference(orders: seq<Order>, reference: string): (r: Option<nat>)
    ensures r.Some? ==> r.value < |orders| && orders[r.value].reference == Some(reference)
    ensures r.Some? ==> forall j :: 0 <= j < r.value ==> orders[j].reference != Some(reference)
    ensures r.None? ==> forall j :: 0 <= j < |orders| ==> orders[j].reference != Some(reference)
  {
    FirstIndex(orders, (o: Order) => o.reference == Some(reference))
  }

  /** The order part of the answer: its payment's amount and method, or 0 and "N/A". */
  function Summary(t: Tables, oi: nat): (s: OrderSummary)
    requires oi < |t.orders|
    ensures s.id == t.orders[oi].id && s.date == t.orders[oi].date
    ensures var p := PaymentOfOrder(t.payments, t.orders[oi].id);
      && (p.Some? ==> s.total == t.payments[p.value].amount && s.payMethod == t.payments[p.value].payMethod)
      && (p.None? ==> s.total == 0.0 && s.payMethod == "N/A")
  {
    match PaymentOfOrder(t.payments, t.orders[oi].id)
    case None => OrderSummary(t.orders[oi].id, t.orders[oi].date, 0.0, "N/A")
    case Some(k) => OrderSummary(t.orders[oi].id, t.orders[oi].date, t.payments[k].amount, t.payments[k].payMethod)
  }

  /** `wompi_data["estado"]`; None when the body is no object or lacks the key. */
  function Estado(body: Option<Json>): (r: Option<Json>)
    ensures r.Some? <==> body.Some? && body.value.JObj? && "estado" in body.value.fields
    ensures r.Some? ==> r.value == body.value.fields["estado"]
  {
    if body.Some? && body.value.JObj? && "estado" in body.value.fields then Some(body.value.fields["estado"])
    else None
  }

  /** The order's payment, if any, with its state set to `status`. */
  function SetPaymentState(t: Tables, orderId: int, status: string): (a: Tables)
    ensures a == t.(payments := a.payments)
    ensures |a.payments| == |t.payments|
    ensures PaymentOfOrder(t.payments, orderId).None? ==> a == t
    ensures PaymentOfOrder(t.payments, orderId).Some? ==>
      var k := PaymentOfOrder(t.payments, orderId).value;
      && a.payments[k] == t.payments[k].(state := status)
      && forall j :: 0 <= j < |t.payments| && j != k ==> a.payments[j] == t.payments[j]
  {
    match PaymentOfOrder(t.payments, orderId)
    case None => t
    case Some(k) => t.(payments := t.payments[k := t.payments[k].(state := status)])
  }

  /**
   * `verify_payment` on the tables, with `refused` as the answer to a lookup
   * that does not return 200; every exception, the 404 included, surfaces as 500.
   */
  function VerifyOutcome(t: Tables, reference: string, transactionId: Option<string>, lookup: string -> Lookup,
                         refused: VerifyReply): (s: Step<VerifyReply>)
    ensures s.after == t.(payments := s.after.payments) && |s.after.payments| == |t.payments|
    ensures !s.reply.Verified? ==> s.after == t
    ensures s.reply.VerifyFailed? && s.reply != refused ==> s.reply.code == ServerError
  {
    match OrderByReference(t.orders, reference)
    case None => Step(VerifyFailed(ServerError), t)
    case Some(oi) =>
      if transactionId.Some? && transactionId.value != "" then
        match lookup(transactionId.value)
        case LookupFailed => Step(VerifyFailed(ServerError), t)
        case Responded(code, body) =>
          if code != HttpOk then Step(refused, t)
          else match Estado(body)
            case None => Step(VerifyFailed(ServerError), t)
            case Some(estado) =>
              match StatusMap(estado)
              case None => Step(VerifyFailed(ServerError), t)
              case Some(status) =>
                var a := SetPaymentState(t, t.orders[oi].id, status);
                Step(Verified(status, Summary(a, oi)), a)
      else
        var p := PaymentOfOrder(t.payments, t.orders[oi].id);
        Step(Verified(if p.Some? then t.payments[p.value].state else Pending, Summary(t, oi)), t)
  }

  /**
   * The handler as written. `logger` is the module `fastapi.logger`, which has
   * no `error` attribute, so the non-200 branch raises `AttributeError`; the
   * `except` clause raises it again from its own `logger.error`, and FastAPI
   * answers 500. Every failure is therefore a 500 that changes nothing, and
   * only payments ever change.
   */
  function VerifyStep(t: Tables, reference: string, transactionId: Option<string>, lookup: string -> Lookup): (s: Step<VerifyReply>)
    ensures !s.reply.Verified? ==> s.reply == VerifyFailed(ServerError) && s.after == t
    ensures s.after == t.(payments := s.after.payments) && |s.after.payments| == |t.payments|
  {
    VerifyOutcome(t, reference, transactionId, lookup, VerifyFailed(ServerError))
  }

  /** The handler as evidently intended: a lookup without 200 gets the 400 "PENDING" answer. */
  function VerifyStepIntended(t: Tables, reference: string, transactionId: Option<string>, lookup: string -> Lookup): (s: Step<VerifyReply>)
    ensures !s.reply.Verified? ==> s.after == t
    ensures s.reply.VerifyFailed? ==> s.reply.code == ServerError
    ensures s.after == t.(payments := s.after.payments) && |s.after.payments| == |t.payments|
  {
    VerifyOutcome(t, reference, transactionId, lookup, Unconfirmed)
  }

  method VerifyPayment(db: Store, reference: string, transactionId: Option<string>, lookup: string -> Lookup)
    returns (reply: VerifyReply)
    requires db.Valid()
    modifies db
    ensures db.Valid()
    ensures Step(reply, db.Snapshot()) == VerifyStep(old(db.Snapshot()), reference, transactionId, lookup)
  {
    VerifyPreservesValid(db.Snapshot(), reference, transactionId, lookup);
    var found := OrderByReference(db.orders, reference);
    if found.None? {
      return VerifyFailed(ServerError);
    }
    var order := db.orders[found.value];
    if transactionId.Some? && transactionId.value != "" {
      var response := lookup(transactionId.value);
      if response.LookupFailed? {
        return VerifyFailed(ServerError);
      }
      if response.code != HttpOk {
        return VerifyFailed(ServerError);
      }
      var estado := Estado(response.body);
      if estado.None? {
        return VerifyFailed(ServerError);
      }
      var status := StatusMap(estado.value);
      if status.None? {
        return VerifyFailed(ServerError);
      }
      var k := PaymentOfOrder(db.payments, order.id);
      if k.Some? {
        db.payments := db.payments[k.value := db.payments[k.value].(state := status.value)];
      }
      reply := Verified(status.value, Summary(db.Snapshot(), found.value));
    } else {
      var k := PaymentOfOrder(db.payments, order.id);
      var status := if k.Some? then db.payments[k.value].state else Pending;
      reply := Verified(status, Summary(db.Snapshot(), found.value));
    }
  }

  lemma VerifyPreservesValid(t: Tables, reference: string, transactionId: Option<string>, lookup: string -> Lookup)
    requires TablesValid(t)
    ensures TablesValid(VerifyStep(t, reference, transactionId, lookup).after)
  {
    var a := VerifyStep(t, reference, transactionId, lookup).after;
    assert a == t.(payments := a.payments);
    if a != t {
      PaymentsKeptShapeValid(t, a.payments);
    }
  }

  /** An unknown reference is answered with 500 (the 404 is caught) and changes nothing. */
  lemma VerifyUnknownReference(t: Tables, reference: string, transactionId: Option<string>, lookup: string -> Lookup)
    requires forall j :: 0 <= j < |t.orders| ==> t.orders[j].reference != Some(reference)
    ensures VerifyStep(t, reference, transactionId, lookup) == Step(VerifyFailed(ServerError), t)
  {
  }

  /** As written, a lookup answered with anything but 200 gets 500 instead of the 400 "PENDING" answer, and no update. */
  lemma VerifyUnconfirmed(t: Tables, reference: string, txn: string, lookup: string -> Lookup)
    requires OrderByReference(t.orders, reference).Some? && txn != ""
    requires lookup(txn).Responded? && lookup(txn).code != HttpOk
    ensures VerifyStep(t, reference, Some(txn), lookup) == Step(VerifyFailed(ServerError), t)
    ensures VerifyStepIntended(t, reference, Some(txn), lookup) == Step(Unconfirmed, t)
  {
  }

  /** Everywhere else the intended handler and the handler as written agree. */
  lemma VerifyIntendedAgrees(t: Tables, reference: string, transactionId: Option<string>, lookup: string -> Lookup)
    requires !(transactionId.Some? && transactionId.value != "" && OrderByReference(t.orders, reference).Some?
               && lookup(transactionId.value).Responded? && lookup(transactionId.value).code != HttpOk)
    ensures VerifyStepIntended(t, reference, transactionId, lookup) == VerifyStep(t, reference, transactionId, lookup)
  {
  }

  /**
   * A confirmed lookup sets the order's payment, if any, to the translated
   * status, one of the three, and changes nothing else; the answer carries
   * that status.
   */
  lemma VerifyUpdatesOnlyState(t: Tables, reference: string, txn: string, lookup: string -> Lookup)
    requires txn != ""
    requires VerifyStep(t, reference, Some(txn), lookup).reply.Verified?
    ensures var s := VerifyStep(t, reference, Some(txn), lookup);
      var oi := OrderByReference(t.orders, reference).value;
      var p := PaymentOfOrder(t.payments, t.orders[oi].id);
      && IsStatus(s.reply.status)
      && lookup(txn).Responded? && lookup(txn).code == HttpOk
      && s.after == t.(payments := s.after.payments) && |s.after.payments| == |t.payments|
      && (p.None? ==> s.after == t)
      && (p.Some? ==> s.after.payments[p.value] == t.payments[p.value].(state := s.reply.status))
      && (forall j :: 0 <= j < |t.payments| && (p.None? || j != p.value) ==> s.after.payments[j] == t.payments[j])
  {
  }

  /**
   * Without a transaction id the call is read-only: it reports the stored
   * payment state or "PENDING", the amount or 0, and the method or "N/A".
   */
  lemma VerifyReadOnly(t: Tables, reference: string, transactionId: Option<string>, lookup: string -> Lookup)
    requires transactionId.None? || transactionId == Some("")
    requires OrderByReference(t.orders, reference).Some?
    ensures var s := VerifyStep(t, reference, transactionId, lookup);
      var oi := OrderByReference(t.orders, reference).value;
      var p := PaymentOfOrder(t.payments, t.orders[oi].id);
      && s.after == t
      && s.reply.Verified?
      && s.reply.order.id == t.orders[oi].id
      && (p.Some? ==> s.reply.status == t.payments[p.value].state && s.reply.order.total == t.payments[p.value].amount
                      && s.reply.order.payMethod == t.payments[p.value].payMethod)
      && (p.None? ==> s.reply.status == Pending && s.reply.order.total == 0.0 && s.reply.order.payMethod == "N/A")
  {
  }
}
