/**
 * The payment provider's "transaction complete" notification
 * (`POST /webhook/transaction/complete`): a fixed sequence of checks over the
 * raw request, then one transition of the matching payment to "aprobado" and
 * of its order to "completado".
 *
 * The handler as written never commits its session (and the session does not
 * autoflush), so the transition is never stored: `WompiWebhookAsWritten`
 * models that and changes nothing; `WompiWebhook` is the committing handler.
 */
module Webhooks {
  import opened Common
  import opened Json
  import opened Models
  import opened Integrity
  import opened Storage

  const BadRequest := 400
  const ServerError := 500

  /** The HMAC key hard-coded in `verify_signature`. */
  const SecretKey: string := "TU_CLAVE_SECRETA_WOMPI"

  /** The fields whose presence is checked, in the order they are checked. */
  const RequiredFields: seq<string> := ["IdTransaccion", "ResultadoTransaccion", "Monto", "EnlacePago"]

  /** The lower-cased transaction results that count as approved. */
  const ApprovedResults: seq<string> := ["exitosaaprobada", "aprobada"]

  /** UTF-8 decoding followed by `json.loads`. */
  datatype Decoded = NotUtf8 | NotJson | Decoded(body: Json)

  /**
   * What the model takes from outside: the decoder, the hex HMAC-SHA256
   * digest of a message under a key, and Python's parser of numeric text.
   */
  datatype Runtime = Runtime(
    decode: seq<bv8> -> Decoded,
    hmacHex: (string, seq<bv8>) -> string,
    floatOfText: string -> Option<real>)

  /** The request: its raw body and its `x-wompi-signature` header, if sent. */
  datatype Notification = Notification(raw: seq<bv8>, signature: Option<string>)

  datatype Reason =
    | InvalidJson
    | InvalidSignature
    | MissingField(name: string)
    | AmountMismatch
    | NotApproved
    | Unexpected

  /** The outcome of the checks: an HTTP error, no payment for the reference, or the payment to approve. */
  datatype Decision = Reject(code: int, reason: Reason) | NoPayment | Approve(k: nat, txn: Json)

  /** A JSON answer `{"status": ...}` with code 200, or an HTTP error. */
  datatype Reply = Answer(status: string) | Failure(code: int, reason: Reason)

  // ---------------------------------------------------------------------------
  // verify_signature

  /**
   * True exactly when the header is present and non-empty and equals the hex
   * digest of the raw body under the secret key. `compare_digest` raising on
   * non-ASCII text yields false, as an unequal comparison would.
   */
  function VerifySignature(hmacHex: (string, seq<bv8>) -> string, raw: seq<bv8>, signature: Option<string>): (ok: bool)
    ensures ok <==> signature.Some? && signature.value != "" && signature.value == hmacHex(SecretKey, raw)
  {
    if SecretKey == "" || signature.None? || signature.value == "" then false
    else hmacHex(SecretKey, raw) == signature.value
  }

  // ---------------------------------------------------------------------------
  // Required fields

  datatype FieldCheck = AllPresent | Missing(name: string) | NotAContainer

  /** Python's `field not in body` for each field in turn; the first one absent is reported. */
  function FirstMissing(body: Json, fields: seq<string>): (r: FieldCheck)
    ensures r == AllPresent <==> forall i :: 0 <= i < |fields| ==> In(fields[i], body) == Present
    ensures r == NotAContainer <==> fields != [] && In(fields[0], body) == NotContainer
    ensures forall i :: 0 <= i < |fields| && In(fields[i], body) == Absent &&
                        (forall j :: 0 <= j < i ==> In(fields[j], body) == Present) ==>
                          r == Missing(fields[i])
    ensures r.Missing? ==> r.name in fields && In(r.name, body) == Absent
  {
    if fields == [] then AllPresent
    else match In(fields[0], body)
      case NotContainer => NotAContainer
      case Absent => Missing(fields[0])
      case Present =>
        var rest := FirstMissing(body, fields[1..]);
        assert forall i :: 1 <= i < |fields| ==> fields[i] == fields[1..][i - 1];
        rest
  }

  /** The loop over the required fields. */
  method CheckRequiredFields(body: Json) returns (r: FieldCheck)
    ensures r == FirstMissing(body, RequiredFields)
  {
    var i := 0;
    while i < |RequiredFields|
      invariant 0 <= i <= |RequiredFields|
      invariant FirstMissing(body, RequiredFields) == FirstMissing(body, RequiredFields[i..])
    {
      var m := In(RequiredFields[i], body);
      if m == NotContainer {
        return NotAContainer;
      }
      if m == Absent {
        return Missing(RequiredFields[i]);
      }
      assert RequiredFields[i..][1..] == RequiredFields[i + 1..];
      i := i + 1;
    }
    return AllPresent;
  }

  // ---------------------------------------------------------------------------
  // The checks

  /**
   * The payment matched by `pay_transaction_id == reference`: a text reference
   * is compared with the column, a JSON null becomes `IS NULL`, and any other
   * value matches nothing.
   */
  function PaymentByReference(payments: seq<Payment>, reference: Json): (r: Option<nat>)
    ensures r.Some? ==> r.value < |payments|
    ensures r.Some? && reference.JStr? ==> payments[r.value].transactionId == Some(reference.s)
    ensures r.Some? && reference.JNull? ==> payments[r.value].transactionId.None?
    ensures r.Some? ==> reference.JStr? || reference.JNull?
    ensures r.None? && reference.JStr? ==> forall j :: 0 <= j < |payments| ==> payments[j].transactionId != Some(reference.s)
    ensures r.None? && reference.JNull? ==> forall j :: 0 <= j < |payments| ==> payments[j].transactionId.Some?
    ensures r.Some? && reference.JStr? ==> forall j :: 0 <= j < r.value ==> payments[j].transactionId != Some(reference.s)
    ensures r.Some? && reference.JNull? ==> forall j :: 0 <= j < r.value ==> payments[j].transactionId.Some?
  {
    match reference
    case JStr(s) => PaymentByTransaction(payments, s)
    case JNull => FirstIndex(payments, (p: Payment) => p.transactionId.None?)
    case _ => None
  }

  /** A decoded, signed notification with every required field, whose reference finds the `k`-th payment. */
  predicate FindsPayment(payments: seq<Payment>, rt: Runtime, req: Notification, k: nat)
  {
    && rt.decode(req.raw).Decoded?
    && VerifySignature(rt.hmacHex, req.raw, req.signature)
    && var body := rt.decode(req.raw).body;
    && body.JObj?
    && "IdTransaccion" in body.fields && "ResultadoTransaccion" in body.fields
    && "Monto" in body.fields && "EnlacePago" in body.fields
    && body.fields["EnlacePago"].JObj? && "IdentificadorEnlaceComercio" in body.fields["EnlacePago"].fields
    && k < |payments|
    && PaymentByReference(payments, body.fields["EnlacePago"].fields["IdentificadorEnlaceComercio"]) == Some(k)
  }

  /** The checks after every required field was found: extraction, lookup, amount and result. */
  function DecideFields(payments: seq<Payment>, floatOfText: string -> Option<real>, body: Json): (d: Decision)
    requires FirstMissing(body, RequiredFields) == AllPresent
    ensures d.Approve? ==> d.k < |payments|
    ensures d.Approve? ==> body.JObj? && d.txn == body.fields["IdTransaccion"]
    ensures d.Reject? ==> (d.code == BadRequest <==> d.reason == AmountMismatch || d.reason == NotApproved)
    ensures d.Reject? && d.code != BadRequest ==> d == Reject(ServerError, Unexpected)
  {
    assert In(RequiredFields[0], body) == Present && In(RequiredFields[1], body) == Present;
    assert In(RequiredFields[2], body) == Present && In(RequiredFields[3], body) == Present;
    if !body.JObj? then Reject(ServerError, Unexpected)
    else
      var link := body.fields["EnlacePago"];
      if !(link.JObj? && "IdentificadorEnlaceComercio" in link.fields) then Reject(ServerError, Unexpected)
      else match PaymentByReference(payments, link.fields["IdentificadorEnlaceComercio"])
        case None => NoPayment
        case Some(k) =>
          match Float(body.fields["Monto"], floatOfText)
          case None => Reject(ServerError, Unexpected)
          case Some(amount) =>
            if amount != payments[k].amount then Reject(BadRequest, AmountMismatch)
            else match body.fields["ResultadoTransaccion"]
              case JStr(status) =>
                if Lower(status) in ApprovedResults then Approve(k, body.fields["IdTransaccion"])
                else Reject(BadRequest, NotApproved)
              case _ => Reject(ServerError, Unexpected)
  }

  /** The whole sequence of checks, in the handler's order. */
  function Decide(payments: seq<Payment>, rt: Runtime, req: Notification): (d: Decision)
    ensures d.Approve? ==> d.k < |payments|
    ensures !d.Reject? ==> rt.decode(req.raw).Decoded? && VerifySignature(rt.hmacHex, req.raw, req.signature)
                           && FirstMissing(rt.decode(req.raw).body, RequiredFields) == AllPresent
    ensures d.Reject? ==> (d.code == BadRequest <==> d.reason != Unexpected)
    ensures d.Reject? && d.code != BadRequest ==> d.code == ServerError
  {
    match rt.decode(req.raw)
    case NotUtf8 => Reject(ServerError, Unexpected)
    case NotJson => Reject(BadRequest, InvalidJson)
    case Decoded(body) =>
      if !VerifySignature(rt.hmacHex, req.raw, req.signature) then Reject(BadRequest, InvalidSignature)
      else match FirstMissing(body, RequiredFields)
        case NotAContainer => Reject(ServerError, Unexpected)
        case Missing(f) => Reject(BadRequest, MissingField(f))
        case AllPresent => DecideFields(payments, rt.floatOfText, body)
  }

  /** The checks as the handler runs them, over the payments table. */
  method Examine(payments: seq<Payment>, rt: Runtime, req: Notification) returns (d: Decision)
    ensures d == Decide(payments, rt, req)
  {
    var decoded := rt.decode(req.raw);
    if decoded.NotUtf8? {
      return Reject(ServerError, Unexpected);
    }
    if decoded.NotJson? {
      return Reject(BadRequest, InvalidJson);
    }
    if !VerifySignature(rt.hmacHex, req.raw, req.signature) {
      return Reject(BadRequest, InvalidSignature);
    }
    var check := CheckRequiredFields(decoded.body);
    if check.NotAContainer? {
      return Reject(ServerError, Unexpected);
    }
    if check.Missing? {
      return Reject(BadRequest, MissingField(check.name));
    }
    d := DecideFields(payments, rt.floatOfText, decoded.body);
  }

  // ---------------------------------------------------------------------------
  // The transition

  /**
   * The value a JSON `IdTransaccion` gives the nullable text column: a text is
   * stored as is and null as NULL; None when the driver cannot store it.
   */
  function ColumnText(j: Json): (r: Option<Option<string>>)
    ensures r == Some(None) <==> j.JNull?
    ensures j.JStr? <==> r.Some? && r.value.Some?
    ensures j.JStr? ==> r == Some(Some(j.s))
  {
    match j
    case JStr(s) => Some(Some(s))
    case JNull => Some(None)
    case _ => None
  }

  /** Whether a payment other than the `k`-th already carries transaction id `id`. */
  predicate TransactionTaken(payments: seq<Payment>, k: nat, id: Option<string>)
  {
    id.Some? && exists j :: 0 <= j < |payments| && j != k && payments[j].transactionId == id
  }

  /** The approval as written: the payment's state and transaction id, and its order's state. */
  function Approved(t: Tables, k: nat, oi: nat, id: Option<string>): (a: Tables)
    requires k < |t.payments| && oi < |t.orders|
    ensures |a.payments| == |t.payments| && |a.orders| == |t.orders|
    ensures a.payments[k].state == ApprovedPayment && a.payments[k].transactionId == id
    ensures a.orders[oi].state == CompletedState
  {
    t.(payments := t.payments[k := t.payments[k].(state := ApprovedPayment, transactionId := id)],
       orders := t.orders[oi := t.orders[oi].(state := CompletedState)])
  }

  /**
   * Committing the approval of the `k`-th payment. A missing order is the
   * `AttributeError` of `payment.order.order_state`; a value the column cannot
   * hold, or a transaction id another payment has, makes the commit fail.
   */
  function Commit(t: Tables, k: nat, txn: Json): (s: Step<Reply>)
    requires k < |t.payments|
    ensures s.reply.Failure? <==> OrderIndex(t.orders, t.payments[k].orderId).None? || ColumnText(txn).None? ||
                                  TransactionTaken(t.payments, k, ColumnText(txn).value)
    ensures s.reply.Failure? ==> s.reply == Failure(ServerError, Unexpected) && s.after == t
    ensures |s.after.payments| == |t.payments|
    ensures s.reply.Answer? ==> s.reply.status == "success" && s.after.payments[k].state == ApprovedPayment
                                && s.after.payments[k].transactionId == ColumnText(txn).value
  {
    match OrderIndex(t.orders, t.payments[k].orderId)
    case None => Step(Failure(ServerError, Unexpected), t)
    case Some(oi) =>
      match ColumnText(txn)
      case None => Step(Failure(ServerError, Unexpected), t)
      case Some(id) =>
        if TransactionTaken(t.payments, k, id) then Step(Failure(ServerError, Unexpected), t)
        else Step(Answer("success"), Approved(t, k, oi, id))
  }

  /** The committing handler on the tables. */
  function WebhookStep(t: Tables, rt: Runtime, req: Notification): (s: Step<Reply>)
    ensures s.reply != Answer("success") ==> s.after == t
    ensures s.reply.Failure? ==> (s.reply.code == BadRequest <==> s.reply.reason != Unexpected)
    ensures s.after.users == t.users && s.after.arrangements == t.arrangements && s.after.details == t.details
    ensures |s.after.payments| == |t.payments| && |s.after.orders| == |t.orders|
  {
    match Decide(t.payments, rt, req)
    case Reject(code, why) => Step(Failure(code, why), t)
    case NoPayment => Step(Answer("error"), t)
    case Approve(k, txn) => Commit(t, k, txn)
  }

  /** The reply of the handler as written, which never stores the approval. */
  function AsWrittenReply(d: Decision): (r: Reply)
    ensures d.Reject? ==> r == Failure(d.code, d.reason)
    ensures d.NoPayment? ==> r == Answer("error")
    ensures d.Approve? ==> r == Answer("success")
  {
    match d
    case Reject(code, why) => Failure(code, why)
    case NoPayment => Answer("error")
    case Approve(_, _) => Answer("success")
  }

  /** `wompi_webhook` as written: it answers, and it changes nothing in the store. */
  method WompiWebhookAsWritten(db: Store, rt: Runtime, req: Notification) returns (reply: Reply)
    requires db.Valid()
    ensures reply == AsWrittenReply(Decide(db.payments, rt, req))
  {
    var d := Examine(db.payments, rt, req);
    match d
    case Reject(code, why) => reply := Failure(code, why);
    case NoPayment => reply := Answer("error");
    case Approve(_, _) => reply := Answer("success");
  }

  /** `wompi_webhook` with its `db.commit()` in place. */
  method WompiWebhook(db: Store, rt: Runtime, req: Notification) returns (reply: Reply)
    requires db.Valid()
    modifies db
    ensures db.Valid()
    ensures Step(reply, db.Snapshot()) == WebhookStep(old(db.Snapshot()), rt, req)
  {
    ghost var t := db.Snapshot();
    WebhookPreservesValid(t, rt, req);
    var d := Examine(db.payments, rt, req);
    match d
    case Reject(code, why) => reply := Failure(code, why);
    case NoPayment => reply := Answer("error");
    case Approve(k, txn) =>
      var oi := OrderIndex(db.orders, db.payments[k].orderId);
      var id := ColumnText(txn);
      if oi.None? || id.None? || TransactionTaken(db.payments, k, id.value) {
        reply := Failure(ServerError, Unexpected);
      } else {
        var payment := db.payments[k].(state := ApprovedPayment, transactionId := id.value);
        var order := db.orders[oi.value].(state := CompletedState);
        db.payments := db.payments[k := payment];
        db.orders := db.orders[oi.value := order];
        reply := Answer("success");
      }
  }

  // ---------------------------------------------------------------------------
  // Properties

  /** The committed approval keeps every integrity rule, transaction ids staying unique. */
  lemma WebhookPreservesValid(t: Tables, rt: Runtime, req: Notification)
    requires TablesValid(t)
    ensures TablesValid(WebhookStep(t, rt, req).after)
    ensures var d := Decide(t.payments, rt, req);
      d.Approve? && ColumnText(d.txn).Some? && TransactionTaken(t.payments, d.k, ColumnText(d.txn).value) ==>
        WebhookStep(t, rt, req) == Step(Failure(ServerError, Unexpected), t)
  {
    match Decide(t.payments, rt, req)
    case Reject(_, _) =>
    case NoPayment =>
    case Approve(k, txn) =>
      match OrderIndex(t.orders, t.payments[k].orderId)
      case None =>
      case Some(oi) =>
        match ColumnText(txn)
        case None =>
        case Some(id) =>
          if !TransactionTaken(t.payments, k, id) {
            ApprovedValid(t, k, oi, id);
          }
  }

  /** Approving a payment with a transaction id no other payment has keeps every integrity rule. */
  lemma ApprovedValid(t: Tables, k: nat, oi: nat, id: Option<string>)
    requires TablesValid(t)
    requires k < |t.payments| && oi < |t.orders|
    requires !TransactionTaken(t.payments, k, id)
    ensures TablesValid(Approved(t, k, oi, id))
  {
    var orders := t.orders[oi := t.orders[oi].(state := CompletedState)];
    OrdersKeptShapeValid(t, orders);
    var t1 := t.(orders := orders);
    var a := Approved(t, k, oi, id);
    assert a == t1.(payments := a.payments);
    forall i, j | 0 <= i < j < |a.payments| && a.payments[i].transactionId.Some?
      ensures a.payments[i].transactionId != a.payments[j].transactionId
    {
      if i == k {
        assert a.payments[j] == t.payments[j];
      } else if j == k {
        assert a.payments[i] == t.payments[i];
      }
    }
    forall i | 0 <= i < |a.payments| ensures a.payments[i].orderId == t1.payments[i].orderId {
    }
  }

  /** A body that is not JSON is answered with 400 and changes nothing. */
  lemma RejectsInvalidJson(t: Tables, rt: Runtime, req: Notification)
    requires rt.decode(req.raw) == NotJson
    ensures WebhookStep(t, rt, req) == Step(Failure(BadRequest, InvalidJson), t)
  {
  }

  /**
   * A JSON body without a valid signature is answered with 400 before any field
   * is looked at, and changes nothing; so nothing is approved unless the header
   * carries the body's digest.
   */
  lemma UnsignedRejected(t: Tables, rt: Runtime, req: Notification)
    ensures rt.decode(req.raw).Decoded? && !VerifySignature(rt.hmacHex, req.raw, req.signature) ==>
              WebhookStep(t, rt, req) == Step(Failure(BadRequest, InvalidSignature), t)
    ensures Decide(t.payments, rt, req).Approve? || Decide(t.payments, rt, req).NoPayment? ==>
              req.signature == Some(rt.hmacHex(SecretKey, req.raw)) && req.signature.value != ""
  {
  }

  /** The first required field missing from a signed JSON object is named in a 400, and nothing changes. */
  lemma FirstMissingFieldRejected(t: Tables, rt: Runtime, req: Notification, i: nat)
    requires rt.decode(req.raw).Decoded? && rt.decode(req.raw).body.JObj?
    requires VerifySignature(rt.hmacHex, req.raw, req.signature)
    requires i < |RequiredFields|
    requires forall j :: 0 <= j < i ==> RequiredFields[j] in rt.decode(req.raw).body.fields
    requires RequiredFields[i] !in rt.decode(req.raw).body.fields
    ensures WebhookStep(t, rt, req) == Step(Failure(BadRequest, MissingField(RequiredFields[i])), t)
  {
    var body := rt.decode(req.raw).body;
    assert forall j :: 0 <= j < i ==> In(RequiredFields[j], body) == Present;
    assert In(RequiredFields[i], body) == Absent;
  }

  /** A signed, complete notification whose text reference no payment carries is answered "error" and changes nothing. */
  lemma UnknownReferenceChangesNothing(t: Tables, rt: Runtime, req: Notification)
    requires rt.decode(req.raw).Decoded?
    requires var body := rt.decode(req.raw).body;
      && body.JObj? && (forall f :: f in RequiredFields ==> f in body.fields)
      && body.fields["EnlacePago"].JObj?
      && "IdentificadorEnlaceComercio" in body.fields["EnlacePago"].fields
      && body.fields["EnlacePago"].fields["IdentificadorEnlaceComercio"].JStr?
      && var reference := body.fields["EnlacePago"].fields["IdentificadorEnlaceComercio"].s;
         forall j :: 0 <= j < |t.payments| ==> t.payments[j].transactionId != Some(reference)
    requires VerifySignature(rt.hmacHex, req.raw, req.signature)
    ensures WebhookStep(t, rt, req) == Step(Answer("error"), t)
  {
    var body := rt.decode(req.raw).body;
    forall i | 0 <= i < |RequiredFields| ensures In(RequiredFields[i], body) == Present {
      assert RequiredFields[i] in RequiredFields;
    }
  }

  /**
   * An approval only follows checks that all passed: the payment carries the
   * reference, the notified amount equals its amount exactly, and the
   * lower-cased result is in the approved vocabulary.
   */
  lemma ApprovalRequiresChecks(t: Tables, rt: Runtime, req: Notification)
    requires Decide(t.payments, rt, req).Approve?
    ensures var k := Decide(t.payments, rt, req).k;
      var body := rt.decode(req.raw).body;
      && rt.decode(req.raw).Decoded? && body.JObj?
      && req.signature == Some(rt.hmacHex(SecretKey, req.raw))
      && (forall f :: f in RequiredFields ==> f in body.fields)
      && body.fields["EnlacePago"].JObj?
      && "IdentificadorEnlaceComercio" in body.fields["EnlacePago"].fields
      && PaymentByReference(t.payments, body.fields["EnlacePago"].fields["IdentificadorEnlaceComercio"]) == Some(k)
      && Float(body.fields["Monto"], rt.floatOfText) == Some(t.payments[k].amount)
      && body.fields["ResultadoTransaccion"].JStr?
      && Lower(body.fields["ResultadoTransaccion"].s) in ApprovedResults
      && Decide(t.payments, rt, req).txn == body.fields["IdTransaccion"]
  {
    var body := rt.decode(req.raw).body;
    assert FirstMissing(body, RequiredFields) == AllPresent;
    forall f | f in RequiredFields ensures f in body.fields {
      var i :| 0 <= i < |RequiredFields| && RequiredFields[i] == f;
      assert In(RequiredFields[i], body) == Present;
    }
  }

  /** Any result whose lower-case form is outside the vocabulary (a declined one, say) is never approved. */
  lemma ResultOutsideVocabularyRejected(t: Tables, rt: Runtime, req: Notification, k: nat)
    requires rt.decode(req.raw).Decoded?
    requires var body := rt.decode(req.raw).body;
      body.JObj? && "ResultadoTransaccion" in body.fields && body.fields["ResultadoTransaccion"].JStr? &&
      Lower(body.fields["ResultadoTransaccion"].s) !in ApprovedResults
    ensures !Decide(t.payments, rt, req).Approve?
    ensures WebhookStep(t, rt, req).after == t
    ensures FindsPayment(t.payments, rt, req, k) &&
            Float(rt.decode(req.raw).body.fields["Monto"], rt.floatOfText) == Some(t.payments[k].amount) ==>
              WebhookStep(t, rt, req) == Step(Failure(BadRequest, NotApproved), t)
  {
  }

  /**
   * A signed, complete notification whose stated amount differs from the
   * payment it finds gets 400 "amount mismatch", and nothing changes.
   */
  lemma AmountMismatchRejected(t: Tables, rt: Runtime, req: Notification, k: nat)
    requires FindsPayment(t.payments, rt, req, k)
    requires Float(rt.decode(req.raw).body.fields["Monto"], rt.floatOfText) != Some(t.payments[k].amount)
    requires Float(rt.decode(req.raw).body.fields["Monto"], rt.floatOfText).Some?
    ensures Decide(t.payments, rt, req) == Reject(BadRequest, AmountMismatch)
    ensures WebhookStep(t, rt, req) == Step(Failure(BadRequest, AmountMismatch), t)
  {
  }

  /**
   * A successful commit changes exactly three fields: the payment's state and
   * transaction id, and the state of the order it references.
   */
  lemma SuccessChangesThreeFields(t: Tables, rt: Runtime, req: Notification)
    requires WebhookStep(t, rt, req).reply == Answer("success")
    ensures var d := Decide(t.payments, rt, req);
      var a := WebhookStep(t, rt, req).after;
      && d.Approve? && OrderIndex(t.orders, t.payments[d.k].orderId).Some?
      && ColumnText(d.txn).Some?
      && var oi := OrderIndex(t.orders, t.payments[d.k].orderId).value;
         && a.users == t.users && a.arrangements == t.arrangements && a.details == t.details
         && a.nextOrderId == t.nextOrderId && a.nextDetailId == t.nextDetailId
         && |a.payments| == |t.payments| && |a.orders| == |t.orders|
         && (forall j :: 0 <= j < |t.payments| && j != d.k ==> a.payments[j] == t.payments[j])
         && a.payments[d.k] == t.payments[d.k].(state := ApprovedPayment, transactionId := ColumnText(d.txn).value)
         && (forall j :: 0 <= j < |t.orders| && j != oi ==> a.orders[j] == t.orders[j])
         && a.orders[oi] == t.orders[oi].(state := CompletedState)
  {
  }

  /** The text reference of a notification whose body is a JSON object carrying one. */
  predicate TextReference(rt: Runtime, req: Notification, reference: string)
  {
    && rt.decode(req.raw).Decoded?
    && var body := rt.decode(req.raw).body;
       && body.JObj? && "EnlacePago" in body.fields && body.fields["EnlacePago"].JObj?
       && "IdentificadorEnlaceComercio" in body.fields["EnlacePago"].fields
       && body.fields["EnlacePago"].fields["IdentificadorEnlaceComercio"] == JStr(reference)
  }

  /**
   * The lookup key is overwritten on success: replaying the same notification,
   * when its transaction id differs from its reference, no longer finds the
   * payment and changes nothing.
   */
  lemma ReplayFindsNothing(t: Tables, rt: Runtime, req: Notification, reference: string)
    requires TablesValid(t)
    requires TextReference(rt, req, reference)
    requires WebhookStep(t, rt, req).reply == Answer("success")
    requires Decide(t.payments, rt, req).txn != JStr(reference)
    ensures var a := WebhookStep(t, rt, req).after;
      WebhookStep(a, rt, req) == Step(Answer("error"), a)
  {
    var d := Decide(t.payments, rt, req);
    var a := WebhookStep(t, rt, req).after;
    SuccessChangesThreeFields(t, rt, req);
    ApprovalRequiresChecks(t, rt, req);
    assert t.payments[d.k].transactionId == Some(reference);
    forall j | 0 <= j < |a.payments| ensures a.payments[j].transactionId != Some(reference) {
      if j != d.k {
        assert a.payments[j] == t.payments[j];
        if j < d.k {
          assert t.payments[j].transactionId != t.payments[d.k].transactionId;
        } else {
          assert t.payments[d.k].transactionId != t.payments[j].transactionId;
        }
      }
    }
    UnknownReferenceChangesNothing(a, rt, req);
  }

  /**
   * When the transaction id equals the reference, a replay finds the same
   * payment again and commits the same values: the store is left as it was.
   */
  lemma ReplayIdempotent(t: Tables, rt: Runtime, req: Notification, reference: string)
    requires TablesValid(t)
    requires TextReference(rt, req, reference)
    requires WebhookStep(t, rt, req).reply == Answer("success")
    requires Decide(t.payments, rt, req).txn == JStr(reference)
    ensures var a := WebhookStep(t, rt, req).after;
      WebhookStep(a, rt, req) == Step(Answer("success"), a)
  {
    var d := Decide(t.payments, rt, req);
    var a := WebhookStep(t, rt, req).after;
    SuccessChangesThreeFields(t, rt, req);
    ReplayDecidesAlike(t, rt, req, reference);
    var oi := OrderIndex(t.orders, t.payments[d.k].orderId).value;
    assert OrderIndex(a.orders, a.payments[d.k].orderId) == Some(oi) by {
      forall j | 0 <= j < oi ensures a.orders[j].id != a.payments[d.k].orderId {
        assert a.orders[j] == t.orders[j];
      }
    }
    assert Approved(a, d.k, oi, Some(reference)) == a;
  }

  /** After a commit whose transaction id is the reference itself, the same checks approve the same payment. */
  lemma ReplayDecidesAlike(t: Tables, rt: Runtime, req: Notification, reference: string)
    requires TextReference(rt, req, reference)
    requires WebhookStep(t, rt, req).reply == Answer("success")
    requires Decide(t.payments, rt, req).txn == JStr(reference)
    ensures Decide(WebhookStep(t, rt, req).after.payments, rt, req) == Decide(t.payments, rt, req)
  {
    var d := Decide(t.payments, rt, req);
    var a := WebhookStep(t, rt, req).after;
    SuccessChangesThreeFields(t, rt, req);
    ApprovalRequiresChecks(t, rt, req);
    assert PaymentByReference(a.payments, JStr(reference)) == Some(d.k) by {
      forall j | 0 <= j < d.k ensures a.payments[j].transactionId != Some(reference) {
        assert a.payments[j] == t.payments[j];
      }
    }
  }

  /**
   * Whenever the committing handler approves a pending payment, the handler as
   * written gives the same "success" answer, yet the store it leaves (which is
   * the store it was given) still has that payment "pendiente".
   */
  lemma ApprovalNotPersisted(t: Tables, rt: Runtime, req: Notification)
    requires WebhookStep(t, rt, req).reply == Answer("success")
    requires t.payments[Decide(t.payments, rt, req).k].state == PendingPayment
    ensures AsWrittenReply(Decide(t.payments, rt, req)) == WebhookStep(t, rt, req).reply
    ensures var k := Decide(t.payments, rt, req).k;
      WebhookStep(t, rt, req).after.payments[k].state == ApprovedPayment != t.payments[k].state
  {
    SuccessChangesThreeFields(t, rt, req);
  }
}
