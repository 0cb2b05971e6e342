/**
 * The administrator's statistics: sales of the last week and of the last
 * month (payments in state "completado" inside the window, summed and
 * counted) and the number of orders cancelled more than an hour ago.
 */
module Stats {
  import opened Common
  import opened Models
  import Webhooks

  const Unauthorized := 401
  const AdminRole: string := "Administrador"

  /** `timedelta(days=7)`, `timedelta(days=30)` and `timedelta(hours=1)` in seconds. */
  const Week: int := 7 * 24 * 3600
  const Month: int := 30 * 24 * 3600
  const Hour: int := 3600

  datatype SalesReply = Sales(total: real, count: nat) | SalesRefused(code: int)

  datatype CountReply = Cancelled(total: nat) | CountRefused(code: int)

  /** A payment the sales statistics count: "completado", dated at or after `since`. */
  predicate Counted(p: Payment, since: Time)
  {
    p.date >= since && p.state == CompletedState
  }

  /** The payments counted since `since`, in table order. */
  function SalesSince(payments: seq<Payment>, since: Time): (r: seq<Payment>)
    ensures forall p :: p in r <==> p in payments && Counted(p, since)
  {
    Filter(payments, (p: Payment) => Counted(p, since))
  }

  /** `sum(p.pay_amount for p in pagos)`, starting from 0. */
  function Total(ps: seq<Payment>): (r: real)
    ensures (forall i :: 0 <= i < |ps| ==> ps[i].amount >= 0.0) ==> r >= 0.0
    ensures |ps| == 1 ==> r == ps[0].amount
  {
    if ps == [] then 0.0 else ps[0].amount + Total(ps[1..])
  }

  /** The start of a window of `window` seconds ending at `now` (`datetime.utcnow() - timedelta(...)`). */
  function WindowStart(now: Time, window: int): Time
  {
    now - window
  }

  /** The sales reply for a window of `window` seconds ending at `now`. */
  function SalesFor(role: string, payments: seq<Payment>, now: Time, window: int): (r: SalesReply)
    ensures role != AdminRole <==> r == SalesRefused(Unauthorized)
    ensures r.Sales? ==> r.count == |SalesSince(payments, WindowStart(now, window))|
    ensures r.Sales? ==> r.total == Total(SalesSince(payments, WindowStart(now, window)))
  {
    if role != AdminRole then SalesRefused(Unauthorized)
    else
      var ps := SalesSince(payments, WindowStart(now, window));
      Sales(Total(ps), |ps|)
  }

  /** `GetWeekSales`. */
  function WeekSales(role: string, payments: seq<Payment>, now: Time): (r: SalesReply)
    ensures role != AdminRole <==> r == SalesRefused(Unauthorized)
    ensures r.Sales? ==> r.count == |SalesSince(payments, WindowStart(now, Week))|
    ensures r.Sales? ==> r.total == Total(SalesSince(payments, WindowStart(now, Week)))
  {
    SalesFor(role, payments, now, Week)
  }

  /** `GetMonthSales`. */
  function MonthSales(role: string, payments: seq<Payment>, now: Time): (r: SalesReply)
    ensures role != AdminRole <==> r == SalesRefused(Unauthorized)
    ensures r.Sales? ==> r.count == |SalesSince(payments, WindowStart(now, Month))|
    ensures r.Sales? ==> r.total == Total(SalesSince(payments, WindowStart(now, Month)))
  {
    SalesFor(role, payments, now, Month)
  }

  /** An order the cancellation count includes: "cancelado", and older than one hour. */
  predicate CancelledLongAgo(o: Order, now: Time)
  {
    o.state == CancelledState && now - o.date > Hour
  }

  /** `GetCancelledOrders`. */
  function CancelledOrders(role: string, orders: seq<Order>, now: Time): (r: CountReply)
    ensures role != AdminRole <==> r == CountRefused(Unauthorized)
    ensures r.Cancelled? ==> r.total == |Filter(orders, (o: Order) => CancelledLongAgo(o, now))|
  {
    if role != AdminRole then CountRefused(Unauthorized)
    else Cancelled(|Filter(orders, (o: Order) => CancelledLongAgo(o, now))|)
  }

  // ---------------------------------------------------------------------------
  // Properties

  /** Every role but exactly "Administrador" gets 401 from all three endpoints. */
  lemma OnlyAdministrators(role: string, payments: seq<Payment>, orders: seq<Order>, now: Time)
    requires role != AdminRole
    ensures WeekSales(role, payments, now) == SalesRefused(Unauthorized)
    ensures MonthSales(role, payments, now) == SalesRefused(Unauthorized)
    ensures CancelledOrders(role, orders, now) == CountRefused(Unauthorized)
  {
  }

  /** Filtering by a stronger condition keeps fewer elements. */
  lemma {:induction false} FilterStronger<T(!new)>(s: seq<T>, p: T -> bool, q: T -> bool)
    requires forall x :: p(x) ==> q(x)
    ensures |Filter(s, p)| <= |Filter(s, q)|
  {
    if s != [] {
      FilterStronger(s[1..], p, q);
    }
  }

  /** Summing the amounts counted since a later instant gives no more, when amounts are not negative. */
  lemma {:induction false} TotalStronger(ps: seq<Payment>, later: Time, earlier: Time)
    requires earlier <= later
    requires forall i :: 0 <= i < |ps| ==> ps[i].amount >= 0.0
    ensures Total(SalesSince(ps, later)) <= Total(SalesSince(ps, earlier))
  {
    if ps != [] {
      TotalStronger(ps[1..], later, earlier);
      assert SalesSince(ps, later) == (if Counted(ps[0], later) then [ps[0]] else []) + SalesSince(ps[1..], later);
      assert SalesSince(ps, earlier) == (if Counted(ps[0], earlier) then [ps[0]] else []) + SalesSince(ps[1..], earlier);
      TotalAppend(if Counted(ps[0], later) then [ps[0]] else [], SalesSince(ps[1..], later));
      TotalAppend(if Counted(ps[0], earlier) then [ps[0]] else [], SalesSince(ps[1..], earlier));
    }
  }

  lemma {:induction false} TotalAppend(a: seq<Payment>, b: seq<Payment>)
    ensures Total(a + b) == Total(a) + Total(b)
  {
    if a == [] {
      assert a + b == b;
    } else {
      assert (a + b)[0] == a[0] && (a + b)[1..] == a[1..] + b;
      TotalAppend(a[1..], b);
    }
  }

  /**
   * The week lies inside the month: every payment counted for the week is
   * counted for the month, so the week's count is no larger, nor its total
   * when amounts are not negative.
   */
  lemma WeekWithinMonth(payments: seq<Payment>, now: Time)
    requires forall i :: 0 <= i < |payments| ==> payments[i].amount >= 0.0
    ensures forall p :: p in SalesSince(payments, WindowStart(now, Week)) ==> p in SalesSince(payments, WindowStart(now, Month))
    ensures var w := WeekSales(AdminRole, payments, now);
      var m := MonthSales(AdminRole, payments, now);
      w.count <= m.count && w.total <= m.total
  {
    FilterStronger(payments, (p: Payment) => Counted(p, now - Week), (p: Payment) => Counted(p, now - Month));
    TotalStronger(payments, now - Week, now - Month);
  }

  /**
   * The sales window includes its boundary: a completed payment dated exactly
   * seven days ago counts. The cancellation threshold is strict: an order
   * cancelled exactly one hour ago does not.
   */
  lemma Boundaries(p: Payment, o: Order, now: Time)
    requires p.state == CompletedState && p.date == now - Week
    requires o.state == CancelledState && o.date == now - Hour
    ensures p in SalesSince([p], now - Week)
    ensures WeekSales(AdminRole, [p], now) == Sales(p.amount, 1)
    ensures CancelledOrders(AdminRole, [o], now) == Cancelled(0)
  {
    assert SalesSince([p], WindowStart(now, Week)) == [p];
    assert Total([p]) == p.amount + Total([]);
    assert Filter([o], (x: Order) => CancelledLongAgo(x, now)) == [];
  }

  /** Only "completado" payments are counted, whatever their date. */
  lemma OnlyCompletedCounted(payments: seq<Payment>, since: Time)
    ensures forall p :: p in SalesSince(payments, since) ==> p.state == CompletedState
  {
  }

  /** Changing an element that the condition rejects, before and after, leaves the filter as it was. */
  lemma {:induction false} FilterUpdateOutside<T(!new)>(s: seq<T>, k: nat, v: T, p: T -> bool)
    requires k < |s| && !p(s[k]) && !p(v)
    ensures Filter(s[k := v], p) == Filter(s, p)
  {
    if k > 0 {
      assert s[k := v][1..] == s[1..][k - 1 := v];
      FilterUpdateOutside(s[1..], k - 1, v, p);
    } else {
      assert s[k := v][1..] == s[1..];
    }
  }

  /**
   * A payment the webhook approves becomes "aprobado", never "completado":
   * when it was not already counted, the approval leaves every sales window's
   * payments, total and count unchanged.
   */
  lemma ApprovalNotCounted(t: Tables, rt: Webhooks.Runtime, req: Webhooks.Notification, since: Time)
    requires Webhooks.WebhookStep(t, rt, req).reply == Webhooks.Answer("success")
    requires t.payments[Webhooks.Decide(t.payments, rt, req).k].state != CompletedState
    ensures SalesSince(Webhooks.WebhookStep(t, rt, req).after.payments, since) == SalesSince(t.payments, since)
  {
    Webhooks.SuccessChangesThreeFields(t, rt, req);
    var k := Webhooks.Decide(t.payments, rt, req).k;
    var a := Webhooks.WebhookStep(t, rt, req).after;
    assert a.payments == t.payments[k := a.payments[k]];
    FilterUpdateOutside(t.payments, k, a.payments[k], (p: Payment) => Counted(p, since));
  }
}
