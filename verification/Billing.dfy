/**
 One organization's subscription row, usage records and Stripe invoice items, and what each
 request, billing job and webhook event does to them
 (backend/app/services/billing_service.py, usage_service.py, local_tasks/handlers.py).

 The functions say what each operation leaves behind; class `OrgBilling` performs the
 operations row by row and is proved to leave exactly that.
 */
module Billing {
  import opened Wrappers
  import opened Plans
  import opened Ledger

  /** Microseconds since the epoch. */
  type Instant = nat

  /** `int(current_period_start.timestamp())`: idempotency keys hold whole seconds. */
  function Seconds(t: Instant): nat { t / 1_000_000 }

  const DAY: nat := 86_400_000_000

  datatype Status = Active | PastDue | Canceled | Incomplete

  datatype Subscription = Subscription(
    plan: Plan, status: Status, customer: Option<string>, stripeId: Option<string>,
    periodStart: Instant, periodEnd: Instant, canceledAt: Option<Instant>)

  datatype UsageRecord = UsageRecord(
    count: Counters, reported: Counters, billed: bool, invoice: Option<string>, periodEnd: Instant)

  function FreshRecord(periodEnd: Instant): UsageRecord {
    UsageRecord(ZERO, ZERO, false, None, periodEnd)
  }

  datatype Account = Account(
    sub: Option<Subscription>, usage: map<Instant, UsageRecord>, stripe: seq<InvoiceItem>)

  // -- Overage calculation and reporting ---------------------------------------

  function Over(count: nat, base: nat): nat {
    if count > base then count - base else 0
  }

  /** Overage that the last successful report has not covered. */
  function Delta(count: nat, mark: nat, base: nat): nat {
    if Over(count, base) > Over(mark, base) then Over(count, base) - Over(mark, base) else 0
  }

  /** Costs are in tenths of a cent. */
  datatype OverageDetail = OverageDetail(units: Counters, totalCost: nat, snapshot: Counters)

  function OpenRecord(a: Account): Option<UsageRecord> {
    if a.sub.None? then None
    else
      var s := a.sub.value;
      if !GetPlanConfig(s.plan).payAsYouGo then None
      else if s.periodStart !in a.usage || a.usage[s.periodStart].billed then None
      else Some(a.usage[s.periodStart])
  }

  function CategoryDelta(a: Account, c: Category): nat {
    if OpenRecord(a).None? then 0
    else Delta(OpenRecord(a).value.count.At(c), OpenRecord(a).value.reported.At(c), BaseUnits(a.sub.value.plan, c))
  }

  function CalculateUnreportedOverages(a: Account): OverageDetail {
    if OpenRecord(a).None? then OverageDetail(ZERO, 0, ZERO)
    else
      var dt, de, ds := CategoryDelta(a, Traces), CategoryDelta(a, TraceEvals), CategoryDelta(a, SessionEvals);
      OverageDetail(Counters(dt, de, ds), OVERAGE_UNIT_PRICE * (dt + de + ds), OpenRecord(a).value.count)
  }

  function CategoryItem(period: nat, d: OverageDetail, c: Category): seq<InvoiceItem> {
    if d.units.At(c) > 0 then
      [InvoiceItem(ItemKey(period, c, d.snapshot.At(c)), d.units.At(c),
                   RoundHalfUp(OVERAGE_UNIT_PRICE * d.units.At(c)))]
    else []
  }

  /** The invoice items that a report sends, in order. */
  function ReportItems(a: Account): seq<InvoiceItem> {
    if a.sub.None? || a.sub.value.customer.None? then []
    else
      var d := CalculateUnreportedOverages(a);
      var period := Seconds(a.sub.value.periodStart);
      CategoryItem(period, d, Traces) + CategoryItem(period, d, TraceEvals) + CategoryItem(period, d, SessionEvals)
  }

  /** A completed report: the items first, then all three high-water marks. */
  function Report(a: Account): Account {
    if ReportItems(a) == [] || OpenRecord(a).None? then a
    else
      var p := a.sub.value.periodStart;
      a.(stripe := CreateAll(a.stripe, ReportItems(a)),
         usage := a.usage[p := a.usage[p].(reported := a.usage[p].count)])
  }

  /** A report that dies after Stripe accepted `sent` items: the database rolls back, Stripe does not. */
  function CrashedReport(a: Account, sent: nat): Account {
    var items := ReportItems(a);
    a.(stripe := CreateAll(a.stripe, items[..Min(sent, |items|)]))
  }

  function ReportIfLocked(a: Account, lock: bool): Account {
    if lock then Report(a) else a
  }

  // -- Rows --------------------------------------------------------------------

  function EnsureRecord(a: Account, start: Instant, end: Instant): Account {
    if start in a.usage then a else a.(usage := a.usage[start := FreshRecord(end)])
  }

  function MarkBilled(a: Account, start: Instant, invoice: Option<string>): Account {
    if start in a.usage && !a.usage[start].billed
    then a.(usage := a.usage[start := a.usage[start].(billed := true, invoice := invoice)])
    else a
  }

  predicate Subscribed(a: Account, id: Option<string>) {
    id.Some? && a.sub.Some? && a.sub.value.stripeId == id
  }

  // -- Operations --------------------------------------------------------------

  /** -1 in the source stands for "no hard limit". */
  function HardLimit(plan: Plan, c: Category): Option<nat> {
    if GetPlanConfig(plan).payAsYouGo then None else GetLimitForCategory(plan, c)
  }

  predicate MayIncrement(a: Account, c: Category, n: nat) {
    && n > 0
    && a.sub.Some?
    && (a.sub.value.status == Active || a.sub.value.status == PastDue)
    && var s := a.sub.value;
       var used := if s.periodStart in a.usage then a.usage[s.periodStart].count.At(c) else 0;
       HardLimit(s.plan, c).Some? ==> used + n <= HardLimit(s.plan, c).value
  }

  function CheckAndIncrement(a: Account, c: Category, n: nat): Account {
    if !MayIncrement(a, c, n) then a
    else
      var s := a.sub.value;
      var b := EnsureRecord(a, s.periodStart, s.periodEnd);
      var r := b.usage[s.periodStart];
      b.(usage := b.usage[s.periodStart := r.(count := r.count.With(c, r.count.At(c) + n))])
  }

  function RollbackIncrement(a: Account, c: Category, n: nat): Account {
    if n == 0 || a.sub.None? || a.sub.value.periodStart !in a.usage then a
    else
      var p := a.sub.value.periodStart;
      var r := a.usage[p];
      a.(usage := a.usage[p := r.(count := r.count.With(c, Over(r.count.At(c), n)))])
  }

  /** A request's database session: what is committed, and the rows as the session sees them. */
  datatype Session = Session(committed: Account, current: Account)

  function Committed(s: Session): Session {
    s.(committed := s.current)
  }

  /**
   A request that counts `n` units, fails, compensates and raises again: the session rolls back to its
   last commit, and the compensation with it. Dispatching a run commits the counted units first.
   */
  function FailedRequest(a: Account, c: Category, n: nat, dispatched: bool): Account {
    var counted := Session(a, CheckAndIncrement(a, c, n));
    var failed := if dispatched then Committed(counted) else counted;
    var compensated := failed.(current := RollbackIncrement(failed.current, c, n));
    compensated.committed
  }

  function CheckoutCompleted(a: Account, plan: PaidPlan, customer: string, id: string,
                             start: Instant, end: Instant): Account
  {
    EnsureRecord(a.(sub := Some(Subscription(plan, Active, Some(customer), Some(id), start, end, None))), start, end)
  }

  function InvoiceCreated(a: Account, id: Option<string>, lock: bool): Account {
    if Subscribed(a, id) && GetPlanConfig(a.sub.value.plan).payAsYouGo then ReportIfLocked(a, lock) else a
  }

  function InvoicePaid(a: Account, id: Option<string>, renewal: bool, invoice: string, lock: bool,
                       start: Instant, end: Instant): Account
  {
    if !Subscribed(a, id) then a
    else
      var s := a.sub.value;
      var r := ReportIfLocked(a, lock);
      var m := if renewal then MarkBilled(r, s.periodStart, Some(invoice)) else r;
      EnsureRecord(m.(sub := Some(s.(periodStart := start, periodEnd := end, status := Active))), start, end)
  }

  function PaymentFailed(a: Account, id: Option<string>): Account {
    if Subscribed(a, id) then a.(sub := Some(a.sub.value.(status := PastDue))) else a
  }

  function SubscriptionUpdated(a: Account, id: string, status: Status, plan: Option<PaidPlan>, canceledAt: Option<Instant>,
                               start: Option<Instant>, end: Option<Instant>): Account
  {
    if !Subscribed(a, Some(id)) then a
    else
      var s := a.sub.value;
      a.(sub := Some(s.(
        plan := if plan.Some? then plan.value else s.plan,
        status := status,
        canceledAt := canceledAt,
        periodStart := if start.Some? then start.value else s.periodStart,
        periodEnd := if end.Some? then end.value else s.periodEnd)))
  }

  /** The cancellation inserts a new record; when one for `now` exists the insert fails and the rows roll back. */
  function SubscriptionDeleted(a: Account, id: string, now: Instant, lock: bool): Account {
    if !Subscribed(a, Some(id)) then a
    else
      var s := a.sub.value;
      var paying := GetPlanConfig(s.plan).payAsYouGo && s.customer.Some?;
      var r := if paying then ReportIfLocked(a, lock) else a;
      var m := if paying then MarkBilled(r, s.periodStart, None) else r;
      if now in a.usage then a.(stripe := r.stripe)
      else
        m.(sub := Some(s.(plan := Hobby, status := Active, stripeId := None, canceledAt := Some(now),
                          periodStart := now, periodEnd := now + 30 * DAY)),
           usage := m.usage[now := FreshRecord(now + 30 * DAY)])
  }

  function ResetHobby(a: Account): Account {
    if a.sub.None? || a.sub.value.periodEnd in a.usage then a
    else
      var start, end := a.sub.value.periodEnd, a.sub.value.periodEnd + 30 * DAY;
      a.(sub := Some(a.sub.value.(periodStart := start, periodEnd := end)),
         usage := a.usage[start := FreshRecord(end)])
  }

  // -- Runs --------------------------------------------------------------------

  datatype Event =
    | Increment(c: Category, n: nat)
    | Failed(c: Category, n: nat, dispatched: bool)
    | BillJob(lock: bool)
    | Crash(sent: nat)
    | Checkout(plan: PaidPlan, customer: string, id: string, start: Instant, end: Instant)
    | Created(invoiceOf: Option<string>, lock: bool)
    | Paid(invoiceOf: Option<string>, renewal: bool, invoice: string, lock: bool, start: Instant, end: Instant)
    | Unpaid(invoiceOf: Option<string>)
    | Updated(id: string, status: Status, price: Option<PaidPlan>, canceledAt: Option<Instant>,
              newStart: Option<Instant>, newEnd: Option<Instant>)
    | Deleted(id: string, now: Instant, lock: bool)
    | HobbyReset

  function Step(a: Account, e: Event): Account {
    match e
    case Increment(c, n) => CheckAndIncrement(a, c, n)
    case Failed(c, n, dispatched) => FailedRequest(a, c, n, dispatched)
    case BillJob(lock) => ReportIfLocked(a, lock)
    case Crash(sent) => CrashedReport(a, sent)
    case Checkout(plan, customer, id, start, end) => CheckoutCompleted(a, plan, customer, id, start, end)
    case Created(id, lock) => InvoiceCreated(a, id, lock)
    case Paid(id, renewal, invoice, lock, start, end) => InvoicePaid(a, id, renewal, invoice, lock, start, end)
    case Unpaid(id) => PaymentFailed(a, id)
    case Updated(id, status, plan, canceledAt, start, end) =>
      SubscriptionUpdated(a, id, status, plan, canceledAt, start, end)
    case Deleted(id, now, lock) => SubscriptionDeleted(a, id, now, lock)
    case HobbyReset => ResetHobby(a)
  }

  function Run(a: Account, events: seq<Event>): Account {
    if events == [] then a else Step(Run(a, events[..|events| - 1]), events[|events| - 1])
  }

  /** The event runs a report to completion on the rows it finds. */
  predicate Reports(a: Account, e: Event) {
    match e
    case BillJob(lock) => lock
    case Created(id, lock) => lock && Subscribed(a, id) && GetPlanConfig(a.sub.value.plan).payAsYouGo
    case Paid(id, _, _, lock, _, _) => lock && Subscribed(a, id)
    case Deleted(id, _, lock) =>
      lock && Subscribed(a, Some(id)) && GetPlanConfig(a.sub.value.plan).payAsYouGo && a.sub.value.customer.Some?
    case _ => false
  }

  // -- Interruptions -----------------------------------------------------------

  /**
   How a job or webhook fares: how many more items Stripe takes before a call raises (None when none
   raises), and whether all that follows the report goes through, the commit included.
   */
  datatype Fate = Fate(accepts: Option<nat>, commits: bool)

  predicate Survives(a: Account, reports: bool, fate: Fate) {
    fate.commits && (reports && fate.accepts.Some? ==> fate.accepts.value >= |ReportItems(a)|)
  }

  /** The rows roll back; Stripe keeps the items it took. */
  function Broken(a: Account, reports: bool, fate: Fate): Account {
    if !reports then a
    else CrashedReport(a, if fate.accepts.Some? then fate.accepts.value else |ReportItems(a)|)
  }

  /** An interruption touches no row, and Stripe only by the items it took of the report that was due. */
  lemma BrokenExactly(a: Account, reports: bool, fate: Fate)
    ensures Broken(a, reports, fate).sub == a.sub && Broken(a, reports, fate).usage == a.usage
    ensures !reports ==> Broken(a, reports, fate).stripe == a.stripe
    ensures reports ==> exists k :: 0 <= k <= |ReportItems(a)| && Broken(a, reports, fate).stripe == CreateAll(a.stripe, ReportItems(a)[..k])
    ensures reports && fate.accepts.Some? && fate.accepts.value <= |ReportItems(a)| ==>
              Broken(a, reports, fate).stripe == CreateAll(a.stripe, ReportItems(a)[..fate.accepts.value])
  {
  }

  /** What Stripe holds after a completed report is what it holds when only the commit fails. */
  lemma ReportStripeIs(a: Account)
    ensures Report(a).stripe == CreateAll(a.stripe, ReportItems(a))
    ensures Report(a).stripe == CrashedReport(a, |ReportItems(a)|).stripe
    ensures forall sent :: sent >= |ReportItems(a)| ==> CrashedReport(a, sent) == CrashedReport(a, |ReportItems(a)|)
  {
    var items := ReportItems(a);
    assert items[..|items|] == items;
    if OpenRecord(a).None? { assert items == []; }
  }

  /** A report that went through whole and was then rolled back. */
  lemma BrokenAfterAll(a: Account, fate: Fate)
    requires fate.accepts.Some? ==> fate.accepts.value >= |ReportItems(a)|
    ensures Broken(a, true, fate) == a.(stripe := Report(a).stripe)
  {
    ReportStripeIs(a);
    assert CrashedReport(a, |ReportItems(a)|) == a.(stripe := CrashedReport(a, |ReportItems(a)|).stripe);
  }

  // -- Quotas ------------------------------------------------------------------

  /** On a plan with hard limits the current period's counters are at or below them. */
  ghost predicate WithinQuota(a: Account) {
    a.sub.Some? && a.sub.value.periodStart in a.usage ==>
      forall c: Category :: HardLimit(a.sub.value.plan, c).Some? ==>
        a.usage[a.sub.value.periodStart].count.At(c) <= HardLimit(a.sub.value.plan, c).value
  }

  /** Stripe only ever knows subscriptions to plans that bill overage. */
  ghost predicate StripePlansPay(a: Account) {
    a.sub.Some? && a.sub.value.stripeId.Some? ==> GetPlanConfig(a.sub.value.plan).payAsYouGo
  }

  ghost predicate Sound(a: Account) {
    WithinQuota(a) && StripePlansPay(a)
  }

  /** An organization as it is created: its first period open and empty, no Stripe subscription. */
  function NewOrganization(plan: Plan, now: Instant): Account {
    Account(Some(Subscription(plan, Active, None, None, now, now + 30 * DAY, None)),
            map[now := FreshRecord(now + 30 * DAY)], [])
  }

  lemma QuotaStep(a: Account, e: Event)
    requires Sound(a)
    ensures Sound(Step(a, e))
  {
  }

  lemma BrokenIsSound(a: Account, reports: bool, fate: Fate)
    requires Sound(a)
    ensures Sound(Broken(a, reports, fate))
  {
  }

  // -- What paid and cancelled subscriptions leave -------------------------------

  /** The event closes the record of `p`: a renewal on the current period, or the end of a paying subscription. */
  predicate Closes(a: Account, e: Event, p: Instant) {
    a.sub.Some? && a.sub.value.periodStart == p &&
    match e
    case Paid(id, renewal, _, _, _, _) => renewal && id.Some? && a.sub.value.stripeId == id
    case Deleted(id, now, _) =>
      a.sub.value.stripeId == Some(id) && GetPlanConfig(a.sub.value.plan).payAsYouGo && a.sub.value.customer.Some? && now !in a.usage
    case _ => false
  }

  /** What is kept of a record whose period an event may close. */
  ghost predicate ClosedAs(before: UsageRecord, after: UsageRecord, closes: bool, invoice: Option<string>) {
    && after.billed == (before.billed || closes)
    && after.invoice == (if closes && !before.billed then invoice else before.invoice)
    && after.count == before.count && after.periodEnd == before.periodEnd
  }

  lemma ReportClosesNothing(a: Account, lock: bool, p: Instant)
    requires p in a.usage
    ensures p in ReportIfLocked(a, lock).usage && ClosedAs(a.usage[p], ReportIfLocked(a, lock).usage[p], false, None)
  {
  }

  lemma PaidCloses(a: Account, e: Event, p: Instant)
    requires e.Paid? && p in a.usage
    ensures p in Step(a, e).usage && ClosedAs(a.usage[p], Step(a, e).usage[p], Closes(a, e, p), Some(e.invoice))
  {
    ReportClosesNothing(a, e.lock, p);
  }

  lemma DeletedCloses(a: Account, e: Event, p: Instant)
    requires e.Deleted? && p in a.usage
    ensures p in Step(a, e).usage && ClosedAs(a.usage[p], Step(a, e).usage[p], Closes(a, e, p), None)
  {
    ReportClosesNothing(a, e.lock, p);
  }

  /** Of the records that were there, only that of `p` is closed; all keep their counters and ends. */
  ghost predicate ClosesOnly(before: map<Instant, UsageRecord>, after: map<Instant, UsageRecord>,
                             p: Option<Instant>, invoice: Option<string>)
  {
    forall q :: q in before ==> q in after && ClosedAs(before[q], after[q], p == Some(q), invoice)
  }

  lemma ClosesExactly(a: Account, e: Event)
    requires (e.Paid? || e.Deleted?) && a.sub.Some?
    ensures ClosesOnly(a.usage, Step(a, e).usage,
                       if Closes(a, e, a.sub.value.periodStart) then Some(a.sub.value.periodStart) else None,
                       if e.Paid? then Some(e.invoice) else None)
  {
    forall q | q in a.usage
      ensures q in Step(a, e).usage
      ensures ClosedAs(a.usage[q], Step(a, e).usage[q], Closes(a, e, q), if e.Paid? then Some(e.invoice) else None)
    {
      if e.Paid? { PaidCloses(a, e, q); } else { DeletedCloses(a, e, q); }
    }
  }

  /**
   What a cancellation at `now` leaves of subscription `s` and its records: the HOBBY plan, no Stripe
   subscription, a fresh record for thirty days, and of a paying subscription the last record closed.
   */
  ghost predicate Cancelled(s: Subscription, before: map<Instant, UsageRecord>, b: Account, now: Instant) {
    && b.sub == Some(Subscription(Hobby, Active, s.customer, None, now, now + 30 * DAY, Some(now)))
    && b.usage.Keys == before.Keys + {now} && b.usage[now] == UsageRecord(ZERO, ZERO, false, None, now + 30 * DAY)
    && ClosesOnly(before, b.usage, if GetPlanConfig(s.plan).payAsYouGo && s.customer.Some? then Some(s.periodStart) else None, None)
  }

  lemma DeletedLeaves(a: Account, id: string, now: Instant, lock: bool)
    requires Subscribed(a, Some(id)) && now !in a.usage
    ensures Cancelled(a.sub.value, a.usage, SubscriptionDeleted(a, id, now, lock), now)
  {
    ClosesExactly(a, Deleted(id, now, lock));
  }

  // -- The services ------------------------------------------------------------

  datatype Failure = QuotaExceeded | InvalidCount | Interrupted | DuplicateRecord

  class OrgBilling {
    var sub: Option<Subscription>
    var usage: map<Instant, UsageRecord>
    var stripe: seq<InvoiceItem>

    function Rows(): Account
      reads this
    {
      Account(sub, usage, stripe)
    }

    /** Quotas hold, and Stripe's subscriptions are to paying plans. */
    ghost predicate Valid()
      reads this
    {
      Sound(Rows())
    }

    constructor (plan: Plan, now: Instant)
      ensures Valid() && Rows() == NewOrganization(plan, now)
    {
      sub := Some(Subscription(plan, Active, None, None, now, now + 30 * DAY, None));
      usage := map[now := FreshRecord(now + 30 * DAY)];
      stripe := [];
    }

    method IncrementUsage(c: Category, n: nat) returns (r: Result<nat, Failure>)
      requires Valid()
      modifies this`usage
      ensures Valid()
      ensures Rows() == CheckAndIncrement(old(Rows()), c, n)
      ensures r.Ok? <==> MayIncrement(old(Rows()), c, n)
      ensures r.Ok? ==>
                && sub.Some? && sub.value.periodStart in usage
                && r.value == usage[sub.value.periodStart].count.At(c)
                   == n + if sub.value.periodStart in old(usage) then old(usage)[sub.value.periodStart].count.At(c) else 0
      ensures r.Err? ==> usage == old(usage)
    {
      if n == 0 { return Err(InvalidCount); }
      if sub.None? { return Err(QuotaExceeded); }
      var s := sub.value;
      if s.status != Active && s.status != PastDue { return Err(QuotaExceeded); }
      var limit := HardLimit(s.plan, c);
      var before := usage;
      if s.periodStart !in usage {
        usage := usage[s.periodStart := FreshRecord(s.periodEnd)];
      }
      var rec := usage[s.periodStart];
      var total := rec.count.At(c) + n;
      if limit.Some? && total > limit.value {
        usage := before; // the raised error rolls the session back
        return Err(QuotaExceeded);
      }
      usage := usage[s.periodStart := rec.(count := rec.count.With(c, total))];
      r := Ok(total);
    }

    /** An error of the database while decrementing is logged and forgotten. */
    method DecrementUsage(c: Category, n: nat, raises: bool)
      requires Valid()
      modifies this`usage
      ensures Valid()
      ensures Rows() == if raises then old(Rows()) else RollbackIncrement(old(Rows()), c, n)
      ensures usage.Keys == old(usage).Keys
      ensures forall p :: p in usage ==>
                var hit := !raises && sub.Some? && p == sub.value.periodStart;
                && usage[p].count.At(c) == (if hit then (if old(usage)[p].count.At(c) > n then old(usage)[p].count.At(c) - n else 0)
                                            else old(usage)[p].count.At(c))
                && (forall d: Category :: d != c ==> usage[p].count.At(d) == old(usage)[p].count.At(d))
                && usage[p].reported == old(usage)[p].reported && usage[p].billed == old(usage)[p].billed
    {
      if n == 0 || sub.None? || raises || sub.value.periodStart !in usage { return; }
      var p := sub.value.periodStart;
      var rec := usage[p];
      usage := usage[p := rec.(count := rec.count.With(c, Over(rec.count.At(c), n)))];
    }

    /** A request that counts, fails, compensates and raises again. */
    method FailRequest(c: Category, n: nat, dispatched: bool, raises: bool)
      requires Valid()
      modifies this`usage
      ensures Valid()
      ensures Rows() == FailedRequest(old(Rows()), c, n, dispatched)
    {
      var committed := usage;
      var r := IncrementUsage(c, n);
      if r.Err? { return; }
      if dispatched { committed := usage; }
      DecrementUsage(c, n, raises);
      usage := committed; // the error raised again rolls the session back
    }

    /** Creates the items one by one; `accepts` is how many Stripe takes before a call raises. */
    method SendItems(items: seq<InvoiceItem>, accepts: Option<nat>) returns (sent: bool)
      modifies this`stripe
      ensures sent <==> accepts.None? || accepts.value >= |items|
      ensures stripe == CreateAll(old(stripe), if sent then items else items[..accepts.value])
    {
      for i := 0 to |items|
        invariant stripe == CreateAll(old(stripe), items[..i])
        invariant accepts.Some? ==> i <= accepts.value
      {
        if accepts == Some(i) { return false; }
        stripe := Create(stripe, items[i]);
        assert items[..i + 1][..i] == items[..i];
      }
      assert items[..|items|] == items;
      sent := true;
    }

    /** One item for each category with overage: traces, then trace evaluations, then session evaluations. */
    static method OverageItems(d: OverageDetail, period: nat) returns (items: seq<InvoiceItem>)
      ensures items == CategoryItem(period, d, Traces) + CategoryItem(period, d, TraceEvals)
                       + CategoryItem(period, d, SessionEvals)
    {
      items := [];
      if d.units.traces > 0 {
        items := items + [InvoiceItem(ItemKey(period, Traces, d.snapshot.traces), d.units.traces,
                                      RoundHalfUp(OVERAGE_UNIT_PRICE * d.units.traces))];
      }
      if d.units.traceEvals > 0 {
        items := items + [InvoiceItem(ItemKey(period, TraceEvals, d.snapshot.traceEvals), d.units.traceEvals,
                                      RoundHalfUp(OVERAGE_UNIT_PRICE * d.units.traceEvals))];
      }
      if d.units.sessionEvals > 0 {
        items := items + [InvoiceItem(ItemKey(period, SessionEvals, d.snapshot.sessionEvals), d.units.sessionEvals,
                                      RoundHalfUp(OVERAGE_UNIT_PRICE * d.units.sessionEvals))];
      }
    }

    method ReportOveragesToStripe(accepts: Option<nat>) returns (r: Result<bool, Failure>)
      modifies this`usage, this`stripe
      ensures accepts.Some? && accepts.value < |ReportItems(old(Rows()))| ==>
                r == Err(Interrupted) && Rows() == CrashedReport(old(Rows()), accepts.value)
      ensures accepts.None? || accepts.value >= |ReportItems(old(Rows()))| ==>
                r == Ok(ReportItems(old(Rows())) != []) && Rows() == Report(old(Rows()))
    {
      if sub.None? || sub.value.customer.None? { return Ok(false); }
      var d := CalculateUnreportedOverages(Rows());
      if d.totalCost == 0 { return Ok(false); }
      var period := Seconds(sub.value.periodStart);
      var items := OverageItems(d, period);
      assert items == ReportItems(old(Rows()));
      var sent := SendItems(items, accepts);
      if !sent { return Err(Interrupted); }
      usage := usage[sub.value.periodStart := usage[sub.value.periodStart].(reported := d.snapshot)];
      r := Ok(true);
    }

    /**
     The report under the lock and whatever its caller does afterwards: when a call of Stripe or
     anything later raises, the session rolls back.
     */
    method LockedReport(lock: bool, fate: Fate) returns (r: Result<bool, Failure>)
      requires Valid()
      modifies this`usage, this`stripe
      ensures Valid()
      ensures r.Ok? <==> Survives(old(Rows()), lock, fate)
      ensures r.Ok? ==> r.value == (lock && ReportItems(old(Rows())) != [])
      ensures Rows() == if r.Ok? then ReportIfLocked(old(Rows()), lock) else Broken(old(Rows()), lock, fate)
    {
      ghost var a := Rows();
      if !lock { return if fate.commits then Ok(false) else Err(Interrupted); }
      var before := usage;
      r := ReportOveragesToStripe(fate.accepts);
      if r.Ok? && fate.commits {
        QuotaStep(a, BillJob(true));
        return;
      }
      if r.Ok? { BrokenAfterAll(a, fate); }
      usage := before;
      BrokenIsSound(a, true, fate);
      r := Err(Interrupted);
    }

    /** Marks an open record billed; a closed or absent one is left. */
    method CloseRecord(p: Instant, invoice: Option<string>)
      modifies this`usage
      ensures Rows() == MarkBilled(old(Rows()), p, invoice)
    {
      if p in usage && !usage[p].billed {
        usage := usage[p := usage[p].(billed := true, invoice := invoice)];
      }
    }

    /** The job is skipped without the lock, and raises again when the report or its commit fails. */
    method BillSingleOrg(lock: bool, fate: Fate) returns (r: Result<bool, Failure>)
      requires Valid()
      modifies this`usage, this`stripe
      ensures Valid()
      ensures r.Ok? <==> !lock || Survives(old(Rows()), true, fate)
      ensures r.Ok? ==> r.value == (lock && ReportItems(old(Rows())) != [])
      ensures Rows() == if r.Ok? then ReportIfLocked(old(Rows()), lock) else Broken(old(Rows()), true, fate)
    {
      if !lock { return Ok(false); }
      r := LockedReport(true, fate);
    }

    method HandleCheckoutCompleted(plan: PaidPlan, customer: string, id: string, start: Instant, end: Instant)
      requires Valid()
      modifies this`sub, this`usage
      ensures Valid()
      ensures Rows() == CheckoutCompleted(old(Rows()), plan, customer, id, start, end)
      ensures sub == Some(Subscription(plan, Active, Some(customer), Some(id), start, end, None))
      ensures usage == if start in old(usage) then old(usage) else old(usage)[start := UsageRecord(ZERO, ZERO, false, None, end)]
    {
      if sub.Some? {
        sub := Some(sub.value.(plan := plan, status := Active, customer := Some(customer), stripeId := Some(id),
                               periodStart := start, periodEnd := end, canceledAt := None));
      } else {
        sub := Some(Subscription(plan, Active, Some(customer), Some(id), start, end, None));
      }
      if start !in usage { usage := usage[start := FreshRecord(end)]; }
    }

    method HandleInvoiceCreated(id: Option<string>, lock: bool, fate: Fate) returns (ok: bool)
      requires Valid()
      modifies this`usage, this`stripe
      ensures Valid()
      ensures var handles := Subscribed(old(Rows()), id) && GetPlanConfig(old(Rows()).sub.value.plan).payAsYouGo;
              ok <==> !handles || Survives(old(Rows()), lock, fate)
      ensures Rows() == if ok then InvoiceCreated(old(Rows()), id, lock) else Broken(old(Rows()), lock, fate)
    {
      if id.None? || sub.None? || sub.value.stripeId != id { return true; }
      if !GetPlanConfig(sub.value.plan).payAsYouGo { return true; }
      var r := LockedReport(lock, fate);
      ok := r.Ok?;
    }

    method HandleInvoicePaid(id: Option<string>, renewal: bool, invoice: string, lock: bool, start: Instant, end: Instant,
                             fate: Fate) returns (ok: bool)
      requires Valid()
      modifies this
      ensures Valid()
      ensures ok <==> !Subscribed(old(Rows()), id) || Survives(old(Rows()), lock, fate)
      ensures Rows() == if ok then InvoicePaid(old(Rows()), id, renewal, invoice, lock, start, end)
                        else Broken(old(Rows()), lock, fate)
      ensures ok && id.Some? && old(sub).Some? && old(sub).value.stripeId == id ==>
                && sub == Some(old(sub).value.(periodStart := start, periodEnd := end, status := Active))
                && start in usage
                && ClosesOnly(old(usage), usage, if renewal then Some(old(sub).value.periodStart) else None, Some(invoice))
    {
      if id.None? || sub.None? || sub.value.stripeId != id { return true; }
      ghost var a := Rows();
      var r := LockedReport(lock, fate);
      if r.Err? { return false; }
      if renewal { CloseRecord(sub.value.periodStart, Some(invoice)); }
      sub := Some(sub.value.(periodStart := start, periodEnd := end));
      if start !in usage { usage := usage[start := FreshRecord(end)]; }
      sub := Some(sub.value.(status := Active));
      ok := true;
      ghost var e := Paid(id, renewal, invoice, lock, start, end);
      QuotaStep(a, e);
      ClosesExactly(a, e);
    }

    method HandleInvoicePaymentFailed(id: Option<string>)
      requires Valid()
      modifies this`sub
      ensures Valid()
      ensures Rows() == PaymentFailed(old(Rows()), id)
      ensures sub == if id.Some? && old(sub).Some? && old(sub).value.stripeId == id
                     then Some(old(sub).value.(status := PastDue)) else old(sub)
    {
      if id.None? || sub.None? || sub.value.stripeId != id { return; }
      sub := Some(sub.value.(status := PastDue));
    }

    method HandleSubscriptionUpdated(id: string, status: Status, plan: Option<PaidPlan>, canceledAt: Option<Instant>,
                                     start: Option<Instant>, end: Option<Instant>)
      requires Valid()
      modifies this`sub
      ensures Valid()
      ensures Rows() == SubscriptionUpdated(old(Rows()), id, status, plan, canceledAt, start, end)
      ensures old(sub).None? || old(sub).value.stripeId != Some(id) ==> sub == old(sub)
      ensures old(sub).Some? && old(sub).value.stripeId == Some(id) ==>
                && sub.Some? && sub.value.status == status && sub.value.canceledAt == canceledAt
                && sub.value.stripeId == Some(id) && sub.value.customer == old(sub).value.customer
                && (plan.Some? ==> sub.value.plan == plan.value) && (plan.None? ==> sub.value.plan == old(sub).value.plan)
                && (start.Some? ==> sub.value.periodStart == start.value)
                && (start.None? ==> sub.value.periodStart == old(sub).value.periodStart)
                && (end.Some? ==> sub.value.periodEnd == end.value) && (end.None? ==> sub.value.periodEnd == old(sub).value.periodEnd)
    {
      if sub.None? || sub.value.stripeId != Some(id) { return; }
      var s := sub.value.(status := status);
      if plan.Some? { s := s.(plan := plan.value); }
      s := s.(canceledAt := canceledAt);
      if start.Some? { s := s.(periodStart := start.value); }
      if end.Some? { s := s.(periodEnd := end.value); }
      sub := Some(s);
    }

    /** The last report of a paying subscription under the lock, and the end of its record. */
    method CloseSubscription(lock: bool, fate: Fate) returns (ok: bool)
      requires Valid() && sub.Some?
      modifies this`usage, this`stripe
      ensures var s := old(sub).value;
              var paying := GetPlanConfig(s.plan).payAsYouGo && s.customer.Some?;
              && (ok <==> Survives(old(Rows()), paying && lock, fate))
              && (ok ==> Rows() == if paying then MarkBilled(ReportIfLocked(old(Rows()), lock), s.periodStart, None) else old(Rows()))
              && (!ok ==> Rows() == Broken(old(Rows()), paying && lock, fate))
      ensures !ok ==> Valid()
    {
      var paying := GetPlanConfig(sub.value.plan).payAsYouGo && sub.value.customer.Some?;
      var sent := LockedReport(paying && lock, fate);
      if sent.Err? { return false; }
      if paying { CloseRecord(sub.value.periodStart, None); }
      ok := true;
    }

    /** To the HOBBY plan and a fresh period from `now`, whose record must not exist yet. */
    method Downgrade(now: Instant) returns (inserted: bool)
      requires sub.Some?
      modifies this`sub, this`usage
      ensures inserted <==> now !in old(usage)
      ensures inserted ==>
                && sub == Some(Subscription(Hobby, Active, old(sub).value.customer, None, now, now + 30 * DAY, Some(now)))
                && usage == old(usage)[now := UsageRecord(ZERO, ZERO, false, None, now + 30 * DAY)]
    {
      sub := Some(sub.value.(plan := Hobby, status := Active, stripeId := None, canceledAt := Some(now),
                             periodStart := now, periodEnd := now + 30 * DAY));
      if now in usage { return false; }
      usage := usage[now := FreshRecord(now + 30 * DAY)];
      inserted := true;
    }

    /** A record for `now` that exists already violates the unique (org, period_start), and the webhook rolls back. */
    method Cancel(now: Instant, lock: bool, fate: Fate, ghost id: string) returns (r: Result<bool, Failure>)
      requires Valid() && Subscribed(Rows(), Some(id))
      modifies this
      ensures var reports := Reports(old(Rows()), Deleted(id, now, lock));
              && (r == Err(Interrupted) <==> !Survives(old(Rows()), reports, fate))
              && Rows() == if r == Err(Interrupted) then Broken(old(Rows()), reports, fate)
                           else SubscriptionDeleted(old(Rows()), id, now, lock)
      ensures r == Err(DuplicateRecord) <==> r != Err(Interrupted) && now in old(usage)
    {
      var sub0, usage0 := sub, usage;
      var final := CloseSubscription(lock, fate);
      if !final { return Err(Interrupted); }
      var inserted := Downgrade(now);
      if !inserted {
        sub, usage := sub0, usage0;
        return Err(DuplicateRecord);
      }
      r := Ok(true);
    }

    method HandleSubscriptionDeleted(id: string, now: Instant, lock: bool, fate: Fate) returns (r: Result<bool, Failure>)
      requires Valid()
      modifies this
      ensures Valid()
      ensures var reports := Reports(old(Rows()), Deleted(id, now, lock));
              && (r == Err(Interrupted) <==> Subscribed(old(Rows()), Some(id)) && !Survives(old(Rows()), reports, fate))
              && Rows() == if r == Err(Interrupted) then Broken(old(Rows()), reports, fate)
                           else SubscriptionDeleted(old(Rows()), id, now, lock)
      ensures r == Err(DuplicateRecord) <==>
                r != Err(Interrupted) && Subscribed(old(Rows()), Some(id)) && now in old(usage)
      ensures r.Ok? && old(sub).Some? && old(sub).value.stripeId == Some(id) ==>
                now !in old(usage) && Cancelled(old(sub).value, old(usage), Rows(), now)
    {
      if sub.None? || sub.value.stripeId != Some(id) { return Ok(false); }
      ghost var a := Rows();
      r := Cancel(now, lock, fate, id);
      BrokenIsSound(a, Reports(a, Deleted(id, now, lock)), fate);
      QuotaStep(a, Deleted(id, now, lock));
      if r.Ok? { DeletedLeaves(a, id, now, lock); }
    }

    method ResetSingleHobbyOrg() returns (r: Result<bool, Failure>)
      requires Valid()
      modifies this`sub, this`usage
      ensures Valid()
      ensures Rows() == ResetHobby(old(Rows()))
      ensures r.Err? <==> old(sub).Some? && old(sub).value.periodEnd in old(usage)
      ensures r.Ok? && old(sub).Some? ==>
                var start := old(sub).value.periodEnd;
                && sub == Some(old(sub).value.(periodStart := start, periodEnd := start + 30 * DAY))
                && usage == old(usage)[start := UsageRecord(ZERO, ZERO, false, None, start + 30 * DAY)]
      ensures r.Err? || old(sub).None? ==> sub == old(sub) && usage == old(usage)
    {
      if sub.None? { return Ok(false); }
      var sub0 := sub;
      var start := sub.value.periodEnd;
      sub := Some(sub.value.(periodStart := start, periodEnd := start + 30 * DAY));
      if start in usage {
        sub := sub0;
        return Err(DuplicateRecord);
      }
      usage := usage[start := FreshRecord(start + 30 * DAY)];
      r := Ok(true);
    }
  }
}
