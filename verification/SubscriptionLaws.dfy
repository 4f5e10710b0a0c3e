/**
 The life of subscriptions and usage records over runs: which events close a record, what a signup
 invoice leaves, and which increments each plan grants.
 */
module SubscriptionLaws {
  import opened Wrappers
  import opened Plans
  import opened Ledger
  import opened Billing
  import opened BillingLaws

  // -- Closing a period --------------------------------------------------------

  /** Any other event leaves every record open or closed as it was, with its invoice. */
  lemma OthersCloseNothing(a: Account, e: Event, p: Instant)
    requires p in a.usage && !e.Paid? && !e.Deleted?
    ensures p in Step(a, e).usage
    ensures Step(a, e).usage[p].billed == a.usage[p].billed && Step(a, e).usage[p].invoice == a.usage[p].invoice
    ensures Step(a, e).usage[p].periodEnd == a.usage[p].periodEnd
  {
  }

  /** A record becomes billed by a renewal on its period, or by the end of a paying subscription in it, and always then. */
  lemma ClosedByExactly(a: Account, e: Event, p: Instant)
    requires p in a.usage
    ensures p in Step(a, e).usage
    ensures Step(a, e).usage[p].billed <==> a.usage[p].billed || Closes(a, e, p)
    ensures Step(a, e).usage[p].invoice
            == if Closes(a, e, p) && !a.usage[p].billed then (if e.Paid? then Some(e.invoice) else None) else a.usage[p].invoice
    ensures Step(a, e).usage[p].periodEnd == a.usage[p].periodEnd
  {
    match e
    case Paid(_, _, _, _, _, _) => PaidCloses(a, e, p);
    case Deleted(_, _, _) => DeletedCloses(a, e, p);
    case _ => OthersCloseNothing(a, e, p);
  }

  /** A record that an event adds is that of the current period: open, unreported, ending with the subscription's period. */
  lemma AddedRecord(a: Account, e: Event, p: Instant)
    requires p !in a.usage && p in Step(a, e).usage
    ensures
      var b := Step(a, e);
      && b.sub.Some? && p == b.sub.value.periodStart && b.usage[p].periodEnd == b.sub.value.periodEnd
      && !b.usage[p].billed && b.usage[p].invoice == None && b.usage[p].reported == ZERO
  {
    ReportItemsShape(a);
  }

  /** Some event of the run closed the record of `p` when it came. */
  ghost predicate EverClosed(a: Account, events: seq<Event>, p: Instant) {
    events != [] &&
    var init := events[..|events| - 1];
    EverClosed(a, init, p) || Closes(Run(a, init), events[|events| - 1], p)
  }

  /** Over any run a record is billed exactly if it was, or some event on the way closed it. */
  lemma {:induction false} BilledExactly(a: Account, events: seq<Event>, p: Instant)
    requires p in a.usage
    ensures p in Run(a, events).usage
    ensures Run(a, events).usage[p].billed <==> a.usage[p].billed || EverClosed(a, events, p)
  {
    if events != [] {
      BilledExactly(a, events[..|events| - 1], p);
      ClosedByExactly(Run(a, events[..|events| - 1]), events[|events| - 1], p);
    }
  }

  // -- The first month -----------------------------------------------------------

  /** Usage, reports, and invoices that are no renewal: nothing that ends the period `p` or changes the plan. */
  predicate Quiet(e: Event, p: Instant) {
    match e
    case Increment(_, _) => true
    case Failed(_, _, _) => true
    case BillJob(_) => true
    case Created(_, _) => true
    case Unpaid(_) => true
    case Paid(_, renewal, _, _, start, _) => !renewal && start == p
    case _ => false
  }

  lemma QuietStep(m: Account, e: Event, p: Instant, c: Category, base: nat)
    requires Open(m, p, c, base) && Quiet(e, p)
    ensures Open(Step(m, e), p, c, base) && Commits(m, e)
  {
    ClosedByExactly(m, e, p);
  }

  lemma {:induction false} QuietRun(a: Account, events: seq<Event>, p: Instant, c: Category, base: nat)
    requires Open(a, p, c, base) && forall i :: 0 <= i < |events| ==> Quiet(events[i], p)
    ensures Open(Run(a, events), p, c, base)
    ensures CleanRun(a, events, p) && BaseIs(a, events, p, c, base)
  {
    if events != [] {
      var init := events[..|events| - 1];
      assert forall i :: 0 <= i < |init| ==> init[i] == events[i];
      QuietRun(a, init, p, c, base);
      QuietStep(Run(a, init), events[|events| - 1], p, c, base);
    }
  }

  /**
   A signup invoice leaves the period it opens open: through any usage, reports and invoices that are
   no renewal, the next locked report brings what is billed to max(0, count - included).
   */
  lemma FirstMonthIsBilled(a: Account, events: seq<Event>, e: Event, p: Instant, c: Category, base: nat)
    requires Opened(a, p) && Open(a, p, c, base)
    requires forall i :: 0 <= i < |events| ==> Quiet(events[i], p)
    requires Reports(Run(a, events), e) && Quiet(e, p)
    ensures p in Run(a, events + [e]).usage && !Run(a, events + [e]).usage[p].billed
    ensures BilledUnits(Run(a, events + [e]).stripe, Seconds(p), c)
            == Over(Run(a, events + [e]).usage[p].count.At(c), base)
  {
    assert (events + [e])[..|events|] == events;
    assert forall i :: 0 <= i < |events + [e]| ==> Quiet((events + [e])[i], p);
    QuietRun(a, events, p, c, base);
    QuietRun(a, events + [e], p, c, base);
    Conservation(a, events, e, p, c, base);
  }

  // -- What each plan grants -------------------------------------------------------

  predicate Live(a: Account) {
    a.sub.Some? && (a.sub.value.status == Active || a.sub.value.status == PastDue)
  }

  /** Units of `c` counted in the current period. */
  function Used(a: Account, c: Category): nat
    requires a.sub.Some?
  {
    CountOf(a, a.sub.value.periodStart, c)
  }

  lemma IncrementUsed(a: Account, c: Category, n: nat)
    requires a.sub.Some?
    ensures Step(a, Increment(c, n)).sub == a.sub
    ensures Used(Step(a, Increment(c, n)), c) == Used(a, c) + if MayIncrement(a, c, n) then n else 0
  {
    StepCounts(a, Increment(c, n), a.sub.value.periodStart, c);
  }

  /** A HOBBY month is 100 traces, 100 trace evaluations and 10 session evaluations: the last of them is granted, no more. */
  lemma HobbyGrants(a: Account, c: Category, n: nat)
    requires Live(a) && a.sub.value.plan == Hobby && n > 0
    ensures Step(a, Increment(c, n)).sub == a.sub
    ensures
      var limit := match c case Traces => 100 case TraceEvals => 100 case SessionEvals => 10;
      Used(Step(a, Increment(c, n)), c) == if Used(a, c) + n <= limit then Used(a, c) + n else Used(a, c)
  {
    IncrementUsed(a, c, n);
  }

  /** Every other plan grants any number while the subscription is live. */
  lemma OthersGrantAll(a: Account, c: Category, n: nat)
    requires Live(a) && a.sub.value.plan != Hobby && n > 0
    ensures Step(a, Increment(c, n)).sub == a.sub
    ensures Used(Step(a, Increment(c, n)), c) == Used(a, c) + n
  {
    IncrementUsed(a, c, n);
  }

  /** A subscription that is not live grants nothing, and neither does a request for nothing. */
  lemma NothingGranted(a: Account, c: Category, n: nat)
    requires !Live(a) || n == 0
    ensures Step(a, Increment(c, n)) == a
  {
  }

  /** Only PRO, STARTUP and ENTERPRISE are ever billed, above 5,000, 50,000 and no traces. */
  lemma BilledPlans(a: Account, e: Event)
    requires a.sub.Some? && (a.sub.value.plan == Hobby || a.sub.value.plan == Development)
    ensures Step(a, e).stripe == a.stripe
  {
    assert ReportItems(a) == [];
    StepSends(a, e);
    assert SentBy(a, e) == [];
  }

  lemma IncludedTraces()
    ensures BaseUnits(Pro, Traces) == 5_000 && BaseUnits(Startup, Traces) == 50_000 && BaseUnits(Enterprise, Traces) == 0
    ensures BaseUnits(Pro, TraceEvals) == 5_000 && BaseUnits(Startup, TraceEvals) == 50_000
    ensures BaseUnits(Pro, SessionEvals) == 100 && BaseUnits(Startup, SessionEvals) == 1_000
  {
  }

  // -- Standing --------------------------------------------------------------------

  /** The event is about the current Stripe subscription. */
  predicate About(a: Account, e: Event) {
    match e
    case Checkout(_, _, _, _, _) => true
    case Paid(id, _, _, _, _, _) => id.Some? && a.sub.Some? && a.sub.value.stripeId == id
    case Unpaid(id) => id.Some? && a.sub.Some? && a.sub.value.stripeId == id
    case Updated(id, _, _, _, _, _) => a.sub.Some? && a.sub.value.stripeId == Some(id)
    case Deleted(id, now, _) => a.sub.Some? && a.sub.value.stripeId == Some(id) && now !in a.usage
    case _ => false
  }

  /** Status, plan and Stripe subscription change only by events about it; only a failed payment or an update makes it past due. */
  lemma StandingStep(a: Account, e: Event)
    requires a.sub.Some?
    ensures Step(a, e).sub.Some?
    ensures
      var s, t := a.sub.value, Step(a, e).sub.value;
      && (!About(a, e) ==>
            && t.status == s.status && t.plan == s.plan && t.stripeId == s.stripeId && t.customer == s.customer
            && t.canceledAt == s.canceledAt)
      && (About(a, e) && (e.Checkout? || e.Paid? || e.Deleted?) ==> t.status == Active)
      && (About(a, e) && e.Unpaid? ==> t == s.(status := PastDue))
      && (About(a, e) && e.Updated? ==>
            && t.status == e.status && t.canceledAt == e.canceledAt && t.stripeId == s.stripeId
            && t.plan == (if e.price.Some? then e.price.value else s.plan))
      && (About(a, e) && e.Checkout? ==> t.plan == e.plan && t.stripeId == Some(e.id) && t.customer == Some(e.customer) && t.canceledAt == None)
      && (About(a, e) && e.Paid? ==> t.plan == s.plan && t.stripeId == s.stripeId && t.canceledAt == s.canceledAt)
      && (About(a, e) && e.Deleted? ==> t.plan == Hobby && t.stripeId == None && t.canceledAt == Some(e.now) && t.customer == s.customer)
  {
  }

  /** Where the current period lies after an event. */
  lemma PeriodStep(a: Account, e: Event)
    requires a.sub.Some?
    ensures Step(a, e).sub.Some?
    ensures
      var s, t := a.sub.value, Step(a, e).sub.value;
      && (About(a, e) && (e.Checkout? || e.Paid?) ==> t.periodStart == e.start && t.periodEnd == e.end)
      && (About(a, e) && e.Deleted? ==> t.periodStart == e.now && t.periodEnd == e.now + 30 * 86_400_000_000)
      && (About(a, e) && e.Updated? ==>
            && t.periodStart == (if e.newStart.Some? then e.newStart.value else s.periodStart)
            && t.periodEnd == (if e.newEnd.Some? then e.newEnd.value else s.periodEnd))
      && (e.HobbyReset? && s.periodEnd !in a.usage ==>
            t.periodStart == s.periodEnd && t.periodEnd == s.periodEnd + 30 * 86_400_000_000)
      && ((!About(a, e) && !e.HobbyReset?) || e.Unpaid? || (e.HobbyReset? && s.periodEnd in a.usage) ==>
            t.periodStart == s.periodStart && t.periodEnd == s.periodEnd)
  {
  }

  /** The last thing a run said about payment: past due exactly if that was a failed payment or an update to it. */
  ghost predicate LastSaysPastDue(a: Account, events: seq<Event>) {
    if events == [] then a.sub.Some? && a.sub.value.status == PastDue
    else
      var m, e := Run(a, events[..|events| - 1]), events[|events| - 1];
      if About(m, e) then e.Unpaid? || (e.Updated? && e.status == PastDue) else LastSaysPastDue(a, events[..|events| - 1])
  }

  lemma {:induction false} PastDueExactly(a: Account, events: seq<Event>)
    requires a.sub.Some?
    ensures Run(a, events).sub.Some?
    ensures Run(a, events).sub.value.status == PastDue <==> LastSaysPastDue(a, events)
  {
    if events != [] {
      PastDueExactly(a, events[..|events| - 1]);
      StandingStep(Run(a, events[..|events| - 1]), events[|events| - 1]);
    }
  }

  /** A whole second is what an instant has of it, so instants apart by a second or more never share a key. */
  lemma SecondsExact(t: Instant, u: Instant)
    ensures Seconds(t) * 1_000_000 <= t < (Seconds(t) + 1) * 1_000_000
    ensures t + 1_000_000 <= u ==> Seconds(t) < Seconds(u)
  {
  }
}
