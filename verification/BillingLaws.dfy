/**
 What metered billing keeps over whole runs: replay after crashes, no unit billed twice,
 whole-period conservation, closed periods, rounding and the quota cap.
 */
module BillingLaws {
  import opened Wrappers
  import opened Collections
  import opened Plans
  import opened Ledger
  import opened Billing

  // -- What one report sends ---------------------------------------------------

  function ReportKey(a: Account, c: Category): ItemKey
    requires OpenRecord(a).Some?
  {
    ItemKey(Seconds(a.sub.value.periodStart), c, OpenRecord(a).value.count.At(c))
  }

  ghost predicate Mentions(items: seq<InvoiceItem>, c: Category) {
    exists i :: 0 <= i < |items| && items[i].key.category == c
  }

  /** `items` holds at most one item for each category, with that category's key and delta. */
  ghost predicate Sends(a: Account, items: seq<InvoiceItem>)
    requires OpenRecord(a).Some?
  {
    && (forall i :: 0 <= i < |items| ==>
          && items[i].key == ReportKey(a, items[i].key.category)
          && items[i].units == CategoryDelta(a, items[i].key.category)
          && items[i].cents == RoundHalfUp(OVERAGE_UNIT_PRICE * items[i].units))
    && (forall i, j :: 0 <= i < j < |items| ==> items[i].key.category != items[j].key.category)
  }

  /** The three parts of a report, one for each category. */
  lemma ReportParts(a: Account)
    requires OpenRecord(a).Some? && a.sub.value.customer.Some?
    ensures
      var d, period := CalculateUnreportedOverages(a), Seconds(a.sub.value.periodStart);
      var t, e, s := CategoryItem(period, d, Traces), CategoryItem(period, d, TraceEvals), CategoryItem(period, d, SessionEvals);
      ReportItems(a) == t + e + s && Part(a, t, Traces) && Part(a, e, TraceEvals) && Part(a, s, SessionEvals)
  {
  }

  /** A category's part: nothing when nothing is due, otherwise the one item for it. */
  ghost predicate Part(a: Account, items: seq<InvoiceItem>, c: Category)
    requires OpenRecord(a).Some?
  {
    if CategoryDelta(a, c) == 0 then items == []
    else items == [InvoiceItem(ReportKey(a, c), CategoryDelta(a, c), RoundHalfUp(OVERAGE_UNIT_PRICE * CategoryDelta(a, c)))]
  }

  lemma SendsJoin(a: Account, x: seq<InvoiceItem>, y: seq<InvoiceItem>)
    requires OpenRecord(a).Some? && Sends(a, x) && Sends(a, y)
    requires forall i, j :: 0 <= i < |x| && 0 <= j < |y| ==> x[i].key.category != y[j].key.category
    ensures Sends(a, x + y)
  {
  }

  lemma PartsSend(a: Account, t: seq<InvoiceItem>, e: seq<InvoiceItem>, s: seq<InvoiceItem>)
    requires OpenRecord(a).Some? && Part(a, t, Traces) && Part(a, e, TraceEvals) && Part(a, s, SessionEvals)
    ensures Sends(a, t + e + s)
  {
    SendsJoin(a, t, e);
    SendsJoin(a, t + e, s);
  }

  lemma PartsMention(a: Account, t: seq<InvoiceItem>, e: seq<InvoiceItem>, s: seq<InvoiceItem>, c: Category)
    requires OpenRecord(a).Some? && Part(a, t, Traces) && Part(a, e, TraceEvals) && Part(a, s, SessionEvals)
    ensures Mentions(t + e + s, c) <==> CategoryDelta(a, c) > 0
  {
    var all := t + e + s;
    assert t != [] ==> all[0] == t[0];
    assert e != [] ==> all[|t|] == e[0];
    assert s != [] ==> all[|t| + |e|] == s[0];
  }

  lemma ReportItemsShape(a: Account)
    ensures OpenRecord(a).None? ==> ReportItems(a) == []
    ensures OpenRecord(a).Some? ==> Sends(a, ReportItems(a))
    ensures OpenRecord(a).Some? && a.sub.value.customer.Some? ==>
              forall c :: Mentions(ReportItems(a), c) <==> CategoryDelta(a, c) > 0
  {
    if OpenRecord(a).Some? && a.sub.value.customer.Some? {
      var d, period := CalculateUnreportedOverages(a), Seconds(a.sub.value.periodStart);
      var t, e, s := CategoryItem(period, d, Traces), CategoryItem(period, d, TraceEvals), CategoryItem(period, d, SessionEvals);
      ReportParts(a);
      PartsSend(a, t, e, s);
      forall c ensures Mentions(ReportItems(a), c) <==> CategoryDelta(a, c) > 0 { PartsMention(a, t, e, s, c); }
    }
  }

  lemma MentionsLast(items: seq<InvoiceItem>, c: Category)
    requires items != []
    ensures Mentions(items, c) <==> Mentions(items[..|items| - 1], c) || items[|items| - 1].key.category == c
  {
    var init := items[..|items| - 1];
    if i :| 0 <= i < |init| && init[i].key.category == c { assert items[i].key.category == c; }
    if items[|items| - 1].key.category == c { assert Mentions(items, c); }
  }

  lemma {:induction false} SendsFreshUnits(log: seq<InvoiceItem>, a: Account, items: seq<InvoiceItem>, c: Category)
    requires OpenRecord(a).Some? && Sends(a, items)
    ensures FreshUnits(log, items, Seconds(a.sub.value.periodStart), c)
            == if Mentions(items, c) && !HasKey(log, ReportKey(a, c)) then CategoryDelta(a, c) else 0
  {
    if items != [] {
      var init, last := items[..|items| - 1], items[|items| - 1];
      SendsFreshUnits(log, a, init, c);
      MentionsLast(items, c);
      if last.key.category == c {
        assert !Mentions(init, c);
      }
    }
  }

  lemma CreateAllSends(log: seq<InvoiceItem>, a: Account, items: seq<InvoiceItem>, c: Category)
    requires OpenRecord(a).Some? && Sends(a, items)
    ensures BilledUnits(CreateAll(log, items), Seconds(a.sub.value.periodStart), c)
            == BilledUnits(log, Seconds(a.sub.value.periodStart), c)
               + if Mentions(items, c) && !HasKey(log, ReportKey(a, c)) then CategoryDelta(a, c) else 0
  {
    CreateAllBills(log, items, Seconds(a.sub.value.periodStart), c);
    SendsFreshUnits(log, a, items, c);
  }

  // -- Replay ------------------------------------------------------------------

  ghost predicate AllCrashes(events: seq<Event>) {
    forall i :: 0 <= i < |events| ==> events[i].Crash?
  }

  /** The longest prefix of `n` items that any of the crashed attempts got through. */
  function MaxSent(events: seq<Event>, n: nat): (k: nat)
    ensures k <= n
  {
    if events == [] then 0
    else
      var e, m := events[|events| - 1], MaxSent(events[..|events| - 1], n);
      if e.Crash? then Max(m, Min(e.sent, n)) else m
  }

  /** A report depends on the rows, not on what Stripe holds. */
  lemma SameRowsSameItems(a: Account, log: seq<InvoiceItem>)
    ensures ReportItems(a.(stripe := log)) == ReportItems(a)
    ensures OpenRecord(a.(stripe := log)) == OpenRecord(a)
  {
  }

  /** Any number of crashed reports amounts to the one that got furthest, and touches no row. */
  lemma {:induction false} CrashesCollapse(a: Account, events: seq<Event>)
    requires AllCrashes(events)
    ensures Run(a, events) ==
            a.(stripe := CreateAll(a.stripe, ReportItems(a)[..MaxSent(events, |ReportItems(a)|)]))
  {
    var items := ReportItems(a);
    if events == [] {
      assert items[..0] == [];
    } else {
      var init, e := events[..|events| - 1], events[|events| - 1];
      CrashesCollapse(a, init);
      var m := MaxSent(init, |items|);
      SameRowsSameItems(a, CreateAll(a.stripe, items[..m]));
      CreatePrefixTwice(a.stripe, items, m, Min(e.sent, |items|));
    }
  }

  /** Items that a full report would add anyway do not show after it. */
  lemma SameReport(a: Account, log: seq<InvoiceItem>)
    requires CreateAll(log, ReportItems(a)) == CreateAll(a.stripe, ReportItems(a))
    ensures Report(a.(stripe := log)) == Report(a)
  {
    SameRowsSameItems(a, log);
    if ReportItems(a) == [] || OpenRecord(a).None? {
      ReportItemsShape(a);
      assert log == a.stripe;
    }
  }

  /** Retrying to completion after any crashes leaves Stripe and the rows as one uninterrupted report does. */
  lemma ReplaySafety(a: Account, crashes: seq<Event>)
    requires AllCrashes(crashes)
    ensures Report(Run(a, crashes)) == Report(a)
  {
    CrashesCollapse(a, crashes);
    var items := ReportItems(a);
    var m := MaxSent(crashes, |items|);
    CreateAllAfterPrefix(a.stripe, items, m);
    SameReport(a, CreateAll(a.stripe, items[..m]));
  }

  /** No item of the current period was created for a count above the high-water mark. */
  ghost predicate KeysBelowMarks(a: Account, p: Instant)
    requires p in a.usage
  {
    forall i :: 0 <= i < |a.stripe| && a.stripe[i].key.period == Seconds(p) ==>
      a.stripe[i].key.snapshot <= a.usage[p].reported.At(a.stripe[i].key.category)
  }

  lemma FreshKey(a: Account, c: Category)
    requires OpenRecord(a).Some? && CategoryDelta(a, c) > 0
    requires KeysBelowMarks(a, a.sub.value.periodStart)
    ensures !HasKey(a.stripe, ReportKey(a, c))
  {
  }

  /** The rows with other counters and another plan, as a retry may find them. */
  function Changed(a: Account, counts: Counters, plan: Plan): Account
    requires OpenRecord(a).Some?
  {
    var p := a.sub.value.periodStart;
    a.(sub := Some(a.sub.value.(plan := plan)), usage := a.usage[p := a.usage[p].(count := counts)])
  }

  ghost predicate AtLeast(x: Counters, y: Counters) {
    forall c: Category :: x.At(c) >= y.At(c)
  }

  lemma PrefixSends(a: Account, items: seq<InvoiceItem>, k: nat, c: Category)
    requires OpenRecord(a).Some? && Sends(a, items) && k <= |items|
    ensures Sends(a, items[..k])
    ensures Mentions(items[..k], c) ==> Mentions(items, c)
    ensures HasKey(items[..k], ReportKey(a, c)) <==> Mentions(items[..k], c)
  {
    if i :| 0 <= i < k && items[..k][i].key.category == c {
      assert items[i].key.category == c && items[..k][i].key == ReportKey(a, c);
    }
    if i :| 0 <= i < k && items[..k][i].key == ReportKey(a, c) {
      assert items[..k][i].key.category == c;
    }
  }

  /** Units Stripe holds for `c` once a full report on `g` follows an interrupted one on `a`. */
  lemma UnitsOfBoth(a: Account, items: seq<InvoiceItem>, g: Account, later: seq<InvoiceItem>, c: Category)
    requires OpenRecord(a).Some? && OpenRecord(g).Some? && a.stripe == g.stripe
    requires a.sub.value.periodStart == g.sub.value.periodStart
    requires Sends(a, items) && Sends(g, later)
    requires Mentions(later, c) <==> CategoryDelta(g, c) > 0
    requires HasKey(items, ReportKey(a, c)) <==> Mentions(items, c)
    requires HasKey(items, ReportKey(g, c)) ==> ReportKey(g, c) == ReportKey(a, c)
    ensures
      var period, sent := Seconds(a.sub.value.periodStart), Mentions(items, c) && !HasKey(a.stripe, ReportKey(a, c));
      var again := sent && ReportKey(g, c) == ReportKey(a, c);
      BilledUnits(CreateAll(CreateAll(a.stripe, items), later), period, c) + (if again then CategoryDelta(g, c) else 0)
      == BilledUnits(CreateAll(a.stripe, later), period, c) + (if sent then CategoryDelta(a, c) else 0)
  {
    var log := CreateAll(a.stripe, items);
    CreateAllSends(a.stripe, a, items, c);
    CreateAllSends(log, g, later, c);
    CreateAllSends(a.stripe, g, later, c);
    CreateAllHasKey(a.stripe, items, ReportKey(g, c));
  }

  lemma SentKeys(a: Account, g: Account, sent: seq<InvoiceItem>, c: Category)
    requires OpenRecord(a).Some? && OpenRecord(g).Some? && Sends(a, sent)
    requires a.sub.value.periodStart == g.sub.value.periodStart
    ensures HasKey(sent, ReportKey(g, c)) ==> ReportKey(g, c) == ReportKey(a, c)
  {
  }

  /** The crashed attempts created the item of `c`: they got that far, and its key was not known before. */
  ghost predicate Sent(a: Account, crashes: seq<Event>, c: Category)
    requires OpenRecord(a).Some?
  {
    Mentions(ReportItems(a)[..MaxSent(crashes, |ReportItems(a)|)], c) && !HasKey(a.stripe, ReportKey(a, c))
  }

  /**
   A retry that finds any other counters and any other pay-as-you-go plan, whatever Stripe held before:
   a category whose item the crashes created is charged the old delta, and the new one too unless the
   counter, and so the key, is the same; every other category is charged as without the crashes.
   */
  lemma ReplayAfterChange(a: Account, crashes: seq<Event>, counts: Counters, plan: Plan, c: Category)
    requires AllCrashes(crashes) && GetPlanConfig(plan).payAsYouGo
    requires OpenRecord(a).Some? && a.sub.value.customer.Some?
    ensures OpenRecord(Run(a, crashes)).Some?
    ensures
      var period, g, b := Seconds(a.sub.value.periodStart), Changed(a, counts, plan), Changed(Run(a, crashes), counts, plan);
      var again := Sent(a, crashes, c) && counts.At(c) == OpenRecord(a).value.count.At(c);
      BilledUnits(Report(b).stripe, period, c) + (if again then CategoryDelta(g, c) else 0)
      == BilledUnits(Report(g).stripe, period, c) + (if Sent(a, crashes, c) then CategoryDelta(a, c) else 0)
  {
    CrashesCollapse(a, crashes);
    var items := ReportItems(a);
    var k, g := MaxSent(crashes, |items|), Changed(a, counts, plan);
    var log := CreateAll(a.stripe, items[..k]);
    ReportItemsShape(a);
    ReportItemsShape(g);
    PrefixSends(a, items, k, c);
    SameRowsSameItems(a, log);
    SameRowsSameItems(g, log);
    var b := Changed(Run(a, crashes), counts, plan);
    assert b == g.(stripe := log);
    SentKeys(a, g, items[..k], c);
    UnitsOfBoth(a, items[..k], g, ReportItems(g), c);
    ReportStripeIs(b);
    ReportStripeIs(g);
  }

  /**
   The retry is exact for a category if and only if the crashes did not create its item, or neither its
   counter nor the point from which it bills has moved since.
   */
  lemma ReplayExactIff(a: Account, crashes: seq<Event>, counts: Counters, plan: Plan, c: Category)
    requires AllCrashes(crashes) && GetPlanConfig(plan).payAsYouGo
    requires OpenRecord(a).Some? && a.sub.value.customer.Some?
    ensures OpenRecord(Run(a, crashes)).Some?
    ensures
      var period, r := Seconds(a.sub.value.periodStart), OpenRecord(a).value;
      BilledUnits(Report(Changed(Run(a, crashes), counts, plan)).stripe, period, c)
      == BilledUnits(Report(Changed(a, counts, plan)).stripe, period, c)
      <==> (Sent(a, crashes, c) ==>
              && counts.At(c) == r.count.At(c)
              && Max(r.reported.At(c), BaseUnits(plan, c)) == Max(r.reported.At(c), BaseUnits(a.sub.value.plan, c)))
  {
    var r := OpenRecord(a).value;
    ReplayAfterChange(a, crashes, counts, plan, c);
    SentDelta(a, crashes, c);
    ChangedDelta(a, counts, plan, c);
    if Sent(a, crashes, c) && counts.At(c) == r.count.At(c) {
      SameDelta(r.count.At(c), r.reported.At(c), BaseUnits(a.sub.value.plan, c), BaseUnits(plan, c));
    }
  }

  lemma SentDelta(a: Account, crashes: seq<Event>, c: Category)
    requires OpenRecord(a).Some? && a.sub.value.customer.Some?
    ensures Sent(a, crashes, c) ==> CategoryDelta(a, c) > 0
  {
    ReportItemsShape(a);
    PrefixSends(a, ReportItems(a), MaxSent(crashes, |ReportItems(a)|), c);
  }

  lemma ChangedDelta(a: Account, counts: Counters, plan: Plan, c: Category)
    requires OpenRecord(a).Some? && GetPlanConfig(plan).payAsYouGo
    ensures CategoryDelta(a, c)
            == Delta(OpenRecord(a).value.count.At(c), OpenRecord(a).value.reported.At(c), BaseUnits(a.sub.value.plan, c))
    ensures CategoryDelta(Changed(a, counts, plan), c)
            == Delta(counts.At(c), OpenRecord(a).value.reported.At(c), BaseUnits(plan, c))
  {
  }

  lemma SameDelta(count: nat, mark: nat, base: nat, later: nat)
    requires Delta(count, mark, base) > 0
    ensures Delta(count, mark, later) == Delta(count, mark, base) <==> Max(mark, later) == Max(mark, base)
  {
  }

  // -- What an event does to one period ----------------------------------------

  /** The event's rows are committed. */
  predicate Commits(a: Account, e: Event) {
    match e
    case Crash(_) => false
    case Deleted(_, now, _) => now !in a.usage
    case _ => true
  }

  /** The event's report sends items for period `p`. */
  predicate Targets(a: Account, e: Event, p: Instant) {
    Reports(a, e) && ReportItems(a) != [] && OpenRecord(a).Some? && a.sub.value.periodStart == p
  }

  /** The event completes a report that sends items for period `p`. */
  predicate Charges(a: Account, e: Event, p: Instant) {
    Targets(a, e, p) && Commits(a, e)
  }

  /** Two different current periods never share a whole second with `p`. */
  predicate OwnSecond(a: Account, p: Instant) {
    a.sub.Some? && a.sub.value.periodStart != p ==> Seconds(a.sub.value.periodStart) != Seconds(p)
  }

  lemma StepStripe(a: Account, e: Event)
    requires !e.Crash?
    ensures Step(a, e).stripe == if Reports(a, e) then Report(a).stripe else a.stripe
  {
  }

  lemma ReportRecord(a: Account, p: Instant)
    requires p in a.usage
    ensures p in Report(a).usage && Report(a).usage[p].count == a.usage[p].count
    ensures Report(a).usage[p].reported
            == if ReportItems(a) != [] && OpenRecord(a).Some? && a.sub.value.periodStart == p
               then a.usage[p].count else a.usage[p].reported
  {
  }

  /** An increment raises a counter of the current period and touches nothing else of any record. */
  lemma IncrementRecord(a: Account, c: Category, n: nat, p: Instant)
    requires p in a.usage
    ensures p in CheckAndIncrement(a, c, n).usage
    ensures CheckAndIncrement(a, c, n).usage[p].reported == a.usage[p].reported
    ensures AtLeast(CheckAndIncrement(a, c, n).usage[p].count, a.usage[p].count)
  {
  }

  /** Closing and opening periods leaves the counters and marks of a record alone. */
  lemma PaidRecord(a: Account, e: Event, p: Instant)
    requires p in a.usage && e.Paid?
    ensures p in Step(a, e).usage && Step(a, e).usage[p].count == a.usage[p].count
    ensures Step(a, e).usage[p].reported == if Reports(a, e) then Report(a).usage[p].reported else a.usage[p].reported
  {
    ReportRecord(a, p);
  }

  lemma DeletedRecord(a: Account, e: Event, p: Instant)
    requires p in a.usage && e.Deleted?
    ensures p in Step(a, e).usage && Step(a, e).usage[p].count == a.usage[p].count
    ensures Step(a, e).usage[p].reported
            == if Reports(a, e) && Commits(a, e) then Report(a).usage[p].reported else a.usage[p].reported
  {
    ReportRecord(a, p);
  }

  /** The mark moves with a charging report, to the count, and with nothing else; counters never fall. */
  lemma StepRecord(a: Account, e: Event, p: Instant)
    requires p in a.usage
    ensures p in Step(a, e).usage
    ensures Step(a, e).usage[p].reported == if Charges(a, e, p) then a.usage[p].count else a.usage[p].reported
    ensures AtLeast(Step(a, e).usage[p].count, a.usage[p].count)
  {
    ReportRecord(a, p);
    match e
    case Increment(c, n) => IncrementRecord(a, c, n, p);
    case Failed(c, n, _) => IncrementRecord(a, c, n, p);
    case Paid(_, _, _, _, _, _) => PaidRecord(a, e, p);
    case Deleted(_, _, _) => DeletedRecord(a, e, p);
    case _ =>
  }

  lemma StepPeriodItems(a: Account, e: Event, p: Instant)
    requires p in a.usage && !e.Crash? && OwnSecond(a, p)
    ensures !Targets(a, e, p) ==> PeriodItems(Step(a, e).stripe, Seconds(p)) == PeriodItems(a.stripe, Seconds(p))
  {
    StepStripe(a, e);
    ReportItemsShape(a);
    if Reports(a, e) && ReportItems(a) != [] && a.sub.value.periodStart != p {
      CreateAllOtherPeriod(a.stripe, ReportItems(a), Seconds(p));
    }
  }

  /** Marks of a committed step's period bound its keys before and after. */
  lemma StepKeys(a: Account, e: Event, p: Instant)
    requires p in a.usage && Commits(a, e) && OwnSecond(a, p)
    requires KeysBelowMarks(a, p) && AtLeast(a.usage[p].count, a.usage[p].reported)
    ensures p in Step(a, e).usage && KeysBelowMarks(Step(a, e), p)
  {
    StepStripe(a, e);
    StepRecord(a, e, p);
    ReportItemsShape(a);
    var b := Step(a, e);
    forall i | 0 <= i < |b.stripe| && b.stripe[i].key.period == Seconds(p)
      ensures b.stripe[i].key.snapshot <= b.usage[p].reported.At(b.stripe[i].key.category)
    {
      var k := b.stripe[i].key;
      assert HasKey(b.stripe, k);
      CreateAllHasKey(a.stripe, ReportItems(a), k);
      assert HasKey(a.stripe, k) || (Reports(a, e) && HasKey(ReportItems(a), k));
      if !HasKey(a.stripe, k) {
        var j :| 0 <= j < |ReportItems(a)| && ReportItems(a)[j].key == k;
        assert Charges(a, e, p);
      }
    }
  }

  // -- Marks over any run --------------------------------------------------------

  ghost predicate Marked(a: Account, p: Instant) {
    p in a.usage ==> AtLeast(a.usage[p].count, a.usage[p].reported)
  }

  lemma NewRecord(a: Account, e: Event, p: Instant)
    requires p !in a.usage && p in Step(a, e).usage
    ensures Step(a, e).usage[p].reported == ZERO
  {
    ReportItemsShape(a);
  }

  lemma MarkedStep(a: Account, e: Event, p: Instant)
    requires Marked(a, p)
    ensures Marked(Step(a, e), p)
  {
    if p in a.usage {
      StepRecord(a, e, p);
    } else if p in Step(a, e).usage {
      NewRecord(a, e, p);
    }
  }

  lemma {:induction false} MarkedRun(a: Account, events: seq<Event>, p: Instant)
    requires Marked(a, p)
    ensures Marked(Run(a, events), p)
  {
    if events != [] {
      MarkedRun(a, events[..|events| - 1], p);
      MarkedStep(Run(a, events[..|events| - 1]), events[|events| - 1], p);
    }
  }

  /** Whatever happens, crashes included, no counter and no mark of a period ever falls. */
  lemma {:induction false} MarksNeverFall(a: Account, events: seq<Event>, p: Instant, i: nat)
    requires Marked(a, p) && i <= |events| && p in Run(a, events[..i]).usage
    ensures p in Run(a, events).usage
    ensures AtLeast(Run(a, events).usage[p].reported, Run(a, events[..i]).usage[p].reported)
    ensures AtLeast(Run(a, events).usage[p].count, Run(a, events[..i]).usage[p].count)
  {
    if i == |events| {
      assert events[..i] == events;
    } else {
      var init := events[..|events| - 1];
      assert init[..i] == events[..i];
      MarksNeverFall(a, init, p, i);
      MarkedRun(a, init, p);
      StepRecord(Run(a, init), events[|events| - 1], p);
    }
  }

  // -- Crashes inside runs -----------------------------------------------------

  /** Whatever event the retry arrives as, its outcome is that of the event on the rows before the crashes. */
  lemma RetriedEvent(a: Account, crashes: seq<Event>, e: Event)
    requires AllCrashes(crashes) && Reports(a, e)
    ensures Step(Run(a, crashes), e) == Step(a, e)
  {
    ReplaySafety(a, crashes);
    CrashesCollapse(a, crashes);
    var log := CreateAll(a.stripe, ReportItems(a)[..MaxSent(crashes, |ReportItems(a)|)]);
    SameRowsSameItems(a, log);
    SameRowsSameStep(a, log, e);
  }

  /** A reporting event depends on Stripe's items only through its report. */
  lemma SameRowsSameStep(a: Account, log: seq<InvoiceItem>, e: Event)
    requires Reports(a, e) && Report(a.(stripe := log)) == Report(a)
    ensures Step(a.(stripe := log), e) == Step(a, e)
  {
  }

  lemma {:induction false} RunAppend(a: Account, first: seq<Event>, later: seq<Event>)
    ensures Run(a, first + later) == Run(Run(a, first), later)
  {
    if later == [] {
      assert first + later == first;
    } else {
      assert (first + later)[..|first + later| - 1] == first + later[..|later| - 1];
      RunAppend(a, first, later[..|later| - 1]);
    }
  }

  /**
   A block of crashed attempts followed by a completed retry can be struck out of any run, so
   everything proved of clean runs holds of runs with such blocks.
   */
  lemma CrashesLeaveNoTrace(a: Account, before: seq<Event>, crashes: seq<Event>, e: Event, after: seq<Event>)
    requires AllCrashes(crashes) && Reports(Run(a, before), e)
    ensures Run(a, before + crashes + [e] + after) == Run(a, before + [e] + after)
  {
    var m := Run(a, before);
    RunAppend(a, before, crashes);
    RetriedEvent(m, crashes, e);
    assert (before + crashes + [e])[..|before + crashes|] == before + crashes;
    assert (before + [e])[..|before|] == before;
    RunAppend(a, before + crashes + [e], after);
    RunAppend(a, before + [e], after);
  }

  // -- No unit is billed twice -------------------------------------------------

  predicate Above(u: nat, lo: nat) { u > lo }

  /** The unit indices lo + 1, ..., hi. */
  function Interval(lo: nat, hi: nat): set<nat> {
    set u: nat | u <= hi && Above(u, lo)
  }

  /** Indices of the units the event bills: above the last mark and above the base in force. */
  ghost function UnitsBilledBy(a: Account, e: Event, p: Instant, c: Category): set<nat> {
    if !Charges(a, e, p) then {}
    else
      var r, base := OpenRecord(a).value, BaseUnits(a.sub.value.plan, c);
      Interval(Max(r.reported.At(c), base), r.count.At(c))
  }

  ghost function UnitsBilled(a: Account, events: seq<Event>, p: Instant, c: Category): set<nat> {
    if events == [] then {}
    else
      var init := events[..|events| - 1];
      UnitsBilled(a, init, p, c) + UnitsBilledBy(Run(a, init), events[|events| - 1], p, c)
  }

  /** Every event commits, and no other period shares the second of `p`. */
  ghost predicate CleanRun(a: Account, events: seq<Event>, p: Instant) {
    events == [] ||
    var init := events[..|events| - 1];
    CleanRun(a, init, p) && Commits(Run(a, init), events[|events| - 1]) && OwnSecond(Run(a, init), p)
  }

  /** A period as it is opened: nothing reported, nothing created for it. */
  ghost predicate Opened(a: Account, p: Instant) {
    p in a.usage && a.usage[p].reported == ZERO && PeriodItems(a.stripe, Seconds(p)) == []
  }

  lemma {:induction false} IntervalSize(lo: nat, hi: nat)
    ensures |Interval(lo, hi)| == Over(hi, lo)
  {
    if lo < hi {
      IntervalSize(lo, hi - 1);
      assert Interval(lo, hi) == Interval(lo, hi - 1) + {hi};
    } else {
      assert Interval(lo, hi) == {};
    }
  }

  lemma UnitsBilledBySize(a: Account, e: Event, p: Instant, c: Category)
    ensures |UnitsBilledBy(a, e, p, c)| == if Charges(a, e, p) then CategoryDelta(a, c) else 0
  {
    if Charges(a, e, p) {
      var r, base := OpenRecord(a).value, BaseUnits(a.sub.value.plan, c);
      IntervalSize(Max(r.reported.At(c), base), r.count.At(c));
    }
  }

  lemma {:induction false} NoPeriodItems(log: seq<InvoiceItem>, period: nat)
    requires PeriodItems(log, period) == []
    ensures forall i :: 0 <= i < |log| ==> log[i].key.period != period
  {
    if log != [] { NoPeriodItems(log[..|log| - 1], period); }
  }

  /** What holds of period `p` after every clean run from its opening. */
  ghost predicate Accounted(a: Account, events: seq<Event>, p: Instant) {
    var b := Run(a, events);
    && p in b.usage
    && KeysBelowMarks(b, p)
    && AtLeast(b.usage[p].count, b.usage[p].reported)
    && forall c: Category ::
         && BilledUnits(b.stripe, Seconds(p), c) == |UnitsBilled(a, events, p, c)|
         && UnitsBilled(a, events, p, c) <= Interval(0, b.usage[p].reported.At(c))
  }

  /**
   Through any upgrades, downgrades, jobs and webhooks, the units Stripe was asked to bill for a
   period are as many as the distinct unit indices billed, all at or below the mark.
   */
  lemma {:induction false} EveryRunAccounted(a: Account, events: seq<Event>, p: Instant)
    requires Opened(a, p) && CleanRun(a, events, p)
    ensures Accounted(a, events, p)
  {
    if events == [] {
      NoPeriodItems(a.stripe, Seconds(p));
      forall c: Category ensures BilledUnits(a.stripe, Seconds(p), c) == 0 {
        BilledFromPeriodItems(a.stripe, Seconds(p), c);
      }
    } else {
      var init, e := events[..|events| - 1], events[|events| - 1];
      var m := Run(a, init);
      EveryRunAccounted(a, init, p);
      StepRecord(m, e, p);
      StepKeys(m, e, p);
      StepStripe(m, e);
      if !Charges(m, e, p) { StepPeriodItems(m, e, p); }
      forall c: Category
        ensures BilledUnits(Step(m, e).stripe, Seconds(p), c) == |UnitsBilled(a, events, p, c)|
        ensures UnitsBilled(a, events, p, c) <= Interval(0, Step(m, e).usage[p].reported.At(c))
      {
        BillsOnward(m, e, p, c, UnitsBilled(a, init, p, c), Step(m, e));
      }
    }
  }

  /** A report bills exactly its delta, since its key is new. */
  lemma ChargeBillsDelta(m: Account, p: Instant, c: Category)
    requires OpenRecord(m).Some? && m.sub.value.customer.Some? && m.sub.value.periodStart == p && KeysBelowMarks(m, p)
    ensures BilledUnits(Report(m).stripe, Seconds(p), c) == BilledUnits(m.stripe, Seconds(p), c) + CategoryDelta(m, c)
  {
    ReportItemsShape(m);
    ReportStripeIs(m);
    CreateAllSends(m.stripe, m, ReportItems(m), c);
    if CategoryDelta(m, c) > 0 { FreshKey(m, c); }
  }

  /** Units a step would bill lie above the mark it finds. */
  lemma BilledAboveMark(m: Account, e: Event, p: Instant, c: Category)
    requires p in m.usage
    ensures UnitsBilledBy(m, e, p, c) !! Interval(0, m.usage[p].reported.At(c))
    ensures Charges(m, e, p) && CategoryDelta(m, c) > 0 ==> m.usage[p].count.At(c) in UnitsBilledBy(m, e, p, c)
  {
  }

  lemma BilledUpToCount(m: Account, e: Event, p: Instant, c: Category)
    requires p in m.usage
    ensures UnitsBilledBy(m, e, p, c) <= Interval(0, m.usage[p].count.At(c))
  {
  }

  lemma DisjointUnion(x: set<nat>, y: set<nat>, n: nat, m: nat)
    requires x <= Interval(0, n) && y !! Interval(0, n) && y <= Interval(0, m) && n <= m
    ensures x !! y && |x + y| == |x| + |y| && x + y <= Interval(0, m)
  {
    IntervalGrows(n, m);
  }

  lemma BillsCharge(m: Account, e: Event, p: Instant, c: Category, billed: set<nat>)
    requires p in m.usage && KeysBelowMarks(m, p) && AtLeast(m.usage[p].count, m.usage[p].reported) && Charges(m, e, p)
    requires BilledUnits(m.stripe, Seconds(p), c) == |billed| && billed <= Interval(0, m.usage[p].reported.At(c))
    ensures billed !! UnitsBilledBy(m, e, p, c)
    ensures BilledUnits(Report(m).stripe, Seconds(p), c) == |billed + UnitsBilledBy(m, e, p, c)|
    ensures billed + UnitsBilledBy(m, e, p, c) <= Interval(0, m.usage[p].count.At(c))
  {
    UnitsBilledBySize(m, e, p, c);
    BilledAboveMark(m, e, p, c);
    BilledUpToCount(m, e, p, c);
    ReportItemsShape(m);
    ChargeBillsDelta(m, p, c);
    assert m.usage[p].count.At(c) >= m.usage[p].reported.At(c);
    DisjointUnion(billed, UnitsBilledBy(m, e, p, c), m.usage[p].reported.At(c), m.usage[p].count.At(c));
  }

  /** `billed` grows by the step's own units, which are new, and still counts what Stripe holds. */
  lemma BillsOnward(m: Account, e: Event, p: Instant, c: Category, billed: set<nat>, n: Account)
    requires p in m.usage && p in n.usage && KeysBelowMarks(m, p) && AtLeast(m.usage[p].count, m.usage[p].reported)
    requires Charges(m, e, p) ==> n.stripe == Report(m).stripe && n.usage[p].reported == m.usage[p].count
    requires !Charges(m, e, p) ==> PeriodItems(n.stripe, Seconds(p)) == PeriodItems(m.stripe, Seconds(p))
                                   && n.usage[p].reported == m.usage[p].reported
    requires BilledUnits(m.stripe, Seconds(p), c) == |billed| && billed <= Interval(0, m.usage[p].reported.At(c))
    ensures billed !! UnitsBilledBy(m, e, p, c)
    ensures BilledUnits(n.stripe, Seconds(p), c) == |billed + UnitsBilledBy(m, e, p, c)|
    ensures billed + UnitsBilledBy(m, e, p, c) <= Interval(0, n.usage[p].reported.At(c))
  {
    if Charges(m, e, p) {
      BillsCharge(m, e, p, c, billed);
    } else {
      BilledFromPeriodItems(m.stripe, Seconds(p), c);
      BilledFromPeriodItems(n.stripe, Seconds(p), c);
      assert billed + UnitsBilledBy(m, e, p, c) == billed;
    }
  }

  /** What an earlier report billed is at or below every later mark, whatever came between. */
  lemma BilledBelowLaterMark(a: Account, events: seq<Event>, p: Instant, c: Category, i: nat, j: nat)
    requires Marked(a, p) && i < j <= |events| && Charges(Run(a, events[..i]), events[i], p)
    ensures p in Run(a, events[..j]).usage
    ensures UnitsBilledBy(Run(a, events[..i]), events[i], p, c)
            <= Interval(0, Run(a, events[..j]).usage[p].reported.At(c))
  {
    var m, n := Run(a, events[..i]), Run(a, events[..j]);
    StepRecord(m, events[i], p);
    assert events[..i + 1][..i] == events[..i];
    assert events[..j][..i + 1] == events[..i + 1];
    MarksNeverFall(a, events[..j], p, i + 1);
    BilledUpToCount(m, events[i], p, c);
    assert n.usage[p].reported.At(c) >= m.usage[p].count.At(c);
    IntervalGrows(m.usage[p].count.At(c), n.usage[p].reported.At(c));
  }

  lemma IntervalGrows(m: nat, n: nat)
    requires m <= n
    ensures Interval(0, m) <= Interval(0, n)
  {
  }

  /**
   Two different reports of one run never bill the same unit: over any run, whatever plans were in
   force and wherever attempts were interrupted.
   */
  lemma NoUnitBilledTwice(a: Account, events: seq<Event>, p: Instant, c: Category, i: nat, j: nat)
    requires Marked(a, p) && i < j < |events|
    ensures UnitsBilledBy(Run(a, events[..i]), events[i], p, c) !! UnitsBilledBy(Run(a, events[..j]), events[j], p, c)
  {
    if Charges(Run(a, events[..i]), events[i], p) {
      BilledBelowLaterMark(a, events, p, c, i, j);
      BilledAboveMark(Run(a, events[..j]), events[j], p, c);
    }
  }

  /** Two completed reports of one run never charge a category under the same idempotency key, crashes or not. */
  lemma KeysNeverSwallowCharges(a: Account, events: seq<Event>, p: Instant, c: Category, i: nat, j: nat)
    requires Marked(a, p) && i < j < |events|
    requires Charges(Run(a, events[..i]), events[i], p) && CategoryDelta(Run(a, events[..i]), c) > 0
    requires Charges(Run(a, events[..j]), events[j], p) && CategoryDelta(Run(a, events[..j]), c) > 0
    ensures ReportKey(Run(a, events[..i]), c) != ReportKey(Run(a, events[..j]), c)
  {
    BilledBelowLaterMark(a, events, p, c, i, j);
    KeysDiffer(Run(a, events[..i]), events[i], Run(a, events[..j]), events[j], p, c);
  }

  lemma KeysDiffer(m: Account, d: Event, n: Account, e: Event, p: Instant, c: Category)
    requires p in m.usage && p in n.usage
    requires Charges(m, d, p) && CategoryDelta(m, c) > 0 && Charges(n, e, p) && CategoryDelta(n, c) > 0
    requires UnitsBilledBy(m, d, p, c) <= Interval(0, n.usage[p].reported.At(c))
    ensures ReportKey(m, c) != ReportKey(n, c)
  {
    BilledAboveMark(m, d, p, c);
    assert m.usage[p].count.At(c) in Interval(0, n.usage[p].reported.At(c));
  }

  /** While nothing was interrupted, the key of every due charge is one that Stripe does not know. */
  lemma KeysAreNew(a: Account, events: seq<Event>, p: Instant, c: Category)
    requires Opened(a, p) && CleanRun(a, events, p)
    requires OpenRecord(Run(a, events)).Some? && Run(a, events).sub.value.periodStart == p
    requires CategoryDelta(Run(a, events), c) > 0
    ensures !HasKey(Run(a, events).stripe, ReportKey(Run(a, events), c))
  {
    EveryRunAccounted(a, events, p);
    FreshKey(Run(a, events), c);
  }

  // -- Conservation ------------------------------------------------------------

  /** Every report of the run bills against at least `base` included units. */
  ghost predicate BaseAtLeast(a: Account, events: seq<Event>, p: Instant, c: Category, base: nat) {
    events == [] ||
    var init := events[..|events| - 1];
    && BaseAtLeast(a, init, p, c, base)
    && (Charges(Run(a, init), events[|events| - 1], p) ==> BaseUnits(Run(a, init).sub.value.plan, c) >= base)
  }

  /** Every report of the run bills against exactly `base` included units. */
  ghost predicate BaseIs(a: Account, events: seq<Event>, p: Instant, c: Category, base: nat) {
    events == [] ||
    var init := events[..|events| - 1];
    && BaseIs(a, init, p, c, base)
    && (Charges(Run(a, init), events[|events| - 1], p) ==> BaseUnits(Run(a, init).sub.value.plan, c) == base)
  }

  lemma UnitsAboveBase(m: Account, e: Event, p: Instant, c: Category, base: nat)
    requires Charges(m, e, p) ==> BaseUnits(m.sub.value.plan, c) >= base
    ensures forall u :: u in UnitsBilledBy(m, e, p, c) ==> u > base
  {
  }

  lemma {:induction false} BilledAboveBase(a: Account, events: seq<Event>, p: Instant, c: Category, base: nat)
    requires BaseAtLeast(a, events, p, c, base)
    ensures forall u :: u in UnitsBilled(a, events, p, c) ==> u > base
  {
    if events != [] {
      var init := events[..|events| - 1];
      BilledAboveBase(a, init, p, c, base);
      UnitsAboveBase(Run(a, init), events[|events| - 1], p, c, base);
    }
  }

  /** Under changing plans the total billed is at most what the smallest base in force leaves over. */
  lemma PlanChangesNeverOverbill(a: Account, events: seq<Event>, p: Instant, c: Category, base: nat)
    requires Opened(a, p) && CleanRun(a, events, p) && BaseAtLeast(a, events, p, c, base)
    ensures p in Run(a, events).usage
    ensures BilledUnits(Run(a, events).stripe, Seconds(p), c) <= Over(Run(a, events).usage[p].count.At(c), base)
  {
    EveryRunAccounted(a, events, p);
    BilledAboveBase(a, events, p, c, base);
    BoundByMark(Run(a, events), p, c, base, UnitsBilled(a, events, p, c));
  }

  lemma BoundByMark(b: Account, p: Instant, c: Category, base: nat, billed: set<nat>)
    requires p in b.usage && AtLeast(b.usage[p].count, b.usage[p].reported)
    requires BilledUnits(b.stripe, Seconds(p), c) == |billed|
    requires billed <= Interval(0, b.usage[p].reported.At(c)) && forall u :: u in billed ==> u > base
    ensures BilledUnits(b.stripe, Seconds(p), c) <= Over(b.usage[p].count.At(c), base)
  {
    SubsetSize(billed, Interval(base, b.usage[p].reported.At(c)));
    IntervalSize(base, b.usage[p].reported.At(c));
  }

  /** With one base, a step extends a full interval of billed units to a full interval. */
  lemma StepFillsInterval(m: Account, e: Event, p: Instant, c: Category, base: nat)
    requires p in m.usage && AtLeast(m.usage[p].count, m.usage[p].reported)
    requires Charges(m, e, p) ==> BaseUnits(m.sub.value.plan, c) == base
    ensures Interval(base, m.usage[p].reported.At(c)) + UnitsBilledBy(m, e, p, c)
            == Interval(base, if Charges(m, e, p) then m.usage[p].count.At(c) else m.usage[p].reported.At(c))
  {
    if Charges(m, e, p) {
      assert m.usage[p].count.At(c) >= m.usage[p].reported.At(c);
    }
  }

  /** With one base throughout, however the reports split the period, the overage up to the mark is billed. */
  lemma {:induction false} FixedPlanBillsToMark(a: Account, events: seq<Event>, p: Instant, c: Category, base: nat)
    requires Opened(a, p) && CleanRun(a, events, p) && BaseIs(a, events, p, c, base)
    ensures Accounted(a, events, p)
    ensures UnitsBilled(a, events, p, c) == Interval(base, Run(a, events).usage[p].reported.At(c))
    ensures BilledUnits(Run(a, events).stripe, Seconds(p), c) == Over(Run(a, events).usage[p].reported.At(c), base)
  {
    EveryRunAccounted(a, events, p);
    if events != [] {
      var init, e := events[..|events| - 1], events[|events| - 1];
      FixedPlanBillsToMark(a, init, p, c, base);
      StepRecord(Run(a, init), e, p);
      StepFillsInterval(Run(a, init), e, p, c, base);
    }
    IntervalSize(base, Run(a, events).usage[p].reported.At(c));
  }

  lemma ReportKeepsCount(a: Account, e: Event, p: Instant)
    requires p in a.usage && Reports(a, e) && Commits(a, e)
    ensures p in Step(a, e).usage && Step(a, e).usage[p].count == a.usage[p].count
  {
  }

  /** `p` is the current, unbilled period of a paying customer with `base` included units. */
  ghost predicate Open(m: Account, p: Instant, c: Category, base: nat) {
    && OpenRecord(m).Some? && m.sub.value.customer.Some?
    && m.sub.value.periodStart == p && BaseUnits(m.sub.value.plan, c) == base
  }

  /** A report on the open period `p`. */
  ghost predicate ReportsOpen(m: Account, e: Event, p: Instant, c: Category, base: nat) {
    Reports(m, e) && Open(m, p, c, base)
  }

  /** A locked report leaves no overage above the mark. */
  lemma ReportCoversCount(m: Account, e: Event, p: Instant, c: Category, base: nat)
    requires p in m.usage && AtLeast(m.usage[p].count, m.usage[p].reported)
    requires Commits(m, e) && ReportsOpen(m, e, p, c, base)
    ensures p in Step(m, e).usage
    ensures Over(Step(m, e).usage[p].reported.At(c), base) == Over(Step(m, e).usage[p].count.At(c), base)
  {
    StepRecord(m, e, p);
    ReportKeepsCount(m, e, p);
    ReportItemsShape(m);
    assert m.usage[p].count.At(c) >= m.usage[p].reported.At(c);
    if ReportItems(m) == [] {
      assert !Mentions(ReportItems(m), c);
    }
  }

  /** After every locked report on an open period, the units billed are exactly max(0, count - included). */
  lemma Conservation(a: Account, events: seq<Event>, e: Event, p: Instant, c: Category, base: nat)
    requires Opened(a, p) && CleanRun(a, events + [e], p) && BaseIs(a, events + [e], p, c, base)
    requires ReportsOpen(Run(a, events), e, p, c, base)
    ensures p in Run(a, events + [e]).usage
    ensures BilledUnits(Run(a, events + [e]).stripe, Seconds(p), c)
            == Over(Run(a, events + [e]).usage[p].count.At(c), base)
  {
    assert (events + [e])[..|events|] == events;
    FixedPlanBillsToMark(a, events + [e], p, c, base);
    EveryRunAccounted(a, events, p);
    ReportCoversCount(Run(a, events), e, p, c, base);
  }

  /** The renewal invoice of the open period `p`. */
  ghost predicate Renews(m: Account, e: Event, p: Instant, c: Category, base: nat) {
    && e.Paid? && e.renewal && e.start != p && Subscribed(m, e.invoiceOf)
    && Open(m, p, c, base)
  }

  lemma RenewalRows(m: Account, e: Event, p: Instant, c: Category, base: nat)
    requires p in m.usage && Renews(m, e, p, c, base)
    ensures
      var b := Step(m, e);
      && p in b.usage && b.usage[p].billed && b.usage[p].invoice == Some(e.invoice)
      && b.usage[p].count == m.usage[p].count && b.sub.value.periodStart == e.start
      && e.start in b.usage && (e.start !in m.usage ==> b.usage[e.start] == FreshRecord(e.end))
  {
    ReportItemsShape(m);
  }

  /**
   The renewal invoice closes the period and opens the next. What it leaves unbilled is exactly the
   delta that a refused lock skipped: the period is exact if and only if the lock was granted or
   nothing was due.
   */
  lemma RenewalClosesPeriod(a: Account, events: seq<Event>, e: Event, p: Instant, c: Category, base: nat)
    requires Opened(a, p) && CleanRun(a, events + [e], p) && BaseIs(a, events + [e], p, c, base)
    requires Renews(Run(a, events), e, p, c, base)
    ensures
      var m, b := Run(a, events), Run(a, events + [e]);
      && p in b.usage && b.usage[p].billed && b.usage[p].invoice == Some(e.invoice)
      && b.sub.value.periodStart == e.start && e.start in b.usage
      && BilledUnits(b.stripe, Seconds(p), c) + (if e.lock then 0 else CategoryDelta(m, c))
         == Over(b.usage[p].count.At(c), base)
  {
    assert (events + [e])[..|events|] == events;
    var m := Run(a, events);
    FixedPlanBillsToMark(a, events, p, c, base);
    RenewalRows(m, e, p, c, base);
    if e.lock {
      Conservation(a, events, e, p, c, base);
    } else {
      UnlockedRenewal(m, e, p, c, base);
      BilledFromPeriodItems(m.stripe, Seconds(p), c);
      BilledFromPeriodItems(Step(m, e).stripe, Seconds(p), c);
    }
  }

  lemma UnlockedRenewal(m: Account, e: Event, p: Instant, c: Category, base: nat)
    requires p in m.usage && Renews(m, e, p, c, base) && !e.lock && AtLeast(m.usage[p].count, m.usage[p].reported)
    ensures Step(m, e).stripe == m.stripe
    ensures Over(m.usage[p].reported.At(c), base) + CategoryDelta(m, c) == Over(m.usage[p].count.At(c), base)
  {
    assert m.usage[p].count.At(c) >= m.usage[p].reported.At(c);
  }

  // -- What an interruption can do -----------------------------------------------

  /** A PRO customer's first period with `n` traces counted and nothing reported. */
  function ProAccount(n: nat): Account {
    Account(Some(Subscription(Pro, Active, Some("cus"), Some("sub"), 0, 30 * DAY, None)),
            map[0 := UsageRecord(Counters(n, 0, 0), ZERO, false, None, 30 * DAY)], [])
  }

  lemma ProAccountItems(n: nat, log: seq<InvoiceItem>)
    requires n > 5_000
    ensures ReportItems(ProAccount(n).(stripe := log))
            == [InvoiceItem(ItemKey(0, Traces, n), n - 5_000, RoundHalfUp(OVERAGE_UNIT_PRICE * (n - 5_000)))]
  {
  }

  lemma CreateOne(log: seq<InvoiceItem>, item: InvoiceItem)
    ensures CreateAll(log, [item]) == Create(log, item)
  {
    assert [item][..0] == [];
  }

  function OverageItem(n: nat): InvoiceItem
    requires n > 5_000
  {
    InvoiceItem(ItemKey(0, Traces, n), n - 5_000, RoundHalfUp(OVERAGE_UNIT_PRICE * (n - 5_000)))
  }

  lemma ProCrash(n: nat)
    requires n > 5_000
    ensures Step(ProAccount(n), Crash(1)) == ProAccount(n).(stripe := [OverageItem(n)])
  {
    ProAccountItems(n, []);
    assert ProAccount(n).(stripe := []) == ProAccount(n);
    assert [OverageItem(n)][..1] == [OverageItem(n)];
    CreateOne([], OverageItem(n));
  }

  lemma ProReport(n: nat, log: seq<InvoiceItem>)
    requires n > 5_000 && !HasKey(log, ItemKey(0, Traces, n))
    ensures Step(ProAccount(n).(stripe := log), BillJob(true)).stripe == log + [OverageItem(n)]
  {
    ProAccountItems(n, log);
    CreateOne(log, OverageItem(n));
  }

  lemma ProIncrement(n: nat, log: seq<InvoiceItem>)
    ensures Step(ProAccount(n).(stripe := log), Increment(Traces, 1)) == ProAccount(n + 1).(stripe := log)
  {
  }

  /** A crash after the item for `n` traces, one more trace, then a full report: the old overage is billed twice. */
  lemma CrashThenGrowthDoubleBills(n: nat)
    requires n > 5_000
    ensures
      var crashed := Step(ProAccount(n), Crash(1));
      var after := Step(Step(crashed, Increment(Traces, 1)), BillJob(true));
      BilledUnits(after.stripe, 0, Traces) == Over(n + 1, BaseUnits(Pro, Traces)) + Over(n, BaseUnits(Pro, Traces))
  {
    ProCrash(n);
    ProIncrement(n, [OverageItem(n)]);
    ProReport(n + 1, [OverageItem(n)]);
    TwoItems(n);
  }

  lemma TwoItems(n: nat)
    requires n > 5_000
    ensures BilledUnits([OverageItem(n)] + [OverageItem(n + 1)], 0, Traces)
            == Over(n + 1, BaseUnits(Pro, Traces)) + Over(n, BaseUnits(Pro, Traces))
  {
    CreateAppends([OverageItem(n)], OverageItem(n + 1), 0, Traces);
    CreateAppends([], OverageItem(n), 0, Traces);
    assert [] + [OverageItem(n)] == [OverageItem(n)];
  }

  /** The upgrade webhook, which leaves the period as it is. */
  function Upgrade(): Event {
    Updated("sub", Active, Some(Startup), None, None, None)
  }

  function StartupAccount(n: nat): Account {
    ProAccount(n).(sub := Some(ProAccount(n).sub.value.(plan := Startup)))
  }

  lemma StartupReport(n: nat, log: seq<InvoiceItem>)
    requires n > 50_000
    ensures Step(StartupAccount(n).(stripe := log), BillJob(true)).stripe
            == Create(log, InvoiceItem(ItemKey(0, Traces, n), n - 50_000, RoundHalfUp(OVERAGE_UNIT_PRICE * (n - 50_000))))
  {
    var item := InvoiceItem(ItemKey(0, Traces, n), n - 50_000, RoundHalfUp(OVERAGE_UNIT_PRICE * (n - 50_000)));
    assert ReportItems(StartupAccount(n).(stripe := log)) == [item];
    CreateOne(log, item);
  }

  /**
   An upgrade between the crash and the retry, with no new usage: the known key keeps the item of the
   smaller plan, and the 45,000 units that the larger one includes stay billed.
   */
  lemma CrashThenUpgradeOverbills(n: nat)
    requires n > 50_000
    ensures
      var crashed, smooth := Step(Step(ProAccount(n), Crash(1)), Upgrade()), Step(ProAccount(n), Upgrade());
      && BilledUnits(Step(crashed, BillJob(true)).stripe, 0, Traces) == n - 5_000
      && BilledUnits(Step(smooth, BillJob(true)).stripe, 0, Traces) == n - 50_000
  {
    ProCrash(n);
    assert Step(ProAccount(n).(stripe := [OverageItem(n)]), Upgrade()) == StartupAccount(n).(stripe := [OverageItem(n)]);
    assert Step(ProAccount(n), Upgrade()) == StartupAccount(n).(stripe := []);
    StartupReport(n, [OverageItem(n)]);
    StartupReport(n, []);
    assert HasKey([OverageItem(n)], ItemKey(0, Traces, n)) by { assert [OverageItem(n)][0].key == ItemKey(0, Traces, n); }
    OneItem(OverageItem(n));
    OneItem(InvoiceItem(ItemKey(0, Traces, n), n - 50_000, RoundHalfUp(OVERAGE_UNIT_PRICE * (n - 50_000))));
  }

  lemma OneItem(item: InvoiceItem)
    requires item.key.period == 0 && item.key.category == Traces
    ensures BilledUnits([item], 0, Traces) == item.units && [] + [item] == [item]
  {
    CreateAppends([], item, 0, Traces);
    assert [] + [item] == [item];
  }

  // -- The exact total of every run --------------------------------------------------

  predicate For(item: InvoiceItem, period: nat, c: Category) {
    item.key.period == period && item.key.category == c
  }

  /** Units of the period's items for `c` whose counts are among `counts`. */
  ghost function UnitsAt(log: seq<InvoiceItem>, period: nat, c: Category, counts: set<nat>): nat {
    if log == [] then 0
    else
      var item := log[|log| - 1];
      UnitsAt(log[..|log| - 1], period, c, counts)
      + if For(item, period, c) && item.key.snapshot in counts then item.units else 0
  }

  /** Units of the period's items for `c` whose counts are not. */
  ghost function StrayUnits(log: seq<InvoiceItem>, period: nat, c: Category, counts: set<nat>): nat {
    if log == [] then 0
    else
      var item := log[|log| - 1];
      StrayUnits(log[..|log| - 1], period, c, counts)
      + if For(item, period, c) && item.key.snapshot !in counts then item.units else 0
  }

  lemma {:induction false} BilledSplits(log: seq<InvoiceItem>, period: nat, c: Category, counts: set<nat>)
    ensures BilledUnits(log, period, c) == UnitsAt(log, period, c, counts) + StrayUnits(log, period, c, counts)
  {
    if log != [] { BilledSplits(log[..|log| - 1], period, c, counts); }
  }

  lemma UnitsAtAppend(log: seq<InvoiceItem>, item: InvoiceItem, period: nat, c: Category, counts: set<nat>)
    ensures UnitsAt(log + [item], period, c, counts) == UnitsAt(log, period, c, counts)
            + if For(item, period, c) && item.key.snapshot in counts then item.units else 0
  {
    assert (log + [item])[..|log|] == log;
  }

  /** Items for other counts add nothing. */
  lemma {:induction false} UnitsAtKept(log: seq<InvoiceItem>, items: seq<InvoiceItem>, period: nat, c: Category, counts: set<nat>)
    requires forall i :: 0 <= i < |items| && For(items[i], period, c) ==> items[i].key.snapshot !in counts
    ensures UnitsAt(CreateAll(log, items), period, c, counts) == UnitsAt(log, period, c, counts)
  {
    if items != [] {
      var init := items[..|items| - 1];
      assert forall i :: 0 <= i < |init| ==> init[i] == items[i];
      UnitsAtKept(log, init, period, c, counts);
      UnitsAtAppend(CreateAll(log, init), items[|items| - 1], period, c, counts);
    }
  }

  /** The period's items for `c` all have different counts. */
  ghost predicate OneEach(log: seq<InvoiceItem>, period: nat, c: Category) {
    forall i, j :: 0 <= i < j < |log| && For(log[i], period, c) && For(log[j], period, c) ==>
      log[i].key.snapshot != log[j].key.snapshot
  }

  lemma {:induction false} CreateAllOneEach(log: seq<InvoiceItem>, items: seq<InvoiceItem>, period: nat, c: Category)
    requires OneEach(log, period, c)
    ensures OneEach(CreateAll(log, items), period, c)
  {
    if items != [] {
      var before, item := CreateAll(log, items[..|items| - 1]), items[|items| - 1];
      CreateAllOneEach(log, items[..|items| - 1], period, c);
      assert !HasKey(before, item.key) ==> forall i :: 0 <= i < |before| ==> before[i].key != item.key;
    }
  }

  lemma {:induction false} UnitsAtSame(log: seq<InvoiceItem>, period: nat, c: Category, counts: set<nat>, count: nat)
    requires forall i :: 0 <= i < |log| && For(log[i], period, c) ==> log[i].key.snapshot != count
    ensures UnitsAt(log, period, c, counts + {count}) == UnitsAt(log, period, c, counts)
  {
    if log != [] { UnitsAtSame(log[..|log| - 1], period, c, counts, count); }
  }

  /** One more count brings in the units of its one item. */
  lemma {:induction false} UnitsAtMore(log: seq<InvoiceItem>, period: nat, c: Category, counts: set<nat>, i: nat)
    requires i < |log| && For(log[i], period, c) && log[i].key.snapshot !in counts && OneEach(log, period, c)
    ensures UnitsAt(log, period, c, counts + {log[i].key.snapshot}) == UnitsAt(log, period, c, counts) + log[i].units
  {
    var init := log[..|log| - 1];
    if i == |log| - 1 {
      UnitsAtSame(init, period, c, counts, log[i].key.snapshot);
    } else {
      UnitsAtMore(init, period, c, counts, i);
      assert init[i] == log[i];
    }
  }

  /**
   The period's items for `c` are for units, and counts, that occurred; one for a count above the mark
   covers exactly the overage between the two.
   */
  ghost predicate Spanning(log: seq<InvoiceItem>, period: nat, c: Category, mark: nat, count: nat, base: nat) {
    forall i :: 0 <= i < |log| && For(log[i], period, c) ==>
      && log[i].units > 0 && log[i].key.snapshot <= count
      && (log[i].key.snapshot > mark ==> log[i].units + Over(mark, base) == Over(log[i].key.snapshot, base))
  }

  lemma {:induction false} CreateAllSpanning(log: seq<InvoiceItem>, items: seq<InvoiceItem>,
                                             period: nat, c: Category, mark: nat, count: nat, base: nat)
    requires Spanning(log, period, c, mark, count, base) && Spanning(items, period, c, mark, count, base)
    ensures Spanning(CreateAll(log, items), period, c, mark, count, base)
  {
    if items != [] { CreateAllSpanning(log, items[..|items| - 1], period, c, mark, count, base); }
  }

  /** The period's plan, while it is current and open, includes `base` units. */
  ghost predicate BaseHere(a: Account, p: Instant, c: Category, base: nat) {
    OpenRecord(a).Some? && a.sub.value.periodStart == p ==> BaseUnits(a.sub.value.plan, c) == base
  }

  /** One base for the period throughout; crashes and failed webhooks may come anywhere. */
  ghost predicate SteadyRun(a: Account, events: seq<Event>, p: Instant, c: Category, base: nat) {
    events == [] ||
    var init := events[..|events| - 1];
    SteadyRun(a, init, p, c, base) && OwnSecond(Run(a, init), p) && BaseHere(Run(a, init), p, c, base)
  }

  /** The event completes a report that charges `c` for period `p`. */
  predicate ChargesFor(a: Account, e: Event, p: Instant, c: Category) {
    Charges(a, e, p) && CategoryDelta(a, c) > 0
  }

  /** The counts at which a completed report charged `c`. */
  ghost function ChargedCounts(a: Account, events: seq<Event>, p: Instant, c: Category): set<nat> {
    if events == [] then {}
    else
      var init := events[..|events| - 1];
      CountsAfter(Run(a, init), events[|events| - 1], p, c, ChargedCounts(a, init, p, c))
  }

  /** What the log holds at the counts charged so far is the overage up to the mark. */
  ghost predicate InBalance(log: seq<InvoiceItem>, period: nat, c: Category, mark: nat, count: nat, base: nat, counts: set<nat>) {
    && mark <= count
    && (forall k :: k in counts ==> k <= mark)
    && OneEach(log, period, c)
    && Spanning(log, period, c, mark, count, base)
    && UnitsAt(log, period, c, counts) == Over(mark, base)
  }

  ghost predicate Balanced(a: Account, p: Instant, c: Category, base: nat, counts: set<nat>) {
    && Marked(a, p) && p in a.usage
    && InBalance(a.stripe, Seconds(p), c, a.usage[p].reported.At(c), a.usage[p].count.At(c), base, counts)
  }

  /** The items of its report that an event sends. */
  function SentBy(a: Account, e: Event): seq<InvoiceItem> {
    if e.Crash? then ReportItems(a)[..Min(e.sent, |ReportItems(a)|)]
    else if Reports(a, e) then ReportItems(a)
    else []
  }

  lemma StepSends(a: Account, e: Event)
    ensures Step(a, e).stripe == CreateAll(a.stripe, SentBy(a, e))
  {
    if !e.Crash? {
      StepStripe(a, e);
      ReportStripeIs(a);
    }
  }

  /** What is sent for the period is above the mark and spans from there. */
  lemma SentSpans(a: Account, e: Event, p: Instant, c: Category, base: nat)
    requires p in a.usage && OwnSecond(a, p) && BaseHere(a, p, c, base)
    ensures Spanning(SentBy(a, e), Seconds(p), c, a.usage[p].reported.At(c), a.usage[p].count.At(c), base)
    ensures forall i :: 0 <= i < |SentBy(a, e)| && For(SentBy(a, e)[i], Seconds(p), c) ==>
              SentBy(a, e)[i].key.snapshot > a.usage[p].reported.At(c)
  {
    ReportItemsShape(a);
    var items, all := SentBy(a, e), ReportItems(a);
    forall i | 0 <= i < |items| && For(items[i], Seconds(p), c)
      ensures items[i].units > 0
      ensures items[i].units + Over(a.usage[p].reported.At(c), base) == Over(items[i].key.snapshot, base)
      ensures a.usage[p].reported.At(c) < items[i].key.snapshot == a.usage[p].count.At(c)
    {
      assert items[i] == all[i];
      assert Mentions(all, c);
    }
  }

  lemma MentionedKey(a: Account, items: seq<InvoiceItem>, c: Category)
    requires OpenRecord(a).Some? && Sends(a, items) && Mentions(items, c)
    ensures HasKey(items, ReportKey(a, c))
  {
    var i :| 0 <= i < |items| && items[i].key.category == c;
    assert items[i].key == ReportKey(a, c);
  }

  /** After a completed report Stripe knows the key of every category that was due. */
  lemma ReportedKey(a: Account, c: Category)
    requires OpenRecord(a).Some? && a.sub.value.customer.Some? && CategoryDelta(a, c) > 0
    ensures HasKey(CreateAll(a.stripe, ReportItems(a)), ReportKey(a, c))
  {
    ReportItemsShape(a);
    MentionedKey(a, ReportItems(a), c);
    CreateAllHasKey(a.stripe, ReportItems(a), ReportKey(a, c));
  }

  lemma ChargedKey(a: Account, e: Event, p: Instant, c: Category)
    requires ChargesFor(a, e, p, c)
    ensures HasKey(Step(a, e).stripe, ReportKey(a, c))
  {
    StepSends(a, e);
    ReportedKey(a, c);
  }

  /** Sending items for counts above the mark keeps the balance, however many get through. */
  lemma SendsInBalance(log: seq<InvoiceItem>, items: seq<InvoiceItem>, period: nat, c: Category,
                       mark: nat, count: nat, base: nat, counts: set<nat>)
    requires InBalance(log, period, c, mark, count, base, counts) && Spanning(items, period, c, mark, count, base)
    requires forall i :: 0 <= i < |items| && For(items[i], period, c) ==> items[i].key.snapshot > mark
    ensures InBalance(CreateAll(log, items), period, c, mark, count, base, counts)
  {
    CreateAllOneEach(log, items, period, c);
    CreateAllSpanning(log, items, period, c, mark, count, base);
    UnitsAtKept(log, items, period, c, counts);
  }

  /** Charging at a new count lifts the balance to it, whether the item is new or a crash left it there. */
  lemma LiftsTo(log: seq<InvoiceItem>, key: ItemKey, mark: nat, base: nat, counts: set<nat>)
    requires InBalance(log, key.period, key.category, mark, key.snapshot, base, counts)
    requires HasKey(log, key) && mark < key.snapshot
    ensures InBalance(log, key.period, key.category, key.snapshot, key.snapshot, base, counts + {key.snapshot})
  {
    var i :| 0 <= i < |log| && log[i].key == key;
    UnitsAtMore(log, key.period, key.category, counts, i);
  }

  /** With nothing due the mark may move to the count as it is. */
  lemma MovesTo(log: seq<InvoiceItem>, period: nat, c: Category, mark: nat, count: nat, base: nat, counts: set<nat>)
    requires InBalance(log, period, c, mark, count, base, counts) && Over(count, base) == Over(mark, base)
    ensures InBalance(log, period, c, count, count, base, counts)
  {
  }

  lemma CountsOnward(log: seq<InvoiceItem>, period: nat, c: Category, mark: nat, count: nat, base: nat, counts: set<nat>, later: nat)
    requires InBalance(log, period, c, mark, count, base, counts) && count <= later
    ensures InBalance(log, period, c, mark, later, base, counts)
  {
  }

  ghost function CountsAfter(a: Account, e: Event, p: Instant, c: Category, counts: set<nat>): set<nat> {
    counts + if ChargesFor(a, e, p, c) then {OpenRecord(a).value.count.At(c)} else {}
  }

  lemma ChargeInBalance(a: Account, e: Event, p: Instant, c: Category, base: nat, counts: set<nat>)
    requires p in a.usage && Charges(a, e, p) && BaseHere(a, p, c, base)
    requires InBalance(Step(a, e).stripe, Seconds(p), c, a.usage[p].reported.At(c), a.usage[p].count.At(c), base, counts)
    ensures InBalance(Step(a, e).stripe, Seconds(p), c, a.usage[p].count.At(c), a.usage[p].count.At(c), base,
                      CountsAfter(a, e, p, c, counts))
  {
    if ChargesFor(a, e, p, c) {
      ChargedKey(a, e, p, c);
      LiftsTo(Step(a, e).stripe, ReportKey(a, c), a.usage[p].reported.At(c), base, counts);
    } else {
      assert counts + {} == counts;
      MovesTo(Step(a, e).stripe, Seconds(p), c, a.usage[p].reported.At(c), a.usage[p].count.At(c), base, counts);
    }
  }

  lemma BalancedStep(a: Account, e: Event, p: Instant, c: Category, base: nat, counts: set<nat>)
    requires Balanced(a, p, c, base, counts) && OwnSecond(a, p) && BaseHere(a, p, c, base)
    ensures Balanced(Step(a, e), p, c, base, CountsAfter(a, e, p, c, counts))
  {
    var mark, count, b := a.usage[p].reported.At(c), a.usage[p].count.At(c), Step(a, e);
    MarkedStep(a, e, p);
    StepRecord(a, e, p);
    StepSends(a, e);
    SentSpans(a, e, p, c, base);
    SendsInBalance(a.stripe, SentBy(a, e), Seconds(p), c, mark, count, base, counts);
    assert b.usage[p].count.At(c) >= count;
    if Charges(a, e, p) {
      ChargeInBalance(a, e, p, c, base, counts);
      CountsOnward(b.stripe, Seconds(p), c, count, count, base, CountsAfter(a, e, p, c, counts), b.usage[p].count.At(c));
    } else {
      assert counts + {} == counts;
      CountsOnward(b.stripe, Seconds(p), c, mark, count, base, counts, b.usage[p].count.At(c));
    }
  }

  lemma {:induction false} BalancedRun(a: Account, events: seq<Event>, p: Instant, c: Category, base: nat)
    requires Opened(a, p) && SteadyRun(a, events, p, c, base)
    ensures Balanced(Run(a, events), p, c, base, ChargedCounts(a, events, p, c))
  {
    if events == [] {
      NoPeriodItems(a.stripe, Seconds(p));
      UnitsAtNone(a.stripe, Seconds(p), c, {});
    } else {
      var init := events[..|events| - 1];
      BalancedRun(a, init, p, c, base);
      BalancedStep(Run(a, init), events[|events| - 1], p, c, base, ChargedCounts(a, init, p, c));
    }
  }

  lemma {:induction false} UnitsAtNone(log: seq<InvoiceItem>, period: nat, c: Category, counts: set<nat>)
    requires forall i :: 0 <= i < |log| ==> log[i].key.period != period
    ensures UnitsAt(log, period, c, counts) == 0
  {
    if log != [] { UnitsAtNone(log[..|log| - 1], period, c, counts); }
  }

  /** An item for the period and `c` that no completed report accounts for. */
  ghost predicate HasStray(log: seq<InvoiceItem>, period: nat, c: Category, counts: set<nat>) {
    exists i :: 0 <= i < |log| && For(log[i], period, c) && log[i].key.snapshot !in counts
  }

  lemma {:induction false} StrayUnitsPositive(log: seq<InvoiceItem>, period: nat, c: Category, counts: set<nat>)
    requires forall i :: 0 <= i < |log| && For(log[i], period, c) ==> log[i].units > 0
    ensures StrayUnits(log, period, c, counts) > 0 <==> HasStray(log, period, c, counts)
  {
    if log != [] {
      var init, last := log[..|log| - 1], log[|log| - 1];
      assert forall i :: 0 <= i < |init| ==> init[i] == log[i];
      StrayUnitsPositive(init, period, c, counts);
      if i :| 0 <= i < |init| && For(init[i], period, c) && init[i].key.snapshot !in counts {
        assert log[i] == init[i];
      }
      if For(last, period, c) && last.key.snapshot !in counts { assert log[|log| - 1] == last; }
    }
  }

  /**
   With one base, over any run with crashes and failed webhooks anywhere, Stripe holds exactly the
   overage up to the mark and the stray items, those for counts at which no report completed.
   */
  lemma ExactTotal(a: Account, events: seq<Event>, p: Instant, c: Category, base: nat)
    requires Opened(a, p) && SteadyRun(a, events, p, c, base)
    ensures
      var b, counts := Run(a, events), ChargedCounts(a, events, p, c);
      && p in b.usage
      && BilledUnits(b.stripe, Seconds(p), c) == Over(b.usage[p].reported.At(c), base) + StrayUnits(b.stripe, Seconds(p), c, counts)
      && (BilledUnits(b.stripe, Seconds(p), c) == Over(b.usage[p].reported.At(c), base)
          <==> !HasStray(b.stripe, Seconds(p), c, counts))
  {
    BalancedRun(a, events, p, c, base);
    BilledSplits(Run(a, events).stripe, Seconds(p), c, ChargedCounts(a, events, p, c));
    StrayUnitsPositive(Run(a, events).stripe, Seconds(p), c, ChargedCounts(a, events, p, c));
  }

  /** So an interruption may overcharge; it never undercharges. */
  lemma NeverUndercharged(a: Account, events: seq<Event>, p: Instant, c: Category, base: nat)
    requires Opened(a, p) && SteadyRun(a, events, p, c, base)
    ensures p in Run(a, events).usage
    ensures BilledUnits(Run(a, events).stripe, Seconds(p), c) >= Over(Run(a, events).usage[p].reported.At(c), base)
  {
    ExactTotal(a, events, p, c, base);
  }

  /** After a locked report that commits: the whole overage, and the stray items. */
  lemma ReportedInFull(a: Account, events: seq<Event>, e: Event, p: Instant, c: Category, base: nat)
    requires Opened(a, p) && SteadyRun(a, events + [e], p, c, base)
    requires Commits(Run(a, events), e) && ReportsOpen(Run(a, events), e, p, c, base)
    ensures p in Run(a, events + [e]).usage
    ensures BilledUnits(Run(a, events + [e]).stripe, Seconds(p), c)
            == Over(Run(a, events + [e]).usage[p].count.At(c), base)
               + StrayUnits(Run(a, events + [e]).stripe, Seconds(p), c, ChargedCounts(a, events + [e], p, c))
  {
    assert (events + [e])[..|events|] == events;
    BalancedRun(a, events, p, c, base);
    ExactTotal(a, events + [e], p, c, base);
    ReportCoversCount(Run(a, events), e, p, c, base);
  }

  /** The downgrade webhook, which leaves the period as it is. */
  function Downgrade(): Event {
    Updated("sub", Active, Some(Pro), None, None, None)
  }

  /**
   Across a downgrade there is no such floor: the known key keeps the item of the larger plan, and
   45,000 units above the smaller allowance are never billed.
   */
  lemma CrashThenDowngradeUnderbills(n: nat)
    requires n > 50_000
    ensures
      var crashed, smooth := Step(Step(StartupAccount(n), Crash(1)), Downgrade()), Step(StartupAccount(n), Downgrade());
      && BilledUnits(Step(crashed, BillJob(true)).stripe, 0, Traces) == n - 50_000
      && BilledUnits(Step(smooth, BillJob(true)).stripe, 0, Traces) == n - 5_000
  {
    var item := InvoiceItem(ItemKey(0, Traces, n), n - 50_000, RoundHalfUp(OVERAGE_UNIT_PRICE * (n - 50_000)));
    StartupCrash(n, item);
    assert Step(StartupAccount(n).(stripe := [item]), Downgrade()) == ProAccount(n).(stripe := [item]);
    assert Step(StartupAccount(n), Downgrade()) == ProAccount(n).(stripe := []);
    ProReport(n, []);
    KnownReport(n, item);
    OneItem(item);
    OneItem(OverageItem(n));
  }

  lemma StartupCrash(n: nat, item: InvoiceItem)
    requires n > 50_000
    requires item == InvoiceItem(ItemKey(0, Traces, n), n - 50_000, RoundHalfUp(OVERAGE_UNIT_PRICE * (n - 50_000)))
    ensures Step(StartupAccount(n), Crash(1)) == StartupAccount(n).(stripe := [item])
  {
    assert ReportItems(StartupAccount(n)) == [item];
    assert [item][..1] == [item];
    CreateOne([], item);
  }

  lemma KnownReport(n: nat, item: InvoiceItem)
    requires n > 5_000 && item.key == ItemKey(0, Traces, n)
    ensures Step(ProAccount(n).(stripe := [item]), BillJob(true)).stripe == [item]
  {
    ProAccountItems(n, [item]);
    assert HasKey([item], ItemKey(0, Traces, n)) by { assert [item][0].key == ItemKey(0, Traces, n); }
    CreateOne([item], OverageItem(n));
  }

  // -- Closed periods ----------------------------------------------------------

  /** No event, crashed or not, creates Stripe items for a closed period or reopens it. */
  lemma ClosedStep(a: Account, e: Event, p: Instant)
    requires p in a.usage && a.usage[p].billed && OwnSecond(a, p)
    ensures KeepsClosed(a, Step(a, e), p)
    ensures PeriodItems(Step(a, e).stripe, Seconds(p)) == PeriodItems(a.stripe, Seconds(p))
  {
    ClosedRecord(a, e, p);
    if e.Crash? {
      ClosedCrash(a, e.sent, p);
    } else {
      ClosedNotCharged(a, e, p);
      StepPeriodItems(a, e, p);
    }
  }

  lemma ClosedNotCharged(a: Account, e: Event, p: Instant)
    requires p in a.usage && a.usage[p].billed
    ensures !Targets(a, e, p)
  {
  }

  /** Only the current period's record can change, and a billed one stays billed. */
  ghost predicate KeepsClosed(a: Account, n: Account, p: Instant)
    requires p in a.usage
  {
    p in n.usage && n.usage[p].billed && (n.usage[p] == a.usage[p] || (a.sub.Some? && a.sub.value.periodStart == p))
  }

  lemma ClosedReport(a: Account, p: Instant)
    requires p in a.usage && a.usage[p].billed
    ensures KeepsClosed(a, Report(a), p)
  {
  }

  lemma ClosedIncrement(a: Account, c: Category, n: nat, p: Instant)
    requires p in a.usage && a.usage[p].billed
    ensures KeepsClosed(a, CheckAndIncrement(a, c, n), p)
  {
  }

  lemma ClosedPaid(a: Account, e: Event, p: Instant)
    requires p in a.usage && a.usage[p].billed && e.Paid?
    ensures KeepsClosed(a, Step(a, e), p)
  {
    ClosedReport(a, p);
  }

  lemma ClosedDeleted(a: Account, e: Event, p: Instant)
    requires p in a.usage && a.usage[p].billed && e.Deleted?
    ensures KeepsClosed(a, Step(a, e), p)
  {
    ClosedReport(a, p);
  }

  lemma ClosedRecord(a: Account, e: Event, p: Instant)
    requires p in a.usage && a.usage[p].billed
    ensures KeepsClosed(a, Step(a, e), p)
  {
    ClosedReport(a, p);
    match e
    case Increment(c, n) => ClosedIncrement(a, c, n, p);
    case Failed(c, n, _) => ClosedIncrement(a, c, n, p);
    case Paid(_, _, _, _, _, _) => ClosedPaid(a, e, p);
    case Deleted(_, _, _) => ClosedDeleted(a, e, p);
    case _ =>
  }

  lemma ClosedCrash(a: Account, sent: nat, p: Instant)
    requires p in a.usage && a.usage[p].billed && OwnSecond(a, p)
    ensures PeriodItems(CrashedReport(a, sent).stripe, Seconds(p)) == PeriodItems(a.stripe, Seconds(p))
  {
    ReportItemsShape(a);
    var items := ReportItems(a);
    CreateAllOtherPeriod(a.stripe, items[..Min(sent, |items|)], Seconds(p));
  }

  ghost predicate SecondsKept(a: Account, events: seq<Event>, p: Instant) {
    forall i :: 0 <= i <= |events| ==> OwnSecond(Run(a, events[..i]), p)
  }

  ghost predicate NeverCurrent(a: Account, events: seq<Event>, p: Instant) {
    forall i :: 0 <= i <= |events| ==>
      Run(a, events[..i]).sub.Some? && Run(a, events[..i]).sub.value.periodStart != p
  }

  /** Over every run a closed period keeps its Stripe items, and its record while it is not current again. */
  lemma {:induction false} ClosedForever(a: Account, events: seq<Event>, p: Instant)
    requires p in a.usage && a.usage[p].billed && SecondsKept(a, events, p)
    ensures p in Run(a, events).usage && Run(a, events).usage[p].billed
    ensures PeriodItems(Run(a, events).stripe, Seconds(p)) == PeriodItems(a.stripe, Seconds(p))
    ensures NeverCurrent(a, events, p) ==> Run(a, events).usage[p] == a.usage[p]
  {
    if events != [] {
      var init := events[..|events| - 1];
      assert forall i :: 0 <= i <= |init| ==> init[..i] == events[..i];
      ClosedForever(a, init, p);
      ClosedStep(Run(a, init), events[|events| - 1], p);
      if NeverCurrent(a, events, p) {
        assert NeverCurrent(a, init, p);
        assert events[..|init|] == init;
      }
    }
  }

  // -- Rounding over runs ------------------------------------------------------

  lemma {:induction false} CreateAllRounded(log: seq<InvoiceItem>, items: seq<InvoiceItem>)
    requires Rounded(log) && Rounded(items)
    ensures Rounded(CreateAll(log, items))
  {
    if items != [] { CreateAllRounded(log, items[..|items| - 1]); }
  }

  lemma {:induction false} EveryRunRounded(a: Account, events: seq<Event>)
    requires Rounded(a.stripe)
    ensures Rounded(Run(a, events).stripe)
  {
    if events != [] {
      var init, e := events[..|events| - 1], events[|events| - 1];
      EveryRunRounded(a, init);
      var m := Run(a, init);
      ReportItemsShape(m);
      if e.Crash? {
        var items := ReportItems(m);
        CreateAllRounded(m.stripe, items[..Min(e.sent, |items|)]);
      } else {
        StepStripe(m, e);
        CreateAllRounded(m.stripe, ReportItems(m));
      }
    }
  }

  /** After any run, the cents charged are within 2/5 of a cent per invoice item of the exact price. */
  lemma ChargesNearExactPrice(a: Account, events: seq<Event>)
    requires a.stripe == []
    ensures
      var log := Run(a, events).stripe;
      -2 * |log| <= 5 * TotalCents(log) - 2 * TotalUnits(log) <= 2 * |log|
  {
    EveryRunRounded(a, events);
    TotalRounding(Run(a, events).stripe);
  }

  // -- Quota -------------------------------------------------------------------

  /** Quotas hold in every reachable state: through checkout, plan updates, resets, crashes and cancellation. */
  lemma {:induction false} QuotaCap(plan: Plan, now: Instant, events: seq<Event>)
    ensures WithinQuota(Run(NewOrganization(plan, now), events))
    ensures StripePlansPay(Run(NewOrganization(plan, now), events))
  {
    if events != [] {
      QuotaCap(plan, now, events[..|events| - 1]);
      QuotaStep(Run(NewOrganization(plan, now), events[..|events| - 1]), events[|events| - 1]);
    }
  }

  // -- Compensation ------------------------------------------------------------

  /** Taken by itself, the compensating decrement undoes the increment, but for a record opened on the way. */
  lemma DecrementUndoesIncrement(a: Account, c: Category, n: nat)
    requires MayIncrement(a, c, n)
    ensures RollbackIncrement(CheckAndIncrement(a, c, n), c, n)
            == EnsureRecord(a, a.sub.value.periodStart, a.sub.value.periodEnd)
  {
    var s := a.sub.value;
    var b := EnsureRecord(a, s.periodStart, s.periodEnd);
    var r := b.usage[s.periodStart];
    WithBack(r.count, c, r.count.At(c) + n, r.count.At(c));
    assert b.usage[s.periodStart := r] == b.usage;
    assert RollbackIncrement(CheckAndIncrement(a, c, n), c, n).usage == b.usage;
  }

  lemma WithBack(x: Counters, c: Category, m: nat, n: nat)
    requires n == x.At(c)
    ensures x.With(c, m).With(c, n) == x
  {
  }

  /**
   A failed request leaves the rows as it found them if and only if its counted units had not been
   committed: once a run is dispatched, the compensation is lost and the units stay counted.
   */
  lemma FailedRequestRestores(a: Account, c: Category, n: nat, dispatched: bool)
    ensures FailedRequest(a, c, n, dispatched) == a <==> !dispatched || !MayIncrement(a, c, n)
  {
    if dispatched && MayIncrement(a, c, n) {
      var p, b := a.sub.value.periodStart, FailedRequest(a, c, n, dispatched);
      assert p in b.usage && (p in a.usage ==> b.usage[p].count.At(c) != a.usage[p].count.At(c));
    }
  }

  function CountOf(a: Account, p: Instant, c: Category): nat {
    if p in a.usage then a.usage[p].count.At(c) else 0
  }

  /** The units of `c` that an event commits to period `p`. */
  function CountedBy(a: Account, e: Event, p: Instant, c: Category): nat {
    if a.sub.None? || a.sub.value.periodStart != p then 0
    else
      match e
      case Increment(d, n) => if d == c && MayIncrement(a, d, n) then n else 0
      case Failed(d, n, dispatched) => if d == c && dispatched && MayIncrement(a, d, n) then n else 0
      case _ => 0
  }

  function Counted(a: Account, events: seq<Event>, p: Instant, c: Category): nat {
    if events == [] then 0
    else
      var init := events[..|events| - 1];
      Counted(a, init, p, c) + CountedBy(Run(a, init), events[|events| - 1], p, c)
  }

  lemma IncrementCounts(a: Account, d: Category, n: nat, p: Instant, c: Category)
    ensures CountOf(CheckAndIncrement(a, d, n), p, c)
            == CountOf(a, p, c)
               + if a.sub.Some? && a.sub.value.periodStart == p && d == c && MayIncrement(a, d, n) then n else 0
  {
  }

  lemma ReportCounts(a: Account, p: Instant, c: Category)
    ensures CountOf(Report(a), p, c) == CountOf(a, p, c)
  {
    if p in a.usage { ReportRecord(a, p); }
  }

  lemma StepCounts(a: Account, e: Event, p: Instant, c: Category)
    ensures CountOf(Step(a, e), p, c) == CountOf(a, p, c) + CountedBy(a, e, p, c)
  {
    ReportCounts(a, p, c);
    match e
    case Increment(d, n) => IncrementCounts(a, d, n, p, c);
    case Failed(d, n, _) => IncrementCounts(a, d, n, p, c);
    case Paid(_, _, _, _, _, _) => PaidCounts(a, e, p, c);
    case Deleted(_, _, _) => DeletedCounts(a, e, p, c);
    case _ =>
  }

  lemma PaidCounts(a: Account, e: Event, p: Instant, c: Category)
    requires e.Paid?
    ensures CountOf(Step(a, e), p, c) == CountOf(a, p, c)
  {
    if p in a.usage { PaidRecord(a, e, p); }
  }

  lemma DeletedCounts(a: Account, e: Event, p: Instant, c: Category)
    requires e.Deleted?
    ensures CountOf(Step(a, e), p, c) == CountOf(a, p, c)
  {
    if p in a.usage { DeletedRecord(a, e, p); }
  }

  /**
   Over any run a counter has grown by exactly the increments committed to its period, those of
   requests that failed after their dispatch included.
   */
  lemma {:induction false} CounterIsSum(a: Account, events: seq<Event>, p: Instant, c: Category)
    ensures CountOf(Run(a, events), p, c) == CountOf(a, p, c) + Counted(a, events, p, c)
  {
    if events != [] {
      CounterIsSum(a, events[..|events| - 1], p, c);
      StepCounts(Run(a, events[..|events| - 1]), events[|events| - 1], p, c);
    }
  }
}
