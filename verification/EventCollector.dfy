/**
 Collecting LangChain events into spans, capped at 450 (collect_langgraph_events and the
 re-parenting in main, tools/local_agent_eval.py).
 */
module EventCollector {
  import opened Wrappers
  import opened Collections
  import opened Spans
  import Forest = SpanForest

  // -- Event names -------------------------------------------------------------

  datatype Action = Start | End | Fail

  function Suffix(action: Action): string {
    match action
    case Start => "_start"
    case End => "_end"
    case Fail => "_error"
  }

  predicate EndsWith(s: string, suffix: string) {
    |suffix| <= |s| && s[|s| - |suffix|..] == suffix
  }

  /** Splits on_tool_start into tool and Start. */
  function ParseEventName(name: string): Option<(string, Action)> {
    if |name| < 3 || name[..3] != "on_" then None
    else
      var body := name[3..];
      if EndsWith(body, "_start") then Some((body[..|body| - 6], Start))
      else if EndsWith(body, "_end") then Some((body[..|body| - 4], End))
      else if EndsWith(body, "_error") then Some((body[..|body| - 6], Fail))
      else None
  }

  lemma SuffixSplit(component: string, action: Action)
    ensures
      var body, n := component + Suffix(action), |Suffix(action)|;
      EndsWith(body, Suffix(action)) && body[..|body| - n] == component
  {
  }

  /** The suffixes differ in their last character or the one before it. */
  lemma OneSuffix(body: string, a: Action, b: Action)
    requires EndsWith(body, Suffix(a)) && EndsWith(body, Suffix(b))
    ensures a == b
  {
    assert body[|body| - 1] == Suffix(a)[|Suffix(a)| - 1] == Suffix(b)[|Suffix(b)| - 1];
  }

  lemma BuiltParses(component: string, action: Action)
    ensures ParseEventName("on_" + (component + Suffix(action))) == Some((component, action))
  {
    var body := component + Suffix(action);
    var name := "on_" + body;
    assert name[..3] == "on_" && name[3..] == body;
    SuffixSplit(component, action);
    if EndsWith(body, Suffix(Start)) { OneSuffix(body, Start, action); }
    else if EndsWith(body, Suffix(End)) { OneSuffix(body, End, action); }
  }

  lemma EndsWithSplit(s: string, suffix: string)
    requires EndsWith(s, suffix)
    ensures s == s[..|s| - |suffix|] + suffix
  {
  }

  lemma ParsedIsBuilt(name: string)
    requires ParseEventName(name).Some?
    ensures name == "on_" + (ParseEventName(name).value.0 + Suffix(ParseEventName(name).value.1))
  {
    var body := name[3..];
    assert name == name[..3] + body;
    if EndsWith(body, Suffix(Start)) {
      EndsWithSplit(body, Suffix(Start));
      assert ParseEventName(name) == Some((body[..|body| - 6], Start));
    } else if EndsWith(body, Suffix(End)) {
      EndsWithSplit(body, Suffix(End));
      assert ParseEventName(name) == Some((body[..|body| - 4], End));
    } else {
      EndsWithSplit(body, Suffix(Fail));
      assert ParseEventName(name) == Some((body[..|body| - 6], Fail));
    }
  }

  /** Parsing finds a component and an action exactly in the names put together from them. */
  lemma ParseEventNameExact(name: string, component: string, action: Action)
    ensures ParseEventName(name) == Some((component, action)) <==> name == "on_" + (component + Suffix(action))
  {
    BuiltParses(component, action);
    if ParseEventName(name).Some? { ParsedIsBuilt(name); }
  }

  function Kind(component: string): Option<string> {
    if component == "chain" then Some("CHAIN")
    else if component == "chat_model" || component == "llm" then Some("LLM")
    else if component == "retriever" then Some("RETRIEVER")
    else if component == "tool" then Some("TOOL")
    else None
  }

  // -- The event loop ----------------------------------------------------------

  type RunId = string

  datatype Event = Event(name: string, runId: RunId, parentIds: seq<RunId>, input: string, output: string, error: string)

  datatype Record = Record(
    spanId: SpanId, parents: seq<RunId>, kind: string, status: SpanStatus,
    input: string, output: Option<string>, error: Option<string>)

  datatype Collected = Collected(records: map<RunId, Record>, order: seq<RunId>)

  const EMPTY := Collected(map[], [])

  const CAP: nat := 450

  /** What the event says about a tracked component, if it is about one. */
  function Tracked(e: Event): Option<(string, Action)> {
    match ParseEventName(e.name)
    case None => None
    case Some((component, action)) =>
      match Kind(component)
      case None => None
      case Some(kind) => Some((kind, action))
  }

  function NewRecord(e: Event, kind: string, id: SpanId): Record {
    Record(id, e.parentIds, kind, Unset, e.input, None, None)
  }

  function Close(r: Record, e: Event, action: Action): Record {
    if action == End then r.(status := Good, output := Some(e.output))
    else r.(status := SpanStatus.Error, error := Some(if e.error == "" then "LangChain event failed" else e.error))
  }

  /** One event; `ids(i)` is the identifier drawn for the i-th recorded span. */
  function Handle(st: Collected, e: Event, cap: nat, ids: nat -> SpanId): Collected {
    match Tracked(e)
    case None => st
    case Some((kind, action)) =>
      if action == Start then
        if e.runId !in st.records && |st.order| < cap
        then Collected(st.records[e.runId := NewRecord(e, kind, ids(|st.order|))], st.order + [e.runId])
        else st
      else if e.runId in st.records
      then st.(records := st.records[e.runId := Close(st.records[e.runId], e, action)])
      else st
  }

  function Collect(events: seq<Event>, cap: nat, ids: nat -> SpanId): Collected {
    if events == [] then EMPTY else Handle(Collect(events[..|events| - 1], cap, ids), events[|events| - 1], cap, ids)
  }

  ghost predicate WellFormed(st: Collected) {
    Distinct(st.order) && forall r :: r in st.order <==> r in st.records
  }

  // -- Parent resolution -------------------------------------------------------

  /** `p` is listed and recorded, and nothing listed after it is. */
  ghost predicate LastRecorded(parents: seq<RunId>, records: map<RunId, Record>, p: RunId) {
    exists i :: 0 <= i < |parents| && parents[i] == p && p in records && forall j :: i < j < |parents| ==> parents[j] !in records
  }

  /** The last listed ancestor that has a record. */
  function Nearest(parents: seq<RunId>, records: map<RunId, Record>): (p: Option<RunId>)
    ensures p.Some? ==> p.value in records && p.value in parents && LastRecorded(parents, records, p.value)
    ensures p.None? <==> forall q :: q in parents ==> q !in records
  {
    if parents == [] then None
    else
      var init, last := parents[..|parents| - 1], parents[|parents| - 1];
      assert parents == init + [last];
      if last in records then Some(last)
      else
        assert forall q :: LastRecorded(init, records, q) ==> LastRecorded(parents, records, q) by {
          LastRecordedAppend(init, last, records);
        }
        Nearest(init, records)
  }

  lemma LastRecordedAppend(init: seq<RunId>, last: RunId, records: map<RunId, Record>)
    requires last !in records
    ensures forall q :: LastRecorded(init, records, q) ==> LastRecorded(init + [last], records, q)
  {
    forall q | LastRecorded(init, records, q) ensures LastRecorded(init + [last], records, q) {
      var i :| 0 <= i < |init| && init[i] == q && q in records && forall j :: i < j < |init| ==> init[j] !in records;
      assert (init + [last])[i] == q;
    }
  }

  function ToSpan(r: Record, records: map<RunId, Record>): Span {
    var p := Nearest(r.parents, records);
    Span(r.spanId, if p.Some? then Some(records[p.value].spanId) else None, r.kind, r.status, r.input, r.output, r.error)
  }

  function SpansOf(st: Collected): (spans: seq<Span>)
    requires WellFormed(st)
    ensures |spans| == |st.order|
    ensures forall i :: 0 <= i < |spans| ==> st.order[i] in st.records && spans[i] == ToSpan(st.records[st.order[i]], st.records)
  {
    assert forall i :: 0 <= i < |st.order| ==> st.order[i] in st.order;
    seq(|st.order|, i requires 0 <= i < |st.order| && st.order[i] in st.records => ToSpan(st.records[st.order[i]], st.records))
  }

  /** A span hung under the agent when it has no recorded ancestor. */
  function Hang(s: Span, agent: SpanId): Span {
    if s.parent.None? then s.(parent := Some(agent)) else s
  }

  /** The agent span, then the collected ones, the parentless among them hung under it. */
  function WithAgent(spans: seq<Span>, agent: Span): (all: seq<Span>)
    ensures |all| == |spans| + 1 && all[0] == agent
    ensures forall i :: 0 <= i < |spans| ==> all[i + 1] == Hang(spans[i], agent.id)
  {
    [agent] + seq(|spans|, i requires 0 <= i < |spans| => Hang(spans[i], agent.id))
  }

  // -- The collector -----------------------------------------------------------

  class Collector {
    var records: map<RunId, Record>
    var order: seq<RunId>
    const cap: nat
    const ids: nat -> SpanId

    function State(): Collected
      reads this
    {
      Collected(records, order)
    }

    constructor (cap: nat, ids: nat -> SpanId)
      ensures State() == EMPTY && this.cap == cap && this.ids == ids
    {
      records, order, this.cap, this.ids := map[], [], cap, ids;
    }

    method HandleEvent(e: Event)
      modifies this
      ensures State() == Handle(old(State()), e, cap, ids)
    {
      var parsed := ParseEventName(e.name);
      if parsed.None? { return; }
      var kind := Kind(parsed.value.0);
      if kind.None? { return; }
      var action := parsed.value.1;
      if action == Start && e.runId !in records && |order| < cap {
        records := records[e.runId := NewRecord(e, kind.value, ids(|order|))];
        order := order + [e.runId];
      } else if action != Start && e.runId in records {
        var r := records[e.runId];
        if action == End {
          r := r.(status := Good, output := Some(e.output));
        } else {
          r := r.(status := SpanStatus.Error, error := Some(if e.error == "" then "LangChain event failed" else e.error));
        }
        records := records[e.runId := r];
      }
    }

    method CollectEvents(events: seq<Event>) returns (spans: seq<Span>)
      requires State() == EMPTY
      modifies this
      ensures State() == Collect(events, cap, ids) && WellFormed(State())
      ensures spans == SpansOf(State())
    {
      for i := 0 to |events|
        invariant State() == Collect(events[..i], cap, ids)
      {
        HandleEvent(events[i]);
        assert events[..i + 1][..i] == events[..i];
      }
      assert events[..|events|] == events;
      CollectWellFormed(events, cap, ids);
      spans := [];
      for i := 0 to |order|
        invariant State() == Collect(events, cap, ids) && WellFormed(State())
        invariant spans == SpansOf(State())[..i]
      {
        assert order[i] in order;
        spans := spans + [ToSpan(records[order[i]], records)];
      }
    }
  }

  /** Hangs the parentless spans under the agent span and puts that first. */
  method Payload(spans: seq<Span>, agent: Span) returns (all: seq<Span>)
    ensures all == WithAgent(spans, agent)
  {
    var hung := spans;
    for i := 0 to |spans|
      invariant |hung| == |spans|
      invariant forall j :: 0 <= j < i ==> hung[j] == Hang(spans[j], agent.id)
      invariant forall j :: i <= j < |spans| ==> hung[j] == spans[j]
    {
      if hung[i].parent.None? {
        hung := hung[i := hung[i].(parent := Some(agent.id))];
      }
    }
    all := [agent] + hung;
  }

  lemma {:induction false} CollectWellFormed(events: seq<Event>, cap: nat, ids: nat -> SpanId)
    ensures WellFormed(Collect(events, cap, ids)) && |Collect(events, cap, ids).order| <= cap
    ensures |Collect(events, cap, ids).order| <= |events|
  {
    if events != [] {
      CollectWellFormed(events[..|events| - 1], cap, ids);
      HandleWellFormed(Collect(events[..|events| - 1], cap, ids), events[|events| - 1], cap, ids);
    }
  }

  lemma HandleWellFormed(st: Collected, e: Event, cap: nat, ids: nat -> SpanId)
    requires WellFormed(st)
    ensures WellFormed(Handle(st, e, cap, ids))
    ensures |st.order| <= |Handle(st, e, cap, ids).order| <= |st.order| + 1
    ensures Handle(st, e, cap, ids).order[..|st.order|] == st.order
  {
  }

  // -- Truncation --------------------------------------------------------------

  /** `c` is what `d` recorded first, up to the cap. */
  ghost predicate PrefixOf(c: Collected, d: Collected, cap: nat) {
    && WellFormed(c) && WellFormed(d)
    && |c.order| <= |d.order| && c.order == d.order[..|c.order|]
    && (|c.order| < |d.order| ==> |c.order| == cap)
    && forall r :: r in c.records ==> r in d.records && c.records[r] == d.records[r]
  }

  function Add(st: Collected, run: RunId, r: Record): Collected {
    Collected(st.records[run := r], st.order + [run])
  }

  lemma AddToBoth(c: Collected, d: Collected, cap: nat, run: RunId, r: Record)
    requires PrefixOf(c, d, cap) && c.order == d.order && run !in d.records
    requires WellFormed(Add(c, run, r)) && WellFormed(Add(d, run, r))
    ensures PrefixOf(Add(c, run, r), Add(d, run, r), cap)
  {
  }

  lemma AddToLonger(c: Collected, d: Collected, cap: nat, run: RunId, r: Record)
    requires PrefixOf(c, d, cap) && |c.order| == cap && run !in d.records && WellFormed(Add(d, run, r))
    ensures PrefixOf(c, Add(d, run, r), cap)
  {
    assert Add(d, run, r).order[..|c.order|] == d.order[..|c.order|];
  }

  lemma SameOrderSameRuns(c: Collected, d: Collected, run: RunId)
    requires WellFormed(c) && WellFormed(d) && c.order == d.order
    ensures run in c.records <==> run in d.records
  {
    assert run in c.order <==> run in d.order;
  }

  lemma PrefixStart(c: Collected, d: Collected, e: Event, cap: nat, more: nat, ids: nat -> SpanId)
    requires cap <= more && PrefixOf(c, d, cap) && |c.order| <= cap
    requires Tracked(e).Some? && Tracked(e).value.1 == Start
    requires WellFormed(Handle(c, e, cap, ids)) && WellFormed(Handle(d, e, more, ids))
    ensures PrefixOf(Handle(c, e, cap, ids), Handle(d, e, more, ids), cap)
  {
    var r := NewRecord(e, Tracked(e).value.0, ids(|d.order|));
    if |c.order| == |d.order| {
      assert c.order == d.order[..|d.order|] == d.order;
      SameOrderSameRuns(c, d, e.runId);
    }
    if e.runId !in d.records && |d.order| < more {
      if |c.order| < cap {
        AddToBoth(c, d, cap, e.runId, r);
      } else {
        AddToLonger(c, d, cap, e.runId, r);
      }
    }
  }

  lemma PrefixClose(c: Collected, d: Collected, e: Event, cap: nat, more: nat, ids: nat -> SpanId)
    requires PrefixOf(c, d, cap)
    requires Tracked(e).Some? && Tracked(e).value.1 != Start
    requires WellFormed(Handle(c, e, cap, ids)) && WellFormed(Handle(d, e, more, ids))
    ensures PrefixOf(Handle(c, e, cap, ids), Handle(d, e, more, ids), cap)
  {
  }

  lemma PrefixStep(c: Collected, d: Collected, e: Event, cap: nat, more: nat, ids: nat -> SpanId)
    requires cap <= more && PrefixOf(c, d, cap) && |c.order| <= cap
    ensures PrefixOf(Handle(c, e, cap, ids), Handle(d, e, more, ids), cap)
  {
    if Tracked(e).Some? {
      HandleWellFormed(c, e, cap, ids);
      HandleWellFormed(d, e, more, ids);
      if Tracked(e).value.1 == Start {
        PrefixStart(c, d, e, cap, more, ids);
      } else {
        PrefixClose(c, d, e, cap, more, ids);
      }
    }
  }

  /** A smaller cap records a prefix of what a larger one does, and the same about each run. */
  lemma {:induction false} CapKeepsPrefix(events: seq<Event>, cap: nat, more: nat, ids: nat -> SpanId)
    requires cap <= more
    ensures PrefixOf(Collect(events, cap, ids), Collect(events, more, ids), cap)
  {
    if events != [] {
      var init := events[..|events| - 1];
      CapKeepsPrefix(init, cap, more, ids);
      CollectWellFormed(init, cap, ids);
      PrefixStep(Collect(init, cap, ids), Collect(init, more, ids), events[|events| - 1], cap, more, ids);
    }
  }

  ghost predicate Injective(ids: nat -> SpanId) {
    forall i, j :: ids(i) == ids(j) ==> i == j
  }

  /** The i-th record carries the i-th identifier. */
  lemma {:induction false} RecordIds(events: seq<Event>, cap: nat, ids: nat -> SpanId)
    ensures WellFormed(Collect(events, cap, ids))
    ensures forall i :: 0 <= i < |Collect(events, cap, ids).order| ==>
              Collect(events, cap, ids).order[i] in Collect(events, cap, ids).records
              && Collect(events, cap, ids).records[Collect(events, cap, ids).order[i]].spanId == ids(i)
  {
    CollectWellFormed(events, cap, ids);
    if events != [] {
      RecordIds(events[..|events| - 1], cap, ids);
      StepIds(Collect(events[..|events| - 1], cap, ids), events[|events| - 1], cap, ids);
    }
  }

  lemma StepIds(st: Collected, e: Event, cap: nat, ids: nat -> SpanId)
    requires WellFormed(st)
    requires forall i :: 0 <= i < |st.order| ==> st.order[i] in st.records && st.records[st.order[i]].spanId == ids(i)
    ensures
      var n := Handle(st, e, cap, ids);
      forall i :: 0 <= i < |n.order| ==> n.order[i] in n.records && n.records[n.order[i]].spanId == ids(i)
  {
    HandleWellFormed(st, e, cap, ids);
    var n := Handle(st, e, cap, ids);
    forall i | 0 <= i < |n.order|
      ensures n.order[i] in n.records && n.records[n.order[i]].spanId == ids(i)
    {
      if i < |st.order| { assert n.order[i] == n.order[..|st.order|][i]; }
    }
  }

  /** Dropping records that are not the nearest changes nothing. */
  lemma {:induction false} NearestInPrefix(parents: seq<RunId>, c: map<RunId, Record>, d: map<RunId, Record>)
    requires forall r :: r in c ==> r in d
    ensures Nearest(parents, d).Some? && Nearest(parents, d).value in c ==> Nearest(parents, c) == Nearest(parents, d)
    ensures Nearest(parents, d).None? ==> Nearest(parents, c).None?
  {
    if parents != [] { NearestInPrefix(parents[..|parents| - 1], c, d); }
  }

  /** The nearest recorded ancestor of run `r` is itself among the records `c`. */
  ghost predicate ParentKept(r: RunId, c: Collected, d: Collected)
    requires r in d.records
  {
    Nearest(d.records[r].parents, d.records).Some? ==> Nearest(d.records[r].parents, d.records).value in c.records
  }

  lemma SpanIdsDiffer(st: Collected, ids: nat -> SpanId, p: RunId, q: RunId)
    requires WellFormed(st) && Injective(ids) && p in st.records && q in st.records && p != q
    requires forall i :: 0 <= i < |st.order| ==> st.order[i] in st.records && st.records[st.order[i]].spanId == ids(i)
    ensures st.records[p].spanId != st.records[q].spanId
  {
    assert p in st.order && q in st.order;
    var i, j :| 0 <= i < |st.order| && 0 <= j < |st.order| && st.order[i] == p && st.order[j] == q;
  }

  predicate Starts(e: Event, r: RunId) {
    Tracked(e).Some? && Tracked(e).value.1 == Start && e.runId == r
  }

  /** The runs of tracked components in the order in which they first start. */
  function Starters(events: seq<Event>): seq<RunId> {
    if events == [] then []
    else
      var before, e := Starters(events[..|events| - 1]), events[|events| - 1];
      if Starts(e, e.runId) && e.runId !in before then before + [e.runId] else before
  }

  /** The first `cap` of them, or all. */
  function First(events: seq<Event>, cap: nat): seq<RunId> {
    if |Starters(events)| <= cap then Starters(events) else Starters(events)[..cap]
  }

  /** The ancestors that a run lists when it first starts. */
  function Listed(events: seq<Event>, r: RunId): seq<RunId> {
    if events == [] then []
    else
      var init, e := events[..|events| - 1], events[|events| - 1];
      if r in Starters(init) then Listed(init, r) else if Starts(e, r) then e.parentIds else []
  }

  function LastAmong(parents: seq<RunId>, runs: seq<RunId>): Option<RunId> {
    if parents == [] then None
    else if parents[|parents| - 1] in runs then Some(parents[|parents| - 1])
    else LastAmong(parents[..|parents| - 1], runs)
  }

  /**
   For each of the first `cap` starters, the last ancestor it lists among the first `more` starters
   is among the first `cap`.
   */
  ghost predicate ParentsFit(events: seq<Event>, cap: nat, more: nat) {
    forall r :: r in First(events, cap) ==>
      var p := LastAmong(Listed(events, r), First(events, more));
      p.Some? ==> p.value in First(events, cap)
  }

  /** A collector records the first starters, with the ancestors they list. */
  lemma {:induction false} CollectsFirst(events: seq<Event>, cap: nat, ids: nat -> SpanId)
    ensures WellFormed(Collect(events, cap, ids)) && Collect(events, cap, ids).order == First(events, cap)
    ensures forall r :: r in Collect(events, cap, ids).records ==> Collect(events, cap, ids).records[r].parents == Listed(events, r)
  {
    CollectWellFormed(events, cap, ids);
    if events != [] {
      var init, e := events[..|events| - 1], events[|events| - 1];
      CollectsFirst(init, cap, ids);
      HandleFirst(Collect(init, cap, ids), e, cap, ids, init, events);
    }
  }

  lemma HandleFirst(st: Collected, e: Event, cap: nat, ids: nat -> SpanId, init: seq<Event>, events: seq<Event>)
    requires WellFormed(st) && st.order == First(init, cap) && events == init + [e]
    requires forall r :: r in st.records ==> st.records[r].parents == Listed(init, r)
    ensures Handle(st, e, cap, ids).order == First(events, cap)
    ensures forall r :: r in Handle(st, e, cap, ids).records ==>
              Handle(st, e, cap, ids).records[r].parents == Listed(events, r)
  {
    assert events[..|events| - 1] == init;
    assert forall r :: r in st.records ==> r in st.order && r in Starters(init);
    if |st.order| < cap {
      assert st.order == Starters(init);
      assert e.runId in st.records <==> e.runId in st.order;
    }
  }

  lemma {:induction false} NearestIsLast(parents: seq<RunId>, st: Collected)
    requires WellFormed(st)
    ensures Nearest(parents, st.records) == LastAmong(parents, st.order)
  {
    if parents != [] { NearestIsLast(parents[..|parents| - 1], st); }
  }

  /** Which parents a cap keeps can be read off the stream. */
  lemma KeptIffFit(events: seq<Event>, cap: nat, more: nat, ids: nat -> SpanId)
    requires cap <= more
    ensures PrefixOf(Collect(events, cap, ids), Collect(events, more, ids), cap)
    ensures
      var c, d := Collect(events, cap, ids), Collect(events, more, ids);
      (forall i :: 0 <= i < |c.order| ==> c.order[i] in d.records && ParentKept(c.order[i], c, d))
      <==> ParentsFit(events, cap, more)
  {
    CapKeepsPrefix(events, cap, more, ids);
    CollectsFirst(events, cap, ids);
    CollectsFirst(events, more, ids);
    var c, d := Collect(events, cap, ids), Collect(events, more, ids);
    forall r | r in c.order
      ensures r in d.records
      ensures ParentKept(r, c, d) <==>
                var p := LastAmong(Listed(events, r), First(events, more)); p.Some? ==> p.value in First(events, cap)
    {
      assert r in c.records;
      NearestIsLast(d.records[r].parents, d);
    }
    assert forall i :: 0 <= i < |c.order| ==> c.order[i] in c.order;
  }

  /**
   The capped spans are the first spans of a collector with a higher cap: always with the same
   kind, input, status, output and error, and with the same parents exactly when the stream's first
   `cap` starters find their last listed starter among themselves.
   */
  lemma TruncationExact(events: seq<Event>, cap: nat, more: nat, ids: nat -> SpanId)
    requires cap <= more && Injective(ids)
    ensures
      var c, d := Collect(events, cap, ids), Collect(events, more, ids);
      && WellFormed(c) && WellFormed(d) && |c.order| <= |d.order|
      && (forall i :: 0 <= i < |c.order| ==> SpansOf(c)[i].(parent := None) == SpansOf(d)[i].(parent := None))
      && (SpansOf(c) == SpansOf(d)[..|c.order|] <==> ParentsFit(events, cap, more))
  {
    KeptIffFit(events, cap, more, ids);
    RecordIds(events, more, ids);
    TruncatedSpans(Collect(events, cap, ids), Collect(events, more, ids), cap, ids);
  }

  lemma TruncatedSpans(c: Collected, d: Collected, cap: nat, ids: nat -> SpanId)
    requires PrefixOf(c, d, cap) && NumberedIds(d, ids) && Injective(ids)
    ensures forall i :: 0 <= i < |c.order| ==>
              c.order[i] in d.records && SpansOf(c)[i].(parent := None) == SpansOf(d)[i].(parent := None)
    ensures SpansOf(c) == SpansOf(d)[..|c.order|] <==> forall i :: 0 <= i < |c.order| ==> ParentKept(c.order[i], c, d)
  {
    var kept := SpansOf(d)[..|c.order|];
    forall i | 0 <= i < |c.order|
      ensures c.order[i] in d.records
      ensures SpansOf(c)[i].(parent := None) == SpansOf(d)[i].(parent := None)
      ensures SpansOf(c)[i] == kept[i] <==> ParentKept(c.order[i], c, d)
    {
      assert d.order[i] == c.order[i] && c.order[i] in c.order;
      TruncatedSpan(c, d, ids, c.order[i]);
    }
    assert |SpansOf(c)| == |kept|;
    assert SpansOf(c) == kept <==> forall i :: 0 <= i < |c.order| ==> SpansOf(c)[i] == kept[i];
  }

  lemma TruncatedSpan(c: Collected, d: Collected, ids: nat -> SpanId, r: RunId)
    requires WellFormed(c) && WellFormed(d) && Injective(ids) && r in c.records
    requires forall q :: q in c.records ==> q in d.records && c.records[q] == d.records[q]
    requires forall i :: 0 <= i < |d.order| ==> d.order[i] in d.records && d.records[d.order[i]].spanId == ids(i)
    ensures r in d.records
    ensures ToSpan(c.records[r], c.records).(parent := None) == ToSpan(d.records[r], d.records).(parent := None)
    ensures ToSpan(c.records[r], c.records) == ToSpan(d.records[r], d.records) <==> ParentKept(r, c, d)
  {
    var parents := d.records[r].parents;
    NearestInPrefix(parents, c.records, d.records);
    if Nearest(parents, d.records).Some? && Nearest(parents, d.records).value !in c.records && Nearest(parents, c.records).Some? {
      SpanIdsDiffer(d, ids, Nearest(parents, d.records).value, Nearest(parents, c.records).value);
    }
  }

  // -- What each span says --------------------------------------------------------

  /** The event ends run `r`, or fails it, if that is `wanted`. */
  predicate Closing(e: Event, r: RunId, wanted: set<Action>) {
    Tracked(e).Some? && Tracked(e).value.1 in wanted && e.runId == r
  }

  /** The event with which run `r` first starts. */
  ghost predicate FirstStart(events: seq<Event>, r: RunId, k: nat) {
    k < |events| && Starts(events[k], r) && forall i :: 0 <= i < k ==> !Starts(events[i], r)
  }

  /** The last event after place `k` that closes run `r` in a wanted way. */
  function LastAfter(events: seq<Event>, r: RunId, k: nat, wanted: set<Action>): Option<Event> {
    if |events| <= k + 1 then None
    else if Closing(events[|events| - 1], r, wanted) then Some(events[|events| - 1])
    else LastAfter(events[..|events| - 1], r, k, wanted)
  }

  ghost predicate NoneAfter(events: seq<Event>, r: RunId, lo: nat, wanted: set<Action>) {
    forall i :: lo < i < |events| ==> !Closing(events[i], r, wanted)
  }

  /** There is such an event exactly if one closes the run after place `k`, and it is the last that does. */
  lemma {:induction false} LastAfterIs(events: seq<Event>, r: RunId, k: nat, wanted: set<Action>)
    ensures LastAfter(events, r, k, wanted) == None <==> NoneAfter(events, r, k, wanted)
    ensures forall i :: k < i < |events| && Closing(events[i], r, wanted) && NoneAfter(events, r, i, wanted) ==>
              LastAfter(events, r, k, wanted) == Some(events[i])
  {
    if |events| > k + 1 {
      var init, e := events[..|events| - 1], events[|events| - 1];
      assert events == init + [e];
      LastAfterIs(init, r, k, wanted);
      if Closing(e, r, wanted) {
        assert forall i :: k < i < |events| - 1 ==> !NoneAfter(events, r, i, wanted);
      } else {
        NoneAfterAppend(init, e, r, wanted);
      }
    }
  }

  lemma NoneAfterAppend(init: seq<Event>, e: Event, r: RunId, wanted: set<Action>)
    requires !Closing(e, r, wanted)
    ensures forall lo: nat :: NoneAfter(init + [e], r, lo, wanted) <==> NoneAfter(init, r, lo, wanted)
  {
    var all := init + [e];
    assert all[|init|] == e && forall i :: 0 <= i < |init| ==> all[i] == init[i];
  }

  lemma LastAfterAppend(init: seq<Event>, e: Event, r: RunId, k: nat, wanted: set<Action>)
    requires k < |init|
    ensures LastAfter(init + [e], r, k, wanted) == if Closing(e, r, wanted) then Some(e) else LastAfter(init, r, k, wanted)
  {
    assert (init + [e])[..|init|] == init;
  }

  /** What the last end or failure after the start makes of the status. */
  function StatusAfter(last: Option<Event>, r: RunId): SpanStatus {
    if last == None then Unset else if Closing(last.value, r, {End}) then Good else SpanStatus.Error
  }

  function OutputAfter(lastEnd: Option<Event>): Option<string> {
    if lastEnd == None then None else Some(lastEnd.value.output)
  }

  function ErrorAfter(lastFailure: Option<Event>): Option<string> {
    if lastFailure == None then None
    else Some(if lastFailure.value.error == "" then "LangChain event failed" else lastFailure.value.error)
  }

  /** Status, output and error say how the run was closed last, ended last and failed last after its start. */
  ghost predicate OutcomeTells(events: seq<Event>, r: RunId, k: nat, status: SpanStatus, output: Option<string>, error: Option<string>) {
    && status == StatusAfter(LastAfter(events, r, k, {End, Fail}), r)
    && output == OutputAfter(LastAfter(events, r, k, {End}))
    && error == ErrorAfter(LastAfter(events, r, k, {Fail}))
  }

  /** A record says what the stream says about its run. */
  ghost predicate RecordTells(events: seq<Event>, r: RunId, k: nat, rec: Record) {
    && FirstStart(events, r, k) && Tracked(events[k]) == Some((rec.kind, Start))
    && rec.input == events[k].input && rec.parents == events[k].parentIds
    && OutcomeTells(events, r, k, rec.status, rec.output, rec.error)
  }

  lemma FirstStartAppend(init: seq<Event>, e: Event, r: RunId, k: nat)
    requires FirstStart(init, r, k)
    ensures FirstStart(init + [e], r, k) && (init + [e])[k] == init[k]
  {
    assert forall i :: 0 <= i < |init| ==> (init + [e])[i] == init[i];
  }

  lemma OutcomeOnward(init: seq<Event>, e: Event, r: RunId, k: nat, rec: Record)
    requires k < |init| && OutcomeTells(init, r, k, rec.status, rec.output, rec.error)
    ensures
      var n := if Closing(e, r, {End, Fail}) then Close(rec, e, Tracked(e).value.1) else rec;
      OutcomeTells(init + [e], r, k, n.status, n.output, n.error)
  {
    LastAfterAppend(init, e, r, k, {End, Fail});
    LastAfterAppend(init, e, r, k, {End});
    LastAfterAppend(init, e, r, k, {Fail});
    assert Closing(e, r, {End, Fail}) <==> Closing(e, r, {End}) || Closing(e, r, {Fail});
  }

  /** The same record one event later, closed if the event closes its run. */
  lemma RecordOnward(init: seq<Event>, e: Event, r: RunId, k: nat, rec: Record)
    requires RecordTells(init, r, k, rec)
    ensures RecordTells(init + [e], r, k, if Closing(e, r, {End, Fail}) then Close(rec, e, Tracked(e).value.1) else rec)
  {
    FirstStartAppend(init, e, r, k);
    OutcomeOnward(init, e, r, k, rec);
  }

  lemma RecordOpens(init: seq<Event>, e: Event, r: RunId, kind: string, id: SpanId)
    requires Tracked(e) == Some((kind, Start)) && e.runId == r && !StartedIn(init, r)
    ensures RecordTells(init + [e], r, |init|, NewRecord(e, kind, id))
  {
    var all := init + [e];
    assert all[|init|] == e && forall i :: 0 <= i < |init| ==> all[i] == init[i];
    assert LastAfter(all, r, |init|, {End, Fail}) == None && LastAfter(all, r, |init|, {End}) == None;
  }

  lemma {:induction false} StartersStarted(events: seq<Event>, r: RunId)
    ensures r in Starters(events) <==> StartedIn(events, r)
  {
    if events != [] {
      var init, e := events[..|events| - 1], events[|events| - 1];
      StartersStarted(init, r);
      if i :| 0 <= i < |events| && Starts(events[i], r) {
        if i < |init| { assert Starts(init[i], r); }
      }
      if i :| 0 <= i < |init| && Starts(init[i], r) { assert Starts(events[i], r); }
      if Starts(e, r) { assert Starts(events[|events| - 1], r); }
    }
  }

  /** Every record tells what the stream says about its run, whatever the cap. */
  lemma {:induction false} CollectedTells(events: seq<Event>, cap: nat, ids: nat -> SpanId, r: RunId) returns (k: nat)
    requires r in Collect(events, cap, ids).records
    ensures RecordTells(events, r, k, Collect(events, cap, ids).records[r])
  {
    var init, e := events[..|events| - 1], events[|events| - 1];
    assert events == init + [e];
    var st := Collect(init, cap, ids);
    if r in st.records {
      k := CollectedTells(init, cap, ids, r);
      RecordOnward(init, e, r, k, st.records[r]);
      StillRecorded(st, e, cap, ids, r);
    } else {
      CollectsFirst(init, cap, ids);
      NewlyRecorded(st, e, cap, ids, r);
      StartersStarted(init, r);
      RecordOpens(init, e, r, Tracked(e).value.0, ids(|st.order|));
      k := |init|;
    }
  }

  lemma StillRecorded(st: Collected, e: Event, cap: nat, ids: nat -> SpanId, r: RunId)
    requires r in st.records
    ensures r in Handle(st, e, cap, ids).records
    ensures Handle(st, e, cap, ids).records[r]
            == if Closing(e, r, {End, Fail}) then Close(st.records[r], e, Tracked(e).value.1) else st.records[r]
  {
  }

  /** A run is recorded by its start, while there is room. */
  lemma NewlyRecorded(st: Collected, e: Event, cap: nat, ids: nat -> SpanId, r: RunId)
    requires r !in st.records && r in Handle(st, e, cap, ids).records
    ensures Tracked(e).Some? && Tracked(e).value.1 == Start && e.runId == r && |st.order| < cap
    ensures Handle(st, e, cap, ids).records[r] == NewRecord(e, Tracked(e).value.0, ids(|st.order|))
  {
  }

  /** The i-th span carries the i-th identifier and what the stream says about the i-th run to start. */
  lemma SpanTells(events: seq<Event>, cap: nat, ids: nat -> SpanId, i: nat) returns (k: nat)
    requires i < |First(events, cap)|
    ensures WellFormed(Collect(events, cap, ids)) && |SpansOf(Collect(events, cap, ids))| == |First(events, cap)|
    ensures
      var r, s := First(events, cap)[i], SpansOf(Collect(events, cap, ids))[i];
      && FirstStart(events, r, k)
      && s.id == ids(i) && s.input == events[k].input && Tracked(events[k]) == Some((s.kind, Start))
      && OutcomeTells(events, r, k, s.status, s.output, s.error)
  {
    CollectsFirst(events, cap, ids);
    RecordIds(events, cap, ids);
    var st := Collect(events, cap, ids);
    assert st.order[i] in st.order;
    k := CollectedTells(events, cap, ids, st.order[i]);
  }

  /** The event names that are listened to, and the kind of span that each is about. */
  lemma TrackedNames(e: Event, component: string, action: Action)
    requires e.name == "on_" + (component + Suffix(action))
    ensures component == "chain" ==> Tracked(e) == Some(("CHAIN", action))
    ensures component == "llm" || component == "chat_model" ==> Tracked(e) == Some(("LLM", action))
    ensures component == "retriever" ==> Tracked(e) == Some(("RETRIEVER", action))
    ensures component == "tool" ==> Tracked(e) == Some(("TOOL", action))
    ensures component !in {"chain", "llm", "chat_model", "retriever", "tool"} ==> Tracked(e) == None
  {
    ParseEventNameExact(e.name, component, action);
  }

  // -- A stream that loses a parent ---------------------------------------------

  function Name(i: nat): (r: RunId)
    ensures |r| == i + 1
  {
    seq(i + 1, _ => 'r')
  }

  function ToolStart(i: nat, parents: seq<RunId>): Event {
    Event("on_tool_start", Name(i), parents, "", "", "")
  }

  /** The i-th tool starts, the first as a child of run `parent`. */
  function NthTool(i: nat, parent: nat): Event {
    ToolStart(i, if i == 0 then [Name(parent)] else [])
  }

  function Tools(n: nat, parent: nat): seq<Event> {
    if n == 0 then [] else Tools(n - 1, parent) + [NthTool(n - 1, parent)]
  }

  function Names(n: nat): (r: seq<RunId>)
    ensures |r| == n && forall i :: 0 <= i < n ==> r[i] == Name(i)
  {
    if n == 0 then [] else Names(n - 1) + [Name(n - 1)]
  }

  lemma ToolStarts(i: nat, parents: seq<RunId>)
    ensures Starts(ToolStart(i, parents), Name(i))
  {
    BuiltParses("tool", Start);
    assert "on_" + ("tool" + "_start") == "on_tool_start";
  }

  lemma StartersNext(init: seq<Event>, e: Event, r: RunId)
    requires Starts(e, e.runId)
    ensures Starters(init + [e]) == if e.runId in Starters(init) then Starters(init) else Starters(init) + [e.runId]
    ensures Listed(init + [e], r) == if r in Starters(init) then Listed(init, r) else if e.runId == r then e.parentIds else []
  {
    assert (init + [e])[..|init|] == init;
  }

  lemma NewName(n: nat)
    ensures Name(n) !in Names(n)
  {
    assert forall x :: x in Names(n) ==> |x| <= n;
  }

  lemma {:induction false} ToolStarters(n: nat, parent: nat)
    ensures Starters(Tools(n, parent)) == Names(n)
  {
    if n > 0 {
      ToolStarters(n - 1, parent);
      ToolStarts(n - 1, NthTool(n - 1, parent).parentIds);
      StartersNext(Tools(n - 1, parent), NthTool(n - 1, parent), Name(0));
      NewName(n - 1);
    }
  }

  lemma {:induction false} ToolListed(n: nat, parent: nat)
    requires n > 0
    ensures Listed(Tools(n, parent), Name(0)) == [Name(parent)]
  {
    ToolStarters(n - 1, parent);
    ToolStarts(n - 1, NthTool(n - 1, parent).parentIds);
    StartersNext(Tools(n - 1, parent), NthTool(n - 1, parent), Name(0));
    if n > 1 {
      ToolListed(n - 1, parent);
      assert Names(n - 1)[0] == Name(0);
    }
  }

  /**
   At every cap, 450 included, a child recorded first loses its parent when the parent is the first
   run beyond the cap: the capped collector shows it without one.
   */
  lemma ParentLost(cap: nat, ids: nat -> SpanId)
    requires cap > 0 && Injective(ids)
    ensures
      var events := Tools(cap + 1, cap);
      var c, d := Collect(events, cap, ids), Collect(events, cap + 1, ids);
      && WellFormed(c) && WellFormed(d) && |c.order| == cap && |d.order| == cap + 1
      && SpansOf(c)[0].parent == None && SpansOf(d)[0].parent == Some(ids(cap))
  {
    var events := Tools(cap + 1, cap);
    ToolStarters(cap + 1, cap);
    ToolListed(cap + 1, cap);
    assert Names(cap + 1)[..cap] == Names(cap);
    LostAt(events, cap, ids);
    KeptAt(events, cap, ids);
  }

  lemma LostAt(events: seq<Event>, cap: nat, ids: nat -> SpanId)
    requires cap > 0 && First(events, cap) == Names(cap) && Listed(events, Name(0)) == [Name(cap)]
    ensures WellFormed(Collect(events, cap, ids)) && |Collect(events, cap, ids).order| == cap
    ensures SpansOf(Collect(events, cap, ids))[0].parent == None
  {
    CollectsFirst(events, cap, ids);
    var c := Collect(events, cap, ids);
    assert c.order[0] == Name(0) && Name(0) in c.order;
    NearestIsLast([Name(cap)], c);
    assert forall x :: x in Names(cap) ==> |x| <= cap;
  }

  lemma KeptAt(events: seq<Event>, cap: nat, ids: nat -> SpanId)
    requires cap > 0 && First(events, cap + 1) == Names(cap + 1) && Listed(events, Name(0)) == [Name(cap)]
    ensures WellFormed(Collect(events, cap + 1, ids)) && |Collect(events, cap + 1, ids).order| == cap + 1
    ensures SpansOf(Collect(events, cap + 1, ids))[0].parent == Some(ids(cap))
  {
    CollectsFirst(events, cap + 1, ids);
    RecordIds(events, cap + 1, ids);
    var d := Collect(events, cap + 1, ids);
    assert d.order[0] == Name(0) && d.order[cap] == Name(cap) && Name(0) in d.order && Name(cap) in d.order;
    NearestIsLast([Name(cap)], d);
  }

  // -- Streams that start ancestors first --------------------------------------

  ghost predicate StartedIn(events: seq<Event>, r: RunId) {
    exists i :: 0 <= i < |events| && Starts(events[i], r)
  }

  /** A run that starts lists no ancestor that the stream starts only later. */
  ghost predicate AncestorsFirst(events: seq<Event>) {
    forall i, p :: 0 <= i < |events| && Starts(events[i], events[i].runId) && p in events[i].parentIds ==>
      (StartedIn(events, p) ==> StartedIn(events[..i], p))
  }

  /** Recorded ancestors come before their descendants in the record order. */
  ghost predicate Causal(st: Collected) {
    forall i, p :: 0 <= i < |st.order| && st.order[i] in st.records && p in st.records[st.order[i]].parents && p in st.records
                   ==> p in st.order[..i]
  }

  /** As `Causal`, but for ancestors that may be recorded later. */
  ghost predicate CausalFor(st: Collected, events: seq<Event>) {
    forall i, p :: 0 <= i < |st.order| && st.order[i] in st.records && p in st.records[st.order[i]].parents && StartedIn(events, p)
                   ==> p in st.order[..i]
  }

  lemma {:induction false} UncappedRecords(events: seq<Event>, cap: nat, ids: nat -> SpanId)
    requires |events| <= cap
    ensures forall r :: r in Collect(events, cap, ids).records <==> StartedIn(events, r)
  {
    if events != [] {
      var init, e := events[..|events| - 1], events[|events| - 1];
      UncappedRecords(init, cap, ids);
      CollectWellFormed(init, cap, ids);
      forall r ensures StartedIn(events, r) <==> StartedIn(init, r) || Starts(e, r) {
        if i :| 0 <= i < |events| && Starts(events[i], r) {
          if i < |init| { assert Starts(init[i], r); }
        }
        if i :| 0 <= i < |init| && Starts(init[i], r) { assert Starts(events[i], r); }
        if Starts(e, r) { assert Starts(events[|events| - 1], r); }
      }
    }
  }

  lemma {:induction false} UncappedCausal(events: seq<Event>, k: nat, cap: nat, ids: nat -> SpanId)
    requires AncestorsFirst(events) && k <= |events| <= cap
    ensures CausalFor(Collect(events[..k], cap, ids), events)
  {
    if k > 0 {
      var init, e := events[..k - 1], events[k - 1];
      assert events[..k][..k - 1] == init;
      UncappedCausal(events, k - 1, cap, ids);
      CollectWellFormed(init, cap, ids);
      UncappedRecords(init, cap, ids);
      var st := Collect(init, cap, ids);
      forall p | Starts(e, e.runId) && p in e.parentIds && StartedIn(events, p)
        ensures p in st.order
      {
      }
      CausalStep(st, e, cap, ids, events);
    }
  }

  lemma CausalStep(st: Collected, e: Event, cap: nat, ids: nat -> SpanId, events: seq<Event>)
    requires WellFormed(st) && CausalFor(st, events)
    requires forall p :: Starts(e, e.runId) && p in e.parentIds && StartedIn(events, p) ==> p in st.order
    ensures CausalFor(Handle(st, e, cap, ids), events)
  {
    HandleWellFormed(st, e, cap, ids);
    var n := Handle(st, e, cap, ids);
    forall i, p | 0 <= i < |n.order| && n.order[i] in n.records && p in n.records[n.order[i]].parents && StartedIn(events, p)
      ensures p in n.order[..i]
    {
      if i < |st.order| {
        assert n.order[..|st.order|][i] == st.order[i] && n.order[..i] == st.order[..i];
        assert st.order[i] in st.order;
        assert n.records[n.order[i]].parents == st.records[st.order[i]].parents;
      } else {
        assert n.order[..i] == st.order;
      }
    }
  }

  lemma CausalPrefix(c: Collected, d: Collected, cap: nat)
    requires PrefixOf(c, d, cap) && Causal(d)
    ensures Causal(c)
    ensures forall i :: 0 <= i < |c.order| ==> c.order[i] in d.records && ParentKept(c.order[i], c, d)
  {
    assert forall i :: 0 <= i < |c.order| ==> d.order[i] == c.order[i] && d.order[..i] == c.order[..i] && c.order[i] in c.order;
    forall i | 0 <= i < |c.order| && Nearest(d.records[c.order[i]].parents, d.records).Some?
      ensures Nearest(d.records[c.order[i]].parents, d.records).value in c.records
    {
      var p := Nearest(d.records[c.order[i]].parents, d.records).value;
      assert p in d.order[..i];
      assert p in c.order;
    }
  }

  /** On such streams every cap keeps the parents of what it keeps. */
  lemma AncestorsFirstKept(events: seq<Event>, cap: nat, more: nat, ids: nat -> SpanId)
    requires AncestorsFirst(events) && cap <= more && |events| <= more
    ensures Causal(Collect(events, cap, ids)) && ParentsFit(events, cap, more)
  {
    UncappedCausal(events, |events|, more, ids);
    UncappedRecords(events, more, ids);
    assert events[..|events|] == events;
    KeptIffFit(events, cap, more, ids);
    CausalPrefix(Collect(events, cap, ids), Collect(events, more, ids), cap);
  }

  /** On streams that start ancestors first, the 450 kept spans are exactly the first 450 of the uncapped collector. */
  lemma TruncationRefines(events: seq<Event>, ids: nat -> SpanId)
    requires AncestorsFirst(events) && Injective(ids)
    ensures
      var c, d := Collect(events, CAP, ids), Collect(events, if |events| > 450 then |events| else 450, ids);
      && WellFormed(c) && WellFormed(d) && Causal(c)
      && |c.order| == (if |d.order| < 450 then |d.order| else 450)
      && SpansOf(c) == SpansOf(d)[..|c.order|]
  {
    var more := if |events| > CAP then |events| else CAP;
    AncestorsFirstKept(events, CAP, more, ids);
    TruncationExact(events, CAP, more, ids);
    KeptIffFit(events, CAP, more, ids);
    CollectWellFormed(events, CAP, ids);
  }

  // -- One root, every span shown once -------------------------------------------

  /** The spans of the trace payload. */
  function PayloadSpans(st: Collected, agent: Span): seq<Span>
    requires WellFormed(st)
  {
    WithAgent(SpansOf(st), agent)
  }

  /** Identifiers as uuid4 draws them: never repeated, never empty. */
  ghost predicate FreshIds(ids: nat -> SpanId, agent: SpanId) {
    Injective(ids) && agent != "" && forall i :: ids(i) != agent && ids(i) != ""
  }

  ghost predicate DistinctSpans(spans: seq<Span>) {
    forall i, j :: 0 <= i < j < |spans| ==> spans[i].id != spans[j].id
  }

  /** Without repeated ids the map keeps every span, in order. */
  lemma {:induction false} DistinctOrder(spans: seq<Span>)
    requires DistinctSpans(spans)
    ensures |Forest.Order(spans)| == |spans| && forall i :: 0 <= i < |spans| ==> Forest.Order(spans)[i] == spans[i].id
  {
    if spans != [] {
      var init, s := spans[..|spans| - 1], spans[|spans| - 1];
      DistinctOrder(init);
      assert s.id !in Forest.Order(init);
    }
  }

  lemma {:induction false} DistinctLookup(spans: seq<Span>, i: nat)
    requires DistinctSpans(spans) && i < |spans|
    ensures spans[i].id in Forest.Table(spans) && Forest.Table(spans)[spans[i].id] == spans[i]
  {
    if i < |spans| - 1 { DistinctLookup(spans[..|spans| - 1], i); }
  }

  /** `x` is one of the collected spans. */
  ghost predicate Drawn(x: SpanId, n: nat, ids: nat -> SpanId) {
    exists i: nat :: i < n && ids(i) == x
  }

  /** The parent under which the i-th record is shown. */
  function ShownParent(st: Collected, i: nat, agent: SpanId): SpanId
    requires i < |st.order| && st.order[i] in st.records
  {
    var p := Nearest(st.records[st.order[i]].parents, st.records);
    if p.Some? then st.records[p.value].spanId else agent
  }

  ghost predicate NumberedIds(st: Collected, ids: nat -> SpanId) {
    WellFormed(st) && forall i :: 0 <= i < |st.order| ==> st.order[i] in st.records && st.records[st.order[i]].spanId == ids(i)
  }

  lemma WithAgentIds(spans: seq<Span>, ids: nat -> SpanId, agent: Span)
    requires forall i :: 0 <= i < |spans| ==> spans[i].id == ids(i)
    requires FreshIds(ids, agent.id)
    ensures forall i :: 0 <= i < |spans| ==> WithAgent(spans, agent)[i + 1].id == ids(i)
    ensures DistinctSpans(WithAgent(spans, agent))
  {
    var all := WithAgent(spans, agent);
    forall i | 0 <= i < |spans| ensures all[i + 1].id == ids(i) {
      assert all[i + 1] == Hang(spans[i], agent.id);
    }
    DistinctFromIds(all, ids, agent.id);
  }

  lemma DistinctFromIds(all: seq<Span>, ids: nat -> SpanId, agent: SpanId)
    requires FreshIds(ids, agent) && all != [] && all[0].id == agent
    requires forall i :: 0 <= i < |all| - 1 ==> all[i + 1].id == ids(i)
    ensures DistinctSpans(all)
  {
    forall i, j | 0 <= i < j < |all| ensures all[i].id != all[j].id {
      assert all[j - 1 + 1].id == ids(j - 1);
      if i > 0 { assert all[i - 1 + 1].id == ids(i - 1); }
    }
  }

  /** The payload's map holds the agent and each collected span, and nothing else. */
  ghost predicate TableOf(table: map<SpanId, Span>, spans: seq<Span>, ids: nat -> SpanId, agent: Span) {
    && |table| == |spans| + 1
    && agent.id in table && table[agent.id] == agent
    && (forall i :: 0 <= i < |spans| ==> ids(i) in table && table[ids(i)] == Hang(spans[i], agent.id))
    && forall x :: x in table <==> x == agent.id || Drawn(x, |spans|, ids)
  }

  lemma WithAgentLookup(spans: seq<Span>, ids: nat -> SpanId, agent: Span)
    requires DistinctSpans(WithAgent(spans, agent))
    requires forall i :: 0 <= i < |spans| ==> WithAgent(spans, agent)[i + 1].id == ids(i)
    ensures
      var table := Forest.Table(WithAgent(spans, agent));
      && agent.id in table && table[agent.id] == agent
      && forall i :: 0 <= i < |spans| ==> ids(i) in table && table[ids(i)] == Hang(spans[i], agent.id)
  {
    var all := WithAgent(spans, agent);
    DistinctLookup(all, 0);
    forall i | 0 <= i < |spans|
      ensures ids(i) in Forest.Table(all) && Forest.Table(all)[ids(i)] == Hang(spans[i], agent.id)
    {
      DistinctLookup(all, i + 1);
    }
  }

  lemma TableIds(all: seq<Span>, ids: nat -> SpanId)
    requires DistinctSpans(all) && all != []
    requires forall i :: 0 <= i < |all| - 1 ==> all[i + 1].id == ids(i)
    ensures |Forest.Table(all)| == |all|
    ensures forall x :: x in Forest.Table(all) ==> x == all[0].id || Drawn(x, |all| - 1, ids)
  {
    DistinctOrder(all);
    Forest.OrderWellFormed(all);
    DistinctSize(Forest.Order(all), Forest.Table(all).Keys);
    forall x | x in Forest.Table(all) ensures x == all[0].id || Drawn(x, |all| - 1, ids) {
      assert x in Forest.Order(all);
      var k :| 0 <= k < |all| && Forest.Order(all)[k] == x;
      if k > 0 { assert all[k - 1 + 1].id == ids(k - 1); }
    }
  }

  lemma WithAgentTable(spans: seq<Span>, ids: nat -> SpanId, agent: Span)
    requires forall i :: 0 <= i < |spans| ==> spans[i].id == ids(i)
    requires FreshIds(ids, agent.id)
    ensures TableOf(Forest.Table(WithAgent(spans, agent)), spans, ids, agent)
  {
    WithAgentIds(spans, ids, agent);
    WithAgentLookup(spans, ids, agent);
    TableIds(WithAgent(spans, agent), ids);
  }

  lemma PayloadTable(st: Collected, ids: nat -> SpanId, agent: Span)
    requires NumberedIds(st, ids) && FreshIds(ids, agent.id)
    ensures TableOf(Forest.Table(PayloadSpans(st, agent)), SpansOf(st), ids, agent)
  {
    var spans := SpansOf(st);
    assert forall i :: 0 <= i < |spans| ==> spans[i].id == ids(i);
    WithAgentTable(spans, ids, agent);
  }

  /** How the payload's forest hangs together. */
  ghost predicate HangsFrom(table: map<SpanId, Span>, st: Collected, ids: nat -> SpanId, agent: SpanId)
    requires NumberedIds(st, ids)
  {
    && Forest.Parent(table, agent) == None
    && forall i :: 0 <= i < |st.order| ==> Forest.Parent(table, ids(i)) == Some(ShownParent(st, i, agent))
  }

  /** The i-th collected span is shown under its nearest recorded ancestor, or under the agent. */
  lemma PayloadParent(table: map<SpanId, Span>, st: Collected, ids: nat -> SpanId, agent: Span, i: nat)
    requires NumberedIds(st, ids) && FreshIds(ids, agent.id) && i < |st.order|
    requires TableOf(table, SpansOf(st), ids, agent)
    ensures Forest.Parent(table, ids(i)) == Some(ShownParent(st, i, agent.id))
  {
    assert table[ids(i)] == Hang(SpansOf(st)[i], agent.id);
    var p := Nearest(st.records[st.order[i]].parents, st.records);
    if p.Some? {
      assert p.value in st.order;
      var j :| 0 <= j < |st.order| && st.order[j] == p.value;
      assert st.records[p.value].spanId == ids(j);
    }
  }

  lemma PayloadParents(st: Collected, ids: nat -> SpanId, agent: Span)
    requires NumberedIds(st, ids) && FreshIds(ids, agent.id) && agent.parent.None?
    ensures HangsFrom(Forest.Table(PayloadSpans(st, agent)), st, ids, agent.id)
  {
    PayloadTable(st, ids, agent);
    forall i | 0 <= i < |st.order|
      ensures Forest.Parent(Forest.Table(PayloadSpans(st, agent)), ids(i)) == Some(ShownParent(st, i, agent.id))
    {
      PayloadParent(Forest.Table(PayloadSpans(st, agent)), st, ids, agent, i);
    }
  }

  lemma OneElement(xs: seq<SpanId>, a: SpanId)
    requires Distinct(xs) && forall x :: x in xs <==> x == a
    ensures xs == [a]
  {
    DistinctSize(xs, {a});
    assert xs[0] in xs;
  }

  /** Whatever the stream, the agent span is the only root of the payload's forest. */
  lemma AgentIsOnlyRoot(events: seq<Event>, cap: nat, ids: nat -> SpanId, agent: Span)
    requires FreshIds(ids, agent.id) && agent.parent.None?
    ensures WellFormed(Collect(events, cap, ids))
    ensures
      var all := PayloadSpans(Collect(events, cap, ids), agent);
      Forest.Roots(Forest.Order(all), Forest.Table(all)) == [agent.id]
  {
    RecordIds(events, cap, ids);
    var st := Collect(events, cap, ids);
    var all := PayloadSpans(st, agent);
    var order, table := Forest.Order(all), Forest.Table(all);
    PayloadTable(st, ids, agent);
    PayloadParents(st, ids, agent);
    Forest.OrderWellFormed(all);
    Forest.ShownUnderShape(order, table, None);
    OnlyAgentUnparented(table, st, ids, agent.id);
    OneElement(Forest.Roots(order, table), agent.id);
  }

  lemma OnlyAgentUnparented(table: map<SpanId, Span>, st: Collected, ids: nat -> SpanId, agent: SpanId)
    requires NumberedIds(st, ids) && HangsFrom(table, st, ids, agent)
    requires forall x :: x in table <==> x == agent || Drawn(x, |st.order|, ids)
    ensures forall x :: x in table && Forest.Parent(table, x) == None <==> x == agent
  {
    assert forall i: nat :: i < |st.order| ==> Forest.Parent(table, ids(i)).Some?;
  }

  /** With ancestors recorded first, every parent chain of the payload leads to the agent and ends. */
  lemma {:induction false} CausalChainsEnd(table: map<SpanId, Span>, st: Collected, ids: nat -> SpanId, agent: SpanId, i: nat)
    requires NumberedIds(st, ids) && HangsFrom(table, st, ids, agent) && Causal(st) && i < |st.order|
    ensures Forest.ChainEnds(table, ids(i))
  {
    assert Forest.Parent(table, ids(i)) == Some(ShownParent(st, i, agent));
    var p := Nearest(st.records[st.order[i]].parents, st.records);
    if p.None? {
      AgentChainEnds(table, agent);
      Forest.ChainEndsThroughParent(table, ids(i), agent);
    } else {
      assert p.value in st.order[..i];
      var j :| 0 <= j < i && st.order[j] == p.value;
      CausalChainsEnd(table, st, ids, agent, j);
      Forest.ChainEndsThroughParent(table, ids(i), ids(j));
    }
  }

  lemma AgentChainEnds(table: map<SpanId, Span>, agent: SpanId)
    requires Forest.Parent(table, agent) == None
    ensures Forest.ChainEnds(table, agent)
  {
    assert Forest.Ancestor(table, agent, 0) == Some(agent);
    assert Forest.Ancestor(table, agent, 1).None?;
  }

  /**
   From a stream that starts ancestors first, capped at 450 or at any other number, the waterfall
   view shows the agent span and every collected span exactly once, below the one root.
   */
  lemma EverySpanRenderedOnce(events: seq<Event>, cap: nat, ids: nat -> SpanId, agent: Span, x: SpanId)
    requires AncestorsFirst(events) && FreshIds(ids, agent.id) && agent.parent.None?
    ensures WellFormed(Collect(events, cap, ids))
    ensures
      var st := Collect(events, cap, ids);
      Occurrences(x, Forest.Rendered(PayloadSpans(st, agent), |st.order| + 1))
      == if x == agent.id || Drawn(x, |st.order|, ids) then 1 else 0
  {
    RecordIds(events, cap, ids);
    AncestorsFirstKept(events, cap, if |events| > cap then |events| else cap, ids);
    CausalRenderedOnce(Collect(events, cap, ids), ids, agent, x);
  }

  lemma CausalRenderedOnce(st: Collected, ids: nat -> SpanId, agent: Span, x: SpanId)
    requires NumberedIds(st, ids) && Causal(st) && FreshIds(ids, agent.id) && agent.parent.None?
    ensures Occurrences(x, Forest.Rendered(PayloadSpans(st, agent), |st.order| + 1))
            == if x == agent.id || Drawn(x, |st.order|, ids) then 1 else 0
  {
    PayloadTable(st, ids, agent);
    PayloadParents(st, ids, agent);
    RenderedOnceIn(PayloadSpans(st, agent), st, ids, agent, x);
  }

  lemma RenderedOnceIn(all: seq<Span>, st: Collected, ids: nat -> SpanId, agent: Span, x: SpanId)
    requires NumberedIds(st, ids) && Causal(st)
    requires TableOf(Forest.Table(all), SpansOf(st), ids, agent) && HangsFrom(Forest.Table(all), st, ids, agent.id)
    ensures Occurrences(x, Forest.Rendered(all, |st.order| + 1))
            == if x == agent.id || Drawn(x, |st.order|, ids) then 1 else 0
  {
    var table := Forest.Table(all);
    Forest.RenderedExactlyOnce(all, x, |st.order| + 1);
    AgentChainEnds(table, agent.id);
    if Drawn(x, |st.order|, ids) {
      var i: nat :| i < |st.order| && ids(i) == x;
      CausalChainsEnd(table, st, ids, agent.id, i);
    }
  }
}
