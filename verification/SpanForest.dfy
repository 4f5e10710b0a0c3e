/**
 The forest of spans behind the waterfall view (buildTree in
 frontend/src/components/features/WaterfallTree.tsx), and the depth-first walk that renders it.
 */
module SpanForest {
  import opened Wrappers
  import opened Collections
  import opened Spans

  // -- Specification -----------------------------------------------------------

  /** A JavaScript Map keeps a repeated key at its first place with its last value. */
  function Order(spans: seq<Span>): seq<SpanId> {
    if spans == [] then []
    else
      var before, id := Order(spans[..|spans| - 1]), spans[|spans| - 1].id;
      if id in before then before else before + [id]
  }

  function Table(spans: seq<Span>): map<SpanId, Span> {
    if spans == [] then map[]
    else
      var s := spans[|spans| - 1];
      Table(spans[..|spans| - 1])[s.id := s]
  }

  /** The parent under which a node is shown: present, not empty and known. */
  function Parent(table: map<SpanId, Span>, id: SpanId): Option<SpanId> {
    if id !in table then None
    else
      var p := table[id].parent;
      if p.Some? && p.value != "" && p.value in table then p else None
  }

  /** The ids shown under `parent` (the roots for None), in map order. */
  function ShownUnder(ids: seq<SpanId>, table: map<SpanId, Span>, parent: Option<SpanId>): seq<SpanId> {
    if ids == [] then []
    else
      var id := ids[|ids| - 1];
      ShownUnder(ids[..|ids| - 1], table, parent) + if Parent(table, id) == parent then [id] else []
  }

  function Roots(order: seq<SpanId>, table: map<SpanId, Span>): seq<SpanId> {
    ShownUnder(order, table, None)
  }

  function Children(order: seq<SpanId>, table: map<SpanId, Span>, id: SpanId): seq<SpanId> {
    ShownUnder(order, table, Some(id))
  }

  ghost predicate WellFormed(order: seq<SpanId>, table: map<SpanId, Span>) {
    Distinct(order) && forall id :: id in order <==> id in table
  }

  lemma {:induction false} OrderWellFormed(spans: seq<Span>)
    ensures WellFormed(Order(spans), Table(spans))
    ensures forall id :: id in Table(spans) ==> Table(spans)[id].id == id
    ensures forall s :: s in spans ==> s.id in Table(spans)
  {
    if spans != [] {
      var init, s := spans[..|spans| - 1], spans[|spans| - 1];
      assert spans == init + [s];
      OrderWellFormed(init);
    }
  }

  // -- The specification, read off the spans --------------------------------------

  function Ids(spans: seq<Span>): (r: seq<SpanId>)
    ensures |r| == |spans| && forall i :: 0 <= i < |r| ==> r[i] == spans[i].id
  {
    if spans == [] then [] else Ids(spans[..|spans| - 1]) + [spans[|spans| - 1].id]
  }

  /** Nodes are made in the order in which their ids first come. */
  lemma {:induction false} OrderIsFirst(spans: seq<Span>)
    ensures FirstPlaces(Ids(spans), Order(spans))
    ensures forall id :: id in Order(spans) <==> id in Ids(spans)
  {
    if spans != [] {
      var init, id := spans[..|spans| - 1], spans[|spans| - 1].id;
      OrderIsFirst(init);
      OrderWellFormed(init);
      FirstPlacesAppend(Ids(init), id, Order(init), id !in Order(init));
    }
  }

  /** No later span has the same id. */
  ghost predicate LastOfItsId(spans: seq<Span>, i: nat) {
    i < |spans| && forall j :: i < j < |spans| ==> spans[j].id != spans[i].id
  }

  lemma {:induction false} LastIsKept(spans: seq<Span>, i: nat)
    requires LastOfItsId(spans, i)
    ensures spans[i].id in Table(spans) && Table(spans)[spans[i].id] == spans[i]
  {
    if i < |spans| - 1 {
      assert spans[..|spans| - 1][i] == spans[i];
      LastIsKept(spans[..|spans| - 1], i);
    }
  }

  lemma {:induction false} KnownIds(spans: seq<Span>, id: SpanId)
    ensures id in Table(spans) <==> id in Ids(spans)
  {
    if spans != [] { KnownIds(spans[..|spans| - 1], id); }
  }

  /** A span is shown under the span that it names as its parent, if that is one of the spans and not the empty id. */
  lemma HangsUnder(spans: seq<Span>, i: nat, p: SpanId)
    requires LastOfItsId(spans, i)
    ensures Occurrences(spans[i].id, Children(Order(spans), Table(spans), p))
            == if spans[i].parent == Some(p) && p != "" && p in Ids(spans) then 1 else 0
  {
    LastIsKept(spans, i);
    KnownIds(spans, p);
    ShownExactlyOnce(spans, spans[i].id, Some(p));
  }

  /** It is a root exactly if it names none, the empty id, or one that is not among the spans. */
  lemma IsRoot(spans: seq<Span>, i: nat)
    requires LastOfItsId(spans, i)
    ensures Occurrences(spans[i].id, Roots(Order(spans), Table(spans)))
            == if spans[i].parent == None || spans[i].parent == Some("") || spans[i].parent.value !in Ids(spans) then 1 else 0
  {
    LastIsKept(spans, i);
    if spans[i].parent.Some? { KnownIds(spans, spans[i].parent.value); }
    ShownExactlyOnce(spans, spans[i].id, None);
  }

  /** Roots and siblings stand in the order in which their ids first come. */
  lemma {:induction false} ShownInOrder(ids: seq<SpanId>, table: map<SpanId, Span>, parent: Option<SpanId>)
    requires Distinct(ids)
    ensures FirstPlaces(ids, ShownUnder(ids, table, parent))
  {
    if ids != [] {
      var init, id := ids[..|ids| - 1], ids[|ids| - 1];
      assert ids == init + [id];
      ShownInOrder(init, table, parent);
      ShownUnderShape(init, table, parent);
      FirstPlacesAppend(init, id, ShownUnder(init, table, parent), Parent(table, id) == parent);
    }
  }

  // -- buildTree ---------------------------------------------------------------

  class SpanNode {
    const span: Span
    var children: seq<SpanNode>

    constructor (span: Span)
      ensures this.span == span && children == []
    {
      this.span, children := span, [];
    }
  }

  /** `list` holds the nodes of `ids`, in order. */
  ghost predicate Holds(list: seq<SpanNode>, ids: seq<SpanId>, nodes: map<SpanId, SpanNode>) {
    |list| == |ids| && forall i :: 0 <= i < |ids| ==> ids[i] in nodes && list[i] == nodes[ids[i]]
  }

  ghost predicate NodesOf(nodes: map<SpanId, SpanNode>, table: map<SpanId, Span>) {
    && nodes.Keys == table.Keys
    && forall id :: id in table ==> nodes[id].span == table[id] && table[id].id == id
  }

  ghost predicate Linked(nodes: map<SpanId, SpanNode>, ids: seq<SpanId>, table: map<SpanId, Span>)
    reads nodes.Values
  {
    forall id :: id in nodes ==> Holds(nodes[id].children, ShownUnder(ids, table, Some(id)), nodes)
  }

  lemma ShownUnderNext(ids: seq<SpanId>, id: SpanId, table: map<SpanId, Span>, parent: Option<SpanId>)
    ensures ShownUnder(ids + [id], table, parent)
            == if Parent(table, id) == parent then ShownUnder(ids, table, parent) + [id] else ShownUnder(ids, table, parent)
  {
    assert (ids + [id])[..|ids|] == ids;
  }

  method MakeNodes(spans: seq<Span>) returns (order: seq<SpanId>, nodes: map<SpanId, SpanNode>)
    ensures order == Order(spans) && NodesOf(nodes, Table(spans))
    ensures forall id :: id in order <==> id in nodes
    ensures forall id :: id in nodes ==> fresh(nodes[id]) && nodes[id].children == []
  {
    order, nodes := [], map[];
    for i := 0 to |spans|
      invariant order == Order(spans[..i]) && NodesOf(nodes, Table(spans[..i]))
      invariant forall id :: id in order <==> id in nodes
      invariant forall id :: id in nodes ==> fresh(nodes[id]) && nodes[id].children == []
    {
      var node := new SpanNode(spans[i]);
      if spans[i].id !in nodes { order := order + [spans[i].id]; }
      nodes := nodes[spans[i].id := node];
      assert spans[..i + 1][..i] == spans[..i];
    }
    assert spans[..|spans|] == spans;
  }

  /** Pushes one node under its parent, or hands it back as a root. */
  method Attach(id: SpanId, nodes: map<SpanId, SpanNode>, ghost ids: seq<SpanId>, ghost table: map<SpanId, Span>)
    returns (isRoot: bool)
    requires id in nodes && NodesOf(nodes, table) && Linked(nodes, ids, table)
    modifies nodes.Values
    ensures Linked(nodes, ids + [id], table)
    ensures isRoot <==> Parent(table, id).None?
  {
    var node := nodes[id];
    var parent := node.span.parent;
    isRoot := !(parent.Some? && parent.value != "" && parent.value in nodes);
    if !isRoot {
      nodes[parent.value].children := nodes[parent.value].children + [node];
    }
    forall p | p in nodes
      ensures Holds(nodes[p].children, ShownUnder(ids + [id], table, Some(p)), nodes)
    {
      ShownUnderNext(ids, id, table, Some(p));
    }
  }

  /** Attaches one node and adds it to the roots if it is one. */
  method AttachNext(id: SpanId, roots: seq<SpanNode>, nodes: map<SpanId, SpanNode>,
                    ghost ids: seq<SpanId>, ghost table: map<SpanId, Span>) returns (more: seq<SpanNode>)
    requires id in nodes && NodesOf(nodes, table) && Linked(nodes, ids, table)
    requires Holds(roots, ShownUnder(ids, table, None), nodes)
    modifies nodes.Values
    ensures Holds(more, ShownUnder(ids + [id], table, None), nodes)
    ensures Linked(nodes, ids + [id], table)
  {
    ShownUnderNext(ids, id, table, None);
    var isRoot := Attach(id, nodes, ids, table);
    more := if isRoot then roots + [nodes[id]] else roots;
  }

  /** Attaches every node in order and collects the roots. */
  method AttachAll(order: seq<SpanId>, nodes: map<SpanId, SpanNode>, ghost table: map<SpanId, Span>)
    returns (roots: seq<SpanNode>)
    requires NodesOf(nodes, table) && (forall id :: id in order ==> id in nodes) && Linked(nodes, [], table)
    modifies nodes.Values
    ensures Holds(roots, Roots(order, table), nodes)
    ensures Linked(nodes, order, table)
  {
    roots := [];
    ghost var done: seq<SpanId> := [];
    for i := 0 to |order|
      invariant done == order[..i]
      invariant Holds(roots, ShownUnder(done, table, None), nodes)
      invariant Linked(nodes, done, table)
    {
      roots := AttachNext(order[i], roots, nodes, done, table);
      done := done + [order[i]];
    }
    assert done == order;
  }

  /** One node for each distinct span id; every node hangs exactly where the specification shows it. */
  method BuildTree(spans: seq<Span>) returns (roots: seq<SpanNode>, nodes: map<SpanId, SpanNode>)
    ensures NodesOf(nodes, Table(spans))
    ensures forall id :: id in nodes ==> fresh(nodes[id])
    ensures Holds(roots, Roots(Order(spans), Table(spans)), nodes)
    ensures Linked(nodes, Order(spans), Table(spans))
  {
    var order: seq<SpanId>;
    order, nodes := MakeNodes(spans);
    roots := AttachAll(order, nodes, Table(spans));
  }

  // -- Every node is shown in one place ----------------------------------------

  lemma {:induction false} ShownUnderShape(ids: seq<SpanId>, table: map<SpanId, Span>, parent: Option<SpanId>)
    requires Distinct(ids)
    ensures Distinct(ShownUnder(ids, table, parent))
    ensures forall x :: x in ShownUnder(ids, table, parent) <==> x in ids && Parent(table, x) == parent
  {
    if ids != [] {
      var init, id := ids[..|ids| - 1], ids[|ids| - 1];
      assert ids == init + [id];
      ShownUnderShape(init, table, parent);
    }
  }

  /** A node stands once in the list of its own parent, or among the roots, and in no other list. */
  lemma ShownExactlyOnce(spans: seq<Span>, x: SpanId, parent: Option<SpanId>)
    ensures Occurrences(x, ShownUnder(Order(spans), Table(spans), parent))
            == if x in Table(spans) && Parent(Table(spans), x) == parent then 1 else 0
  {
    OrderWellFormed(spans);
    ShownUnderShape(Order(spans), Table(spans), parent);
    DistinctOccurrences(x, ShownUnder(Order(spans), Table(spans), parent));
  }

  // -- Parent chains -----------------------------------------------------------

  /** The `d`-th ancestor of `x`, itself for 0; None once the chain has ended. */
  function Ancestor(table: map<SpanId, Span>, x: SpanId, d: nat): Option<SpanId> {
    if d == 0 then Some(x)
    else
      match Ancestor(table, x, d - 1)
      case None => None
      case Some(y) => Parent(table, y)
  }

  ghost predicate ChainEnds(table: map<SpanId, Span>, x: SpanId) {
    exists d: nat :: Ancestor(table, x, d).None?
  }

  lemma {:induction false} AncestorsKnown(table: map<SpanId, Span>, x: SpanId, d: nat)
    requires x in table
    ensures Ancestor(table, x, d).Some? ==> Ancestor(table, x, d).value in table
  {
    if d > 0 { AncestorsKnown(table, x, d - 1); }
  }

  lemma {:induction false} EndedStaysEnded(table: map<SpanId, Span>, x: SpanId, d: nat, e: nat)
    requires d <= e && Ancestor(table, x, d).None?
    ensures Ancestor(table, x, e).None?
  {
    if d < e { EndedStaysEnded(table, x, d, e - 1); }
  }

  lemma {:induction false} SameAncestorsFrom(table: map<SpanId, Span>, x: SpanId, i: nat, y: SpanId, j: nat, k: nat)
    requires Ancestor(table, x, i) == Ancestor(table, y, j)
    ensures Ancestor(table, x, i + k) == Ancestor(table, y, j + k)
  {
    if k > 0 { SameAncestorsFrom(table, x, i, y, j, k - 1); }
  }

  ghost function ChainSet(table: map<SpanId, Span>, x: SpanId, k: nat): set<SpanId> {
    if k == 0 then {}
    else
      ChainSet(table, x, k - 1) + match Ancestor(table, x, k - 1) case None => {} case Some(y) => {y}
  }

  ghost predicate OnChain(table: map<SpanId, Span>, x: SpanId, y: SpanId, k: nat) {
    exists i: nat :: i < k && Ancestor(table, x, i) == Some(y)
  }

  ghost predicate Repeats(table: map<SpanId, Span>, x: SpanId, k: nat) {
    exists i: nat, j: nat :: i < j < k && Ancestor(table, x, i) == Ancestor(table, x, j)
  }

  lemma OnChainOnward(table: map<SpanId, Span>, x: SpanId, y: SpanId, k: nat)
    requires OnChain(table, x, y, k) || Ancestor(table, x, k) == Some(y)
    ensures OnChain(table, x, y, k + 1)
  {
  }

  /** One more place on the chain is a new id or repeats one. */
  lemma ChainGrows(table: map<SpanId, Span>, x: SpanId, k: nat)
    requires Ancestor(table, x, k).Some?
    requires forall y :: y in ChainSet(table, x, k) ==> OnChain(table, x, y, k)
    requires |ChainSet(table, x, k)| == k || Repeats(table, x, k)
    ensures |ChainSet(table, x, k + 1)| == k + 1 || Repeats(table, x, k + 1)
  {
    var y := Ancestor(table, x, k).value;
    if Repeats(table, x, k) {
      var i: nat, j: nat :| i < j < k && Ancestor(table, x, i) == Ancestor(table, x, j);
      assert Repeats(table, x, k + 1);
    } else if y in ChainSet(table, x, k) {
      var i: nat :| i < k && Ancestor(table, x, i) == Some(y);
      assert Ancestor(table, x, i) == Ancestor(table, x, k);
      assert Repeats(table, x, k + 1);
    } else {
      assert ChainSet(table, x, k + 1) == ChainSet(table, x, k) + {y};
    }
  }

  /** A chain that has not ended after k steps visits k ids or repeats one. */
  lemma {:induction false} ChainSetSize(table: map<SpanId, Span>, x: SpanId, k: nat)
    requires x in table && Ancestor(table, x, k).Some?
    ensures ChainSet(table, x, k) <= table.Keys
    ensures forall y :: y in ChainSet(table, x, k) ==> OnChain(table, x, y, k)
    ensures |ChainSet(table, x, k)| == k || Repeats(table, x, k)
  {
    if k > 0 {
      ChainSetSize(table, x, k - 1);
      AncestorsKnown(table, x, k - 1);
      ChainGrows(table, x, k - 1);
      forall y | y in ChainSet(table, x, k) ensures OnChain(table, x, y, k) { OnChainOnward(table, x, y, k - 1); }
    }
  }

  lemma {:induction false} RepeatingNeverEnds(table: map<SpanId, Span>, x: SpanId, i: nat, j: nat, d: nat)
    requires i < j && Ancestor(table, x, i) == Ancestor(table, x, j) && Ancestor(table, x, j).Some?
    ensures Ancestor(table, x, d).Some?
    decreases d
  {
    if Ancestor(table, x, d).None? {
      if d <= j {
        EndedStaysEnded(table, x, d, j);
      } else {
        SameAncestorsFrom(table, x, i, x, j, d - j);
        RepeatingNeverEnds(table, x, i, j, i + (d - j));
      }
    }
  }

  /** A chain that ends at all ends within as many steps as there are spans. */
  lemma ChainEndsInTime(table: map<SpanId, Span>, x: SpanId, f: nat)
    requires x in table && f >= |table|
    ensures ChainEnds(table, x) <==> Ancestor(table, x, f).None?
  {
    if ChainEnds(table, x) && Ancestor(table, x, f).Some? {
      var d: nat :| Ancestor(table, x, d).None?;
      ChainSetSize(table, x, f);
      AncestorsKnown(table, x, f);
      if Repeats(table, x, f) {
        var i: nat, j: nat :| i < j < f && Ancestor(table, x, i) == Ancestor(table, x, j);
        if Ancestor(table, x, j).None? { EndedStaysEnded(table, x, j, f); }
        RepeatingNeverEnds(table, x, i, j, d);
      } else {
        FullChainRepeats(table, x, f, d);
      }
    }
  }

  /** With every id on the chain already, one more step must repeat. */
  lemma FullChainRepeats(table: map<SpanId, Span>, x: SpanId, f: nat, d: nat)
    requires x in table && f >= |table| && Ancestor(table, x, f).Some? && |ChainSet(table, x, f)| == f
    ensures Ancestor(table, x, d).Some?
  {
    ChainSetSize(table, x, f);
    AncestorsKnown(table, x, f);
    SubsetSize(ChainSet(table, x, f), table.Keys);
    var y := Ancestor(table, x, f).value;
    if y !in ChainSet(table, x, f) {
      SubsetSize(ChainSet(table, x, f) + {y}, table.Keys);
    }
    assert OnChain(table, x, y, f);
    var i: nat :| i < f && Ancestor(table, x, i) == Some(y);
    RepeatingNeverEnds(table, x, i, f, d);
  }

  // -- The depth-first walk ----------------------------------------------------

  /** Depth-first order below `id`, `depth` levels deep. */
  function Walk(order: seq<SpanId>, table: map<SpanId, Span>, id: SpanId, depth: nat): seq<SpanId>
    decreases depth, 0
  {
    if depth == 0 then [] else [id] + WalkAll(order, table, Children(order, table, id), depth - 1)
  }

  function WalkAll(order: seq<SpanId>, table: map<SpanId, Span>, ids: seq<SpanId>, depth: nat): seq<SpanId>
    decreases depth, 1 + |ids|
  {
    if ids == [] then []
    else WalkAll(order, table, ids[..|ids| - 1], depth) + Walk(order, table, ids[|ids| - 1], depth)
  }

  /** How often `y` stands on the first `f` places of the chain of `x`. */
  function Met(table: map<SpanId, Span>, x: SpanId, y: SpanId, f: nat): nat {
    if f == 0 then 0 else Met(table, x, y, f - 1) + if Ancestor(table, x, f - 1) == Some(y) then 1 else 0
  }

  function MetAny(table: map<SpanId, Span>, x: SpanId, ids: seq<SpanId>, f: nat): nat {
    if ids == [] then 0 else MetAny(table, x, ids[..|ids| - 1], f) + Met(table, x, ids[|ids| - 1], f)
  }

  lemma {:induction false} MetAnyStep(table: map<SpanId, Span>, x: SpanId, ids: seq<SpanId>, f: nat)
    requires Distinct(ids)
    ensures MetAny(table, x, ids, f + 1) == MetAny(table, x, ids, f)
            + if Ancestor(table, x, f).Some? && Ancestor(table, x, f).value in ids then 1 else 0
  {
    if ids != [] {
      var init := ids[..|ids| - 1];
      assert ids == init + [ids[|ids| - 1]];
      MetAnyStep(table, x, init, f);
    }
  }

  lemma {:induction false} MetAnyZero(table: map<SpanId, Span>, x: SpanId, ids: seq<SpanId>)
    ensures MetAny(table, x, ids, 0) == 0
  {
    if ids != [] { MetAnyZero(table, x, ids[..|ids| - 1]); }
  }

  /** `y` is met where one of its children was met one place earlier, or at the start. */
  lemma {:induction false} MetThroughChildren(order: seq<SpanId>, table: map<SpanId, Span>, x: SpanId, y: SpanId, f: nat)
    requires WellFormed(order, table)
    ensures Met(table, x, y, f + 1) == (if x == y then 1 else 0) + MetAny(table, x, Children(order, table, y), f)
  {
    var cs := Children(order, table, y);
    if f == 0 {
      MetAnyZero(table, x, cs);
      assert Met(table, x, y, 1) == Met(table, x, y, 0) + if Ancestor(table, x, 0) == Some(y) then 1 else 0;
    } else {
      MetThroughChildren(order, table, x, y, f - 1);
      ShownUnderShape(order, table, Some(y));
      MetAnyStep(table, x, cs, f - 1);
    }
  }

  /** A walk shows `x` once for every way its chain meets the walk's start. */
  lemma {:induction false} WalkShows(order: seq<SpanId>, table: map<SpanId, Span>, x: SpanId, y: SpanId, f: nat)
    requires WellFormed(order, table)
    ensures Occurrences(x, Walk(order, table, y, f)) == Met(table, x, y, f)
    decreases f, 0
  {
    if f > 0 {
      var cs := Children(order, table, y);
      WalkAllShows(order, table, x, cs, f - 1);
      OccurrencesAppend(x, [y], WalkAll(order, table, cs, f - 1));
      assert Occurrences(x, [y]) == if x == y then 1 else 0 by { assert [y][..0] == []; }
      MetThroughChildren(order, table, x, y, f - 1);
    }
  }

  lemma {:induction false} WalkAllShows(order: seq<SpanId>, table: map<SpanId, Span>, x: SpanId, ids: seq<SpanId>, f: nat)
    requires WellFormed(order, table)
    ensures Occurrences(x, WalkAll(order, table, ids, f)) == MetAny(table, x, ids, f)
    decreases f, 1 + |ids|
  {
    if ids != [] {
      var init, y := ids[..|ids| - 1], ids[|ids| - 1];
      WalkAllShows(order, table, x, init, f);
      WalkShows(order, table, x, y, f);
      OccurrencesAppend(x, WalkAll(order, table, init, f), Walk(order, table, y, f));
    }
  }

  /** The roots are met at most once: exactly when the chain has ended. */
  lemma {:induction false} RootsMet(order: seq<SpanId>, table: map<SpanId, Span>, x: SpanId, f: nat)
    requires WellFormed(order, table)
    ensures MetAny(table, x, Roots(order, table), f) == if x in table && Ancestor(table, x, f).None? then 1 else 0
  {
    if f == 0 {
      MetAnyZero(table, x, Roots(order, table));
    } else {
      RootsMet(order, table, x, f - 1);
      ShownUnderShape(order, table, None);
      MetAnyStep(table, x, Roots(order, table), f - 1);
      if x in table {
        AncestorsKnown(table, x, f - 1);
      } else {
        UnknownChain(table, x, f - 1);
      }
    }
  }

  lemma {:induction false} UnknownChain(table: map<SpanId, Span>, x: SpanId, d: nat)
    requires x !in table
    ensures Ancestor(table, x, d).Some? ==> Ancestor(table, x, d).value == x
  {
    if d > 0 { UnknownChain(table, x, d - 1); }
  }

  /** The whole tree as it is rendered, `depth` levels deep. */
  function Rendered(spans: seq<Span>, depth: nat): seq<SpanId> {
    WalkAll(Order(spans), Table(spans), Roots(Order(spans), Table(spans)), depth)
  }

  /**
   For any spans, cyclic or not, and any depth from the number of spans on: the rendered tree shows
   a span exactly once if its parent chain ends, and never otherwise.
   */
  lemma RenderedExactlyOnce(spans: seq<Span>, x: SpanId, depth: nat)
    requires depth >= |Table(spans)|
    ensures Occurrences(x, Rendered(spans, depth)) == if x in Table(spans) && ChainEnds(Table(spans), x) then 1 else 0
  {
    var order, table := Order(spans), Table(spans);
    OrderWellFormed(spans);
    WalkAllShows(order, table, x, Roots(order, table), depth);
    RootsMet(order, table, x, depth);
    if x in table { ChainEndsInTime(table, x, depth); }
  }

  /** A parent whose chain ends passes that on. */
  lemma ChainEndsThroughParent(table: map<SpanId, Span>, x: SpanId, y: SpanId)
    requires Parent(table, x) == Some(y)
    ensures ChainEnds(table, x) <==> ChainEnds(table, y)
  {
    assert Ancestor(table, x, 0) == Some(x);
    assert Ancestor(table, x, 1) == Ancestor(table, y, 0);
    if d: nat :| Ancestor(table, y, d).None? {
      SameAncestorsFrom(table, x, 1, y, 0, d);
      assert Ancestor(table, x, d + 1).None?;
    }
    if d: nat :| Ancestor(table, x, d).None? {
      SameAncestorsFrom(table, x, 1, y, 0, d - 1);
      assert Ancestor(table, y, d - 1).None?;
    }
  }
}
