/**
 The bounded LRU cache in front of the embedding model (LLMEngine.embed_texts in
 backend/app/infrastructure/llm/engine.py). Entries are kept oldest first; a text stands for its
 hash, and the engine uses one model.
 */
module EmbeddingCache {
  import opened Wrappers
  import opened Collections

  type Vector = seq<real>

  datatype Entry = Entry(text: string, vector: Vector)

  // -- The ordered dictionary --------------------------------------------------

  predicate Has(cache: seq<Entry>, text: string) {
    exists i :: 0 <= i < |cache| && cache[i].text == text
  }

  ghost predicate UniqueTexts(cache: seq<Entry>) {
    forall i, j :: 0 <= i < j < |cache| ==> cache[i].text != cache[j].text
  }

  /** Every entry is the true embedding of its text. */
  ghost predicate Faithful(cache: seq<Entry>, model: string -> Vector) {
    forall i :: 0 <= i < |cache| ==> cache[i].vector == model(cache[i].text)
  }

  function Find(cache: seq<Entry>, text: string): (i: nat)
    requires Has(cache, text)
    ensures i < |cache| && cache[i].text == text
  {
    if cache[0].text == text then 0
    else
      assert exists i :: 0 <= i < |cache[1..]| && cache[1..][i].text == text by {
        var i :| 0 <= i < |cache| && cache[i].text == text;
        assert cache[1..][i - 1].text == text;
      }
      1 + Find(cache[1..], text)
  }

  /** Drops the entry of `text`, if there is one, and keeps the order of the others. */
  function Without(cache: seq<Entry>, texts: set<string>): seq<Entry> {
    if cache == [] then []
    else
      var e := cache[|cache| - 1];
      Without(cache[..|cache| - 1], texts) + if e.text in texts then [] else [e]
  }

  function MoveToEnd(cache: seq<Entry>, text: string): seq<Entry>
    requires Has(cache, text)
  {
    var i := Find(cache, text);
    cache[..i] + cache[i + 1..] + [cache[i]]
  }

  /** Assignment keeps the place of a text that is there and appends one that is not. */
  function Assign(cache: seq<Entry>, text: string, vector: Vector): seq<Entry> {
    if Has(cache, text) then cache[Find(cache, text) := Entry(text, vector)]
    else cache + [Entry(text, vector)]
  }

  // -- One call ----------------------------------------------------------------

  /** Hits move to the end, in the order of the call. */
  function Touch(cache: seq<Entry>, texts: seq<string>): seq<Entry> {
    if texts == [] then cache
    else
      var before, t := Touch(cache, texts[..|texts| - 1]), texts[|texts| - 1];
      if Has(before, t) then MoveToEnd(before, t) else before
  }

  /** Texts of the call that are not cached, repetitions included. */
  function Misses(cache: seq<Entry>, texts: seq<string>): seq<string> {
    if texts == [] then []
    else Misses(cache, texts[..|texts| - 1]) + if Has(cache, texts[|texts| - 1]) then [] else [texts[|texts| - 1]]
  }

  function AssignAll(cache: seq<Entry>, texts: seq<string>, model: string -> Vector): seq<Entry> {
    if texts == [] then cache
    else
      var t := texts[|texts| - 1];
      Assign(AssignAll(cache, texts[..|texts| - 1], model), t, model(t))
  }

  function Evict(cache: seq<Entry>, maxSize: nat): seq<Entry> {
    if |cache| <= maxSize then cache else cache[|cache| - maxSize..]
  }

  /** The cache before eviction. */
  function Filled(cache: seq<Entry>, texts: seq<string>, model: string -> Vector): seq<Entry> {
    AssignAll(Touch(cache, texts), Misses(cache, texts), model)
  }

  function AfterCall(cache: seq<Entry>, texts: seq<string>, model: string -> Vector, maxSize: nat): seq<Entry> {
    if Misses(cache, texts) == [] then Touch(cache, texts) else Evict(Filled(cache, texts, model), maxSize)
  }

  function TextSet(texts: seq<string>): set<string> {
    set t | t in texts
  }

  function Texts(cache: seq<Entry>): set<string> {
    set e | e in cache :: e.text
  }

  // -- Order -------------------------------------------------------------------

  lemma HasInTexts(cache: seq<Entry>, t: string)
    ensures Has(cache, t) <==> t in Texts(cache)
  {
    if i :| 0 <= i < |cache| && cache[i].text == t { assert cache[i] in cache; }
  }

  lemma TextsAppend(a: seq<Entry>, b: seq<Entry>)
    ensures Texts(a + b) == Texts(a) + Texts(b)
  {
    forall t ensures t in Texts(a + b) <==> t in Texts(a) + Texts(b) {
      if e :| e in a + b && e.text == t { assert e in a || e in b; }
      if e :| e in a && e.text == t { assert e in a + b; }
      if e :| e in b && e.text == t { assert e in a + b; }
    }
  }

  lemma NewText(init: seq<Entry>, e: Entry)
    requires forall i :: 0 <= i < |init| ==> init[i].text != e.text
    ensures |Texts(init + [e])| == |Texts(init)| + 1
  {
    TextsAppend(init, [e]);
    HasInTexts(init, e.text);
    assert Texts([e]) == {e.text};
  }

  lemma {:induction false} UniqueTextsSize(cache: seq<Entry>)
    requires UniqueTexts(cache)
    ensures |Texts(cache)| == |cache|
  {
    if cache != [] {
      var init, e := cache[..|cache| - 1], cache[|cache| - 1];
      UniqueTextsSize(init);
      NewText(init, e);
      assert cache == init + [e];
    }
  }

  /** `all` is `rest` and then entries for exactly the texts `last`. */
  ghost predicate EndsIn(all: seq<Entry>, rest: seq<Entry>, last: set<string>) {
    |rest| <= |all| && all[..|rest|] == rest && Texts(all[|rest|..]) == last
  }

  /** `all` is old entries outside `requested`, in their old order, then the requested ones. */
  ghost predicate RequestedLast(all: seq<Entry>, cache: seq<Entry>, requested: set<string>) {
    EndsIn(all, Without(cache, requested), requested)
  }

  lemma {:induction false} WithoutShape(cache: seq<Entry>, texts: set<string>)
    ensures Texts(Without(cache, texts)) == Texts(cache) - texts
  {
    if cache != [] {
      var init, e := cache[..|cache| - 1], cache[|cache| - 1];
      WithoutShape(init, texts);
      assert cache == init + [e];
      TextsAppend(init, [e]);
      assert Texts([e]) == {e.text};
      TextsAppend(Without(init, texts), if e.text in texts then [] else [e]);
    }
  }

  lemma {:induction false} WithoutAppend(a: seq<Entry>, b: seq<Entry>, texts: set<string>)
    ensures Without(a + b, texts) == Without(a, texts) + Without(b, texts)
  {
    if b == [] {
      assert a + b == a;
    } else {
      assert (a + b)[..|a + b| - 1] == a + b[..|b| - 1];
      WithoutAppend(a, b[..|b| - 1], texts);
    }
  }

  lemma {:induction false} WithoutNone(a: seq<Entry>, texts: set<string>)
    requires Texts(a) !! texts
    ensures Without(a, texts) == a
  {
    if a != [] {
      var init, e := a[..|a| - 1], a[|a| - 1];
      assert a == init + [e];
      TextsAppend(init, [e]);
      assert e.text in Texts(a) by { assert e in a; }
      WithoutNone(init, texts);
    }
  }

  lemma {:induction false} WithoutTwice(cache: seq<Entry>, a: set<string>, b: set<string>)
    ensures Without(Without(cache, a), b) == Without(cache, a + b)
  {
    if cache != [] {
      var init, e := cache[..|cache| - 1], cache[|cache| - 1];
      WithoutTwice(init, a, b);
      WithoutAppend(Without(init, a), if e.text in a then [] else [e], b);
      assert Without(Without(init, a), b) + [] == Without(Without(init, a), b);
      assert Without([e], b) == if e.text in b then [] else [e];
    }
  }

  lemma TextAbsent(a: seq<Entry>, t: string)
    requires forall i :: 0 <= i < |a| ==> a[i].text != t
    ensures Without(a, {t}) == a
  {
    forall u | u in Texts(a) ensures u != t { HasInTexts(a, u); }
    WithoutNone(a, {t});
  }

  lemma OtherTexts(a: seq<Entry>, e: Entry, b: seq<Entry>)
    requires UniqueTexts(a + [e] + b)
    ensures forall i :: 0 <= i < |a| ==> a[i].text != e.text
    ensures forall i :: 0 <= i < |b| ==> b[i].text != e.text
  {
    var all := a + [e] + b;
    assert all[|a|] == e;
    assert forall i :: 0 <= i < |a| ==> all[i] == a[i];
    assert forall i :: 0 <= i < |b| ==> all[|a| + 1 + i] == b[i];
  }

  /** With unique texts, taking one out leaves what stood before and after it. */
  lemma WithoutOne(a: seq<Entry>, e: Entry, b: seq<Entry>)
    requires UniqueTexts(a + [e] + b)
    ensures Without(a + [e] + b, {e.text}) == a + b
  {
    WithoutAppend(a + [e], b, {e.text});
    WithoutAppend(a, [e], {e.text});
    OtherTexts(a, e, b);
    TextAbsent(a, e.text);
    TextAbsent(b, e.text);
    assert [e][..0] == [] && Without([e], {e.text}) == [];
    assert a + [] == a;
  }

  /** Moving a text to the end takes it out of its place and appends it. */
  lemma MoveToEndIs(cache: seq<Entry>, t: string)
    requires UniqueTexts(cache) && Has(cache, t)
    ensures MoveToEnd(cache, t) == Without(cache, {t}) + [cache[Find(cache, t)]]
    ensures UniqueTexts(MoveToEnd(cache, t)) && Texts(MoveToEnd(cache, t)) == Texts(cache)
  {
    var i := Find(cache, t);
    var a, e, b := cache[..i], cache[i], cache[i + 1..];
    assert cache == a + [e] + b;
    WithoutOne(a, e, b);
    TextsAppend(a + [e], b);
    TextsAppend(a, [e]);
    TextsAppend(a + b, [e]);
    TextsAppend(a, b);
    Rotated(a, e, b);
  }

  lemma Rotated(a: seq<Entry>, e: Entry, b: seq<Entry>)
    requires UniqueTexts(a + [e] + b)
    ensures UniqueTexts(a + b + [e])
  {
    var all, moved := a + [e] + b, a + b + [e];
    forall i, j | 0 <= i < j < |moved| ensures moved[i].text != moved[j].text {
      var i' := if i < |a| then i else i + 1;
      var j' := if j < |a| then j else if j < |a| + |b| then j + 1 else |a|;
      assert moved[i] == all[i'] && moved[j] == all[j'];
    }
  }

  /** After the hits are moved: the untouched entries, then the hits. */
  lemma {:induction false} TouchShape(cache: seq<Entry>, texts: seq<string>)
    requires UniqueTexts(cache)
    ensures
      var all := Touch(cache, texts);
      UniqueTexts(all) && Texts(all) == Texts(cache) && RequestedLast(all, cache, TextSet(texts) * Texts(cache))
  {
    if texts == [] {
      WithoutNone(cache, TextSet([]) * Texts(cache));
      assert cache[|cache|..] == [] && cache[..|cache|] == cache;
    } else {
      var init, t := texts[..|texts| - 1], texts[|texts| - 1];
      assert texts == init + [t];
      TouchShape(cache, init);
      var before := Touch(cache, init);
      var hits, hits' := TextSet(init) * Texts(cache), TextSet(texts) * Texts(cache);
      HasInTexts(before, t);
      if !Has(before, t) {
        assert hits' == hits;
      } else {
        assert hits' == hits + {t};
        MoveToEndIs(before, t);
        MovedLast(before, cache, hits, t, before[Find(before, t)], MoveToEnd(before, t));
      }
    }
  }

  lemma MovedLast(before: seq<Entry>, cache: seq<Entry>, hits: set<string>, t: string, e: Entry, moved: seq<Entry>)
    requires RequestedLast(before, cache, hits)
    requires moved == Without(before, {t}) + [e] && e.text == t
    ensures RequestedLast(moved, cache, hits + {t})
  {
    WithoutTwice(cache, hits, {t});
    MovedTail(Without(cache, hits), before, hits, t, e);
  }

  lemma MovedTail(rest: seq<Entry>, before: seq<Entry>, hits: set<string>, t: string, e: Entry)
    requires EndsIn(before, rest, hits) && e.text == t
    ensures EndsIn(Without(before, {t}) + [e], Without(rest, {t}), hits + {t})
  {
    var tail := before[|rest|..];
    assert before == rest + tail;
    WithoutAppend(rest, tail, {t});
    TailTexts(tail, hits, t, e);
    SplitAt(Without(rest, {t}), Without(tail, {t}) + [e], Without(before, {t}) + [e]);
  }

  lemma TailTexts(tail: seq<Entry>, hits: set<string>, t: string, e: Entry)
    requires Texts(tail) == hits && e.text == t
    ensures Texts(Without(tail, {t}) + [e]) == hits + {t}
  {
    WithoutShape(tail, {t});
    TextsAppend(Without(tail, {t}), [e]);
    assert Texts([e]) == {t};
  }

  lemma SplitAt(a: seq<Entry>, b: seq<Entry>, all: seq<Entry>)
    requires all == a + b
    ensures |a| <= |all| && all[..|a|] == a && all[|a|..] == b
  {
  }

  lemma {:induction false} MissesShape(cache: seq<Entry>, texts: seq<string>)
    ensures TextSet(Misses(cache, texts)) == TextSet(texts) - Texts(cache)
  {
    if texts != [] {
      var init, t := texts[..|texts| - 1], texts[|texts| - 1];
      assert texts == init + [t];
      MissesShape(cache, init);
      HasInTexts(cache, t);
      assert TextSet(texts) == TextSet(init) + {t};
      assert Misses(cache, init) + [] == Misses(cache, init);
      assert TextSet(Misses(cache, init) + [t]) == TextSet(Misses(cache, init)) + {t};
    }
  }

  /** The state of the fill: old entries in place, then one entry for each text in `done`. */
  ghost predicate FilledTo(all: seq<Entry>, cache: seq<Entry>, done: set<string>, model: string -> Vector) {
    && UniqueTexts(all) && Faithful(all, model)
    && |all| >= |cache| && all[..|cache|] == cache && Texts(all[|cache|..]) == done
  }

  /** A text that the call brought in already is overwritten with the same vector. */
  lemma AssignAgain(before: seq<Entry>, cache: seq<Entry>, done: set<string>, model: string -> Vector, t: string)
    requires FilledTo(before, cache, done, model) && Has(before, t) && t !in Texts(cache)
    ensures t in done && Assign(before, t, model(t)) == before
  {
    var i := Find(before, t);
    HasInTexts(cache, t);
    assert forall k :: 0 <= k < |cache| ==> before[..|cache|][k] == before[k] && cache[k].text != t;
    assert before[|cache|..][i - |cache|] == before[i];
    assert before[|cache|..][i - |cache|] in before[|cache|..];
    assert before[i] == Entry(t, model(t));
  }

  lemma AssignNew(before: seq<Entry>, cache: seq<Entry>, done: set<string>, model: string -> Vector, t: string)
    requires FilledTo(before, cache, done, model) && !Has(before, t)
    ensures FilledTo(before + [Entry(t, model(t))], cache, done + {t}, model)
  {
    var e := Entry(t, model(t));
    var all := before + [e];
    assert all[..|cache|] == before[..|cache|];
    assert all[|cache|..] == before[|cache|..] + [e];
    TextsAppend(before[|cache|..], [e]);
    assert Texts([e]) == {t};
  }

  /** Filling in the misses appends each missing text once and moves nothing. */
  lemma {:induction false} AssignAllShape(cache: seq<Entry>, texts: seq<string>, model: string -> Vector)
    requires UniqueTexts(cache) && Faithful(cache, model) && TextSet(texts) !! Texts(cache)
    ensures FilledTo(AssignAll(cache, texts, model), cache, TextSet(texts), model)
  {
    if texts == [] {
      assert cache[|cache|..] == [];
    } else {
      var init, t := texts[..|texts| - 1], texts[|texts| - 1];
      assert texts == init + [t];
      assert TextSet(texts) == TextSet(init) + {t};
      AssignAllShape(cache, init, model);
      var before := AssignAll(cache, init, model);
      if Has(before, t) {
        AssignAgain(before, cache, TextSet(init), model, t);
      } else {
        AssignNew(before, cache, TextSet(init), model, t);
      }
    }
  }

  lemma {:induction false} TouchFaithful(cache: seq<Entry>, texts: seq<string>, model: string -> Vector)
    requires Faithful(cache, model)
    ensures Faithful(Touch(cache, texts), model) && |Touch(cache, texts)| == |cache|
  {
    if texts != [] { TouchFaithful(cache, texts[..|texts| - 1], model); }
  }

  /** Leaving out the hits leaves out everything requested, since the misses are not there. */
  lemma UnrequestedAreUntouched(cache: seq<Entry>, requested: set<string>)
    ensures Without(cache, requested * Texts(cache)) == Without(cache, requested)
  {
    var hits := requested * Texts(cache);
    WithoutShape(cache, hits);
    WithoutNone(Without(cache, hits), requested - Texts(cache));
    WithoutTwice(cache, hits, requested - Texts(cache));
    assert hits + (requested - Texts(cache)) == requested;
  }

  /** Appending to a list appends to its tail. */
  lemma JoinTails(rest: seq<Entry>, touched: seq<Entry>, all: seq<Entry>)
    requires |rest| <= |touched| <= |all| && touched[..|rest|] == rest && all[..|touched|] == touched
    ensures all[..|rest|] == rest
    ensures Texts(all[|rest|..]) == Texts(touched[|rest|..]) + Texts(all[|touched|..])
  {
    assert all[..|rest|] == all[..|touched|][..|rest|];
    assert all[|rest|..] == touched[|rest|..] + all[|touched|..];
    TextsAppend(touched[|rest|..], all[|touched|..]);
  }

  lemma TailSize(all: seq<Entry>, k: nat)
    requires UniqueTexts(all) && k <= |all|
    ensures |all| == k + |Texts(all[k..])|
  {
    UniqueTextsSize(all[k..]);
  }

  /**
   Before eviction the cache is the old entries that were not requested, in their old order,
   followed by one entry for each distinct requested text.
   */
  lemma FilledShape(cache: seq<Entry>, texts: seq<string>, model: string -> Vector)
    requires UniqueTexts(cache) && Faithful(cache, model)
    ensures
      var all := Filled(cache, texts, model);
      && UniqueTexts(all) && Faithful(all, model)
      && RequestedLast(all, cache, TextSet(texts))
      && |all| == |Without(cache, TextSet(texts))| + |TextSet(texts)|
  {
    TouchShape(cache, texts);
    TouchFaithful(cache, texts, model);
    MissesShape(cache, texts);
    UnrequestedAreUntouched(cache, TextSet(texts));
    var touched, all := Touch(cache, texts), Filled(cache, texts, model);
    AssignAllShape(touched, Misses(cache, texts), model);
    var rest := Without(cache, TextSet(texts));
    JoinTails(rest, touched, all);
    assert TextSet(texts) * Texts(cache) + (TextSet(texts) - Texts(cache)) == TextSet(texts);
    TailSize(all, |rest|);
  }

  ghost predicate Sound(cache: seq<Entry>, model: string -> Vector) {
    UniqueTexts(cache) && Faithful(cache, model)
  }

  lemma EvictSound(cache: seq<Entry>, model: string -> Vector, maxSize: nat)
    requires Sound(cache, model)
    ensures Sound(Evict(cache, maxSize), model) && |Evict(cache, maxSize)| <= maxSize
  {
  }

  /**
   Every requested text can be read after the call exactly when all were cached or the distinct ones
   fit the cache, however large the cache was found.
   */
  lemma ReadableIffFits(cache: seq<Entry>, texts: seq<string>, model: string -> Vector, maxSize: nat)
    requires Sound(cache, model)
    ensures Sound(AfterCall(cache, texts, model, maxSize), model)
    ensures (forall t :: t in texts ==> Has(AfterCall(cache, texts, model, maxSize), t))
            <==> Misses(cache, texts) == [] || |TextSet(texts)| <= maxSize
  {
    var all, after := Filled(cache, texts, model), AfterCall(cache, texts, model, maxSize);
    if Misses(cache, texts) == [] {
      AllHits(cache, texts, model);
    } else {
      FilledShape(cache, texts, model);
      EvictSound(all, model, maxSize);
      if |TextSet(texts)| <= maxSize { FittingKept(all, cache, TextSet(texts), maxSize); }
      if forall t :: t in texts ==> Has(after, t) { ReadableFits(after, TextSet(texts)); }
    }
  }

  lemma AllHits(cache: seq<Entry>, texts: seq<string>, model: string -> Vector)
    requires Sound(cache, model) && Misses(cache, texts) == []
    ensures Sound(Touch(cache, texts), model) && forall t :: t in texts ==> Has(Touch(cache, texts), t)
  {
    TouchShape(cache, texts);
    TouchFaithful(cache, texts, model);
    MissesShape(cache, texts);
    assert TextSet(texts) - Texts(cache) == {};
    forall t | t in texts ensures Has(Touch(cache, texts), t) {
      assert t in TextSet(texts) && t !in TextSet(texts) - Texts(cache);
      assert t in Texts(Touch(cache, texts));
      HasInTexts(Touch(cache, texts), t);
      assert Has(Touch(cache, texts), t);
    }
  }

  /** Eviction cannot reach the requested entries when they fit. */
  lemma FittingKept(all: seq<Entry>, cache: seq<Entry>, requested: set<string>, maxSize: nat)
    requires RequestedLast(all, cache, requested) && |all| == |Without(cache, requested)| + |requested| && |requested| <= maxSize
    ensures forall t :: t in requested ==> Has(Evict(all, maxSize), t)
  {
    var tail, after := all[|Without(cache, requested)|..], Evict(all, maxSize);
    assert after[|after| - |requested|..] == tail;
    forall t | t in requested ensures Has(after, t) {
      HasInTexts(tail, t);
      var i :| 0 <= i < |tail| && tail[i].text == t;
      assert after[|after| - |requested| + i] == tail[i];
    }
  }

  lemma ReadableFits(after: seq<Entry>, requested: set<string>)
    requires UniqueTexts(after) && forall t :: t in requested ==> Has(after, t)
    ensures |requested| <= |after|
  {
    forall t | t in requested ensures t in Texts(after) { HasInTexts(after, t); }
    SubsetSize(requested, Texts(after));
    UniqueTextsSize(after);
  }

  lemma AfterCallIs(cache: seq<Entry>, texts: seq<string>, model: string -> Vector, maxSize: nat)
    requires Sound(cache, model) && (Misses(cache, texts) != [] || |cache| <= maxSize)
    ensures AfterCall(cache, texts, model, maxSize) == Evict(Filled(cache, texts, model), maxSize)
  {
    TouchFaithful(cache, texts, model);
  }

  /** What is left of `rest` after eviction, before the tail that fits. */
  ghost predicate KeepsTail(after: seq<Entry>, rest: seq<Entry>, last: set<string>, maxSize: nat) {
    var kept := |after| - |last|;
    && 0 <= kept <= |rest|
    && after[..kept] == rest[|rest| - kept..]
    && Texts(after[kept..]) == last
    && (kept < |rest| ==> |after| == maxSize)
  }

  /** Eviction takes from the front, so not from a tail that fits. */
  lemma EvictKeepsTail(all: seq<Entry>, rest: seq<Entry>, last: set<string>, maxSize: nat)
    requires EndsIn(all, rest, last) && |all| == |rest| + |last| && |last| <= maxSize
    ensures KeepsTail(Evict(all, maxSize), rest, last, maxSize)
  {
    var after := Evict(all, maxSize);
    var kept := |after| - |last|;
    assert after == all[|all| - |after|..];
    assert after[kept..] == all[|rest|..];
    assert after[..kept] == all[..|rest|][|rest| - kept..];
  }

  /**
   When the distinct texts fit, they are the most recent entries after a call that had to ask for
   some, and what eviction dropped is the oldest of the rest.
   */
  lemma RequestedAreMostRecent(cache: seq<Entry>, texts: seq<string>, model: string -> Vector, maxSize: nat)
    requires Sound(cache, model) && |TextSet(texts)| <= maxSize && (Misses(cache, texts) != [] || |cache| <= maxSize)
    ensures KeepsTail(AfterCall(cache, texts, model, maxSize), Without(cache, TextSet(texts)), TextSet(texts), maxSize)
  {
    FilledShape(cache, texts, model);
    AfterCallIs(cache, texts, model, maxSize);
    EvictKeepsTail(Filled(cache, texts, model), Without(cache, TextSet(texts)), TextSet(texts), maxSize);
  }

  // -- Whole call sequences ----------------------------------------------------

  /** A call, and how many vectors the API answers with if it is asked: None when the request fails. */
  datatype Call = Call(texts: seq<string>, answer: Option<nat>)

  function Min(m: nat, n: nat): nat { if m < n then m else n }

  predicate WellAnswered(cache: seq<Entry>, call: Call) {
    call.answer == Some(|Misses(cache, call.texts)|)
  }

  /**
   A failed request has moved the hits and no more. An answer of another length raises when the
   shorter side runs out: the vectors paired so far are stored, and nothing is evicted.
   */
  function AfterAttempt(cache: seq<Entry>, call: Call, model: string -> Vector, maxSize: nat): seq<Entry> {
    var misses := Misses(cache, call.texts);
    if misses == [] || WellAnswered(cache, call) then AfterCall(cache, call.texts, model, maxSize)
    else
      match call.answer
      case None => Touch(cache, call.texts)
      case Some(n) => AssignAll(Touch(cache, call.texts), misses[..Min(n, |misses|)], model)
  }

  function AfterCalls(calls: seq<Call>, model: string -> Vector, maxSize: nat): seq<Entry> {
    if calls == [] then []
    else AfterAttempt(AfterCalls(calls[..|calls| - 1], model, maxSize), calls[|calls| - 1], model, maxSize)
  }

  /** What an answer of the wrong length leaves: one more entry for each distinct text it covered. */
  lemma PartlyFilled(cache: seq<Entry>, texts: seq<string>, k: nat, model: string -> Vector)
    requires Sound(cache, model) && k <= |Misses(cache, texts)|
    ensures
      var all := AssignAll(Touch(cache, texts), Misses(cache, texts)[..k], model);
      Sound(all, model) && |all| == |cache| + |TextSet(Misses(cache, texts)[..k])|
  {
    var touched, some := Touch(cache, texts), Misses(cache, texts)[..k];
    TouchShape(cache, texts);
    TouchFaithful(cache, texts, model);
    MissesShape(cache, texts);
    forall t | t in TextSet(some) ensures t !in Texts(cache) { assert t in TextSet(Misses(cache, texts)); }
    AssignAllShape(touched, some, model);
    TailSize(AssignAll(touched, some, model), |touched|);
  }

  /** A call that asked for nothing or got nothing keeps the size. */
  lemma IdleAttempt(cache: seq<Entry>, call: Call, model: string -> Vector, maxSize: nat)
    requires Sound(cache, model) && (Misses(cache, call.texts) == [] || call.answer == None)
    ensures
      var after := AfterAttempt(cache, call, model, maxSize);
      Sound(after, model) && |after| == |cache|
  {
    TouchShape(cache, call.texts);
    TouchFaithful(cache, call.texts, model);
  }

  /** A well-answered call with misses brings the cache within its bound, whatever it was. */
  lemma AnsweredAttempt(cache: seq<Entry>, call: Call, model: string -> Vector, maxSize: nat)
    requires Sound(cache, model) && Misses(cache, call.texts) != [] && WellAnswered(cache, call)
    ensures
      var after := AfterAttempt(cache, call, model, maxSize);
      Sound(after, model) && |after| <= maxSize
  {
    FilledShape(cache, call.texts, model);
    EvictSound(Filled(cache, call.texts, model), model, maxSize);
  }

  /** An answer of the wrong length adds an entry for each distinct text that it covered. */
  lemma CutOffAttempt(cache: seq<Entry>, call: Call, model: string -> Vector, maxSize: nat)
    requires Sound(cache, model) && Misses(cache, call.texts) != [] && call.answer.Some? && !WellAnswered(cache, call)
    ensures
      var after, misses := AfterAttempt(cache, call, model, maxSize), Misses(cache, call.texts);
      Sound(after, model) && |after| == |cache| + |TextSet(misses[..Min(call.answer.value, |misses|)])|
  {
    PartlyFilled(cache, call.texts, Min(call.answer.value, |Misses(cache, call.texts)|), model);
  }

  lemma AttemptSound(cache: seq<Entry>, call: Call, model: string -> Vector, maxSize: nat)
    requires Sound(cache, model)
    ensures Sound(AfterAttempt(cache, call, model, maxSize), model)
  {
    if Misses(cache, call.texts) == [] || call.answer == None {
      IdleAttempt(cache, call, model, maxSize);
    } else if WellAnswered(cache, call) {
      AnsweredAttempt(cache, call, model, maxSize);
    } else {
      CutOffAttempt(cache, call, model, maxSize);
    }
  }

  /** From a new engine, over every sequence of calls and answers, the cache stays unambiguous and true. */
  lemma {:induction false} EverySequenceSound(calls: seq<Call>, model: string -> Vector, maxSize: nat)
    ensures Sound(AfterCalls(calls, model, maxSize), model)
  {
    if calls != [] {
      EverySequenceSound(calls[..|calls| - 1], model, maxSize);
      AttemptSound(AfterCalls(calls[..|calls| - 1], model, maxSize), calls[|calls| - 1], model, maxSize);
    }
  }

  /** No answer had the wrong length since the last call that evicted. */
  ghost predicate Settled(calls: seq<Call>, model: string -> Vector, maxSize: nat) {
    calls == [] ||
    var before, call := AfterCalls(calls[..|calls| - 1], model, maxSize), calls[|calls| - 1];
    || (Misses(before, call.texts) != [] && WellAnswered(before, call))
    || ((Misses(before, call.texts) == [] || call.answer == None) && Settled(calls[..|calls| - 1], model, maxSize))
  }

  /** And it keeps its bound unless an answer had the wrong length, until the next call that evicts. */
  lemma {:induction false} SettledWithinBound(calls: seq<Call>, model: string -> Vector, maxSize: nat)
    requires Settled(calls, model, maxSize)
    ensures |AfterCalls(calls, model, maxSize)| <= maxSize
  {
    if calls != [] {
      var init, call := calls[..|calls| - 1], calls[|calls| - 1];
      var before := AfterCalls(init, model, maxSize);
      EverySequenceSound(init, model, maxSize);
      if Misses(before, call.texts) == [] || call.answer == None {
        IdleAttempt(before, call, model, maxSize);
      } else {
        AnsweredAttempt(before, call, model, maxSize);
      }
      if Settled(init, model, maxSize) { SettledWithinBound(init, model, maxSize); }
    }
  }

  lemma {:induction false} AllMissed(texts: seq<string>)
    ensures Misses([], texts) == texts
  {
    if texts != [] { AllMissed(texts[..|texts| - 1]); }
  }

  /** One answer with a vector too many: as many entries as the call had distinct texts, whatever the bound. */
  lemma LongAnswerOverflows(texts: seq<string>, model: string -> Vector, maxSize: nat)
    requires texts != []
    ensures |AfterCalls([Call(texts, Some(|texts| + 1))], model, maxSize)| == |TextSet(texts)|
  {
    var call := Call(texts, Some(|texts| + 1));
    assert [call][..0] == [];
    AllMissed(texts);
    assert texts[..|texts|] == texts;
    CutOffAttempt([], call, model, maxSize);
  }

  /** The texts at the given indices. */
  function TextsAt(texts: seq<string>, indices: seq<nat>): (r: seq<string>)
    requires forall k :: 0 <= k < |indices| ==> indices[k] < |texts|
    ensures |r| == |indices| && forall k :: 0 <= k < |r| ==> r[k] == texts[indices[k]]
  {
    if indices == [] then [] else TextsAt(texts, indices[..|indices| - 1]) + [texts[indices[|indices| - 1]]]
  }

  // -- The engine --------------------------------------------------------------

  datatype EmbedError = ApiFailed | WrongLength | KeyMissing

  class LLMEngine {
    var cache: seq<Entry>
    const maxSize: nat
    const model: string -> Vector

    ghost predicate Valid()
      reads this
    {
      Sound(cache, model)
    }

    constructor (model: string -> Vector, maxSize: nat)
      ensures Valid() && cache == [] && this.model == model && this.maxSize == maxSize
    {
      cache, this.model, this.maxSize := [], model, maxSize;
    }

    /**
     The answer is the plain embedding of each text, whatever was cached, unless the API fails, answers
     with the wrong number of vectors, or too many distinct texts came. `answer` is how many vectors
     the API returns, in the order of the texts it was asked for; None when the request fails.
     */
    method EmbedTexts(texts: seq<string>, answer: Option<nat>) returns (r: Result<seq<Vector>, EmbedError>)
      requires Valid()
      modifies this`cache
      ensures Valid()
      ensures cache == AfterAttempt(old(cache), Call(texts, answer), model, maxSize)
      ensures r == Err(ApiFailed) <==> Misses(old(cache), texts) != [] && answer == None
      ensures r == Err(WrongLength) <==>
                Misses(old(cache), texts) != [] && answer.Some? && answer.value != |Misses(old(cache), texts)|
      ensures r.Ok? <==>
                Misses(old(cache), texts) == [] || (answer == Some(|Misses(old(cache), texts)|) && |TextSet(texts)| <= maxSize)
      ensures r.Ok? ==> |r.value| == |texts| && forall i :: 0 <= i < |texts| ==> r.value[i] == model(texts[i])
    {
      ReadableIffFits(cache, texts, model, maxSize);
      AttemptSound(cache, Call(texts, answer), model, maxSize);
      TouchShape(cache, texts);
      TouchFaithful(cache, texts, model);
      var uncached := TouchHits(texts);
      if uncached != [] {
        var refused := AskApi(texts, uncached, answer);
        if refused.Some? { return Err(refused.value); }
      }
      r := ReadAll(texts);
    }

    /** Embeds the missing texts, stores what the API answers and evicts, unless the answer is no good. */
    method AskApi(texts: seq<string>, uncached: seq<nat>, answer: Option<nat>) returns (refused: Option<EmbedError>)
      requires forall k :: 0 <= k < |uncached| ==> uncached[k] < |texts|
      modifies this`cache
      ensures answer == None ==> refused == Some(ApiFailed) && cache == old(cache)
      ensures answer.Some? && answer.value != |uncached| ==>
                && refused == Some(WrongLength)
                && cache == AssignAll(old(cache), TextsAt(texts, uncached)[..Min(answer.value, |uncached|)], model)
      ensures answer == Some(|uncached|) ==>
                refused == None && cache == Evict(AssignAll(old(cache), TextsAt(texts, uncached), model), maxSize)
    {
      if answer.None? { return Some(ApiFailed); }
      var k := Min(answer.value, |uncached|);
      FillMisses(texts, uncached[..k]);
      assert TextsAt(texts, uncached[..k]) == TextsAt(texts, uncached)[..k];
      if answer.value != |uncached| { return Some(WrongLength); }
      assert TextsAt(texts, uncached)[..k] == TextsAt(texts, uncached);
      EvictOldest();
      refused := None;
    }

    method EvictOldest()
      modifies this`cache
      ensures cache == Evict(old(cache), maxSize)
    {
      ghost var all := cache;
      while |cache| > maxSize
        invariant |cache| <= |all| && cache == all[|all| - |cache|..]
        invariant |cache| >= maxSize || cache == all
      {
        cache := cache[1..];
      }
    }

    method ReadAll(texts: seq<string>) returns (r: Result<seq<Vector>, EmbedError>)
      requires Faithful(cache, model)
      ensures r.Ok? <==> forall t :: t in texts ==> Has(cache, t)
      ensures r.Err? ==> r.error == KeyMissing
      ensures r.Ok? ==> |r.value| == |texts| && forall i :: 0 <= i < |texts| ==> r.value[i] == model(texts[i])
    {
      var vectors: seq<Vector> := [];
      for i := 0 to |texts|
        invariant |vectors| == i
        invariant forall j :: 0 <= j < i ==> Has(cache, texts[j]) && vectors[j] == model(texts[j])
      {
        if !Has(cache, texts[i]) {
          assert texts[i] in texts;
          return Err(KeyMissing);
        }
        vectors := vectors + [cache[Find(cache, texts[i])].vector];
      }
      r := Ok(vectors);
    }

    /** Moves each hit to the end and lists the indices of the misses. */
    method TouchHits(texts: seq<string>) returns (uncached: seq<nat>)
      requires UniqueTexts(cache)
      modifies this`cache
      ensures cache == Touch(old(cache), texts)
      ensures forall k :: 0 <= k < |uncached| ==> uncached[k] < |texts|
      ensures TextsAt(texts, uncached) == Misses(old(cache), texts)
    {
      uncached := [];
      for i := 0 to |texts|
        invariant cache == Touch(old(cache), texts[..i])
        invariant forall k :: 0 <= k < |uncached| ==> uncached[k] < i
        invariant TextsAt(texts, uncached) == Misses(old(cache), texts[..i])
      {
        assert texts[..i + 1][..i] == texts[..i];
        TouchShape(old(cache), texts[..i]);
        HasInTexts(cache, texts[i]);
        HasInTexts(old(cache), texts[i]);
        if Has(cache, texts[i]) {
          cache := MoveToEnd(cache, texts[i]);
        } else {
          assert (uncached + [i])[..|uncached|] == uncached;
          uncached := uncached + [i];
        }
      }
      assert texts[..|texts|] == texts;
    }

    /** Stores the vector of each text that `uncached` points to. */
    method FillMisses(texts: seq<string>, uncached: seq<nat>)
      requires forall k :: 0 <= k < |uncached| ==> uncached[k] < |texts|
      modifies this`cache
      ensures cache == AssignAll(old(cache), TextsAt(texts, uncached), model)
    {
      ghost var misses := TextsAt(texts, uncached);
      for i := 0 to |uncached|
        invariant cache == AssignAll(old(cache), misses[..i], model)
      {
        assert misses[..i + 1][..i] == misses[..i];
        var t := texts[uncached[i]];
        cache := Assign(cache, t, model(t));
      }
      assert misses[..|uncached|] == misses;
    }
  }
}
