/**
 Stripe's side of metered billing: the invoice items created so far, in order.
 A creation that repeats an idempotency key changes nothing, so the first write wins.
 */
module Ledger {
  import opened Plans

  datatype ItemKey = ItemKey(period: nat, category: Category, snapshot: nat)

  datatype InvoiceItem = InvoiceItem(key: ItemKey, units: nat, cents: nat)

  predicate HasKey(log: seq<InvoiceItem>, key: ItemKey) {
    exists i :: 0 <= i < |log| && log[i].key == key
  }

  function Create(log: seq<InvoiceItem>, item: InvoiceItem): seq<InvoiceItem> {
    if HasKey(log, item.key) then log else log + [item]
  }

  function CreateAll(log: seq<InvoiceItem>, items: seq<InvoiceItem>): seq<InvoiceItem> {
    if items == [] then log
    else Create(CreateAll(log, items[..|items| - 1]), items[|items| - 1])
  }

  function BilledUnits(log: seq<InvoiceItem>, period: nat, c: Category): nat {
    if log == [] then 0
    else
      var item := log[|log| - 1];
      BilledUnits(log[..|log| - 1], period, c)
      + if item.key.period == period && item.key.category == c then item.units else 0
  }

  /** The items of one billing period, in creation order. */
  function PeriodItems(log: seq<InvoiceItem>, period: nat): seq<InvoiceItem> {
    if log == [] then []
    else
      var item := log[|log| - 1];
      PeriodItems(log[..|log| - 1], period) + if item.key.period == period then [item] else []
  }

  function TotalUnits(log: seq<InvoiceItem>): nat {
    if log == [] then 0 else TotalUnits(log[..|log| - 1]) + log[|log| - 1].units
  }

  function TotalCents(log: seq<InvoiceItem>): nat {
    if log == [] then 0 else TotalCents(log[..|log| - 1]) + log[|log| - 1].cents
  }

  // -- Idempotent creation ----------------------------------------------------

  lemma CreateAppends(log: seq<InvoiceItem>, item: InvoiceItem, period: nat, c: Category)
    ensures BilledUnits(log + [item], period, c) == BilledUnits(log, period, c)
            + if item.key.period == period && item.key.category == c then item.units else 0
    ensures PeriodItems(log + [item], period) == PeriodItems(log, period)
            + if item.key.period == period then [item] else []
  {
    assert (log + [item])[..|log|] == log;
  }

  lemma HasKeyAppend(log: seq<InvoiceItem>, item: InvoiceItem, k: ItemKey)
    ensures HasKey(log + [item], k) <==> HasKey(log, k) || item.key == k
  {
    var all := log + [item];
    if i :| 0 <= i < |log| && log[i].key == k { assert all[i].key == k; }
    if item.key == k { assert all[|log|].key == k; }
  }

  lemma {:induction false} CreateAllHasKey(log: seq<InvoiceItem>, items: seq<InvoiceItem>, k: ItemKey)
    ensures HasKey(CreateAll(log, items), k) <==> HasKey(log, k) || HasKey(items, k)
  {
    if items != [] {
      var init, last := items[..|items| - 1], items[|items| - 1];
      assert items == init + [last];
      HasKeyAppend(init, last, k);
      CreateAllHasKey(log, init, k);
      HasKeyAppend(CreateAll(log, init), last, k);
    }
  }

  /** Creating items whose keys are all known is a no-op. */
  lemma {:induction false} CreateAllKnown(log: seq<InvoiceItem>, items: seq<InvoiceItem>)
    requires forall i :: 0 <= i < |items| ==> HasKey(log, items[i].key)
    ensures CreateAll(log, items) == log
  {
    if items != [] {
      var init := items[..|items| - 1];
      assert forall i :: 0 <= i < |init| ==> init[i] == items[i];
      CreateAllKnown(log, init);
      assert HasKey(log, items[|items| - 1].key);
    }
  }

  lemma {:induction false} CreateAllSplit(log: seq<InvoiceItem>, items: seq<InvoiceItem>, k: nat)
    requires k <= |items|
    ensures CreateAll(log, items) == CreateAll(CreateAll(log, items[..k]), items[k..])
  {
    if k == |items| {
      assert items[..k] == items;
    } else {
      var init := items[..|items| - 1];
      CreateAllSplit(log, init, k);
      assert init[..k] == items[..k];
      assert init[k..] == items[k..][..|items| - k - 1];
    }
  }

  /** A prefix that was already created, by however many attempts, does not show in a full retry. */
  lemma CreateAllAfterPrefix(log: seq<InvoiceItem>, items: seq<InvoiceItem>, k: nat)
    requires k <= |items|
    ensures CreateAll(CreateAll(log, items[..k]), items) == CreateAll(log, items)
  {
    var part := CreateAll(log, items[..k]);
    forall i | 0 <= i < k
      ensures HasKey(part, items[..k][i].key)
    {
      CreateAllHasKey(log, items[..k], items[..k][i].key);
    }
    CreateAllKnown(part, items[..k]);
    CreateAllSplit(part, items, k);
    CreateAllSplit(log, items, k);
  }

  function Min(x: nat, y: nat): nat { if x < y then x else y }

  function Max(x: nat, y: nat): nat { if x < y then y else x }

  /** Two interrupted passes over the same items leave what the longer one leaves. */
  lemma CreatePrefixTwice(log: seq<InvoiceItem>, items: seq<InvoiceItem>, m: nat, k: nat)
    requires m <= |items| && k <= |items|
    ensures CreateAll(CreateAll(log, items[..m]), items[..k]) == CreateAll(log, items[..Max(m, k)])
  {
    if k <= m {
      var part := CreateAll(log, items[..m]);
      assert items[..k] == items[..m][..k];
      forall i | 0 <= i < k ensures HasKey(part, items[..k][i].key) {
        assert items[..m][i].key == items[..k][i].key;
        CreateAllHasKey(log, items[..m], items[..k][i].key);
      }
      CreateAllKnown(part, items[..k]);
    } else {
      assert items[..k][..m] == items[..m];
      CreateAllAfterPrefix(log, items[..k], m);
    }
  }

  ghost predicate DistinctKeys(items: seq<InvoiceItem>) {
    forall i, j :: 0 <= i < j < |items| ==> items[i].key != items[j].key
  }

  /** Units that Stripe adds for a category when `items` is sent: repeated keys add nothing. */
  ghost function FreshUnits(log: seq<InvoiceItem>, items: seq<InvoiceItem>, period: nat, c: Category): nat {
    if items == [] then 0
    else
      var item := items[|items| - 1];
      FreshUnits(log, items[..|items| - 1], period, c)
      + if item.key.period == period && item.key.category == c && !HasKey(log, item.key) then item.units else 0
  }

  lemma {:induction false} CreateAllBills(log: seq<InvoiceItem>, items: seq<InvoiceItem>, period: nat, c: Category)
    requires DistinctKeys(items)
    ensures BilledUnits(CreateAll(log, items), period, c)
            == BilledUnits(log, period, c) + FreshUnits(log, items, period, c)
  {
    if items != [] {
      var init, last := items[..|items| - 1], items[|items| - 1];
      CreateAllBills(log, init, period, c);
      CreateAllHasKey(log, init, last.key);
      CreateAppends(CreateAll(log, init), last, period, c);
    }
  }

  /** Items of one period leave every other period's items alone. */
  lemma {:induction false} CreateAllOtherPeriod(log: seq<InvoiceItem>, items: seq<InvoiceItem>, period: nat)
    requires forall i :: 0 <= i < |items| ==> items[i].key.period != period
    ensures PeriodItems(CreateAll(log, items), period) == PeriodItems(log, period)
  {
    if items != [] {
      var init := items[..|items| - 1];
      assert forall i :: 0 <= i < |init| ==> init[i] == items[i];
      CreateAllOtherPeriod(log, init, period);
      CreateAppends(CreateAll(log, init), items[|items| - 1], period, Traces);
    }
  }

  /** Billed units depend on the period's own items only. */
  lemma {:induction false} BilledFromPeriodItems(log: seq<InvoiceItem>, period: nat, c: Category)
    ensures BilledUnits(log, period, c) == BilledUnits(PeriodItems(log, period), period, c)
  {
    if log != [] {
      var init, item := log[..|log| - 1], log[|log| - 1];
      BilledFromPeriodItems(init, period, c);
      CreateAppends(PeriodItems(init, period), item, period, c);
      assert PeriodItems(init, period) + [] == PeriodItems(init, period);
    }
  }

  // -- Rounding ---------------------------------------------------------------

  /** A cost in tenths of a cent, rounded half up to whole cents. */
  function RoundHalfUp(tenths: nat): nat {
    (tenths + 5) / 10
  }

  /** No unit count ever meets the half-way tie, and one item is off by at most 2/5 of a cent. */
  lemma ItemRounding(units: nat)
    ensures OVERAGE_UNIT_PRICE * units % 10 != 5
    ensures -2 <= 5 * RoundHalfUp(OVERAGE_UNIT_PRICE * units) - 2 * units <= 2
  {
  }

  ghost predicate Rounded(log: seq<InvoiceItem>) {
    forall i :: 0 <= i < |log| ==> log[i].cents == RoundHalfUp(OVERAGE_UNIT_PRICE * log[i].units)
  }

  /** The total charged differs from the exact price by at most 2/5 of a cent for each item. */
  lemma {:induction false} TotalRounding(log: seq<InvoiceItem>)
    requires Rounded(log)
    ensures -2 * |log| <= 5 * TotalCents(log) - 2 * TotalUnits(log) <= 2 * |log|
  {
    if log != [] {
      TotalRounding(log[..|log| - 1]);
      ItemRounding(log[|log| - 1].units);
    }
  }
}
