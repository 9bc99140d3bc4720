/** The check every estimate report passes, and the reports that pass it (estimate_report.go, estimate_codec.go). */
module EstimateReports {
  import opened Results
  import opened Messages
  import opened Budgets
  import opened Weights
  import opened Estimates
  import opened EstimateBuild
  import opened EstimateSegments

  // ---------------------------------------------------------------- what a valid segment is

  predicate RefsTold(refs: seq<ContentRef>) {
    && (forall i :: 0 <= i < |refs| ==> refs[i].Valid())
    && (forall i, j :: 0 <= i < j < |refs| ==> refs[i].id != refs[j].id)
  }

  function FlatGroups(lists: seq<seq<seq<Kind>>>): seq<seq<Kind>> {
    if |lists| == 0 then [] else FlatGroups(lists[..|lists| - 1]) + lists[|lists| - 1]
  }

  function FlatTypes(lists: seq<seq<string>>): seq<string> {
    if |lists| == 0 then [] else FlatTypes(lists[..|lists| - 1]) + lists[|lists| - 1]
  }

  /** The table has one entry for every kind that occurs, with the number of its occurrences. */
  predicate CountsMatch(groups: seq<seq<Kind>>, c: seq<Entry>) {
    && (forall i, j :: 0 <= i < j < |c| ==> c[i].kind != c[j].kind)
    && (forall i :: 0 <= i < |c| ==> c[i].parts == KindCount(groups, c[i].kind))
    && (forall k: Kind :: KindCount(groups, k) > 0 ==> HasKind(c, k))
  }

  predicate EntryHolds(p: Profile, types: seq<string>, e: Entry) {
    && e.parts > 0 && Worse(e.quality, p.Declared(e.kind)) == e.quality && (!e.quality.Unknown? ==> e.fallback == 0)
    && (e.kind == ExtensionKind ==> e.quality == TypesQuality(p, types)) && e.fallback >= 0
  }

  /** The units of each message that cannot be counted. */
  function UnitCounts(p: Profile, groups: seq<seq<seq<Kind>>>, types: seq<seq<string>>): (out: seq<nat>)
    requires |groups| == |types|
    ensures |out| == |groups| && forall i :: 0 <= i < |out| ==>
              out[i] == GroupUnits(p, groups[i]) + TypeUnits(p, types[i])
  {
    seq(|groups|, i requires 0 <= i < |groups| => GroupUnits(p, groups[i]) + TypeUnits(p, types[i]))
  }

  /** `estimateExpectedFallback` over the first `n` messages. */
  function Expected(units: seq<nat>, add: Adder, n: nat): Option<int>
    requires n <= |units|
  {
    if n == 0 then Some(0) else add(Expected(units, add, n - 1), units[n - 1])
  }

  /** How the units of one more message are added to a sum. */
  type Adder = (Option<int>, nat) -> Option<int>

  function Pricing(fallback: Option<int>): Adder {
    (before: Option<int>, units: nat) => ExpectedStep(before, units, fallback)
  }

  /** `units` more units on top of `before`. */
  function ExpectedStep(before: Option<int>, units: nat, fallback: Option<int>): Option<int> {
    if before.None? || units == 0 then before
    else if fallback.None? || fallback.value > MAX_INT / units then None
    else AddTokens(before.value, units * fallback.value)
  }

  lemma {:induction false} StepCharges(before: int, units: nat, fallback: Option<int>, charge: int)
    requires 0 <= before && 0 <= charge && before + charge <= MAX_INT
    requires units > 0 ==> fallback.Some? && charge == units * fallback.value
    requires units == 0 ==> charge == 0
    ensures ExpectedStep(Some(before), units, fallback) == Some(before + charge)
  {
    if units > 0 {
      UnitsFit(fallback.value, units);
    }
  }

  predicate SomeUnknown(c: seq<Entry>) {
    exists i :: 0 <= i < |c| && c[i].quality.Unknown?
  }

  predicate CoverageValid(p: Profile, s: SegmentEstimate)
    requires |s.partKinds| == |s.extensionTypes|
  {
    var charged := FallbackTotal(s.coverage);
    && CountsMatch(FlatGroups(s.partKinds), s.coverage)
    && (forall i :: 0 <= i < |s.coverage| ==> EntryHolds(p, FlatTypes(s.extensionTypes), s.coverage[i]))
    && charged <= MAX_INT && (SomeUnknown(s.coverage) ==> p.fallback.Some? && charged != 0)
    && Expected(UnitCounts(p, s.partKinds, s.extensionTypes), Pricing(p.fallback), |s.partKinds|) == Some(charged)
    && charged <= s.tokens && (!SomeUnknown(s.coverage) ==> charged == 0) && (|s.messages| == 0 ==> |s.coverage| == 0)
  }

  predicate AllGroupsFit(p: Profile, groups: seq<seq<seq<Kind>>>, types: seq<seq<string>>)
    requires |groups| == |types|
  {
    forall i :: 0 <= i < |groups| ==> GroupsFit(p, groups[i], types[i])
  }

  predicate ValidSegment(p: Profile, s: SegmentEstimate) {
    && |s.messages| == |s.perMessage| == |s.partKinds| == |s.extensionTypes|
    && AllGroupsFit(p, s.partKinds, s.extensionTypes) && RefsTold(s.messages)
    && NonNegative(s.perMessage) && Total(s.perMessage) == s.tokens <= MAX_INT
    && CoverageValid(p, s)
  }

  // ---------------------------------------------------------------- a built segment is valid

  ghost predicate Finished(p: Profile, x: Prepared, s: SegmentEstimate) {
    RowsFit(p, x.rows) && CoverageFits(p, x) && Weighed(x, s)
  }

  /** The segment adds some weights to the fallbacks. */
  ghost predicate Weighed(x: Prepared, s: SegmentEstimate) {
    exists weights :: NonNegative(weights) && Filled(x, weights, s)
  }

  lemma {:induction false} FlatIsAll(rows: seq<Row>)
    ensures FlatGroups(GroupLists(rows)) == AllGroups(rows) && FlatTypes(TypeLists(rows)) == AllTypes(rows)
  {
    if |rows| > 0 {
      var last := |rows| - 1;
      FlatIsAll(rows[..last]);
      assert GroupLists(rows)[..last] == GroupLists(rows[..last]);
      assert TypeLists(rows)[..last] == TypeLists(rows[..last]);
    }
  }

  lemma {:induction false} EntriesHold(p: Profile, c: seq<Entry>, groups: seq<seq<Kind>>, types: seq<string>,
                                       fallback: int, i: nat)
    requires Accounts(p, c, groups, types, fallback) && i < |c|
    ensures EntryHolds(p, types, c[i]) && c[i].parts == KindCount(groups, c[i].kind)
    ensures c[i].quality.Unknown? ==> AnyUnknown(c)
  {
    LookupAt(c, i);
    assert Fits(p.Declared(c[i].kind), Lookup(c, c[i].kind));
  }

  lemma {:induction false} CountsAccounted(p: Profile, c: seq<Entry>, groups: seq<seq<Kind>>, types: seq<string>,
                                           fallback: int)
    requires Accounts(p, c, groups, types, fallback)
    ensures CountsMatch(groups, c)
  {
    forall i | 0 <= i < |c|
      ensures c[i].parts == KindCount(groups, c[i].kind)
    {
      EntriesHold(p, c, groups, types, fallback, i);
    }
    forall k: Kind | KindCount(groups, k) > 0
      ensures HasKind(c, k)
    {
      if !HasKind(c, k) {
        LookupNone(c, k);
      }
    }
  }

  lemma {:induction false} NothingUnknown(c: seq<Entry>)
    requires Proper(c) && !SomeUnknown(c) && forall i :: 0 <= i < |c| ==>
               (!c[i].quality.Unknown? ==> c[i].fallback == 0)
    ensures FallbackTotal(c) == 0
  {
    TotalNone(c);
  }

  lemma {:induction false} FallbackBounds(p: Profile, rows: seq<Row>, n: nat)
    requires RowsFit(p, rows) && n <= |rows|
    ensures 0 <= AllFallback(rows[..n]) <= AllFallback(rows)
    decreases |rows|
  {
    if |rows| > 0 {
      var front := rows[..|rows| - 1];
      if n < |rows| {
        FallbackBounds(p, front, n);
        assert front[..n] == rows[..n];
      } else {
        FallbackBounds(p, front, |front|);
        assert rows[..n] == rows && front[..|front|] == front;
      }
    }
  }

  lemma {:induction false} UnitsFit(tokens: int, units: nat)
    requires units > 0 && 0 <= units * tokens <= MAX_INT
    ensures tokens <= MAX_INT / units
  {
    var q := MAX_INT / units;
    if tokens > q {
      ScaledDown(units, q + 1, tokens);
      assert false;
    }
  }

  function UnitsOf(p: Profile, row: Row): nat {
    GroupUnits(p, row.groups) + TypeUnits(p, row.types)
  }

  lemma {:induction false} RowStep(p: Profile, row: Row, before: int)
    requires RowFits(p, row) && 0 <= before && before + row.fallback <= MAX_INT
    ensures ExpectedStep(Some(before), UnitsOf(p, row), p.fallback) == Some(before + row.fallback)
  {
    TimesIsProduct(p.Tokens(), UnitsOf(p, row));
    StepCharges(before, UnitsOf(p, row), p.fallback, row.fallback);
  }

  /** Adding the units of a message adds its charge. */
  ghost predicate Prices(units: nat, charge: int, add: Adder) {
    forall before :: 0 <= before && before + charge <= MAX_INT ==> add(Some(before), units) == Some(before + charge)
  }

  function SumTo(charges: seq<int>, n: nat): int
    requires n <= |charges|
  {
    if n == 0 then 0 else SumTo(charges, n - 1) + charges[n - 1]
  }

  ghost predicate Bounded(charges: seq<int>) {
    forall n: nat :: n <= |charges| ==> 0 <= SumTo(charges, n) <= MAX_INT
  }

  lemma {:induction false} ExpectedSums(units: seq<nat>, charges: seq<int>, add: Adder, n: nat)
    requires n <= |units| == |charges| && Bounded(charges)
    requires forall i :: 0 <= i < |units| ==> Prices(units[i], charges[i], add)
    ensures Expected(units, add, n) == Some(SumTo(charges, n))
  {
    if n > 0 {
      ExpectedSums(units, charges, add, n - 1);
      assert 0 <= SumTo(charges, n - 1) && SumTo(charges, n) <= MAX_INT;
      assert Prices(units[n - 1], charges[n - 1], add);
    }
  }

  function Charges(rows: seq<Row>): (out: seq<int>)
    ensures |out| == |rows| && forall i :: 0 <= i < |out| ==> out[i] == rows[i].fallback
  {
    seq(|rows|, i requires 0 <= i < |rows| => rows[i].fallback)
  }

  lemma {:induction false} ChargesSum(p: Profile, rows: seq<Row>, n: nat)
    requires RowsFit(p, rows) && n <= |rows|
    ensures SumTo(Charges(rows), n) == AllFallback(rows[..n]) && 0 <= SumTo(Charges(rows), n) <= AllFallback(rows)
  {
    FallbackBounds(p, rows, n);
    if n > 0 {
      ChargesSum(p, rows, n - 1);
      assert rows[..n][..n - 1] == rows[..n - 1];
    }
  }

  lemma {:induction false} RowPriced(p: Profile, row: Row)
    requires RowFits(p, row)
    ensures Prices(UnitsOf(p, row), row.fallback, Pricing(p.fallback))
  {
    forall before | 0 <= before && before + row.fallback <= MAX_INT
      ensures Pricing(p.fallback)(Some(before), UnitsOf(p, row)) == Some(before + row.fallback)
    {
      RowStep(p, row, before);
    }
  }

  lemma {:induction false} ExpectedIsCharged(p: Profile, rows: seq<Row>)
    requires RowsFit(p, rows) && AllFallback(rows) <= MAX_INT
    ensures Expected(UnitCounts(p, GroupLists(rows), TypeLists(rows)), Pricing(p.fallback),
                     |rows|) == Some(AllFallback(rows))
  {
    var units, charges := UnitCounts(p, GroupLists(rows), TypeLists(rows)), Charges(rows);
    forall n: nat | n <= |charges|
      ensures 0 <= SumTo(charges, n) <= MAX_INT
    {
      ChargesSum(p, rows, n);
    }
    forall i | 0 <= i < |units|
      ensures Prices(units[i], charges[i], Pricing(p.fallback))
    {
      assert units[i] == UnitsOf(p, rows[i]);
      RowPriced(p, rows[i]);
    }
    ExpectedSums(units, charges, Pricing(p.fallback), |rows|);
    ChargesSum(p, rows, |rows|);
    assert rows[..|rows|] == rows;
  }

  predicate IdsDiffer(refs: seq<ContentRef>) {
    forall i, j :: 0 <= i < j < |refs| ==> refs[i].id != refs[j].id
  }

  lemma {:induction false} FilledCosts(p: Profile, x: Prepared, weights: seq<int>, s: SegmentEstimate)
    requires RowsFit(p, x.rows) && NonNegative(weights) && Filled(x, weights, s)
    ensures NonNegative(s.perMessage) && 0 <= AllFallback(x.rows) <= s.tokens <= MAX_INT
  {
    forall i | 0 <= i < |x.rows|
      ensures 0 <= s.perMessage[i]
    {
      assert RowFits(p, x.rows[i]);
    }
    AddedTotal(x.rows, weights, s.perMessage);
    TotalPrefix(weights, |weights|);
    FallbackBounds(p, x.rows, 0);
    assert weights[..|weights|] == weights;
  }

  lemma EntryCounts(groups: seq<seq<Kind>>, c: seq<Entry>, i: nat)
    requires CountsMatch(groups, c) && i < |c| && c[i].parts > 0
    ensures |groups| > 0
  {
  }

  /** The coverage of a built segment passes every check on it. */
  lemma {:induction false} BuiltCoverageValid(p: Profile, x: Prepared, s: SegmentEstimate)
    requires p.Valid() && RowsFit(p, x.rows) && CoverageFits(p, x) && AllFallback(x.rows) <= s.tokens <= MAX_INT
    requires s.coverage == x.coverage && |s.messages| == |x.rows|
    requires s.partKinds == GroupLists(x.rows) && s.extensionTypes == TypeLists(x.rows)
    ensures CoverageValid(p, s)
  {
    var c, groups, types, charged := x.coverage, AllGroups(x.rows), AllTypes(x.rows), AllFallback(x.rows);
    FlatIsAll(x.rows);
    CountsAccounted(p, c, groups, types, charged);
    forall i | 0 <= i < |c|
      ensures EntryHolds(p, types, c[i]) && (c[i].quality.Unknown? ==> AnyUnknown(c))
    {
      EntriesHold(p, c, groups, types, charged, i);
    }
    if SomeUnknown(c) {
      ChargedNeedsFallback(p, groups, types, charged);
    } else {
      NothingUnknown(c);
    }
    ExpectedIsCharged(p, x.rows);
    if |c| > 0 {
      EntryCounts(groups, c, 0);
    }
  }

  lemma {:induction false} ChargedNeedsFallback(p: Profile, groups: seq<seq<Kind>>, types: seq<string>, charged: int)
    requires charged == Charge(p, groups, types) && charged > 0
    ensures p.fallback.Some?
  {
    TimesIsProduct(p.Tokens(), GroupUnits(p, groups) + TypeUnits(p, types));
  }

  /** Every segment the builder makes is accepted exactly when no message identity repeats in it. */
  lemma {:induction false} BuiltSegmentValidIff(p: Profile, x: Prepared, s: SegmentEstimate)
    requires p.Valid() && Finished(p, x, s)
    ensures ValidSegment(p, s) <==> IdsDiffer(s.messages)
  {
    var weights :| NonNegative(weights) && Filled(x, weights, s);
    FilledCosts(p, x, weights, s);
    BuiltCoverageValid(p, x, s);
    BuiltGroupsFit(p, x.rows);
  }

  lemma {:induction false} BuiltGroupsFit(p: Profile, rows: seq<Row>)
    requires RowsFit(p, rows)
    ensures AllGroupsFit(p, GroupLists(rows), TypeLists(rows)) && (RefsTold(Refs(rows)) <==> IdsDiffer(Refs(rows)))
  {
    forall i | 0 <= i < |rows|
      ensures GroupsFit(p, GroupLists(rows)[i], TypeLists(rows)[i]) && Refs(rows)[i].Valid()
    {
      assert RowFits(p, rows[i]);
    }
  }
}
