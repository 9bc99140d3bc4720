/** The validator of estimate reports, step by step (estimate_codec.go). */
module EstimateChecks {
  import opened Results
  import opened Sequences
  import opened Messages
  import opened Budgets
  import opened Weights
  import opened Estimates
  import opened EstimateBuild
  import opened EstimateSegments
  import opened EstimateReports

  // ---------------------------------------------------------------- references and groups

  method ValidateSegmentRefs(refs: seq<ContentRef>) returns (ok: bool)
    ensures ok <==> RefsTold(refs)
  {
    var seen: set<Name> := {};
    for i := 0 to |refs|
      invariant forall k :: 0 <= k < i ==> refs[k].Valid() && refs[k].id in seen
      invariant forall j, k :: 0 <= j < k < i ==> refs[j].id != refs[k].id
      invariant forall id :: id in seen ==> exists k :: 0 <= k < i && refs[k].id == id
    {
      if !refs[i].Valid() || refs[i].id in seen {
        return false;
      }
      seen := seen + {refs[i].id};
    }
    ok := true;
  }

  method CountParticipating(p: Profile, types: seq<string>) returns (ok: bool, count: nat)
    ensures ok <==> NamedTypes(types)
    ensures ok ==> count == Participating(p, types)
  {
    count := 0;
    for i := 0 to |types|
      invariant NamedTypes(types[..i]) && count == Participating(p, types[..i])
    {
      assert types[..i + 1][..i] == types[..i];
      if types[i] == "" {
        return false, 0;
      }
      if !p.MetadataOnly(types[i]) {
        count := count + 1;
      }
    }
    assert types[..|types|] == types;
    ok := true;
  }

  method CountExtensionGroups(groups: seq<seq<Kind>>) returns (ok: bool, count: nat)
    ensures ok <==> GroupsWhole(groups)
    ensures ok ==> count == ExtensionCount(groups)
  {
    count := 0;
    for i := 0 to |groups|
      invariant GroupsWhole(groups[..i]) && count == ExtensionCount(groups[..i])
    {
      assert groups[..i + 1][..i] == groups[..i];
      if groups[i] == [] || (ExtensionKind in groups[i] && |groups[i]| != 1) {
        return false, 0;
      }
      if ExtensionKind in groups[i] {
        count := count + 1;
      }
    }
    assert groups[..|groups|] == groups;
    ok := true;
  }

  method ValidateGroups(p: Profile, groups: seq<seq<Kind>>, types: seq<string>) returns (ok: bool)
    ensures ok <==> GroupsFit(p, groups, types)
  {
    var named, participating := CountParticipating(p, types);
    if !named {
      return false;
    }
    var whole, count := CountExtensionGroups(groups);
    ok := whole && count == participating;
  }

  method ValidateAllGroups(p: Profile, groups: seq<seq<seq<Kind>>>, types: seq<seq<string>>) returns (ok: bool)
    requires |groups| == |types|
    ensures ok <==> AllGroupsFit(p, groups, types)
  {
    for i := 0 to |groups|
      invariant forall j :: 0 <= j < i ==> GroupsFit(p, groups[j], types[j])
    {
      ok := ValidateGroups(p, groups[i], types[i]);
      if !ok {
        return;
      }
    }
    ok := true;
  }

  // ---------------------------------------------------------------- counts

  /** The table of counts: every kind that occurs, with its number. */
  ghost predicate Counts(counts: map<Kind, int>, groups: seq<seq<Kind>>) {
    forall k: Kind :: (k in counts <==> KindCount(groups, k) > 0) && (k in counts ==> counts[k] == KindCount(groups, k))
  }

  function Tally(counts: map<Kind, int>, k: Kind): int {
    if k in counts then counts[k] else 0
  }

  method CountGroup(before: map<Kind, int>, group: seq<Kind>) returns (counts: map<Kind, int>)
    requires forall k: Kind :: k in before ==> before[k] > 0
    ensures forall k: Kind :: Tally(counts, k) == Tally(before, k) + multiset(group)[k]
    ensures forall k: Kind :: k in counts ==> counts[k] > 0
  {
    counts := before;
    for i := 0 to |group|
      invariant forall k: Kind :: Tally(counts, k) == Tally(before, k) + multiset(group[..i])[k]
      invariant forall k: Kind :: k in counts ==> counts[k] > 0
    {
      assert group[..i + 1] == group[..i] + [group[i]];
      counts := counts[group[i] := Tally(counts, group[i]) + 1];
    }
    assert group[..|group|] == group;
  }

  method CountGroups(before: map<Kind, int>, groups: seq<seq<Kind>>) returns (counts: map<Kind, int>)
    requires forall k: Kind :: k in before ==> before[k] > 0
    ensures forall k: Kind :: Tally(counts, k) == Tally(before, k) + KindCount(groups, k)
    ensures forall k: Kind :: k in counts ==> counts[k] > 0
  {
    counts := before;
    for i := 0 to |groups|
      invariant forall k: Kind :: Tally(counts, k) == Tally(before, k) + KindCount(groups[..i], k)
      invariant forall k: Kind :: k in counts ==> counts[k] > 0
    {
      assert groups[..i + 1][..i] == groups[..i];
      counts := CountGroup(counts, groups[i]);
    }
    assert groups[..|groups|] == groups;
  }

  method CountKinds(p: Profile, lists: seq<seq<seq<Kind>>>) returns (counts: map<Kind, int>)
    ensures Counts(counts, FlatGroups(lists))
  {
    counts := map[];
    for i := 0 to |lists|
      invariant forall k: Kind :: Tally(counts, k) == KindCount(FlatGroups(lists[..i]), k)
      invariant forall k: Kind :: k in counts ==> counts[k] > 0
    {
      assert lists[..i + 1][..i] == lists[..i];
      GroupsConcat(p, FlatGroups(lists[..i]), lists[i]);
      counts := CountGroups(counts, lists[i]);
    }
    assert lists[..|lists|] == lists;
  }

  function Kinds(c: seq<Entry>): set<Kind> {
    set i | 0 <= i < |c| :: c[i].kind
  }

  lemma {:induction false} KindsDistinct(c: seq<Entry>)
    requires forall i, j :: 0 <= i < j < |c| ==> c[i].kind != c[j].kind
    ensures |Kinds(c)| == |c|
  {
    if |c| > 0 {
      var front, last := c[..|c| - 1], c[|c| - 1];
      KindsDistinct(front);
      assert Kinds(c) == Kinds(front) + {last.kind};
      assert last.kind !in Kinds(front);
    }
  }

  /** Comparing sizes and counts is comparing the tables. */
  lemma {:induction false} SizesDecide(counts: map<Kind, int>, groups: seq<seq<Kind>>, c: seq<Entry>)
    requires Counts(counts, groups) && forall i, j :: 0 <= i < j < |c| ==> c[i].kind != c[j].kind
    requires forall i :: 0 <= i < |c| ==> c[i].parts == Tally(counts, c[i].kind) > 0
    ensures |counts| == |c| <==> CountsMatch(groups, c)
  {
    KindsDistinct(c);
    forall k | k in Kinds(c)
      ensures k in counts.Keys
    {
      var i :| 0 <= i < |c| && c[i].kind == k;
    }
    SubsetSize(Kinds(c), counts.Keys);
    assert |counts| == |counts.Keys|;
    assert forall k: Kind :: k in Kinds(c) <==> HasKind(c, k);
  }

  // ---------------------------------------------------------------- coverage

  method WorstExtension(p: Profile, lists: seq<seq<string>>) returns (quality: Quality)
    ensures quality == TypesQuality(p, FlatTypes(lists))
  {
    quality := Counted;
    for i := 0 to |lists|
      invariant quality == TypesQuality(p, FlatTypes(lists[..i]))
    {
      assert lists[..i + 1][..i] == lists[..i];
      TypesConcat(p, FlatTypes(lists[..i]), lists[i]);
      var own := WorstOf(p, lists[i]);
      quality := Worse(quality, own);
    }
    assert lists[..|lists|] == lists;
  }

  method WorstOf(p: Profile, types: seq<string>) returns (quality: Quality)
    ensures quality == TypesQuality(p, types)
  {
    quality := Counted;
    for i := 0 to |types|
      invariant quality == TypesQuality(p, types[..i])
    {
      assert types[..i + 1][..i] == types[..i];
      quality := Worse(quality, if p.MetadataOnly(types[i]) then Counted else p.ExtensionQuality(types[i]));
    }
    assert types[..|types|] == types;
  }

  method UnsupportedUnits(p: Profile, groups: seq<seq<Kind>>, types: seq<string>) returns (count: nat)
    ensures count == GroupUnits(p, groups) + TypeUnits(p, types)
  {
    count := 0;
    for i := 0 to |groups|
      invariant count == GroupUnits(p, groups[..i])
    {
      assert groups[..i + 1][..i] == groups[..i];
      if Unsupported(p, groups[i]) {
        count := count + 1;
      }
    }
    assert groups[..|groups|] == groups;
    for i := 0 to |types|
      invariant count == GroupUnits(p, groups) + TypeUnits(p, types[..i])
    {
      assert types[..i + 1][..i] == types[..i];
      if UnsupportedType(p, types[i]) {
        count := count + 1;
      }
    }
    assert types[..|types|] == types;
  }

  ghost predicate Strict(add: Adder) {
    forall units :: add(None, units).None?
  }

  lemma {:induction false} ExpectedFails(units: seq<nat>, add: Adder, i: nat, n: nat)
    requires i <= n <= |units| && Strict(add) && Expected(units, add, i).None?
    ensures Expected(units, add, n).None?
  {
    if i < n {
      ExpectedFails(units, add, i, n - 1);
    }
  }

  method SumUnits(units: seq<nat>, add: Adder) returns (r: Option<int>)
    requires Strict(add)
    ensures r == Expected(units, add, |units|)
  {
    r := Some(0);
    for i := 0 to |units|
      invariant r == Expected(units, add, i)
    {
      r := add(r, units[i]);
      if r.None? {
        ExpectedFails(units, add, i + 1, |units|);
        return;
      }
    }
  }

  method CountUnits(p: Profile, groups: seq<seq<seq<Kind>>>, types: seq<seq<string>>) returns (units: seq<nat>)
    requires |groups| == |types|
    ensures units == UnitCounts(p, groups, types)
  {
    units := [];
    for i := 0 to |groups|
      invariant |units| == i
      invariant forall j :: 0 <= j < i ==> units[j] == GroupUnits(p, groups[j]) + TypeUnits(p, types[j])
    {
      var count := UnsupportedUnits(p, groups[i], types[i]);
      units := units + [count];
    }
  }

  method ExpectedFallback(p: Profile, groups: seq<seq<seq<Kind>>>, types: seq<seq<string>>) returns (r: Option<int>)
    requires |groups| == |types|
    ensures r == Expected(UnitCounts(p, groups, types), Pricing(p.fallback), |groups|)
  {
    var units := CountUnits(p, groups, types);
    r := SumUnits(units, Pricing(p.fallback));
  }

  /** The entries one by one: distinct kinds, counts as tallied, each within what the profile declares. */
  ghost predicate EntriesPass(p: Profile, types: seq<string>, counts: map<Kind, int>, c: seq<Entry>) {
    && (forall i, j :: 0 <= i < j < |c| ==> c[i].kind != c[j].kind)
    && (forall i :: 0 <= i < |c| ==> EntryHolds(p, types, c[i]) && c[i].parts == Tally(counts, c[i].kind))
    && FallbackTotal(c) <= MAX_INT
  }

  lemma {:induction false} TotalGrows(c: seq<Entry>, n: nat)
    requires n <= |c| && forall i :: 0 <= i < |c| ==> c[i].fallback >= 0
    ensures 0 <= FallbackTotal(c[..n]) <= FallbackTotal(c)
    decreases |c|
  {
    if |c| > 0 {
      var front := c[..|c| - 1];
      if n < |c| {
        TotalGrows(front, n);
        assert front[..n] == c[..n];
      } else {
        TotalGrows(front, |front|);
        assert c[..n] == c && front[..|front|] == front;
      }
    }
  }

  method CheckEntry(p: Profile, worst: Quality, counts: map<Kind, int>, seen: set<Kind>, e: Entry,
                    ghost types: seq<string>)
    returns (ok: bool)
    requires worst == TypesQuality(p, types)
    ensures ok <==> e.kind !in seen && EntryHolds(p, types, e) && e.parts == Tally(counts, e.kind)
  {
    ok := && e.kind !in seen && e.parts == Tally(counts, e.kind) && e.parts > 0
          && Worse(e.quality, p.Declared(e.kind)) == e.quality && (e.quality.Unknown? || e.fallback == 0)
          && (e.kind != ExtensionKind || e.quality == worst) && e.fallback >= 0;
  }

  method CheckEntries(p: Profile, worst: Quality, counts: map<Kind, int>, c: seq<Entry>, ghost types: seq<string>)
    returns (ok: bool, unknown: bool, charged: int)
    requires worst == TypesQuality(p, types)
    ensures ok <==> EntriesPass(p, types, counts, c)
    ensures ok ==> unknown == SomeUnknown(c) && charged == FallbackTotal(c)
  {
    var seen: set<Kind> := {};
    unknown, charged := false, 0;
    for i := 0 to |c|
      invariant EntriesPass(p, types, counts, c[..i]) && 0 <= charged == FallbackTotal(c[..i])
      invariant unknown == SomeUnknown(c[..i]) && forall k: Kind :: k in seen <==> HasKind(c[..i], k)
    {
      var good := CheckEntry(p, worst, counts, seen, c[i], types);
      var sum := AddTokens(charged, c[i].fallback);
      EntriesWhole(p, types, counts, c, i);
      if !good || sum.None? {
        return false, unknown, charged;
      }
      EntriesNext(p, types, counts, c, i);
      seen, charged, unknown := seen + {c[i].kind}, sum.value, unknown || c[i].quality.Unknown?;
    }
    assert c[..|c|] == c;
    ok := true;
  }

  /** What entry `i` has to satisfy on top of the entries before it. */
  ghost predicate EntryPasses(p: Profile, types: seq<string>, counts: map<Kind, int>, c: seq<Entry>, i: nat)
    requires i < |c|
  {
    && !HasKind(c[..i], c[i].kind) && EntryHolds(p, types, c[i]) && c[i].parts == Tally(counts, c[i].kind)
    && FallbackTotal(c[..i]) + c[i].fallback <= MAX_INT
  }

  lemma {:induction false} EntriesNext(p: Profile, types: seq<string>, counts: map<Kind, int>, c: seq<Entry>, i: nat)
    requires i < |c| && EntriesPass(p, types, counts, c[..i]) && EntryPasses(p, types, counts, c, i)
    ensures EntriesPass(p, types, counts, c[..i + 1])
            && FallbackTotal(c[..i + 1]) == FallbackTotal(c[..i]) + c[i].fallback
    ensures SomeUnknown(c[..i + 1]) <==> SomeUnknown(c[..i]) || c[i].quality.Unknown?
    ensures forall k: Kind :: HasKind(c[..i + 1], k) <==> HasKind(c[..i], k) || c[i].kind == k
  {
    var before, now := c[..i], c[..i + 1];
    assert now[..i] == before && now[i] == c[i];
    assert forall j :: 0 <= j < i ==> now[j] == before[j];
  }

  lemma {:induction false} EntriesWhole(p: Profile, types: seq<string>, counts: map<Kind, int>, c: seq<Entry>, i: nat)
    requires i < |c|
    ensures EntriesPass(p, types, counts, c) ==> EntryPasses(p, types, counts, c, i)
  {
    if EntriesPass(p, types, counts, c) {
      TotalGrows(c, i + 1);
      assert c[..i + 1][..i] == c[..i];
    }
  }

  predicate AllEntriesHold(p: Profile, types: seq<string>, c: seq<Entry>) {
    FallbackTotal(c) <= MAX_INT && forall i :: 0 <= i < |c| ==> EntryHolds(p, types, c[i])
  }

  lemma TallyCounts(counts: map<Kind, int>, groups: seq<seq<Kind>>, k: Kind)
    requires Counts(counts, groups)
    ensures Tally(counts, k) == KindCount(groups, k)
  {
  }

  lemma {:induction false} PassingMatches(p: Profile, types: seq<string>, groups: seq<seq<Kind>>,
                                          counts: map<Kind, int>, c: seq<Entry>)
    requires Counts(counts, groups) && EntriesPass(p, types, counts, c)
    ensures AllEntriesHold(p, types, c) && (|counts| == |c| <==> CountsMatch(groups, c))
  {
    forall i | 0 <= i < |c|
      ensures c[i].parts == Tally(counts, c[i].kind) > 0
    {
      assert EntryHolds(p, types, c[i]);
    }
    SizesDecide(counts, groups, c);
  }

  lemma {:induction false} MatchingPasses(p: Profile, types: seq<string>, groups: seq<seq<Kind>>,
                                          counts: map<Kind, int>, c: seq<Entry>)
    requires Counts(counts, groups) && AllEntriesHold(p, types, c) && CountsMatch(groups, c)
    ensures EntriesPass(p, types, counts, c)
  {
    forall i | 0 <= i < |c|
      ensures c[i].parts == Tally(counts, c[i].kind)
    {
      TallyCounts(counts, groups, c[i].kind);
    }
  }

  /** The whole check of the entries: distinct kinds, as counted, none missing. */
  lemma {:induction false} EntriesDecide(p: Profile, types: seq<string>, groups: seq<seq<Kind>>, counts: map<Kind, int>,
                                         c: seq<Entry>)
    requires Counts(counts, groups)
    ensures EntriesPass(p, types, counts, c) && |counts| == |c| <==>
              CountsMatch(groups, c) && AllEntriesHold(p, types, c)
  {
    if EntriesPass(p, types, counts, c) {
      PassingMatches(p, types, groups, counts, c);
    } else if CountsMatch(groups, c) && AllEntriesHold(p, types, c) {
      MatchingPasses(p, types, groups, counts, c);
    }
  }

  method ValidateCoverage(p: Profile, s: SegmentEstimate) returns (ok: bool)
    requires |s.partKinds| == |s.extensionTypes|
    ensures ok <==> CoverageValid(p, s)
  {
    var counts := CountKinds(p, s.partKinds);
    EntriesDecide(p, FlatTypes(s.extensionTypes), FlatGroups(s.partKinds), counts, s.coverage);
    var worst := WorstExtension(p, s.extensionTypes);
    var good, unknown, charged := CheckEntries(p, worst, counts, s.coverage, FlatTypes(s.extensionTypes));
    if |counts| != |s.coverage| || !good {
      return false;
    }
    if unknown && (p.fallback.None? || charged == 0) {
      return false;
    }
    var expected := ExpectedFallback(p, s.partKinds, s.extensionTypes);
    if expected != Some(charged) {
      return false;
    }
    ok := charged <= s.tokens && (unknown || charged == 0) && (|s.messages| != 0 || |s.coverage| == 0);
  }

  method ValidateSegment(p: Profile, s: SegmentEstimate) returns (ok: bool)
    ensures ok <==> ValidSegment(p, s)
  {
    if |s.messages| != |s.perMessage| || |s.messages| != |s.partKinds| || |s.extensionTypes| != |s.messages| {
      return false;
    }
    ok := ValidateAllGroups(p, s.partKinds, s.extensionTypes);
    if !ok {
      return;
    }
    ok := ValidateSegmentRefs(s.messages);
    if !ok {
      return;
    }
    var sum := SumEstimateTokens(s.perMessage);
    if sum != Some(s.tokens) {
      return false;
    }
    ok := ValidateCoverage(p, s);
  }
}
