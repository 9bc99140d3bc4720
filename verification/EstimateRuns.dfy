/** One estimate run: segments, report, and the validator it goes through (estimate_report.go, estimate_codec.go). */
module EstimateRuns {
  import opened Results
  import opened Messages
  import opened Budgets
  import opened Weights
  import opened Estimates
  import opened EstimateBuild
  import opened EstimateSegments
  import opened EstimateReports
  import opened EstimateChecks

  // ---------------------------------------------------------------- distributing the weights

  ghost predicate AllFinished(p: Profile, prepared: seq<Prepared>, segments: seq<SegmentEstimate>) {
    |segments| <= |prepared| && forall i :: 0 <= i < |segments| ==> Finished(p, prepared[i], segments[i])
  }

  lemma {:induction false} KnownPrefix(prepared: seq<Prepared>, n: nat)
    requires n < |prepared|
    ensures |AllKnown(prepared[..n + 1])| == |AllKnown(prepared[..n])| + |prepared[n].rows|
    ensures Uncounted(prepared[..n + 1]) == Uncounted(prepared[..n]) + AllFallback(prepared[n].rows)
  {
    assert prepared[..n + 1][..n] == prepared[..n];
    KnownsLength(prepared[n].rows);
  }

  lemma {:induction false} KnownGrows(prepared: seq<Prepared>, n: nat)
    requires n <= |prepared|
    ensures |AllKnown(prepared[..n])| <= |AllKnown(prepared)|
    decreases |prepared| - n
  {
    if n < |prepared| {
      KnownPrefix(prepared, n);
      KnownGrows(prepared, n + 1);
    } else {
      assert prepared[..n] == prepared;
    }
  }

  /** The sum over the finished segments: the weights used so far and the fallbacks charged so far. */
  ghost predicate Balanced(prepared: seq<Prepared>, n: nat, weights: seq<int>, offset: nat,
                           segments: seq<SegmentEstimate>) {
    && n == |segments| <= |prepared| && offset == |AllKnown(prepared[..n])| <= |weights|
    && AllTokens(segments) == Total(weights[..offset]) + Uncounted(prepared[..n])
  }

  lemma {:induction false} BalanceStep(prepared: seq<Prepared>, n: nat, weights: seq<int>, offset: nat,
                                       segments: seq<SegmentEstimate>, s: SegmentEstimate)
    requires n < |prepared| && Balanced(prepared, n, weights, offset, segments)
    requires offset + |prepared[n].rows| <= |weights|
    requires Filled(prepared[n], weights[offset..offset + |prepared[n].rows|], s)
    ensures Balanced(prepared, n + 1, weights, offset + |prepared[n].rows|, segments + [s])
  {
    var end := offset + |prepared[n].rows|;
    KnownPrefix(prepared, n);
    TotalSlice(weights, offset, end);
    AddedTotal(prepared[n].rows, weights[offset..end], s.perMessage);
    TokensSnoc(segments, s);
  }

  lemma {:induction false} TotalSlice(weights: seq<int>, offset: nat, end: nat)
    requires offset <= end <= |weights|
    ensures Total(weights[..end]) == Total(weights[..offset]) + Total(weights[offset..end])
  {
    assert weights[..end] == weights[..offset] + weights[offset..end];
    TotalConcat(weights[..offset], weights[offset..end]);
  }

  lemma {:induction false} TokensSnoc(segments: seq<SegmentEstimate>, s: SegmentEstimate)
    ensures AllTokens(segments + [s]) == AllTokens(segments) + s.tokens
  {
    assert (segments + [s])[..|segments|] == segments;
  }

  ghost predicate AllWeighed(prepared: seq<Prepared>, segments: seq<SegmentEstimate>) {
    |segments| <= |prepared| && forall i :: 0 <= i < |segments| ==> Weighed(prepared[i], segments[i])
  }

  lemma {:induction false} WeighedSnoc(prepared: seq<Prepared>, segments: seq<SegmentEstimate>, s: SegmentEstimate)
    requires AllWeighed(prepared, segments) && |segments| < |prepared| && Weighed(prepared[|segments|], s)
    ensures AllWeighed(prepared, segments + [s])
  {
    var more := segments + [s];
    forall i | 0 <= i < |more|
      ensures Weighed(prepared[i], more[i])
    {
      if i < |segments| {
        assert more[i] == segments[i];
      }
    }
  }

  lemma {:induction false} SegmentsFinish(p: Profile, inputs: seq<InputSegment>, prepared: seq<Prepared>,
                                          segments: seq<SegmentEstimate>)
    requires AllPrepared(p, inputs, prepared) && AllWeighed(prepared, segments)
    ensures AllFinished(p, prepared, segments)
  {
    forall i | 0 <= i < |segments|
      ensures Finished(p, prepared[i], segments[i])
    {
      assert PreparedFrom(p, inputs[i], prepared[i]);
    }
  }

  lemma {:induction false} RoomFor(prepared: seq<Prepared>, n: nat, weights: seq<int>, offset: nat)
    requires n < |prepared| && |weights| == |AllKnown(prepared)| && offset == |AllKnown(prepared[..n])|
    ensures offset + |prepared[n].rows| <= |weights|
  {
    KnownPrefix(prepared, n);
    KnownGrows(prepared, n + 1);
  }

  /** What segment `n` comes to: its weights and its fallbacks. */
  function CostOf(prepared: seq<Prepared>, weights: seq<int>, n: nat): int
    requires n < |prepared| && |weights| == |AllKnown(prepared)|
  {
    var offset := |AllKnown(prepared[..n])|;
    RoomFor(prepared, n, weights, offset);
    Total(weights[offset..offset + |prepared[n].rows|]) + AllFallback(prepared[n].rows)
  }

  /** The first `n` segments each stay in the machine range. */
  predicate Affords(prepared: seq<Prepared>, weights: seq<int>, n: nat)
    requires n <= |prepared| && |weights| == |AllKnown(prepared)|
  {
    forall k :: 0 <= k < n ==> CostOf(prepared, weights, k) <= MAX_INT
  }

  predicate Affordable(prepared: seq<Prepared>, weights: seq<int>)
    requires |weights| == |AllKnown(prepared)|
  {
    Affords(prepared, weights, |prepared|)
  }

  lemma AffordsNext(prepared: seq<Prepared>, weights: seq<int>, n: nat, fits: bool)
    requires n < |prepared| && |weights| == |AllKnown(prepared)| && Affords(prepared, weights, n)
    requires fits <==> CostOf(prepared, weights, n) <= MAX_INT
    ensures Affords(prepared, weights, n + 1) == fits && (Affordable(prepared, weights) ==> fits)
  {
  }

  predicate AllCharged(prepared: seq<Prepared>) {
    forall n :: 0 <= n < |prepared| ==> NoRefunds(prepared[n].rows)
  }

  lemma {:induction false} PreparedCharged(p: Profile, inputs: seq<InputSegment>, prepared: seq<Prepared>)
    requires AllPrepared(p, inputs, prepared)
    ensures AllCharged(prepared)
  {
    forall n | 0 <= n < |prepared|
      ensures NoRefunds(prepared[n].rows)
    {
      assert PreparedFrom(p, inputs[n], prepared[n]);
      forall i | 0 <= i < |prepared[n].rows|
        ensures 0 <= prepared[n].rows[i].fallback
      {
        assert RowFits(p, prepared[n].rows[i]);
      }
    }
  }

  lemma {:induction false} FallbackNotNegative(rows: seq<Row>)
    requires NoRefunds(rows)
    ensures 0 <= AllFallback(rows)
  {
    if |rows| > 0 {
      FallbackNotNegative(rows[..|rows| - 1]);
    }
  }

  lemma {:induction false} UncountedGrows(prepared: seq<Prepared>, n: nat)
    requires n <= |prepared| && AllCharged(prepared)
    ensures 0 <= Uncounted(prepared[..n]) <= Uncounted(prepared)
    decreases |prepared|
  {
    if |prepared| > 0 {
      var last := |prepared| - 1;
      FallbackNotNegative(prepared[last].rows);
      if n <= last {
        UncountedGrows(prepared[..last], n);
        assert prepared[..last][..n] == prepared[..n];
      } else {
        UncountedGrows(prepared[..last], last);
        assert prepared[..n] == prepared && prepared[..last][..last] == prepared[..last];
      }
    }
  }

  /** What all segments together can afford, each of them can. */
  lemma {:induction false} TotalAffordsEach(prepared: seq<Prepared>, weights: seq<int>, n: nat)
    requires n < |prepared| && |weights| == |AllKnown(prepared)| && NonNegative(weights) && AllCharged(prepared)
    requires Total(weights) + Uncounted(prepared) <= MAX_INT
    ensures CostOf(prepared, weights, n) <= MAX_INT
  {
    var offset := |AllKnown(prepared[..n])|;
    RoomFor(prepared, n, weights, offset);
    var end := offset + |prepared[n].rows|;
    TotalSlice(weights, offset, end);
    TotalPrefix(weights, end);
    TotalPrefix(weights, offset);
    KnownPrefix(prepared, n);
    UncountedGrows(prepared, n);
    UncountedGrows(prepared, n + 1);
  }

  method FillNext(prepared: seq<Prepared>, n: nat, weights: seq<int>, offset: nat, ghost segments: seq<SegmentEstimate>)
    returns (r: Option<SegmentEstimate>)
    requires n < |prepared| && NonNegative(weights) && NoRefunds(prepared[n].rows)
    requires |weights| == |AllKnown(prepared)| && Balanced(prepared, n, weights, offset, segments)
    ensures r.Some? <==> CostOf(prepared, weights, n) <= MAX_INT
    ensures r.Some? ==> Weighed(prepared[n], r.value)
    ensures r.Some? ==> Balanced(prepared, n + 1, weights, offset + |prepared[n].rows|, segments + [r.value])
  {
    RoomFor(prepared, n, weights, offset);
    var mine := weights[offset..offset + |prepared[n].rows|];
    r := FillSegment(prepared[n], mine);
    if r.Some? {
      BalanceStep(prepared, n, weights, offset, segments, r.value);
      assert NonNegative(mine);
    }
  }

  lemma {:induction false} BalancedAtEnd(prepared: seq<Prepared>, weights: seq<int>, offset: nat,
                                         segments: seq<SegmentEstimate>)
    requires Balanced(prepared, |prepared|, weights, offset, segments) && |weights| == |AllKnown(prepared)|
    ensures AllTokens(segments) == Total(weights) + Uncounted(prepared)
  {
    assert prepared[..|prepared|] == prepared && weights[..|weights|] == weights;
  }

  method Distribute(prepared: seq<Prepared>, weights: seq<int>) returns (r: Option<seq<SegmentEstimate>>)
    requires |weights| == |AllKnown(prepared)| && NonNegative(weights) && AllCharged(prepared)
    ensures r.Some? <==> Affordable(prepared, weights)
    ensures r.Some? ==> |r.value| == |prepared| && AllWeighed(prepared, r.value)
    ensures r.Some? ==> AllTokens(r.value) == Total(weights) + Uncounted(prepared)
  {
    var segments: seq<SegmentEstimate> := [];
    var offset: nat := 0;
    for n := 0 to |prepared|
      invariant Balanced(prepared, n, weights, offset, segments)
      invariant AllWeighed(prepared, segments)
      invariant Affords(prepared, weights, n)
    {
      var next := FillNext(prepared, n, weights, offset, segments);
      AffordsNext(prepared, weights, n, next.Some?);
      if next.None? {
        return None;
      }
      WeighedSnoc(prepared, segments, next.value);
      segments, offset := segments + [next.value], offset + |prepared[n].rows|;
    }
    BalancedAtEnd(prepared, weights, offset, segments);
    r := Some(segments);
  }

  // ---------------------------------------------------------------- all segments

  function RowsOf(p: Profile, messages: seq<Input>): (rows: seq<Row>)
    requires Ready(p, messages)
    ensures |rows| == |messages| && forall i :: 0 <= i < |rows| ==> rows[i] == RowOf(p, messages[i])
  {
    seq(|messages|, i requires 0 <= i < |messages| && Estimable(p, messages[i]) => RowOf(p, messages[i]))
  }

  /** What the estimator is shown of the input. */
  function ShownOf(p: Profile, inputs: seq<InputSegment>): seq<Input>
    requires AllReady(p, inputs)
  {
    if |inputs| == 0 then []
    else ShownOf(p, inputs[..|inputs| - 1]) + Knowns(RowsOf(p, inputs[|inputs| - 1].messages))
  }

  /** The fallback cost of what it is not shown. */
  function HiddenCost(p: Profile, inputs: seq<InputSegment>): int
    requires AllReady(p, inputs)
  {
    if |inputs| == 0 then 0
    else HiddenCost(p, inputs[..|inputs| - 1]) + AllFallback(RowsOf(p, inputs[|inputs| - 1].messages))
  }

  lemma {:induction false} ShownIsKnown(p: Profile, inputs: seq<InputSegment>, prepared: seq<Prepared>)
    requires AllReady(p, inputs) && AllPrepared(p, inputs, prepared) && |prepared| == |inputs|
    ensures AllKnown(prepared) == ShownOf(p, inputs) && Uncounted(prepared) == HiddenCost(p, inputs)
  {
    if |inputs| > 0 {
      var last := |inputs| - 1;
      ShownIsKnown(p, inputs[..last], prepared[..last]);
      RowsDetermined(p, inputs[last], prepared[last]);
    }
  }

  lemma RowsDetermined(p: Profile, input: InputSegment, x: Prepared)
    requires Ready(p, input.messages) && PreparedFrom(p, input, x)
    ensures x.rows == RowsOf(p, input.messages)
  {
    assert forall i :: 0 <= i < |x.rows| ==> RowShows(p, input.messages[i], x.rows[i]);
  }

  /** Segments made of the input in order; together they cost what the estimator says about what it was shown, and the
      fallback for what it was not. */
  method EstimateAllSegments(p: Profile, counter: Counter, inputs: seq<InputSegment>)
    returns (r: Option<seq<SegmentEstimate>>, ghost prepared: seq<Prepared>)
    requires p.Valid() && AllReferable(inputs)
    ensures AllReady(p, inputs) ==> |prepared| == |inputs| && AllPrepared(p, inputs, prepared)
                                    && AllKnown(prepared) == ShownOf(p, inputs)
    ensures r.Some? <==> AllReady(p, inputs) && Agrees(counter, AllKnown(prepared))
                         && Affordable(prepared, counter.perMessage(AllKnown(prepared)).value)
    ensures r.Some? ==> |r.value| == |inputs| && AllFinished(p, prepared, r.value)
    ensures r.Some? ==> AllTokens(r.value) == counter.total(ShownOf(p, inputs)).value + HiddenCost(p, inputs)
  {
    prepared := [];
    var ready := PrepareAll(p, inputs);
    if ready.None? {
      return None, prepared;
    }
    prepared := ready.value;
    ShownIsKnown(p, inputs, prepared);
    PreparedCharged(p, inputs, prepared);
    var known := GatherKnown(ready.value);
    var weights := EstimateKnown(counter, known);
    if weights.None? {
      return None, prepared;
    }
    r := Distribute(ready.value, weights.value);
    if r.Some? {
      SegmentsFinish(p, inputs, prepared, r.value);
    }
  }

  // ---------------------------------------------------------------- the report

  datatype Report = Report(
    profile: Profile, limit: int, segments: seq<SegmentEstimate>, total: int, quality: Quality, overflow: bool)

  function CoverageQuality(c: seq<Entry>): Quality {
    if |c| == 0 then Counted else Worse(CoverageQuality(c[..|c| - 1]), c[|c| - 1].quality)
  }

  /** Tokens without any coverage entry are an estimate. */
  function SegmentQuality(s: SegmentEstimate): Quality {
    Worse(CoverageQuality(s.coverage), if |s.coverage| == 0 && s.tokens > 0 then Estimated else Counted)
  }

  function SegmentsQuality(segments: seq<SegmentEstimate>): Quality {
    if |segments| == 0 then Counted
    else Worse(SegmentsQuality(segments[..|segments| - 1]), SegmentQuality(segments[|segments| - 1]))
  }

  predicate NamesDiffer(segments: seq<SegmentEstimate>) {
    && (forall i :: 0 <= i < |segments| ==> segments[i].name != "")
    && (forall i, j :: 0 <= i < j < |segments| ==> segments[i].name != segments[j].name)
  }

  /** The check of one segment, as a value. */
  function Check(p: Profile): SegmentEstimate -> bool {
    (s: SegmentEstimate) => ValidSegment(p, s)
  }

  predicate AllPass(check: SegmentEstimate -> bool, segments: seq<SegmentEstimate>) {
    forall i :: 0 <= i < |segments| ==> check(segments[i])
  }

  predicate SegmentsValid(p: Profile, segments: seq<SegmentEstimate>) {
    AllPass(Check(p), segments)
  }

  /** `validateEstimateSegments`. */
  ghost predicate ValidReport(r: Report) {
    && NamesDiffer(r.segments) && SegmentsValid(r.profile, r.segments)
    && r.total == AllTokens(r.segments) <= MAX_INT
    && Worse(r.quality, SegmentsQuality(r.segments)) == r.quality
    && r.overflow == (r.total > r.limit)
  }

  method FoldQuality(start: Quality, c: seq<Entry>) returns (quality: Quality)
    ensures quality == Worse(start, CoverageQuality(c))
  {
    quality := start;
    for i := 0 to |c|
      invariant quality == Worse(start, CoverageQuality(c[..i]))
    {
      assert c[..i + 1][..i] == c[..i];
      WorseAssoc(start, CoverageQuality(c[..i]), c[i].quality);
      quality := Worse(quality, c[i].quality);
    }
    assert c[..|c|] == c;
  }

  lemma WorseAssoc(a: Quality, b: Quality, c: Quality)
    ensures Worse(Worse(a, b), c) == Worse(a, Worse(b, c)) && Worse(Worse(a, b), b) == Worse(a, b)
  {
  }

  method AddQuality(start: Quality, s: SegmentEstimate) returns (quality: Quality)
    ensures quality == Worse(start, SegmentQuality(s))
  {
    quality := FoldQuality(start, s.coverage);
    var rest := if |s.coverage| == 0 && s.tokens > 0 then Estimated else Counted;
    WorseAssoc(start, CoverageQuality(s.coverage), rest);
    quality := Worse(quality, rest);
  }

  predicate NoneNegativeTokens(segments: seq<SegmentEstimate>) {
    forall i :: 0 <= i < |segments| ==> 0 <= segments[i].tokens
  }

  lemma {:induction false} TokensGrow(segments: seq<SegmentEstimate>, n: nat)
    requires n <= |segments| && NoneNegativeTokens(segments)
    ensures 0 <= AllTokens(segments[..n]) <= AllTokens(segments)
    decreases |segments|
  {
    if |segments| > 0 {
      var front := segments[..|segments| - 1];
      if n < |segments| {
        TokensGrow(front, n);
        assert front[..n] == segments[..n];
      } else {
        TokensGrow(front, |front|);
        assert segments[..n] == segments && front[..|front|] == front;
      }
    }
  }

  lemma {:induction false} FoldStep(start: Quality, segments: seq<SegmentEstimate>, n: nat)
    requires n < |segments|
    ensures AllTokens(segments[..n + 1]) == AllTokens(segments[..n]) + segments[n].tokens
    ensures Worse(start, SegmentsQuality(segments[..n + 1])) ==
            Worse(Worse(start, SegmentsQuality(segments[..n])), SegmentQuality(segments[n]))
  {
    assert segments[..n + 1][..n] == segments[..n];
    WorseAssoc(start, SegmentsQuality(segments[..n]), SegmentQuality(segments[n]));
  }

  /** Totals and quality over the segments, from `start`. */
  method FoldSegments(start: Quality, segments: seq<SegmentEstimate>) returns (r: Option<(int, Quality)>)
    ensures r.Some? ==> r.value == (AllTokens(segments), Worse(start, SegmentsQuality(segments)))
                        && r.value.0 <= MAX_INT
    ensures NoneNegativeTokens(segments) && AllTokens(segments) <= MAX_INT ==> r.Some?
  {
    var total, quality := 0, start;
    assert Worse(start, Counted) == start;
    for n := 0 to |segments|
      invariant total == AllTokens(segments[..n]) <= MAX_INT
      invariant quality == Worse(start, SegmentsQuality(segments[..n]))
      invariant NoneNegativeTokens(segments) ==> 0 <= total
    {
      FoldStep(start, segments, n);
      var next := AddTokens(total, segments[n].tokens);
      if next.None? {
        if NoneNegativeTokens(segments) {
          TokensGrow(segments, n + 1);
        }
        return None;
      }
      quality := AddQuality(quality, segments[n]);
      total := next.value;
    }
    assert segments[..|segments|] == segments;
    r := Some((total, quality));
  }

  // ---------------------------------------------------------------- the validator on a report

  lemma {:induction false} ValidTokens(p: Profile, segments: seq<SegmentEstimate>)
    requires SegmentsValid(p, segments)
    ensures NoneNegativeTokens(segments)
  {
    forall i | 0 <= i < |segments|
      ensures 0 <= segments[i].tokens
    {
      assert Check(p)(segments[i]) && ValidSegment(p, segments[i]);
      TotalPrefix(segments[i].perMessage, 0);
    }
  }

  method CheckNames(segments: seq<SegmentEstimate>) returns (ok: bool)
    ensures ok <==> NamesDiffer(segments)
  {
    var seen: set<string> := {};
    for i := 0 to |segments|
      invariant NamesDiffer(segments[..i])
      invariant forall name :: name in seen <==> exists j :: 0 <= j < i && segments[j].name == name
    {
      if segments[i].name == "" || segments[i].name in seen {
        return false;
      }
      seen := seen + {segments[i].name};
    }
    assert segments[..|segments|] == segments;
    ok := true;
  }

  method CheckOne(p: Profile, s: SegmentEstimate, ghost check: SegmentEstimate -> bool) returns (ok: bool)
    requires check == Check(p)
    ensures ok <==> check(s)
  {
    ok := ValidateSegment(p, s);
  }

  predicate PassUpTo(check: SegmentEstimate -> bool, segments: seq<SegmentEstimate>, n: nat)
    requires n <= |segments|
  {
    n == 0 || (PassUpTo(check, segments, n - 1) && check(segments[n - 1]))
  }

  lemma {:induction false} PassUpToAll(check: SegmentEstimate -> bool, segments: seq<SegmentEstimate>, n: nat)
    requires n <= |segments|
    ensures PassUpTo(check, segments, n) <==> forall i :: 0 <= i < n ==> check(segments[i])
  {
    if n > 0 {
      PassUpToAll(check, segments, n - 1);
    }
  }

  lemma PassNext(check: SegmentEstimate -> bool, segments: seq<SegmentEstimate>, n: nat)
    requires n < |segments|
    ensures PassUpTo(check, segments, n + 1) == (PassUpTo(check, segments, n) && check(segments[n]))
  {
  }

  method CheckSegments(p: Profile, segments: seq<SegmentEstimate>, ghost check: SegmentEstimate -> bool)
    returns (ok: bool)
    requires check == Check(p)
    ensures ok <==> PassUpTo(check, segments, |segments|)
  {
    ok := true;
    for i := 0 to |segments|
      invariant ok == PassUpTo(check, segments, i)
    {
      PassNext(check, segments, i);
      if ok {
        ok := CheckOne(p, segments[i], check);
      }
    }
  }

  method ValidateReport(r: Report) returns (ok: bool)
    ensures ok <==> ValidReport(r)
  {
    ok := CheckNames(r.segments);
    if !ok {
      return;
    }
    ok := CheckSegments(r.profile, r.segments, Check(r.profile));
    PassUpToAll(Check(r.profile), r.segments, |r.segments|);
    if !ok {
      return;
    }
    ValidTokens(r.profile, r.segments);
    var sums := FoldSegments(Counted, r.segments);
    if sums.None? {
      return false;
    }
    ok := sums.value.0 == r.total && Worse(r.quality, sums.value.1) == r.quality
      && r.overflow == (sums.value.0 > r.limit);
  }

  // ---------------------------------------------------------------- the run

  predicate InputNamesDiffer(inputs: seq<InputSegment>) {
    && (forall i :: 0 <= i < |inputs| ==> inputs[i].name != "")
    && (forall i, j :: 0 <= i < j < |inputs| ==> inputs[i].name != inputs[j].name)
  }

  method CheckInputNames(inputs: seq<InputSegment>) returns (ok: bool)
    ensures ok <==> InputNamesDiffer(inputs)
  {
    var seen: set<string> := {};
    for i := 0 to |inputs|
      invariant InputNamesDiffer(inputs[..i])
      invariant forall name :: name in seen <==> exists j :: 0 <= j < i && inputs[j].name == name
    {
      if inputs[i].name == "" || inputs[i].name in seen {
        return false;
      }
      seen := seen + {inputs[i].name};
    }
    assert inputs[..|inputs|] == inputs;
    ok := true;
  }

  /** A report as it is put together, before it is validated. */
  ghost predicate Assembled(p: Profile, counter: Counter, limit: int, inputs: seq<InputSegment>,
                            prepared: seq<Prepared>, r: Report) {
    && r.profile == p && r.limit == limit && |r.segments| == |prepared| == |inputs| && InputNamesDiffer(inputs)
    && AllPrepared(p, inputs, prepared) && AllFinished(p, prepared, r.segments)
    && r.total == AllTokens(r.segments) <= MAX_INT && r.overflow == (r.total > limit)
    && Worse(r.quality, SegmentsQuality(r.segments)) == r.quality
    && AllReady(p, inputs) && Agrees(counter, ShownOf(p, inputs))
    && r.total == counter.total(ShownOf(p, inputs)).value + HiddenCost(p, inputs)
  }

  /** Every message can be estimated, the estimator agrees with itself, and the whole cost fits the machine range. */
  predicate Reportable(p: Profile, counter: Counter, inputs: seq<InputSegment>) {
    && AllReady(p, inputs) && Agrees(counter, ShownOf(p, inputs))
    && counter.total(ShownOf(p, inputs)).value + HiddenCost(p, inputs) <= MAX_INT
  }

  lemma {:induction false} ReportableAffords(p: Profile, counter: Counter, inputs: seq<InputSegment>,
                                             prepared: seq<Prepared>)
    requires Reportable(p, counter, inputs) && AllPrepared(p, inputs, prepared) && |prepared| == |inputs|
    ensures AllKnown(prepared) == ShownOf(p, inputs)
    ensures Affordable(prepared, counter.perMessage(AllKnown(prepared)).value)
  {
    ShownIsKnown(p, inputs, prepared);
    PreparedCharged(p, inputs, prepared);
    var weights := counter.perMessage(AllKnown(prepared)).value;
    forall n | 0 <= n < |prepared|
      ensures CostOf(prepared, weights, n) <= MAX_INT
    {
      TotalAffordsEach(prepared, weights, n);
    }
  }

  lemma {:induction false} FinishedCosts(p: Profile, prepared: seq<Prepared>, segments: seq<SegmentEstimate>)
    requires AllFinished(p, prepared, segments)
    ensures NoneNegativeTokens(segments)
  {
    forall i | 0 <= i < |segments|
      ensures 0 <= segments[i].tokens
    {
      assert Finished(p, prepared[i], segments[i]);
      var weights :| NonNegative(weights) && Filled(prepared[i], weights, segments[i]);
      FilledCosts(p, prepared[i], weights, segments[i]);
    }
  }

  method Assemble(p: Profile, counter: Counter, accuracy: Quality, limit: int, inputs: seq<InputSegment>)
    returns (r: Option<Report>, ghost prepared: seq<Prepared>)
    requires p.Valid() && AllReferable(inputs)
    ensures r.Some? <==> InputNamesDiffer(inputs) && Reportable(p, counter, inputs)
    ensures r.Some? ==> Assembled(p, counter, limit, inputs, prepared, r.value)
  {
    prepared := [];
    var named := CheckInputNames(inputs);
    if !named {
      return None, prepared;
    }
    var segments;
    segments, prepared := EstimateAllSegments(p, counter, inputs);
    if Reportable(p, counter, inputs) {
      ReportableAffords(p, counter, inputs, prepared);
    }
    if segments.None? {
      return None, prepared;
    }
    FinishedCosts(p, prepared, segments.value);
    var sums := FoldSegments(accuracy, segments.value);
    if sums.None? {
      return None, prepared;
    }
    WorseAssoc(accuracy, SegmentsQuality(segments.value), Counted);
    r := Some(Report(p, limit, segments.value, sums.value.0, sums.value.1, sums.value.0 > limit));
  }

  predicate AllIdsDiffer(segments: seq<SegmentEstimate>) {
    forall i :: 0 <= i < |segments| ==> IdsDiffer(segments[i].messages)
  }

  lemma {:induction false} CheckIff(p: Profile, x: Prepared, s: SegmentEstimate, check: SegmentEstimate -> bool)
    requires p.Valid() && Finished(p, x, s) && check == Check(p)
    ensures check(s) <==> IdsDiffer(s.messages)
  {
    BuiltSegmentValidIff(p, x, s);
  }

  lemma {:induction false} SegmentsValidIff(p: Profile, prepared: seq<Prepared>, segments: seq<SegmentEstimate>,
                                            check: SegmentEstimate -> bool)
    requires p.Valid() && AllFinished(p, prepared, segments) && check == Check(p)
    ensures AllPass(check, segments) <==> AllIdsDiffer(segments)
  {
    forall i | 0 <= i < |segments|
      ensures check(segments[i]) <==> IdsDiffer(segments[i].messages)
    {
      CheckIff(p, prepared[i], segments[i], check);
    }
  }

  lemma {:induction false} NamesCarry(p: Profile, inputs: seq<InputSegment>, prepared: seq<Prepared>,
                                      segments: seq<SegmentEstimate>)
    requires |segments| == |prepared| == |inputs| && InputNamesDiffer(inputs)
    requires AllPrepared(p, inputs, prepared) && AllFinished(p, prepared, segments)
    ensures NamesDiffer(segments)
  {
    forall i | 0 <= i < |segments|
      ensures segments[i].name == inputs[i].name
    {
      assert PreparedFrom(p, inputs[i], prepared[i]) && Finished(p, prepared[i], segments[i]);
    }
  }

  /** An assembled report passes its validator exactly when no segment repeats a message identity. */
  lemma {:induction false} AssembledValidIff(p: Profile, counter: Counter, limit: int, inputs: seq<InputSegment>,
                                             prepared: seq<Prepared>, r: Report)
    requires p.Valid() && Assembled(p, counter, limit, inputs, prepared, r)
    ensures ValidReport(r) <==> AllIdsDiffer(r.segments)
  {
    NamesCarry(p, inputs, prepared, r.segments);
    SegmentsValidIff(p, prepared, r.segments, Check(p));
  }

  /** No segment of the input names one identity twice. */
  predicate InputIdsDiffer(inputs: seq<InputSegment>) {
    forall i :: 0 <= i < |inputs| ==> MessageIdsDiffer(inputs[i].messages)
  }

  predicate MessageIdsDiffer(messages: seq<Input>) {
    forall i, j :: 0 <= i < j < |messages| ==>
                     messages[i].ref.Some? && messages[j].ref.Some? ==>
                       messages[i].ref.value.id != messages[j].ref.value.id
  }

  lemma {:induction false} BuiltIds(p: Profile, input: InputSegment, x: Prepared, s: SegmentEstimate)
    requires Ready(p, input.messages) && PreparedFrom(p, input, x) && Finished(p, x, s)
    ensures IdsDiffer(s.messages) <==> MessageIdsDiffer(input.messages)
  {
    RowsDetermined(p, input, x);
    assert |s.messages| == |input.messages|;
    assert forall i :: 0 <= i < |s.messages| ==> input.messages[i].ref == Some(s.messages[i]);
  }

  lemma {:induction false} AssembledIds(p: Profile, counter: Counter, limit: int, inputs: seq<InputSegment>,
                                        prepared: seq<Prepared>, r: Report)
    requires Assembled(p, counter, limit, inputs, prepared, r)
    ensures AllIdsDiffer(r.segments) <==> InputIdsDiffer(inputs)
  {
    forall i | 0 <= i < |inputs|
      ensures IdsDiffer(r.segments[i].messages) <==> MessageIdsDiffer(inputs[i].messages)
    {
      assert PreparedFrom(p, inputs[i], prepared[i]) && Finished(p, prepared[i], r.segments[i]);
      BuiltIds(p, inputs[i], prepared[i], r.segments[i]);
    }
  }

  /** `Report`: the report it returns is valid and adds up, and it returns one exactly when the input can be reported
      and no segment repeats an identity. */
  method ReportEstimate(p: Profile, counter: Counter, accuracy: Quality, limit: int, inputs: seq<InputSegment>)
    returns (r: Option<Report>, ghost prepared: seq<Prepared>, ghost assembled: Option<Report>)
    requires p.Valid() && AllReferable(inputs)
    ensures r.Some? <==> InputNamesDiffer(inputs) && Reportable(p, counter, inputs) && InputIdsDiffer(inputs)
    ensures assembled.Some? ==> Assembled(p, counter, limit, inputs, prepared, assembled.value)
    ensures r.Some? ==> r == assembled && ValidReport(r.value)
    ensures assembled.Some? <==> InputNamesDiffer(inputs) && Reportable(p, counter, inputs)
  {
    r, prepared := Assemble(p, counter, accuracy, limit, inputs);
    assembled := r;
    if r.None? {
      return;
    }
    AssembledValidIff(p, counter, limit, inputs, prepared, r.value);
    AssembledIds(p, counter, limit, inputs, prepared, r.value);
    var valid := ValidateReport(r.value);
    if !valid {
      r := None;
    }
  }

  // ---------------------------------------------------------------- a report that is refused

  /** An estimator that counts nothing. */
  const FREE := Counter((known: seq<Input>) => Some(seq(|known|, _ => 0)), (known: seq<Input>) => Some(0))

  function Blank(ref: ContentRef): Input {
    Input(Some(ref), [], [], "")
  }

  function Twice(ref: ContentRef): seq<InputSegment> {
    [InputSegment("history", [Blank(ref), Blank(ref)])]
  }

  lemma {:induction false} NothingWeighs(weights: seq<int>, i: nat)
    requires i <= |weights| && forall k :: 0 <= k < |weights| ==> weights[k] == 0
    ensures Weight(weights, i) == 0
    decreases |weights| - i
  {
    if i < |weights| {
      NothingWeighs(weights, i + 1);
    }
  }

  lemma BlankIsEstimable(p: Profile, ref: ContentRef)
    requires p.Valid()
    ensures Estimable(p, Blank(ref)) && RowOf(p, Blank(ref)).fallback == 0
  {
  }

  lemma FreeAgrees(known: seq<Input>)
    ensures Agrees(FREE, known) && FREE.total(known) == Some(0)
  {
    NothingWeighs(FREE.perMessage(known).value, 0);
  }

  lemma {:induction false} NothingCharged(rows: seq<Row>)
    requires forall i :: 0 <= i < |rows| ==> rows[i].fallback == 0
    ensures AllFallback(rows) == 0
  {
    if |rows| > 0 {
      NothingCharged(rows[..|rows| - 1]);
    }
  }

  lemma {:induction false} OneSegmentCost(p: Profile, input: InputSegment)
    requires Ready(p, input.messages) && AllReady(p, [input]) && AllFallback(RowsOf(p, input.messages)) == 0
    ensures HiddenCost(p, [input]) == 0
  {
    assert [input][..0] == [];
  }

  lemma {:induction false} TwiceIsReportable(p: Profile, ref: ContentRef, inputs: seq<InputSegment>)
    requires p.Valid() && inputs == Twice(ref)
    ensures InputNamesDiffer(inputs) && Reportable(p, FREE, inputs) && !InputIdsDiffer(inputs)
  {
    var messages := inputs[0].messages;
    BlankIsEstimable(p, ref);
    assert forall i :: 0 <= i < |messages| ==> messages[i] == Blank(ref);
    assert Ready(p, messages);
    NothingCharged(RowsOf(p, messages));
    OneSegmentCost(p, inputs[0]);
    FreeAgrees(ShownOf(p, inputs));
    assert !MessageIdsDiffer(messages) by {
      assert messages[0].ref.value.id == messages[1].ref.value.id;
    }
  }

  /** Two empty messages of one identity: the report is put together, and the run refuses it. */
  method ReportTwice(p: Profile, ref: ContentRef, limit: int)
    returns (r: Option<Report>, ghost prepared: seq<Prepared>, ghost assembled: Option<Report>)
    requires p.Valid() && ref.Valid()
    ensures r.None? && assembled.Some? && Assembled(p, FREE, limit, Twice(ref), prepared, assembled.value)
  {
    var inputs := Twice(ref);
    TwiceIsReportable(p, ref, inputs);
    r, prepared, assembled := ReportEstimate(p, FREE, Counted, limit, inputs);
  }
}
