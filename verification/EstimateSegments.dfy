/** Segment estimates: prepared from the messages, filled in from the estimator's weights (estimate_report.go). */
module EstimateSegments {
  import opened Results
  import opened Sequences
  import opened Messages
  import opened Budgets
  import opened Weights
  import opened Estimates
  import opened EstimateBuild

  datatype SegmentEstimate = SegmentEstimate(
    name: string, messages: seq<ContentRef>, perMessage: seq<int>, tokens: int, coverage: seq<Entry>,
    partKinds: seq<seq<seq<Kind>>>, extensionTypes: seq<seq<string>>)

  /** The estimator sees only what it can count: one weight per message and a total. */
  datatype Counter = Counter(perMessage: seq<Input> -> Option<seq<int>>, total: seq<Input> -> Option<int>)

  // ---------------------------------------------------------------- one message

  datatype Row = Row(ref: ContentRef, groups: seq<seq<Kind>>, types: seq<string>, fallback: int, known: Input)

  ghost predicate RowFits(p: Profile, row: Row) {
    && GroupsFit(p, row.groups, row.types) && 0 <= row.fallback && row.fallback == Charge(p, row.groups, row.types)
    && row.ref.Valid() && Priceable(p, row.groups, row.types)
  }

  /** The message has a reference, and its parts and extensions can be told. */
  predicate Tellable(p: Profile, m: Input) {
    m.ref.Some? && GroupsOf(m.parts, |m.parts|).Some? && ReadOf(p, m.extensions, |m.extensions|).Some?
  }

  function RowOf(p: Profile, m: Input): Row
    requires Tellable(p, m)
  {
    var read := ReadOf(p, m.extensions, |m.extensions|).value;
    var groups := GroupsOf(m.parts, |m.parts|).value + ExtensionGroups(p, read.types);
    Row(m.ref.value, groups, read.types, Charge(p, groups, read.types),
        m.(parts := KnownParts(p, m.parts, |m.parts|), extensions := read.known))
  }

  /** Everything in the message can be told, and what cannot be counted can be priced. */
  predicate Estimable(p: Profile, m: Input) {
    Tellable(p, m) && Priceable(p, RowOf(p, m).groups, RowOf(p, m).types)
  }

  predicate RowShows(p: Profile, m: Input, row: Row) {
    Tellable(p, m) && row == RowOf(p, m)
  }

  lemma {:induction false} EstimableSplits(p: Profile, m: Input)
    requires p.Valid()
    ensures Estimable(p, m) ==> PartsPayable(p, m.parts, |m.parts|) && ExtrasPayable(p, m.extensions, |m.extensions|)
  {
    if Tellable(p, m) {
      var types := ReadOf(p, m.extensions, |m.extensions|).value.types;
      NothingBefore(types);
      PriceableJoins(p, GroupsOf(m.parts, |m.parts|).value, [], ExtensionGroups(p, types), types, types);
    }
  }

  predicate Referable(m: Input) {
    m.ref.Some? ==> m.ref.value.Valid()
  }

  method PrepareMessage(p: Profile, m: Input) returns (r: Option<(Row, seq<Entry>)>)
    requires p.Valid() && Referable(m)
    ensures r.Some? <==> Estimable(p, m)
    ensures r.Some? ==> RowFits(p, r.value.0) && RowShows(p, m, r.value.0)
    ensures r.Some? ==> Accounts(p, r.value.1, r.value.0.groups, r.value.0.types, r.value.0.fallback)
  {
    EstimableSplits(p, m);
    if m.ref.None? {
      return None;
    }
    var parts := EstimateParts(p, m.parts);
    if parts.None? {
      return None;
    }
    var extras := EstimateExtensions(p, m.extensions);
    if extras.None? {
      return None;
    }
    var types := extras.value.read.types;
    var priced := JoinBoth(p, m, parts.value, extras.value);
    if priced.None? {
      return None;
    }
    var groups := parts.value.groups + ExtensionGroups(p, types);
    var known := m.(parts := parts.value.known, extensions := extras.value.read.known);
    var row := Row(m.ref.value, groups, types, priced.value.fallback, known);
    RowIsShown(p, m, parts.value, extras.value, priced.value, row);
    r := Some((row, priced.value.coverage));
  }

  lemma {:induction false} RowIsShown(p: Profile, m: Input, parts: PartsEstimate, extras: ExtrasEstimate,
                                      priced: Priced, row: Row)
    requires p.Valid() && m.ref.Some? && Referable(m) && 0 <= priced.fallback
    requires PartsDone(p, m.parts, |m.parts|, parts) && ExtrasDone(p, m.extensions, |m.extensions|, extras)
    requires Accounts(p, priced.coverage, row.groups, row.types, priced.fallback)
    requires Priceable(p, row.groups, row.types)
    requires row == Row(m.ref.value, parts.groups + ExtensionGroups(p, extras.read.types), extras.read.types,
                        priced.fallback, m.(parts := parts.known, extensions := extras.read.known))
    ensures RowFits(p, row) && RowShows(p, m, row)
  {
    ReadNamed(p, m.extensions, |m.extensions|);
    MessageGroups(p, m.parts, row.types);
  }

  method JoinBoth(p: Profile, m: Input, parts: PartsEstimate, extras: ExtrasEstimate) returns (r: Option<Priced>)
    requires p.Valid() && PartsPayable(p, m.parts, |m.parts|) && ExtrasPayable(p, m.extensions, |m.extensions|)
    requires PartsDone(p, m.parts, |m.parts|, parts) && ExtrasDone(p, m.extensions, |m.extensions|, extras)
    ensures r.Some? <==> Priceable(p, parts.groups + ExtensionGroups(p, extras.read.types), extras.read.types)
    ensures r.Some? ==> 0 <= r.value.fallback <= MAX_INT
    ensures r.Some? ==> Accounts(p, r.value.coverage, parts.groups + ExtensionGroups(p, extras.read.types),
                                 extras.read.types, r.value.fallback)
  {
    NothingBefore(extras.read.types);
    PriceableJoins(p, parts.groups, [], ExtensionGroups(p, extras.read.types), extras.read.types, extras.read.types);
    var fallback := AddTokens(parts.fallback, extras.fallback);
    if fallback.None? {
      return None;
    }
    var coverage := MergeEstimateCoverage(parts.coverage, extras.coverage);
    JoinAccounts(p, parts.coverage, parts.groups, [], parts.fallback, extras.coverage,
                 ExtensionGroups(p, extras.read.types), extras.read.types, extras.fallback, coverage, extras.read.types,
                 fallback.value);
    r := Some(Priced(coverage, fallback.value));
  }

  // ---------------------------------------------------------------- one segment

  function AllGroups(rows: seq<Row>): seq<seq<Kind>> {
    if |rows| == 0 then [] else AllGroups(rows[..|rows| - 1]) + rows[|rows| - 1].groups
  }

  function AllTypes(rows: seq<Row>): seq<string> {
    if |rows| == 0 then [] else AllTypes(rows[..|rows| - 1]) + rows[|rows| - 1].types
  }

  function AllFallback(rows: seq<Row>): int {
    if |rows| == 0 then 0 else AllFallback(rows[..|rows| - 1]) + rows[|rows| - 1].fallback
  }

  function Knowns(rows: seq<Row>): seq<Input> {
    if |rows| == 0 then [] else Knowns(rows[..|rows| - 1]) + [rows[|rows| - 1].known]
  }

  lemma {:induction false} RowsSnoc(rows: seq<Row>, row: Row)
    ensures AllGroups(rows + [row]) == AllGroups(rows) + row.groups
            && AllTypes(rows + [row]) == AllTypes(rows) + row.types
    ensures AllFallback(rows + [row]) == AllFallback(rows) + row.fallback
            && Knowns(rows + [row]) == Knowns(rows) + [row.known]
  {
    assert (rows + [row])[..|rows|] == rows;
  }

  datatype Prepared = Prepared(name: string, rows: seq<Row>, coverage: seq<Entry>)

  /** All of them can be estimated. */
  predicate Ready(p: Profile, messages: seq<Input>) {
    forall i :: 0 <= i < |messages| ==> Estimable(p, messages[i])
  }

  ghost predicate RowsFit(p: Profile, rows: seq<Row>) {
    forall i :: 0 <= i < |rows| ==> RowFits(p, rows[i])
  }

  ghost predicate RowsShow(p: Profile, messages: seq<Input>, rows: seq<Row>) {
    |rows| <= |messages| && forall i :: 0 <= i < |rows| ==> RowShows(p, messages[i], rows[i])
  }

  ghost predicate CoverageFits(p: Profile, x: Prepared) {
    0 <= AllFallback(x.rows) && Accounts(p, x.coverage, AllGroups(x.rows), AllTypes(x.rows), AllFallback(x.rows))
  }

  lemma AccountsSame(p: Profile, c: seq<Entry>, groups: seq<seq<Kind>>, types: seq<string>,
                     fallback: int, groups': seq<seq<Kind>>, types': seq<string>, fallback': int)
    requires Accounts(p, c, groups, types, fallback) && Same(groups, groups') && Same(types, types')
             && fallback == fallback'
    ensures Accounts(p, c, groups', types', fallback')
  {
  }

  lemma {:induction false} CoverageNext(p: Profile, x: Prepared, row: Row, merged: seq<Entry>)
    requires 0 <= AllFallback(x.rows) && 0 <= row.fallback
    requires Accounts(p, merged, AllGroups(x.rows) + row.groups, AllTypes(x.rows) + row.types,
                      AllFallback(x.rows) + row.fallback)
    ensures CoverageFits(p, Prepared(x.name, x.rows + [row], merged))
  {
    var rows := x.rows + [row];
    RowsSnoc(x.rows, row);
    AccountsSame(p, merged, AllGroups(x.rows) + row.groups, AllTypes(x.rows) + row.types,
                 AllFallback(x.rows) + row.fallback, AllGroups(rows), AllTypes(rows), AllFallback(rows));
  }

  method MergeRow(p: Profile, x: Prepared, row: Row, coverage: seq<Entry>) returns (merged: seq<Entry>)
    requires CoverageFits(p, x) && 0 <= row.fallback && Accounts(p, coverage, row.groups, row.types, row.fallback)
    ensures CoverageFits(p, Prepared(x.name, x.rows + [row], merged))
  {
    merged := MergeEstimateCoverage(x.coverage, coverage);
    JoinAccounts(p, x.coverage, AllGroups(x.rows), AllTypes(x.rows), AllFallback(x.rows), coverage, row.groups,
                 row.types, row.fallback, merged, AllTypes(x.rows) + row.types,
                 AllFallback(x.rows) + row.fallback);
    CoverageNext(p, x, row, merged);
  }

  method AppendRow(p: Profile, x: Prepared, row: Row, coverage: seq<Entry>) returns (out: Prepared)
    requires RowsFit(p, x.rows) && CoverageFits(p, x) && RowFits(p, row)
    requires Accounts(p, coverage, row.groups, row.types, row.fallback)
    ensures out.name == x.name && out.rows == x.rows + [row] && RowsFit(p, out.rows) && CoverageFits(p, out)
  {
    var merged := MergeRow(p, x, row, coverage);
    out := Prepared(x.name, x.rows + [row], merged);
  }

  method PrepareSegment(p: Profile, input: InputSegment) returns (r: Option<Prepared>)
    requires p.Valid() && forall i :: 0 <= i < |input.messages| ==> Referable(input.messages[i])
    ensures r.Some? <==> Ready(p, input.messages)
    ensures r.Some? ==> PreparedFrom(p, input, r.value)
  {
    var x := Prepared(input.name, [], []);
    EmptyAccounts(p);
    for n := 0 to |input.messages|
      invariant x.name == input.name && |x.rows| == n
      invariant RowsFit(p, x.rows) && RowsShow(p, input.messages, x.rows)
      invariant CoverageFits(p, x)
      invariant forall i :: 0 <= i < n ==> Estimable(p, input.messages[i])
    {
      var next := PrepareMessage(p, input.messages[n]);
      if next.None? {
        return None;
      }
      x := AppendRow(p, x, next.value.0, next.value.1);
    }
    r := Some(x);
  }

  // ---------------------------------------------------------------- weights

  /** The estimator has one weight for each message shown to it, and they add up to its own total. */
  predicate Agrees(counter: Counter, known: seq<Input>) {
    && counter.perMessage(known).Some? && counter.total(known).Some?
    && var weights := counter.perMessage(known).value;
       && |weights| == |known| && NonNegative(weights) && Total(weights) <= MAX_INT
       && Total(weights) == counter.total(known).value
  }

  /** `estimateKnown`: one weight per message that adds up to the estimator's own total. */
  method EstimateKnown(counter: Counter, known: seq<Input>) returns (weights: Option<seq<int>>)
    ensures weights.Some? <==> Agrees(counter, known)
    ensures weights.Some? ==> weights == counter.perMessage(known)
  {
    var perMessage := counter.perMessage(known);
    if perMessage.None? {
      return None;
    }
    var total := counter.total(known);
    if total.None? || |perMessage.value| != |known| {
      return None;
    }
    var sum := SumEstimateTokens(perMessage.value);
    if sum.None? || sum.value != total.value {
      return None;
    }
    weights := perMessage;
  }

  // ---------------------------------------------------------------- filling in the weights

  function Refs(rows: seq<Row>): (out: seq<ContentRef>)
    ensures |out| == |rows| && forall i :: 0 <= i < |rows| ==> out[i] == rows[i].ref
  {
    seq(|rows|, i requires 0 <= i < |rows| => rows[i].ref)
  }

  function GroupLists(rows: seq<Row>): (out: seq<seq<seq<Kind>>>)
    ensures |out| == |rows| && forall i :: 0 <= i < |rows| ==> out[i] == rows[i].groups
  {
    seq(|rows|, i requires 0 <= i < |rows| => rows[i].groups)
  }

  function TypeLists(rows: seq<Row>): (out: seq<seq<string>>)
    ensures |out| == |rows| && forall i :: 0 <= i < |rows| ==> out[i] == rows[i].types
  {
    seq(|rows|, i requires 0 <= i < |rows| => rows[i].types)
  }

  /** Every message costs its weight and its fallback. */
  predicate Added(rows: seq<Row>, weights: seq<int>, perMessage: seq<int>) {
    && |perMessage| == |rows| == |weights|
    && forall i :: 0 <= i < |rows| ==> perMessage[i] == weights[i] + rows[i].fallback
  }

  ghost predicate Filled(x: Prepared, weights: seq<int>, s: SegmentEstimate) {
    && s.name == x.name && s.coverage == x.coverage && s.messages == Refs(x.rows)
    && s.partKinds == GroupLists(x.rows) && s.extensionTypes == TypeLists(x.rows)
    && Added(x.rows, weights, s.perMessage) && s.tokens == Total(s.perMessage) <= MAX_INT
  }

  function Costs(rows: seq<Row>, weights: seq<int>): (out: seq<int>)
    requires |weights| == |rows|
    ensures Added(rows, weights, out)
  {
    seq(|rows|, i requires 0 <= i < |rows| => weights[i] + rows[i].fallback)
  }

  predicate NoRefunds(rows: seq<Row>) {
    forall i :: 0 <= i < |rows| ==> 0 <= rows[i].fallback
  }

  method FillSegment(x: Prepared, weights: seq<int>) returns (r: Option<SegmentEstimate>)
    requires |weights| == |x.rows| && NonNegative(weights) && NoRefunds(x.rows)
    ensures r.Some? <==> Total(weights) + AllFallback(x.rows) <= MAX_INT
    ensures r.Some? ==> Filled(x, weights, r.value)
  {
    ghost var costs := Costs(x.rows, weights);
    AddedTotal(x.rows, weights, costs);
    var perMessage: seq<int>, tokens := [], 0;
    for i := 0 to |x.rows|
      invariant perMessage == costs[..i] && tokens == Total(perMessage) && 0 <= tokens <= MAX_INT
    {
      TotalPrefix(costs, i + 1);
      TotalNext(perMessage, costs[i]);
      assert costs[..i + 1] == perMessage + [costs[i]];
      var value := AddTokens(weights[i], x.rows[i].fallback);
      if value.None? {
        return None;
      }
      var next := AddTokens(tokens, value.value);
      if next.None? {
        return None;
      }
      perMessage, tokens := perMessage + [value.value], next.value;
    }
    assert perMessage == costs;
    r := Some(SegmentEstimate(x.name, Refs(x.rows), perMessage, tokens, x.coverage, GroupLists(x.rows),
                              TypeLists(x.rows)));
  }

  lemma {:induction false} AddedTotal(rows: seq<Row>, weights: seq<int>, perMessage: seq<int>)
    requires Added(rows, weights, perMessage)
    ensures Total(perMessage) == Total(weights) + AllFallback(rows)
  {
    if |rows| > 0 {
      var last := |rows| - 1;
      AddedTotal(rows[..last], weights[..last], perMessage[..last]);
      TotalNext(weights[..last], weights[last]);
      TotalNext(perMessage[..last], perMessage[last]);
      assert weights == weights[..last] + [weights[last]] && perMessage == perMessage[..last] + [perMessage[last]];
    }
  }

  function AllKnown(prepared: seq<Prepared>): seq<Input> {
    if |prepared| == 0 then [] else AllKnown(prepared[..|prepared| - 1]) + Knowns(prepared[|prepared| - 1].rows)
  }

  /** The fallback cost of everything the estimator was not shown. */
  function Uncounted(prepared: seq<Prepared>): int {
    if |prepared| == 0 then 0 else Uncounted(prepared[..|prepared| - 1]) + AllFallback(prepared[|prepared| - 1].rows)
  }

  function AllTokens(segments: seq<SegmentEstimate>): int {
    if |segments| == 0 then 0 else AllTokens(segments[..|segments| - 1]) + segments[|segments| - 1].tokens
  }

  ghost predicate PreparedFrom(p: Profile, input: InputSegment, x: Prepared) {
    && x.name == input.name && |x.rows| == |input.messages|
    && RowsFit(p, x.rows) && RowsShow(p, input.messages, x.rows) && CoverageFits(p, x)
  }

  ghost predicate AllPrepared(p: Profile, inputs: seq<InputSegment>, prepared: seq<Prepared>) {
    |prepared| <= |inputs| && forall i :: 0 <= i < |prepared| ==> PreparedFrom(p, inputs[i], prepared[i])
  }

  predicate AllReferable(inputs: seq<InputSegment>) {
    forall i, j :: 0 <= i < |inputs| && 0 <= j < |inputs[i].messages| ==> Referable(inputs[i].messages[j])
  }

  predicate AllReady(p: Profile, inputs: seq<InputSegment>) {
    forall i :: 0 <= i < |inputs| ==> Ready(p, inputs[i].messages)
  }

  lemma ReadyNext(p: Profile, inputs: seq<InputSegment>, n: nat, ready: bool)
    requires n < |inputs| && AllReady(p, inputs[..n]) && (ready <==> Ready(p, inputs[n].messages))
    ensures AllReady(p, inputs[..n + 1]) == ready && (AllReady(p, inputs) ==> ready)
  {
    assert inputs[..n + 1] == inputs[..n] + [inputs[n]];
  }

  lemma {:induction false} PreparedNext(p: Profile, inputs: seq<InputSegment>, prepared: seq<Prepared>, x: Prepared)
    requires AllPrepared(p, inputs, prepared) && |prepared| < |inputs| && PreparedFrom(p, inputs[|prepared|], x)
    ensures AllPrepared(p, inputs, prepared + [x])
  {
    var more := prepared + [x];
    forall i | 0 <= i < |more|
      ensures PreparedFrom(p, inputs[i], more[i])
    {
      if i < |prepared| {
        assert more[i] == prepared[i];
      }
    }
  }

  method PrepareAll(p: Profile, inputs: seq<InputSegment>) returns (r: Option<seq<Prepared>>)
    requires p.Valid() && AllReferable(inputs)
    ensures r.Some? <==> AllReady(p, inputs)
    ensures r.Some? ==> AllPrepared(p, inputs, r.value) && |r.value| == |inputs|
  {
    var prepared: seq<Prepared> := [];
    for i := 0 to |inputs|
      invariant AllPrepared(p, inputs, prepared) && |prepared| == i
      invariant AllReady(p, inputs[..i])
    {
      var next := PrepareSegment(p, inputs[i]);
      ReadyNext(p, inputs, i, next.Some?);
      if next.None? {
        return None;
      }
      PreparedNext(p, inputs, prepared, next.value);
      prepared := prepared + [next.value];
    }
    assert inputs[..|inputs|] == inputs;
    r := Some(prepared);
  }

  lemma {:induction false} KnownsLength(rows: seq<Row>)
    ensures |Knowns(rows)| == |rows|
  {
    if |rows| > 0 {
      KnownsLength(rows[..|rows| - 1]);
    }
  }

  method GatherKnown(prepared: seq<Prepared>) returns (known: seq<Input>)
    ensures known == AllKnown(prepared)
  {
    known := [];
    for i := 0 to |prepared|
      invariant known == AllKnown(prepared[..i])
    {
      assert prepared[..i + 1][..i] == prepared[..i];
      var more: seq<Input> := [];
      for j := 0 to |prepared[i].rows|
        invariant more == Knowns(prepared[i].rows[..j])
      {
        assert prepared[i].rows[..j + 1][..j] == prepared[i].rows[..j];
        more := more + [prepared[i].rows[j].known];
      }
      assert prepared[i].rows[..|prepared[i].rows|] == prepared[i].rows;
      known := known + more;
    }
    assert prepared[..|prepared|] == prepared;
  }
}
