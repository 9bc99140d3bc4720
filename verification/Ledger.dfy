/** One coverage row per input of every output (manifest_coverage.go). */
module Ledger {
  import opened Results
  import opened Sequences
  import opened Messages
  import opened Lineage
  import opened Coverage
  import opened Exclusions

  datatype Segment = Segment(name: string, messages: seq<ContentRef>)

  datatype Output = Output(
    kind: string, name: string, records: seq<Record>, segments: seq<Segment>, rendered: Option<ContentRef>,
    sourceSegments: seq<string>, excludedArtifacts: seq<Exclusion>, transformations: map<Name, seq<TransformStep>>)

  datatype Manifest = Manifest(
    inputs: seq<Segment>, resolved: seq<ContentRef>, inherited: seq<Name>, outputs: seq<Output>,
    excludedArtifacts: seq<Exclusion>)

  datatype Status = Included | Transformed | Summarized | Excluded

  datatype Row = Row(kind: string, output: string, segment: string, input: Option<ContentRef>, status: Status,
                     outputs: seq<ContentRef>, reason: string)

  // ---------------------------------------------------------------- latest occurrences

  function Latest(records: seq<Record>, final: ContentRef): ContentRef {
    if final.occurrence != "" then final
    else
      var found := LatestIn(records, final, |records|);
      if found.Some? then found.value else final
  }

  method LatestCoverageRef(records: seq<Record>, final: ContentRef) returns (r: ContentRef)
    ensures r == Latest(records, final)
  {
    if final.occurrence != "" {
      return final;
    }
    var found := FindLatest(records, final);
    r := if found.Some? then found.value else final;
  }

  // ---------------------------------------------------------------- ancestry

  function Finals(segments: seq<Segment>, n: nat): seq<ContentRef>
    requires n <= |segments|
  {
    if n == 0 then [] else Finals(segments, n - 1) + segments[n - 1].messages
  }

  function FinalRefs(o: Output): seq<ContentRef> {
    Finals(o.segments, |o.segments|) + if o.rendered.Some? then [o.rendered.value] else []
  }

  method BuildProducers(records: seq<Record>) returns (producers: map<ContentRef, seq<Record>>)
    ensures MakersOf(producers, records)
  {
    producers := map[];
    for k := 0 to |records|
      invariant MakersOf(producers, records[..k])
    {
      ghost var before := producers;
      assert records[..k + 1] == records[..k] + [records[k]];
      for i := 0 to |records[k].outputs|
        invariant forall ref, r :: r in At(producers, ref) <==>
                    r in At(before, ref) || (r == records[k] && ref in records[k].outputs[..i])
      {
        var ref := records[k].outputs[i];
        assert records[k].outputs[..i + 1] == records[k].outputs[..i] + [ref];
        producers := producers[ref := At(producers, ref) + [records[k]]];
      }
      assert records[k].outputs[..|records[k].outputs|] == records[k].outputs;
    }
    assert records[..|records|] == records;
  }

  /** A trail leads from the latest occurrence of `final` to `ref`, crossing a summary or not. */
  ghost predicate Joins(o: Output, inherited: seq<Name>, final: ContentRef, ref: ContentRef, summarized: bool) {
    Reached(o.records, inherited, Latest(o.records, final), Visit(ref, summarized))
  }

  ghost predicate ReachOf(reach: Reaches, o: Output, inherited: seq<Name>, finals: seq<ContentRef>) {
    forall ref, x :: x in At(reach, ref) <==> x.output in finals && Joins(o, inherited, x.output, ref, x.summarized)
  }

  lemma {:induction false} ReachGrows(reach: Reaches, more: Reaches, o: Output, inherited: seq<Name>,
                                      finals: seq<ContentRef>, k: nat)
    requires k < |finals| && ReachOf(reach, o, inherited, finals[..k])
    requires forall ref, x :: x in At(more, ref) <==>
               x in At(reach, ref) || (x.output == finals[k] && Joins(o, inherited, finals[k], ref, x.summarized))
    ensures ReachOf(more, o, inherited, finals[..k + 1])
  {
    assert finals[..k + 1] == finals[..k] + [finals[k]];
  }

  method CoverageAncestry(o: Output, inherited: seq<Name>) returns (reach: Reaches)
    ensures ReachOf(reach, o, inherited, FinalRefs(o))
  {
    var producers := BuildProducers(o.records);
    var finals: seq<ContentRef> := [];
    for k := 0 to |o.segments|
      invariant finals == Finals(o.segments, k)
    {
      finals := finals + o.segments[k].messages;
    }
    if o.rendered.Some? {
      finals := finals + [o.rendered.value];
    } else {
      assert finals + [] == finals;
    }
    reach := map[];
    for k := 0 to |finals|
      invariant ReachOf(reach, o, inherited, finals[..k])
    {
      var root := LatestCoverageRef(o.records, finals[k]);
      var more := WalkCoverage(reach, producers, inherited, finals[k], root, o.records);
      ReachGrows(reach, more, o, inherited, finals, k);
      reach := more;
    }
    assert finals[..|finals|] == finals;
  }

  // ---------------------------------------------------------------- anchors

  function StageOf(segment: string): string {
    if segment == "artifacts" then "artifact" else if segment == "current/prompt" then "prompt-template" else "source"
  }

  predicate Materializes(r: Record, segment: string) {
    || r.stage == StageOf(segment)
    || (segment == "artifacts" && (r.stage == "resource-materialize" || r.stage == "resource-append-materialize"))
  }

  function CandidatesOf(r: Record, segment: string): seq<ContentRef> {
    if segment == "artifacts" then r.inputs else r.outputs
  }

  predicate AnchorIn(r: Record, inherited: seq<Name>, segment: string, input: ContentRef, a: ContentRef) {
    Materializes(r, segment) && r.id !in inherited && a in CandidatesOf(r, segment) && a.Base() == input.Base()
  }

  /** Where the input entered the graph. */
  predicate IsAnchor(records: seq<Record>, inherited: seq<Name>, segment: string, input: ContentRef, a: ContentRef) {
    if segment == "resolved" then a == input
    else exists k :: 0 <= k < |records| && AnchorIn(records[k], inherited, segment, input, a)
  }

  method UniqueContentRefs(refs: seq<ContentRef>) returns (unique: seq<ContentRef>)
    ensures Distinct(unique) && forall r :: r in unique <==> r in refs
  {
    unique := [];
    for i := 0 to |refs|
      invariant Distinct(unique) && forall r :: r in unique <==> r in refs[..i]
    {
      assert refs[..i + 1] == refs[..i] + [refs[i]];
      if refs[i] !in unique {
        unique := unique + [refs[i]];
      }
    }
    assert refs[..|refs|] == refs;
  }

  method CoverageAnchors(records: seq<Record>, inherited: seq<Name>, segment: string, input: ContentRef)
    returns (anchors: seq<ContentRef>)
    ensures Distinct(anchors) && forall a :: a in anchors <==> IsAnchor(records, inherited, segment, input, a)
  {
    if segment == "resolved" {
      return [input];
    }
    var found: seq<ContentRef> := [];
    for k := 0 to |records|
      invariant forall a :: a in found <==> exists j :: 0 <= j < k && AnchorIn(records[j], inherited, segment, input, a)
    {
      if Materializes(records[k], segment) && records[k].id !in inherited {
        var candidates := CandidatesOf(records[k], segment);
        ghost var before := found;
        for i := 0 to |candidates|
          invariant forall a :: a in found <==> a in before || (a in candidates[..i] && a.Base() == input.Base())
        {
          assert candidates[..i + 1] == candidates[..i] + [candidates[i]];
          if candidates[i].Base() == input.Base() {
            found := found + [candidates[i]];
          }
        }
        assert candidates[..|candidates|] == candidates;
      }
    }
    anchors := UniqueContentRefs(found);
  }

  // ---------------------------------------------------------------- why an input is excluded

  const TARGET := "target"

  predicate StandardSegment(segment: string) {
    segment == "system" || segment == "history" || segment == "tools" || segment == "memory"
  }

  function RecordedFor(m: Manifest, o: Output, segment: string, input: ContentRef): Option<string> {
    if segment != "artifacts" then None
    else RecordedReason(if o.kind == TARGET then o.excludedArtifacts else m.excludedArtifacts, input)
  }

  function ChainReason(o: Output, segment: string, input: ContentRef): string {
    if o.kind == TARGET && |o.sourceSegments| != 0 && StandardSegment(segment)
      && segment !in o.sourceSegments then NOT_SELECTED
    else DropReason(if input.id in o.transformations then o.transformations[input.id] else [])
  }

  ghost function AnchorsOf(m: Manifest, o: Output, segment: string, input: ContentRef): iset<ContentRef> {
    iset a | IsAnchor(o.records, m.inherited, segment, input, a)
  }

  /** A recorded artifact decision, else the last removal downstream of an anchor, else the transformation chain. */
  ghost function ExclusionReason(m: Manifest, o: Output, segment: string, input: ContentRef): string {
    var removal := RemovalReason(o.records, AnchorsOf(m, o, segment, input), |o.records|);
    if RecordedFor(m, o, segment, input).Some? then RecordedFor(m, o, segment, input).value
    else if removal != "" then removal
    else ChainReason(o, segment, input)
  }

  method CoverageExclusionReason(m: Manifest, o: Output, segment: string, input: ContentRef) returns (reason: string)
    ensures reason == ExclusionReason(m, o, segment, input)
  {
    if segment == "artifacts" {
      var recorded := FindExclusion(if o.kind == TARGET then o.excludedArtifacts else m.excludedArtifacts, input);
      if recorded.Some? {
        return recorded.value;
      }
    }
    var anchors := CoverageAnchors(o.records, m.inherited, segment, input);
    assert Members(anchors) == AnchorsOf(m, o, segment, input);
    reason := CoverageRemovalReason(o.records, anchors);
    if reason != "" {
      return;
    }
    if o.kind == TARGET && |o.sourceSegments| != 0 && StandardSegment(segment) && segment !in o.sourceSegments {
      return NOT_SELECTED;
    }
    reason := LastDrop(if input.id in o.transformations then o.transformations[input.id] else []);
  }

  // ---------------------------------------------------------------- one row

  /** A derivation path joins the final output to an anchor of the input. */
  ghost predicate Covers(o: Output, inherited: seq<Name>, segment: string, input: ContentRef, final: ContentRef,
                         summarized: bool) {
    && final in FinalRefs(o)
    && exists a :: IsAnchor(o.records, inherited, segment, input, a) && Joins(o, inherited, final, a, summarized)
  }

  /** The row of an input outside the persistence-only segment says exactly which final outputs it reaches and how. */
  ghost predicate Explains(m: Manifest, o: Output, segment: string, input: ContentRef, row: Row) {
    && row.kind == o.kind && row.output == o.name && row.segment == segment && row.input == Some(input)
    && Distinct(row.outputs)
    && (forall f :: f in row.outputs <==>
          Covers(o, m.inherited, segment, input, f, false) || Covers(o, m.inherited, segment, input, f, true))
    && (row.status == Excluded <==> row.outputs == [])
    && (row.status == Summarized <==> exists f :: Covers(o, m.inherited, segment, input, f, true))
    && (row.status == Included <==>
          && (exists f :: f in row.outputs && f.Base() == input.Base())
          && !exists f :: Covers(o, m.inherited, segment, input, f, true))
    && row.reason == match row.status
                     case Included => "retained"
                     case Transformed => "transform"
                     case Summarized => SUMMARIZE
                     case Excluded => ExclusionReason(m, o, segment, input)
  }

  /** The entries found at the anchors so far. */
  ghost predicate Gathered(reach: Reaches, anchors: seq<ContentRef>, outputs: seq<ContentRef>, summarized: bool) {
    && (forall f :: f in outputs <==> exists a, s :: a in anchors && Reach(f, s) in At(reach, a))
    && (summarized <==> exists f, a :: a in anchors && Reach(f, true) in At(reach, a))
  }

  method GatherAt(entries: seq<Reach>) returns (outputs: seq<ContentRef>, summarized: bool)
    ensures forall f :: f in outputs <==> exists s :: Reach(f, s) in entries
    ensures summarized <==> exists f :: Reach(f, true) in entries
  {
    outputs, summarized := [], false;
    for k := 0 to |entries|
      invariant forall f :: f in outputs <==> exists s :: Reach(f, s) in entries[..k]
      invariant summarized <==> exists f :: Reach(f, true) in entries[..k]
    {
      assert entries[..k + 1] == entries[..k] + [entries[k]];
      assert entries[k] == Reach(entries[k].output, entries[k].summarized);
      outputs := outputs + [entries[k].output];
      summarized := summarized || entries[k].summarized;
    }
    assert entries[..|entries|] == entries;
  }

  method Gather(reach: Reaches, anchors: seq<ContentRef>) returns (outputs: seq<ContentRef>, summarized: bool)
    ensures Gathered(reach, anchors, outputs, summarized)
  {
    outputs, summarized := [], false;
    for k := 0 to |anchors|
      invariant Gathered(reach, anchors[..k], outputs, summarized)
    {
      assert anchors[..k + 1] == anchors[..k] + [anchors[k]];
      var more, crossed := GatherAt(At(reach, anchors[k]));
      outputs, summarized := outputs + more, summarized || crossed;
    }
    assert anchors[..|anchors|] == anchors;
  }

  lemma {:induction false} GatheredCovers(m: Manifest, o: Output, segment: string, input: ContentRef, reach: Reaches,
                                          anchors: seq<ContentRef>, outputs: seq<ContentRef>, summarized: bool)
    requires ReachOf(reach, o, m.inherited, FinalRefs(o)) && Gathered(reach, anchors, outputs, summarized)
    requires forall a :: a in anchors <==> IsAnchor(o.records, m.inherited, segment, input, a)
    ensures forall f :: f in outputs <==>
              Covers(o, m.inherited, segment, input, f, false) || Covers(o, m.inherited, segment, input, f, true)
    ensures summarized <==> exists f :: Covers(o, m.inherited, segment, input, f, true)
  {
    forall f, s
      ensures (exists a :: a in anchors && Reach(f, s) in At(reach, a)) <==>
                Covers(o, m.inherited, segment, input, f, s)
    {
      CoversAt(m, o, segment, input, reach, anchors, f, s);
    }
    assert forall f :: f in outputs <==> exists s :: Covers(o, m.inherited, segment, input, f, s);
  }

  lemma {:induction false} CoversAt(m: Manifest, o: Output, segment: string, input: ContentRef, reach: Reaches,
                                    anchors: seq<ContentRef>, f: ContentRef, s: bool)
    requires ReachOf(reach, o, m.inherited, FinalRefs(o))
    requires forall a :: a in anchors <==> IsAnchor(o.records, m.inherited, segment, input, a)
    ensures (exists a :: a in anchors && Reach(f, s) in At(reach, a)) <==> Covers(o, m.inherited, segment, input, f, s)
  {
    if a :| a in anchors && Reach(f, s) in At(reach, a) {
      assert IsAnchor(o.records, m.inherited, segment, input, a) && Joins(o, m.inherited, f, a, s);
    }
    if Covers(o, m.inherited, segment, input, f, s) {
      var a :| IsAnchor(o.records, m.inherited, segment, input, a) && Joins(o, m.inherited, f, a, s);
      assert a in anchors && Reach(f, s) in At(reach, a);
    }
  }

  method CoverageEntry(m: Manifest, o: Output, segment: string, input: ContentRef, reach: Reaches) returns (row: Row)
    requires ReachOf(reach, o, m.inherited, FinalRefs(o))
    ensures segment == "current/persistence" ==>
              row == Row(o.kind, o.name, segment, Some(input), Excluded, [], "persistence_only")
    ensures segment != "current/persistence" ==> Explains(m, o, segment, input, row)
  {
    if segment == "current/persistence" {
      return Row(o.kind, o.name, segment, Some(input), Excluded, [], "persistence_only");
    }
    var anchors := CoverageAnchors(o.records, m.inherited, segment, input);
    var found, summarized := Gather(reach, anchors);
    GatheredCovers(m, o, segment, input, reach, anchors, found, summarized);
    var outputs := UniqueContentRefs(found);
    if outputs == [] {
      NothingSummarized(m, o, segment, input, outputs);
      var reason := CoverageExclusionReason(m, o, segment, input);
      return Row(o.kind, o.name, segment, Some(input), Excluded, [], reason);
    }
    if summarized {
      return Row(o.kind, o.name, segment, Some(input), Summarized, outputs, SUMMARIZE);
    }
    var kept := false;
    for k := 0 to |outputs|
      invariant kept <==> exists j :: 0 <= j < k && outputs[j].Base() == input.Base()
    {
      if outputs[k].Base() == input.Base() {
        kept := true;
      }
    }
    assert outputs[0] in outputs;
    row := if kept then Row(o.kind, o.name, segment, Some(input), Included, outputs, "retained")
           else Row(o.kind, o.name, segment, Some(input), Transformed, outputs, "transform");
  }

  lemma NothingSummarized(m: Manifest, o: Output, segment: string, input: ContentRef,
                          outputs: seq<ContentRef>)
    requires outputs == []
    requires forall f :: f in outputs <==>
               Covers(o, m.inherited, segment, input, f, false) || Covers(o, m.inherited, segment, input, f, true)
    ensures !exists f :: Covers(o, m.inherited, segment, input, f, true)
  {
  }

  // ---------------------------------------------------------------- the ledger

  /** What a row answers: one input of one output, or an empty segment. */
  datatype Question = Question(output: Output, segment: string, input: Option<ContentRef>)

  function Asked(o: Output, s: Segment, n: nat): seq<Question>
    requires n <= |s.messages|
  {
    if n == 0 then [] else Asked(o, s, n - 1) + [Question(o, s.name, Some(s.messages[n - 1]))]
  }

  function SegmentQuestions(o: Output, s: Segment): seq<Question> {
    if |s.messages| == 0 then [Question(o, s.name, None)] else Asked(o, s, |s.messages|)
  }

  function OutputQuestions(o: Output, inputs: seq<Segment>, n: nat): seq<Question>
    requires n <= |inputs|
  {
    if n == 0 then [] else OutputQuestions(o, inputs, n - 1) + SegmentQuestions(o, inputs[n - 1])
  }

  function AllInputs(m: Manifest): seq<Segment> {
    m.inputs + [Segment("resolved", m.resolved)]
  }

  function Questions(m: Manifest, n: nat): seq<Question>
    requires n <= |m.outputs|
  {
    if n == 0 then [] else Questions(m, n - 1) + OutputQuestions(m.outputs[n - 1], AllInputs(m), |AllInputs(m)|)
  }

  ghost predicate AnsweredBy(m: Manifest, q: Question, row: Row) {
    if q.input.None? then row == Row(q.output.kind, q.output.name, q.segment, None, Excluded, [], "empty_segment")
    else if q.segment == "current/persistence" then
      row == Row(q.output.kind, q.output.name, q.segment, q.input, Excluded, [], "persistence_only")
    else Explains(m, q.output, q.segment, q.input.value, row)
  }

  ghost predicate AllAnswered(m: Manifest, questions: seq<Question>, rows: seq<Row>) {
    |rows| == |questions| && forall k :: 0 <= k < |rows| ==> AnsweredBy(m, questions[k], rows[k])
  }

  lemma {:induction false} AnsweredConcat(m: Manifest, p: seq<Question>, q: seq<Question>, a: seq<Row>, b: seq<Row>)
    requires AllAnswered(m, p, a) && AllAnswered(m, q, b)
    ensures AllAnswered(m, p + q, a + b)
  {
    var questions, rows := p + q, a + b;
    forall k | 0 <= k < |rows|
      ensures AnsweredBy(m, questions[k], rows[k])
    {
      if k < |a| {
        assert questions[k] == p[k] && rows[k] == a[k];
      } else {
        assert questions[k] == q[k - |p|] && rows[k] == b[k - |a|];
      }
    }
  }

  method SegmentRows(m: Manifest, o: Output, s: Segment, reach: Reaches) returns (rows: seq<Row>)
    requires ReachOf(reach, o, m.inherited, FinalRefs(o))
    ensures AllAnswered(m, SegmentQuestions(o, s), rows)
  {
    rows := [];
    if |s.messages| == 0 {
      return [Row(o.kind, o.name, s.name, None, Excluded, [], "empty_segment")];
    }
    for k := 0 to |s.messages|
      invariant AllAnswered(m, Asked(o, s, k), rows)
    {
      var row := CoverageEntry(m, o, s.name, s.messages[k], reach);
      AnsweredOne(m, o, s, k, row);
      AnsweredConcat(m, Asked(o, s, k), [Question(o, s.name, Some(s.messages[k]))], rows, [row]);
      rows := rows + [row];
    }
  }

  lemma AnsweredOne(m: Manifest, o: Output, s: Segment, k: nat, row: Row)
    requires k < |s.messages| && AnsweredBy(m, Question(o, s.name, Some(s.messages[k])), row)
    ensures AllAnswered(m, [Question(o, s.name, Some(s.messages[k]))], [row])
  {
  }

  method OutputRows(m: Manifest, o: Output) returns (rows: seq<Row>)
    ensures AllAnswered(m, OutputQuestions(o, AllInputs(m), |AllInputs(m)|), rows)
  {
    var inputs := AllInputs(m);
    var reach := CoverageAncestry(o, m.inherited);
    rows := [];
    for k := 0 to |inputs|
      invariant AllAnswered(m, OutputQuestions(o, inputs, k), rows)
    {
      var more := SegmentRows(m, o, inputs[k], reach);
      AnsweredConcat(m, OutputQuestions(o, inputs, k), SegmentQuestions(o, inputs[k]), rows, more);
      rows := rows + more;
    }
  }

  /** The ledger answers every question once, in order. */
  method ManifestCoverage(m: Manifest) returns (ledger: seq<Row>)
    ensures AllAnswered(m, Questions(m, |m.outputs|), ledger)
  {
    ledger := [];
    for k := 0 to |m.outputs|
      invariant AllAnswered(m, Questions(m, k), ledger)
    {
      var more := OutputRows(m, m.outputs[k]);
      AnsweredConcat(m, Questions(m, k), OutputQuestions(m.outputs[k], AllInputs(m), |AllInputs(m)|), ledger, more);
      ledger := ledger + more;
    }
  }

  // ---------------------------------------------------------------- exactly one row per input

  /** How many rows the first `n` segments take, for any output. */
  function RowsBefore(inputs: seq<Segment>, n: nat): nat
    requires n <= |inputs|
  {
    if n == 0 then 0
    else RowsBefore(inputs, n - 1) + if |inputs[n - 1].messages| == 0 then 1 else |inputs[n - 1].messages|
  }

  /** How many rows the first `n` outputs take. */
  function OutputsBefore(m: Manifest, n: nat): nat {
    if n == 0 then 0 else OutputsBefore(m, n - 1) + RowsBefore(AllInputs(m), |AllInputs(m)|)
  }

  /** The row of message `k` of segment `s` for output `i`. */
  function RowIndex(m: Manifest, i: nat, s: nat, k: nat): nat
    requires s < |AllInputs(m)|
  {
    OutputsBefore(m, i) + RowsBefore(AllInputs(m), s) + k
  }

  lemma {:induction false} OutputCount(o: Output, inputs: seq<Segment>, n: nat)
    requires n <= |inputs|
    ensures |OutputQuestions(o, inputs, n)| == RowsBefore(inputs, n)
  {
    if n > 0 {
      OutputCount(o, inputs, n - 1);
      AskedLength(o, inputs[n - 1], |inputs[n - 1].messages|);
    }
  }

  lemma {:induction false} ManifestCount(m: Manifest, n: nat)
    requires n <= |m.outputs|
    ensures |Questions(m, n)| == OutputsBefore(m, n)
  {
    if n > 0 {
      ManifestCount(m, n - 1);
      OutputCount(m.outputs[n - 1], AllInputs(m), |AllInputs(m)|);
    }
  }

  lemma {:induction false} AskedAt(o: Output, s: Segment, n: nat, k: nat)
    requires k < n <= |s.messages|
    ensures |Asked(o, s, n)| == n && Asked(o, s, n)[k] == Question(o, s.name, Some(s.messages[k]))
  {
    if k < n - 1 {
      AskedAt(o, s, n - 1, k);
    } else {
      AskedLength(o, s, n - 1);
    }
  }

  lemma {:induction false} AskedLength(o: Output, s: Segment, n: nat)
    requires n <= |s.messages|
    ensures |Asked(o, s, n)| == n
  {
    if n > 0 {
      AskedLength(o, s, n - 1);
    }
  }

  lemma {:induction false} OutputPrefix(o: Output, inputs: seq<Segment>, a: nat, b: nat)
    requires a <= b <= |inputs|
    ensures OutputQuestions(o, inputs, a) <= OutputQuestions(o, inputs, b)
  {
    if a < b {
      OutputPrefix(o, inputs, a, b - 1);
      PrefixGrows(OutputQuestions(o, inputs, a), OutputQuestions(o, inputs, b - 1), SegmentQuestions(o, inputs[b - 1]));
    }
  }

  lemma {:induction false} ManifestPrefix(m: Manifest, a: nat, b: nat)
    requires a <= b <= |m.outputs|
    ensures Questions(m, a) <= Questions(m, b)
  {
    if a < b {
      ManifestPrefix(m, a, b - 1);
      PrefixGrows(Questions(m, a), Questions(m, b - 1),
                  OutputQuestions(m.outputs[b - 1], AllInputs(m), |AllInputs(m)|));
    }
  }

  lemma PrefixGrows<T>(p: seq<T>, q: seq<T>, r: seq<T>)
    requires p <= q
    ensures p <= q + r
  {
  }

  lemma InPrefix<T>(p: seq<T>, q: seq<T>, i: nat)
    requires p <= q && i < |p|
    ensures i < |q| && q[i] == p[i]
  {
  }

  lemma {:induction false} SegmentQuestionAt(o: Output, inputs: seq<Segment>, s: nat, k: nat)
    requires s < |inputs| && k < |inputs[s].messages|
    ensures var at := |OutputQuestions(o, inputs, s)| + k;
            at < |OutputQuestions(o, inputs, s + 1)| &&
            OutputQuestions(o, inputs, s + 1)[at] == Question(o, inputs[s].name, Some(inputs[s].messages[k]))
  {
    AskedAt(o, inputs[s], |inputs[s].messages|, k);
  }

  lemma {:induction false} OutputQuestionAt(o: Output, inputs: seq<Segment>, s: nat, k: nat)
    requires s < |inputs| && k < |inputs[s].messages|
    ensures var at := |OutputQuestions(o, inputs, s)| + k;
            at < |OutputQuestions(o, inputs, |inputs|)| &&
            OutputQuestions(o, inputs, |inputs|)[at] == Question(o, inputs[s].name, Some(inputs[s].messages[k]))
  {
    SegmentQuestionAt(o, inputs, s, k);
    OutputPrefix(o, inputs, s + 1, |inputs|);
    InPrefix(OutputQuestions(o, inputs, s + 1), OutputQuestions(o, inputs, |inputs|),
             |OutputQuestions(o, inputs, s)| + k);
  }

  lemma {:induction false} ManifestQuestionAt(m: Manifest, i: nat, at: nat)
    requires i < |m.outputs| && at < |OutputQuestions(m.outputs[i], AllInputs(m), |AllInputs(m)|)|
    ensures var all := Questions(m, |m.outputs|);
            |Questions(m, i)| + at < |all| &&
            all[|Questions(m, i)| + at] == OutputQuestions(m.outputs[i], AllInputs(m), |AllInputs(m)|)[at]
  {
    ManifestPrefix(m, i + 1, |m.outputs|);
    InPrefix(Questions(m, i + 1), Questions(m, |m.outputs|), |Questions(m, i)| + at);
  }

  lemma {:induction false} RowOfQuestion(m: Manifest, i: nat, j: nat, q: Question, at: nat)
    requires i < |m.outputs| && j < |OutputQuestions(m.outputs[i], AllInputs(m), |AllInputs(m)|)|
    requires OutputQuestions(m.outputs[i], AllInputs(m), |AllInputs(m)|)[j] == q && at == |Questions(m, i)| + j
    ensures at < |Questions(m, |m.outputs|)| && Questions(m, |m.outputs|)[at] == q
  {
    ManifestQuestionAt(m, i, j);
  }

  /** Every input of every output has its row. */
  lemma {:induction false} RowForInput(m: Manifest, i: nat, s: nat, k: nat)
    requires i < |m.outputs| && s < |AllInputs(m)| && k < |AllInputs(m)[s].messages|
    ensures var at := RowIndex(m, i, s, k);
            at < |Questions(m, |m.outputs|)| &&
            Questions(m, |m.outputs|)[at] == Question(m.outputs[i], AllInputs(m)[s].name,
                                                      Some(AllInputs(m)[s].messages[k]))
  {
    var o, inputs := m.outputs[i], AllInputs(m);
    OutputCount(o, inputs, s);
    ManifestCount(m, i);
    OutputQuestionAt(o, inputs, s, k);
    RowOfQuestion(m, i, |OutputQuestions(o, inputs, s)| + k,
                  Question(o, inputs[s].name, Some(inputs[s].messages[k])), RowIndex(m, i, s, k));
  }

  lemma {:induction false} RowsGrow(inputs: seq<Segment>, a: nat, b: nat)
    requires a <= b <= |inputs|
    ensures RowsBefore(inputs, a) <= RowsBefore(inputs, b)
  {
    if a < b {
      RowsGrow(inputs, a, b - 1);
    }
  }

  lemma {:induction false} OutputsGrow(m: Manifest, a: nat, b: nat)
    requires a <= b
    ensures OutputsBefore(m, a) <= OutputsBefore(m, b)
  {
    if a < b {
      OutputsGrow(m, a, b - 1);
    }
  }

  /** Rows of different inputs are different rows: the index grows with output, segment and message. */
  lemma {:induction false} RowsAreOrdered(m: Manifest, i: nat, s: nat, k: nat, i': nat, s': nat, k': nat)
    requires s < |AllInputs(m)| && k < |AllInputs(m)[s].messages| && s' < |AllInputs(m)|
             && k' < |AllInputs(m)[s'].messages|
    requires i < i' || (i == i' && s < s') || (i == i' && s == s' && k < k')
    ensures RowIndex(m, i, s, k) < RowIndex(m, i', s', k')
  {
    RowsGrow(AllInputs(m), s + 1, |AllInputs(m)|);
    if i < i' {
      OutputsGrow(m, i + 1, i');
    } else if s < s' {
      RowsGrow(AllInputs(m), s + 1, s');
    }
  }

  /** The ledger has no other rows. */
  lemma {:induction false} LedgerLength(m: Manifest)
    ensures |Questions(m, |m.outputs|)| == |m.outputs| * RowsBefore(AllInputs(m), |AllInputs(m)|)
  {
    ManifestCount(m, |m.outputs|);
    OutputsTimes(m, |m.outputs|);
  }

  lemma {:induction false} OutputsTimes(m: Manifest, n: nat)
    ensures OutputsBefore(m, n) == n * RowsBefore(AllInputs(m), |AllInputs(m)|)
  {
    if n > 0 {
      OutputsTimes(m, n - 1);
      var width := RowsBefore(AllInputs(m), |AllInputs(m)|);
      assert n * width == (n - 1) * width + width;
    }
  }
}
