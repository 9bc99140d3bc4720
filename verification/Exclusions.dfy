/** Why an input is missing from an output: the removal its content ran into (manifest_coverage.go). */
module Exclusions {
  import opened Results
  import opened Sequences
  import opened Messages
  import opened Lineage

  const NOT_SELECTED := "not_selected"
  const REPLACED_BY_FORMATTER := "replaced_by_formatter"
  const REPLACED_BY_HOOK := "replaced_by_hook"

  // ---------------------------------------------------------------- content flows forward

  predicate Carries(r: Record, a: ContentRef, b: ContentRef) {
    a in r.inputs && b in r.outputs
  }

  predicate Moves(records: seq<Record>, a: ContentRef, b: ContentRef) {
    exists k :: 0 <= k < |records| && Carries(records[k], a, b)
  }

  /** A chain of derivations, walked forwards. */
  datatype Course = Source(ref: ContentRef) | Onto(before: Course, ref: ContentRef)

  predicate Flow(records: seq<Record>, c: Course) {
    c.Onto? ==> Flow(records, c.before) && Moves(records, c.before.ref, c.ref)
  }

  function Origin(c: Course): ContentRef {
    if c.Source? then c.ref else Origin(c.before)
  }

  /** A chain of records leads from one of `sources` to `ref`. */
  ghost predicate FlowsTo(records: seq<Record>, sources: iset<ContentRef>, ref: ContentRef) {
    exists c :: Flow(records, c) && Origin(c) in sources && c.ref == ref
  }

  ghost function Members(refs: seq<ContentRef>): iset<ContentRef> {
    iset ref | ref in refs
  }

  lemma {:induction false} SourceFlows(records: seq<Record>, sources: iset<ContentRef>, ref: ContentRef)
    requires ref in sources
    ensures FlowsTo(records, sources, ref)
  {
    assert Flow(records, Source(ref));
  }

  lemma {:induction false} FlowGrows(records: seq<Record>, sources: iset<ContentRef>, k: nat, a: ContentRef,
                                     b: ContentRef)
    requires k < |records| && FlowsTo(records, sources, a) && Carries(records[k], a, b)
    ensures FlowsTo(records, sources, b)
  {
    var c :| Flow(records, c) && Origin(c) in sources && c.ref == a;
    assert Moves(records, a, b);
    assert Flow(records, Onto(c, b)) && Origin(Onto(c, b)) in sources;
  }

  /** Nothing flows out of `reached`. */
  ghost predicate Settled(records: seq<Record>, reached: set<ContentRef>, n: nat)
    requires n <= |records|
  {
    forall k, a, b :: 0 <= k < n && a in reached && Carries(records[k], a, b) ==> b in reached
  }

  lemma {:induction false} FlowStays(records: seq<Record>, sources: iset<ContentRef>, reached: set<ContentRef>,
                                     c: Course)
    requires Settled(records, reached, |records|) && forall a :: a in sources ==> a in reached
    requires Flow(records, c) && Origin(c) in sources
    ensures c.ref in reached
    decreases c
  {
    if c.Onto? {
      FlowStays(records, sources, reached, c.before);
      var k :| 0 <= k < |records| && Carries(records[k], c.before.ref, c.ref);
    }
  }

  // ---------------------------------------------------------------- the fixpoint

  predicate Touches(r: Record, reached: set<ContentRef>) {
    exists i :: 0 <= i < |r.inputs| && r.inputs[i] in reached
  }

  ghost function Mentioned(records: seq<Record>, anchors: seq<ContentRef>): set<ContentRef> {
    (set a | a in anchors) + set k, i | 0 <= k < |records| && 0 <= i < |records[k].outputs| :: records[k].outputs[i]
  }

  /** What one pass keeps: everything reached flows from an anchor. */
  ghost predicate Spreading(records: seq<Record>, anchors: seq<ContentRef>, sources: iset<ContentRef>,
                            reached: set<ContentRef>) {
    && (forall a :: a in anchors ==> a in reached) && reached <= Mentioned(records, anchors)
    && (forall a :: a in reached ==> FlowsTo(records, sources, a))
  }

  method SpreadOne(records: seq<Record>, k: nat, anchors: seq<ContentRef>, before: set<ContentRef>,
                   ghost sources: iset<ContentRef>)
    returns (reached: set<ContentRef>)
    requires k < |records| && Spreading(records, anchors, sources, before) && Touches(records[k], before)
    ensures Spreading(records, anchors, sources, reached) && before <= reached
    ensures forall b :: b in records[k].outputs ==> b in reached
  {
    reached := before;
    ghost var from :| from in records[k].inputs && from in before;
    for i := 0 to |records[k].outputs|
      invariant Spreading(records, anchors, sources, reached) && before <= reached
      invariant forall j :: 0 <= j < i ==> records[k].outputs[j] in reached
    {
      FlowGrows(records, sources, k, from, records[k].outputs[i]);
      reached := reached + {records[k].outputs[i]};
    }
  }

  /** One pass over the records: unchanged only if nothing flows out. */
  method SpreadPass(records: seq<Record>, anchors: seq<ContentRef>, before: set<ContentRef>,
                    ghost sources: iset<ContentRef>)
    returns (reached: set<ContentRef>)
    requires Spreading(records, anchors, sources, before)
    ensures Spreading(records, anchors, sources, reached) && before <= reached
    ensures reached == before ==> Settled(records, reached, |records|)
  {
    reached := before;
    for k := 0 to |records|
      invariant Spreading(records, anchors, sources, reached) && before <= reached
      invariant reached == before ==> Settled(records, before, k)
    {
      if Touches(records[k], reached) {
        reached := SpreadOne(records, k, anchors, reached, sources);
      }
    }
  }

  method Spread(records: seq<Record>, anchors: seq<ContentRef>) returns (reached: set<ContentRef>)
    ensures forall ref :: ref in reached <==> FlowsTo(records, Members(anchors), ref)
  {
    ghost var sources := Members(anchors);
    reached := set a | a in anchors;
    var changed := true;
    SpreadStarts(records, anchors, sources, reached);
    while changed
      invariant Spreading(records, anchors, sources, reached)
      invariant !changed ==> Settled(records, reached, |records|)
      decreases |Mentioned(records, anchors) - reached|, changed
    {
      var more := SpreadPass(records, anchors, reached, sources);
      changed := more != reached;
      if changed {
        SpreadShrinks(records, anchors, sources, reached, more);
      }
      reached := more;
    }
    SpreadEnds(records, anchors, sources, reached);
  }

  lemma {:induction false} SpreadStarts(records: seq<Record>, anchors: seq<ContentRef>, sources: iset<ContentRef>,
                                        reached: set<ContentRef>)
    requires sources == Members(anchors) && reached == set a | a in anchors
    ensures Spreading(records, anchors, sources, reached)
  {
    forall a | a in reached
      ensures FlowsTo(records, sources, a)
    {
      SourceFlows(records, sources, a);
    }
  }

  lemma {:induction false} SpreadEnds(records: seq<Record>, anchors: seq<ContentRef>, sources: iset<ContentRef>,
                                      reached: set<ContentRef>)
    requires sources == Members(anchors) && Spreading(records, anchors, sources, reached)
    requires Settled(records, reached, |records|)
    ensures forall ref :: ref in reached <==> FlowsTo(records, sources, ref)
  {
    forall ref | FlowsTo(records, sources, ref)
      ensures ref in reached
    {
      var c :| Flow(records, c) && Origin(c) in sources && c.ref == ref;
      FlowStays(records, sources, reached, c);
    }
  }

  lemma {:induction false} SpreadShrinks(records: seq<Record>, anchors: seq<ContentRef>, sources: iset<ContentRef>,
                                         less: set<ContentRef>, more: set<ContentRef>)
    requires Spreading(records, anchors, sources, more) && less <= more && more != less
    ensures |Mentioned(records, anchors) - more| < |Mentioned(records, anchors) - less|
  {
    Shrinks(Mentioned(records, anchors), less, more);
  }

  lemma {:induction false} Shrinks(all: set<ContentRef>, less: set<ContentRef>, more: set<ContentRef>)
    requires less <= more && more != less && more <= all
    ensures |all - more| < |all - less|
  {
    var extra :| extra in more && extra !in less;
    assert all - more <= (all - less) - {extra};
    SubsetSize(all - more, (all - less) - {extra});
  }

  // ---------------------------------------------------------------- the last removal

  function StageReason(stage: string): string {
    match stage
    case "budget" => "token_budget_exceeded"
    case "hook" => REPLACED_BY_HOOK
    case "format" => REPLACED_BY_FORMATTER
    case "merge" => "merge"
    case "project" => NOT_SELECTED
    case _ => stage
  }

  /** The record takes reached content and puts nothing out. */
  ghost predicate Removes(records: seq<Record>, sources: iset<ContentRef>, k: nat)
    requires k < |records|
  {
    |records[k].outputs| == 0 && exists i :: 0 <= i < |records[k].inputs|
                                             && FlowsTo(records, sources, records[k].inputs[i])
  }

  ghost function RemovalReason(records: seq<Record>, sources: iset<ContentRef>, n: nat): string
    requires n <= |records|
  {
    if n == 0 then ""
    else if Removes(records, sources, n - 1) then StageReason(records[n - 1].stage)
    else RemovalReason(records, sources, n - 1)
  }

  method CoverageRemovalReason(records: seq<Record>, anchors: seq<ContentRef>) returns (reason: string)
    ensures reason == RemovalReason(records, Members(anchors), |records|)
  {
    ghost var sources := Members(anchors);
    var reached := Spread(records, anchors);
    for k := |records| downto 0
      invariant RemovalReason(records, sources, |records|) == RemovalReason(records, sources, k)
    {
      if |records[k].outputs| == 0 && Touches(records[k], reached) {
        return StageReason(records[k].stage);
      }
    }
    reason := "";
  }

  /** The reason names the last record that removes content derived from an anchor. */
  lemma {:induction false} RemovalIsLast(records: seq<Record>, sources: iset<ContentRef>, n: nat, k: nat)
    requires k < n <= |records| && Removes(records, sources, k)
    requires forall j :: k < j < n ==> !Removes(records, sources, j)
    ensures RemovalReason(records, sources, n) == StageReason(records[k].stage)
  {
    if k < n - 1 {
      RemovalIsLast(records, sources, n - 1, k);
    }
  }

  lemma {:induction false} NothingRemoved(records: seq<Record>, sources: iset<ContentRef>, n: nat)
    requires n <= |records| && forall j :: 0 <= j < n ==> !Removes(records, sources, j)
    ensures RemovalReason(records, sources, n) == ""
  {
    if n > 0 {
      NothingRemoved(records, sources, n - 1);
    }
  }

  // ---------------------------------------------------------------- recorded decisions

  datatype Exclusion = Exclusion(input: ContentRef, reason: string)

  /** The first recorded reason for that input. */
  function RecordedReason(exclusions: seq<Exclusion>, input: ContentRef): (reason: Option<string>)
    ensures reason.None? <==> forall k :: 0 <= k < |exclusions| ==> exclusions[k].input != input
  {
    if |exclusions| == 0 then None
    else if exclusions[0].input == input then Some(exclusions[0].reason)
    else RecordedReason(exclusions[1..], input)
  }

  method FindExclusion(exclusions: seq<Exclusion>, input: ContentRef) returns (reason: Option<string>)
    ensures reason == RecordedReason(exclusions, input)
  {
    assert exclusions[0..] == exclusions;
    for k := 0 to |exclusions|
      invariant RecordedReason(exclusions, input) == RecordedReason(exclusions[k..], input)
    {
      if exclusions[k].input == input {
        return Some(exclusions[k].reason);
      }
    }
    reason := None;
  }

  datatype TransformStep = TransformStep(action: string, reason: string)

  predicate Drops(step: TransformStep) {
    step.action == "evicted" || step.action == "truncated" || step.reason == REPLACED_BY_FORMATTER
      || step.reason == REPLACED_BY_HOOK
  }

  /** The reason of the last step that dropped the message. */
  function DropReason(chain: seq<TransformStep>): string {
    if |chain| == 0 then NOT_SELECTED
    else if Drops(chain[|chain| - 1]) then chain[|chain| - 1].reason
    else DropReason(chain[..|chain| - 1])
  }

  method LastDrop(chain: seq<TransformStep>) returns (reason: string)
    ensures reason == DropReason(chain)
  {
    assert chain[..|chain|] == chain;
    for k := |chain| downto 0
      invariant DropReason(chain) == DropReason(chain[..k])
    {
      assert chain[..k + 1][..k] == chain[..k];
      if Drops(chain[k]) {
        return chain[k].reason;
      }
    }
    reason := NOT_SELECTED;
  }
}
