/** The selected output and the record of the selection (selection.go). */
module SelectionOutput {
  import opened Results
  import opened Sequences
  import opened Messages
  import opened Layouts
  import opened Selection

  const SELECTED := "selected"
  const NOT_SELECTED := "not_selected"
  const OVER_BUDGET := "token_budget_exceeded"

  datatype CandidateDecision = CandidateDecision(
    roundMembers: seq<ContentRef>, members: seq<ContentRef>, ref: ContentRef, segment: SegmentName, ordinal: int,
    required: bool, selected: bool, reason: string)

  datatype SelectionDecision = SelectionDecision(
    policy: Option<Descriptor>, plan: seq<Choice>, candidates: seq<CandidateDecision>)

  // ---------------------------------------------------------------- required units

  /** `b` is `a` up to required marks and ordinals. */
  predicate SameUnits(a: seq<Candidate>, b: seq<Candidate>) {
    |a| == |b| && forall k :: 0 <= k < |a| ==> b[k] == a[k].(required := b[k].required, ordinal := b[k].ordinal)
  }

  /** The same units, and what was required still is. */
  predicate StillRequired(a: seq<Candidate>, b: seq<Candidate>) {
    SameUnits(a, b) && forall k :: 0 <= k < |a| && a[k].required ==> b[k].required
  }

  function Numbered(candidates: seq<Candidate>): (out: seq<Candidate>)
    ensures |out| == |candidates| && forall k :: 0 <= k < |out| ==> out[k] == candidates[k].(ordinal := k)
    ensures StillRequired(candidates, out)
  {
    seq(|candidates|, k requires 0 <= k < |candidates| => candidates[k].(ordinal := k))
  }

  method Number(candidates: seq<Candidate>) returns (out: seq<Candidate>)
    ensures out == Numbered(candidates)
  {
    out := [];
    for k := 0 to |candidates|
      invariant |out| == k
      invariant forall j :: 0 <= j < k ==> out[j] == candidates[j].(ordinal := j)
    {
      out := out + [candidates[k].(ordinal := k)];
    }
  }

  /** `out` is `candidates` with more units required. */
  predicate OnlyMoreRequired(candidates: seq<Candidate>, out: seq<Candidate>) {
    && |out| == |candidates|
    && forall k :: 0 <= k < |out| ==>
         out[k] == candidates[k].(required := out[k].required) && (candidates[k].required ==> out[k].required)
  }

  predicate IsRequired(candidates: seq<Candidate>, ref: ContentRef) {
    exists k :: 0 <= k < |candidates| && candidates[k].ref == ref && candidates[k].required
  }

  lemma {:induction false} RequireOne(candidates: seq<Candidate>, out: seq<Candidate>, k: nat)
    requires OnlyMoreRequired(candidates, out) && k < |out|
    ensures var more := out[k := out[k].(required := true)];
            && OnlyMoreRequired(candidates, more) && IsRequired(more, candidates[k].ref)
            && forall ref :: IsRequired(out, ref) ==> IsRequired(more, ref)
  {
    var more := out[k := out[k].(required := true)];
    assert more[k].ref == candidates[k].ref && more[k].required;
    forall ref | IsRequired(out, ref)
      ensures IsRequired(more, ref)
    {
      var j :| 0 <= j < |out| && out[j].ref == ref && out[j].required;
      assert more[j].ref == ref && more[j].required;
    }
  }

  lemma {:induction false} SameCandidates(candidates: seq<Candidate>, out: seq<Candidate>, ref: ContentRef)
    requires OnlyMoreRequired(candidates, out)
    ensures IsCandidate(out, ref) <==> IsCandidate(candidates, ref)
  {
    if k :| 0 <= k < |out| && out[k].ref == ref {
      assert candidates[k].ref == ref;
    }
    if k :| 0 <= k < |candidates| && candidates[k].ref == ref {
      assert out[k].ref == ref;
    }
  }

  predicate Requirable(candidates: seq<Candidate>, required: seq<ContentRef>) {
    Distinct(required) && forall j :: 0 <= j < |required| ==> IsCandidate(candidates, required[j])
  }

  /** Only units named among the first `n` references became required. */
  predicate OnlyNamed(candidates: seq<Candidate>, out: seq<Candidate>, required: seq<ContentRef>, n: nat)
    requires n <= |required|
  {
    && |out| == |candidates|
    && forall k :: 0 <= k < |out| && out[k].required && !candidates[k].required ==> candidates[k].ref in required[..n]
  }

  lemma {:induction false} NamedOne(candidates: seq<Candidate>, out: seq<Candidate>, required: seq<ContentRef>, j: nat,
                                    k: nat)
    requires j < |required| && OnlyNamed(candidates, out, required, j) && k < |out| && candidates[k].ref == required[j]
    ensures OnlyNamed(candidates, out[k := out[k].(required := true)], required, j + 1)
  {
    assert required[..j + 1] == required[..j] + [required[j]];
  }

  /** The first `n` named units are required, and nothing else became so. */
  ghost predicate MarkedUpTo(candidates: seq<Candidate>, out: seq<Candidate>, required: seq<ContentRef>, n: nat)
    requires n <= |required|
  {
    && OnlyMoreRequired(candidates, out) && OnlyNamed(candidates, out, required, n)
    && forall i :: 0 <= i < n ==> IsRequired(out, required[i])
  }

  lemma {:induction false} MarkNext(candidates: seq<Candidate>, out: seq<Candidate>, required: seq<ContentRef>, j: nat,
                                    k: nat)
    requires j < |required| && MarkedUpTo(candidates, out, required, j) && k < |out| && out[k].ref == required[j]
    ensures MarkedUpTo(candidates, out[k := out[k].(required := true)], required, j + 1)
  {
    RequireOne(candidates, out, k);
    NamedOne(candidates, out, required, j, k);
  }

  /** The units a policy names are required too; an unknown or repeated name is refused. */
  method MarkSelectionRequired(candidates: seq<Candidate>, required: seq<ContentRef>)
    returns (r: Option<seq<Candidate>>)
    ensures r.Some? ==> MarkedUpTo(candidates, r.value, required, |required|)
    ensures r.Some? <==> Requirable(candidates, required)
  {
    var out := candidates;
    var seen: set<ContentRef> := {};
    for j := 0 to |required|
      invariant MarkedUpTo(candidates, out, required, j)
      invariant Requirable(candidates, required[..j]) && forall ref :: ref in seen <==> ref in required[..j]
    {
      RequirableNext(candidates, required, j);
      if required[j] in seen {
        return None;
      }
      seen := seen + {required[j]};
      SameCandidates(candidates, out, required[j]);
      var k := FindUnit(out, required[j]);
      if k.None? {
        return None;
      }
      MarkNext(candidates, out, required, j, k.value);
      out := out[k.value := out[k.value].(required := true)];
    }
    assert required[..|required|] == required;
    r := Some(out);
  }

  lemma {:induction false} RequirableNext(candidates: seq<Candidate>, required: seq<ContentRef>, j: nat)
    requires j < |required|
    ensures Requirable(candidates, required[..j + 1]) <==>
            Requirable(candidates, required[..j]) && required[j] !in required[..j]
              && IsCandidate(candidates, required[j])
    ensures Requirable(candidates, required) ==> Requirable(candidates, required[..j + 1])
    ensures forall ref :: ref in required[..j + 1] <==> ref in required[..j] || ref == required[j]
  {
    var now, next := required[..j], required[..j + 1];
    assert next == now + [required[j]];
    if Requirable(candidates, next) {
      assert next[j] == required[j] && forall i :: 0 <= i < j ==> next[i] == now[i];
    }
  }

  method FindUnit(candidates: seq<Candidate>, ref: ContentRef) returns (k: Option<nat>)
    ensures k.Some? ==> k.value < |candidates| && candidates[k.value].ref == ref
    ensures k.Some? <==> IsCandidate(candidates, ref)
  {
    for i := 0 to |candidates|
      invariant forall j :: 0 <= j < i ==> candidates[j].ref != ref
    {
      if candidates[i].ref == ref {
        return Some(i);
      }
    }
    k := None;
  }

  // ---------------------------------------------------------------- the output

  /** A unit's messages without those of the turn in progress, which are added elsewhere. */
  function Settled(messages: seq<Message>, pending: set<Name>): seq<Message> {
    if |messages| == 0 then []
    else
      var last := |messages| - 1;
      Settled(messages[..last], pending) + if messages[last].id in pending then [] else [messages[last]]
  }

  /** What a segment holds after selection: the admitted units of the segment, whole and in candidate order. */
  function SegmentOutput(candidates: seq<Candidate>, refs: set<ContentRef>, segment: SegmentName,
                         pending: set<Name>): seq<Message> {
    if |candidates| == 0 then []
    else
      var last := candidates[|candidates| - 1];
      SegmentOutput(candidates[..|candidates| - 1], refs, segment, pending) + Contribution(last, refs, segment, pending)
  }

  function Contribution(c: Candidate, refs: set<ContentRef>, segment: SegmentName, pending: set<Name>): seq<Message> {
    if c.segment == segment && c.ref in refs then Settled(c.messages, pending) else []
  }

  function DecisionFor(c: Candidate, refs: set<ContentRef>, priorities: Priorities): CandidateDecision {
    CandidateDecision(c.roundMembers, c.members, c.ref, c.segment, c.ordinal, c.required, c.ref in refs,
                      if c.ref in refs then SELECTED else if c.ref in priorities then OVER_BUDGET else NOT_SELECTED)
  }

  function DecisionsFor(candidates: seq<Candidate>, refs: set<ContentRef>,
                        priorities: Priorities): (d: seq<CandidateDecision>)
    ensures |d| == |candidates|
  {
    seq(|candidates|, k requires 0 <= k < |candidates| => DecisionFor(candidates[k], refs, priorities))
  }

  method SettleMessages(messages: seq<Message>, pending: set<Name>) returns (out: seq<Message>)
    ensures out == Settled(messages, pending)
  {
    out := [];
    for k := 0 to |messages|
      invariant out == Settled(messages[..k], pending)
    {
      assert messages[..k + 1][..k] == messages[..k];
      if messages[k].id !in pending {
        out := out + [messages[k]];
      } else {
        assert out + [] == out;
      }
    }
    assert messages[..|messages|] == messages;
  }

  function Held(outputs: map<SegmentName, seq<Message>>, s: SegmentName): seq<Message> {
    if s in outputs then outputs[s] else []
  }

  function Added(outputs: map<SegmentName, seq<Message>>, s: SegmentName,
                 messages: seq<Message>): (more: map<SegmentName, seq<Message>>)
    ensures forall t :: Held(more, t) == if t == s then Held(outputs, s) + messages else Held(outputs, t)
  {
    outputs[s := Held(outputs, s) + messages]
  }

  /** The segments that got something hold exactly their output. */
  ghost predicate OutputsAre(outputs: map<SegmentName, seq<Message>>, candidates: seq<Candidate>, refs: set<ContentRef>,
                             pending: set<Name>) {
    forall s :: Same(Held(outputs, s), SegmentOutput(candidates, refs, s, pending))
  }

  lemma {:induction false} SegmentSnoc(candidates: seq<Candidate>, k: nat, refs: set<ContentRef>, s: SegmentName,
                                       pending: set<Name>)
    requires k < |candidates|
    ensures var c := candidates[k];
            Same(SegmentOutput(candidates[..k + 1], refs, s, pending),
                 if c.segment == s && c.ref in refs then
                   SegmentOutput(candidates[..k], refs, s, pending) + Settled(c.messages, pending)
                 else SegmentOutput(candidates[..k], refs, s, pending))
  {
    assert candidates[..k + 1][..k] == candidates[..k] && candidates[..k + 1][k] == candidates[k];
    assert SegmentOutput(candidates[..k], refs, s, pending) + [] == SegmentOutput(candidates[..k], refs, s, pending);
  }

  lemma {:induction false} OutputSnoc(outputs: map<SegmentName, seq<Message>>, more: map<SegmentName, seq<Message>>,
                                      candidates: seq<Candidate>, k: nat, refs: set<ContentRef>, pending: set<Name>)
    requires k < |candidates| && OutputsAre(outputs, candidates[..k], refs, pending)
    requires var c := candidates[k];
             Same(more, if c.ref in refs then Added(outputs, c.segment, Settled(c.messages, pending)) else outputs)
    ensures OutputsAre(more, candidates[..k + 1], refs, pending)
  {
    forall s
      ensures Same(Held(more, s), SegmentOutput(candidates[..k + 1], refs, s, pending))
    {
      SegmentSnoc(candidates, k, refs, s, pending);
      assert Same(Held(outputs, s), SegmentOutput(candidates[..k], refs, s, pending));
    }
  }

  method WriteOutput(candidates: seq<Candidate>, refs: set<ContentRef>, pending: set<Name>)
    returns (outputs: map<SegmentName, seq<Message>>)
    ensures OutputsAre(outputs, candidates, refs, pending)
  {
    outputs := map[];
    for k := 0 to |candidates|
      invariant OutputsAre(outputs, candidates[..k], refs, pending)
    {
      var c := candidates[k];
      var more := outputs;
      if c.ref in refs {
        var settled := SettleMessages(c.messages, pending);
        more := Added(outputs, c.segment, settled);
      }
      OutputSnoc(outputs, more, candidates, k, refs, pending);
      outputs := more;
    }
    assert candidates[..|candidates|] == candidates;
  }

  method RecordDecisions(candidates: seq<Candidate>, refs: set<ContentRef>, priorities: Priorities)
    returns (decisions: seq<CandidateDecision>)
    ensures decisions == DecisionsFor(candidates, refs, priorities)
  {
    decisions := [];
    for k := 0 to |candidates|
      invariant |decisions| == k && forall j :: 0 <= j < k ==>
                  decisions[j] == DecisionFor(candidates[j], refs, priorities)
    {
      decisions := decisions + [DecisionFor(candidates[k], refs, priorities)];
    }
  }

  // ---------------------------------------------------------------- the validator

  predicate KnownSegment(s: SegmentName) {
    !s.OtherSegment?
  }

  predicate RefsValid(refs: seq<ContentRef>) {
    forall k :: 0 <= k < |refs| ==> refs[k].Valid()
  }

  predicate MembersValid(members: seq<ContentRef>, roundMembers: seq<ContentRef>) {
    && |members| > 0 && RefsValid(members)
    && (|roundMembers| > 0 ==>
          && |roundMembers| == |members| && RefsValid(roundMembers)
          && forall k :: 0 <= k < |members| ==> roundMembers[k].id == members[k].id)
  }

  predicate ValidCandidateDecision(c: CandidateDecision, ordinal: int) {
    && c.ordinal == ordinal && KnownSegment(c.segment) && c.ref.Valid() && MembersValid(c.members, c.roundMembers)
    && (c.required ==> c.selected)
    && (if c.selected then c.reason == SELECTED else c.reason == NOT_SELECTED || c.reason == OVER_BUDGET)
  }

  predicate ValidCandidates(candidates: seq<CandidateDecision>) {
    && (forall k :: 0 <= k < |candidates| ==> ValidCandidateDecision(candidates[k], k))
    && (forall j, k :: 0 <= j < k < |candidates| ==> candidates[j].ref != candidates[k].ref)
  }

  predicate Recorded(candidates: seq<CandidateDecision>, ref: ContentRef) {
    exists j :: 0 <= j < |candidates| && candidates[j].ref == ref
  }

  ghost predicate ValidPlan(plan: seq<Choice>, candidates: seq<CandidateDecision>) {
    && (forall k :: 0 <= k < |plan| ==> Recorded(candidates, plan[k].ref))
    && (forall j, k :: 0 <= j < k < |plan| ==> plan[j].ref != plan[k].ref)
  }

  ghost predicate ValidDecision(d: SelectionDecision) {
    && (d.policy.Some? ==> d.policy.value.Valid())
    && ValidCandidates(d.candidates)
    && ValidPlan(d.plan, d.candidates)
    && (forall k :: 0 <= k < |d.candidates| && d.candidates[k].selected ==> Chosen(d.plan, d.candidates[k].ref))
  }

  method ValidateMemberRefs(refs: seq<ContentRef>) returns (ok: bool)
    ensures ok <==> RefsValid(refs)
  {
    for k := 0 to |refs|
      invariant forall j :: 0 <= j < k ==> refs[j].Valid()
    {
      if !refs[k].Valid() {
        return false;
      }
    }
    ok := true;
  }

  method ValidateMembers(members: seq<ContentRef>, roundMembers: seq<ContentRef>) returns (ok: bool)
    ensures ok <==> MembersValid(members, roundMembers)
  {
    if |members| == 0 {
      return false;
    }
    var valid := ValidateMemberRefs(members);
    if !valid {
      return false;
    }
    if |roundMembers| > 0 {
      if |roundMembers| != |members| {
        return false;
      }
      valid := ValidateMemberRefs(roundMembers);
      if !valid {
        return false;
      }
      for k := 0 to |roundMembers|
        invariant forall j :: 0 <= j < k ==> roundMembers[j].id == members[j].id
      {
        if roundMembers[k].id != members[k].id {
          return false;
        }
      }
    }
    ok := true;
  }

  method ValidateCandidateDecision(c: CandidateDecision, ordinal: int) returns (ok: bool)
    ensures ok <==> ValidCandidateDecision(c, ordinal)
  {
    if c.ordinal != ordinal || !KnownSegment(c.segment) || !c.ref.Valid() {
      return false;
    }
    var members := ValidateMembers(c.members, c.roundMembers);
    if !members || (c.required && !c.selected) {
      return false;
    }
    ok := if c.selected then c.reason == SELECTED else c.reason == NOT_SELECTED || c.reason == OVER_BUDGET;
  }

  method ValidateSelectionDecision(d: SelectionDecision) returns (ok: bool)
    ensures ok <==> ValidDecision(d)
  {
    if d.policy.Some? && !d.policy.value.Valid() {
      return false;
    }
    var known := ValidateCandidates(d.candidates);
    if known.None? {
      return false;
    }
    var planned := ValidatePlan(d.plan, known.value, d.candidates);
    if planned.None? {
      return false;
    }
    for k := 0 to |d.candidates|
      invariant forall j :: 0 <= j < k && d.candidates[j].selected ==> Chosen(d.plan, d.candidates[j].ref)
    {
      if d.candidates[k].selected && d.candidates[k].ref !in planned.value {
        return false;
      }
    }
    ok := true;
  }

  method ValidatePlan(plan: seq<Choice>, known: set<ContentRef>, ghost candidates: seq<CandidateDecision>)
    returns (planned: Option<set<ContentRef>>)
    requires forall ref :: ref in known <==> Recorded(candidates, ref)
    ensures planned.Some? <==> ValidPlan(plan, candidates)
    ensures planned.Some? ==> forall ref :: ref in planned.value <==> Chosen(plan, ref)
  {
    var found: set<ContentRef> := {};
    for k := 0 to |plan|
      invariant forall j :: 0 <= j < k ==> Recorded(candidates, plan[j].ref)
      invariant forall i, j :: 0 <= i < j < k ==> plan[i].ref != plan[j].ref
      invariant forall ref :: ref in found <==> exists j :: 0 <= j < k && plan[j].ref == ref
    {
      if plan[k].ref !in known || plan[k].ref in found {
        return None;
      }
      found := found + {plan[k].ref};
    }
    planned := Some(found);
  }

  method ValidateCandidates(candidates: seq<CandidateDecision>) returns (known: Option<set<ContentRef>>)
    ensures known.Some? <==> ValidCandidates(candidates)
    ensures known.Some? ==> forall ref :: ref in known.value <==> Recorded(candidates, ref)
  {
    var found: set<ContentRef> := {};
    for k := 0 to |candidates|
      invariant forall j :: 0 <= j < k ==> ValidCandidateDecision(candidates[j], j)
      invariant forall i, j :: 0 <= i < j < k ==> candidates[i].ref != candidates[j].ref
      invariant forall ref :: ref in found <==> exists j :: 0 <= j < k && candidates[j].ref == ref
    {
      var valid := ValidateCandidateDecision(candidates[k], k);
      if !valid || candidates[k].ref in found {
        return None;
      }
      found := found + {candidates[k].ref};
    }
    known := Some(found);
  }
}
