/** One whole selection (selection.go). */
module SelectionRuns {
  import opened Results
  import opened Messages
  import opened Layouts
  import opened Selection
  import opened SelectionUnits
  import opened SelectionInputs
  import opened SelectionOutput

  datatype Policy = Policy(identity: Descriptor, required: seq<ContentRef>,
                           select: seq<Candidate> -> Option<seq<Choice>>)

  datatype Selected = Selected(outputs: map<SegmentName, seq<Message>>, decision: SelectionDecision)

  // ---------------------------------------------------------------- candidates of all segments

  function Concat(parts: seq<seq<Candidate>>): seq<Candidate> {
    if |parts| == 0 then [] else Concat(parts[..|parts| - 1]) + parts[|parts| - 1]
  }

  /** `part` cuts the whole segment into units. */
  ghost predicate IsPart(sources: Sources, p: Prepared, part: seq<Candidate>) {
    p.Ready() && CutEnd(UnitBuilder(sources, p.segment), part, p.messages, p.rounds, p.required) == Some(|p.messages|)
  }

  ghost predicate PartsAre(sources: Sources, prepared: seq<Prepared>, parts: seq<seq<Candidate>>) {
    |parts| == |prepared| && forall k :: 0 <= k < |parts| ==> IsPart(sources, prepared[k], parts[k])
  }

  predicate AllReady(prepared: seq<Prepared>) {
    forall k :: 0 <= k < |prepared| ==> prepared[k].Ready()
  }

  function OwnUnits(sources: Sources, p: Prepared): Option<seq<Candidate>>
    requires p.Ready()
  {
    UnitsFrom(UnitBuilder(sources, p.segment), p.messages, p.rounds, p.required, 0)
  }

  /** The units of all segments; nothing if one of them cannot be built. */
  function AllUnits(sources: Sources, prepared: seq<Prepared>): Option<seq<Candidate>>
    requires AllReady(prepared)
  {
    if |prepared| == 0 then Some([])
    else
      var front := AllUnits(sources, prepared[..|prepared| - 1]);
      if front.None? then None else After(front.value, OwnUnits(sources, prepared[|prepared| - 1]))
  }

  lemma {:induction false} UnitsFail(sources: Sources, prepared: seq<Prepared>, k: nat)
    requires AllReady(prepared) && k <= |prepared| && AllUnits(sources, prepared[..k]).None?
    ensures AllUnits(sources, prepared).None?
    decreases |prepared|
  {
    if k < |prepared| {
      assert prepared[..|prepared| - 1][..k] == prepared[..k];
      UnitsFail(sources, prepared[..|prepared| - 1], k);
    } else {
      assert prepared[..k] == prepared;
    }
  }

  lemma {:induction false} UnitsNext(sources: Sources, prepared: seq<Prepared>, k: nat)
    requires AllReady(prepared) && k < |prepared| && AllUnits(sources, prepared[..k]).Some?
    ensures AllUnits(sources, prepared[..k + 1]) ==
            After(AllUnits(sources, prepared[..k]).value, OwnUnits(sources, prepared[k]))
  {
    assert prepared[..k + 1][..k] == prepared[..k] && prepared[..k + 1][k] == prepared[k];
  }

  lemma {:induction false} PartsSnoc(sources: Sources, prepared: seq<Prepared>, k: nat, parts: seq<seq<Candidate>>,
                                     part: seq<Candidate>)
    requires k < |prepared| && PartsAre(sources, prepared[..k], parts) && IsPart(sources, prepared[k], part)
    ensures PartsAre(sources, prepared[..k + 1], parts + [part]) && Concat(parts + [part]) == Concat(parts) + part
  {
    var more := parts + [part];
    assert more[..|more| - 1] == parts;
    assert prepared[..k + 1] == prepared[..k] + [prepared[k]];
  }

  method GatherCandidates(sources: Sources, prepared: seq<Prepared>)
    returns (r: Option<seq<Candidate>>, ghost parts: seq<seq<Candidate>>)
    requires AllReady(prepared)
    ensures var units := AllUnits(sources, prepared); r == if units.None? then None else Some(Numbered(units.value))
    ensures r.Some? ==> PartsAre(sources, prepared, parts) && StillRequired(Concat(parts), r.value)
  {
    var all: seq<Candidate> := [];
    parts := [];
    for k := 0 to |prepared|
      invariant PartsAre(sources, prepared[..k], parts) && all == Concat(parts)
      invariant AllUnits(sources, prepared[..k]) == Some(all)
    {
      var p := prepared[k];
      var part := SegmentCandidates(UnitBuilder(sources, p.segment), p.messages, p.rounds, p.required);
      UnitsNext(sources, prepared, k);
      if part.None? {
        UnitsFail(sources, prepared, k + 1);
        return None, parts;
      }
      PartsSnoc(sources, prepared, k, parts, part.value);
      all, parts := all + part.value, parts + [part.value];
    }
    assert prepared[..|prepared|] == prepared;
    var numbered := Number(all);
    r := Some(numbered);
  }

  // ---------------------------------------------------------------- the run

  /** Without a policy every unit is planned, in order. */
  function WholePlan(candidates: seq<Candidate>): (plan: seq<Choice>)
    ensures |plan| == |candidates|
  {
    seq(|candidates|, k requires 0 <= k < |candidates| => Choice(candidates[k].ref, 0))
  }

  predicate DistinctRefs(candidates: seq<Candidate>) {
    forall j, k :: 0 <= j < k < |candidates| ==> candidates[j].ref != candidates[k].ref
  }

  /** Required units are in, everything in was planned and may enter, the set is empty or fits, and with a monotone
      cost nothing left out for lack of room could still be added. */
  ghost predicate SoundChoice(candidates: seq<Candidate>, plan: seq<Choice>, budget: SelectionBudget,
                              refs: set<ContentRef>) {
    && (forall k :: 0 <= k < |candidates| && candidates[k].required ==> candidates[k].ref in refs)
    && (forall ref :: ref in refs ==> Chosen(plan, ref) && IsCandidate(candidates, ref))
    && EmptyOrFits(candidates, budget, refs)
    && (Monotone(candidates, budget) ==>
          forall k :: 0 <= k < |candidates| && Chosen(plan, candidates[k].ref) && candidates[k].local.Eligible? &&
                      candidates[k].ref !in refs ==>
            Fits(candidates, budget, refs + {candidates[k].ref}) == Some(false))
  }

  function Budget(policy: Option<Policy>, budget: SelectionBudget): SelectionBudget {
    if policy.None? then Unlimited else budget
  }

  function PlanOf(candidates: seq<Candidate>, policy: Option<Policy>): Option<seq<Choice>> {
    if policy.None? then Some(WholePlan(candidates))
    else if !policy.value.identity.Valid() then None
    else policy.value.select(candidates)
  }

  method PlanSelection(candidates: seq<Candidate>, policy: Option<Policy>) returns (plan: Option<seq<Choice>>)
    ensures plan == PlanOf(candidates, policy)
  {
    if policy.None? {
      return Some(WholePlan(candidates));
    }
    if !policy.value.identity.Valid() {
      return None;
    }
    plan := policy.value.select(candidates);
  }

  lemma {:induction false} AdmittedIsSound(candidates: seq<Candidate>, plan: seq<Choice>, priorities: Priorities,
                                           budget: SelectionBudget, order: seq<nat>, refs: set<ContentRef>)
    requires PlanAccepted(candidates, plan) && PrioritiesOf(priorities, plan)
    requires InAdmissionOrder(candidates, priorities, order, |candidates|)
    requires AdmitFrom(candidates, priorities, budget, order, 0, {}) == Admitted(refs)
    ensures SoundChoice(candidates, plan, budget, refs)
  {
    AdmissionIsSound(candidates, priorities, budget, order);
    forall ref | ref in refs
      ensures Chosen(plan, ref) && IsCandidate(candidates, ref)
    {
      assert Offered(candidates, priorities, ref);
    }
  }

  datatype Refusal = BadRounds | BadUnits | BadRequirement | BadPlan | NotAdmitted

  datatype Run = Ran(selected: Selected) | Refused(reason: Refusal)

  function NamedByPolicy(policy: Option<Policy>): seq<ContentRef> {
    if policy.Some? then policy.value.required else []
  }

  /** How a selection ends: with the first check that fails, or with the admitted units. */
  ghost predicate Decides(sources: Sources, prepared: seq<Prepared>, policy: Option<Policy>, budget: SelectionBudget,
                          candidates: seq<Candidate>, priorities: Priorities, order: seq<nat>, r: Run)
    requires AllReady(prepared)
  {
    var units := AllUnits(sources, prepared);
    if units.None? then r == Refused(BadUnits)
    else if !Requirable(Numbered(units.value), NamedByPolicy(policy)) then r == Refused(BadRequirement)
    else
      && OnlyMoreRequired(Numbered(units.value), candidates)
      && OnlyNamed(Numbered(units.value), candidates, NamedByPolicy(policy), |NamedByPolicy(policy)|)
      && DecidesPlan(candidates, policy, budget, priorities, order, r)
  }

  ghost predicate DecidesPlan(candidates: seq<Candidate>, policy: Option<Policy>, budget: SelectionBudget,
                              priorities: Priorities, order: seq<nat>, r: Run) {
    var plan := PlanOf(candidates, policy);
    if plan.None? || !PlanAccepted(candidates, plan.value) then r == Refused(BadPlan)
    else
      && PrioritiesOf(priorities, plan.value) && InAdmissionOrder(candidates, priorities, order, |candidates|)
      && var admission := AdmitFrom(candidates, priorities, Budget(policy, budget), order, 0, {});
         if admission.Admitted? then r.Ran? && r.selected.decision.plan == plan.value else r == Refused(NotAdmitted)
  }

  /** What a selection that ran delivers. */
  ghost predicate Delivers(sources: Sources, prepared: seq<Prepared>, policy: Option<Policy>, budget: SelectionBudget,
                           pending: set<Name>, parts: seq<seq<Candidate>>, candidates: seq<Candidate>,
                           refs: set<ContentRef>, out: Selected) {
    && PartsAre(sources, prepared, parts) && StillRequired(Concat(parts), candidates)
    && SoundChoice(candidates, out.decision.plan, Budget(policy, budget), refs)
    && OutputsAre(out.outputs, candidates, refs, pending)
    && DecisionOf(candidates, out.decision, policy, refs)
  }

  method SelectOutput(sources: Sources, prepared: seq<Prepared>, policy: Option<Policy>, budget: SelectionBudget,
                      pending: set<Name>)
    returns (r: Run, ghost parts: seq<seq<Candidate>>, ghost candidates: seq<Candidate>, ghost refs: set<ContentRef>,
             ghost priorities: Priorities, ghost order: seq<nat>)
    requires AllReady(prepared)
    ensures Decides(sources, prepared, policy, budget, candidates, priorities, order, r)
    ensures r.Ran? ==> Delivers(sources, prepared, policy, budget, pending, parts, candidates, refs, r.selected)
  {
    parts, candidates, refs, priorities, order := [], [], {}, map[], [];
    var units;
    units, parts := GatherCandidates(sources, prepared);
    if units.None? {
      return Refused(BadUnits), parts, candidates, refs, priorities, order;
    }
    var marked := MarkSelectionRequired(units.value, NamedByPolicy(policy));
    if marked.None? {
      return Refused(BadRequirement), parts, candidates, refs, priorities, order;
    }
    MarkedSame(Concat(parts), units.value, marked.value);
    candidates := marked.value;
    r, refs, priorities, order := SelectMarked(marked.value, policy, budget, pending);
  }

  /** From the marked units on: plan, admission, output and record. */
  method SelectMarked(candidates: seq<Candidate>, policy: Option<Policy>, budget: SelectionBudget, pending: set<Name>)
    returns (r: Run, ghost refs: set<ContentRef>, ghost known: Priorities, ghost order: seq<nat>)
    requires forall k :: 0 <= k < |candidates| ==> candidates[k].ordinal == k
    ensures DecidesPlan(candidates, policy, budget, known, order, r)
    ensures r.Ran? ==>
              && SoundChoice(candidates, r.selected.decision.plan, Budget(policy, budget), refs)
              && OutputsAre(r.selected.outputs, candidates, refs, pending)
              && DecisionOf(candidates, r.selected.decision, policy, refs)
  {
    refs, known, order := {}, map[], [];
    var plan := PlanSelection(candidates, policy);
    if plan.None? {
      return Refused(BadPlan), refs, known, order;
    }
    var priorities := ValidateSelectionPlan(candidates, plan.value);
    if priorities.None? {
      return Refused(BadPlan), refs, known, order;
    }
    known := priorities.value;
    var admission;
    admission, order := AdmitSelection(candidates, priorities.value, Budget(policy, budget));
    if !admission.Admitted? {
      return Refused(NotAdmitted), refs, known, order;
    }
    refs := admission.refs;
    AdmittedIsSound(candidates, plan.value, priorities.value, Budget(policy, budget), order, refs);
    var outputs := WriteOutput(candidates, admission.refs, pending);
    var decisions := RecordDecisions(candidates, admission.refs, priorities.value);
    var identity := if policy.Some? then Some(policy.value.identity) else None;
    r := Ran(Selected(outputs, SelectionDecision(identity, plan.value, decisions)));
    assert PlanAccepted(candidates, plan.value) && PrioritiesOf(priorities.value, plan.value);
  }

  /** The decision that records a choice. */
  ghost predicate DecisionOf(candidates: seq<Candidate>, d: SelectionDecision, policy: Option<Policy>,
                             refs: set<ContentRef>) {
    && d.policy == (if policy.Some? then Some(policy.value.identity) else None)
    && (policy.Some? ==> policy.value.identity.Valid())
    && (forall k :: 0 <= k < |candidates| ==> candidates[k].ordinal == k)
    && PlanAccepted(candidates, d.plan)
    && exists priorities: Priorities :: PrioritiesOf(priorities, d.plan)
                                        && d.candidates == DecisionsFor(candidates, refs, priorities)
  }

  lemma {:induction false} MarkedSame(a: seq<Candidate>, b: seq<Candidate>, c: seq<Candidate>)
    requires StillRequired(a, b) && OnlyMoreRequired(b, c)
    ensures StillRequired(a, c)
  {
    assert forall k :: 0 <= k < |c| ==> c[k] == b[k].(required := c[k].required);
  }

  // ---------------------------------------------------------------- the decision and its validator

  /** What the validator asks of a unit by itself. */
  predicate WellFormedUnit(c: Candidate) {
    KnownSegment(c.segment) && c.ref.Valid() && MembersValid(c.members, c.roundMembers)
  }

  lemma UnitDecisionValid(c: Candidate, refs: set<ContentRef>, priorities: Priorities, k: nat)
    requires c.ordinal == k && (c.required ==> c.ref in refs)
    ensures ValidCandidateDecision(DecisionFor(c, refs, priorities), k) <==> WellFormedUnit(c)
  {
  }

  lemma {:induction false} CandidatesValidIff(candidates: seq<Candidate>, refs: set<ContentRef>, priorities: Priorities)
    requires forall k :: 0 <= k < |candidates| ==> candidates[k].ordinal == k
    requires forall k :: 0 <= k < |candidates| && candidates[k].required ==> candidates[k].ref in refs
    ensures ValidCandidates(DecisionsFor(candidates, refs, priorities)) <==>
            DistinctRefs(candidates) && forall k :: 0 <= k < |candidates| ==> WellFormedUnit(candidates[k])
  {
    var d := DecisionsFor(candidates, refs, priorities);
    forall k | 0 <= k < |candidates|
      ensures d[k].ref == candidates[k].ref && (ValidCandidateDecision(d[k], k) <==> WellFormedUnit(candidates[k]))
    {
      UnitDecisionValid(candidates[k], refs, priorities, k);
    }
    if ValidCandidates(d) {
      assert forall k :: 0 <= k < |candidates| ==> ValidCandidateDecision(d[k], k);
      assert forall j, k :: 0 <= j < k < |candidates| ==> d[j].ref != d[k].ref;
    }
  }

  lemma {:induction false} PlanIsRecorded(candidates: seq<Candidate>, plan: seq<Choice>, refs: set<ContentRef>,
                                          priorities: Priorities)
    requires PlanAccepted(candidates, plan)
    ensures ValidPlan(plan, DecisionsFor(candidates, refs, priorities))
  {
    var d := DecisionsFor(candidates, refs, priorities);
    forall k | 0 <= k < |plan|
      ensures Recorded(d, plan[k].ref)
    {
      assert IsCandidate(candidates, plan[k].ref);
      var j :| 0 <= j < |candidates| && candidates[j].ref == plan[k].ref;
      assert d[j].ref == plan[k].ref;
    }
  }

  /** The decision of a sound choice passes its own validator exactly when the policy is identified, every unit is
      well formed, and no two units share a reference. */
  lemma {:induction false} DecisionValidIff(candidates: seq<Candidate>, plan: seq<Choice>, priorities: Priorities,
                                            budget: SelectionBudget,
                                            refs: set<ContentRef>, identity: Option<Descriptor>)
    requires forall k :: 0 <= k < |candidates| ==> candidates[k].ordinal == k
    requires PlanAccepted(candidates, plan) && SoundChoice(candidates, plan, budget, refs)
    ensures ValidDecision(SelectionDecision(identity, plan, DecisionsFor(candidates, refs, priorities))) <==>
            && (identity.Some? ==> identity.value.Valid()) && DistinctRefs(candidates)
            && forall k :: 0 <= k < |candidates| ==> WellFormedUnit(candidates[k])
  {
    var d := DecisionsFor(candidates, refs, priorities);
    CandidatesValidIff(candidates, refs, priorities);
    PlanIsRecorded(candidates, plan, refs, priorities);
    forall k | 0 <= k < |d| && d[k].selected
      ensures Chosen(plan, d[k].ref)
    {
      assert d[k].ref == candidates[k].ref && candidates[k].ref in refs;
    }
  }

  // ---------------------------------------------------------------- units cut from messages are well formed

  lemma {:induction false} LawfulRefs(f: Message -> Option<ContentRef>, block: seq<Message>)
    requires forall m :: f(m).Some? ==> f(m).value.id == m.id && f(m).value.Valid()
    requires AllRefs(f, block).Some?
    ensures var refs := AllRefs(f, block).value;
            |refs| == |block| && RefsValid(refs) && forall k :: 0 <= k < |refs| ==> refs[k].id == block[k].id
  {
    AllRefsAre(f, block);
    var refs := AllRefs(f, block).value;
    forall k | 0 <= k < |refs|
      ensures refs[k].Valid() && refs[k].id == block[k].id
    {
      assert f(block[k]) == Some(refs[k]);
    }
  }

  lemma {:induction false} RefsOfBlock(sources: Sources, block: seq<Message>, segment: SegmentName, required: bool,
                                       c: Candidate)
    requires sources.Lawful() && KnownSegment(segment) && UnitOf(sources, block, segment, required) == Some(c)
    ensures WellFormedUnit(c) && c.segment == segment
  {
    LawfulRefs(sources.ref, block);
    if HasRoundParts(block) {
      LawfulRefs(sources.roundRef, block);
    }
  }

  lemma {:induction false} PartMember(unit: Builder, part: seq<Candidate>, p: Prepared, k: nat)
    returns (block: seq<Message>, required: bool)
    requires p.Ready() && CutEnd(unit, part, p.messages, p.rounds, p.required).Some? && k < |part|
    ensures unit(block, required) == Some(part[k])
    decreases |part|
  {
    var last := |part| - 1;
    var at := CutEnd(unit, part[..last], p.messages, p.rounds, p.required).value;
    if k == last {
      block, required := p.messages[at..EndAt(p.rounds, at) + 1], p.required[at];
    } else {
      block, required := PartMember(unit, part[..last], p, k);
    }
  }

  lemma {:induction false} PartWellFormed(sources: Sources, p: Prepared, part: seq<Candidate>)
    requires sources.Lawful() && KnownSegment(p.segment) && IsPart(sources, p, part)
    ensures forall k :: 0 <= k < |part| ==> WellFormedUnit(part[k]) && part[k].segment == p.segment
  {
    forall k | 0 <= k < |part|
      ensures WellFormedUnit(part[k]) && part[k].segment == p.segment
    {
      var block, required := PartMember(UnitBuilder(sources, p.segment), part, p, k);
      RefsOfBlock(sources, block, p.segment, required, part[k]);
    }
  }

  lemma {:induction false} ConcatWellFormed(sources: Sources, prepared: seq<Prepared>, parts: seq<seq<Candidate>>)
    requires sources.Lawful() && PartsAre(sources, prepared, parts)
    requires forall k :: 0 <= k < |prepared| ==> KnownSegment(prepared[k].segment)
    ensures forall k :: 0 <= k < |Concat(parts)| ==> WellFormedUnit(Concat(parts)[k])
    decreases |parts|
  {
    if |parts| > 0 {
      var last := |parts| - 1;
      ConcatWellFormed(sources, prepared[..last], parts[..last]);
      PartWellFormed(sources, prepared[last], parts[last]);
    }
  }

  /** A whole selection over known segments: its decision is valid exactly when no two units share a reference. */
  lemma {:induction false} SelectionDecisionValidIff(sources: Sources, prepared: seq<Prepared>, policy: Option<Policy>,
                                                     budget: SelectionBudget,
                                                     parts: seq<seq<Candidate>>, candidates: seq<Candidate>,
                                                     refs: set<ContentRef>, d: SelectionDecision)
    requires sources.Lawful() && PartsAre(sources, prepared, parts) && StillRequired(Concat(parts), candidates)
    requires forall k :: 0 <= k < |prepared| ==> KnownSegment(prepared[k].segment)
    requires DecisionOf(candidates, d, policy, refs) && SoundChoice(candidates, d.plan, Budget(policy, budget), refs)
    ensures ValidDecision(d) <==> DistinctRefs(candidates)
  {
    ConcatWellFormed(sources, prepared, parts);
    var priorities: Priorities :| PrioritiesOf(priorities, d.plan)
      && d.candidates == DecisionsFor(candidates, refs, priorities);
    forall k | 0 <= k < |candidates|
      ensures WellFormedUnit(candidates[k])
    {
      assert WellFormedUnit(Concat(parts)[k]);
    }
    DecisionValidIff(candidates, d.plan, priorities, Budget(policy, budget), refs, d.policy);
    assert d == SelectionDecision(d.policy, d.plan, DecisionsFor(candidates, refs, priorities));
  }
}
