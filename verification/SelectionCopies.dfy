/** A selection whose record its own validator refuses: the turn in progress copied into another segment. */
module SelectionCopies {
  import opened Results
  import opened Messages
  import opened Rounds
  import opened Layouts
  import opened Retention
  import opened Selection
  import opened SelectionUnits
  import opened SelectionInputs
  import opened SelectionOutput
  import opened SelectionRuns
  import opened SelectionHistories
  import opened SelectionSnapshots

  /** With no limit, units that may enter on their own are all admitted. */
  lemma {:induction false} UnlimitedAdmits(candidates: seq<Candidate>, priorities: Priorities, order: seq<nat>, k: nat,
                                           refs: set<ContentRef>)
    requires k <= |order| && forall p :: 0 <= p < |order| ==> order[p] < |candidates|
    requires forall i :: 0 <= i < |candidates| ==> candidates[i].local.Eligible?
    ensures AdmitFrom(candidates, priorities, Unlimited, order, k, refs).Admitted?
    decreases |order| - k
  {
    if k < |order| {
      var next := AdmitOne(candidates, priorities, Unlimited, candidates[order[k]], refs);
      UnlimitedAdmits(candidates, priorities, order, k + 1, next.refs);
    }
  }

  /** A plain message with a reference and no artifact. */
  ghost predicate Referred(sources: Sources, m: Message, ref: ContentRef) {
    && sources.Lawful() && IsPlain(m) && sources.ref(m) == Some(ref) && sources.artifact(m).NoArtifact?
  }

  /** A policy that chooses one unit, once. */
  function ChooseOne(identity: Descriptor, ref: ContentRef): Policy {
    Policy(identity, [], (_: seq<Candidate>) => Some([Choice(ref, 0)]))
  }

  /** What a deferred block that resolves to the pending message leaves in memory. */
  function Copied(m: Message): Snapshot {
    Snapshot([], [], [m], [])
  }

  lemma {:induction false} PlainHistory(m: Message)
    requires IsPlain(m)
    ensures Valid([m]) && Inspect([m], map[]).rounds == []
  {
    var h := Next(Plain(m), End);
    assert Flatten(End) == [] && Flatten(h) == h.unit.Content() + Flatten(End);
    assert Flatten(h) == [m];
    assert Layout(End, {} + h.unit.Names()) && Layout(h, {});
    LayoutIsValid(h);
    assert Reports(End, 1, map[]) == [] && Reports(h, 0, map[]) == [] + Reports(End, 1, map[]);
  }

  lemma {:induction false} CopyIsPreparable(m: Message, k: nat)
    requires IsPlain(m) && k < 4
    ensures Preparable(SEGMENTS[k], WithTurn(Copied(m), [m], SEGMENTS[k]), None)
  {
    PlainHistory(m);
    assert [] + [m] == [m];
  }

  /** The one unit made of `m`. */
  function UnitFor(m: Message, ref: ContentRef, segment: SegmentName, required: bool): Candidate {
    Candidate(ref, [ref], [], segment, [m], required, 0, Eligible)
  }

  lemma {:induction false} UnitOfOne(sources: Sources, m: Message, ref: ContentRef, segment: SegmentName,
                                     required: bool)
    requires Referred(sources, m, ref)
    ensures UnitOf(sources, [m], segment, required) == Some(UnitFor(m, ref, segment, required))
  {
    assert [m][..0] == [] && AllRefs(sources.ref, []) == Some([]) && [] + [ref] == [ref];
    assert AllRefs(sources.ref, [m]) == Some([ref]);
    assert !HasRoundParts([m]);
  }

  lemma {:induction false} OneBlock(unit: Builder, messages: seq<Message>, required: seq<bool>, c: Candidate)
    requires |messages| == 1 == |required| && unit(messages, required[0]) == Some(c)
    ensures UnitsFrom(unit, messages, [], required, 0) == Some([c])
  {
    assert messages[0..1] == messages && EndAt([], 0) == 0;
    assert UnitsFrom(unit, messages, [], required, 1) == Some([]);
    assert [c] + [] == [c];
  }

  lemma {:induction false} OneUnit(sources: Sources, m: Message, ref: ContentRef, p: Prepared)
    requires Referred(sources, m, ref) && p.Ready() && p.messages == [m] && p.rounds == []
    ensures OwnUnits(sources, p) == Some([UnitFor(m, ref, p.segment, p.required[0])])
  {
    var unit := UnitBuilder(sources, p.segment);
    UnitOfOne(sources, m, ref, p.segment, p.required[0]);
    OneBlock(unit, p.messages, p.required, UnitFor(m, ref, p.segment, p.required[0]));
  }

  lemma {:induction false} CopyShape(m: Message, p: seq<Prepared>)
    requires IsPlain(m) && |p| == 4 && AllPrepared(p, Copied(m), [m], None)
    ensures p[0].messages == [] && p[3].messages == [] && p[1].messages == [m] == p[2].messages
    ensures p[1].rounds == [] == p[2].rounds && p[1].segment == HistorySegment && p[2].segment == MemorySegment
    ensures |p[1].required| == 1 && p[1].required[0] && |p[2].required| == 1 && !p[2].required[0]
  {
    PlainHistory(m);
    assert SEGMENTS[0] == SystemSegment && SEGMENTS[1] == HistorySegment;
    assert SEGMENTS[2] == MemorySegment && SEGMENTS[3] == ToolsSegment;
    assert [] + [m] == [m];
    TurnIsRequired(p[1].required, None, [m], p[1].rounds, 0);
  }

  lemma {:induction false} TwoUnits(sources: Sources, m: Message, ref: ContentRef, prepared: seq<Prepared>)
    requires Referred(sources, m, ref) && |prepared| == 4 && AllPrepared(prepared, Copied(m), [m], None)
    requires AllReady(prepared)
    ensures AllUnits(sources, prepared) ==
            Some([UnitFor(m, ref, HistorySegment, true), UnitFor(m, ref, MemorySegment, false)])
  {
    var p := prepared;
    CopyShape(m, p);
    OneUnit(sources, m, ref, p[1]);
    OneUnit(sources, m, ref, p[2]);
    assert OwnUnits(sources, p[0]) == Some([]) && OwnUnits(sources, p[3]) == Some([]);
    var a, b := UnitFor(m, ref, HistorySegment, true), UnitFor(m, ref, MemorySegment, false);
    Joins(sources, prepared, [a], [b]);
    assert [a] + [b] == [a, b];
  }

  lemma {:induction false} Joins(sources: Sources, p: seq<Prepared>, a: seq<Candidate>, b: seq<Candidate>)
    requires |p| == 4 && AllReady(p)
    requires OwnUnits(sources, p[0]) == Some([]) && OwnUnits(sources, p[1]) == Some(a)
    requires OwnUnits(sources, p[2]) == Some(b) && OwnUnits(sources, p[3]) == Some([])
    ensures AllUnits(sources, p) == Some(a + b)
  {
    assert p[..4] == p && p[..0] == [];
    UnitsNext(sources, p, 0);
    UnitsNext(sources, p, 1);
    UnitsNext(sources, p, 2);
    UnitsNext(sources, p, 3);
    assert [] + [] + a + b + [] == a + b;
  }

  lemma {:induction false} ChoiceIsAccepted(candidates: seq<Candidate>, ref: ContentRef)
    requires |candidates| > 0 && forall k :: 0 <= k < |candidates| ==>
               candidates[k].ref == ref && |candidates[k].members| == 1
    ensures PlanAccepted(candidates, [Choice(ref, 0)])
  {
    var plan := [Choice(ref, 0)];
    assert candidates[0].ref == plan[0].ref;
    forall k | 0 <= k < |candidates|
      ensures Chosen(plan, candidates[k].ref)
    {
      assert plan[0].ref == candidates[k].ref;
    }
  }

  /** Every check on the way passes and the selection ends, with a record that the validator refuses. */
  method CopyOfTurnIsRefused(sources: Sources, m: Message, ref: ContentRef, identity: Descriptor) returns (r: Run)
    requires Referred(sources, m, ref) && identity.Valid()
    ensures r.Ran? && !ValidDecision(r.selected.decision)
  {
    ghost var prepared, candidates, priorities, order;
    r, prepared, candidates, priorities, order :=
      SelectFromSnapshot(sources, Copied(m), [m], Some(ChooseOne(identity, ref)), None, Unlimited);
    forall k: nat | k < 4
      ensures Preparable(SEGMENTS[k], WithTurn(Copied(m), [m], SEGMENTS[k]), None)
    {
      CopyIsPreparable(m, k);
    }
    TwoUnits(sources, m, ref, prepared);
    CopyRuns(sources, m, ref, identity, prepared, candidates, priorities, order, r);
  }

  lemma {:induction false} CopyRuns(sources: Sources, m: Message, ref: ContentRef, identity: Descriptor,
                                    prepared: seq<Prepared>, candidates: seq<Candidate>, priorities: Priorities,
                                    order: seq<nat>, r: Run)
    requires AllReady(prepared) && identity.Valid()
    requires AllUnits(sources, prepared) ==
             Some([UnitFor(m, ref, HistorySegment, true), UnitFor(m, ref, MemorySegment, false)])
    requires Decides(sources, prepared, Some(ChooseOne(identity, ref)), Unlimited, candidates, priorities, order, r)
    ensures r.Ran? && !DistinctRefs(candidates)
  {
    var units := Numbered([UnitFor(m, ref, HistorySegment, true), UnitFor(m, ref, MemorySegment, false)]);
    assert Requirable(units, []);
    forall k | 0 <= k < 2
      ensures candidates[k].ref == ref && |candidates[k].members| == 1 && candidates[k].local.Eligible?
    {
      assert candidates[k] == units[k].(required := candidates[k].required);
    }
    ChosenRuns(candidates, ref, identity, priorities, order, r);
  }

  lemma {:induction false} ChosenRuns(candidates: seq<Candidate>, ref: ContentRef, identity: Descriptor,
                                      priorities: Priorities, order: seq<nat>, r: Run)
    requires |candidates| == 2 && identity.Valid()
    requires forall k :: 0 <= k < 2 ==>
               candidates[k].ref == ref && |candidates[k].members| == 1 && candidates[k].local.Eligible?
    requires DecidesPlan(candidates, Some(ChooseOne(identity, ref)), Unlimited, priorities, order, r)
    ensures r.Ran? && !DistinctRefs(candidates)
  {
    ChoiceIsAccepted(candidates, ref);
    UnlimitedAdmits(candidates, priorities, order, 0, {});
    assert candidates[0].ref == candidates[1].ref;
  }
}
