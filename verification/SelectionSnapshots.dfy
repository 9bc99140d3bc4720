/** Selection over a whole snapshot with a turn in progress (selection.go). */
module SelectionSnapshots {
  import opened Results
  import opened Sequences
  import opened Messages
  import opened Rounds
  import opened Retention
  import opened Selection
  import opened SelectionUnits
  import opened SelectionInputs
  import opened SelectionOutput
  import opened SelectionRuns
  import opened SelectionHistories

  // ---------------------------------------------------------------- messages by position

  /** The messages of all segments, one after the other. */
  function AllMessages(prepared: seq<Prepared>): seq<Message> {
    if |prepared| == 0 then []
    else AllMessages(prepared[..|prepared| - 1]) + prepared[|prepared| - 1].messages
  }

  function Offset(prepared: seq<Prepared>, k: nat): nat
    requires k <= |prepared|
  {
    if k == 0 then 0 else Offset(prepared, k - 1) + |prepared[k - 1].messages|
  }

  lemma {:induction false} OffsetFront(prepared: seq<Prepared>, k: nat, n: nat)
    requires k <= n <= |prepared|
    ensures Offset(prepared[..n], k) == Offset(prepared, k)
  {
    if k > 0 {
      OffsetFront(prepared, k - 1, n);
    }
  }

  lemma {:induction false} AllLength(prepared: seq<Prepared>)
    ensures |AllMessages(prepared)| == Offset(prepared, |prepared|)
  {
    if |prepared| > 0 {
      var last := |prepared| - 1;
      AllLength(prepared[..last]);
      OffsetFront(prepared, last, last);
    }
  }

  lemma {:induction false} MessageAt(prepared: seq<Prepared>, k: nat, i: nat)
    requires k < |prepared| && i < |prepared[k].messages|
    ensures Offset(prepared, k) + i < |AllMessages(prepared)|
    ensures AllMessages(prepared)[Offset(prepared, k) + i] == prepared[k].messages[i]
    decreases |prepared|
  {
    var last := |prepared| - 1;
    var front := prepared[..last];
    AllLength(front);
    OffsetFront(prepared, last, last);
    if k < last {
      MessageAt(front, k, i);
      OffsetFront(prepared, k, last);
    }
  }

  lemma {:induction false} OffsetsGrow(prepared: seq<Prepared>, j: nat, k: nat)
    requires j < k <= |prepared|
    ensures Offset(prepared, j) + |prepared[j].messages| <= Offset(prepared, k)
  {
    if j < k - 1 {
      OffsetsGrow(prepared, j, k - 1);
    }
  }

  /** An identity stands in one segment only, and once. */
  lemma {:induction false} OneOwner(prepared: seq<Prepared>, j: nat, x: nat, k: nat, y: nat)
    requires UniqueIds(AllMessages(prepared)) && j < |prepared| && k < |prepared|
    requires x < |prepared[j].messages| && y < |prepared[k].messages| && (j != k || x != y)
    requires prepared[j].messages[x].id != Anonymous
    ensures prepared[j].messages[x].id != prepared[k].messages[y].id
  {
    MessageAt(prepared, j, x);
    MessageAt(prepared, k, y);
    if j < k {
      OffsetsGrow(prepared, j, k);
    } else if k < j {
      OffsetsGrow(prepared, k, j);
    }
  }

  lemma {:induction false} SegmentIsUnique(prepared: seq<Prepared>, k: nat)
    requires UniqueIds(AllMessages(prepared)) && k < |prepared|
    ensures UniqueIds(prepared[k].messages)
  {
    forall x, y | 0 <= x < y < |prepared[k].messages| && prepared[k].messages[x].id != Anonymous
      ensures prepared[k].messages[x].id != prepared[k].messages[y].id
    {
      OneOwner(prepared, k, x, k, y);
    }
  }

  /** The turn stands at the end of the history, so no other segment holds its identities. */
  lemma {:induction false} TurnElsewhere(prepared: seq<Prepared>, h: nat, stored: seq<Message>, turn: seq<Message>,
                                         k: nat)
    requires UniqueIds(AllMessages(prepared)) && h < |prepared| && k < |prepared| && k != h
    requires prepared[h].messages == stored + turn
    ensures forall i :: 0 <= i < |prepared[k].messages| ==> prepared[k].messages[i].id !in TurnIds(turn)
  {
    forall i, j | 0 <= i < |prepared[k].messages| && 0 <= j < |turn| && turn[j].id != Anonymous
      ensures turn[j].id != prepared[k].messages[i].id
    {
      assert (stored + turn)[|stored| + j] == turn[j];
      OneOwner(prepared, h, |stored| + j, k, i);
    }
  }

  // ---------------------------------------------------------------- distinct identities give distinct units

  function AllText(candidates: seq<Candidate>): seq<Message> {
    if |candidates| == 0 then [] else AllText(candidates[..|candidates| - 1]) + candidates[|candidates| - 1].messages
  }

  lemma {:induction false} AllTextConcat(a: seq<Candidate>, b: seq<Candidate>)
    ensures AllText(a + b) == AllText(a) + AllText(b)
    decreases |b|
  {
    if |b| == 0 {
      assert a + b == a;
    } else {
      var last := |b| - 1;
      assert (a + b)[..|a| + last] == a + b[..last];
      AllTextConcat(a, b[..last]);
      ConcatAssoc(AllText(a), AllText(b[..last]), b[last].messages);
    }
  }

  lemma {:induction false} PartText(unit: Builder, part: seq<Candidate>, p: Prepared, i: nat)
    requires Faithful(unit) && p.Ready() && i <= |p.messages|
    requires CutEnd(unit, part, p.messages, p.rounds, p.required) == Some(i)
    ensures AllText(part) == p.messages[..i]
    decreases |part|
  {
    if |part| > 0 {
      var front, last := part[..|part| - 1], part[|part| - 1];
      var j := CutEnd(unit, front, p.messages, p.rounds, p.required).value;
      PartText(unit, front, p, j);
      FaithfulAt(unit, p.messages[j..i], p.required[j], last);
      NextText(part, p.messages, j, i);
    }
  }

  lemma {:induction false} NextText(part: seq<Candidate>, messages: seq<Message>, j: nat, i: nat)
    requires |part| > 0 && j <= i <= |messages| && part[|part| - 1].messages == messages[j..i]
    requires AllText(part[..|part| - 1]) == messages[..j]
    ensures AllText(part) == messages[..i]
  {
    assert messages[..i] == messages[..j] + messages[j..i];
  }

  lemma {:induction false} ConcatText(sources: Sources, prepared: seq<Prepared>, parts: seq<seq<Candidate>>)
    requires PartsAre(sources, prepared, parts)
    ensures AllText(Concat(parts)) == AllMessages(prepared)
    decreases |parts|
  {
    if |parts| > 0 {
      var last := |parts| - 1;
      var p := prepared[last];
      ConcatText(sources, prepared[..last], parts[..last]);
      assert IsPart(sources, p, parts[last]);
      UnitBuilderFaithful(sources, p.segment);
      PartText(UnitBuilder(sources, p.segment), parts[last], p, |p.messages|);
      assert p.messages[..|p.messages|] == p.messages;
      AllTextConcat(Concat(parts[..last]), parts[last]);
    }
  }

  /** The reference of a unit is that of its first message, or of the artifact that message shows. */
  predicate StandsFor(sources: Sources, c: Candidate) {
    && |c.messages| > 0 && c.messages[0].id != Anonymous
    && match sources.artifact(c.messages[0])
       case NoArtifact => sources.ref(c.messages[0]) == Some(c.ref)
       case Attached(ref, _) => c.ref == ref
       case BadArtifact => false
  }

  lemma {:induction false} SameRefSameFirst(sources: Sources, c: Candidate, d: Candidate)
    requires sources.Lawful() && StandsFor(sources, c) && StandsFor(sources, d) && c.ref == d.ref
    ensures c.messages[0].id == d.messages[0].id
  {
  }

  lemma {:induction false} UnitStandsFor(sources: Sources, block: seq<Message>, segment: SegmentName, required: bool)
    requires sources.Lawful() && UnitOf(sources, block, segment, required).Some?
    ensures StandsFor(sources, UnitOf(sources, block, segment, required).value)
  {
    AllRefsAre(sources.ref, block);
    BlockIsNamed(sources, block, segment, required, 0);
    assert sources.ref(block[0]) == Some(AllRefs(sources.ref, block).value[0]);
  }

  lemma {:induction false} PartsStand(sources: Sources, prepared: seq<Prepared>, parts: seq<seq<Candidate>>)
    requires sources.Lawful() && PartsAre(sources, prepared, parts)
    ensures forall i :: 0 <= i < |Concat(parts)| ==> StandsFor(sources, Concat(parts)[i])
    decreases |parts|
  {
    if |parts| > 0 {
      var last := |parts| - 1;
      PartsStand(sources, prepared[..last], parts[..last]);
      forall j | 0 <= j < |parts[last]|
        ensures StandsFor(sources, parts[last][j])
      {
        var p := prepared[last];
        var block, required := PartMember(UnitBuilder(sources, p.segment), parts[last], p, j);
        UnitStandsFor(sources, block, p.segment, required);
      }
    }
  }

  /** The first messages of two units are two messages. */
  lemma {:induction false} FirstsDiffer(candidates: seq<Candidate>, a: nat, b: nat)
    requires UniqueIds(AllText(candidates)) && a < b < |candidates|
    requires forall i :: 0 <= i < |candidates| ==> |candidates[i].messages| > 0
    requires candidates[a].messages[0].id != Anonymous
    ensures candidates[a].messages[0].id != candidates[b].messages[0].id
  {
    var x := FirstAt(candidates, a);
    var y := FirstAt(candidates, b);
    StartsGrow(candidates, a, b);
  }

  function StartOf(candidates: seq<Candidate>, k: nat): nat
    requires k <= |candidates|
  {
    if k == 0 then 0 else StartOf(candidates, k - 1) + |candidates[k - 1].messages|
  }

  lemma {:induction false} StartsGrow(candidates: seq<Candidate>, a: nat, b: nat)
    requires a < b <= |candidates| && |candidates[a].messages| > 0
    ensures StartOf(candidates, a) < StartOf(candidates, b)
  {
    if a < b - 1 {
      StartsGrow(candidates, a, b - 1);
    }
  }

  lemma {:induction false} StartFront(candidates: seq<Candidate>, k: nat, n: nat)
    requires k <= n <= |candidates|
    ensures StartOf(candidates[..n], k) == StartOf(candidates, k)
  {
    if k > 0 {
      StartFront(candidates, k - 1, n);
    }
  }

  lemma {:induction false} TextLength(candidates: seq<Candidate>)
    ensures |AllText(candidates)| == StartOf(candidates, |candidates|)
  {
    if |candidates| > 0 {
      var last := |candidates| - 1;
      TextLength(candidates[..last]);
      StartFront(candidates, last, last);
    }
  }

  lemma {:induction false} FirstAt(candidates: seq<Candidate>, k: nat) returns (x: nat)
    requires k < |candidates| && |candidates[k].messages| > 0
    ensures x == StartOf(candidates, k) < |AllText(candidates)| && AllText(candidates)[x] == candidates[k].messages[0]
    decreases |candidates|
  {
    var last := |candidates| - 1;
    var front := candidates[..last];
    TextLength(front);
    StartFront(candidates, last, last);
    if k < last {
      x := FirstAt(front, k);
      StartFront(candidates, k, last);
    } else {
      x := |AllText(front)|;
    }
  }

  /** If no identity repeats among the messages, no two units share a reference. */
  lemma {:induction false} UnitsAreDistinct(sources: Sources, prepared: seq<Prepared>, parts: seq<seq<Candidate>>,
                                            candidates: seq<Candidate>)
    requires sources.Lawful() && PartsAre(sources, prepared, parts) && SameUnits(Concat(parts), candidates)
    requires UniqueIds(AllMessages(prepared))
    ensures DistinctRefs(candidates)
  {
    var units := Concat(parts);
    ConcatText(sources, prepared, parts);
    PartsStand(sources, prepared, parts);
    forall a, b | 0 <= a < b < |candidates|
      ensures candidates[a].ref != candidates[b].ref
    {
      assert candidates[a].ref == units[a].ref && candidates[b].ref == units[b].ref;
      FirstsDiffer(units, a, b);
      if units[a].ref == units[b].ref {
        SameRefSameFirst(sources, units[a], units[b]);
      }
    }
  }

  // ---------------------------------------------------------------- the whole selection

  /** What a selection leaves: the history without the turn and with it, every other segment, and a valid record. */
  ghost predicate SelectsUnits(prepared: seq<Prepared>, snapshot: Snapshot, turn: seq<Message>, out: Selected) {
    && ValidDecision(out.decision)
    && (exists marks :: LeavesUnits(snapshot.history, turn, marks, Held(out.outputs, HistorySegment)))
    && forall k :: 0 <= k < |prepared| && !prepared[k].segment.HistorySegment? ==>
         exists marks :: LeavesSegment(prepared[k], marks, Held(out.outputs, prepared[k].segment))
  }

  lemma {:induction false} SnapshotIsApart(prepared: seq<Prepared>, snapshot: Snapshot, turn: seq<Message>,
                                           pipe: Option<Pipe>)
    requires |prepared| == 4 && AllPrepared(prepared, snapshot, turn, pipe)
    ensures AllReady(prepared) && Apart(prepared) && Names(prepared) == SEGMENTS
  {
    forall k | 0 <= k < 4
      ensures prepared[k].segment == SEGMENTS[k] && prepared[k].Ready()
    {
    }
    assert Names(prepared) == SEGMENTS;
    assert Distinct(SEGMENTS);
  }

  lemma {:induction false} SelectionKeepsUnits(sources: Sources, prepared: seq<Prepared>, snapshot: Snapshot,
                                               turn: seq<Message>, policy: Option<Policy>, pipe: Option<Pipe>,
                                               budget: SelectionBudget, parts: seq<seq<Candidate>>,
                                               candidates: seq<Candidate>, refs: set<ContentRef>, out: Selected)
    requires sources.Lawful() && |prepared| == 4 && AllPrepared(prepared, snapshot, turn, pipe)
    requires Delivers(sources, prepared, policy, budget, TurnIds(turn), parts, candidates, refs, out)
    requires UniqueIds(AllMessages(prepared))
    ensures SelectsUnits(prepared, snapshot, turn, out)
  {
    SnapshotIsApart(prepared, snapshot, turn, pipe);
    UnitsAreDistinct(sources, prepared, parts, candidates);
    SelectionDecisionValidIff(sources, prepared, policy, budget, parts, candidates, refs, out.decision);
    HistorySelected(sources, prepared, snapshot, turn, pipe, parts, candidates, refs, out);
    forall k | 0 <= k < |prepared| && !prepared[k].segment.HistorySegment?
      ensures exists marks :: LeavesSegment(prepared[k], marks, Held(out.outputs, prepared[k].segment))
    {
      assert Names(prepared)[k] == SEGMENTS[k];
      TurnElsewhere(prepared, 1, snapshot.history, turn, k);
      var marks := SegmentKeepsUnits(sources, prepared, parts, candidates, refs, k, TurnIds(turn));
      assert Same(Held(out.outputs, prepared[k].segment),
                  SegmentOutput(candidates, refs, prepared[k].segment, TurnIds(turn)));
    }
  }

  lemma {:induction false} HistorySelected(sources: Sources, prepared: seq<Prepared>, snapshot: Snapshot,
                                           turn: seq<Message>, pipe: Option<Pipe>, parts: seq<seq<Candidate>>,
                                           candidates: seq<Candidate>, refs: set<ContentRef>, out: Selected)
    requires sources.Lawful() && |prepared| == 4 && AllPrepared(prepared, snapshot, turn, pipe)
    requires PartsAre(sources, prepared, parts) && StillRequired(Concat(parts), candidates)
    requires OutputsAre(out.outputs, candidates, refs, TurnIds(turn)) && UniqueIds(AllMessages(prepared))
    requires forall i :: 0 <= i < |candidates| && candidates[i].required ==> candidates[i].ref in refs
    ensures exists marks :: LeavesUnits(snapshot.history, turn, marks, Held(out.outputs, HistorySegment))
  {
    SnapshotIsApart(prepared, snapshot, turn, pipe);
    assert SEGMENTS[1] == HistorySegment;
    SegmentIsUnique(prepared, 1);
    var marks := HistoryKeepsUnits(sources, prepared, parts, candidates, refs, 1, snapshot.history, turn, pipe);
    assert Same(Held(out.outputs, HistorySegment), SegmentOutput(candidates, refs, HistorySegment, TurnIds(turn)));
  }

  /** Everything selection looks at, in its order. */
  function SnapshotMessages(snapshot: Snapshot, turn: seq<Message>): seq<Message> {
    snapshot.system + (snapshot.history + turn) + snapshot.memory + snapshot.tools
  }

  lemma {:induction false} PreparedMessages(prepared: seq<Prepared>, snapshot: Snapshot, turn: seq<Message>,
                                            pipe: Option<Pipe>)
    requires |prepared| == 4 && AllPrepared(prepared, snapshot, turn, pipe)
    ensures AllMessages(prepared) == SnapshotMessages(snapshot, turn)
  {
    var p := prepared;
    assert p[..3][..2] == p[..2] && p[..2][..1] == p[..1] && p[..1][..0] == p[..0];
    assert AllMessages(p) == AllMessages(p[..3]) + p[3].messages;
    assert AllMessages(p[..3]) == AllMessages(p[..2]) + p[2].messages;
    assert AllMessages(p[..2]) == AllMessages(p[..1]) + p[1].messages;
    assert AllMessages(p[..1]) == AllMessages(p[..0]) + p[0].messages;
    assert AllMessages(p[..0]) == [] && [] + p[0].messages == p[0].messages;
  }

  /** `selectOutput`: if no identity repeats, the output is whole units of every segment and the record is valid. */
  method SelectFromSnapshot(sources: Sources, snapshot: Snapshot, turn: seq<Message>, policy: Option<Policy>,
                            pipe: Option<Pipe>, budget: SelectionBudget)
    returns (r: Run, ghost prepared: seq<Prepared>, ghost candidates: seq<Candidate>, ghost priorities: Priorities,
             ghost order: seq<nat>)
    ensures r == Refused(BadRounds) <==>
            exists k :: 0 <= k < 4 && !Preparable(SEGMENTS[k], WithTurn(snapshot, turn, SEGMENTS[k]), pipe)
    ensures r != Refused(BadRounds) ==>
              && |prepared| == 4 && AllPrepared(prepared, snapshot, turn, pipe) && AllReady(prepared)
              && Decides(sources, prepared, policy, budget, candidates, priorities, order, r)
    ensures r.Ran? && sources.Lawful() && UniqueIds(SnapshotMessages(snapshot, turn)) ==>
              SelectsUnits(prepared, snapshot, turn, r.selected)
    ensures r.Ran? && sources.Lawful() ==> (ValidDecision(r.selected.decision) <==> DistinctRefs(candidates))
  {
    prepared, candidates, priorities, order := [], [], map[], [];
    var ready := PrepareSnapshot(snapshot, turn, pipe);
    if ready.None? {
      return Refused(BadRounds), prepared, candidates, priorities, order;
    }
    prepared := ready.value;
    SnapshotIsApart(prepared, snapshot, turn, pipe);
    ghost var parts, refs;
    r, parts, candidates, refs, priorities, order := SelectOutput(sources, ready.value, policy, budget, TurnIds(turn));
    if r.Ran? && sources.Lawful() {
      SelectionDecisionValidIff(sources, prepared, policy, budget, parts, candidates, refs, r.selected.decision);
      PreparedMessages(prepared, snapshot, turn, pipe);
      if UniqueIds(SnapshotMessages(snapshot, turn)) {
        SelectionKeepsUnits(sources, prepared, snapshot, turn, policy, pipe, budget, parts, candidates, refs,
                            r.selected);
      }
    }
  }
}
