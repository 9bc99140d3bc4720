/** What a selection leaves of each segment (selection.go). */
module SelectionHistories {
  import opened Results
  import opened Sequences
  import opened Messages
  import opened Rounds
  import opened Layouts
  import opened RoundIndex
  import opened Selection
  import opened SelectionUnits
  import opened SelectionInputs
  import opened SelectionOutput
  import opened SelectionRuns

  // ---------------------------------------------------------------- taking out the turn in progress

  /** The identities of the turn in progress. */
  function TurnIds(turn: seq<Message>): set<Name> {
    set i | 0 <= i < |turn| && turn[i].id != Anonymous :: turn[i].id
  }

  lemma {:induction false} SettledNone(messages: seq<Message>, pending: set<Name>)
    requires forall i :: 0 <= i < |messages| ==> messages[i].id !in pending
    ensures Settled(messages, pending) == messages
  {
    if |messages| > 0 {
      SettledNone(messages[..|messages| - 1], pending);
      assert messages == messages[..|messages| - 1] + [messages[|messages| - 1]];
    }
  }

  lemma {:induction false} SettledGone(messages: seq<Message>, pending: set<Name>)
    requires forall i :: 0 <= i < |messages| ==> messages[i].id in pending
    ensures Settled(messages, pending) == []
  {
    if |messages| > 0 {
      SettledGone(messages[..|messages| - 1], pending);
    }
  }

  lemma {:induction false} SettledConcat(a: seq<Message>, b: seq<Message>, pending: set<Name>)
    ensures Settled(a + b, pending) == Settled(a, pending) + Settled(b, pending)
    decreases |b|
  {
    if |b| == 0 {
      assert a + b == a;
    } else {
      var last := |b| - 1;
      assert (a + b)[..|a| + last] == a + b[..last];
      SettledConcat(a, b[..last], pending);
      ConcatAssoc(Settled(a, pending), Settled(b[..last], pending), if b[last].id in pending then [] else [b[last]]);
    }
  }

  // ---------------------------------------------------------------- the output of one segment

  lemma {:induction false} SameUnitsOutput(a: seq<Candidate>, b: seq<Candidate>, refs: set<ContentRef>, s: SegmentName,
                                           pending: set<Name>)
    requires SameUnits(a, b)
    ensures SegmentOutput(a, refs, s, pending) == SegmentOutput(b, refs, s, pending)
    decreases |a|
  {
    if |a| > 0 {
      SameUnitsOutput(a[..|a| - 1], b[..|b| - 1], refs, s, pending);
    }
  }

  lemma {:induction false} OutputConcat(a: seq<Candidate>, b: seq<Candidate>, refs: set<ContentRef>, s: SegmentName,
                                        pending: set<Name>)
    ensures SegmentOutput(a + b, refs, s, pending) == SegmentOutput(a, refs, s, pending) + SegmentOutput(b, refs, s,
                                                                                                         pending)
    decreases |b|
  {
    if |b| == 0 {
      assert a + b == a;
      assert SegmentOutput(a, refs, s, pending) + [] == SegmentOutput(a, refs, s, pending);
    } else {
      var last := |b| - 1;
      var own := Contribution(b[last], refs, s, pending);
      assert (a + b)[..|a| + last] == a + b[..last] && (a + b)[|a| + last] == b[last];
      OutputConcat(a, b[..last], refs, s, pending);
      ConcatAssoc(SegmentOutput(a, refs, s, pending), SegmentOutput(b[..last], refs, s, pending), own);
    }
  }

  /** Units of one segment give their text to that segment and nothing to the others. */
  lemma {:induction false} PartOutput(part: seq<Candidate>, refs: set<ContentRef>, own: SegmentName, s: SegmentName,
                                      pending: set<Name>)
    requires forall k :: 0 <= k < |part| ==> part[k].segment == own
    ensures SegmentOutput(part, refs, s, pending) == if s == own then Settled(UnitText(part, refs), pending) else []
    decreases |part|
  {
    if |part| > 0 {
      var front, last := part[..|part| - 1], part[|part| - 1];
      PartOutput(front, refs, own, s, pending);
      SettledConcat(UnitText(front, refs), if last.ref in refs then last.messages else [], pending);
    }
  }

  /** Every part holds units of its own segment. */
  predicate OwnSegments(parts: seq<seq<Candidate>>, names: seq<SegmentName>) {
    && |parts| == |names|
    && forall k, j :: 0 <= k < |parts| && 0 <= j < |parts[k]| ==> parts[k][j].segment == names[k]
  }

  lemma {:induction false} OwnFront(parts: seq<seq<Candidate>>, names: seq<SegmentName>)
    requires OwnSegments(parts, names) && |parts| > 0
    ensures OwnSegments(parts[..|parts| - 1], names[..|parts| - 1])
  {
  }

  lemma {:induction false} LastOutput(parts: seq<seq<Candidate>>, names: seq<SegmentName>, refs: set<ContentRef>,
                                      s: SegmentName, pending: set<Name>)
    requires OwnSegments(parts, names) && |parts| > 0
    ensures var last := |parts| - 1;
            SegmentOutput(Concat(parts), refs, s, pending) ==
            SegmentOutput(Concat(parts[..last]), refs, s, pending) +
            if s == names[last] then Settled(UnitText(parts[last], refs), pending) else []
  {
    var last := |parts| - 1;
    PartOutput(parts[last], refs, names[last], s, pending);
    OutputConcat(Concat(parts[..last]), parts[last], refs, s, pending);
  }

  lemma {:induction false} NothingElsewhere(parts: seq<seq<Candidate>>, names: seq<SegmentName>, refs: set<ContentRef>,
                                            s: SegmentName, pending: set<Name>)
    requires OwnSegments(parts, names) && s !in names
    ensures SegmentOutput(Concat(parts), refs, s, pending) == []
    decreases |parts|
  {
    if |parts| > 0 {
      var last := |parts| - 1;
      LastOutput(parts, names, refs, s, pending);
      OwnFront(parts, names);
      NothingElsewhere(parts[..last], names[..last], refs, s, pending);
    }
  }

  lemma {:induction false} OutputOfPart(parts: seq<seq<Candidate>>, names: seq<SegmentName>, refs: set<ContentRef>,
                                        k: nat, pending: set<Name>)
    requires OwnSegments(parts, names) && Distinct(names) && k < |parts|
    ensures SegmentOutput(Concat(parts), refs, names[k], pending) == Settled(UnitText(parts[k], refs), pending)
    decreases |parts|
  {
    var last, own := |parts| - 1, Settled(UnitText(parts[k], refs), pending);
    LastOutput(parts, names, refs, names[k], pending);
    OwnFront(parts, names);
    if k < last {
      OutputOfPart(parts[..last], names[..last], refs, k, pending);
      assert own + [] == own;
    } else {
      NothingElsewhere(parts[..last], names[..last], refs, names[k], pending);
      assert [] + own == own;
    }
  }

  function Names(prepared: seq<Prepared>): (names: seq<SegmentName>)
    ensures |names| == |prepared| && forall k :: 0 <= k < |names| ==> names[k] == prepared[k].segment
  {
    seq(|prepared|, k requires 0 <= k < |prepared| => prepared[k].segment)
  }

  /** Segments are known and none comes twice. */
  predicate Apart(prepared: seq<Prepared>) {
    Distinct(Names(prepared)) && forall j :: 0 <= j < |prepared| ==> KnownSegment(prepared[j].segment)
  }

  lemma {:induction false} PartsOwn(sources: Sources, prepared: seq<Prepared>, parts: seq<seq<Candidate>>)
    requires sources.Lawful() && PartsAre(sources, prepared, parts) && Apart(prepared)
    ensures OwnSegments(parts, Names(prepared))
  {
    forall k | 0 <= k < |parts|
      ensures forall j :: 0 <= j < |parts[k]| ==> parts[k][j].segment == prepared[k].segment
    {
      PartWellFormed(sources, prepared[k], parts[k]);
    }
  }

  /** The output of a segment is the text of its own selected units, less the turn in progress. */
  lemma {:induction false} OutputIsText(sources: Sources, prepared: seq<Prepared>, parts: seq<seq<Candidate>>,
                                        candidates: seq<Candidate>, refs: set<ContentRef>, k: nat, pending: set<Name>)
    requires sources.Lawful() && PartsAre(sources, prepared, parts) && SameUnits(Concat(parts), candidates)
    requires k < |prepared| && Apart(prepared)
    ensures SegmentOutput(candidates, refs, prepared[k].segment, pending) == Settled(UnitText(parts[k], refs), pending)
  {
    PartsOwn(sources, prepared, parts);
    OutputOfPart(parts, Names(prepared), refs, k, pending);
    SameUnitsOutput(Concat(parts), candidates, refs, prepared[k].segment, pending);
  }

  // ---------------------------------------------------------------- units and their messages

  lemma {:induction false} InConcat(parts: seq<seq<Candidate>>, k: nat, j: nat) returns (i: nat)
    requires k < |parts| && j < |parts[k]|
    ensures i < |Concat(parts)| && Concat(parts)[i] == parts[k][j]
    decreases |parts|
  {
    var last := |parts| - 1;
    if k < last {
      i := InConcat(parts[..last], k, j);
    } else {
      i := |Concat(parts[..last])| + j;
    }
  }

  /** A unit required in its segment is admitted. */
  lemma {:induction false} RequiredAdmitted(parts: seq<seq<Candidate>>, candidates: seq<Candidate>,
                                            refs: set<ContentRef>, k: nat, j: nat)
    requires StillRequired(Concat(parts), candidates) && k < |parts| && j < |parts[k]| && parts[k][j].required
    requires forall i :: 0 <= i < |candidates| && candidates[i].required ==> candidates[i].ref in refs
    ensures parts[k][j].ref in refs
  {
    var i := InConcat(parts, k, j);
    assert candidates[i].required && candidates[i].ref == parts[k][j].ref;
  }

  /** Only messages with identities become units. */
  ghost predicate Naming(unit: Builder) {
    forall block: seq<Message>, required, x :: unit(block, required).Some? && 0 <= x < |block| ==>
        block[x].id != Anonymous
  }

  lemma NamedAt(unit: Builder, block: seq<Message>, required: bool, x: nat)
    requires Naming(unit) && unit(block, required).Some? && x < |block|
    ensures block[x].id != Anonymous
  {
  }

  lemma {:induction false} CutIsNamed(unit: Builder, part: seq<Candidate>, p: Prepared, i: nat, x: nat)
    requires Naming(unit) && p.Ready() && x < i <= |p.messages|
    requires CutEnd(unit, part, p.messages, p.rounds, p.required) == Some(i)
    ensures p.messages[x].id != Anonymous
    decreases |part|
  {
    var front := part[..|part| - 1];
    var j := CutEnd(unit, front, p.messages, p.rounds, p.required).value;
    if x < j {
      CutIsNamed(unit, front, p, j, x);
    } else {
      NamedAt(unit, p.messages[j..i], p.required[j], x - j);
    }
  }

  lemma {:induction false} BuilderNames(sources: Sources, segment: SegmentName)
    requires sources.Lawful()
    ensures Naming(UnitBuilder(sources, segment))
  {
    forall block: seq<Message>, required, x | UnitBuilder(sources, segment)(block, required).Some? && 0 <= x < |block|
      ensures block[x].id != Anonymous
    {
      BlockIsNamed(sources, block, segment, required, x);
    }
  }

  lemma {:induction false} BlockIsNamed(sources: Sources, block: seq<Message>, segment: SegmentName, required: bool,
                                        x: nat)
    requires sources.Lawful() && UnitOf(sources, block, segment, required).Some? && x < |block|
    ensures block[x].id != Anonymous
  {
    LawfulRefs(sources.ref, block);
    assert AllRefs(sources.ref, block).value[x].Valid();
  }

  // ---------------------------------------------------------------- the history and its turn

  /** The stored history is left as whole units in original order; with the turn in progress put back it is what was
      selected, and both are valid. `marks` also covers the round that begins in the history and ends in the turn. */
  ghost predicate LeavesUnits(stored: seq<Message>, turn: seq<Message>, marks: seq<bool>, out: seq<Message>) {
    && |marks| == |stored + turn| && Uniform(Split(stored + turn), marks)
    && (forall i :: |stored| <= i < |marks| ==> marks[i])
    && Same(out, Keep(stored, marks[..|stored|])) && Same(out + turn, Keep(stored + turn, marks))
    && Valid(out) && Valid(out + turn)
  }

  lemma {:induction false} KeepFront<T>(stored: seq<T>, turn: seq<T>, marks: seq<bool>)
    requires |marks| == |stored + turn| && forall i :: |stored| <= i < |marks| ==> marks[i]
    ensures Keep(stored + turn, marks) == Keep(stored, marks[..|stored|]) + turn
  {
    var n := |stored|;
    assert marks == marks[..n] + marks[n..];
    KeepConcat(stored, turn, marks[..n], marks[n..]);
    KeepAll(turn, marks[n..]);
  }

  lemma {:induction false} TurnTakenOut(stored: seq<Message>, turn: seq<Message>, marks: seq<bool>, kept: seq<Message>)
    requires UniqueIds(stored + turn) && |marks| == |stored| && Same(kept, Keep(stored, marks))
    requires forall i :: 0 <= i < |stored + turn| ==> (stored + turn)[i].id != Anonymous
    ensures Settled(kept + turn, TurnIds(turn)) == kept
  {
    var all, pending := stored + turn, TurnIds(turn);
    forall i | 0 <= i < |turn|
      ensures turn[i].id in pending
    {
      assert all[|stored| + i] == turn[i];
    }
    forall i | 0 <= i < |kept|
      ensures kept[i].id !in pending
    {
      var j := KeptFrom(stored, marks, i);
      assert all[j] == stored[j];
      NotInTurn(stored, turn, kept[i]);
    }
    SettledConcat(kept, turn, pending);
    SettledNone(kept, pending);
    SettledGone(turn, pending);
    assert kept + [] == kept;
  }

  lemma {:induction false} KeptFrom<T>(s: seq<T>, marks: seq<bool>, i: nat) returns (j: nat)
    requires |s| == |marks| && i < |Keep(s, marks)|
    ensures j < |s| && s[j] == Keep(s, marks)[i]
  {
    var at := KeepPlaced(s, marks);
    j := at[i];
  }

  lemma {:induction false} KeptOutside(messages: seq<Message>, marks: seq<bool>, text: seq<Message>, pending: set<Name>)
    requires |marks| == |messages| && Same(text, Keep(messages, marks))
    requires forall i :: 0 <= i < |messages| ==> messages[i].id !in pending
    ensures forall i :: 0 <= i < |text| ==> text[i].id !in pending
  {
    forall i | 0 <= i < |text|
      ensures text[i].id !in pending
    {
      var j := KeptFrom(messages, marks, i);
    }
  }

  lemma {:induction false} NotInTurn(stored: seq<Message>, turn: seq<Message>, m: Message)
    requires UniqueIds(stored + turn) && m in stored && m.id != Anonymous
    ensures m.id !in TurnIds(turn)
  {
    var all := stored + turn;
    var i :| 0 <= i < |stored| && stored[i] == m;
    assert all[i] == m;
    forall j | 0 <= j < |turn|
      ensures turn[j].id != m.id
    {
      assert all[|stored| + j] == turn[j];
    }
  }

  /** Selection with a turn in progress. */
  lemma {:induction false} HistoryKeepsUnits(sources: Sources, prepared: seq<Prepared>, parts: seq<seq<Candidate>>,
                                             candidates: seq<Candidate>, refs: set<ContentRef>, k: nat,
                                             stored: seq<Message>, turn: seq<Message>, pipe: Option<Pipe>)
    returns (marks: seq<bool>)
    requires sources.Lawful() && PartsAre(sources, prepared, parts) && StillRequired(Concat(parts), candidates)
    requires k < |prepared| && Apart(prepared) && UniqueIds(stored + turn)
    requires PreparedOf(prepared[k], HistorySegment, stored + turn, |turn|, pipe)
    requires forall i :: 0 <= i < |candidates| && candidates[i].required ==> candidates[i].ref in refs
    ensures LeavesUnits(stored, turn, marks, SegmentOutput(candidates, refs, HistorySegment, TurnIds(turn)))
  {
    var p, part, pending := prepared[k], parts[k], TurnIds(turn);
    var n, all, unit := |stored|, stored + turn, UnitBuilder(sources, HistorySegment);
    UnitBuilderFaithful(sources, HistorySegment);
    marks := UnitMarks(part, refs);
    SelectedHistoryIsValid(unit, part, all, p.required, refs);
    TurnIsRequired(p.required, pipe, all, p.rounds, n);
    forall j | 0 <= j < |part| && part[j].required
      ensures part[j].ref in refs
    {
      RequiredAdmitted(parts, candidates, refs, k, j);
    }
    forall x | n <= x < |all|
      ensures marks[x]
    {
      RequiredMarked(unit, part, all, p.rounds, p.required, |all|, refs, x);
    }
    BuilderNames(sources, HistorySegment);
    forall x | 0 <= x < |all|
      ensures all[x].id != Anonymous
    {
      CutIsNamed(unit, part, p, |all|, x);
    }
    var kept := Keep(stored, marks[..n]);
    KeepFront(stored, turn, marks);
    TurnTakenOut(stored, turn, marks[..n], kept);
    OutputIsText(sources, prepared, parts, candidates, refs, k, pending);
    PrefixIsValid(kept + turn, |kept|);
    assert (kept + turn)[..|kept|] == kept;
  }

  /** Any other segment is left as whole units in original order: no round is divided, and a valid history stays one. */
  ghost predicate LeavesSegment(p: Prepared, marks: seq<bool>, out: seq<Message>) {
    && |marks| == |p.messages| && RoundsUniform(p.rounds, marks) && Same(out, Keep(p.messages, marks))
    && (Valid(p.messages) && p.rounds == Inspect(p.messages, map[]).rounds ==> Valid(out))
  }

  lemma {:induction false} SegmentKeepsUnits(sources: Sources, prepared: seq<Prepared>, parts: seq<seq<Candidate>>,
                                             candidates: seq<Candidate>, refs: set<ContentRef>, k: nat,
                                             pending: set<Name>)
    returns (marks: seq<bool>)
    requires sources.Lawful() && PartsAre(sources, prepared, parts) && StillRequired(Concat(parts), candidates)
    requires k < |prepared| && Apart(prepared)
    requires forall i :: 0 <= i < |prepared[k].messages| ==> prepared[k].messages[i].id !in pending
    ensures LeavesSegment(prepared[k], marks, SegmentOutput(candidates, refs, prepared[k].segment, pending))
  {
    var p, part := prepared[k], parts[k];
    var unit := UnitBuilder(sources, p.segment);
    UnitBuilderFaithful(sources, p.segment);
    marks := UnitMarks(part, refs);
    CutText(unit, part, p.messages, p.rounds, p.required, |p.messages|, refs);
    assert p.messages[..|p.messages|] == p.messages;
    var text := UnitText(part, refs);
    KeptOutside(p.messages, marks, text, pending);
    SettledNone(text, pending);
    OutputIsText(sources, prepared, parts, candidates, refs, k, pending);
    if Valid(p.messages) && p.rounds == Inspect(p.messages, map[]).rounds {
      SelectedHistoryIsValid(unit, part, p.messages, p.required, refs);
    }
  }
}
