/** Cutting a segment into candidates (selection.go). */
module SelectionUnits {
  import opened Results
  import opened Sequences
  import opened Messages
  import opened Rounds
  import opened Layouts
  import opened RoundIndex
  import opened Selection
  import Plans

  /** References of messages, of the tool parts of messages, and what the artifact policy attaches to a unit. An
      artifact is found by the identity of the message that shows it, and its digest is that of another wire form. */
  datatype Sources = Sources(
    ref: Message -> Option<ContentRef>, roundRef: Message -> Option<ContentRef>, artifact: Message -> Attachment)
  {
    ghost predicate Lawful() {
      && (forall m :: ref(m).Some? ==> ref(m).value.id == m.id && ref(m).value.Valid())
      && (forall m :: roundRef(m).Some? ==> roundRef(m).value.id == m.id && roundRef(m).value.Valid())
      && (forall m :: artifact(m).Attached? ==> artifact(m).ref.Valid())
      && (forall m, n :: artifact(m).Attached? && artifact(n).Attached? && artifact(m).ref == artifact(n).ref ==>
            m.id == n.id)
      && (forall m, n :: artifact(m).Attached? && ref(n).Some? ==> artifact(m).ref != ref(n).value)
    }
  }

  datatype Attachment = NoArtifact | Attached(ref: ContentRef, local: Local) | BadArtifact

  // ---------------------------------------------------------------- references

  /** The references of all messages, or nothing if one has none. */
  function AllRefs(f: Message -> Option<ContentRef>, messages: seq<Message>): Option<seq<ContentRef>> {
    if |messages| == 0 then Some([])
    else
      var last := |messages| - 1;
      var front := AllRefs(f, messages[..last]);
      if front.None? || f(messages[last]).None? then None else Some(front.value + [f(messages[last]).value])
  }

  lemma {:induction false} AllRefsAre(f: Message -> Option<ContentRef>, messages: seq<Message>)
    ensures AllRefs(f, messages).Some? ==>
              var refs := AllRefs(f, messages).value;
              |refs| == |messages| && forall k :: 0 <= k < |refs| ==> f(messages[k]) == Some(refs[k])
  {
    if |messages| > 0 {
      AllRefsAre(f, messages[..|messages| - 1]);
    }
  }

  lemma {:induction false} AllRefsFail(f: Message -> Option<ContentRef>, messages: seq<Message>, k: nat)
    requires k <= |messages| && AllRefs(f, messages[..k]).None?
    ensures AllRefs(f, messages).None?
    decreases |messages|
  {
    if k < |messages| {
      assert messages[..|messages| - 1][..k] == messages[..k];
      AllRefsFail(f, messages[..|messages| - 1], k);
    } else {
      assert messages[..k] == messages;
    }
  }

  method CollectAll(f: Message -> Option<ContentRef>, messages: seq<Message>) returns (refs: Option<seq<ContentRef>>)
    ensures refs == AllRefs(f, messages)
  {
    var out: seq<ContentRef> := [];
    for k := 0 to |messages|
      invariant AllRefs(f, messages[..k]) == Some(out)
    {
      assert messages[..k + 1][..k] == messages[..k];
      var ref := f(messages[k]);
      if ref.None? {
        AllRefsFail(f, messages, k + 1);
        return None;
      }
      out := out + [ref.value];
    }
    assert messages[..|messages|] == messages;
    refs := Some(out);
  }

  predicate HasRoundParts(messages: seq<Message>) {
    exists k :: 0 <= k < |messages| && (|messages[k].calls| > 0 || |messages[k].results| > 0)
  }

  method FindRoundParts(messages: seq<Message>) returns (found: bool)
    ensures found <==> HasRoundParts(messages)
  {
    for k := 0 to |messages|
      invariant forall j :: 0 <= j < k ==> |messages[j].calls| == 0 && |messages[j].results| == 0
    {
      if |messages[k].calls| > 0 || |messages[k].results| > 0 {
        return true;
      }
    }
    found := false;
  }

  // ---------------------------------------------------------------- one unit

  /** The candidate made of a block of messages: it addresses the first message, or the artifact attached to it. */
  function UnitOf(sources: Sources, block: seq<Message>, segment: SegmentName, required: bool): Option<Candidate> {
    var members := AllRefs(sources.ref, block);
    var tools := if HasRoundParts(block) then AllRefs(sources.roundRef, block) else Some([]);
    if members.None? || |members.value| == 0 || tools.None? then None
    else match sources.artifact(block[0])
      case NoArtifact => Some(Candidate(members.value[0], members.value, tools.value, segment, block, required, 0,
                                        Eligible))
      case Attached(ref, local) => Some(Candidate(ref, members.value, tools.value, segment, block, required, 0, local))
      case BadArtifact => None
  }

  method BuildUnit(sources: Sources, block: seq<Message>, segment: SegmentName, required: bool)
    returns (c: Option<Candidate>)
    requires |block| > 0
    ensures c == UnitOf(sources, block, segment, required)
  {
    var members := CollectAll(sources.ref, block);
    if members.None? {
      return None;
    }
    AllRefsAre(sources.ref, block);
    var roundMembers: seq<ContentRef> := [];
    var tools := FindRoundParts(block);
    if tools {
      var found := CollectAll(sources.roundRef, block);
      if found.None? {
        return None;
      }
      roundMembers := found.value;
    }
    match sources.artifact(block[0])
    case NoArtifact =>
      c := Some(Candidate(members.value[0], members.value, roundMembers, segment, block, required, 0, Eligible));
    case Attached(ref, local) =>
      c := Some(Candidate(ref, members.value, roundMembers, segment, block, required, 0, local));
    case BadArtifact =>
      c := None;
  }

  // ---------------------------------------------------------------- the cut

  /** Where the unit that starts at `i` ends: at the end of the round that starts there, or at once. */
  function EndAt(rounds: seq<Observation>, i: nat): nat {
    if |rounds| == 0 then i
    else if rounds[|rounds| - 1].start == i then rounds[|rounds| - 1].end
    else EndAt(rounds[..|rounds| - 1], i)
  }

  /** How a block of messages becomes a candidate, required or not. */
  type Builder = (seq<Message>, bool) -> Option<Candidate>

  function UnitBuilder(sources: Sources, segment: SegmentName): Builder {
    (block, required) => UnitOf(sources, block, segment, required)
  }

  /** A candidate carries exactly its block and its mark. */
  ghost predicate Faithful(unit: Builder) {
    forall block, required :: unit(block, required).Some? ==>
      unit(block, required).value.messages == block && unit(block, required).value.required == required
  }

  lemma FaithfulAt(unit: Builder, block: seq<Message>, required: bool, c: Candidate)
    requires Faithful(unit) && unit(block, required) == Some(c)
    ensures c.messages == block && c.required == required
  {
  }

  lemma UnitBuilderFaithful(sources: Sources, segment: SegmentName)
    ensures Faithful(UnitBuilder(sources, segment))
  {
  }

  /** How far the candidates, one after the other, are exactly the units of the messages; nothing if one is not. */
  function CutEnd(unit: Builder, candidates: seq<Candidate>, messages: seq<Message>, rounds: seq<Observation>,
                  required: seq<bool>): Option<nat>
    requires |required| == |messages|
    decreases |candidates|
  {
    if |candidates| == 0 then Some(0)
    else
      var last := |candidates| - 1;
      var at := CutEnd(unit, candidates[..last], messages, rounds, required);
      if at.None? || !(at.value <= EndAt(rounds, at.value) < |messages|) then None
      else
        var end := EndAt(rounds, at.value) + 1;
        if unit(messages[at.value..end], required[at.value]) == Some(candidates[last]) then Some(end) else None
  }

  method BuildEnds(rounds: seq<Observation>) returns (ends: map<nat, nat>)
    ensures forall i: nat :: EndAt(rounds, i) == if i in ends then ends[i] else i
  {
    ends := map[];
    for k := 0 to |rounds|
      invariant forall i: nat :: EndAt(rounds[..k], i) == if i in ends then ends[i] else i
    {
      assert rounds[..k + 1][..k] == rounds[..k] && rounds[..k + 1][k] == rounds[k];
      ends := ends[rounds[k].start := rounds[k].end];
    }
    assert rounds[..|rounds|] == rounds;
  }

  lemma {:induction false} EndInside(rounds: seq<Observation>, count: nat, i: nat)
    requires Ordered(rounds, count) && i < count
    ensures i <= EndAt(rounds, i) < count
    decreases |rounds|
  {
    if |rounds| > 0 {
      EndInside(rounds[..|rounds| - 1], count, i);
    }
  }

  lemma {:induction false} CutsSnoc(unit: Builder, candidates: seq<Candidate>, messages: seq<Message>,
                                    rounds: seq<Observation>,
                 required: seq<bool>, i: nat, c: Candidate)
    requires |required| == |messages| && i < |messages| && i <= EndAt(rounds, i) < |messages|
    requires CutEnd(unit, candidates, messages, rounds, required) == Some(i)
    requires unit(messages[i..EndAt(rounds, i) + 1], required[i]) == Some(c)
    ensures CutEnd(unit, candidates + [c], messages, rounds, required) == Some(EndAt(rounds, i) + 1)
  {
    var more := candidates + [c];
    assert more[..|more| - 1] == candidates && more[|more| - 1] == c;
  }

  /** The units from position `i` on; nothing if one of them cannot be built. */
  function UnitsFrom(unit: Builder, messages: seq<Message>, rounds: seq<Observation>, required: seq<bool>,
                     i: nat): Option<seq<Candidate>>
    requires |required| == |messages| && i <= |messages|
    decreases |messages| - i
  {
    if i == |messages| then Some([])
    else if !(i <= EndAt(rounds, i) < |messages|) then None
    else Before(unit(messages[i..EndAt(rounds, i) + 1], required[i]),
                UnitsFrom(unit, messages, rounds, required, EndAt(rounds, i) + 1))
  }

  function Before(c: Option<Candidate>, rest: Option<seq<Candidate>>): Option<seq<Candidate>> {
    if c.None? || rest.None? then None else Some([c.value] + rest.value)
  }

  function After(front: seq<Candidate>, rest: Option<seq<Candidate>>): Option<seq<Candidate>> {
    if rest.None? then None else Some(front + rest.value)
  }

  lemma {:induction false} AfterBefore(front: seq<Candidate>, c: Candidate, rest: Option<seq<Candidate>>)
    ensures After(front, Before(Some(c), rest)) == After(front + [c], rest)
  {
    if rest.Some? {
      ConcatAssoc(front, [c], rest.value);
    }
  }

  lemma {:induction false} AfterNothing(rest: Option<seq<Candidate>>)
    ensures After([], rest) == rest
  {
    if rest.Some? {
      assert [] + rest.value == rest.value;
    }
  }

  lemma {:induction false} NextUnit(unit: Builder, front: seq<Candidate>, messages: seq<Message>,
                                    rounds: seq<Observation>, required: seq<bool>, i: nat, c: Candidate)
    requires |required| == |messages| && i < |messages| && i <= EndAt(rounds, i) < |messages|
    requires unit(messages[i..EndAt(rounds, i) + 1], required[i]) == Some(c)
    ensures After(front, UnitsFrom(unit, messages, rounds, required, i)) ==
            After(front + [c], UnitsFrom(unit, messages, rounds, required, EndAt(rounds, i) + 1))
  {
    AfterBefore(front, c, UnitsFrom(unit, messages, rounds, required, EndAt(rounds, i) + 1));
  }

  method SegmentCandidates(unit: Builder, messages: seq<Message>, rounds: seq<Observation>, required: seq<bool>)
    returns (r: Option<seq<Candidate>>)
    requires |required| == |messages| && Ordered(rounds, |messages|)
    ensures r == UnitsFrom(unit, messages, rounds, required, 0)
    ensures r.Some? ==> CutEnd(unit, r.value, messages, rounds, required) == Some(|messages|)
  {
    var ends := BuildEnds(rounds);
    var candidates: seq<Candidate> := [];
    var i: nat := 0;
    ghost var all := UnitsFrom(unit, messages, rounds, required, 0);
    AfterNothing(all);
    while i < |messages|
      invariant i <= |messages| && CutEnd(unit, candidates, messages, rounds, required) == Some(i)
      invariant all == After(candidates, UnitsFrom(unit, messages, rounds, required, i))
    {
      EndInside(rounds, |messages|, i);
      var end := if i in ends then ends[i] else i;
      var c := unit(messages[i..end + 1], required[i]);
      if c.None? {
        return None;
      }
      CutsSnoc(unit, candidates, messages, rounds, required, i, c.value);
      NextUnit(unit, candidates, messages, rounds, required, i, c.value);
      candidates, i := candidates + [c.value], end + 1;
    }
    assert candidates + [] == candidates;
    r := Some(candidates);
  }

  // ---------------------------------------------------------------- selected units are whole units

  /** One mark per message: whether its unit is selected. */
  function UnitMarks(candidates: seq<Candidate>, refs: set<ContentRef>): seq<bool> {
    if |candidates| == 0 then []
    else
      var last := candidates[|candidates| - 1];
      UnitMarks(candidates[..|candidates| - 1], refs) + Plans.Repeat(last.ref in refs, |last.messages|)
  }

  /** The messages of the selected units, in order. */
  function UnitText(candidates: seq<Candidate>, refs: set<ContentRef>): seq<Message> {
    if |candidates| == 0 then []
    else
      var last := candidates[|candidates| - 1];
      UnitText(candidates[..|candidates| - 1], refs) + if last.ref in refs then last.messages else []
  }

  lemma {:induction false} EndOfRound(rounds: seq<Observation>, count: nat, k: nat)
    requires Ordered(rounds, count) && k < |rounds|
    ensures EndAt(rounds, rounds[k].start) == rounds[k].end
    decreases |rounds|
  {
    if k < |rounds| - 1 {
      EndOfRound(rounds[..|rounds| - 1], count, k);
    }
  }

  lemma {:induction false} EndIsRound(rounds: seq<Observation>, i: nat)
    ensures EndAt(rounds, i) == i || exists k :: 0 <= k < |rounds| && rounds[k].start == i
                                                 && rounds[k].end == EndAt(rounds, i)
    decreases |rounds|
  {
    if |rounds| > 0 && rounds[|rounds| - 1].start != i {
      EndIsRound(rounds[..|rounds| - 1], i);
    }
  }

  /** Between two cuts there is one whole round or one message outside all rounds. */
  lemma {:induction false} NextCut(rounds: seq<Observation>, count: nat, j: nat, i: nat, k: nat)
    requires Ordered(rounds, count) && Unsplit(rounds, j) && EndAt(rounds, j) + 1 == i && j < i && k < |rounds|
    ensures rounds[k].end < j || i <= rounds[k].start || (rounds[k].start == j && rounds[k].end + 1 == i)
  {
    EndOfRound(rounds, count, k);
    EndIsRound(rounds, j);
  }

  lemma {:induction false} CutIsUnsplit(rounds: seq<Observation>, count: nat, j: nat, i: nat)
    requires Ordered(rounds, count) && Unsplit(rounds, j) && EndAt(rounds, j) + 1 == i && j < i
    ensures Unsplit(rounds, i)
  {
    forall k | 0 <= k < |rounds|
      ensures !(rounds[k].start < i <= rounds[k].end)
    {
      NextCut(rounds, count, j, i, k);
    }
  }

  /** Marks are constant on every round that ends before `i`. */
  predicate ConstantBefore(rounds: seq<Observation>, marks: seq<bool>, i: nat) {
    forall k, x :: 0 <= k < |rounds| && rounds[k].start <= x <= rounds[k].end < i <= |marks| ==>
      marks[x] == marks[rounds[k].start]
  }

  lemma {:induction false} ConstantNext(rounds: seq<Observation>, count: nat, before: seq<bool>, b: bool, j: nat,
                                        i: nat)
    requires Ordered(rounds, count) && Unsplit(rounds, j) && EndAt(rounds, j) + 1 == i && j < i && |before| == j
    requires ConstantBefore(rounds, before, j)
    ensures ConstantBefore(rounds, before + Plans.Repeat(b, i - j), i)
  {
    var marks := before + Plans.Repeat(b, i - j);
    forall k, x | 0 <= k < |rounds| && rounds[k].start <= x <= rounds[k].end < i <= |marks|
      ensures marks[x] == marks[rounds[k].start]
    {
      NextCut(rounds, count, j, i, k);
      if rounds[k].end < j {
        assert before[x] == before[rounds[k].start];
      }
    }
  }

  lemma {:induction false} KeepBlockEnd<T>(s: seq<T>, before: seq<bool>, b: bool, j: nat, i: nat)
    requires |before| == j <= i <= |s|
    ensures Keep(s[..i], before + Plans.Repeat(b, i - j)) == Keep(s[..j], before) + if b then s[j..i] else []
  {
    var block, flags := s[j..i], Plans.Repeat(b, i - j);
    assert s[..i] == s[..j] + block;
    KeepConcat(s[..j], block, before, flags);
    if b {
      KeepAll(block, flags);
    } else {
      KeepNone(block, flags);
    }
  }

  lemma {:induction false} CutTextStep(rounds: seq<Observation>, messages: seq<Message>, text: seq<Message>,
                                       marks: seq<bool>, b: bool, j: nat, i: nat)
    requires Ordered(rounds, |messages|) && Unsplit(rounds, j) && EndAt(rounds, j) + 1 == i && j < i <= |messages|
    requires |marks| == j && ConstantBefore(rounds, marks, j) && Same(text, Keep(messages[..j], marks))
    ensures var more := marks + Plans.Repeat(b, i - j);
            && Same(text + (if b then messages[j..i] else []), Keep(messages[..i], more))
            && Unsplit(rounds, i) && ConstantBefore(rounds, more, i)
  {
    CutIsUnsplit(rounds, |messages|, j, i);
    ConstantNext(rounds, |messages|, marks, b, j, i);
    KeepBlockEnd(messages, marks, b, j, i);
  }

  /** What the units selected from a cut segment are: the marked messages, with no round divided. */
  lemma {:induction false} CutText(unit: Builder, candidates: seq<Candidate>, messages: seq<Message>,
                                   rounds: seq<Observation>, required: seq<bool>, i: nat, refs: set<ContentRef>)
    requires |required| == |messages| && Ordered(rounds, |messages|) && i <= |messages| && Faithful(unit)
    requires CutEnd(unit, candidates, messages, rounds, required) == Some(i)
    ensures |UnitMarks(candidates, refs)| == i
    ensures Same(UnitText(candidates, refs), Keep(messages[..i], UnitMarks(candidates, refs)))
    ensures Unsplit(rounds, i) && ConstantBefore(rounds, UnitMarks(candidates, refs), i)
    decreases |candidates|
  {
    if |candidates| > 0 {
      var front, last := candidates[..|candidates| - 1], candidates[|candidates| - 1];
      var j := CutEnd(unit, front, messages, rounds, required).value;
      CutText(unit, front, messages, rounds, required, j, refs);
      FaithfulAt(unit, messages[j..i], required[j], last);
      CutTextStep(rounds, messages, UnitText(front, refs), UnitMarks(front, refs), last.ref in refs, j, i);
      UnitTextLast(candidates, refs, messages, j, i);
    }
  }

  lemma {:induction false} UnitTextLast(candidates: seq<Candidate>, refs: set<ContentRef>, messages: seq<Message>,
                                        j: nat, i: nat)
    requires |candidates| > 0 && j <= i <= |messages| && candidates[|candidates| - 1].messages == messages[j..i]
    ensures var front, last := candidates[..|candidates| - 1], candidates[|candidates| - 1];
            && Same(UnitText(candidates, refs), UnitText(front, refs) + if last.ref in refs then messages[j..i] else [])
            && Same(UnitMarks(candidates, refs), UnitMarks(front, refs) + Plans.Repeat(last.ref in refs, i - j))
  {
  }

  /** Marks are constant on the rounds of a cut segment, so a required message is in a required unit. */
  lemma {:induction false} RequiredUnit(rounds: seq<Observation>, count: nat, required: seq<bool>, j: nat, x: nat)
    requires Ordered(rounds, count) && |required| == count && RoundsUniform(rounds, required)
    requires j <= x <= EndAt(rounds, j) < count && required[x]
    ensures required[j]
  {
    EndIsRound(rounds, j);
  }

  /** If every required unit is selected, every required message is kept. */
  lemma {:induction false} RequiredMarked(unit: Builder, candidates: seq<Candidate>, messages: seq<Message>,
                                          rounds: seq<Observation>, required: seq<bool>, i: nat, refs: set<ContentRef>,
                                          x: nat)
    requires |required| == |messages| && Ordered(rounds, |messages|) && x < i <= |messages| && Faithful(unit)
    requires RoundsUniform(rounds, required) && required[x]
    requires CutEnd(unit, candidates, messages, rounds, required) == Some(i)
    requires forall k :: 0 <= k < |candidates| && candidates[k].required ==> candidates[k].ref in refs
    ensures |UnitMarks(candidates, refs)| == i && UnitMarks(candidates, refs)[x]
    decreases |candidates|
  {
    var front, last := candidates[..|candidates| - 1], candidates[|candidates| - 1];
    var j := CutEnd(unit, front, messages, rounds, required).value;
    CutText(unit, candidates, messages, rounds, required, i, refs);
    CutText(unit, front, messages, rounds, required, j, refs);
    FaithfulAt(unit, messages[j..i], required[j], last);
    if x < j {
      RequiredMarked(unit, front, messages, rounds, required, j, refs, x);
    } else {
      RequiredUnit(rounds, |messages|, required, j, x);
    }
  }

  /** Whatever units of a valid history are selected, they are whole units in their original order, so what is
      selected is a valid history with its rounds untouched. */
  lemma {:induction false} SelectedHistoryIsValid(unit: Builder, candidates: seq<Candidate>, messages: seq<Message>,
                                                  required: seq<bool>, refs: set<ContentRef>)
    requires |required| == |messages| && Valid(messages) && Faithful(unit)
    requires CutEnd(unit, candidates, messages, Inspect(messages, map[]).rounds, required) == Some(|messages|)
    ensures var marks := UnitMarks(candidates, refs);
            && Uniform(Split(messages), marks) && |marks| == |messages|
            && UnitText(candidates, refs) == Keep(messages, marks)
            && Valid(UnitText(candidates, refs))
  {
    var rounds, marks := Inspect(messages, map[]).rounds, UnitMarks(candidates, refs);
    RoundsPartition(messages);
    CutText(unit, candidates, messages, rounds, required, |messages|, refs);
    assert messages[..|messages|] == messages;
    UniformOfRounds(messages, marks);
    DroppingUnitsKeepsRounds(messages, marks);
  }
}
