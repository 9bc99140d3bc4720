/** What selection prepares of each segment: its rounds and the messages that must stay (selection.go). */
module SelectionInputs {
  import opened Results
  import opened Sequences
  import opened Messages
  import opened Rounds
  import opened Layouts
  import opened RoundIndex
  import opened Retention
  import opened Selection
  import opened SelectionUnits

  /** A segment with its rounds and the marks of what must stay. */
  datatype Prepared = Prepared(segment: SegmentName, messages: seq<Message>, rounds: seq<Observation>,
                               required: seq<bool>) {
    predicate Ready() {
      |required| == |messages| && Ordered(rounds, |messages|)
    }
  }

  /** The part of a budget pipeline that selection asks. */
  datatype Pipe = Pipe(retention: RetentionPolicy, codec: Codec, rolling: Option<nat>)

  // ---------------------------------------------------------------- rounds

  function Moved(o: Observation, n: nat): Observation {
    o.(start := o.start + n, end := o.end + n)
  }

  function MovedAll(rounds: seq<Observation>, n: nat): (out: seq<Observation>)
    ensures |out| == |rounds| && forall k :: 0 <= k < |out| ==> out[k] == Moved(rounds[k], n)
  {
    seq(|rounds|, k requires 0 <= k < |rounds| => Moved(rounds[k], n))
  }

  /** Outside the history every call message opens a block of its own, inspected by itself. */
  function RoundsFrom(messages: seq<Message>, i: nat): Option<seq<Observation>>
    requires i <= |messages|
    decreases |messages| - i
  {
    if i == |messages| then Some([])
    else if |messages[i].results| > 0 then None
    else if !messages[i].HasToolCalls() then RoundsFrom(messages, i + 1)
    else
      var end := ToolRun(messages, i + 1);
      var block, rest := Inspect(messages[i..end], map[]), RoundsFrom(messages, end);
      if block.Rejected? || rest.None? then None else Some(MovedAll(block.rounds, i) + rest.value)
  }

  function SegmentRounds(segment: SegmentName, messages: seq<Message>): Option<seq<Observation>> {
    if segment.HistorySegment? then
      var inspection := Inspect(messages, map[]);
      if inspection.Rejected? then None else Some(inspection.rounds)
    else RoundsFrom(messages, 0)
  }

  ghost predicate From(rounds: seq<Observation>, i: nat) {
    forall k :: 0 <= k < |rounds| ==> i <= rounds[k].start
  }

  lemma {:induction false} OrderedConcat(a: seq<Observation>, b: seq<Observation>, count: nat, n: nat)
    requires Ordered(a, count) && Ordered(b, count) && From(b, n) && forall k :: 0 <= k < |a| ==> a[k].end < n
    ensures Ordered(a + b, count)
  {
    var c := a + b;
    assert forall k :: 0 <= k < |a| ==> c[k] == a[k];
    assert forall k :: 0 <= k < |b| ==> c[|a| + k] == b[k];
    forall k, l | 0 <= k < l < |c|
      ensures c[k].end < c[l].start
    {
      if k < |a| <= l {
        assert c[k] == a[k] && c[l] == b[l - |a|];
      } else if |a| <= k {
        assert c[k] == b[k - |a|] && c[l] == b[l - |a|];
      }
    }
  }

  lemma {:induction false} BlockRounds(messages: seq<Message>, i: nat, end: nat)
    requires i <= end <= |messages| && Inspect(messages[i..end], map[]).Inspected?
    ensures var rounds := MovedAll(Inspect(messages[i..end], map[]).rounds, i);
            && Ordered(rounds, |messages|) && From(rounds, i)
            && forall k :: 0 <= k < |rounds| ==> rounds[k].end < end
  {
    RoundsPartition(messages[i..end]);
  }

  lemma {:induction false} RoundsFromOrdered(messages: seq<Message>, i: nat)
    requires i <= |messages| && RoundsFrom(messages, i).Some?
    ensures Ordered(RoundsFrom(messages, i).value, |messages|) && From(RoundsFrom(messages, i).value, i)
    decreases |messages| - i
  {
    if i < |messages| {
      if !messages[i].HasToolCalls() {
        RoundsFromOrdered(messages, i + 1);
      } else {
        var end := ToolRun(messages, i + 1);
        RoundsFromOrdered(messages, end);
        BlockRounds(messages, i, end);
        OrderedConcat(MovedAll(Inspect(messages[i..end], map[]).rounds, i), RoundsFrom(messages, end).value, |messages|,
                      end);
      }
    }
  }

  lemma {:induction false} SegmentRoundsOrdered(segment: SegmentName, messages: seq<Message>)
    requires SegmentRounds(segment, messages).Some?
    ensures Ordered(SegmentRounds(segment, messages).value, |messages|)
  {
    if segment.HistorySegment? {
      RoundsPartition(messages);
    } else {
      RoundsFromOrdered(messages, 0);
    }
  }

  function Ahead(done: seq<Observation>, rest: Option<seq<Observation>>): Option<seq<Observation>> {
    if rest.None? then None else Some(done + rest.value)
  }

  lemma {:induction false} AheadNothing(rest: Option<seq<Observation>>)
    ensures Ahead([], rest) == rest
  {
    if rest.Some? {
      assert [] + rest.value == rest.value;
    }
  }

  lemma {:induction false} AheadMore(done: seq<Observation>, own: seq<Observation>, rest: Option<seq<Observation>>)
    ensures Ahead(done, Ahead(own, rest)) == Ahead(done + own, rest)
  {
    if rest.Some? {
      ConcatAssoc(done, own, rest.value);
    }
  }

  method SegmentToolRounds(segment: SegmentName, messages: seq<Message>) returns (r: Option<seq<Observation>>)
    ensures r == SegmentRounds(segment, messages)
  {
    if segment.HistorySegment? {
      var inspection := InspectToolRoundStates(messages, map[]);
      return if inspection.Rejected? then None else Some(inspection.rounds);
    }
    var rounds: seq<Observation>, i: nat := [], 0;
    ghost var all := RoundsFrom(messages, 0);
    AheadNothing(all);
    while i < |messages|
      invariant i <= |messages| && all == Ahead(rounds, RoundsFrom(messages, i))
    {
      if |messages[i].results| > 0 {
        return None;
      }
      if !messages[i].HasToolCalls() {
        i := i + 1;
        continue;
      }
      var end := ToolRun(messages, i + 1);
      var block := InspectToolRoundStates(messages[i..end], map[]);
      if block.Rejected? {
        return None;
      }
      AheadMore(rounds, MovedAll(block.rounds, i), RoundsFrom(messages, end));
      rounds, i := rounds + MovedAll(block.rounds, i), end;
    }
    assert rounds + [] == rounds;
    r := Some(rounds);
  }

  // ---------------------------------------------------------------- what must stay

  /** The marks of the history before its turn in progress is marked. */
  ghost predicate Stays(pipe: Option<Pipe>, messages: seq<Message>, rounds: seq<Observation>, i: nat)
    requires i < |messages|
  {
    if pipe.None? then SuffixStart(|messages|, rounds, None) <= i
    else
      || RequiredAt(WantedMarks(pipe.value.retention, pipe.value.codec, messages), rounds, i)
      || SuffixStart(|messages|, rounds, pipe.value.rolling) <= i
  }

  /** `required` is what retention, the protected suffix and the turn from `turn` on leave, whole rounds together. */
  ghost predicate HistoryMarks(required: seq<bool>, pipe: Option<Pipe>, messages: seq<Message>,
                               rounds: seq<Observation>, turn: nat) {
    && |required| == |messages|
    && exists base: seq<bool> :: BaseMarks(base, pipe, messages, rounds, turn) && Expanded(required, base, rounds)
  }

  ghost predicate BaseMarks(base: seq<bool>, pipe: Option<Pipe>, messages: seq<Message>, rounds: seq<Observation>,
                            turn: nat) {
    |base| == |messages| && forall i :: 0 <= i < |base| ==> base[i] == (Stays(pipe, messages, rounds, i) || turn <= i)
  }

  ghost predicate Expanded(required: seq<bool>, base: seq<bool>, rounds: seq<Observation>) {
    |required| == |base| && forall i :: 0 <= i < |required| ==> required[i] == RequiredAt(base, rounds, i)
  }

  lemma {:induction false} ExpandedUniform(required: seq<bool>, base: seq<bool>, rounds: seq<Observation>)
    requires Expanded(required, base, rounds) && Ordered(rounds, |required|)
    ensures RoundsUniform(rounds, required) && forall i :: 0 <= i < |base| && base[i] ==> required[i]
  {
    forall k, i | 0 <= k < |rounds| && rounds[k].start <= i <= rounds[k].end < |required|
      ensures required[i] == required[rounds[k].start]
    {
      RequiredIsTouched(base, rounds, k, i);
      RequiredIsTouched(base, rounds, k, rounds[k].start);
    }
  }

  /** The turn in progress must stay, and no round is partly required. */
  lemma {:induction false} TurnIsRequired(required: seq<bool>, pipe: Option<Pipe>, messages: seq<Message>,
                                          rounds: seq<Observation>, turn: nat)
    requires HistoryMarks(required, pipe, messages, rounds, turn) && Ordered(rounds, |messages|)
    ensures RoundsUniform(rounds, required) && forall i :: turn <= i < |required| ==> required[i]
  {
    var base: seq<bool> :| BaseMarks(base, pipe, messages, rounds, turn) && Expanded(required, base, rounds);
    ExpandedUniform(required, base, rounds);
  }

  predicate Preparable(segment: SegmentName, messages: seq<Message>, pipe: Option<Pipe>) {
    if segment.HistorySegment? then
      Valid(messages) && (pipe.Some? ==> Resolvable(pipe.value.retention, pipe.value.codec, messages))
    else HasRoundParts(messages) ==> RoundsFrom(messages, 0).Some?
  }

  /** The rounds of a segment and what must stay of it, the last `turn` messages being the turn in progress. */
  ghost predicate PreparedOf(p: Prepared, segment: SegmentName, messages: seq<Message>, turn: nat, pipe: Option<Pipe>) {
    && p.segment == segment && p.messages == messages && p.Ready()
    && if segment.HistorySegment? then
         && Valid(messages) && p.rounds == Inspect(messages, map[]).rounds && turn <= |messages|
         && HistoryMarks(p.required, pipe, messages, p.rounds, |messages| - turn)
       else
         && (HasRoundParts(messages) ==> RoundsFrom(messages, 0) == Some(p.rounds))
         && (!HasRoundParts(messages) ==> p.rounds == [])
         && forall i :: 0 <= i < |messages| ==>
              p.required[i] == (HasRoundParts(messages) && SuffixStart(|messages|, p.rounds, None) <= i)
  }

  method PrepareSegment(segment: SegmentName, messages: seq<Message>, turn: nat, pipe: Option<Pipe>)
    returns (r: Option<Prepared>)
    requires turn <= |messages|
    ensures r.Some? <==> Preparable(segment, messages, pipe)
    ensures r.Some? ==> PreparedOf(r.value, segment, messages, turn, pipe)
  {
    if !segment.HistorySegment? {
      r := PrepareOther(segment, messages);
      return;
    }
    var rounds := SegmentToolRounds(segment, messages);
    if rounds.None? {
      return None;
    }
    SegmentRoundsOrdered(segment, messages);
    var required := MarkHistory(messages, rounds.value, turn, pipe);
    r := if required.None? then None else Some(Prepared(segment, messages, rounds.value, required.value));
  }

  method PrepareOther(segment: SegmentName, messages: seq<Message>) returns (r: Option<Prepared>)
    requires !segment.HistorySegment?
    ensures r.Some? <==> Preparable(segment, messages, None)
    ensures r.Some? ==> PreparedOf(r.value, segment, messages, 0, None)
  {
    var required := new bool[|messages|](_ => false);
    var tools := FindRoundParts(messages);
    if !tools {
      return Some(Prepared(segment, messages, [], required[..]));
    }
    var rounds := SegmentToolRounds(segment, messages);
    if rounds.None? {
      return None;
    }
    SegmentRoundsOrdered(segment, messages);
    ProtectBudgetSuffix(required, rounds.value, None);
    r := Some(Prepared(segment, messages, rounds.value, required[..]));
  }

  /** Marks of the history: retention and the protected suffix, then the turn in progress, then whole rounds. */
  method MarkHistory(messages: seq<Message>, rounds: seq<Observation>, turn: nat, pipe: Option<Pipe>)
    returns (r: Option<seq<bool>>)
    requires turn <= |messages| && Ordered(rounds, |messages|)
    ensures r.Some? <==> (pipe.Some? ==> Resolvable(pipe.value.retention, pipe.value.codec, messages))
    ensures r.Some? ==> HistoryMarks(r.value, pipe, messages, rounds, |messages| - turn)
  {
    var required := new bool[|messages|](_ => false);
    if pipe.Some? {
      var ok, selected := SelectRequired(pipe.value.retention, pipe.value.codec, messages, rounds);
      if !ok {
        return None;
      }
      required := selected;
    }
    ProtectBudgetSuffix(required, rounds, if pipe.Some? then pipe.value.rolling else None);
    assert forall i :: 0 <= i < |messages| ==> required[i] == Stays(pipe, messages, rounds, i);
    MarkFrom(required, |messages| - turn);
    ghost var base := required[..];
    assert BaseMarks(base, pipe, messages, rounds, |messages| - turn);
    ExpandRequiredRounds(required, rounds);
    assert Expanded(required[..], base, rounds);
    r := Some(required[..]);
  }

  method MarkFrom(required: array<bool>, at: nat)
    requires at <= required.Length
    modifies required
    ensures forall i :: 0 <= i < required.Length ==> required[i] == (old(required[i]) || at <= i)
  {
    for i := at to required.Length
      invariant forall j :: 0 <= j < required.Length ==> required[j] == (old(required[j]) || at <= j < i)
    {
      required[i] := true;
    }
  }

  // ---------------------------------------------------------------- the snapshot

  datatype Snapshot = Snapshot(system: seq<Message>, history: seq<Message>, memory: seq<Message>, tools: seq<Message>) {
    function Segment(name: SegmentName): seq<Message> {
      match name
      case SystemSegment => system
      case HistorySegment => history
      case MemorySegment => memory
      case ToolsSegment => tools
      case OtherSegment(_) => []
    }
  }

  const SEGMENTS := [SystemSegment, HistorySegment, MemorySegment, ToolsSegment]

  /** A segment as selection sees it: the turn in progress is appended to the history. */
  function WithTurn(snapshot: Snapshot, turn: seq<Message>, name: SegmentName): seq<Message> {
    if name.HistorySegment? then snapshot.history + turn else snapshot.Segment(name)
  }

  ghost predicate AllPrepared(prepared: seq<Prepared>, snapshot: Snapshot, turn: seq<Message>, pipe: Option<Pipe>) {
    && |prepared| <= |SEGMENTS|
    && forall k :: 0 <= k < |prepared| ==>
         PreparedOf(prepared[k], SEGMENTS[k], WithTurn(snapshot, turn, SEGMENTS[k]),
                    if SEGMENTS[k].HistorySegment? then |turn| else 0, pipe)
  }

  method PrepareSnapshot(snapshot: Snapshot, turn: seq<Message>, pipe: Option<Pipe>) returns (r: Option<seq<Prepared>>)
    ensures r.Some? <==> forall k :: 0 <= k < 4 ==> Preparable(SEGMENTS[k], WithTurn(snapshot, turn, SEGMENTS[k]), pipe)
    ensures r.Some? ==> |r.value| == 4 && AllPrepared(r.value, snapshot, turn, pipe)
  {
    var prepared: seq<Prepared> := [];
    for k := 0 to |SEGMENTS|
      invariant |prepared| == k && AllPrepared(prepared, snapshot, turn, pipe)
      invariant forall j :: 0 <= j < k ==> Preparable(SEGMENTS[j], WithTurn(snapshot, turn, SEGMENTS[j]), pipe)
    {
      var messages := WithTurn(snapshot, turn, SEGMENTS[k]);
      var next := PrepareSegment(SEGMENTS[k], messages, if SEGMENTS[k].HistorySegment? then |turn| else 0, pipe);
      if next.None? {
        return None;
      }
      prepared := prepared + [next.value];
    }
    r := Some(prepared);
  }
}
