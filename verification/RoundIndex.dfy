/** Where the rounds of a valid history stand, by message index. */
module RoundIndex {
  import opened Sequences
  import opened Messages
  import opened Rounds
  import opened Layouts

  function RoundAt(messages: seq<Message>, i: nat): Unit
    requires i < |messages|
  {
    Round(messages[i], messages[i + 1..ToolRun(messages, i + 1)])
  }

  /** The observation is exactly the round that opens at its start. */
  predicate Describes(o: Observation, messages: seq<Message>) {
    && o.start < |messages| && OpensRound(messages[o.start])
    && o.end + 1 == ToolRun(messages, o.start + 1)
    && o.assistantId == messages[o.start].id
    && o.missing == Unanswered(RoundAt(messages, o.start))
    && o.state == Settle(o.missing, map[], o.assistantId)
  }

  predicate Ordered(rounds: seq<Observation>, count: nat) {
    && (forall k :: 0 <= k < |rounds| ==> rounds[k].start <= rounds[k].end < count)
    && (forall k, l :: 0 <= k < l < |rounds| ==> rounds[k].end < rounds[l].start)
  }

  predicate Inside(o: Observation, i: nat) {
    o.start <= i <= o.end
  }

  /** No round reaches across position `i`. */
  predicate Unsplit(rounds: seq<Observation>, i: nat) {
    forall k :: 0 <= k < |rounds| ==> !(rounds[k].start < i <= rounds[k].end)
  }

  ghost predicate Opened(rounds: seq<Observation>, i: nat) {
    exists k :: 0 <= k < |rounds| && rounds[k].start == i
  }

  ghost predicate Covered(rounds: seq<Observation>, i: nat) {
    exists k :: 0 <= k < |rounds| && Inside(rounds[k], i)
  }

  ghost predicate AllDescribed(rounds: seq<Observation>, messages: seq<Message>, from: nat) {
    forall k :: 0 <= k < |rounds| ==> Describes(rounds[k], messages) && from <= rounds[k].start
  }

  ghost predicate AllOpened(rounds: seq<Observation>, messages: seq<Message>, from: nat) {
    forall i {:trigger Opened(rounds, i)} :: from <= i < |messages| && OpensRound(messages[i]) ==> Opened(rounds, i)
  }

  ghost predicate AllCovered(rounds: seq<Observation>, messages: seq<Message>, from: nat) {
    forall i {:trigger Covered(rounds, i)} :: from <= i < |messages| && messages[i].role == Tool ==> Covered(rounds, i)
  }

  ghost predicate Indexes(rounds: seq<Observation>, messages: seq<Message>, from: nat) {
    && Ordered(rounds, |messages|)
    && AllDescribed(rounds, messages, from)
    && AllOpened(rounds, messages, from)
    && AllCovered(rounds, messages, from)
  }

  lemma ConsAt(o: Observation, rounds: seq<Observation>)
    ensures ([o] + rounds)[0] == o && forall k :: 0 < k <= |rounds| ==> ([o] + rounds)[k] == rounds[k - 1]
  {
  }

  lemma {:induction false} ConsOrdered(o: Observation, rounds: seq<Observation>, messages: seq<Message>)
    requires o.start <= o.end < |messages| && Ordered(rounds, |messages|) && AllDescribed(rounds, messages, o.end + 1)
    ensures Ordered([o] + rounds, |messages|)
  {
    ConsAt(o, rounds);
  }

  lemma {:induction false} ConsDescribed(o: Observation, rounds: seq<Observation>, messages: seq<Message>)
    requires Describes(o, messages) && o.start <= o.end && AllDescribed(rounds, messages, o.end + 1)
    ensures AllDescribed([o] + rounds, messages, o.start)
  {
    ConsAt(o, rounds);
  }

  lemma {:induction false} ConsOpened(o: Observation, rounds: seq<Observation>, messages: seq<Message>)
    requires o.end < |messages| && (forall i :: o.start < i <= o.end ==> messages[i].role == Tool)
    requires AllOpened(rounds, messages, o.end + 1)
    ensures AllOpened([o] + rounds, messages, o.start)
  {
    var all := [o] + rounds;
    ConsAt(o, rounds);
    forall i | o.start <= i < |messages| && OpensRound(messages[i])
      ensures Opened(all, i)
    {
      if i == o.start {
        assert all[0].start == i;
      } else {
        assert Opened(rounds, i);
        var k :| 0 <= k < |rounds| && rounds[k].start == i;
        assert all[k + 1].start == i;
      }
    }
  }

  lemma {:induction false} ConsCovered(o: Observation, rounds: seq<Observation>, messages: seq<Message>)
    requires AllCovered(rounds, messages, o.end + 1)
    ensures AllCovered([o] + rounds, messages, o.start)
  {
    var all := [o] + rounds;
    ConsAt(o, rounds);
    forall i | o.start <= i < |messages| && messages[i].role == Tool
      ensures Covered(all, i)
    {
      if i <= o.end {
        assert Inside(all[0], i);
      } else {
        assert Covered(rounds, i);
        var k :| 0 <= k < |rounds| && Inside(rounds[k], i);
        assert Inside(all[k + 1], i);
      }
    }
  }

  lemma {:induction false} ConsIndexes(o: Observation, rounds: seq<Observation>, messages: seq<Message>)
    requires Describes(o, messages) && Indexes(rounds, messages, o.end + 1)
    ensures Indexes([o] + rounds, messages, o.start)
  {
    ToolRunRoles(messages, o.start + 1);
    ConsOrdered(o, rounds, messages);
    ConsDescribed(o, rounds, messages);
    ConsOpened(o, rounds, messages);
    ConsCovered(o, rounds, messages);
  }

  lemma SkipIndexes(rounds: seq<Observation>, messages: seq<Message>, from: nat)
    requires from < |messages| && IsPlain(messages[from]) && Indexes(rounds, messages, from + 1)
    ensures Indexes(rounds, messages, from)
  {
  }

  /** What a round reports where it stands. */
  lemma {:induction false} RoundReport(h: History, messages: seq<Message>, from: nat) returns (o: Observation)
    requires from <= |messages| && h.Next? && h.unit.Round? && At(h, messages, from) && Intact(h)
    ensures Same(Report(h.unit, from, map[]), [o]) && Describes(o, messages)
    ensures o.start == from && o.end + 1 == from + h.unit.Size()
  {
    o := Report(h.unit, from, map[])[0];
    assert RoundAt(messages, from) == h.unit;
  }

  lemma {:induction false} ReportsUnfold(h: History, from: nat)
    requires h.Next?
    ensures var others := Reports(h.rest, from + h.unit.Size(), map[]);
            Same(Reports(h, from, map[]), if h.unit.Plain? then others else Report(h.unit, from, map[]) + others)
  {
    var others := Reports(h.rest, from + h.unit.Size(), map[]);
    assert [] + others == others;
  }

  lemma {:induction false} UnitIndexes(h: History, messages: seq<Message>, from: nat, others: seq<Observation>)
    returns (rounds: seq<Observation>)
    requires from <= |messages| && h.Next? && At(h, messages, from) && Intact(h)
    requires Same(others, Reports(h.rest, from + h.unit.Size(), map[]))
    requires Indexes(others, messages, from + h.unit.Size())
    ensures Same(rounds, Reports(h, from, map[])) && Indexes(rounds, messages, from)
  {
    ReportsUnfold(h, from);
    if h.unit.Plain? {
      rounds := others;
      SkipIndexes(others, messages, from);
    } else {
      var o := RoundReport(h, messages, from);
      rounds := [o] + others;
      ConsIndexes(o, others, messages);
    }
  }

  lemma {:induction false} ReportsIndex(h: History, messages: seq<Message>, from: nat)
    returns (rounds: seq<Observation>)
    requires from <= |messages| && At(h, messages, from) && Intact(h)
    ensures Same(rounds, Reports(h, from, map[])) && Indexes(rounds, messages, from)
    decreases h
  {
    if h.End? {
      rounds := [];
    } else {
      UnitSpan(h, messages, from);
      var others := ReportsIndex(h.rest, messages, from + h.unit.Size());
      rounds := UnitIndexes(h, messages, from, others);
    }
  }

  /** Round inspection yields disjoint rounds in order, one for every call message, that cover every
      tool-role message and report exactly what is there. */
  lemma {:induction false} RoundsPartition(messages: seq<Message>)
    requires Valid(messages)
    ensures Indexes(Inspect(messages, map[]).rounds, messages, 0)
  {
    ValidIsLayout(messages);
    LayoutIntact(Split(messages), {});
    WholeSplitAt(messages);
    var rounds := ReportsIndex(Split(messages), messages, 0);
  }

  lemma {:induction false} BlocksOfRounds(messages: seq<Message>, rounds: seq<Observation>, marks: seq<bool>)
    requires |marks| == |messages| && AllDescribed(rounds, messages, 0) && AllOpened(rounds, messages, 0)
    requires RoundsUniform(rounds, marks)
    ensures BlocksUniform(messages, marks, 0)
  {
    forall i, k | 0 <= i < |messages| && OpensRound(messages[i]) && i <= k < ToolRun(messages, i + 1)
      ensures marks[k] == marks[i]
    {
      assert Opened(rounds, i);
    }
  }

  /** Marks constant on each reported round are constant on each unit. */
  lemma {:induction false} UniformOfRounds(messages: seq<Message>, marks: seq<bool>)
    requires Valid(messages) && |marks| == |messages|
    requires RoundsUniform(Inspect(messages, map[]).rounds, marks)
    ensures Uniform(Split(messages), marks)
  {
    RoundsPartition(messages);
    BlocksOfRounds(messages, Inspect(messages, map[]).rounds, marks);
    ValidIsLayout(messages);
    LayoutIntact(Split(messages), {});
    WholeSplitAt(messages);
    UniformOfBlocks(Split(messages), messages, 0, marks);
    assert marks[0..] == marks;
  }

  predicate RoundsUniform(rounds: seq<Observation>, marks: seq<bool>) {
    forall k, i :: 0 <= k < |rounds| && rounds[k].start <= i <= rounds[k].end < |marks| ==>
      marks[i] == marks[rounds[k].start]
  }

  predicate PendingUnmarked(rounds: seq<Observation>, marks: seq<bool>) {
    forall k :: 0 <= k < |rounds| && rounds[k].state == Pending && rounds[k].start < |marks| ==> !marks[rounds[k].start]
  }

  lemma RoundStandsAt(h: History, messages: seq<Message>, from: nat)
    requires from < |messages| && h.Next? && h.unit.Round? && At(h, messages, from)
    ensures Same(RoundAt(messages, from), h.unit) && messages[from] == h.unit.assistant
  {
  }

  lemma {:induction false} KeptCompleteFrom(h: History, messages: seq<Message>, from: nat, marks: seq<bool>)
    requires |marks| == |messages| && from <= |messages| && At(h, messages, from)
    requires Intact(h) && Uniform(h, marks[from..])
    requires forall i :: from <= i < |messages| && OpensRound(messages[i]) && marks[i] ==>
               CompleteUnit(RoundAt(messages, i))
    ensures KeptComplete(h, marks[from..])
    decreases h
  {
    if h.Next? {
      var next := from + h.unit.Size();
      UnitSpan(h, messages, from);
      UniformStep(h, marks, from, next);
      KeptCompleteFrom(h.rest, messages, next, marks);
      if h.unit.Round? {
        RoundStandsAt(h, messages, from);
      }
    }
  }

  /** If every round still waiting for an answer is left out, what is kept is valid and complete. */
  lemma {:induction false} KeptWithoutPending(messages: seq<Message>, marks: seq<bool>)
    requires Valid(messages) && |marks| == |messages|
    requires RoundsUniform(Inspect(messages, map[]).rounds, marks)
    requires PendingUnmarked(Inspect(messages, map[]).rounds, marks)
    ensures Uniform(Split(messages), marks) && KeptComplete(Split(messages), marks)
    ensures ValidComplete(Keep(messages, marks))
  {
    var rounds := Inspect(messages, map[]).rounds;
    UniformOfRounds(messages, marks);
    RoundsPartition(messages);
    ValidIsLayout(messages);
    LayoutIntact(Split(messages), {});
    WholeSplitAt(messages);
    assert marks[0..] == marks;
    forall i | 0 <= i < |messages| && OpensRound(messages[i]) && marks[i]
      ensures CompleteUnit(RoundAt(messages, i))
    {
      assert Opened(rounds, i);
    }
    KeptCompleteFrom(Split(messages), messages, 0, marks);
    DroppingUnitsKeepsRounds(messages, marks);
  }
}
