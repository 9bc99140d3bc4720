/** A budget run that fails on its own rounds: equal anonymous results under weight-based eviction. */
module TornRuns {
  import opened Results
  import opened Sequences
  import opened Messages
  import opened Rounds
  import opened Layouts
  import opened ToolTurns
  import opened Retention
  import opened Matching
  import opened Merging
  import opened Candidates
  import opened Budgets
  import opened Weights
  import opened Strategies
  import opened Overflow
  import opened Pipeline

  function DigestOf(m: Message): Option<ContentRef> {
    if m.id == Anonymous then None else Some(ContentRef(m.id, seq(64, _ => '0'), ""))
  }

  function Size(messages: seq<Message>): Option<int> {
    Some(|messages|)
  }

  function CountEach(messages: seq<Message>): Option<seq<int>> {
    Some(seq(|messages|, _ => 1))
  }

  /** Every message weighs one token and three fit; atomic drop-head, one pinned message, nothing summarized. */
  function OnePinned(id: Name): Config {
    Config(RetentionPolicy([id], [], []), None, BudgetRequest(Effective, 0, 0, 0, 3), None, DropHead(0, true), None,
           Estimator(Size, CountEach, true), Codec(DigestOf))
  }

  const ONLY_FIRST := [true, false, false, false, false]

  /** A pinned message and two rounds, answered by equal anonymous results. */
  ghost predicate TwoRounds(s: seq<Message>) {
    && |s| == 5 && s[0].id != Anonymous && IsPlain(s[0]) && s[4] == s[2] && s[2].id == Anonymous
    && s[1].id != s[0].id && s[3].id != s[0].id && s[1].id != s[3].id
    && Answered(s[1], s[2]) && Answered(s[3], s[2])
  }

  ghost predicate Answered(assistant: Message, result: Message) {
    && assistant.id != Anonymous && ValidUnit(Round(assistant, [result])) && CompleteUnit(Round(assistant, [result]))
  }

  lemma DigestsAreLawful()
    ensures Codec(DigestOf).Lawful()
  {
  }

  lemma {:induction false} TwoRoundsLayout(s: seq<Message>, h: History)
    requires TwoRounds(s)
    requires h == Next(Plain(s[0]), Next(Round(s[1], [s[2]]), Next(Round(s[3], [s[4]]), End)))
    ensures Layout(h, {}) && Flatten(h) == s
  {
    var one, two := h.rest, h.rest.rest;
    assert Layout(End, {s[1].id} + {s[3].id});
    assert Layout(two, {s[1].id});
    assert {} + {s[1].id} == {s[1].id} && two.unit.Names() == {s[3].id};
    assert Layout(one, {});
    assert {} + Plain(s[0]).Names() == {};
    assert Flatten(two) == [s[3], s[4]] + Flatten(End);
    assert Flatten(one) == [s[1], s[2]] + Flatten(two);
  }

  lemma {:induction false} TwoRoundsReport(s: seq<Message>)
    requires TwoRounds(s)
    ensures Valid(s)
    ensures Inspect(s, map[]).rounds == [Observation(s[1].id, 1, 2, Complete, []),
                                         Observation(s[3].id, 3, 4, Complete, [])]
  {
    var two := Next(Round(s[3], [s[4]]), End);
    var one := Next(Round(s[1], [s[2]]), two);
    var h := Next(Plain(s[0]), one);
    TwoRoundsLayout(s, h);
    LayoutIsValid(h);
    assert Reports(End, 5, map[]) == [];
    assert Reports(two, 3, map[]) == [Observation(s[3].id, 3, 4, Complete, [])];
    assert Reports(one, 1, map[]) == [Observation(s[1].id, 1, 2, Complete, [])] + Reports(two, 3, map[]);
  }

  lemma {:induction false} NoPull(rounds: seq<Observation>, start: nat)
    requires |rounds| == 2 && rounds[0].state == rounds[1].state == Complete
    ensures PulledBack(start, rounds, false) == start
  {
    assert PulledBack(start, rounds[1..][1..], false) == start;
    assert PulledBack(start, rounds[1..], false) == start;
  }

  lemma {:induction false} PinnedMarks(s: seq<Message>, required: seq<bool>)
    requires TwoRounds(s) && PolicyValid(OnePinned(s[0].id)) && Required(OnePinned(s[0].id), s, required)
    ensures required == ONLY_FIRST
  {
    var cfg := OnePinned(s[0].id);
    TwoRoundsReport(s);
    var rounds := Inspect(s, map[]).rounds;
    var marks := WantedMarks(cfg.retention, cfg.codec, s);
    assert marks == ONLY_FIRST;
    NoPull(rounds, 5);
    assert !Touched(marks, rounds[0]) && !Touched(marks, rounds[1]);
    assert forall i :: 0 <= i < 5 ==> RequiredAt(marks, rounds, i) == marks[i];
  }

  lemma {:induction false} RunStarts(s: seq<Message>)
    requires TwoRounds(s)
    ensures Startable(OnePinned(s[0].id), s, 3)
  {
    TwoRoundsReport(s);
    assert s[0].id == s[0].id;
  }

  /** Dropping the first round leaves the second one, which fits. */
  lemma {:induction false} SecondRoundIsLeft(s: seq<Message>, rest: seq<Message>)
    requires TwoRounds(s) && rest == s[1..]
    ensures HeadTrimmed(OnePinned(s[0].id).estimator, rest, 4, 2, 0, true) == Kept(s[3..])
  {
    var est := OnePinned(s[0].id).estimator;
    var weights := CountEach(rest).value;
    assert weights == [1, 1, 1, 1];
    assert Weight(weights, 4) == 0 && Weight(weights, 3) == 1 && Weight(weights, 2) == 2 && Weight(weights, 1) == 3;
    ToolRunExact(rest, 1, 2);
    assert rest[1..2] == [s[2]];
    CompleteIsNothingMissing(Round(s[1], [s[2]]));
    assert UnitNext(rest, true, 0) == 2;
    assert FirstBoundary(est, rest, weights, true, 2, 2) == Some(2);
    assert FirstBoundary(est, rest, weights, true, 2, 0) == Some(2);
    assert rest[2..] == s[3..];
  }

  // ---------------------------------------------------------------- the merge keeps the wrong result

  lemma {:induction false} FourHoldTwo<T>(first: T, second: T, result: T)
    ensures multiset([second, result]) <= multiset([first, result, second, result])
  {
    assert [first, result, second, result] == [first, result] + [second, result];
    assert multiset([first, result] + [second, result]) == multiset([first, result]) + multiset([second, result]);
  }

  lemma {:induction false} TornMarksAre<T>(s: seq<T>, fixed: seq<bool>, bag: seq<T>)
    requires |s| == 5 && fixed == [true, false, false, false, false] && bag == [s[3], s[2]]
    requires s[1] != s[2] && s[3] != s[1] && s[3] != s[2] && s[4] == s[2]
    ensures MergeMarks(s, fixed, bag) == [true, false, true, true, false]
  {
    assert Not(fixed) == [false, true, true, true, true];
    FewCopies(s, Not(fixed));
    assert multiset(bag)[s[3]] == 1 && multiset(bag)[s[2]] == 1 && multiset(bag)[s[1]] == 0;
  }

  lemma {:induction false} FewCopies<T>(s: seq<T>, marks: seq<bool>)
    requires |s| == 5 && marks == [false, true, true, true, true]
    requires s[1] != s[2] && s[3] != s[1] && s[3] != s[2] && s[4] == s[2]
    ensures Count(s, marks, s[1], 1) == 0 && Count(s, marks, s[2], 2) == 0
    ensures Count(s, marks, s[3], 3) == 0 && Count(s, marks, s[4], 4) == 1
  {
    assert Count(s, marks, s[2], 0) == Count(s, marks, s[3], 0) == Count(s, marks, s[1], 0) == 0;
    assert Count(s, marks, s[2], 1) == Count(s, marks, s[3], 1) == 0;
    assert Count(s, marks, s[2], 2) == Count(s, marks, s[3], 2) == 0;
    assert Count(s, marks, s[2], 3) == 1;
  }

  lemma {:induction false} KeepsLastFour<T>(s: seq<T>, marks: seq<bool>)
    requires |s| == 5 && marks == [false, true, true, true, true]
    ensures Keep(s, marks) == [s[1], s[2], s[3], s[4]]
  {
    KeepSuffix(s, marks, 1);
    KeepNone(s[..1], marks[..1]);
    assert [] + s[1..] == [s[1], s[2], s[3], s[4]];
  }

  lemma {:induction false} KeepsTorn<T>(s: seq<T>, marks: seq<bool>)
    requires |s| == 5 && marks == [true, false, true, true, false]
    ensures Keep(s, marks) == [s[0], s[2], s[3]]
  {
    KeepWhole(s, marks);
    KeepSnoc(s, marks, 4);
    KeepSnoc(s, marks, 3);
    KeepSnoc(s, marks, 2);
    KeepSnoc(s, marks, 1);
    KeepSnoc(s, marks, 0);
    KeepNone(s[..0], marks[..0]);
    assert s[..5] == s && marks[..5] == marks;
    assert Keep(s[..1], marks[..1]) == [s[0]];
    assert Keep(s[..2], marks[..2]) == [s[0]];
    assert Keep(s[..3], marks[..3]) == [s[0], s[2]];
    assert Keep(s[..4], marks[..4]) == [s[0], s[2], s[3]];
  }

  lemma {:induction false} KeepsPinned<T>(s: seq<T>)
    requires |s| == 5
    ensures Keep(s, ONLY_FIRST) == [s[0]] && Keep(s, Not(ONLY_FIRST)) == s[1..]
  {
    assert Not(ONLY_FIRST) == [false, true, true, true, true];
    KeepsLastFour(s, Not(ONLY_FIRST));
    assert ONLY_FIRST[1..] == [false, false, false, false];
    KeepNone(s[1..], ONLY_FIRST[1..]);
  }

  lemma {:induction false} TornText(s: seq<Message>)
    requires TwoRounds(s)
    ensures multiset(s[3..]) <= multiset(Keep(s, Not(ONLY_FIRST)))
    ensures Keep(s, MergeMarks(s, ONLY_FIRST, s[3..])) == [s[0], s[2], s[3]]
  {
    assert s[3..] == [s[3], s[2]];
    KeepsPinned(s);
    assert s[1..] == [s[1], s[2], s[3], s[2]];
    FourHoldTwo(s[1], s[3], s[2]);
    TornMarksAre(s, ONLY_FIRST, s[3..]);
    KeepsTorn(s, [true, false, true, true, false]);
  }

  lemma {:induction false} TornIsInvalid(torn: seq<Message>)
    requires |torn| == 3 && IsPlain(torn[0]) && torn[1].role == Tool
    ensures !Valid(torn)
  {
    assert Split(torn[1..]) == Broken;
    assert Split(torn) == Next(Plain(torn[0]), Broken);
    ValidIsLayout(torn);
  }

  lemma {:induction false} SecondRoundIsComplete(s: seq<Message>)
    requires TwoRounds(s)
    ensures ValidComplete(s[3..])
  {
    var h := Next(Round(s[3], [s[2]]), End);
    assert Flatten(h) == [s[3], s[2]] + Flatten(End);
    assert Flatten(h) == s[3..];
    assert Layout(End, {} + {s[3].id});
    LayoutIsValid(h);
  }

  /** Keeping the second round is a sound choice, yet the merge keeps the first result and so tears the round. */
  lemma {:induction false} EqualAnonymousResultsTearRounds(s: seq<Message>)
    requires TwoRounds(s)
    ensures ValidComplete(s[3..]) && MergeOf(s, ONLY_FIRST, s[3..], false) == Merged([s[0], s[2], s[3]])
    ensures !Valid([s[0], s[2], s[3]])
  {
    SecondRoundIsComplete(s);
    TornIsInvalid([s[0], s[2], s[3]]);
    TornText(s);
    NothingCollides(s);
    TornMerge(s, ONLY_FIRST, s[3..], [s[0], s[2], s[3]]);
  }

  lemma NothingCollides(s: seq<Message>)
    requires TwoRounds(s)
    ensures UniqueIds(s) && UniqueIds(s[3..]) && s[0].id != s[3..][0].id && s[0].id != s[3..][1].id
  {
  }

  lemma {:induction false} TornMerge(before: seq<Message>, selected: seq<bool>, outputs: seq<Message>,
                                     out: seq<Message>)
    requires |before| == |selected| == 5 && selected == [true, false, false, false, false]
    requires UniqueIds(before) && UniqueIds(outputs) && |outputs| == 2
    requires before[0].id != outputs[0].id && before[0].id != outputs[1].id
    requires multiset(outputs) <= multiset(Keep(before, Not(selected)))
    requires Keep(before, MergeMarks(before, selected, outputs)) == out
    ensures MergeOf(before, selected, outputs, false) == Merged(out)
  {
    assert selected[0];
  }

  // ---------------------------------------------------------------- the run

  lemma {:induction false} RunTears(s: seq<Message>)
    requires TwoRounds(s)
    ensures Tears(OnePinned(s[0].id), s, ONLY_FIRST, 3)
  {
    EqualAnonymousResultsTearRounds(s);
    SecondRoundIsLeft(s, s[1..]);
    KeepsPinned(s);
    assert MergesTorn(s, ONLY_FIRST, s[3..]);
    assert OptionalOf(OnePinned(s[0].id), s[1..], 2) == Kept(s[3..]);
  }

  /** Everything the run asks of its caller holds, and it still ends with an invalid-round error. */
  method EqualResultsFailTheRun(s: seq<Message>) returns (r: Run)
    requires TwoRounds(s)
    ensures Startable(OnePinned(s[0].id), s, 3) && Atomic(OnePinned(s[0].id).strategy)
    ensures r == Failed(InvalidRound)
  {
    ghost var required, kept, front;
    DigestsAreLawful();
    RunStarts(s);
    r, required, kept, front := ApplyWithLimit(OnePinned(s[0].id), s, 3);
    PinnedMarks(s, required);
    RunTears(s);
    PinnedIsReferable(s);
  }

  lemma {:induction false} PinnedIsReferable(s: seq<Message>)
    requires TwoRounds(s)
    ensures Referable(Codec(DigestOf), Keep(s, ONLY_FIRST))
  {
    KeepsPinned(s);
  }

  // ---------------------------------------------------------------- an instance

  const CALL := Named("call")
  const PINNED := Message(Named("pinned"), User, [], [], "", [])
  const FIRST := Message(Named("first"), Assistant, [CALL], [], "", [])
  const SECOND := Message(Named("second"), Assistant, [CALL], [], "", [])
  const RESULT := Message(Anonymous, Tool, [], [CALL], "", [])

  lemma {:induction false} AnsweredRound(assistant: Message)
    requires OpensRound(assistant) && assistant.calls == [CALL]
    ensures ValidUnit(Round(assistant, [RESULT])) && CompleteUnit(Round(assistant, [RESULT]))
  {
    assert Answers([RESULT]) == [CALL] + Answers([]);
    assert Elements([CALL]) == {CALL};
    assert [CALL] + [] == [CALL];
    assert Missing([CALL], {CALL}) == Missing([CALL][..0], {CALL}) + [];
  }

  /** Such histories exist. */
  lemma {:induction false} TwoRoundsExist()
    ensures TwoRounds([PINNED, FIRST, RESULT, SECOND, RESULT])
  {
    AnsweredRound(FIRST);
    AnsweredRound(SECOND);
    assert PINNED.id.text[0] == 'p' && FIRST.id.text[0] == 'f' && SECOND.id.text[0] == 's';
  }
}
