/** Tool rounds: one assistant call message followed by its contiguous tool results.

`Split` cuts a history into plain messages and rounds by role alone; `Check` then judges the
rounds in order. Together they are the specification of the scanner of round_state.go. */
module Rounds {
  import opened Results
  import opened Sequences
  import opened Messages

  datatype RoundState = Complete | Pending | Interrupted | OtherState(name: string)

  datatype RoundError = InvalidToolRound | UnknownToolRoundState | ToolRoundStateConflict

  /** `start` and `end` are inclusive indexes into the inspected history. */
  datatype Observation = Observation(
    assistantId: Name, start: nat, end: nat, state: RoundState, missing: seq<Name>)

  datatype Judgement = Judged(round: Observation) | Malformed(error: RoundError)

  datatype Inspection = Inspected(rounds: seq<Observation>) | Rejected(error: RoundError)

  type Declarations = map<Name, RoundState>

  // ---------------------------------------------------------------- round checks

  predicate CallsNamed(calls: seq<Name>) {
    Distinct(calls) && forall i :: 0 <= i < |calls| ==> calls[i] != Anonymous
  }

  /** All result identities of a block of tool messages, in order. */
  function Answers(results: seq<Message>): seq<Name> {
    if |results| == 0 then [] else results[0].results + Answers(results[1..])
  }

  /** Named, expected, and answered neither before nor twice. */
  predicate AnswersFit(ids: seq<Name>, expected: set<Name>, seen: set<Name>) {
    && Distinct(ids)
    && (forall i :: 0 <= i < |ids| ==> ids[i] != Anonymous && ids[i] in expected && ids[i] !in seen)
  }

  predicate ResultsFit(results: seq<Message>, calls: set<Name>) {
    && (forall i :: 0 <= i < |results| ==> results[i].role == Tool && |results[i].results| > 0)
    && AnswersFit(Answers(results), calls, {})
  }

  predicate WellFormedRound(assistant: Message, results: seq<Message>) {
    && CallsNamed(assistant.calls)
    && ResultsFit(results, Elements(assistant.calls))
    && (forall i :: 0 <= i < |results| ==> !results[i].HasToolCalls())
  }

  function Elements(ids: seq<Name>): set<Name> {
    set id | id in ids
  }

  /** The calls without an answer, in call order. */
  function Missing(calls: seq<Name>, answered: set<Name>): seq<Name> {
    if |calls| == 0 then []
    else
      var last := |calls| - 1;
      Missing(calls[..last], answered) + if calls[last] in answered then [] else [calls[last]]
  }

  predicate KnownState(state: RoundState) {
    state.Complete? || state.Pending? || state.Interrupted?
  }

  /** The state a round gets from its evidence and its declaration. */
  function Settle(missing: seq<Name>, declarations: Declarations, id: Name): RoundState {
    if |missing| == 0 then Complete
    else if id in declarations && declarations[id] == Interrupted then Interrupted
    else Pending
  }

  /** A declaration may only repeat the evidence, or call an unanswered round interrupted. */
  predicate Contradicts(missing: seq<Name>, declarations: Declarations, id: Name) {
    id in declarations && declarations[id] != Settle(missing, declarations, id)
  }

  function Observe(assistant: Message, results: seq<Message>, start: nat, declarations: Declarations): Judgement {
    if !WellFormedRound(assistant, results) then Malformed(InvalidToolRound)
    else
      var missing := Missing(assistant.calls, Elements(Answers(results)));
      if Contradicts(missing, declarations, assistant.id) then
        Malformed(if KnownState(declarations[assistant.id]) then ToolRoundStateConflict else UnknownToolRoundState)
      else
        Judged(Observation(assistant.id, start, start + |results|, Settle(missing, declarations, assistant.id),
                           missing))
  }

  method ToolRoundCallIDs(calls: seq<Name>) returns (expected: Option<set<Name>>)
    ensures expected.Some? <==> CallsNamed(calls)
    ensures expected.Some? ==> expected.value == Elements(calls)
  {
    var found := {};
    for i := 0 to |calls|
      invariant forall j :: 0 <= j < i ==> calls[j] != Anonymous && calls[j] in found
      invariant forall j, k :: 0 <= j < k < i ==> calls[j] != calls[k]
      invariant forall id :: id in found ==> exists j :: 0 <= j < i && calls[j] == id
    {
      if calls[i] == Anonymous || calls[i] in found {
        return None;
      }
      found := found + {calls[i]};
    }
    expected := Some(found);
  }

  lemma {:induction false} AnswersConcat(a: seq<Message>, b: seq<Message>)
    ensures Answers(a + b) == Answers(a) + Answers(b)
  {
    if |a| == 0 {
      assert a + b == b;
    } else {
      assert (a + b)[1..] == a[1..] + b;
      AnswersConcat(a[1..], b);
    }
  }

  lemma {:induction false} AnswersSnoc(results: seq<Message>, i: nat)
    requires i < |results|
    ensures Answers(results[..i + 1]) == Answers(results[..i]) + results[i].results
    ensures Answers(results) == Answers(results[..i + 1]) + Answers(results[i + 1..])
  {
    assert results[..i + 1] == results[..i] + [results[i]];
    AnswersConcat(results[..i], [results[i]]);
    assert Answers([results[i]]) == results[i].results + Answers([]);
    assert results == results[..i + 1] + results[i + 1..];
    AnswersConcat(results[..i + 1], results[i + 1..]);
  }

  method ValidateToolRoundResults(results: seq<Message>, expected: set<Name>) returns (seen: Option<set<Name>>)
    ensures seen.Some? <==> ResultsFit(results, expected)
    ensures seen.Some? ==> seen.value == Elements(Answers(results))
  {
    var found: set<Name> := {};
    for i := 0 to |results|
      invariant ResultsFit(results[..i], expected)
      invariant found == Elements(Answers(results[..i]))
    {
      AnswersSnoc(results, i);
      FitStep(results, i, expected);
      if results[i].role != Tool || |results[i].results| == 0 {
        return None;
      }
      var part := ValidateToolRoundResultParts(results[i].results, expected, found);
      if part.None? {
        return None;
      }
      found := part.value;
    }
    assert results[..|results|] == results;
    seen := Some(found);
  }

  method ValidateToolRoundResultParts(ids: seq<Name>, expected: set<Name>, before: set<Name>)
    returns (seen: Option<set<Name>>)
    ensures seen.Some? <==> AnswersFit(ids, expected, before)
    ensures seen.Some? ==> seen.value == before + Elements(ids)
  {
    var found := before;
    for i := 0 to |ids|
      invariant AnswersFit(ids[..i], expected, before)
      invariant found == before + Elements(ids[..i])
    {
      if ids[i] == Anonymous || ids[i] !in expected || ids[i] in found {
        assert ids[i] in ids;
        return None;
      }
      found := found + {ids[i]};
    }
    assert ids[..|ids|] == ids;
    seen := Some(found);
  }

  lemma {:induction false} AnswersFitConcat(a: seq<Name>, b: seq<Name>, expected: set<Name>)
    ensures AnswersFit(a + b, expected, {}) <==> AnswersFit(a, expected, {}) && AnswersFit(b, expected, Elements(a))
  {
    DistinctConcat(a, b);
    var c := a + b;
    assert forall i :: 0 <= i < |a| ==> c[i] == a[i];
    assert forall i :: 0 <= i < |b| ==> c[|a| + i] == b[i];
  }

  lemma {:induction false} FitStep(results: seq<Message>, i: nat, expected: set<Name>)
    requires i < |results|
    ensures ResultsFit(results[..i + 1], expected) <==>
            && ResultsFit(results[..i], expected)
            && results[i].role == Tool && |results[i].results| > 0
            && AnswersFit(results[i].results, expected, Elements(Answers(results[..i])))
    ensures ResultsFit(results, expected) ==> ResultsFit(results[..i + 1], expected)
  {
    AnswersSnoc(results, i);
    AnswersFitConcat(Answers(results[..i]), results[i].results, expected);
    AnswersFitConcat(Answers(results[..i + 1]), Answers(results[i + 1..]), expected);
    var next := results[..i + 1];
    assert next == results[..i] + [results[i]];
    assert next[i] == results[i] && forall k :: 0 <= k < i ==> next[k] == results[..i][k];
  }

  // ---------------------------------------------------------------- the scanner

  predicate IsPlain(m: Message) {
    m.role != Tool && |m.results| == 0 && !m.HasToolCalls()
  }

  predicate OpensRound(m: Message) {
    m.role == Assistant && |m.results| == 0 && m.HasToolCalls()
  }

  datatype Unit = Plain(message: Message) | Round(assistant: Message, results: seq<Message>) {

    function Content(): (ms: seq<Message>)
      ensures |ms| == Size()
    {
      if Plain? then [message] else [assistant] + results
    }

    function Size(): nat {
      if Plain? then 1 else |results| + 1
    }

    predicate FreshIn(seen: set<Name>) {
      Round? && assistant.id != Anonymous ==> assistant.id !in seen
    }

    function Names(): set<Name> {
      if Plain? then {} else {assistant.id}
    }
  }

  /** `Broken` stands for a tail that starts with a message no unit can start with. */
  datatype History = End | Broken | Next(unit: Unit, rest: History)

  /** The first index from `i` on whose message is not a tool message. */
  function ToolRun(messages: seq<Message>, i: nat): (end: nat)
    requires i <= |messages|
    ensures i <= end <= |messages|
    decreases |messages| - i
  {
    if i < |messages| && messages[i].role == Tool then ToolRun(messages, i + 1) else i
  }

  function Split(messages: seq<Message>): History
    decreases |messages|
  {
    if |messages| == 0 then End
    else if IsPlain(messages[0]) then Next(Plain(messages[0]), Split(messages[1..]))
    else if !OpensRound(messages[0]) then Broken
    else
      var n := ToolRun(messages, 1);
      Next(Round(messages[0], messages[1..n]), Split(messages[n..]))
  }

  predicate DeclarationsMet(declarations: Declarations, seen: set<Name>) {
    forall id :: id in declarations ==> id != Anonymous && id in seen && KnownState(declarations[id])
  }

  /** Judge the rounds of `h`, which starts at index `start`, after the rounds in `done`,
      whose assistants are `seen`. */
  function Check(h: History, start: nat, declarations: Declarations, seen: set<Name>,
                 done: seq<Observation>): Inspection {
    match h
    case End => if DeclarationsMet(declarations, seen) then Inspected(done) else Rejected(UnknownToolRoundState)
    case Broken => Rejected(InvalidToolRound)
    case Next(Plain(_), rest) => Check(rest, start + 1, declarations, seen, done)
    case Next(Round(assistant, results), rest) =>
      if !h.unit.FreshIn(seen) then Rejected(InvalidToolRound)
      else
        var judged := Observe(assistant, results, start, declarations);
        if judged.Malformed? then Rejected(judged.error)
        else Check(rest, start + |results| + 1, declarations, seen + {assistant.id}, done + [judged.round])
  }

  function Inspect(messages: seq<Message>, declarations: Declarations): Inspection {
    Check(Split(messages), 0, declarations, {}, [])
  }

  method ContiguousToolBlockEnd(messages: seq<Message>, assistantIdx: nat) returns (end: nat)
    requires assistantIdx < |messages|
    ensures end + 1 == ToolRun(messages, assistantIdx + 1)
  {
    end := assistantIdx;
    var idx := assistantIdx + 1;
    while idx < |messages|
      invariant end + 1 == idx <= |messages|
      invariant ToolRun(messages, assistantIdx + 1) == ToolRun(messages, idx)
    {
      if messages[idx].role != Tool {
        break;
      }
      end := idx;
      idx := idx + 1;
    }
  }

  method MissingCallIDs(calls: seq<Name>, seen: set<Name>) returns (missing: seq<Name>)
    ensures missing == Missing(calls, seen)
  {
    missing := [];
    for i := 0 to |calls|
      invariant missing == Missing(calls[..i], seen)
    {
      assert calls[..i + 1][..i] == calls[..i];
      if calls[i] !in seen {
        missing := missing + [calls[i]];
      }
    }
    assert calls[..|calls|] == calls;
  }

  method CheckRound(assistant: Message, results: seq<Message>) returns (answered: Option<set<Name>>)
    ensures answered.Some? <==> WellFormedRound(assistant, results)
    ensures answered.Some? ==> answered.value == Elements(Answers(results))
  {
    var expected := ToolRoundCallIDs(assistant.calls);
    if expected.None? {
      return None;
    }
    var seen := ValidateToolRoundResults(results, expected.value);
    if seen.None? {
      return None;
    }
    for i := 0 to |results|
      invariant forall k :: 0 <= k < i ==> !results[k].HasToolCalls()
    {
      if results[i].HasToolCalls() {
        return None;
      }
    }
    answered := seen;
  }

  method InspectToolRound(assistant: Message, results: seq<Message>, start: nat, declarations: Declarations)
    returns (r: Judgement)
    ensures r == Observe(assistant, results, start, declarations)
  {
    var answered := CheckRound(assistant, results);
    if answered.None? {
      return Malformed(InvalidToolRound);
    }
    var missing := MissingCallIDs(assistant.calls, answered.value);
    var state := if |missing| == 0 then Complete else Pending;
    if assistant.id in declarations {
      var declared := declarations[assistant.id];
      if !KnownState(declared) {
        return Malformed(UnknownToolRoundState);
      }
      if declared == Interrupted && state == Pending {
        state := declared;
      } else if declared != state {
        return Malformed(ToolRoundStateConflict);
      }
    }
    r := Judged(Observation(assistant.id, start, start + |results|, state, missing));
  }

  /** Each unit starts the way its kind must. */
  predicate RoundsOpen(h: History) {
    match h
    case End => true
    case Broken => true
    case Next(Plain(m), rest) => IsPlain(m) && RoundsOpen(rest)
    case Next(Round(a, _), rest) => OpensRound(a) && RoundsOpen(rest)
  }

  /** The units of `h` stand in `messages` from index `from` to the end. */
  predicate At(h: History, messages: seq<Message>, from: nat)
    requires from <= |messages|
    decreases h
  {
    match h
    case End => from == |messages|
    case Broken => from < |messages| && !IsPlain(messages[from]) && !OpensRound(messages[from])
    case Next(Plain(m), rest) => from < |messages| && messages[from] == m && At(rest, messages, from + 1)
    case Next(Round(a, results), rest) =>
      var next := from + |results| + 1;
      && next <= |messages| && messages[from] == a
      && messages[from + 1..next] == results && ToolRun(messages, from + 1) == next
      && At(rest, messages, next)
  }

  lemma {:induction false} SplitOpens(messages: seq<Message>)
    ensures RoundsOpen(Split(messages))
    decreases |messages|
  {
    if |messages| > 0 {
      if IsPlain(messages[0]) {
        SplitOpens(messages[1..]);
      } else if OpensRound(messages[0]) {
        SplitOpens(messages[ToolRun(messages, 1)..]);
      }
    }
  }

  lemma {:induction false} SplitAt(messages: seq<Message>, from: nat)
    requires from <= |messages|
    ensures At(Split(messages[from..]), messages, from)
    decreases |messages| - from
  {
    if from < |messages| {
      var rest := SplitStep(messages, from);
      if IsPlain(messages[from]) {
        SplitAt(messages, from + 1);
      } else if OpensRound(messages[from]) {
        SplitAt(messages, ToolRun(messages, from + 1));
      }
    }
  }

  lemma {:induction false} WholeSplitAt(messages: seq<Message>)
    ensures At(Split(messages), messages, 0)
  {
    assert messages[0..] == messages;
    SplitAt(messages, 0);
  }

  method InspectToolRoundStates(messages: seq<Message>, declarations: Declarations) returns (r: Inspection)
    ensures r == Inspect(messages, declarations)
  {
    var observations: seq<Observation> := [];
    var seen: set<Name> := {};
    var index := 0;
    ghost var rest := Split(messages);
    SplitOpens(messages);
    WholeSplitAt(messages);
    while index < |messages|
      invariant 0 <= index <= |messages| && At(rest, messages, index) && RoundsOpen(rest)
      invariant Same(Inspect(messages, declarations), Check(rest, index, declarations, seen, observations))
    {
      var message := messages[index];
      if message.role == Tool || |message.results| > 0 {
        return Rejected(InvalidToolRound);
      }
      if !message.HasToolCalls() {
        index, rest := index + 1, rest.rest;
        continue;
      }
      if message.role != Assistant || (message.id != Anonymous && message.id in seen) {
        return Rejected(InvalidToolRound);
      }
      var end := ContiguousToolBlockEnd(messages, index);
      var results := messages[index + 1..end + 1];
      var observation := InspectToolRound(message, results, index, declarations);
      CheckStep(message, results, rest.rest, index, end + 1, declarations, seen, observations, observation);
      if observation.Malformed? {
        return Rejected(observation.error);
      }
      observations := observations + [observation.round];
      seen := seen + {message.id};
      index, rest := end + 1, rest.rest;
    }
    var met := CheckDeclarations(declarations, seen);
    r := if met then Inspected(observations) else Rejected(UnknownToolRoundState);
  }

  lemma CheckStep(assistant: Message, results: seq<Message>, rest: History, start: nat, next: nat,
                  declarations: Declarations, seen: set<Name>, done: seq<Observation>, o: Judgement)
    requires Round(assistant, results).FreshIn(seen) && next == start + |results| + 1
    requires o == Observe(assistant, results, start, declarations)
    ensures Check(Next(Round(assistant, results), rest), start, declarations, seen, done) ==
            if o.Malformed? then Rejected(o.error)
            else Check(rest, next, declarations, seen + {assistant.id}, done + [o.round])
  {
  }

  /** One step of the cut, by index. */
  lemma {:induction false} SplitStep(messages: seq<Message>, index: nat) returns (rest: History)
    requires index < |messages|
    ensures IsPlain(messages[index]) ==>
              && rest == Split(messages[index + 1..])
              && Split(messages[index..]) == Next(Plain(messages[index]), rest)
    ensures OpensRound(messages[index]) ==>
              var end := ToolRun(messages, index + 1);
              && rest == Split(messages[end..])
              && Split(messages[index..]) == Next(Round(messages[index], messages[index + 1..end]), rest)
    ensures !IsPlain(messages[index]) && !OpensRound(messages[index]) ==> Split(messages[index..]) == Broken
  {
    var end := ToolRun(messages, index + 1);
    ToolRunShift(messages, index, 1);
    SliceHead(messages, index);
    SliceWithin(messages, index, end);
    rest := if IsPlain(messages[index]) then Split(messages[index + 1..]) else Split(messages[end..]);
  }

  lemma {:induction false} ToolRunShift(messages: seq<Message>, index: nat, i: nat)
    requires index + i <= |messages|
    ensures ToolRun(messages[index..], i) + index == ToolRun(messages, index + i)
    decreases |messages| - index - i
  {
    if index + i < |messages| {
      assert messages[index..][i] == messages[index + i];
      ToolRunShift(messages, index, i + 1);
    }
  }

  method CheckDeclarations(declarations: Declarations, seen: set<Name>) returns (met: bool)
    ensures met <==> DeclarationsMet(declarations, seen)
  {
    var pending := declarations.Keys;
    while pending != {}
      invariant pending <= declarations.Keys
      invariant forall id :: id in declarations && id !in pending ==>
                  id != Anonymous && id in seen && KnownState(declarations[id])
      decreases |pending|
    {
      var id :| id in pending;
      if id == Anonymous || id !in seen || !KnownState(declarations[id]) {
        return false;
      }
      pending := pending - {id};
    }
    met := true;
  }
}
