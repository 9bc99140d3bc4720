/** Canonical complete rounds (tool_turn.go) and the unit boundaries eviction relies on (pipeline.go). */
module ToolTurns {
  import opened Results
  import opened Sequences
  import opened Messages
  import opened Rounds
  import opened Layouts

  /** `ToolRound.Validate`: an assistant with calls, and exactly one result for each call. */
  predicate CompleteRound(assistant: Message, results: seq<Message>) {
    && assistant.role == Assistant && assistant.HasToolCalls() && CallsNamed(assistant.calls)
    && ResultsFit(results, Elements(assistant.calls))
    && |Elements(Answers(results))| == |Elements(assistant.calls)|
  }

  method ValidateToolRound(assistant: Message, results: seq<Message>) returns (ok: bool)
    ensures ok <==> CompleteRound(assistant, results)
  {
    if assistant.role != Assistant || |assistant.calls| == 0 {
      return false;
    }
    var expected := ToolRoundCallIDs(assistant.calls);
    if expected.None? {
      return false;
    }
    var seen := ValidateToolRoundResults(results, expected.value);
    if seen.None? {
      return false;
    }
    ok := |seen.value| == |expected.value|;
  }

  predicate CompleteAt(messages: seq<Message>, index: nat)
    requires index < |messages|
  {
    CompleteRound(messages[index], messages[index + 1..ToolRun(messages, index + 1)])
  }

  /** `ToolRoundFromMessages`: the results of a complete round at `index`, or nothing. */
  method ToolRoundFromMessages(messages: seq<Message>, index: int) returns (results: Option<seq<Message>>)
    ensures results.Some? <==> 0 <= index < |messages| && CompleteAt(messages, index)
    ensures results.Some? ==> results.value == messages[index + 1..ToolRun(messages, index + 1)]
  {
    if index < 0 || index >= |messages| {
      return None;
    }
    var i := index + 1;
    while i < |messages| && messages[i].role == Tool
      invariant index + 1 <= i <= |messages|
      invariant ToolRun(messages, index + 1) == ToolRun(messages, i)
    {
      i := i + 1;
    }
    var ok := ValidateToolRound(messages[index], messages[index + 1..i]);
    results := if ok then Some(messages[index + 1..i]) else None;
  }

  /** `toolRoundEndIndex`: the last message of the complete round at `index`, or `index` itself. */
  function RoundEnd(messages: seq<Message>, index: nat): (end: nat)
    requires index < |messages|
    ensures index <= end < |messages|
  {
    if CompleteAt(messages, index) then ToolRun(messages, index + 1) - 1 else index
  }

  method ToolRoundEndIndex(messages: seq<Message>, index: nat) returns (end: nat)
    requires index < |messages|
    ensures end == RoundEnd(messages, index)
  {
    var results := ToolRoundFromMessages(messages, index);
    end := if results.None? then index else index + |results.value|;
  }

  /** `toolRoundStartForTail`: where the complete round that ends the history starts, or the last index. */
  method ToolRoundStartForTail(messages: seq<Message>) returns (at: nat)
    requires |messages| > 0
    ensures at == TailStart(messages)
  {
    var last := |messages| - 1;
    var start := last;
    while start > 0 && messages[start - 1].role == Tool
      invariant 0 <= start <= last
      invariant RunStart(messages, last) == RunStart(messages, start)
    {
      start := start - 1;
    }
    if start > 0 && messages[start - 1].role == Assistant && messages[start - 1].HasToolCalls() {
      var end := ToolRoundEndIndex(messages, start - 1);
      if end == last {
        return start - 1;
      }
    }
    at := last;
  }

  function RunStart(messages: seq<Message>, i: nat): (start: nat)
    requires i < |messages|
    ensures start <= i
  {
    if i > 0 && messages[i - 1].role == Tool then RunStart(messages, i - 1) else i
  }

  function TailStart(messages: seq<Message>): (at: nat)
    requires |messages| > 0
    ensures at < |messages|
  {
    var last := |messages| - 1;
    var start := RunStart(messages, last);
    if start > 0 && messages[start - 1].role == Assistant && messages[start - 1].HasToolCalls()
       && RoundEnd(messages, start - 1) == last
    then start - 1 else last
  }

  // ---------------------------------------------------------------- complete rounds are units

  lemma {:induction false} MissingNone(calls: seq<Name>, answered: set<Name>)
    ensures |Missing(calls, answered)| == 0 <==> Elements(calls) <= answered
  {
    if |calls| > 0 {
      var last := |calls| - 1;
      MissingNone(calls[..last], answered);
      assert calls == calls[..last] + [calls[last]];
      assert Elements(calls) == Elements(calls[..last]) + {calls[last]};
    }
  }

  /** For a well-formed round, having no missing call is the same as counting as complete. */
  lemma {:induction false} CompleteIsNothingMissing(u: Unit)
    requires ValidUnit(u) && u.Round?
    ensures CompleteRound(u.assistant, u.results) <==> CompleteUnit(u)
  {
    var calls, answered := Elements(u.assistant.calls), Elements(Answers(u.results));
    assert answered <= calls;
    MissingNone(u.assistant.calls, answered);
    if |answered| == |calls| {
      SubsetSize(answered, calls);
    }
    if calls <= answered {
      assert answered == calls;
    }
  }
}
