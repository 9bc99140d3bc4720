/** Removing messages from the stored history (conversation_delta.go). */
module Removal {
  import opened Results
  import opened Sequences
  import opened Messages
  import opened Rounds
  import opened Layouts
  import opened ToolTurns

  function Removed(block: seq<Message>, remove: set<Name>): (n: nat)
    ensures n <= |block|
  {
    if |block| == 0 then 0
    else
      var last := |block| - 1;
      Removed(block[..last], remove) + if block[last].id in remove then 1 else 0
  }

  lemma {:induction false} RemovedBounds(block: seq<Message>, remove: set<Name>)
    ensures Removed(block, remove) == 0 <==> forall k :: 0 <= k < |block| ==> block[k].id !in remove
    ensures Removed(block, remove) == |block| <==> forall k :: 0 <= k < |block| ==> block[k].id in remove
  {
    if |block| > 0 {
      var last := |block| - 1;
      RemovedBounds(block[..last], remove);
      assert forall k :: 0 <= k < last ==> block[..last][k] == block[k];
    }
  }

  predicate Candidate(messages: seq<Message>, i: nat)
    requires i < |messages|
  {
    messages[i].role == Assistant && messages[i].HasToolCalls() && CompleteAt(messages, i)
  }

  /** The removal takes part, but not all, of the complete round at `i`. */
  predicate SplitsRound(messages: seq<Message>, remove: set<Name>, i: nat)
    requires i < |messages|
  {
    && Candidate(messages, i)
    && 0 < Removed(messages[i..ToolRun(messages, i + 1)], remove) < ToolRun(messages, i + 1) - i
  }

  method ValidateToolRoundRemoval(messages: seq<Message>, remove: set<Name>) returns (ok: bool)
    ensures ok <==> forall i :: 0 <= i < |messages| ==> !SplitsRound(messages, remove, i)
  {
    var i := 0;
    while i < |messages|
      invariant 0 <= i <= |messages|
      invariant forall j :: 0 <= j < i ==> !SplitsRound(messages, remove, j)
    {
      if messages[i].role == Assistant && messages[i].HasToolCalls() {
        var results := ToolRoundFromMessages(messages, i);
        if results.Some? {
          var end := i + |results.value| + 1;
          var removed := CountRemoved(messages, i, end, remove);
          if removed > 0 && removed != end - i {
            assert SplitsRound(messages, remove, i);
            return false;
          }
          ToolRunRoles(messages, i + 1);
          assert forall j :: i < j < end ==> messages[j].role == Tool;
          i := end;
          continue;
        }
      }
      i := i + 1;
    }
    ok := true;
  }

  method CountRemoved(messages: seq<Message>, start: nat, end: nat, remove: set<Name>) returns (removed: nat)
    requires start <= end <= |messages|
    ensures removed == Removed(messages[start..end], remove)
  {
    removed := 0;
    for k := start to end
      invariant removed == Removed(messages[start..k], remove)
    {
      assert messages[start..k + 1][..k - start] == messages[start..k];
      if messages[k].id in remove {
        removed := removed + 1;
      }
    }
  }

  function Marks(messages: seq<Message>, remove: set<Name>): (marks: seq<bool>)
    ensures |marks| == |messages|
  {
    seq(|messages|, i requires 0 <= i < |messages| => messages[i].id !in remove)
  }

  /** The segment left by a remove-messages delta; only in the history a removal can be refused. */
  method RemoveMessages(history: bool, messages: seq<Message>, ids: seq<Name>) returns (next: Option<seq<Message>>)
    ensures next.None? <==> history && exists i :: 0 <= i < |messages| && SplitsRound(messages, Elements(ids), i)
    ensures next.Some? ==> next.value == Keep(messages, Marks(messages, Elements(ids)))
  {
    var remove: set<Name> := {};
    for k := 0 to |ids|
      invariant remove == Elements(ids[..k])
    {
      remove := remove + {ids[k]};
    }
    assert ids[..|ids|] == ids;
    if history {
      var ok := ValidateToolRoundRemoval(messages, remove);
      if !ok {
        return None;
      }
    }
    var kept: seq<Message> := [];
    ghost var marks := Marks(messages, remove);
    for i := 0 to |messages|
      invariant kept == Keep(messages[..i], marks[..i])
    {
      KeepSnoc(messages, marks, i);
      if messages[i].id !in remove {
        kept := kept + [messages[i]];
      }
    }
    assert messages[..|messages|] == messages && marks[..|marks|] == marks;
    next := Some(kept);
  }

  // ---------------------------------------------------------------- removal and rounds

  /** In a complete layout, the messages that open rounds are exactly the candidates. */
  lemma {:induction false} OpeningIsCandidate(h: History, messages: seq<Message>, from: nat, seen: set<Name>, i: nat)
    requires from <= i < |messages| && At(h, messages, from) && Layout(h, seen) && AllComplete(h)
    ensures OpensRound(messages[i]) <==> Candidate(messages, i)
    decreases h
  {
    if h.Next? {
      InsideUnit(h, messages, from);
      if i == from && h.unit.Round? {
        CompleteIsNothingMissing(h.unit);
      } else if i >= from + h.unit.Size() {
        OpeningIsCandidate(h.rest, messages, from + h.unit.Size(), seen + h.unit.Names(), i);
      }
    }
  }

  lemma {:induction false} BlockMarks(messages: seq<Message>, remove: set<Name>, i: nat, end: nat)
    requires i < end <= |messages|
    ensures var marks := Marks(messages, remove);
            var n := Removed(messages[i..end], remove);
            0 < n < end - i <==> exists k :: i <= k < end && marks[k] != marks[i]
  {
    var block, marks := messages[i..end], Marks(messages, remove);
    RemovedBounds(block, remove);
    assert forall k :: i <= k < end ==> block[k - i] == messages[k];
    if k :| i <= k < end && marks[k] != marks[i] {
      assert block[k - i].id in remove <==> block[0].id !in remove;
    } else {
      forall k | 0 <= k < |block|
        ensures block[k].id in remove <==> block[0].id in remove
      {
        assert marks[i + k] == marks[i];
      }
    }
  }

  /** In a history whose rounds are all complete, exactly the removals of whole units are accepted. */
  lemma {:induction false} AcceptedIffWholeUnits(messages: seq<Message>, remove: set<Name>)
    requires ValidComplete(messages)
    ensures (forall i :: 0 <= i < |messages| ==> !SplitsRound(messages, remove, i)) <==>
            Uniform(Split(messages), Marks(messages, remove))
  {
    var h, marks := Split(messages), Marks(messages, remove);
    ValidIsLayout(messages);
    LayoutIntact(h, {});
    WholeSplitAt(messages);
    assert marks[0..] == marks;
    if forall i :: 0 <= i < |messages| ==> !SplitsRound(messages, remove, i) {
      forall i, k | 0 <= i < |messages| && OpensRound(messages[i]) && i <= k < ToolRun(messages, i + 1)
        ensures marks[k] == marks[i]
      {
        OpeningIsCandidate(h, messages, 0, {}, i);
        BlockMarks(messages, remove, i, ToolRun(messages, i + 1));
        assert !SplitsRound(messages, remove, i);
      }
      UniformOfBlocks(h, messages, 0, marks);
    }
    if Uniform(h, marks) {
      forall i | 0 <= i < |messages|
        ensures !SplitsRound(messages, remove, i)
      {
        OpeningIsCandidate(h, messages, 0, {}, i);
        BlockMarks(messages, remove, i, ToolRun(messages, i + 1));
        forall k | i <= k < ToolRun(messages, i + 1) && OpensRound(messages[i])
          ensures marks[k] == marks[i]
        {
          BlocksOfUniform(h, messages, 0, marks, i, k);
        }
      }
    }
  }

  /** An accepted removal keeps the history valid with every round complete. */
  lemma {:induction false} RemovalKeepsRoundsComplete(messages: seq<Message>, remove: set<Name>)
    requires ValidComplete(messages)
    requires forall i :: 0 <= i < |messages| ==> !SplitsRound(messages, remove, i)
    ensures ValidComplete(Keep(messages, Marks(messages, remove)))
  {
    AcceptedIffWholeUnits(messages, remove);
    AllCompleteKept(Split(messages), Marks(messages, remove));
    DroppingUnitsKeepsRounds(messages, Marks(messages, remove));
  }
}
