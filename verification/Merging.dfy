/** Putting required and optional content back together (budget_retention.go). */
module Merging {
  import opened Sequences
  import opened Messages
  import opened Matching

  datatype Merge = Merged(messages: seq<Message>) | DuplicateIds | Unmergeable

  method SplitRequired(messages: seq<Message>, selected: seq<bool>)
    returns (required: seq<Message>, evictable: seq<Message>)
    requires |messages| == |selected|
    ensures required == Keep(messages, selected)
    ensures evictable == Keep(messages, Not(selected))
  {
    required, evictable := [], [];
    ghost var others := Not(selected);
    for i := 0 to |messages|
      invariant required == Keep(messages[..i], selected[..i])
      invariant evictable == Keep(messages[..i], others[..i])
    {
      KeepSnoc(messages, selected, i);
      KeepSnoc(messages, others, i);
      if selected[i] {
        required := required + [messages[i]];
      } else {
        evictable := evictable + [messages[i]];
      }
    }
    assert messages[..|messages|] == messages && selected[..|messages|] == selected && others[..|messages|] == others;
  }

  method TakeMatchingOutput(message: Message, outputs: seq<Message>, consumed: array<bool>) returns (taken: bool)
    requires consumed.Length == |outputs|
    modifies consumed
    ensures taken <==> message in Free(outputs, old(consumed[..]))
    ensures Free(outputs, consumed[..]) == Free(outputs, old(consumed[..])) - multiset{message}
  {
    ghost var before := consumed[..];
    for i := 0 to |outputs|
      invariant consumed[..] == before
      invariant forall j :: 0 <= j < i ==> before[j] || outputs[j] != message
    {
      if !consumed[i] && outputs[i] == message {
        FreeTake(outputs, before, i);
        consumed[i] := true;
        assert consumed[..] == before[i := true];
        return true;
      }
    }
    FreeWithout(outputs, before, message);
    taken := false;
  }

  // ---------------------------------------------------------------- merging

  predicate Collides(before: seq<Message>, selected: seq<bool>, outputs: seq<Message>, n: nat)
    requires |before| == |selected| && n <= |before|
  {
    exists i, j :: 0 <= i < n && selected[i] && before[i].id != Anonymous && 0 <= j < |outputs|
                   && outputs[j].id == before[i].id
  }

  function FirstOptional(selected: seq<bool>): (f: nat)
    ensures f <= |selected|
    ensures forall i :: 0 <= i < f ==> selected[i]
    ensures f < |selected| ==> !selected[f]
  {
    if |selected| == 0 || !selected[0] then 0 else 1 + FirstOptional(selected[1..])
  }

  /** The summary takes the place of the first optional message. */
  function Inserted(before: seq<Message>, selected: seq<bool>, outputs: seq<Message>): seq<Message>
    requires |before| == |selected|
  {
    var f := FirstOptional(selected);
    if f == |selected| then before else before[..f] + outputs + Keep(before[f..], selected[f..])
  }

  function MergeOf(before: seq<Message>, selected: seq<bool>, outputs: seq<Message>, summarized: bool): Merge
    requires |before| == |selected|
  {
    if true !in selected then Merged(outputs)
    else if !UniqueIds(before) || !UniqueIds(outputs) then DuplicateIds
    else if Collides(before, selected, outputs, |before|) then Unmergeable
    else if summarized then Merged(Inserted(before, selected, outputs))
    else if multiset(outputs) <= multiset(Keep(before, Not(selected))) then
      Merged(Keep(before, MergeMarks(before, selected, outputs)))
    else Unmergeable
  }

  method RequiredIDCollision(id: Name, outputs: seq<Message>) returns (hit: bool)
    ensures hit <==> id != Anonymous && exists j :: 0 <= j < |outputs| && outputs[j].id == id
  {
    if id == Anonymous {
      return false;
    }
    for j := 0 to |outputs|
      invariant forall k :: 0 <= k < j ==> outputs[k].id != id
    {
      if outputs[j].id == id {
        return true;
      }
    }
    hit := false;
  }

  method MergeRequired(before: seq<Message>, selected: seq<bool>, outputs: seq<Message>, summarized: bool)
    returns (r: Merge)
    requires |before| == |selected|
    ensures r == MergeOf(before, selected, outputs, summarized)
  {
    if true !in selected {
      return Merged(outputs);
    }
    var unique := ValidateUniqueMessageIDs(before);
    var distinct := ValidateUniqueMessageIDs(outputs);
    if !unique || !distinct {
      return DuplicateIds;
    }
    if summarized {
      r := MergeSummary(before, selected, outputs);
    } else {
      r := MergeEvicted(before, selected, outputs);
    }
  }

  lemma CollidesStep(before: seq<Message>, selected: seq<bool>, outputs: seq<Message>, n: nat)
    requires |before| == |selected| && n < |before|
    ensures Collides(before, selected, outputs, n + 1) <==>
            || Collides(before, selected, outputs, n)
            || (selected[n] && before[n].id != Anonymous && exists j :: 0 <= j < |outputs|
                                                                        && outputs[j].id == before[n].id)
    ensures Collides(before, selected, outputs, n + 1) ==> Collides(before, selected, outputs, |before|)
  {
  }

  lemma {:induction false} KeepStep<T>(out: seq<T>, s: seq<T>, marks: seq<bool>, i: nat)
    requires |s| == |marks| && i < |s| && Same(out, Keep(s[..i], marks[..i]))
    ensures Same(if marks[i] then out + [s[i]] else out, Keep(s[..i + 1], marks[..i + 1]))
  {
    KeepSnoc(s, marks, i);
    assert out + [] == out;
  }

  method MergeEvicted(before: seq<Message>, selected: seq<bool>, outputs: seq<Message>) returns (r: Merge)
    requires |before| == |selected|
    ensures r == if Collides(before, selected, outputs, |before|) then Unmergeable
                 else if multiset(outputs) <= multiset(Keep(before, Not(selected))) then
                   Merged(Keep(before, MergeMarks(before, selected, outputs)))
                 else Unmergeable
  {
    var out: seq<Message> := [];
    var consumed := new bool[|outputs|](_ => false);
    ghost var marks := MergeMarks(before, selected, outputs);
    KeepAll(outputs, Not(consumed[..]));
    for i := 0 to |before|
      invariant Same(out, Keep(before[..i], marks[..i]))
      invariant !Collides(before, selected, outputs, i)
      invariant LeftOf(Free(outputs, consumed[..]), before, selected, outputs, i)
    {
      KeepStep(out, before, marks, i);
      LeftStep(Free(outputs, consumed[..]), before, selected, outputs, i);
      CollidesStep(before, selected, outputs, i);
      if selected[i] {
        var hit := RequiredIDCollision(before[i].id, outputs);
        if hit {
          return Unmergeable;
        }
        out := out + [before[i]];
      } else {
        var taken := TakeMatchingOutput(before[i], outputs, consumed);
        if taken {
          out := out + [before[i]];
        }
      }
    }
    KeepWhole(before, marks);
    FreeEmpty(outputs, consumed[..]);
    LeftAtEnd(Free(outputs, consumed[..]), before, selected, outputs);
    if false in consumed[..] {
      return Unmergeable;
    }
    r := Merged(out);
  }

  /** The result after the messages before `i` were handled. */
  function InsertedUpTo(before: seq<Message>, selected: seq<bool>, outputs: seq<Message>, i: nat): seq<Message>
    requires |before| == |selected| && i <= |before|
  {
    var f := FirstOptional(selected);
    if i <= f then before[..i] else before[..f] + outputs + Keep(before[f..i], selected[f..i])
  }

  lemma {:induction false} InsertedStep(before: seq<Message>, selected: seq<bool>, outputs: seq<Message>, i: nat)
    requires |before| == |selected| && i < |before|
    ensures InsertedUpTo(before, selected, outputs, i + 1) ==
            InsertedUpTo(before, selected, outputs, i) +
            (if selected[i] then [before[i]] else if i == FirstOptional(selected) then outputs else [])
  {
    var f := FirstOptional(selected);
    if i < f {
      assert before[..i + 1] == before[..i] + [before[i]];
    } else {
      var own := if selected[i] then [before[i]] else [];
      KeepNext(before, selected, f, i);
      ConcatAssoc(before[..f] + outputs, Keep(before[f..i], selected[f..i]), own);
      if i == f {
        assert before[f..f] == [] && selected[f..f] == [];
        assert before[..f] + outputs + [] == before[..f] + outputs;
      }
    }
  }

  lemma {:induction false} KeepNext<T>(before: seq<T>, selected: seq<bool>, f: nat, i: nat)
    requires |before| == |selected| && f <= i < |before|
    ensures Keep(before[f..i + 1], selected[f..i + 1]) ==
            Keep(before[f..i], selected[f..i]) + if selected[i] then [before[i]] else []
  {
    var b, s := before[f..], selected[f..];
    assert b[..i - f] == before[f..i] && b[..i - f + 1] == before[f..i + 1];
    assert s[..i - f] == selected[f..i] && s[..i - f + 1] == selected[f..i + 1];
    KeepSnoc(b, s, i - f);
  }

  method MergeSummary(before: seq<Message>, selected: seq<bool>, outputs: seq<Message>) returns (r: Merge)
    requires |before| == |selected|
    ensures r == if Collides(before, selected, outputs, |before|) then Unmergeable
                 else Merged(Inserted(before, selected, outputs))
  {
    var out: seq<Message> := [];
    var inserted := false;
    ghost var f := FirstOptional(selected);
    for i := 0 to |before|
      invariant !Collides(before, selected, outputs, i)
      invariant inserted == (f < i)
      invariant Same(out, InsertedUpTo(before, selected, outputs, i))
    {
      InsertedStep(before, selected, outputs, i);
      assert out + [] == out;
      CollidesStep(before, selected, outputs, i);
      if selected[i] {
        var hit := RequiredIDCollision(before[i].id, outputs);
        if hit {
          return Unmergeable;
        }
        out := out + [before[i]];
      } else if !inserted {
        out := out + outputs;
        inserted := true;
      }
    }
    assert before[f..|before|] == before[f..] && selected[f..|before|] == selected[f..] && before[..|before|] == before;
    r := Merged(out);
  }

  // ---------------------------------------------------------------- what a merge guarantees

  /** A merge of evicted content holds the required messages and the outputs, nothing else, each as
      often as it was given. */
  lemma {:induction false} MergeConserves(before: seq<Message>, selected: seq<bool>, outputs: seq<Message>)
    requires |before| == |selected| && MergeOf(before, selected, outputs, false).Merged?
    ensures multiset(MergeOf(before, selected, outputs, false).messages) ==
            multiset(Keep(before, selected)) + multiset(outputs)
  {
    if true in selected {
      MatchingConserves(before, selected, outputs);
    } else {
      KeepNone(before, selected);
    }
  }

  lemma {:induction false} UniqueInserted(a: seq<Message>, b: seq<Message>, c: seq<Message>)
    requires UniqueIds(a + c) && UniqueIds(b)
    requires forall m, o :: m in a + c && o in b && m.id != Anonymous ==> m.id != o.id
    ensures UniqueIds(a + b + c)
  {
    var s, t := a + b + c, a + c;
    assert forall i :: 0 <= i < |a| ==> s[i] == a[i] == t[i];
    assert forall i :: |a| <= i < |a| + |b| ==> s[i] == b[i - |a|];
    assert forall i :: |a| + |b| <= i < |s| ==> s[i] == t[i - |b|];
    forall i, j | 0 <= i < j < |s| && s[i].id != Anonymous
      ensures s[i].id != s[j].id
    {
      if |a| <= i < |a| + |b| && |a| + |b| <= j {
        assert t[j - |b|] in t;
      } else if i < |a| && |a| <= j < |a| + |b| {
        assert t[i] in t;
      }
    }
  }

  lemma {:induction false} KeepInserted<T>(a: seq<T>, b: seq<T>, c: seq<T>) returns (marks: seq<bool>)
    ensures |marks| == |a + b + c| && Keep(a + b + c, marks) == a + c
  {
    var ma, mb, mc := seq(|a|, _ => true), seq(|b|, _ => false), seq(|c|, _ => true);
    marks := ma + mb + mc;
    KeepConcat(a + b, c, ma + mb, mc);
    KeepConcat(a, b, ma, mb);
    KeepAll(a, ma);
    KeepNone(b, mb);
    KeepAll(c, mc);
    assert a + [] + c == a + c;
  }

  /** Where the summary is put, the required messages around it are exactly the required messages. */
  lemma {:induction false} InsertedParts(before: seq<Message>, selected: seq<bool>)
    requires |before| == |selected|
    ensures var f := FirstOptional(selected);
            before[..f] + Keep(before[f..], selected[f..]) == Keep(before, selected)
  {
    var f := FirstOptional(selected);
    assert before == before[..f] + before[f..] && selected == selected[..f] + selected[f..];
    KeepConcat(before[..f], before[f..], selected[..f], selected[f..]);
    KeepAll(before[..f], selected[..f]);
  }

  lemma {:induction false} SummaryMerge(before: seq<Message>, selected: seq<bool>, outputs: seq<Message>, from: nat)
    returns (marks: seq<bool>, front: seq<Message>)
    requires |before| == |selected| && from <= |before| && forall i :: from <= i < |before| ==> selected[i]
    requires UniqueIds(before) && UniqueIds(outputs) && !Collides(before, selected, outputs, |before|)
    requires FirstOptional(selected) < |selected|
    ensures var out := Inserted(before, selected, outputs);
            && |marks| == |out| && Keep(out, marks) == Keep(before, selected)
            && UniqueIds(out) && out == front + before[from..]
  {
    var f := FirstOptional(selected);
    var a, c := before[..f], Keep(before[f..], selected[f..]);
    InsertedParts(before, selected);
    marks := KeepInserted(a, outputs, c);
    KeepUniqueIds(before, selected);
    KeepMembers(before, selected);
    forall m: Message, o: Message | m in a + c && o in outputs && m.id != Anonymous
      ensures m.id != o.id
    {
      var i :| 0 <= i < |before| && selected[i] && before[i] == m;
      var j :| 0 <= j < |outputs| && outputs[j] == o;
    }
    UniqueInserted(a, outputs, c);
    KeepSuffix(before[f..], selected[f..], from - f);
    assert before[f..][from - f..] == before[from..];
    var middle := Keep(before[f..][..from - f], selected[f..][..from - f]);
    front := a + outputs + middle;
    ConcatAssoc(a + outputs, middle, before[from..]);
  }

  lemma {:induction false} EvictedMerge(before: seq<Message>, selected: seq<bool>, outputs: seq<Message>, from: nat)
    returns (marks: seq<bool>, front: seq<Message>)
    requires |before| == |selected| && from <= |before| && forall i :: from <= i < |before| ==> selected[i]
    requires UniqueIds(before)
    ensures var out := Keep(before, MergeMarks(before, selected, outputs));
            && |marks| == |out| && Keep(out, marks) == Keep(before, selected)
            && UniqueIds(out) && out == front + before[from..]
  {
    var more := MergeMarks(before, selected, outputs);
    marks := KeepFewer(before, selected, more);
    KeepUniqueIds(before, more);
    KeepSuffix(before, more, from);
    front := Keep(before[..from], more[..from]);
  }

  lemma {:induction false} SelectedSuffix(selected: seq<bool>, from: nat)
    requires from < |selected| && forall i :: from <= i < |selected| ==> selected[i]
    ensures true in selected
  {
    assert selected[from];
  }

  /** Whatever the merge, the required messages survive unchanged and in order, a required suffix stays
      the suffix, and no identity is repeated. */
  lemma {:induction false} MergeKeepsRequired(before: seq<Message>, selected: seq<bool>, outputs: seq<Message>,
                                              summarized: bool, from: nat)
    returns (marks: seq<bool>, front: seq<Message>)
    requires |before| == |selected| && from <= |before| && forall i :: from <= i < |before| ==> selected[i]
    requires UniqueIds(before) && MergeOf(before, selected, outputs, summarized).Merged?
    requires FirstOptional(selected) < |selected|
    ensures var out := MergeOf(before, selected, outputs, summarized).messages;
            && |marks| == |out| && Keep(out, marks) == Keep(before, selected)
            && (true in selected ==> UniqueIds(out))
            && out == front + before[from..]
  {
    if true !in selected {
      KeepNone(before, selected);
      marks := seq(|outputs|, _ => false);
      KeepNone(outputs, marks);
      front := outputs;
      if from < |before| {
        SelectedSuffix(selected, from);
      }
      assert outputs + [] == outputs;
    } else if summarized {
      marks, front := SummaryMerge(before, selected, outputs, from);
    } else {
      marks, front := EvictedMerge(before, selected, outputs, from);
    }
  }
}
