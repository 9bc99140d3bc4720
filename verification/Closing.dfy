/** The check that closes a budget run (budget_retention.go), and what eviction hands to it. */
module Closing {
  import opened Results
  import opened Sequences
  import opened Messages
  import opened Rounds
  import opened Layouts
  import opened Matching
  import opened Landing
  import opened Retention
  import opened Merging

  /** The first index from `i` on with that identity, or -1. */
  function FirstFrom(messages: seq<Message>, id: Name, i: nat): (p: int)
    requires i <= |messages|
    ensures p == -1 || i <= p < |messages|
    ensures p >= 0 ==> messages[p].id == id
    ensures forall k :: i <= k < (if p < 0 then |messages| else p) ==> messages[k].id != id
    decreases |messages| - i
  {
    if i == |messages| then -1
    else if messages[i].id == id then i
    else FirstFrom(messages, id, i + 1)
  }

  /** Whatever carries the identity of `ref` carries exactly its content. */
  predicate Unchanged(codec: Codec, messages: seq<Message>, ref: ContentRef) {
    forall i :: 0 <= i < |messages| && messages[i].id == ref.id ==> codec.ref(messages[i]) == Some(ref)
  }

  function Position(messages: seq<Message>, ref: ContentRef): int {
    FirstFrom(messages, ref.id, 0)
  }

  predicate Present(codec: Codec, messages: seq<Message>, ref: ContentRef) {
    Unchanged(codec, messages, ref) && Position(messages, ref) >= 0
  }

  /** Every reference is present and unchanged, in the order given. */
  predicate OutputKeeps(codec: Codec, messages: seq<Message>, refs: seq<ContentRef>) {
    && (forall k :: 0 <= k < |refs| ==> Present(codec, messages, refs[k]))
    && (forall k :: 0 < k < |refs| ==> Position(messages, refs[k - 1]) < Position(messages, refs[k]))
  }

  method RequiredPosition(codec: Codec, messages: seq<Message>, required: ContentRef) returns (first: Option<int>)
    ensures first.Some? <==> Unchanged(codec, messages, required)
    ensures first.Some? ==> first.value == Position(messages, required)
  {
    var at := -1;
    for i := 0 to |messages|
      invariant forall j :: 0 <= j < i && messages[j].id == required.id ==> codec.ref(messages[j]) == Some(required)
      invariant FirstFrom(messages, required.id, 0) == if at < 0 then FirstFrom(messages, required.id, i) else at
    {
      if messages[i].id != required.id {
        continue;
      }
      if codec.ref(messages[i]) != Some(required) {
        return None;
      }
      if at < 0 {
        at := i;
      }
    }
    first := Some(at);
  }

  method ValidateRequiredOutput(codec: Codec, messages: seq<Message>, refs: seq<ContentRef>) returns (ok: bool)
    ensures ok <==> OutputKeeps(codec, messages, refs)
  {
    var previous := -1;
    for k := 0 to |refs|
      invariant forall j :: 0 <= j < k ==> Present(codec, messages, refs[j])
      invariant forall j :: 0 < j < k ==> Position(messages, refs[j - 1]) < Position(messages, refs[j])
      invariant previous == if k == 0 then -1 else Position(messages, refs[k - 1])
    {
      var first := RequiredPosition(codec, messages, refs[k]);
      if first.None? || first.value <= previous {
        return false;
      }
      previous := first.value;
    }
    ok := true;
  }

  /** The references of a list of messages, each of which has one. */
  predicate RefsOf(codec: Codec, messages: seq<Message>, refs: seq<ContentRef>) {
    |refs| == |messages| && forall k :: 0 <= k < |refs| ==>
        messages[k].id != Anonymous && codec.ref(messages[k]) == Some(refs[k])
  }

  method RequiredRefs(codec: Codec, messages: seq<Message>) returns (refs: Option<seq<ContentRef>>)
    ensures refs.Some? ==> RefsOf(codec, messages, refs.value)
    ensures refs.None? ==>
              exists k :: 0 <= k < |messages| && (messages[k].id == Anonymous || codec.ref(messages[k]).None?)
  {
    var out: seq<ContentRef> := [];
    for k := 0 to |messages|
      invariant RefsOf(codec, messages[..k], out)
    {
      if messages[k].id == Anonymous {
        return None;
      }
      var ref := codec.ref(messages[k]);
      if ref.None? {
        return None;
      }
      out := out + [ref.value];
    }
    assert messages[..|messages|] == messages;
    refs := Some(out);
  }

  lemma FirstOfUnique(messages: seq<Message>, i: nat)
    requires UniqueIds(messages) && i < |messages| && messages[i].id != Anonymous
    ensures FirstFrom(messages, messages[i].id, 0) == i
    ensures forall j :: 0 <= j < |messages| && messages[j].id == messages[i].id ==> j == i
  {
  }

  /** An output that repeats no identity and holds the required messages in order always passes. */
  lemma {:induction false} ClosingCheckPasses(codec: Codec, out: seq<Message>, marks: seq<bool>, refs: seq<ContentRef>)
    requires codec.Lawful() && UniqueIds(out) && |marks| == |out| && RefsOf(codec, Keep(out, marks), refs)
    ensures OutputKeeps(codec, out, refs)
  {
    var at := KeepPlaced(out, marks);
    forall k | 0 <= k < |refs|
      ensures Unchanged(codec, out, refs[k]) && Position(out, refs[k]) == at[k]
    {
      assert out[at[k]] == Keep(out, marks)[k];
      FirstOfUnique(out, at[k]);
    }
  }

  // ---------------------------------------------------------------- what a merge does to a strategy's choice

  lemma {:induction false} ChoiceDoesNotCollide(before: seq<Message>, selected: seq<bool>, chosen: seq<bool>)
    requires |before| == |selected| && Choice(selected, chosen) && UniqueIds(before)
    ensures !Collides(before, selected, Keep(before, chosen), |before|)
  {
    var outputs := Keep(before, chosen);
    var at := KeepPlaced(before, chosen);
    forall i, j | 0 <= i < |before| && selected[i] && before[i].id != Anonymous && 0 <= j < |outputs|
      ensures outputs[j].id != before[i].id
    {
      assert outputs[j] == before[at[j]] && chosen[at[j]] && at[j] != i;
      DifferentIds(before, i, at[j]);
    }
  }

  lemma DifferentIds(messages: seq<Message>, i: nat, k: nat)
    requires UniqueIds(messages) && i < |messages| && k < |messages| && i != k && messages[i].id != Anonymous
    ensures messages[i].id != messages[k].id
  {
  }

  /** Whatever optional messages are chosen, the merge accepts them. */
  lemma {:induction false} MergeOfChoice(before: seq<Message>, selected: seq<bool>, chosen: seq<bool>)
    requires |before| == |selected| && Choice(selected, chosen) && UniqueIds(before)
    ensures MergeOf(before, selected, Keep(before, chosen), false) ==
            Merged(if true in selected then Keep(before, MergeMarks(before, selected, Keep(before, chosen)))
                   else Keep(before, chosen))
  {
    KeepUniqueIds(before, chosen);
    ChoiceDoesNotCollide(before, selected, chosen);
    ChosenIsFree(before, selected, chosen);
  }

  /** The merge reads like the required and chosen messages together exactly when moving each kept message to the
      earliest copies the merge takes does not change the order of the kept messages. */
  lemma {:induction false} MergedTextIff(before: seq<Message>, selected: seq<bool>, chosen: seq<bool>)
    requires |before| == |selected| && Choice(selected, chosen)
    ensures var marks := MergeMarks(before, selected, Keep(before, chosen));
            Keep(before, marks) == Keep(before, Either(selected, chosen)) <==>
                OrderKept(before, Either(selected, chosen), marks)
  {
    var marks := MergeMarks(before, selected, Keep(before, chosen));
    ChosenIsFree(before, selected, chosen);
    MatchingConserves(before, selected, Keep(before, chosen));
    EitherCopies(before, selected, chosen);
    SameTextIff(before, Either(selected, chosen), marks);
  }

  lemma {:induction false} EitherUniform(h: History, a: seq<bool>, b: seq<bool>)
    requires |a| == |b| && Uniform(h, a) && Uniform(h, b)
    ensures Uniform(h, Either(a, b))
  {
    if h.Next? {
      var n := h.unit.Size();
      EitherUniform(h.rest, a[n..], b[n..]);
      assert Either(a, b)[n..] == Either(a[n..], b[n..]);
    }
  }

  lemma {:induction false} NothingRequired(before: seq<Message>, selected: seq<bool>, chosen: seq<bool>)
    requires |before| == |selected| == |chosen| && true !in selected
    ensures Either(selected, chosen) == chosen
  {
    forall i | 0 <= i < |selected|
      ensures Either(selected, chosen)[i] == chosen[i]
    {
      assert selected[i] in selected;
    }
  }

  /** When merging a sound choice of whole optional units gives that choice back, and with it a valid history. */
  lemma {:induction false} MergeYieldsChoiceIff(before: seq<Message>, selected: seq<bool>, chosen: seq<bool>)
    requires Valid(before) && UniqueIds(before) && |before| == |selected| && Choice(selected, chosen)
    requires Uniform(Split(before), selected) && Uniform(Split(before), chosen)
    ensures var outputs, wanted := Keep(before, chosen), Keep(before, Either(selected, chosen));
            var merged := MergeOf(before, selected, outputs, false);
            && merged.Merged? && Valid(wanted)
            && (merged.messages == wanted <==>
                true !in selected || OrderKept(before, Either(selected, chosen), MergeMarks(before, selected, outputs)))
  {
    MergeOfChoice(before, selected, chosen);
    MergedTextIff(before, selected, chosen);
    EitherUniform(Split(before), selected, chosen);
    DroppingUnitsKeepsRounds(before, Either(selected, chosen));
    if true !in selected {
      NothingRequired(before, selected, chosen);
    }
  }

  /** Matching gives the choice back mark by mark when no copy was chosen after an equal one was left out. */
  lemma {:induction false} EarliestMarks(before: seq<Message>, selected: seq<bool>, chosen: seq<bool>)
    requires |before| == |selected| && Choice(selected, chosen) && EarliestCopies(before, selected, chosen)
    ensures MergeMarks(before, selected, Keep(before, chosen)) == Either(selected, chosen)
  {
    MatchingRestoresIff(before, selected, chosen);
    var marks, wanted := MergeMarks(before, selected, Keep(before, chosen)), Either(selected, chosen);
    forall i | 0 <= i < |before|
      ensures marks[i] == wanted[i]
    {
      assert !selected[i] ==> marks[i] == chosen[i];
    }
  }

  /** Named optional messages are enough: then the merge always gives the choice back. */
  lemma {:induction false} NamedChoiceIsRestored(before: seq<Message>, selected: seq<bool>, chosen: seq<bool>)
    requires Valid(before) && UniqueIds(before) && |before| == |selected| && Choice(selected, chosen)
    requires Uniform(Split(before), selected) && Uniform(Split(before), chosen)
    requires forall i :: 0 <= i < |before| && chosen[i] ==> before[i].id != Anonymous
    ensures var merged := MergeOf(before, selected, Keep(before, chosen), false);
            merged == Merged(Keep(before, Either(selected, chosen))) && Valid(merged.messages)
  {
    assert EarliestCopies(before, selected, chosen);
    EarliestMarks(before, selected, chosen);
    MergeYieldsChoiceIff(before, selected, chosen);
    MergeOfChoice(before, selected, chosen);
    if true !in selected {
      NothingRequired(before, selected, chosen);
    }
  }
}
