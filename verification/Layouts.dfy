/** The grammar of valid histories: a list of plain messages and whole tool rounds.

`Flatten` writes a layout out as messages. The scanner of module `Rounds` accepts exactly the
flattened layouts, so facts about removing, keeping or extending rounds are facts about lists of
units. */
module Layouts {
  import opened Sequences
  import opened Messages
  import opened Rounds

  predicate ValidUnit(u: Unit) {
    if u.Plain? then IsPlain(u.message)
    else OpensRound(u.assistant) && WellFormedRound(u.assistant, u.results)
  }

  function Unanswered(u: Unit): seq<Name> {
    if u.Plain? then [] else Missing(u.assistant.calls, Elements(Answers(u.results)))
  }

  predicate CompleteUnit(u: Unit) {
    |Unanswered(u)| == 0
  }

  predicate Agrees(u: Unit, declarations: Declarations) {
    u.Round? ==> !Contradicts(Unanswered(u), declarations, u.assistant.id)
  }

  /** What inspection reports about a unit that starts at `start`. */
  function Report(u: Unit, start: nat, declarations: Declarations): seq<Observation> {
    if u.Plain? then []
    else [Observation(u.assistant.id, start, start + |u.results|,
                      Settle(Unanswered(u), declarations, u.assistant.id), Unanswered(u))]
  }

  function Flatten(h: History): seq<Message> {
    match h
    case End => []
    case Broken => []
    case Next(u, rest) => u.Content() + Flatten(rest)
  }

  /** Every unit is valid, and no round repeats a present assistant identity. */
  predicate Layout(h: History, seen: set<Name>) {
    match h
    case End => true
    case Broken => false
    case Next(u, rest) => ValidUnit(u) && u.FreshIn(seen) && Layout(rest, seen + u.Names())
  }

  predicate Agree(h: History, declarations: Declarations) {
    h.Next? ==> Agrees(h.unit, declarations) && Agree(h.rest, declarations)
  }

  function Reports(h: History, start: nat, declarations: Declarations): seq<Observation> {
    if h.Next? then Report(h.unit, start, declarations) + Reports(h.rest, start + h.unit.Size(), declarations)
    else []
  }

  function RoundNames(h: History): set<Name> {
    if h.Next? then h.unit.Names() + RoundNames(h.rest) else {}
  }

  // ---------------------------------------------------------------- cutting and writing out

  lemma {:induction false} ToolRunExact(messages: seq<Message>, i: nat, end: nat)
    requires i <= end <= |messages|
    requires forall k :: i <= k < end ==> messages[k].role == Tool
    requires end < |messages| ==> messages[end].role != Tool
    ensures ToolRun(messages, i) == end
    decreases end - i
  {
    if i < end {
      ToolRunExact(messages, i + 1, end);
    }
  }

  lemma {:induction false} ToolRunRoles(messages: seq<Message>, i: nat)
    requires i <= |messages|
    ensures forall k :: i <= k < ToolRun(messages, i) ==> messages[k].role == Tool
    decreases |messages| - i
  {
    if ToolRun(messages, i) > i {
      ToolRunRoles(messages, i + 1);
    }
  }

  predicate StartsUnit(tail: seq<Message>) {
    |tail| == 0 || tail[0].role != Tool
  }

  lemma FlattenHead(h: History, seen: set<Name>)
    requires Layout(h, seen)
    ensures StartsUnit(Flatten(h))
  {
  }

  /** Cutting puts a valid unit at the front back exactly. */
  lemma {:induction false} SplitUnit(u: Unit, tail: seq<Message>)
    requires ValidUnit(u) && StartsUnit(tail)
    ensures Split(u.Content() + tail) == Next(u, Split(tail))
  {
    var all := u.Content() + tail;
    if u.Plain? {
      assert all[1..] == tail;
    } else {
      var n := u.Size();
      assert all[0] == u.assistant && all[1..n] == u.results && all[n..] == tail;
      assert forall k :: 1 <= k < n ==> all[k] == u.results[k - 1];
      ToolRunExact(all, 1, n);
    }
  }

  lemma {:induction false} SplitFlatten(h: History, seen: set<Name>)
    requires Layout(h, seen)
    ensures Split(Flatten(h)) == h
  {
    if h.Next? {
      FlattenHead(h.rest, seen + h.unit.Names());
      SplitUnit(h.unit, Flatten(h.rest));
      SplitFlatten(h.rest, seen + h.unit.Names());
    }
  }

  /** Units that stand in a history write out the part they span. */
  lemma {:induction false} FlattenAt(h: History, messages: seq<Message>, from: nat, seen: set<Name>)
    requires from <= |messages| && At(h, messages, from) && Layout(h, seen)
    ensures Flatten(h) == messages[from..]
    decreases h
  {
    if h.Next? {
      FlattenAt(h.rest, messages, from + h.unit.Size(), seen + h.unit.Names());
      SliceBlock(messages, from, from + h.unit.Size());
      assert [messages[from]] + [] == [messages[from]];
    }
  }

  lemma {:induction false} FlattenSplit(messages: seq<Message>, seen: set<Name>)
    requires Layout(Split(messages), seen)
    ensures Flatten(Split(messages)) == messages
  {
    WholeSplitAt(messages);
    FlattenAt(Split(messages), messages, 0, seen);
  }

  // ---------------------------------------------------------------- judging a layout

  lemma NamesAssoc(a: set<Name>, b: set<Name>, c: set<Name>)
    ensures a + {} == a && a + (b + c) == (a + b) + c
  {
  }

  ghost predicate Acceptable(h: History, declarations: Declarations, seen: set<Name>) {
    Layout(h, seen) && Agree(h, declarations) && DeclarationsMet(declarations, seen + RoundNames(h))
  }

  ghost predicate Passes(u: Unit, declarations: Declarations, seen: set<Name>) {
    ValidUnit(u) && u.FreshIn(seen) && Agrees(u, declarations)
  }

  /** One unit of the list is one step of the judgement. */
  lemma {:induction false} CheckUnit(h: History, start: nat, declarations: Declarations, seen: set<Name>,
                                     done: seq<Observation>)
    requires h.Next? && RoundsOpen(h)
    ensures !Passes(h.unit, declarations, seen) ==> Check(h, start, declarations, seen, done).Rejected?
    ensures Passes(h.unit, declarations, seen) ==>
              Same(Check(h, start, declarations, seen, done),
                   Check(h.rest, start + h.unit.Size(), declarations, seen + h.unit.Names(),
                         done + Report(h.unit, start, declarations)))
  {
    if h.unit.Plain? {
      NamesAssoc(seen, {}, {});
      assert done + [] == done;
    } else if WellFormedRound(h.unit.assistant, h.unit.results) && Agrees(h.unit, declarations) {
      var o := Report(h.unit, start, declarations)[0];
      assert Observe(h.unit.assistant, h.unit.results, start, declarations) == Judged(o);
      assert Report(h.unit, start, declarations) == [o];
    }
  }

  lemma {:induction false} CheckAccepts(h: History, start: nat, declarations: Declarations, seen: set<Name>,
                                        done: seq<Observation>)
    requires RoundsOpen(h)
    ensures Check(h, start, declarations, seen, done).Inspected? <==> Acceptable(h, declarations, seen)
    ensures Acceptable(h, declarations, seen) ==>
              Check(h, start, declarations, seen, done).rounds == done + Reports(h, start, declarations)
    decreases h
  {
    match h
    case End =>
      NamesAssoc(seen, {}, {});
    case Broken =>
    case Next(u, rest) =>
      CheckUnit(h, start, declarations, seen, done);
      NamesAssoc(seen, u.Names(), RoundNames(rest));
      if Passes(u, declarations, seen) {
        var report := Report(u, start, declarations);
        CheckAccepts(rest, start + u.Size(), declarations, seen + u.Names(), done + report);
        ConcatAssoc(done, report, Reports(rest, start + u.Size(), declarations));
      }
  }

  /** A history passes inspection exactly when it is a flattened layout that agrees with its
      declarations, and the report lists its rounds where they stand. */
  lemma {:induction false} InspectionIsLayout(messages: seq<Message>, declarations: Declarations)
    ensures Inspect(messages, declarations).Inspected? <==> Acceptable(Split(messages), declarations, {})
    ensures Inspect(messages, declarations).Inspected? ==>
              && Flatten(Split(messages)) == messages
              && Inspect(messages, declarations).rounds == Reports(Split(messages), 0, declarations)
  {
    SplitOpens(messages);
    CheckAccepts(Split(messages), 0, declarations, {}, []);
    if Layout(Split(messages), {}) {
      FlattenSplit(messages, {});
      assert [] + Reports(Split(messages), 0, declarations) == Reports(Split(messages), 0, declarations);
    }
  }

  /** The converse direction: writing a layout out and inspecting it finds the same rounds. */
  lemma {:induction false} InspectLayout(h: History, declarations: Declarations)
    requires Acceptable(h, declarations, {})
    ensures Inspect(Flatten(h), declarations) == Inspected(Reports(h, 0, declarations))
  {
    SplitFlatten(h, {});
    InspectionIsLayout(Flatten(h), declarations);
  }

  // ---------------------------------------------------------------- keeping whole units

  predicate AllComplete(h: History) {
    h.Next? ==> CompleteUnit(h.unit) && AllComplete(h.rest)
  }

  predicate Constant(marks: seq<bool>, n: nat)
    requires 0 < n <= |marks|
  {
    forall i :: 0 <= i < n ==> marks[i] == marks[0]
  }

  /** The marks, one per message, never separate messages of the same unit. */
  predicate Uniform(h: History, marks: seq<bool>) {
    if h.Next? then
      && h.unit.Size() <= |marks|
      && Constant(marks, h.unit.Size())
      && Uniform(h.rest, marks[h.unit.Size()..])
    else |marks| == 0
  }

  function KeepUnits(h: History, marks: seq<bool>): History
    requires Uniform(h, marks)
  {
    if !h.Next? then h
    else
      var rest := KeepUnits(h.rest, marks[h.unit.Size()..]);
      if marks[0] then Next(h.unit, rest) else rest
  }

  lemma {:induction false} KeepBlock<T>(block: seq<T>, rest: seq<T>, marks: seq<bool>)
    requires 0 < |block| && |marks| == |block| + |rest| && Constant(marks, |block|)
    ensures Keep(block + rest, marks) == (if marks[0] then block else []) + Keep(rest, marks[|block|..])
  {
    var front, back := marks[..|block|], marks[|block|..];
    assert marks == front + back;
    KeepConcat(block, rest, front, back);
    if marks[0] {
      KeepAll(block, front);
    } else {
      KeepNone(block, front);
    }
  }

  lemma {:induction false} KeepFlatten(h: History, marks: seq<bool>)
    requires Uniform(h, marks)
    ensures |Flatten(h)| == |marks|
    ensures Keep(Flatten(h), marks) == Flatten(KeepUnits(h, marks))
  {
    if h.Next? {
      var n := h.unit.Size();
      KeepFlatten(h.rest, marks[n..]);
      KeepBlock(h.unit.Content(), Flatten(h.rest), marks);
      assert marks[0] || [] + Flatten(KeepUnits(h.rest, marks[n..])) == Flatten(KeepUnits(h.rest, marks[n..]));
    }
  }

  /** Dropping whole units leaves a layout. */
  lemma {:induction false} KeepLayout(h: History, marks: seq<bool>, seen: set<Name>, fewer: set<Name>)
    requires Uniform(h, marks) && Layout(h, seen) && fewer <= seen
    ensures Layout(KeepUnits(h, marks), fewer)
    decreases h
  {
    if h.Next? {
      var rest := marks[h.unit.Size()..];
      if marks[0] {
        KeepLayout(h.rest, rest, seen + h.unit.Names(), fewer + h.unit.Names());
      } else {
        KeepLayout(h.rest, rest, seen + h.unit.Names(), fewer);
      }
    }
  }

  predicate KeptComplete(h: History, marks: seq<bool>)
    requires Uniform(h, marks)
  {
    h.Next? ==> (marks[0] ==> CompleteUnit(h.unit)) && KeptComplete(h.rest, marks[h.unit.Size()..])
  }

  lemma {:induction false} KeepComplete(h: History, marks: seq<bool>)
    requires Uniform(h, marks) && KeptComplete(h, marks)
    ensures AllComplete(KeepUnits(h, marks))
  {
    if h.Next? {
      KeepComplete(h.rest, marks[h.unit.Size()..]);
    }
  }

  lemma {:induction false} AllCompleteKept(h: History, marks: seq<bool>)
    requires Uniform(h, marks) && AllComplete(h)
    ensures KeptComplete(h, marks)
  {
    if h.Next? {
      AllCompleteKept(h.rest, marks[h.unit.Size()..]);
    }
  }

  lemma {:induction false} UndeclaredAgree(h: History)
    ensures Agree(h, map[])
  {
    if h.Next? {
      UndeclaredAgree(h.rest);
    }
  }

  predicate Valid(messages: seq<Message>) {
    Inspect(messages, map[]).Inspected?
  }

  /** Valid, and no round waits for an answer. */
  predicate ValidComplete(messages: seq<Message>) {
    Valid(messages) && AllComplete(Split(messages))
  }

  lemma {:induction false} ValidIsLayout(messages: seq<Message>)
    ensures Valid(messages) <==> Layout(Split(messages), {})
    ensures Valid(messages) ==> Flatten(Split(messages)) == messages
    ensures Valid(messages) ==> Inspect(messages, map[]).rounds == Reports(Split(messages), 0, map[])
  {
    InspectionIsLayout(messages, map[]);
    UndeclaredAgree(Split(messages));
  }

  lemma {:induction false} LayoutIsValid(h: History)
    requires Layout(h, {})
    ensures Valid(Flatten(h)) && Split(Flatten(h)) == h
    ensures Inspect(Flatten(h), map[]) == Inspected(Reports(h, 0, map[]))
  {
    UndeclaredAgree(h);
    SplitFlatten(h, {});
    InspectLayout(h, map[]);
  }

  /** Whatever whole units are dropped from a valid history, what is left is valid, its rounds are
      untouched, and it waits for no answer if the units kept wait for none. */
  lemma {:induction false} DroppingUnitsKeepsRounds(messages: seq<Message>, marks: seq<bool>)
    requires Valid(messages) && Uniform(Split(messages), marks)
    ensures |marks| == |messages|
    ensures Valid(Keep(messages, marks))
    ensures Split(Keep(messages, marks)) == KeepUnits(Split(messages), marks)
    ensures KeptComplete(Split(messages), marks) ==> ValidComplete(Keep(messages, marks))
  {
    var h := Split(messages);
    ValidIsLayout(messages);
    KeepFlatten(h, marks);
    KeepLayout(h, marks, {}, {});
    LayoutIsValid(KeepUnits(h, marks));
    if KeptComplete(h, marks) {
      KeepComplete(h, marks);
    }
  }

  // ---------------------------------------------------------------- a prefix of a valid history

  lemma {:induction false} AnswersPrefix(results: seq<Message>, n: nat)
    requires n <= |results|
    ensures Answers(results[..n]) <= Answers(results)
  {
    if n > 0 {
      AnswersPrefix(results[1..], n - 1);
      assert results[..n][1..] == results[1..][..n - 1] && results[..n][0] == results[0];
    }
  }

  lemma {:induction false} RoundPrefix(assistant: Message, results: seq<Message>, n: nat)
    requires ValidUnit(Round(assistant, results)) && n <= |results|
    ensures ValidUnit(Round(assistant, results[..n]))
  {
    AnswersPrefix(results, n);
    var less, all := Answers(results[..n]), Answers(results);
    assert forall i :: 0 <= i < |less| ==> less[i] == all[i];
  }

  /** The first `n` messages as units: whole ones, and the beginning of a round if the cut falls inside it. */
  lemma {:induction false} PrefixLayout(h: History, seen: set<Name>, n: nat) returns (g: History)
    requires Layout(h, seen) && n <= |Flatten(h)|
    ensures Layout(g, seen) && Same(Flatten(g), Flatten(h)[..n])
    decreases h
  {
    g := End;
    if n > 0 {
      var u, rest := h.unit, Flatten(h.rest);
      assert Flatten(h) == u.Content() + rest;
      if u.Size() <= n {
        var others := PrefixLayout(h.rest, seen + u.Names(), n - u.Size());
        g := Next(u, others);
        assert Flatten(h)[..n] == u.Content() + rest[..n - u.Size()];
        assert Flatten(g) == Flatten(h)[..n];
      } else {
        RoundPrefix(u.assistant, u.results, n - 1);
        g := Next(Round(u.assistant, u.results[..n - 1]), End);
        assert Flatten(g) == [u.assistant] + u.results[..n - 1] + Flatten(End);
        assert Flatten(g) == Flatten(h)[..n];
      }
    } else {
      assert Flatten(h)[..n] == [];
    }
  }

  /** However a valid history is cut, what comes first is a valid history; a round cut open is waiting again. */
  lemma {:induction false} PrefixIsValid(messages: seq<Message>, n: nat)
    requires Valid(messages) && n <= |messages|
    ensures Valid(messages[..n])
  {
    ValidIsLayout(messages);
    var g := PrefixLayout(Split(messages), {}, n);
    LayoutIsValid(g);
  }

  // ---------------------------------------------------------------- units by index

  /** Every unit starts the way its kind must; nothing is said about the results. */
  predicate Intact(h: History) {
    match h
    case End => true
    case Broken => false
    case Next(Plain(m), rest) => IsPlain(m) && Intact(rest)
    case Next(Round(a, _), rest) => OpensRound(a) && Intact(rest)
  }

  lemma {:induction false} LayoutIntact(h: History, seen: set<Name>)
    requires Layout(h, seen)
    ensures Intact(h)
    decreases h
  {
    if h.Next? {
      LayoutIntact(h.rest, seen + h.unit.Names());
    }
  }

  lemma UnitSpan(h: History, messages: seq<Message>, from: nat)
    requires h.Next? && from <= |messages| && At(h, messages, from)
    ensures from < from + h.unit.Size() <= |messages| && At(h.rest, messages, from + h.unit.Size())
  {
  }

  /** No unit starts inside the unit at `from`. */
  lemma {:induction false} InsideUnit(h: History, messages: seq<Message>, from: nat)
    requires h.Next? && from <= |messages| && At(h, messages, from)
    ensures from < from + h.unit.Size() <= |messages| && At(h.rest, messages, from + h.unit.Size())
    ensures forall i :: from < i < from + h.unit.Size() ==> messages[i].role == Tool
  {
    ToolRunRoles(messages, from + 1);
  }

  /** Marks are constant on each block an assistant call opens. */
  predicate BlocksUniform(messages: seq<Message>, marks: seq<bool>, from: nat)
    requires |marks| == |messages|
  {
    forall i, k :: from <= i < |messages| && OpensRound(messages[i]) && i <= k < ToolRun(messages, i + 1) ==>
      marks[k] == marks[i]
  }

  lemma {:induction false} UniformStep(h: History, marks: seq<bool>, from: nat, next: nat)
    requires h.Next? && from < next == from + h.unit.Size() <= |marks|
    ensures Uniform(h, marks[from..]) <==>
            Uniform(h.rest, marks[next..]) && forall k :: from <= k < next ==> marks[k] == marks[from]
    ensures Same(marks[from..][h.unit.Size()..], marks[next..]) && marks[from..][0] == marks[from]
  {
    var rest, n := marks[from..], h.unit.Size();
    assert rest[n..] == marks[next..];
    assert forall i :: 0 <= i < n ==> rest[i] == marks[from + i];
    assert Constant(rest, n) ==> forall k :: from <= k < next ==> rest[k - from] == marks[k];
  }

  lemma {:induction false} UniformOfBlocks(h: History, messages: seq<Message>, from: nat, marks: seq<bool>)
    requires |marks| == |messages| && from <= |messages| && At(h, messages, from)
    requires Intact(h) && BlocksUniform(messages, marks, from)
    ensures Uniform(h, marks[from..])
    decreases h
  {
    if h.Next? {
      var next := from + h.unit.Size();
      InsideUnit(h, messages, from);
      UniformOfBlocks(h.rest, messages, next, marks);
      UniformStep(h, marks, from, next);
    }
  }

  lemma {:induction false} BlocksOfUniform(h: History, messages: seq<Message>, from: nat, marks: seq<bool>,
                                           i: nat, k: nat)
    requires |marks| == |messages| && from <= i < |messages| && At(h, messages, from)
    requires Intact(h) && Uniform(h, marks[from..])
    requires OpensRound(messages[i]) && i <= k < ToolRun(messages, i + 1)
    ensures marks[k] == marks[i]
    decreases h
  {
    if h.Next? {
      var next := from + h.unit.Size();
      InsideUnit(h, messages, from);
      UniformStep(h, marks, from, next);
      if i > from {
        assert next <= i;
        BlocksOfUniform(h.rest, messages, next, marks, i, k);
      } else {
        assert k < next;
      }
    }
  }
}
