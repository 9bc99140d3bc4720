/** The check on a host's prompt-only rewrite (output_policy.go). */
module OutputPolicy {
  import opened Sequences
  import opened Messages
  import opened Rounds
  import opened Layouts

  datatype Part =
    | ToolCall(id: Name, name: string, arguments: string)
    | ToolResult(callId: Name, toolName: string, isError: bool, payload: string)
    | Content(kind: string, text: string)

  datatype PromptMessage = PromptMessage(id: Name, role: Role, parts: seq<Part>, rest: string,
                                         extensions: seq<Extension>)

  predicate IsToolPart(p: Part) {
    !p.Content?
  }

  /** Same kind and same identity; arguments and payloads may change. */
  predicate SameToolIdentity(before: Part, after: Part) {
    match before
    case ToolCall(id, name, _) => after.ToolCall? && after.id == id && after.name == name
    case ToolResult(callId, name, isError, _) =>
      after.ToolResult? && after.callId == callId && after.toolName == name && after.isError == isError
    case Content(_, _) => false
  }

  predicate ToolPartsMatch(before: PromptMessage, after: PromptMessage) {
    && (forall i :: 0 <= i < |before.parts| && IsToolPart(before.parts[i]) ==>
          before.role == after.role && i < |after.parts| && SameToolIdentity(before.parts[i], after.parts[i]))
    && (forall i :: 0 <= i < |after.parts| && IsToolPart(after.parts[i]) ==>
          i < |before.parts| && SameToolIdentity(before.parts[i], after.parts[i]))
  }

  predicate SegmentAccepted(before: seq<PromptMessage>, after: seq<PromptMessage>) {
    |before| == |after| && forall i :: 0 <= i < |before| ==>
        before[i].id == after[i].id && ToolPartsMatch(before[i], after[i])
  }

  method ValidateSegment(before: seq<PromptMessage>, after: seq<PromptMessage>) returns (ok: bool)
    ensures ok <==> SegmentAccepted(before, after)
  {
    if |before| != |after| {
      return false;
    }
    for i := 0 to |before|
      invariant forall k :: 0 <= k < i ==> before[k].id == after[k].id && ToolPartsMatch(before[k], after[k])
    {
      if before[i].id != after[i].id {
        return false;
      }
      var same := ValidateToolParts(before[i], after[i]);
      if !same {
        return false;
      }
    }
    ok := true;
  }

  method ValidateToolParts(before: PromptMessage, after: PromptMessage) returns (ok: bool)
    ensures ok <==> ToolPartsMatch(before, after)
  {
    for i := 0 to |before.parts|
      invariant forall k :: 0 <= k < i && IsToolPart(before.parts[k]) ==>
                  before.role == after.role && k < |after.parts| && SameToolIdentity(before.parts[k], after.parts[k])
    {
      if IsToolPart(before.parts[i]) {
        if before.role != after.role || i >= |after.parts| || !SameToolIdentity(before.parts[i], after.parts[i]) {
          return false;
        }
      }
    }
    for i := 0 to |after.parts|
      invariant forall k :: 0 <= k < i && IsToolPart(after.parts[k]) ==>
                  k < |before.parts| && SameToolIdentity(before.parts[k], after.parts[k])
    {
      if IsToolPart(after.parts[i]) {
        if i >= |before.parts| || !SameToolIdentity(before.parts[i], after.parts[i]) {
          return false;
        }
      }
    }
    ok := true;
  }

  // ---------------------------------------------------------------- what round inspection sees

  function CallsOf(parts: seq<Part>): seq<Name> {
    if |parts| == 0 then []
    else
      var last := |parts| - 1;
      CallsOf(parts[..last]) + if parts[last].ToolCall? then [parts[last].id] else []
  }

  function ResultsOf(parts: seq<Part>): seq<Name> {
    if |parts| == 0 then []
    else
      var last := |parts| - 1;
      ResultsOf(parts[..last]) + if parts[last].ToolResult? then [parts[last].callId] else []
  }

  function Seen(m: PromptMessage): Message {
    Message(m.id, m.role, CallsOf(m.parts), ResultsOf(m.parts), "", [])
  }

  function SeenAll(messages: seq<PromptMessage>): (seen: seq<Message>)
    ensures |seen| == |messages| && forall i :: 0 <= i < |seen| ==> seen[i] == Seen(messages[i])
  {
    seq(|messages|, i requires 0 <= i < |messages| => Seen(messages[i]))
  }

  predicate NoToolParts(parts: seq<Part>, from: nat) {
    forall i :: from <= i < |parts| ==> !IsToolPart(parts[i])
  }

  lemma {:induction false} TrailingContent(parts: seq<Part>, n: nat)
    requires n <= |parts| && NoToolParts(parts, n)
    ensures CallsOf(parts) == CallsOf(parts[..n]) && ResultsOf(parts) == ResultsOf(parts[..n])
    decreases |parts|
  {
    if n < |parts| {
      var front := parts[..|parts| - 1];
      TrailingContent(front, n);
      assert front[..n] == parts[..n];
    } else {
      assert parts[..n] == parts;
    }
  }

  predicate PartwiseSame(a: seq<Part>, b: seq<Part>) {
    && |a| == |b|
    && forall i :: 0 <= i < |a| ==> (IsToolPart(a[i]) || IsToolPart(b[i]) ==> SameToolIdentity(a[i], b[i]))
  }

  lemma {:induction false} PartwiseIds(a: seq<Part>, b: seq<Part>)
    requires PartwiseSame(a, b)
    ensures CallsOf(a) == CallsOf(b) && ResultsOf(a) == ResultsOf(b)
    decreases |a|
  {
    if |a| > 0 {
      var last := |a| - 1;
      assert forall i :: 0 <= i < last ==> a[..last][i] == a[i] && b[..last][i] == b[i];
      PartwiseIds(a[..last], b[..last]);
    }
  }

  lemma {:induction false} ToolPartsCounted(parts: seq<Part>)
    ensures |CallsOf(parts)| == 0 && |ResultsOf(parts)| == 0 <==> NoToolParts(parts, 0)
  {
    if |parts| > 0 {
      var last := |parts| - 1;
      ToolPartsCounted(parts[..last]);
      assert forall i :: 0 <= i < last ==> parts[..last][i] == parts[i];
    }
  }

  /** Same identity, calls and results; the role is fixed once there is a tool part. */
  predicate Alike(a: Message, b: Message) {
    && a.id == b.id && a.calls == b.calls && a.results == b.results
    && (|a.calls| > 0 || |a.results| > 0 ==> a.role == b.role)
  }

  lemma {:induction false} MatchIsAlike(before: PromptMessage, after: PromptMessage)
    requires before.id == after.id && ToolPartsMatch(before, after)
    ensures Alike(Seen(before), Seen(after))
  {
    var n := if |before.parts| < |after.parts| then |before.parts| else |after.parts|;
    var a, b := before.parts[..n], after.parts[..n];
    TrailingContent(before.parts, n);
    TrailingContent(after.parts, n);
    PartwiseIds(a, b);
    ToolPartsCounted(before.parts);
    if !NoToolParts(before.parts, 0) {
      var i :| 0 <= i < |before.parts| && IsToolPart(before.parts[i]);
      assert before.role == after.role;
    }
  }

  // ---------------------------------------------------------------- the rewritten layout

  predicate AlikeAll(a: seq<Message>, b: seq<Message>) {
    |a| == |b| && forall i :: 0 <= i < |a| ==> Alike(a[i], b[i])
  }

  /** A tool message has a tool part. */
  predicate ToolRolesEarned(messages: seq<Message>) {
    forall i :: 0 <= i < |messages| && messages[i].role == Tool ==> |messages[i].calls| > 0 || |messages[i].results| > 0
  }

  lemma {:induction false} AlikeAnswers(a: seq<Message>, b: seq<Message>)
    requires AlikeAll(a, b)
    ensures Answers(a) == Answers(b)
  {
    if |a| > 0 {
      assert forall i :: 0 <= i < |a| - 1 ==> a[1..][i] == a[i + 1] && b[1..][i] == b[i + 1];
      AlikeAnswers(a[1..], b[1..]);
    }
  }

  lemma {:induction false} AlikeRound(a: Message, results: seq<Message>, b: Message, others: seq<Message>)
    requires ValidUnit(Round(a, results)) && Alike(a, b) && AlikeAll(results, others)
    ensures ValidUnit(Round(b, others)) && Unanswered(Round(b, others)) == Unanswered(Round(a, results))
  {
    AlikeAnswers(results, others);
    assert forall i :: 0 <= i < |others| ==> Alike(results[i], others[i]) && results[i].role == Tool;
  }

  lemma AlikePlain(a: Message, b: Message)
    requires IsPlain(a) && Alike(a, b) && (b.role == Tool ==> |b.calls| > 0 || |b.results| > 0)
    ensures IsPlain(b)
  {
  }

  lemma {:induction false} AlikeSplit(a: seq<Message>, b: seq<Message>, n: nat)
    requires AlikeAll(a, b) && n <= |a|
    ensures AlikeAll(a[..n], b[..n]) && AlikeAll(a[n..], b[n..])
    ensures n > 0 ==> Alike(a[0], b[0]) && AlikeAll(a[1..n], b[1..n])
  {
    assert forall i :: 0 <= i < |a| - n ==> a[n..][i] == a[n + i] && b[n..][i] == b[n + i];
  }

  /** The unit `v` can stand where `u` stands. */
  ghost predicate Refills(v: Unit, u: Unit, b: seq<Message>) {
    && ValidUnit(v) && Same(v.Names(), u.Names()) && v.Size() == u.Size() && v.Plain? == u.Plain?
    && Same(Unanswered(v), Unanswered(u)) && Same(v.Content(), b) && (u.Round? ==> v.assistant.id == u.assistant.id)
  }

  lemma {:induction false} MirrorUnit(u: Unit, b: seq<Message>) returns (v: Unit)
    requires ValidUnit(u) && AlikeAll(u.Content(), b) && ToolRolesEarned(b)
    ensures Refills(v, u, b)
  {
    var content, n := u.Content(), u.Size();
    AlikeSplit(content, b, n);
    if u.Plain? {
      AlikePlain(u.message, b[0]);
      v := Plain(b[0]);
    } else {
      assert content[1..n] == u.results;
      AlikeRound(u.assistant, u.results, b[0], b[1..n]);
      v := Round(b[0], b[1..n]);
    }
    assert v.Content() == b;
  }

  /** What refilling keeps. */
  ghost predicate Mirrors(g: History, h: History, b: seq<Message>, declarations: Declarations, seen: set<Name>,
                          start: nat) {
    && Layout(g, seen) && Same(Flatten(g), b) && Same(RoundNames(g), RoundNames(h))
    && Agree(g, declarations) == Agree(h, declarations)
    && Same(Reports(g, start, declarations), Reports(h, start, declarations))
  }

  lemma {:induction false} MirrorNext(h: History, v: Unit, rest: History, b: seq<Message>, declarations: Declarations,
                                      seen: set<Name>, start: nat)
    requires h.Next? && h.unit.FreshIn(seen) && h.unit.Size() <= |b| && Refills(v, h.unit, b[..h.unit.Size()])
    requires Mirrors(rest, h.rest, b[h.unit.Size()..], declarations, seen + h.unit.Names(), start + h.unit.Size())
    ensures Mirrors(Next(v, rest), h, b, declarations, seen, start)
  {
    var n := h.unit.Size();
    RefillText(v, rest, b, n);
    RefillReports(h, v, rest, declarations, start);
    assert Layout(Next(v, rest), seen);
  }

  lemma {:induction false} RefillText(v: Unit, rest: History, b: seq<Message>, n: nat)
    requires n <= |b| && Same(v.Content(), b[..n]) && Same(Flatten(rest), b[n..])
    ensures Same(Flatten(Next(v, rest)), b)
  {
    assert b == b[..n] + b[n..];
  }

  lemma {:induction false} RefillReports(h: History, v: Unit, rest: History, declarations: Declarations, start: nat)
    requires h.Next? && v.Size() == h.unit.Size() && v.Plain? == h.unit.Plain?
             && Same(Unanswered(v), Unanswered(h.unit))
    requires h.unit.Round? ==> v.assistant.id == h.unit.assistant.id
    requires Same(Reports(rest, start + v.Size(), declarations), Reports(h.rest, start + v.Size(), declarations))
    requires Agree(rest, declarations) == Agree(h.rest, declarations)
    ensures Same(Reports(Next(v, rest), start, declarations), Reports(h, start, declarations))
    ensures Agree(Next(v, rest), declarations) == Agree(h, declarations)
  {
    assert Report(v, start, declarations) == Report(h.unit, start, declarations);
  }

  /** Cutting the first unit off both histories. */
  lemma {:induction false} AlikeNext(h: History, a: seq<Message>, b: seq<Message>)
    requires h.Next? && Same(Flatten(h), a) && AlikeAll(a, b) && ToolRolesEarned(b)
    ensures h.unit.Size() <= |a| == |b| && AlikeAll(h.unit.Content(), b[..h.unit.Size()])
    ensures Same(Flatten(h.rest), a[h.unit.Size()..]) && AlikeAll(a[h.unit.Size()..], b[h.unit.Size()..])
    ensures ToolRolesEarned(b[..h.unit.Size()]) && ToolRolesEarned(b[h.unit.Size()..])
  {
    var n := h.unit.Size();
    assert a == h.unit.Content() + Flatten(h.rest) && a[..n] == h.unit.Content() && a[n..] == Flatten(h.rest);
    AlikeSplit(a, b, n);
    EarnedParts(b, n);
  }

  lemma {:induction false} MirrorEnd(h: History, a: seq<Message>, b: seq<Message>, declarations: Declarations,
                                     seen: set<Name>, start: nat)
    requires !h.Next? && Layout(h, seen) && Same(Flatten(h), a) && AlikeAll(a, b)
    ensures Mirrors(h, h, b, declarations, seen, start)
  {
    assert b == [];
  }

  lemma LayoutNext(h: History, seen: set<Name>)
    requires h.Next? && Layout(h, seen)
    ensures ValidUnit(h.unit) && h.unit.FreshIn(seen) && Layout(h.rest, seen + h.unit.Names())
  {
  }

  type Likeness = (History, History, seq<Message>, set<Name>, nat) -> bool

  /** `Mirrors` as a value. */
  ghost function Mirroring(declarations: Declarations): Likeness {
    (g: History, h: History, b: seq<Message>, seen: set<Name>, start: nat) =>
      Mirrors(g, h, b, declarations, seen, start)
  }

  lemma {:induction false} MirrorJoin(h: History, rest: History, a: seq<Message>, b: seq<Message>,
                                      declarations: Declarations, seen: set<Name>, start: nat, alike: Likeness)
    returns (g: History)
    requires h.Next? && h.unit.FreshIn(seen) && h.unit.Size() <= |b| && ValidUnit(h.unit)
    requires Same(Flatten(h), a) && AlikeAll(a, b) && ToolRolesEarned(b) && alike == Mirroring(declarations)
    requires alike(rest, h.rest, b[h.unit.Size()..], seen + h.unit.Names(), start + h.unit.Size())
    ensures alike(g, h, b, seen, start)
  {
    AlikeNext(h, a, b);
    var v := MirrorUnit(h.unit, b[..h.unit.Size()]);
    g := Next(v, rest);
    MirrorNext(h, v, rest, b, declarations, seen, start);
  }

  lemma {:induction false} MirrorNone(h: History, a: seq<Message>, b: seq<Message>, declarations: Declarations,
                                      seen: set<Name>, start: nat, alike: Likeness)
    requires !h.Next? && Layout(h, seen) && Same(Flatten(h), a) && AlikeAll(a, b) && alike == Mirroring(declarations)
    ensures alike(h, h, b, seen, start)
  {
    MirrorEnd(h, a, b, declarations, seen, start);
  }

  lemma {:induction false} MirrorLayout(h: History, a: seq<Message>, b: seq<Message>, declarations: Declarations,
                                        seen: set<Name>, start: nat, alike: Likeness)
    returns (g: History)
    requires Layout(h, seen) && Same(Flatten(h), a) && AlikeAll(a, b) && ToolRolesEarned(b)
    requires alike == Mirroring(declarations)
    ensures alike(g, h, b, seen, start)
    decreases h
  {
    if !h.Next? {
      g := h;
      MirrorNone(h, a, b, declarations, seen, start, alike);
    } else {
      var n := h.unit.Size();
      LayoutNext(h, seen);
      AlikeNext(h, a, b);
      var rest := MirrorLayout(h.rest, a[n..], b[n..], declarations, seen + h.unit.Names(), start + n, alike);
      g := MirrorJoin(h, rest, a, b, declarations, seen, start, alike);
    }
  }

  lemma {:induction false} EarnedParts(b: seq<Message>, n: nat)
    requires ToolRolesEarned(b) && n <= |b|
    ensures ToolRolesEarned(b[..n]) && ToolRolesEarned(b[n..])
  {
    assert forall i :: 0 <= i < |b| - n ==> b[n..][i] == b[n + i];
  }

  lemma {:induction false} LayoutEarned(h: History, seen: set<Name>)
    requires Layout(h, seen)
    ensures ToolRolesEarned(Flatten(h))
    decreases h
  {
    if h.Next? {
      LayoutEarned(h.rest, seen + h.unit.Names());
      var content, others := h.unit.Content(), Flatten(h.rest);
      assert ToolRolesEarned(content) by {
        assert h.unit.Round? ==> forall i :: 1 <= i < |content| ==> content[i] == h.unit.results[i - 1];
      }
      assert forall i :: 0 <= i < |others| ==> (content + others)[|content| + i] == others[i];
      assert forall i :: 0 <= i < |content| ==> (content + others)[i] == content[i];
    }
  }

  /** An accepted rewrite of a valid history is valid exactly when no message without tool parts was given
      the tool role, and then both histories have the same rounds: starts, ends, states and missing calls. */
  lemma {:induction false} RewriteKeepsRounds(before: seq<PromptMessage>, after: seq<PromptMessage>,
                                              declarations: Declarations)
    requires SegmentAccepted(before, after) && Inspect(SeenAll(before), declarations).Inspected?
    ensures Inspect(SeenAll(after), declarations).Inspected? <==> ToolRolesEarned(SeenAll(after))
    ensures Inspect(SeenAll(after), declarations).Inspected? ==>
              Inspect(SeenAll(after), declarations).rounds == Inspect(SeenAll(before), declarations).rounds
  {
    var a, b := SeenAll(before), SeenAll(after);
    forall i | 0 <= i < |a|
      ensures Alike(a[i], b[i])
    {
      MatchIsAlike(before[i], after[i]);
    }
    InspectionIsLayout(a, declarations);
    InspectionIsLayout(b, declarations);
    if ToolRolesEarned(b) {
      var g := MirrorLayout(Split(a), a, b, declarations, {}, 0, Mirroring(declarations));
      assert Mirrors(g, Split(a), b, declarations, {}, 0);
      InspectLayout(g, declarations);
    } else if Layout(Split(b), {}) {
      LayoutEarned(Split(b), {});
    }
  }

  /** Giving the tool role to a message without tool parts is accepted and breaks every valid history. */
  lemma {:induction false} RoleChangeBreaksRounds(before: seq<PromptMessage>, i: nat, declarations: Declarations)
    requires Inspect(SeenAll(before), declarations).Inspected? && i < |before| && NoToolParts(before[i].parts, 0)
    ensures var after := before[i := before[i].(role := Tool)];
            SegmentAccepted(before, after) && !Inspect(SeenAll(after), declarations).Inspected?
  {
    var after := before[i := before[i].(role := Tool)];
    ToolPartsCounted(before[i].parts);
    assert SegmentAccepted(before, after) by {
      forall k | 0 <= k < |before|
        ensures before[k].id == after[k].id && ToolPartsMatch(before[k], after[k])
      {
        SelfMatch(before[k]);
      }
    }
    assert SeenAll(after)[i] == Seen(after[i]);
    RewriteKeepsRounds(before, after, declarations);
  }

  lemma SelfMatch(m: PromptMessage)
    ensures ToolPartsMatch(m, m)
  {
  }

  /** The smallest such history: one user message. */
  lemma {:induction false} OneUserMessage(id: Name, text: string)
    ensures var before := [PromptMessage(id, User, [Content("text", text)], "", [])];
            && Inspect(SeenAll(before), map[]).Inspected?
            && SegmentAccepted(before, [before[0].(role := Tool)])
            && !Inspect(SeenAll([before[0].(role := Tool)]), map[]).Inspected?
  {
    var before := [PromptMessage(id, User, [Content("text", text)], "", [])];
    ToolPartsCounted(before[0].parts);
    var h := Next(Plain(Seen(before[0])), End);
    assert Flatten(h) == SeenAll(before) && IsPlain(Seen(before[0]));
    assert Layout(End, {} + h.unit.Names()) && Agree(End, map[]);
    InspectLayout(h, map[]);
    RoleChangeBreaksRounds(before, 0, map[]);
    assert before[0 := before[0].(role := Tool)] == [before[0].(role := Tool)];
  }
}
