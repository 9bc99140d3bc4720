/** Projecting interrupted rounds as complete ones (round_repair.go). */
module Repair {
  import opened Results
  import opened Sequences
  import opened Messages
  import opened Rounds
  import opened Layouts
  import opened RoundIndex
  import opened ToolTurns
  import opened Removal

  /** `digest` stands for the canonical digest of a round, its missing calls and its decision. */
  datatype RepairPolicy = RepairPolicy(
    descriptor: Descriptor, encoding: Descriptor, decisions: map<Name, Name>,
    digest: (seq<Message>, seq<Name>, Name) -> Option<string>)

  datatype Projection = Projected(messages: seq<Message>, synthetic: seq<Name>) | NotProjected

  const MARKER_TEXT := "no result recorded"

  /** The message that answers every missing call of an interrupted round. */
  function Marker(policy: RepairPolicy, block: seq<Message>, missing: seq<Name>): Option<Message> {
    if |block| == 0 then None
    else
      var id := block[0].id;
      var digest := policy.digest(block, missing, if id in policy.decisions then policy.decisions[id] else Anonymous);
      if digest.None? then None
      else Some(Message(Named("synthetic-round/" + digest.value), Tool, [], missing, MARKER_TEXT, block[0].extensions))
  }

  // ---------------------------------------------------------------- the decisions

  /** Interrupted rounds are named and decided, and nothing else is decided. */
  predicate Decided(rounds: seq<Observation>, decisions: map<Name, Name>) {
    && (forall k :: 0 <= k < |rounds| && rounds[k].state == Interrupted ==>
          && rounds[k].assistantId != Anonymous
          && rounds[k].assistantId in decisions && decisions[rounds[k].assistantId] != Anonymous)
    && (forall id :: id in decisions ==>
          exists k :: 0 <= k < |rounds| && rounds[k].state == Interrupted && rounds[k].assistantId == id)
  }

  method ValidateRepairDecisions(rounds: seq<Observation>, decisions: map<Name, Name>) returns (ok: bool)
    ensures ok <==> Decided(rounds, decisions)
  {
    var interrupted: set<Name> := {};
    for k := 0 to |rounds|
      invariant forall id :: id in interrupted <==>
                  exists j :: 0 <= j < k && rounds[j].state == Interrupted && rounds[j].assistantId == id
      invariant forall j :: 0 <= j < k && rounds[j].state == Interrupted ==>
                  && rounds[j].assistantId != Anonymous
                  && rounds[j].assistantId in decisions && decisions[rounds[j].assistantId] != Anonymous
    {
      if rounds[k].state == Interrupted {
        var id := rounds[k].assistantId;
        interrupted := interrupted + {id};
        if id == Anonymous || id !in decisions || decisions[id] == Anonymous {
          return false;
        }
      }
    }
    var pending := decisions.Keys;
    while pending != {}
      invariant pending <= decisions.Keys && forall id :: id in decisions && id !in pending ==> id in interrupted
      decreases |pending|
    {
      var id :| id in pending;
      if id !in interrupted {
        return false;
      }
      pending := pending - {id};
    }
    ok := true;
  }

  // ---------------------------------------------------------------- the cursor loop

  function Part<T>(s: seq<T>, from: nat, end: nat): seq<T> {
    if from <= end <= |s| then s[from..end] else []
  }

  /** What the loop appends from `cursor` on: every interrupted round is followed by its marker, unless a
      marker cannot be made or its identity is `used`. */
  function Rebuilt(policy: RepairPolicy, messages: seq<Message>, rounds: seq<Observation>, cursor: nat, used: set<Name>,
                   done: seq<Message>, made: seq<Name>): Projection
    decreases |rounds|
  {
    if |rounds| == 0 then Projected(done + Part(messages, cursor, |messages|), made)
    else
      var o := rounds[0];
      var next := done + Part(messages, cursor, o.end + 1);
      if o.state != Interrupted then Rebuilt(policy, messages, rounds[1..], o.end + 1, used, next, made)
      else
        var marker := Marker(policy, Part(messages, o.start, o.end + 1), o.missing);
        if marker.None? || marker.value.id in used then NotProjected
        else
          Rebuilt(policy, messages, rounds[1..], o.end + 1, used + {marker.value.id}, next + [marker.value],
                  made + [marker.value.id])
  }

  method RepairInterruptedToolRounds(messages: seq<Message>, declarations: Declarations, policy: RepairPolicy)
    returns (r: Projection)
    ensures r == RepairOf(messages, declarations, policy)
  {
    if !policy.descriptor.Valid() || !policy.encoding.Valid() {
      return NotProjected;
    }
    var inspection := InspectToolRoundStates(messages, declarations);
    if inspection.Rejected? {
      return NotProjected;
    }
    var decided := ValidateRepairDecisions(inspection.rounds, policy.decisions);
    if !decided {
      return NotProjected;
    }
    var used: set<Name> := {};
    for i := 0 to |messages|
      invariant used == set k | 0 <= k < i :: messages[k].id
    {
      used := used + {messages[i].id};
    }
    InspectedOrdered(messages, declarations);
    r := RebuildLoop(policy, messages, inspection.rounds, used);
  }

  lemma {:induction false} RebuiltAt(policy: RepairPolicy, messages: seq<Message>, rounds: seq<Observation>, k: nat,
                                     cursor: nat, used: set<Name>, done: seq<Message>, made: seq<Name>)
    requires k < |rounds| && cursor <= rounds[k].start <= rounds[k].end < |messages|
    ensures var o := rounds[k];
            var next := done + messages[cursor..o.end + 1];
            var m := Marker(policy, messages[o.start..o.end + 1], o.missing);
            Same(Rebuilt(policy, messages, rounds[k..], cursor, used, done, made),
                 if o.state != Interrupted then Rebuilt(policy, messages, rounds[k + 1..], o.end + 1, used, next, made)
                 else if m.None? || m.value.id in used then NotProjected
                 else Rebuilt(policy, messages, rounds[k + 1..], o.end + 1, used + {m.value.id}, next + [m.value],
                              made + [m.value.id]))
  {
    SliceHead(rounds, k);
    assert rounds[k..][0] == rounds[k];
  }

  /** The state of the loop: what is copied so far, up to `cursor`, and the identities taken and made. */
  datatype Work = Work(cursor: nat, used: set<Name>, done: seq<Message>, made: seq<Name>)

  /** What becomes of a state before round `k`. */
  ghost function Fate(policy: RepairPolicy, messages: seq<Message>, rounds: seq<Observation>): (nat,
                                                                                                Work) -> Projection {
    (k: nat, w: Work) =>
      if k <= |rounds| then Rebuilt(policy, messages, rounds[k..], w.cursor, w.used, w.done, w.made) else NotProjected
  }

  /** The loop body: copy up to the end of the round, then add its marker if it was interrupted. */
  method RebuildOne(policy: RepairPolicy, messages: seq<Message>, rounds: seq<Observation>, k: nat, w: Work,
                    ghost fate: (nat, Work) -> Projection)
    returns (next: Option<Work>)
    requires k < |rounds| && w.cursor <= rounds[k].start <= rounds[k].end < |messages|
    requires fate == Fate(policy, messages, rounds)
    ensures next.None? ==> fate(k, w) == NotProjected
    ensures next.Some? ==> fate(k, w) == fate(k + 1, next.value) && next.value.cursor == rounds[k].end + 1
  {
    RebuiltAt(policy, messages, rounds, k, w.cursor, w.used, w.done, w.made);
    var o := rounds[k];
    var done := w.done + messages[w.cursor..o.end + 1];
    if o.state != Interrupted {
      return Some(Work(o.end + 1, w.used, done, w.made));
    }
    var marker := Marker(policy, messages[o.start..o.end + 1], o.missing);
    if marker.None? || marker.value.id in w.used {
      return None;
    }
    next := Some(Work(o.end + 1, w.used + {marker.value.id}, done + [marker.value], w.made + [marker.value.id]));
  }

  method RebuildRounds(policy: RepairPolicy, messages: seq<Message>, rounds: seq<Observation>, start: Work,
                       ghost fate: (nat, Work) -> Projection)
    returns (end: Option<Work>)
    requires Ordered(rounds, |messages|) && fate == Fate(policy, messages, rounds) && start.cursor == 0
    ensures end.None? ==> fate(0, start) == NotProjected
    ensures end.Some? ==> fate(0, start) == fate(|rounds|, end.value) && end.value.cursor <= |messages|
  {
    var w := start;
    for k := 0 to |rounds|
      invariant w.cursor <= |messages| && w.cursor == if k == 0 then 0 else rounds[k - 1].end + 1
      invariant fate(0, start) == fate(k, w)
    {
      var next := RebuildOne(policy, messages, rounds, k, w, fate);
      if next.None? {
        return None;
      }
      w := next.value;
    }
    end := Some(w);
  }

  method RebuildLoop(policy: RepairPolicy, messages: seq<Message>, rounds: seq<Observation>, used: set<Name>)
    returns (r: Projection)
    requires Ordered(rounds, |messages|)
    ensures r == Rebuilt(policy, messages, rounds, 0, used, [], [])
  {
    var end := RebuildRounds(policy, messages, rounds, Work(0, used, [], []), Fate(policy, messages, rounds));
    assert rounds[0..] == rounds;
    if end.None? {
      return NotProjected;
    }
    var w := end.value;
    RebuiltEnd(policy, messages, rounds, w.cursor, w.used, w.done, w.made);
    r := Projected(w.done + messages[w.cursor..], w.made);
  }

  lemma {:induction false} RebuiltEnd(policy: RepairPolicy, messages: seq<Message>, rounds: seq<Observation>,
                                      cursor: nat, used: set<Name>, done: seq<Message>, made: seq<Name>)
    requires cursor <= |messages|
    ensures Same(Rebuilt(policy, messages, rounds[|rounds|..], cursor, used, done, made),
                 Projected(done + messages[cursor..], made))
  {
    assert Part(messages, cursor, |messages|) == messages[cursor..];
  }

  ghost function UsedIds(messages: seq<Message>): set<Name> {
    set k | 0 <= k < |messages| :: messages[k].id
  }

  ghost function RepairOf(messages: seq<Message>, declarations: Declarations, policy: RepairPolicy): Projection {
    if !policy.descriptor.Valid() || !policy.encoding.Valid() then NotProjected
    else
      var inspection := Inspect(messages, declarations);
      if inspection.Rejected? || !Decided(inspection.rounds, policy.decisions) then NotProjected
      else
        Rebuilt(policy, messages, inspection.rounds, 0, UsedIds(messages), [], [])
  }

  lemma {:induction false} ReportsPlain(h: History, from: nat, declarations: Declarations)
    requires h.Next? && h.unit.Plain?
    ensures Same(Reports(h, from, declarations), Reports(h.rest, from + 1, declarations))
  {
    assert [] + Reports(h.rest, from + 1, declarations) == Reports(h.rest, from + 1, declarations);
  }

  lemma {:induction false} ReportsRound(h: History, from: nat, declarations: Declarations) returns (o: Observation)
    requires h.Next? && h.unit.Round?
    ensures var others := Reports(h.rest, from + h.unit.Size(), declarations);
            Same(Reports(h, from, declarations), [o] + others) && Same(Reports(h, from, declarations)[1..], others)
    ensures o.start == from && o.end + 1 == from + h.unit.Size() && o.missing == Unanswered(h.unit)
    ensures o.state == Settle(Unanswered(h.unit), declarations, h.unit.assistant.id)
            && o.assistantId == h.unit.assistant.id
  {
    o := Report(h.unit, from, declarations)[0];
    var others := Reports(h.rest, from + h.unit.Size(), declarations);
    assert Report(h.unit, from, declarations) == [o] && ([o] + others)[1..] == others;
  }

  ghost predicate From(rounds: seq<Observation>, from: nat) {
    forall k :: 0 <= k < |rounds| ==> from <= rounds[k].start
  }

  lemma {:induction false} OrderedCons(o: Observation, rounds: seq<Observation>, count: nat)
    requires o.start <= o.end < count && Ordered(rounds, count) && From(rounds, o.end + 1)
    ensures Ordered([o] + rounds, count) && From([o] + rounds, o.start)
  {
    ConsAt(o, rounds);
  }

  lemma {:induction false} ReportsOrdered(h: History, messages: seq<Message>, from: nat, declarations: Declarations)
    requires from <= |messages| && At(h, messages, from)
    ensures Ordered(Reports(h, from, declarations), |messages|) && From(Reports(h, from, declarations), from)
    decreases h
  {
    if h.Next? {
      UnitSpan(h, messages, from);
      ReportsOrdered(h.rest, messages, from + h.unit.Size(), declarations);
      if h.unit.Plain? {
        ReportsPlain(h, from, declarations);
      } else {
        var o := ReportsRound(h, from, declarations);
        OrderedCons(o, Reports(h.rest, from + h.unit.Size(), declarations), |messages|);
      }
    }
  }

  lemma {:induction false} InspectedOrdered(messages: seq<Message>, declarations: Declarations)
    requires Inspect(messages, declarations).Inspected?
    ensures Ordered(Inspect(messages, declarations).rounds, |messages|)
  {
    InspectionIsLayout(messages, declarations);
    WholeSplitAt(messages);
    ReportsOrdered(Split(messages), messages, 0, declarations);
  }

  // ---------------------------------------------------------------- repaired units

  predicate IsInterrupted(u: Unit, declarations: Declarations) {
    u.Round? && Settle(Unanswered(u), declarations, u.assistant.id) == Interrupted
  }

  function MarkerFor(policy: RepairPolicy, u: Unit): Option<Message> {
    Marker(policy, u.Content(), Unanswered(u))
  }

  predicate Needs(policy: RepairPolicy, u: Unit, declarations: Declarations) {
    IsInterrupted(u, declarations) && MarkerFor(policy, u).Some?
  }

  function RepairedUnit(policy: RepairPolicy, u: Unit, declarations: Declarations): Unit {
    if Needs(policy, u, declarations) then Round(u.assistant, u.results + [MarkerFor(policy, u).value]) else u
  }

  function RepairedLayout(policy: RepairPolicy, h: History, declarations: Declarations): History {
    if h.Next? then Next(RepairedUnit(policy, h.unit, declarations), RepairedLayout(policy, h.rest, declarations))
      else h
  }

  predicate Markable(policy: RepairPolicy, h: History, declarations: Declarations) {
    h.Next? ==>
      && (IsInterrupted(h.unit, declarations) ==> MarkerFor(policy, h.unit).Some?)
      && Markable(policy, h.rest, declarations)
  }

  /** The identities of the markers, in order. */
  function Markers(policy: RepairPolicy, h: History, declarations: Declarations): seq<Name> {
    if !h.Next? then []
    else (if Needs(policy, h.unit, declarations) then [MarkerFor(policy, h.unit).value.id] else []) +
         Markers(policy, h.rest, declarations)
  }

  lemma {:induction false} MissingFits(calls: seq<Name>, answered: set<Name>)
    requires CallsNamed(calls)
    ensures AnswersFit(Missing(calls, answered), Elements(calls), answered)
    ensures Elements(calls) <= answered + Elements(Missing(calls, answered))
  {
    if |calls| > 0 {
      var last := |calls| - 1;
      CallsNamedFront(calls);
      MissingFits(calls[..last], answered);
      MissingSnoc(calls[..last], calls[last], answered, Missing(calls[..last], answered));
    }
  }

  lemma {:induction false} CallsNamedFront(calls: seq<Name>)
    requires |calls| > 0 && CallsNamed(calls)
    ensures var front, last := calls[..|calls| - 1], calls[|calls| - 1];
            CallsNamed(front) && last !in front && last != Anonymous && Elements(calls) == Elements(front) + {last}
  {
    var front := calls[..|calls| - 1];
    assert forall i :: 0 <= i < |front| ==> front[i] == calls[i];
    assert calls == front + [calls[|calls| - 1]];
  }

  lemma {:induction false} MissingSnoc(front: seq<Name>, last: Name, answered: set<Name>, missing: seq<Name>)
    requires AnswersFit(missing, Elements(front), answered) && Elements(front) <= answered + Elements(missing)
    requires last !in front && last != Anonymous
    ensures var all := missing + if last in answered then [] else [last];
            AnswersFit(all, Elements(front) + {last}, answered) && Elements(front) + {last} <= answered + Elements(all)
  {
    var all := missing + if last in answered then [] else [last];
    assert forall i :: 0 <= i < |missing| ==> all[i] == missing[i] && missing[i] in Elements(front);
  }

  lemma Unreported(u: Unit, declarations: Declarations)
    requires IsInterrupted(u, declarations)
    ensures |Unanswered(u)| > 0
  {
  }

  lemma {:induction false} MarkedResults(u: Unit, marker: Message)
    requires ValidUnit(u) && u.Round? && |Unanswered(u)| > 0
    requires marker.role == Tool && marker.calls == [] && marker.results == Unanswered(u)
    ensures ResultsFit(u.results + [marker], Elements(u.assistant.calls))
    ensures |Missing(u.assistant.calls, Elements(Answers(u.results + [marker])))| == 0
  {
    var calls, answers, results := u.assistant.calls, Answers(u.results), u.results + [marker];
    MissingFits(calls, Elements(answers));
    AnswersConcat(u.results, [marker]);
    assert Answers([marker]) == marker.results + Answers([]);
    assert marker.results + [] == marker.results;
    AnswersFitConcat(answers, marker.results, Elements(calls));
    assert Elements(Answers(results)) == Elements(answers) + Elements(marker.results);
    MissingNone(calls, Elements(Answers(results)));
    assert forall i :: 0 <= i < |u.results| ==> results[i] == u.results[i];
  }

  /** Answering every missing call makes a valid round complete. */
  lemma {:induction false} RepairedUnitValid(policy: RepairPolicy, u: Unit, declarations: Declarations)
    requires ValidUnit(u)
    ensures ValidUnit(RepairedUnit(policy, u, declarations))
    ensures Needs(policy, u, declarations) ==> CompleteUnit(RepairedUnit(policy, u, declarations))
  {
    if Needs(policy, u, declarations) {
      var marker := MarkerFor(policy, u).value;
      Unreported(u, declarations);
      MarkedResults(u, marker);
      var results := u.results + [marker];
      assert forall i :: 0 <= i < |results| ==> results[i] == if i < |u.results| then u.results[i] else marker;
    }
  }

  lemma {:induction false} RepairedLayoutValid(policy: RepairPolicy, h: History, declarations: Declarations,
                                               seen: set<Name>)
    requires Layout(h, seen)
    ensures Layout(RepairedLayout(policy, h, declarations), seen)
    ensures RoundNames(RepairedLayout(policy, h, declarations)) == RoundNames(h)
    decreases h
  {
    if h.Next? {
      RepairedUnitValid(policy, h.unit, declarations);
      RepairedLayoutValid(policy, h.rest, declarations, seen + h.unit.Names());
    }
  }

  // ---------------------------------------------------------------- the loop repairs unit by unit

  lemma {:induction false} RebuiltSkips(policy: RepairPolicy, messages: seq<Message>, rounds: seq<Observation>,
                                        cursor: nat, used: set<Name>, done: seq<Message>, made: seq<Name>)
    requires cursor < |messages| && (|rounds| > 0 ==> cursor <= rounds[0].end < |messages|)
    ensures Same(Rebuilt(policy, messages, rounds, cursor, used, done, made),
                 Rebuilt(policy, messages, rounds, cursor + 1, used, done + [messages[cursor]], made))
  {
    var end := if |rounds| == 0 then |messages| else rounds[0].end + 1;
    assert done + Part(messages, cursor, end) == done + [messages[cursor]] + Part(messages, cursor + 1, end);
  }

  /** The projection by units: every interrupted round with its marker, if all markers exist and are new. */
  ghost function ByUnits(policy: RepairPolicy, h: History, declarations: Declarations, used: set<Name>,
                         done: seq<Message>, made: seq<Name>): Projection {
    if Markable(policy, h, declarations) && FreshNames(Markers(policy, h, declarations), used) then
      Projected(done + Flatten(RepairedLayout(policy, h, declarations)), made + Markers(policy, h, declarations))
    else NotProjected
  }

  predicate FreshNames(ids: seq<Name>, used: set<Name>) {
    Distinct(ids) && forall i :: 0 <= i < |ids| ==> ids[i] !in used
  }

  lemma {:induction false} FreshCons(id: Name, ids: seq<Name>, used: set<Name>)
    ensures FreshNames([id] + ids, used) <==> id !in used && FreshNames(ids, used + {id})
  {
    var all := [id] + ids;
    assert all[0] == id && forall i :: 0 <= i < |ids| ==> all[i + 1] == ids[i];
    assert forall i :: 0 < i < |all| ==> all[i] == ids[i - 1];
  }

  lemma {:induction false} KeptStep(policy: RepairPolicy, h: History, declarations: Declarations, used: set<Name>,
                                    done: seq<Message>, made: seq<Name>)
    requires h.Next? && !IsInterrupted(h.unit, declarations)
    ensures ByUnits(policy, h, declarations, used, done, made) ==
            ByUnits(policy, h.rest, declarations, used, done + h.unit.Content(), made)
  {
    ConcatAssoc(done, h.unit.Content(), Flatten(RepairedLayout(policy, h.rest, declarations)));
    assert [] + Markers(policy, h.rest, declarations) == Markers(policy, h.rest, declarations);
  }

  lemma Regroup<T>(a: seq<T>, b: seq<T>, c: seq<T>, d: seq<T>)
    ensures a + b + c + d == a + (b + c + d)
  {
  }

  lemma {:induction false} MarkedContent(policy: RepairPolicy, u: Unit, declarations: Declarations)
    requires Needs(policy, u, declarations)
    ensures Same(RepairedUnit(policy, u, declarations).Content(), u.Content() + [MarkerFor(policy, u).value])
  {
    ConcatAssoc([u.assistant], u.results, [MarkerFor(policy, u).value]);
  }

  lemma {:induction false} MarkerStep(policy: RepairPolicy, h: History, declarations: Declarations, used: set<Name>,
                                      done: seq<Message>, made: seq<Name>)
    requires h.Next? && Needs(policy, h.unit, declarations) && MarkerFor(policy, h.unit).value.id !in used
    ensures var m := MarkerFor(policy, h.unit).value;
            ByUnits(policy, h, declarations, used, done, made) ==
            ByUnits(policy, h.rest, declarations, used + {m.id}, done + h.unit.Content() + [m], made + [m.id])
  {
    var m, others := MarkerFor(policy, h.unit).value, Flatten(RepairedLayout(policy, h.rest, declarations));
    var content, ids := h.unit.Content(), Markers(policy, h.rest, declarations);
    MarkedContent(policy, h.unit, declarations);
    Regroup(done, content, [m], others);
    ConcatAssoc(made, [m.id], ids);
    FreshCons(m.id, ids, used);
  }

  lemma {:induction false} RefusedStep(policy: RepairPolicy, h: History, declarations: Declarations, used: set<Name>,
                                       done: seq<Message>, made: seq<Name>)
    requires h.Next? && IsInterrupted(h.unit, declarations)
    requires MarkerFor(policy, h.unit).None? || MarkerFor(policy, h.unit).value.id in used
    ensures ByUnits(policy, h, declarations, used, done, made) == NotProjected
  {
    if MarkerFor(policy, h.unit).Some? {
      FreshCons(MarkerFor(policy, h.unit).value.id, Markers(policy, h.rest, declarations), used);
    }
  }

  /** One round of the loop is one unit of the layout. */
  lemma {:induction false} RebuiltRound(policy: RepairPolicy, messages: seq<Message>, rounds: seq<Observation>,
                                        others: seq<Observation>,
                                        used: set<Name>, done: seq<Message>, made: seq<Name>, u: Unit, o: Observation)
    requires Same(rounds, [o] + others) && Same(rounds[1..], others)
    requires Same(Part(messages, o.start, o.end + 1), u.Content()) && o.missing == Unanswered(u)
    ensures Same(Rebuilt(policy, messages, rounds, o.start, used, done, made),
                 if o.state != Interrupted then Rebuilt(policy, messages, others, o.end + 1, used, done + u.Content(),
                                                        made)
                 else var m := MarkerFor(policy, u);
                      if m.None? || m.value.id in used then NotProjected
                      else Rebuilt(policy, messages, others, o.end + 1, used + {m.value.id},
                                   done + u.Content() + [m.value], made + [m.value.id]))
  {
    assert rounds[0] == o && |rounds| == |others| + 1;
  }

  lemma {:induction false} FirstReport(h: History, messages: seq<Message>, from: nat, declarations: Declarations)
    requires from <= |messages| && At(h, messages, from)
    ensures var rounds := Reports(h, from, declarations);
            |rounds| > 0 ==> from <= rounds[0].start <= rounds[0].end < |messages|
  {
    ReportsOrdered(h, messages, from, declarations);
  }

  lemma {:induction false} UnfoldPlain(policy: RepairPolicy, messages: seq<Message>, h: History, from: nat,
                                       declarations: Declarations, used: set<Name>, done: seq<Message>, made: seq<Name>)
    requires from <= |messages| && At(h, messages, from) && h.Next? && h.unit.Plain?
    ensures Same(Rebuilt(policy, messages, Reports(h, from, declarations), from, used, done, made),
                 Rebuilt(policy, messages, Reports(h.rest, from + 1, declarations), from + 1, used,
                         done + h.unit.Content(), made))
  {
    ReportsPlain(h, from, declarations);
    FirstReport(h.rest, messages, from + 1, declarations);
    RebuiltSkips(policy, messages, Reports(h.rest, from + 1, declarations), from, used, done, made);
  }

  /** What the loop makes of a round and the rounds after it. */
  function AfterRound(policy: RepairPolicy, messages: seq<Message>, u: Unit, others: seq<Observation>, next: nat,
                      declarations: Declarations, used: set<Name>, done: seq<Message>, made: seq<Name>): Projection {
    var m := MarkerFor(policy, u);
    if !IsInterrupted(u, declarations) then Rebuilt(policy, messages, others, next, used, done + u.Content(), made)
    else if m.None? || m.value.id in used then NotProjected
    else Rebuilt(policy, messages, others, next, used + {m.value.id}, done + u.Content() + [m.value],
                 made + [m.value.id])
  }

  lemma {:induction false} UnfoldRound(policy: RepairPolicy, messages: seq<Message>, h: History, from: nat,
                                       declarations: Declarations, used: set<Name>, done: seq<Message>,
                                       made: seq<Name>, next: nat)
    requires from <= |messages| && At(h, messages, from) && h.Next? && h.unit.Round? && next == from + h.unit.Size()
    ensures Same(Rebuilt(policy, messages, Reports(h, from, declarations), from, used, done, made),
                 AfterRound(policy, messages, h.unit, Reports(h.rest, next, declarations), next, declarations, used,
                            done, made))
  {
    var o := ReportsRound(h, from, declarations);
    assert messages[from..next] == h.unit.Content();
    RebuiltRound(policy, messages, Reports(h, from, declarations), Reports(h.rest, next, declarations), used, done,
                 made, h.unit, o);
  }

  lemma RoundKept(policy: RepairPolicy, messages: seq<Message>, u: Unit, others: seq<Observation>, next: nat,
                  declarations: Declarations, used: set<Name>, done: seq<Message>, made: seq<Name>,
                  after: seq<Message>)
    requires !IsInterrupted(u, declarations) && Same(after, done + u.Content())
    ensures Same(AfterRound(policy, messages, u, others, next, declarations, used, done, made),
                 Rebuilt(policy, messages, others, next, used, after, made))
  {
  }

  lemma RoundMarked(policy: RepairPolicy, messages: seq<Message>, u: Unit, others: seq<Observation>, next: nat,
                    declarations: Declarations, used: set<Name>, done: seq<Message>, made: seq<Name>, m: Message,
                    taken: set<Name>, after: seq<Message>, more: seq<Name>)
    requires IsInterrupted(u, declarations) && MarkerFor(policy, u) == Some(m) && m.id !in used
    requires Same(taken, used + {m.id}) && Same(after, done + u.Content() + [m]) && Same(more, made + [m.id])
    ensures Same(AfterRound(policy, messages, u, others, next, declarations, used, done, made),
                 Rebuilt(policy, messages, others, next, taken, after, more))
  {
  }

  ghost predicate Standing(h: History, messages: seq<Message>, from: nat) {
    from <= |messages| && At(h, messages, from) && Intact(h)
  }

  lemma {:induction false} RestStands(h: History, messages: seq<Message>, from: nat)
    requires h.Next? && Standing(h, messages, from)
    ensures Standing(h.rest, messages, from + h.unit.Size())
  {
    UnitSpan(h, messages, from);
  }

  lemma {:induction false} UnfoldEnd(policy: RepairPolicy, messages: seq<Message>, h: History, from: nat,
                                     declarations: Declarations, used: set<Name>, done: seq<Message>, made: seq<Name>)
    requires !h.Next? && Standing(h, messages, from)
    ensures Same(Rebuilt(policy, messages, Reports(h, from, declarations), from, used, done, made),
                 ByUnits(policy, h, declarations, used, done, made))
  {
    assert Part(messages, from, |messages|) == messages[from..] == [] && made + [] == made;
  }

  lemma {:induction false} UnfoldKept(policy: RepairPolicy, messages: seq<Message>, h: History, from: nat,
                                      declarations: Declarations, used: set<Name>, done: seq<Message>,
                                      made: seq<Name>, after: seq<Message>, next: nat, result: Projection)
    requires h.Next? && Standing(h, messages, from) && !IsInterrupted(h.unit, declarations)
    requires Same(after, done + h.unit.Content()) && next == from + h.unit.Size()
    requires Same(result, Rebuilt(policy, messages, Reports(h.rest, next, declarations), next, used, after, made))
    ensures Same(Rebuilt(policy, messages, Reports(h, from, declarations), from, used, done, made), result)
  {
    if h.unit.Plain? {
      UnfoldPlain(policy, messages, h, from, declarations, used, done, made);
    } else {
      UnfoldRound(policy, messages, h, from, declarations, used, done, made, next);
      RoundKept(policy, messages, h.unit, Reports(h.rest, next, declarations), next, declarations, used, done, made,
                after);
    }
  }

  lemma {:induction false} UnitsKept(policy: RepairPolicy, h: History, declarations: Declarations, used: set<Name>,
                                     done: seq<Message>, made: seq<Name>, after: seq<Message>, result: Projection)
    requires h.Next? && !IsInterrupted(h.unit, declarations) && Same(after, done + h.unit.Content())
    requires Same(result, ByUnits(policy, h.rest, declarations, used, after, made))
    ensures Same(ByUnits(policy, h, declarations, used, done, made), result)
  {
    KeptStep(policy, h, declarations, used, done, made);
  }

  lemma {:induction false} RebuiltRefused(policy: RepairPolicy, messages: seq<Message>, h: History, from: nat,
                                          declarations: Declarations, used: set<Name>, done: seq<Message>,
                                          made: seq<Name>)
    requires h.Next? && Standing(h, messages, from) && IsInterrupted(h.unit, declarations)
    requires MarkerFor(policy, h.unit).None? || MarkerFor(policy, h.unit).value.id in used
    ensures Same(Rebuilt(policy, messages, Reports(h, from, declarations), from, used, done, made),
                 ByUnits(policy, h, declarations, used, done, made))
  {
    UnfoldRound(policy, messages, h, from, declarations, used, done, made, from + h.unit.Size());
    RefusedStep(policy, h, declarations, used, done, made);
  }

  lemma {:induction false} UnfoldMarked(policy: RepairPolicy, messages: seq<Message>, h: History, from: nat,
                                        declarations: Declarations, used: set<Name>, done: seq<Message>,
                                        made: seq<Name>, m: Message, taken: set<Name>, after: seq<Message>,
                                        more: seq<Name>, next: nat, result: Projection)
    requires h.Next? && Standing(h, messages, from) && IsInterrupted(h.unit, declarations)
    requires MarkerFor(policy, h.unit) == Some(m) && m.id !in used && next == from + h.unit.Size()
    requires Same(taken, used + {m.id}) && Same(after, done + h.unit.Content() + [m]) && Same(more, made + [m.id])
    requires Same(result, Rebuilt(policy, messages, Reports(h.rest, next, declarations), next, taken, after, more))
    ensures Same(Rebuilt(policy, messages, Reports(h, from, declarations), from, used, done, made), result)
  {
    UnfoldRound(policy, messages, h, from, declarations, used, done, made, next);
    RoundMarked(policy, messages, h.unit, Reports(h.rest, next, declarations), next, declarations, used, done, made, m,
                taken, after, more);
  }

  lemma {:induction false} UnitsMarked(policy: RepairPolicy, h: History, declarations: Declarations, used: set<Name>,
                                       done: seq<Message>, made: seq<Name>, m: Message, taken: set<Name>,
                                       after: seq<Message>, more: seq<Name>, result: Projection)
    requires h.Next? && IsInterrupted(h.unit, declarations) && MarkerFor(policy, h.unit) == Some(m) && m.id !in used
    requires Same(taken, used + {m.id}) && Same(after, done + h.unit.Content() + [m]) && Same(more, made + [m.id])
    requires Same(result, ByUnits(policy, h.rest, declarations, taken, after, more))
    ensures Same(ByUnits(policy, h, declarations, used, done, made), result)
  {
    MarkerStep(policy, h, declarations, used, done, made);
  }

  /** The loop over the reported rounds makes the projection by units. */
  lemma {:induction false} RebuiltByUnits(policy: RepairPolicy, messages: seq<Message>, h: History, from: nat,
                                          declarations: Declarations, used: set<Name>, done: seq<Message>,
                                          made: seq<Name>)
    requires Standing(h, messages, from)
    ensures Same(Rebuilt(policy, messages, Reports(h, from, declarations), from, used, done, made),
                 ByUnits(policy, h, declarations, used, done, made))
    decreases h
  {
    if !h.Next? {
      UnfoldEnd(policy, messages, h, from, declarations, used, done, made);
    } else {
      var next, content, m := from + h.unit.Size(), h.unit.Content(), MarkerFor(policy, h.unit);
      var marked := IsInterrupted(h.unit, declarations);
      RestStands(h, messages, from);
      if marked && (m.None? || m.value.id in used) {
        RebuiltRefused(policy, messages, h, from, declarations, used, done, made);
      } else {
        var taken := if marked then used + {m.value.id} else used;
        var after := if marked then done + content + [m.value] else done + content;
        var more := if marked then made + [m.value.id] else made;
        RebuiltByUnits(policy, messages, h.rest, next, declarations, taken, after, more);
        var all := ByUnits(policy, h.rest, declarations, taken, after, more);
        if marked {
          UnfoldMarked(policy, messages, h, from, declarations, used, done, made, m.value, taken, after, more, next,
                       all);
          UnitsMarked(policy, h, declarations, used, done, made, m.value, taken, after, more, all);
        } else {
          UnfoldKept(policy, messages, h, from, declarations, used, done, made, after, next, all);
          UnitsKept(policy, h, declarations, used, done, made, after, all);
        }
      }
    }
  }

  // ---------------------------------------------------------------- inspecting the projection again

  /** The declarations that still apply: an interrupted round is complete in the projection. */
  function Settled(declarations: Declarations): Declarations {
    map id | id in declarations && declarations[id] != Interrupted :: declarations[id]
  }

  function RepairedRound(o: Observation, shift: nat): Observation {
    if o.state == Interrupted then Observation(o.assistantId, o.start + shift, o.end + shift + 1, Complete, [])
    else o.(start := o.start + shift, end := o.end + shift)
  }

  /** The report of the projection: interrupted rounds are complete, all others unchanged, each moved by the
      markers before it. */
  function RepairedRounds(rounds: seq<Observation>, shift: nat): seq<Observation> {
    if |rounds| == 0 then []
    else [RepairedRound(rounds[0], shift)] +
         RepairedRounds(rounds[1..], if rounds[0].state == Interrupted then shift + 1 else shift)
  }

  lemma SettledState(u: Unit, declarations: Declarations)
    requires u.Round? && Agrees(u, declarations) && !IsInterrupted(u, declarations)
    ensures Agrees(u, Settled(declarations))
    ensures Settle(Unanswered(u), Settled(declarations), u.assistant.id) == Settle(Unanswered(u), declarations,
                                                                                   u.assistant.id)
  {
  }

  lemma CompleteState(u: Unit, declarations: Declarations, id: Name)
    requires u.Round? && CompleteUnit(u) && u.assistant.id == id
             && (id in declarations ==> declarations[id] == Interrupted)
    ensures Agrees(u, Settled(declarations)) && Settle(Unanswered(u), Settled(declarations), id) == Complete
  {
  }

  /** What one repaired unit reports. */
  lemma {:induction false} RepairedReport(policy: RepairPolicy, u: Unit, declarations: Declarations, from: nat,
                                          shift: nat)
    returns (o: Observation)
    requires u.Round? && ValidUnit(u) && Agrees(u, declarations)
    requires IsInterrupted(u, declarations) ==> MarkerFor(policy, u).Some?
    ensures Same(Report(u, from, declarations), [o])
    ensures Agrees(RepairedUnit(policy, u, declarations), Settled(declarations))
    ensures Same(Report(RepairedUnit(policy, u, declarations), from + shift, Settled(declarations)),
                 [RepairedRound(o, shift)])
    ensures RepairedUnit(policy, u, declarations).Size() == u.Size() + if o.state == Interrupted then 1 else 0
  {
    o := Report(u, from, declarations)[0];
    assert Report(u, from, declarations) == [o];
    if IsInterrupted(u, declarations) {
      MarkedReport(policy, u, declarations, from, shift, o);
    } else {
      SettledState(u, declarations);
    }
  }

  /** An interrupted round with its marker reports a complete round. */
  lemma {:induction false} MarkedReport(policy: RepairPolicy, u: Unit, declarations: Declarations, from: nat,
                                        shift: nat, o: Observation)
    requires u.Round? && ValidUnit(u) && Agrees(u, declarations) && IsInterrupted(u, declarations)
    requires MarkerFor(policy, u).Some? && Same(Report(u, from, declarations), [o])
    ensures var v := RepairedUnit(policy, u, declarations);
            && Agrees(v, Settled(declarations)) && v.Size() == u.Size() + 1 && o.state == Interrupted
            && Same(Report(v, from + shift, Settled(declarations)), [RepairedRound(o, shift)])
  {
    var v := RepairedUnit(policy, u, declarations);
    assert Report(u, from, declarations)[0] == o;
    RepairedUnitValid(policy, u, declarations);
    CompleteState(v, declarations, u.assistant.id);
    assert Unanswered(v) == [];
    assert Report(v, from + shift, Settled(declarations))[0] == RepairedRound(o, shift);
  }

  ghost predicate ReportedAs(policy: RepairPolicy, h: History, declarations: Declarations, from: nat, shift: nat) {
    Same(Reports(RepairedLayout(policy, h, declarations), from + shift, Settled(declarations)),
         RepairedRounds(Reports(h, from, declarations), shift))
  }

  lemma {:induction false} RepairedReportsRound(policy: RepairPolicy, h: History, declarations: Declarations, from: nat,
                                                shift: nat, o: Observation, more: nat)
    requires h.Next? && h.unit.Round? && Same(Report(h.unit, from, declarations), [o])
    requires Same(Report(RepairedUnit(policy, h.unit, declarations), from + shift, Settled(declarations)),
                  [RepairedRound(o, shift)])
    requires RepairedUnit(policy, h.unit, declarations).Size() + shift == h.unit.Size() + more
    requires more == if o.state == Interrupted then shift + 1 else shift
    requires ReportedAs(policy, h.rest, declarations, from + h.unit.Size(), more)
    ensures ReportedAs(policy, h, declarations, from, shift)
  {
    ReportsCons(h, from, declarations, o);
    RepairedCons(o, Reports(h.rest, from + h.unit.Size(), declarations), shift, more);
    ReportsCons(RepairedLayout(policy, h, declarations), from + shift, Settled(declarations), RepairedRound(o, shift));
  }

  lemma ReportsCons(h: History, from: nat, declarations: Declarations, o: Observation)
    requires h.Next? && Same(Report(h.unit, from, declarations), [o])
    ensures Same(Reports(h, from, declarations), [o] + Reports(h.rest, from + h.unit.Size(), declarations))
  {
  }

  lemma {:induction false} RepairedCons(o: Observation, others: seq<Observation>, shift: nat, more: nat)
    requires more == if o.state == Interrupted then shift + 1 else shift
    ensures RepairedRounds([o] + others, shift) == [RepairedRound(o, shift)] + RepairedRounds(others, more)
  {
    assert ([o] + others)[0] == o && ([o] + others)[1..] == others;
  }

  lemma {:induction false} RepairedReportsPlain(policy: RepairPolicy, h: History, declarations: Declarations, from: nat,
                                                shift: nat, next: nat)
    requires h.Next? && h.unit.Plain? && next == from + h.unit.Size()
    requires ReportedAs(policy, h.rest, declarations, next, shift)
    ensures ReportedAs(policy, h, declarations, from, shift)
  {
    ReportsPlain(h, from, declarations);
    ReportsPlain(RepairedLayout(policy, h, declarations), from + shift, Settled(declarations));
  }

  lemma {:induction false} RepairedAgree(policy: RepairPolicy, h: History, declarations: Declarations, seen: set<Name>)
    requires Layout(h, seen) && Agree(h, declarations) && Markable(policy, h, declarations)
    ensures Agree(RepairedLayout(policy, h, declarations), Settled(declarations))
    decreases h
  {
    if h.Next? {
      RepairedAgree(policy, h.rest, declarations, seen + h.unit.Names());
      if h.unit.Round? {
        var o := RepairedReport(policy, h.unit, declarations, 0, 0);
      }
    }
  }

  lemma {:induction false} RepairedReports(policy: RepairPolicy, h: History, declarations: Declarations, from: nat,
                                           shift: nat, seen: set<Name>)
    requires Layout(h, seen) && Agree(h, declarations) && Markable(policy, h, declarations)
    ensures ReportedAs(policy, h, declarations, from, shift)
    decreases h
  {
    if h.Next? {
      var next, others := from + h.unit.Size(), seen + h.unit.Names();
      if h.unit.Plain? {
        RepairedReports(policy, h.rest, declarations, next, shift, others);
        RepairedReportsPlain(policy, h, declarations, from, shift, next);
      } else {
        var o := RepairedReport(policy, h.unit, declarations, from, shift);
        var more := if o.state == Interrupted then shift + 1 else shift;
        RepairedReports(policy, h.rest, declarations, next, more, others);
        RepairedReportsRound(policy, h, declarations, from, shift, o, more);
      }
    }
  }

  /** A repair succeeds exactly for a sound policy that decides the interrupted rounds of an accepted history and
      whose markers exist and are new. */
  lemma {:induction false} RepairSucceedsIff(messages: seq<Message>, declarations: Declarations, policy: RepairPolicy)
    ensures RepairOf(messages, declarations, policy).Projected? <==>
            && policy.descriptor.Valid() && policy.encoding.Valid() && Inspect(messages, declarations).Inspected?
            && Decided(Inspect(messages, declarations).rounds, policy.decisions)
            && Markable(policy, Split(messages), declarations)
            && FreshNames(Markers(policy, Split(messages), declarations), UsedIds(messages))
  {
    if Inspect(messages, declarations).Inspected? {
      var h := Split(messages);
      InspectionIsLayout(messages, declarations);
      WholeSplitAt(messages);
      LayoutIntact(h, {});
      RebuiltByUnits(policy, messages, h, 0, declarations, UsedIds(messages), [], []);
    }
  }

  /** Inspected again without the interruptions, the projection reports every interrupted round as complete
      and every other round exactly as before. */
  lemma {:induction false} RepairCompletesInterrupted(messages: seq<Message>, declarations: Declarations,
                                                      policy: RepairPolicy)
    requires RepairOf(messages, declarations, policy).Projected?
    ensures Inspect(messages, declarations).Inspected?
    ensures Inspect(RepairOf(messages, declarations, policy).messages, Settled(declarations)) ==
            Inspected(RepairedRounds(Inspect(messages, declarations).rounds, 0))
  {
    var h := Split(messages);
    InspectionIsLayout(messages, declarations);
    WholeSplitAt(messages);
    LayoutIntact(h, {});
    RebuiltByUnits(policy, messages, h, 0, declarations, UsedIds(messages), [], []);
    RepairedReports(policy, h, declarations, 0, 0, {});
    RepairedAgree(policy, h, declarations, {});
    RepairedLayoutValid(policy, h, declarations, {});
    assert [] + Flatten(RepairedLayout(policy, h, declarations)) == Flatten(RepairedLayout(policy, h, declarations));
    InspectLayout(RepairedLayout(policy, h, declarations), Settled(declarations));
  }

  // ---------------------------------------------------------------- erasing the markers

  predicate Untouched(messages: seq<Message>, ids: set<Name>) {
    forall i :: 0 <= i < |messages| ==> messages[i].id !in ids
  }

  lemma {:induction false} EraseConcat(a: seq<Message>, b: seq<Message>, ids: set<Name>)
    ensures Keep(a + b, Marks(a + b, ids)) == Keep(a, Marks(a, ids)) + Keep(b, Marks(b, ids))
  {
    assert Marks(a + b, ids) == Marks(a, ids) + Marks(b, ids);
    KeepConcat(a, b, Marks(a, ids), Marks(b, ids));
  }

  lemma {:induction false} EraseNothing(a: seq<Message>, ids: set<Name>)
    requires Untouched(a, ids)
    ensures Keep(a, Marks(a, ids)) == a
  {
    KeepAll(a, Marks(a, ids));
  }

  lemma {:induction false} EraseMarker(m: Message, ids: set<Name>)
    requires m.id in ids
    ensures Keep([m], Marks([m], ids)) == []
  {
    KeepNone([m], Marks([m], ids));
  }

  lemma {:induction false} EraseUnit(policy: RepairPolicy, u: Unit, declarations: Declarations, ids: set<Name>)
    requires Untouched(u.Content(), ids) && (Needs(policy, u, declarations) ==> MarkerFor(policy, u).value.id in ids)
    ensures var v := RepairedUnit(policy, u, declarations).Content(); Keep(v, Marks(v, ids)) == u.Content()
  {
    EraseNothing(u.Content(), ids);
    if Needs(policy, u, declarations) {
      var m := MarkerFor(policy, u).value;
      MarkedContent(policy, u, declarations);
      EraseConcat(u.Content(), [m], ids);
      EraseMarker(m, ids);
      assert u.Content() + [] == u.Content();
    }
  }

  lemma {:induction false} UntouchedParts(a: seq<Message>, b: seq<Message>, ids: set<Name>)
    requires Untouched(a + b, ids)
    ensures Untouched(a, ids) && Untouched(b, ids)
  {
    assert forall i :: 0 <= i < |a| ==> (a + b)[i] == a[i];
    assert forall i :: 0 <= i < |b| ==> (a + b)[|a| + i] == b[i];
  }

  lemma {:induction false} EraseLayout(policy: RepairPolicy, h: History, declarations: Declarations, ids: set<Name>)
    requires Untouched(Flatten(h), ids) && Elements(Markers(policy, h, declarations)) <= ids
    ensures var out := Flatten(RepairedLayout(policy, h, declarations)); Same(Keep(out, Marks(out, ids)), Flatten(h))
  {
    if h.Next? {
      UntouchedParts(h.unit.Content(), Flatten(h.rest), ids);
      MarkersOf(policy, h, declarations);
      EraseUnit(policy, h.unit, declarations, ids);
      EraseLayout(policy, h.rest, declarations, ids);
      EraseConcat(RepairedUnit(policy, h.unit, declarations).Content(),
                  Flatten(RepairedLayout(policy, h.rest, declarations)), ids);
    }
  }

  lemma {:induction false} MarkersOf(policy: RepairPolicy, h: History, declarations: Declarations)
    requires h.Next?
    ensures Needs(policy, h.unit, declarations) ==>
              MarkerFor(policy, h.unit).value.id in Elements(Markers(policy, h, declarations))
    ensures Elements(Markers(policy, h.rest, declarations)) <= Elements(Markers(policy, h, declarations))
  {
    if Needs(policy, h.unit, declarations) {
      assert Markers(policy, h, declarations)[0] == MarkerFor(policy, h.unit).value.id;
    }
  }

  /** Erasing the synthetic messages gives the input back, and their identities are new and distinct. */
  lemma {:induction false} ErasingRestoresInput(messages: seq<Message>, declarations: Declarations,
                                                policy: RepairPolicy)
    requires RepairOf(messages, declarations, policy).Projected?
    ensures var r := RepairOf(messages, declarations, policy);
            && Keep(r.messages, Marks(r.messages, Elements(r.synthetic))) == messages
            && FreshNames(r.synthetic, UsedIds(messages))
  {
    var h := Split(messages);
    InspectionIsLayout(messages, declarations);
    WholeSplitAt(messages);
    LayoutIntact(h, {});
    RebuiltByUnits(policy, messages, h, 0, declarations, UsedIds(messages), [], []);
    var out, ids := Flatten(RepairedLayout(policy, h, declarations)), Markers(policy, h, declarations);
    assert [] + out == out && [] + ids == ids;
    FreshIsUntouched(messages, ids);
    EraseLayout(policy, h, declarations, Elements(ids));
  }

  lemma {:induction false} FreshIsUntouched(messages: seq<Message>, ids: seq<Name>)
    requires FreshNames(ids, UsedIds(messages))
    ensures Untouched(messages, Elements(ids))
  {
    forall i | 0 <= i < |messages|
      ensures messages[i].id !in Elements(ids)
    {
      assert messages[i].id in UsedIds(messages);
    }
  }
}
