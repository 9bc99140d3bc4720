/** One budget run from policy check to recorded decision (budget_execution.go). */
module Pipeline {
  import opened Results
  import opened Sequences
  import opened Messages
  import opened Rounds
  import opened Layouts
  import opened RoundIndex
  import opened Retention
  import opened Merging
  import opened Closing
  import opened Candidates
  import opened Budgets
  import opened Strategies
  import opened Overflow

  datatype Run = Delivered(messages: seq<Message>, decision: BudgetDecision) | Failed(error: BudgetError)

  // ---------------------------------------------------------------- policy

  predicate RetentionValid(p: RetentionPolicy) {
    && (forall k :: 0 <= k < |p.messageIds| ==> p.messageIds[k] != Anonymous)
    && (forall k :: 0 <= k < |p.contentRefs| ==> p.contentRefs[k].Valid() && p.contentRefs[k].occurrence == "")
    && (forall k :: 0 <= k < |p.roles| ==> !p.roles[k].OtherRole?)
  }

  predicate PolicyValid(cfg: Config) {
    && (cfg.strategy.DropHead? ==> cfg.strategy.minimum >= 0)
    && RetentionValid(cfg.retention)
    && (cfg.compaction.Some? ==> cfg.compaction.value.Valid() && cfg.summarizer.Some?)
    && (cfg.rolling.Some? ==> cfg.rolling.value.Valid() && cfg.summarizer.Some?)
  }

  method ValidateRetention(p: RetentionPolicy) returns (ok: bool)
    ensures ok <==> RetentionValid(p)
  {
    if Anonymous in p.messageIds {
      return false;
    }
    for k := 0 to |p.contentRefs|
      invariant forall j :: 0 <= j < k ==> p.contentRefs[j].Valid() && p.contentRefs[j].occurrence == ""
    {
      if !p.contentRefs[k].Valid() || p.contentRefs[k].occurrence != "" {
        return false;
      }
    }
    for k := 0 to |p.roles|
      invariant forall j :: 0 <= j < k ==> !p.roles[j].OtherRole?
    {
      if p.roles[k].OtherRole? {
        return false;
      }
    }
    ok := true;
  }

  /** `validateBudgetInvocation`: the policy is sound and the limit lies within the configured budget. */
  method ValidateBudgetInvocation(cfg: Config, limit: int) returns (failure: Option<BudgetError>)
    ensures failure.None? <==>
            PolicyValid(cfg) && Resolve(cfg.budget).Some? && 0 <= limit <= Resolve(cfg.budget).value
  {
    var retention := ValidateRetention(cfg.retention);
    if (cfg.strategy.DropHead? && cfg.strategy.minimum < 0) || !retention {
      return Some(InvalidPolicy);
    }
    if cfg.compaction.Some? && (!cfg.compaction.value.Valid() || cfg.summarizer.None?) {
      return Some(InvalidPolicy);
    }
    if cfg.rolling.Some? && (!cfg.rolling.value.Valid() || cfg.summarizer.None?) {
      return Some(InvalidPolicy);
    }
    var hard := Resolve(cfg.budget);
    if hard.None? || limit < 0 || limit > hard.value {
      return Some(InvalidBudgetRequest);
    }
    failure := None;
  }

  function Recent(cfg: Config): Option<nat>
    requires PolicyValid(cfg)
  {
    if cfg.rolling.None? then None else Some(cfg.rolling.value.recentMessages)
  }

  // ---------------------------------------------------------------- what a successful run guarantees

  /** The required marks of a run over `messages`. */
  ghost predicate Required(cfg: Config, messages: seq<Message>, required: seq<bool>)
    requires PolicyValid(cfg)
  {
    Valid(messages) &&
    RequiredMarks(required, cfg.retention, cfg.codec, messages, Inspect(messages, map[]).rounds, Recent(cfg))
  }

  ghost function ProtectedFrom(cfg: Config, messages: seq<Message>): nat
    requires PolicyValid(cfg) && Valid(messages)
  {
    SuffixStart(|messages|, Inspect(messages, map[]).rounds, Recent(cfg))
  }

  /** The decision a run starts with: thresholds recomputed from its own limit. */
  predicate Opening(cfg: Config, limit: int, d: BudgetDecision) {
    && d.hardLimit == limit && d.triggerTokens == Trigger(limit, cfg.compaction)
    && d.targetTokens == Target(limit, cfg.compaction)
    && d.summary.None? && !d.compacted && 0 <= d.beforeTokens
  }

  lemma PurposeValid(cfg: Config)
    requires PolicyValid(cfg)
    ensures SummaryPurpose(cfg).Valid()
  {
  }

  /** Every decision a run closes passes its own validator and the manifest's recomputation. */
  lemma {:induction false} ClosedDecisionValid(cfg: Config, limit: int, start: BudgetDecision, d: BudgetDecision)
    requires PolicyValid(cfg) && Resolve(cfg.budget).Some? && 0 <= limit <= Resolve(cfg.budget).value
    requires Opening(cfg, limit, start)
    requires Extends(d.(targetReached := start.targetReached), start) && SummaryFits(d, SummaryPurpose(cfg))
    requires 0 <= d.afterTokens <= d.hardLimit && d.targetReached == (d.afterTokens <= d.targetTokens)
    requires forall k :: 0 <= k < |start.required| ==> start.required[k].Valid()
    ensures ManifestAccepts(d, Resolve(cfg.budget).value, cfg.compaction)
  {
    ThresholdsOrdered(limit, cfg.compaction);
    PurposeValid(cfg);
  }

  lemma {:induction false} RefsValid(codec: Codec, messages: seq<Message>, refs: seq<ContentRef>)
    requires codec.Lawful() && RefsOf(codec, messages, refs)
    ensures forall k :: 0 <= k < |refs| ==> refs[k].Valid()
  {
    forall k | 0 <= k < |refs|
      ensures refs[k].Valid()
    {
      assert codec.ref(messages[k]).Some?;
    }
  }

  lemma {:induction false} NotUniform(h: History, marks: seq<bool>)
    requires Uniform(h, marks)
    ensures Uniform(h, Not(marks))
  {
    if h.Next? {
      var n := h.unit.Size();
      assert Not(marks)[n..] == Not(marks[n..]);
      NotUniform(h.rest, marks[n..]);
    }
  }

  /** The marks a run computes are what the eviction loop asks for. */
  lemma {:induction false} RequiredIsEvictable(cfg: Config, messages: seq<Message>, required: seq<bool>)
    requires PolicyValid(cfg) && Required(cfg, messages, required)
    ensures Evictable(messages, required)
    ensures ProtectedFrom(cfg, messages) <= |messages|
    ensures forall i :: ProtectedFrom(cfg, messages) <= i < |messages| ==> required[i]
  {
    var rounds := Inspect(messages, map[]).rounds;
    RequirementsRespectRounds(required, cfg.retention, cfg.codec, messages, Recent(cfg));
    NotUniform(Split(messages), required);
    RoundsPartition(messages);
    SuffixIsShortest(|messages|, rounds, Recent(cfg));
    RequiredMarksUniform(required, cfg.retention, cfg.codec, messages, rounds, Recent(cfg));
    NotRoundsUniform(rounds, required);
    KeptWithoutPending(messages, Not(required));
  }

  lemma NotRoundsUniform(rounds: seq<Observation>, marks: seq<bool>)
    requires RoundsUniform(rounds, marks)
    requires forall k :: 0 <= k < |rounds| && rounds[k].state == Pending ==>
               rounds[k].start < |marks| && marks[rounds[k].start]
    ensures RoundsUniform(rounds, Not(marks)) && PendingUnmarked(rounds, Not(marks))
  {
  }

  // ---------------------------------------------------------------- the run

  /** What `ApplyWithLimit` promises about its result. */
  ghost predicate Promised(cfg: Config, messages: seq<Message>, limit: int, out: seq<Message>, d: BudgetDecision,
                           required: seq<bool>, kept: seq<bool>, front: seq<Message>) {
    && PolicyValid(cfg) && Required(cfg, messages, required)
    && Admitted(cfg.estimator, out, d) && d.hardLimit == limit
    && ProtectedFrom(cfg, messages) <= |messages|
    && Keeps(messages, required, ProtectedFrom(cfg, messages), out, kept, front)
    && RefsOf(cfg.codec, Keep(messages, required), d.required) && OutputKeeps(cfg.codec, out, d.required)
    && Resolve(cfg.budget).Some? && ManifestAccepts(d, Resolve(cfg.budget).value, cfg.compaction)
    && (d.beforeTokens <= d.triggerTokens ==> out == messages)
  }

  method MarkRequired(cfg: Config, messages: seq<Message>, rounds: seq<Observation>) returns (marks: Option<seq<bool>>)
    requires PolicyValid(cfg) && Valid(messages) && rounds == Inspect(messages, map[]).rounds
    ensures marks.Some? ==> Required(cfg, messages, marks.value)
    ensures marks.Some? <==> Resolvable(cfg.retention, cfg.codec, messages)
  {
    RoundsPartition(messages);
    var ok, selected := SelectRequired(cfg.retention, cfg.codec, messages, rounds);
    if !ok {
      return None;
    }
    ProtectBudgetSuffix(selected, rounds, Recent(cfg));
    marks := Some(selected[..]);
  }

  lemma {:induction false} RunCloses(cfg: Config, messages: seq<Message>, out: seq<Message>, refs: seq<ContentRef>,
                                     required: seq<bool>, kept: seq<bool>, front: seq<Message>, from: nat)
    requires cfg.codec.Lawful() && |required| == |messages| && from <= |messages|
    requires Keeps(messages, required, from, out, kept, front) && RefsOf(cfg.codec, Keep(messages, required), refs)
    ensures OutputKeeps(cfg.codec, out, refs)
  {
    if true in required {
      ClosingCheckPasses(cfg.codec, out, kept, refs);
    } else {
      KeepNone(messages, required);
    }
  }

  /** Everything a run checks before it touches the history. */
  ghost predicate Startable(cfg: Config, messages: seq<Message>, limit: int) {
    && PolicyValid(cfg) && Resolve(cfg.budget).Some? && 0 <= limit <= Resolve(cfg.budget).value
    && Valid(messages) && Resolvable(cfg.retention, cfg.codec, messages)
    && Cost(cfg.estimator, messages).Some? && UniqueIds(messages)
  }

  predicate Referable(codec: Codec, messages: seq<Message>) {
    forall k :: 0 <= k < |messages| ==> messages[k].id != Anonymous && codec.ref(messages[k]).Some?
  }

  /** When eviction cannot tear a round: whole units go, and every message that may go has a name. */
  predicate Untearable(cfg: Config, messages: seq<Message>, required: seq<bool>) {
    cfg.summarizer.None? && Atomic(cfg.strategy) && |required| == |messages| && NamedOptional(messages, required)
  }

  /** The outcome of a run that evicts by weight: the merge of what the strategy leaves, or the exact failure. */
  ghost predicate Evicts(cfg: Config, messages: seq<Message>, required: seq<bool>, limit: int, r: Run)
    requires |required| == |messages|
  {
    && (r.Delivered? ==> PlainEviction(cfg, messages, required, limit, r.messages))
    && (r == Failed(InvalidRound) <==> Tears(cfg, messages, required, limit))
  }

  method ApplyWithLimit(cfg: Config, messages: seq<Message>, limit: int)
    returns (r: Run, ghost required: seq<bool>, ghost kept: seq<bool>, ghost front: seq<Message>)
    requires cfg.codec.Lawful()
    ensures r.Delivered? ==> Startable(cfg, messages, limit)
    ensures Startable(cfg, messages, limit) ==> Required(cfg, messages, required)
    ensures (&& Startable(cfg, messages, limit) && Referable(cfg.codec, Keep(messages, required))
             && Cost(cfg.estimator, messages).value <= Trigger(limit, cfg.compaction)) ==> r.Delivered?
    ensures r.Delivered? ==> Promised(cfg, messages, limit, r.messages, r.decision, required, kept, front)
    ensures Startable(cfg, messages, limit) && Untearable(cfg, messages, required) ==> r != Failed(InvalidRound)
    ensures (&& Startable(cfg, messages, limit) && Referable(cfg.codec, Keep(messages, required))
             && cfg.summarizer.None? && ByWeight(cfg, messages, required)
             && Cost(cfg.estimator, messages).value > Trigger(limit, cfg.compaction))
            ==> Evicts(cfg, messages, required, limit, r)
  {
    required, kept, front := [], [], [];
    var failure := ValidateBudgetInvocation(cfg, limit);
    if failure.Some? {
      return Failed(failure.value), required, kept, front;
    }
    var inspection := InspectToolRoundStates(messages, map[]);
    if inspection.Rejected? {
      return Failed(InvalidRound), required, kept, front;
    }
    var selected := MarkRequired(cfg, messages, inspection.rounds);
    if selected.None? {
      return Failed(InvalidRetention), required, kept, front;
    }
    required := selected.value;
    var before := Cost(cfg.estimator, messages);
    if before.None? {
      return Failed(EstimateFailed), required, kept, front;
    }
    var unique := ValidateUniqueMessageIDs(messages);
    if !unique {
      return Failed(DuplicateMessageIds), required, kept, front;
    }
    var must, _ := SplitRequired(messages, selected.value);
    var refs := RequiredRefs(cfg.codec, must);
    if refs.None? {
      return Failed(InvalidRetention), required, kept, front;
    }
    var start := BudgetDecision(limit, Trigger(limit, cfg.compaction), Target(limit, cfg.compaction), before.value, 0,
                                refs.value, None, false, false);
    r, kept, front := Close(cfg, messages, limit, selected.value, start);
  }

  /** From the opened decision to the closing check. */
  method Close(cfg: Config, messages: seq<Message>, limit: int, required: seq<bool>, start: BudgetDecision)
    returns (r: Run, ghost kept: seq<bool>, ghost front: seq<Message>)
    requires cfg.codec.Lawful() && PolicyValid(cfg) && Required(cfg, messages, required) && UniqueIds(messages)
    requires Resolve(cfg.budget).Some? && 0 <= limit <= Resolve(cfg.budget).value
    requires Opening(cfg, limit, start) && Cost(cfg.estimator, messages) == Some(start.beforeTokens)
    requires RefsOf(cfg.codec, Keep(messages, required), start.required)
    ensures r.Delivered? ==> Promised(cfg, messages, limit, r.messages, r.decision, required, kept, front)
    ensures start.beforeTokens <= start.triggerTokens ==> r.Delivered?
    ensures Untearable(cfg, messages, required) ==> r != Failed(InvalidRound)
    ensures (&& cfg.summarizer.None? && ByWeight(cfg, messages, required)
             && start.beforeTokens > start.triggerTokens) ==>
              Evicts(cfg, messages, required, limit, r)
  {
    ghost var from := ProtectedFrom(cfg, messages);
    RequiredIsEvictable(cfg, messages, required);
    ThresholdsOrdered(limit, cfg.compaction);
    RefsValid(cfg.codec, Keep(messages, required), start.required);
    var cell := new DecisionCell(start);
    var step: Step;
    step, kept, front := Shrink(cfg, messages, required, cell, from);
    if !step.Ready? {
      return Failed(if step.Stopped? then step.error else InvalidRetention), kept, front;
    }
    cell.d := cell.d.(targetReached := cell.d.afterTokens <= cell.d.targetTokens);
    RunCloses(cfg, messages, step.messages, start.required, required, kept, front, from);
    var closed := ValidateRequiredOutput(cfg.codec, step.messages, cell.d.required);
    assert closed;
    ClosedDecisionValid(cfg, limit, start, cell.d);
    r := Delivered(step.messages, cell.d);
  }

  /** The history as it is below the trigger, and the overflow path above it. */
  method Shrink(cfg: Config, messages: seq<Message>, required: seq<bool>, cell: DecisionCell, ghost from: nat)
    returns (r: Step, ghost kept: seq<bool>, ghost front: seq<Message>)
    requires Splittable(messages, required, from)
    requires 0 <= cell.d.targetTokens <= cell.d.triggerTokens <= cell.d.hardLimit && !cell.d.compacted
             && cell.d.summary.None?
    requires Cost(cfg.estimator, messages) == Some(cell.d.beforeTokens)
    modifies cell
    ensures !r.NotHandled? && Handed(cfg, messages, required, from, cell.d, r, kept, front)
    ensures Extends(cell.d, old(cell.d)) && (r.Ready? ==> SummaryFits(cell.d, SummaryPurpose(cfg)))
    ensures cell.d.beforeTokens <= cell.d.triggerTokens ==> r == Ready(messages)
    ensures Untearable(cfg, messages, required) ==> r != Stopped(InvalidRound)
    ensures (&& cfg.summarizer.None? && ByWeight(cfg, messages, required)
             && old(cell.d.beforeTokens) > old(cell.d.triggerTokens)) ==>
              && (r.Ready? ==> PlainEviction(cfg, messages, required, old(cell.d.hardLimit), r.messages))
              && (r == Stopped(InvalidRound) <==> Tears(cfg, messages, required, old(cell.d.hardLimit)))
  {
    if cell.d.beforeTokens > cell.d.triggerTokens {
      r, kept, front := ExecuteOverflow(cfg, messages, required, cell, from);
    } else {
      cell.d := cell.d.(afterTokens := cell.d.beforeTokens);
      WholeKeeps(messages, required, from);
      r, kept, front := Ready(messages), required, messages[..from];
    }
  }

  // ---------------------------------------------------------------- pending rounds

  /** The same observation, `n` positions later. */
  function Shifted(o: Observation, n: int): Observation
    requires 0 <= o.start + n && 0 <= o.end + n
  {
    o.(start := o.start + n, end := o.end + n)
  }

  lemma {:induction false} SameTail(a: seq<Message>, s: nat, b: seq<Message>, t: nat, i: nat)
    requires s <= |a| && t <= |b| && a[s..] == b[t..] && s <= i < |a|
    ensures i - s + t < |b| && b[i - s + t] == a[i]
    ensures ToolRun(b, i - s + t + 1) == ToolRun(a, i + 1) - s + t
    ensures RoundAt(b, i - s + t) == RoundAt(a, i)
  {
    var j := i - s + t;
    assert a[i] == a[s..][i - s] && b[j] == b[t..][j - t];
    ToolRunShift(a, s, i - s + 1);
    ToolRunShift(b, t, i - s + 1);
    var n := ToolRun(a, i + 1);
    assert a[i + 1..n] == a[s..][i - s + 1..n - s];
    assert b[j + 1..n - s + t] == b[t..][i - s + 1..n - s];
  }

  lemma SameObservation(a: seq<Message>, o: Observation, b: seq<Message>, p: Observation, n: int)
    requires Describes(o, a) && Describes(p, b) && p.start == o.start + n
    requires a[o.start].id == b[p.start].id && RoundAt(b, p.start) == RoundAt(a, o.start)
    requires ToolRun(b, p.start + 1) == ToolRun(a, o.start + 1) + n
    ensures 0 <= o.end + n && p == Shifted(o, n)
  {
  }

  lemma {:induction false} OpenedRound(messages: seq<Message>, i: nat) returns (j: nat)
    requires Valid(messages) && i < |messages| && OpensRound(messages[i])
    ensures var rounds := Inspect(messages, map[]).rounds;
            j < |rounds| && Describes(rounds[j], messages) && rounds[j].start == i
  {
    var rounds := Inspect(messages, map[]).rounds;
    RoundsPartition(messages);
    assert Opened(rounds, i);
    j :| 0 <= j < |rounds| && rounds[j].start == i;
  }

  /** A round inside the part two histories share as their tails is reported alike in both. */
  lemma {:induction false} TailRoundSurvives(before: seq<Message>, s: nat, out: seq<Message>, front: seq<Message>,
                                             o: Observation)
    returns (j: nat)
    requires Valid(out) && s <= |before| && out == front + before[s..] && Describes(o, before) && s <= o.start <= o.end
    ensures var rounds := Inspect(out, map[]).rounds;
            j < |rounds| && rounds[j] == Shifted(o, |front| - s)
  {
    var i: nat := o.start - s + |front|;
    assert out[|front|..] == before[s..];
    SameTail(before, s, out, |front|, o.start);
    assert OpensRound(out[i]);
    j := OpenedRound(out, i);
    SameObservation(before, o, out, Inspect(out, map[]).rounds[j], |front| - s);
  }

  /** Every round that waits for an answer is in the output of a successful run, intact and still waiting. */
  lemma {:induction false} PendingRoundsSurvive(cfg: Config, messages: seq<Message>, limit: int, out: seq<Message>,
                                                d: BudgetDecision, required: seq<bool>, kept: seq<bool>,
                                                front: seq<Message>, k: nat)
    returns (j: nat)
    requires Promised(cfg, messages, limit, out, d, required, kept, front)
    requires var rounds := Inspect(messages, map[]).rounds; k < |rounds| && rounds[k].state == Pending
    ensures var s, o := ProtectedFrom(cfg, messages), Inspect(messages, map[]).rounds[k];
            var found := Inspect(out, map[]).rounds;
            j < |found| && s <= o.start <= o.end && found[j] == Shifted(o, |front| - s)
  {
    var rounds := Inspect(messages, map[]).rounds;
    RoundsPartition(messages);
    SuffixIsShortest(|messages|, rounds, Recent(cfg));
    assert Describes(rounds[k], messages);
    j := TailRoundSurvives(messages, ProtectedFrom(cfg, messages), out, front, rounds[k]);
  }
}
