/** What happens when a history is too large (budget_execution.go). */
module Overflow {
  import opened Results
  import opened Sequences
  import opened Messages
  import opened Rounds
  import opened Layouts
  import opened Retention
  import opened Matching
  import opened Landing
  import opened Merging
  import opened Closing
  import opened Candidates
  import opened Budgets
  import opened Strategies

  datatype BudgetError =
    | InvalidBudgetRequest | InvalidPolicy | InvalidRound | InvalidRetention | DuplicateMessageIds
    | EstimateFailed | BudgetExceeded | RequiredExceedsBudget | SummaryFailed | InvalidSummary | StrategyFailed

  datatype RollingPolicy = RollingPolicy(descriptor: Descriptor, recentMessages: int) {
    predicate Valid() {
      recentMessages > 0 && descriptor.Valid()
    }
  }

  datatype SummaryOutcome = Summarized(message: Message) | NoSummary

  /** `summarizer` gets the optional messages with the hard and the desired capacity. */
  datatype Config = Config(
    retention: RetentionPolicy, compaction: Option<CompactionPolicy>, budget: BudgetRequest,
    summarizer: Option<(seq<Message>, int, int) -> SummaryOutcome>, strategy: Strategy,
    rolling: Option<RollingPolicy>, estimator: Estimator, codec: Codec)

  /** `decision`, which every step rewrites in place. */
  class DecisionCell {
    var d: BudgetDecision

    constructor (d: BudgetDecision)
      ensures this.d == d
    {
      this.d := d;
    }
  }

  datatype Step = Ready(messages: seq<Message>) | NotHandled | Stopped(error: BudgetError)

  function SummaryPurpose(cfg: Config): Descriptor {
    if cfg.compaction.Some? then cfg.compaction.value.descriptor
    else if cfg.rolling.Some? then cfg.rolling.value.descriptor
    else Descriptor(Named("contexty/summary/whole-block"), Named("budget-contract"))
  }

  // ---------------------------------------------------------------- checks shared by the branches

  predicate EveryComplete(rounds: seq<Observation>) {
    forall k :: 0 <= k < |rounds| ==> rounds[k].state == Complete
  }

  lemma {:induction false} EveryCompleteConcat(a: seq<Observation>, b: seq<Observation>)
    ensures EveryComplete(a + b) <==> EveryComplete(a) && EveryComplete(b)
  {
    var c := a + b;
    assert forall k :: 0 <= k < |a| ==> c[k] == a[k];
    assert forall k :: 0 <= k < |b| ==> c[|a| + k] == b[k];
    if !EveryComplete(c) {
      var k :| 0 <= k < |c| && c[k].state != Complete;
      assert if k < |a| then a[k].state != Complete else b[k - |a|].state != Complete;
    }
  }

  lemma {:induction false} CompleteReport(u: Unit, start: nat)
    ensures EveryComplete(Report(u, start, map[])) <==> CompleteUnit(u)
  {
    if u.Round? {
      assert Report(u, start, map[])[0].state == Settle(Unanswered(u), map[], u.assistant.id);
    }
  }

  lemma {:induction false} AllCompleteReports(h: History, start: nat)
    ensures EveryComplete(Reports(h, start, map[])) <==> AllComplete(h)
  {
    if h.Next? {
      AllCompleteReports(h.rest, start + h.unit.Size());
      CompleteReport(h.unit, start);
      EveryCompleteConcat(Report(h.unit, start, map[]), Reports(h.rest, start + h.unit.Size(), map[]));
    }
  }

  lemma {:induction false} CompleteByReport(messages: seq<Message>)
    requires Valid(messages)
    ensures EveryComplete(Inspect(messages, map[]).rounds) <==> ValidComplete(messages)
  {
    ValidIsLayout(messages);
    AllCompleteReports(Split(messages), 0);
  }

  /** `validateEvictableRounds`: valid, and every round complete. */
  method ValidateEvictableRounds(messages: seq<Message>) returns (ok: bool)
    ensures ok <==> ValidComplete(messages)
  {
    var inspection := InspectToolRoundStates(messages, map[]);
    if inspection.Rejected? {
      return false;
    }
    CompleteByReport(messages);
    for k := 0 to |inspection.rounds|
      invariant forall j :: 0 <= j < k ==> inspection.rounds[j].state == Complete
    {
      if inspection.rounds[k].state != Complete {
        return false;
      }
    }
    ok := true;
  }

  /** The final admission of an output: valid rounds, and within the hard limit by the original estimator. */
  ghost predicate Admitted(est: Estimator, out: seq<Message>, d: BudgetDecision) {
    Valid(out) && Cost(est, out).Some? && Cost(est, out).value == d.afterTokens <= d.hardLimit
  }

  /** Whether an output passes that admission. */
  predicate Admissible(est: Estimator, out: seq<Message>, limit: int) {
    Valid(out) && Cost(est, out).Some? && Cost(est, out).value <= limit
  }

  method Admit(est: Estimator, out: seq<Message>, cell: DecisionCell) returns (r: Step)
    modifies cell
    ensures r.Ready? ==> r.messages == out && Admitted(est, out, cell.d)
    ensures r.Ready? <==> Admissible(est, out, old(cell.d.hardLimit))
    ensures !r.NotHandled? && (r == Stopped(InvalidRound) <==> !Valid(out))
    ensures cell.d == old(cell.d).(afterTokens := cell.d.afterTokens)
  {
    var inspection := InspectToolRoundStates(out, map[]);
    if inspection.Rejected? {
      return Stopped(InvalidRound);
    }
    var cost := Cost(est, out);
    if cost.None? {
      return Stopped(EstimateFailed);
    }
    cell.d := cell.d.(afterTokens := cost.value);
    if cell.d.afterTokens > cell.d.hardLimit {
      return Stopped(BudgetExceeded);
    }
    r := Ready(out);
  }

  // ---------------------------------------------------------------- what an output keeps

  /** The required messages survive unchanged and in order at the positions `kept`, and everything from
      `from` on is still the tail of the output. */
  ghost predicate Keeps(before: seq<Message>, selected: seq<bool>, from: nat, out: seq<Message>, kept: seq<bool>,
                        front: seq<Message>)
    requires |selected| == |before| && from <= |before|
  {
    && |kept| == |out| && Same(Keep(out, kept), Keep(before, selected))
    && (true in selected ==> UniqueIds(out))
    && Same(out, front + before[from..])
  }

  lemma {:induction false} WholeKeeps(before: seq<Message>, selected: seq<bool>, from: nat)
    requires |selected| == |before| && from <= |before| && UniqueIds(before)
    ensures Keeps(before, selected, from, before, selected, before[..from])
  {
    assert before == before[..from] + before[from..];
  }

  lemma {:induction false} MarkedKeeps(before: seq<Message>, selected: seq<bool>, from: nat, marks: seq<bool>)
    returns (kept: seq<bool>, front: seq<Message>)
    requires |selected| == |before| == |marks| && from <= |before| && UniqueIds(before)
    requires forall i :: 0 <= i < |before| && selected[i] ==> marks[i]
    requires forall i :: from <= i < |before| ==> selected[i]
    ensures Keeps(before, selected, from, Keep(before, marks), kept, front)
  {
    kept := KeepFewer(before, selected, marks);
    KeepUniqueIds(before, marks);
    KeepSuffix(before, marks, from);
    front := Keep(before[..from], marks[..from]);
  }

  lemma {:induction false} SomethingOptional(before: seq<Message>, selected: seq<bool>)
    requires |selected| == |before| && |Keep(before, Not(selected))| > 0
    ensures FirstOptional(selected) < |selected|
  {
    if FirstOptional(selected) == |selected| {
      KeepNone(before, Not(selected));
    }
  }

  // ---------------------------------------------------------------- the branches

  /** How an eviction outcome is answered: with atomicity a candidate that fits is never refused. */
  predicate EvictionAnswer(rule: Rule, e: Eviction, r: Step) {
    if e.Evicted? then
      && (r.Ready? ==> r.messages == e.messages) && (rule.atomic ==> r.Ready?) && !r.NotHandled?
      && (r == Stopped(InvalidRound) <==> !Valid(e.messages))
    else r.Stopped? && r.error != InvalidRound
  }

  /** When eviction weighs the optional messages on their own instead of trying whole candidates. */
  predicate ByWeight(cfg: Config, before: seq<Message>, selected: seq<bool>)
    requires |selected| == |before|
  {
    cfg.estimator.additive || |Keep(before, selected)| == 0 || cfg.strategy.Host?
  }

  ghost predicate EvictionHandled(cfg: Config, before: seq<Message>, selected: seq<bool>, limit: int, r: Step)
    requires Evictable(before, selected)
  {
    var rule := RuleOf(cfg.strategy);
    match cfg.strategy
    case Host(_) => r.NotHandled?
    case Strict => r == Stopped(BudgetExceeded)
    case _ =>
      exists e :: Outcome(PlanFor(rule, before, selected), rule, cfg.estimator, limit, e) && EvictionAnswer(rule, e, r)
  }

  lemma {:induction false} EvictedIsAdmissible(rule: Rule, before: seq<Message>, selected: seq<bool>, limit: int,
                                               est: Estimator, out: seq<Message>)
    requires Evictable(before, selected) && rule.atomic
    requires Outcome(PlanFor(rule, before, selected), rule, est, limit, Evicted(out))
    ensures Admissible(est, out, limit)
  {
    var plan := PlanFor(rule, before, selected);
    var k: nat :| FirstFit(plan, rule, est, limit, k) && Same(out, Plans.Text(Candidate(plan, rule, k)));
    var marks := CandidatesAreSound(before, selected, rule, k);
  }

  /** What the steps after the split need: whole complete rounds may go, and the required tail starts at `from`. */
  ghost predicate Splittable(before: seq<Message>, selected: seq<bool>, from: nat) {
    && Evictable(before, selected) && UniqueIds(before)
    && from <= |before| && forall i :: from <= i < |before| ==> selected[i]
  }

  /** What every branch promises about the messages it hands on. */
  ghost predicate Handed(cfg: Config, before: seq<Message>, selected: seq<bool>, from: nat, d: BudgetDecision, r: Step,
                         kept: seq<bool>, front: seq<Message>)
    requires |selected| == |before| && from <= |before|
  {
    r.Ready? ==> Admitted(cfg.estimator, r.messages, d) && Keeps(before, selected, from, r.messages, kept, front)
  }

  method TryCompleteEviction(cfg: Config, before: seq<Message>, selected: seq<bool>, anyRequired: bool,
                             cell: DecisionCell, ghost from: nat)
    returns (r: Step, ghost kept: seq<bool>, ghost front: seq<Message>)
    requires Splittable(before, selected, from)
    modifies cell
    ensures Handed(cfg, before, selected, from, cell.d, r, kept, front)
    ensures cell.d == old(cell.d).(afterTokens := cell.d.afterTokens)
    ensures cfg.summarizer.Some? || !anyRequired || cfg.estimator.additive ==> r.NotHandled?
    ensures cfg.summarizer.None? && anyRequired && !cfg.estimator.additive ==>
              EvictionHandled(cfg, before, selected, old(cell.d.hardLimit), r)
    ensures Atomic(cfg.strategy) ==> r != Stopped(InvalidRound)
  {
    kept, front := [], [];
    if cfg.summarizer.Some? || !anyRequired || cfg.estimator.additive {
      return NotHandled, kept, front;
    }
    var e := EvictCompleteCandidate(cfg.strategy, before, selected, cell.d.hardLimit, cfg.estimator);
    match e
    case NotBuiltIn =>
      r := NotHandled;
    case Refused =>
      r := Stopped(BudgetExceeded);
    case Exhausted =>
      r := Stopped(RequiredExceedsBudget);
    case NotMeasured =>
      r := Stopped(EstimateFailed);
    case Evicted(out) =>
      kept, front := EvictedKeeps(RuleOf(cfg.strategy), before, selected, cell.d.hardLimit, cfg.estimator, out, from);
      if RuleOf(cfg.strategy).atomic {
        EvictedIsAdmissible(RuleOf(cfg.strategy), before, selected, cell.d.hardLimit, cfg.estimator, out);
      }
      r := Admit(cfg.estimator, out, cell);
  }

  lemma {:induction false} EvictedKeeps(rule: Rule, before: seq<Message>, selected: seq<bool>, limit: int,
                                        est: Estimator, out: seq<Message>, from: nat)
    returns (kept: seq<bool>, front: seq<Message>)
    requires Evictable(before, selected) && UniqueIds(before) && (rule.atomic || !rule.tail)
    requires from <= |before| && forall i :: from <= i < |before| ==> selected[i]
    requires Outcome(PlanFor(rule, before, selected), rule, est, limit, Evicted(out))
    ensures Keeps(before, selected, from, out, kept, front)
  {
    var plan := PlanFor(rule, before, selected);
    var k: nat :| FirstFit(plan, rule, est, limit, k) && Same(out, Plans.Text(Candidate(plan, rule, k)));
    var marks := CandidatesAreSound(before, selected, rule, k);
    kept, front := MarkedKeeps(before, selected, from, marks);
  }

  /** The summary request is recorded in the decision before the host is asked. */
  method SummarizeOptional(cfg: Config, before: seq<Message>, evictable: seq<Message>, maxTokens: int,
                           targetTokens: int, cell: DecisionCell)
    returns (r: Step)
    requires cfg.summarizer.Some?
    modifies cell
    ensures !r.NotHandled? && Extends(cell.d, old(cell.d))
    ensures r.Ready? ==> cell.d == old(cell.d).(compacted := true,
                                                summary := Some(SummaryBudget(maxTokens, targetTokens,
                                                                              SummaryPurpose(cfg))))
    ensures r.Ready? ==> |r.messages| == 1 && ValidComplete(r.messages)
    ensures r.Ready? ==> Cost(cfg.estimator, r.messages).Some? && Cost(cfg.estimator, r.messages).value <= maxTokens
  {
    var cost := Cost(cfg.estimator, evictable);
    if cost.None? {
      return Stopped(EstimateFailed);
    }
    cell.d := cell.d.(summary := Some(SummaryBudget(maxTokens, targetTokens, SummaryPurpose(cfg))));
    var summary := cfg.summarizer.value(evictable, maxTokens, targetTokens);
    cell.d := cell.d.(compacted := true);
    if summary.NoSummary? {
      return Stopped(SummaryFailed);
    }
    var output := [summary.message];
    var tokens := Cost(cfg.estimator, output);
    if tokens.None? {
      return Stopped(EstimateFailed);
    }
    if tokens.value > maxTokens {
      return Stopped(BudgetExceeded);
    }
    var ok := ValidateEvictableRounds(output);
    if !ok {
      return Stopped(InvalidRound);
    }
    if cfg.rolling.Some? && summary.message.id != Anonymous {
      var hit := RequiredIDCollision(summary.message.id, before);
      if hit {
        return Stopped(InvalidSummary);
      }
    }
    r := Ready(output);
  }

  /** What is left of the optional messages: all of them if they fit, otherwise what the strategy leaves. */
  function OptionalOf(cfg: Config, messages: seq<Message>, limit: int): Applied {
    var cost := Cost(cfg.estimator, messages);
    if cost.None? then BadEstimate
    else if cost.value <= limit then Kept(messages)
    else AppliedOf(cfg.strategy, messages, cost.value, limit, cfg.estimator)
  }

  /** With an atomic strategy the check of the rounds never fires: what is left is made of whole units. */
  method EvictOptional(cfg: Config, messages: seq<Message>, limit: int) returns (r: Step)
    ensures !r.NotHandled?
    ensures r.Ready? ==> OptionalOf(cfg, messages, limit) == Kept(r.messages)
    ensures ValidComplete(messages) ==>
              var left := OptionalOf(cfg, messages, limit);
              && (r.Ready? <==> left.Kept? && ValidComplete(left.messages))
              && (r == Stopped(InvalidRound) <==> left.Kept? && !ValidComplete(left.messages))
    ensures Atomic(cfg.strategy) && ValidComplete(messages) ==>
              && r != Stopped(InvalidRound) && (r.Ready? ==> WholeUnits(messages, r.messages))
              && (r.Ready? && cfg.strategy.DropHead? ==> IsSuffix(r.messages, messages))
              && (r.Ready? && cfg.strategy.DropTail? ==> r.messages <= messages)
    ensures r.Ready? && !cfg.strategy.Host? ==> WithinLimit(cfg.estimator, messages, r.messages, limit)
  {
    var cost := Cost(cfg.estimator, messages);
    if cost.None? {
      return Stopped(EstimateFailed);
    }
    if cost.value <= limit {
      if ValidComplete(messages) {
        WholeAndNothing(messages);
        assert messages[0..] == messages;
      }
      return Ready(messages);
    }
    var applied := ApplyStrategy(cfg.strategy, messages, cost.value, limit, cfg.estimator);
    if !applied.Kept? {
      return Stopped(StrategyFailed);
    }
    if Atomic(cfg.strategy) && ValidComplete(messages) {
      AtomicStrategyKeepsRounds(cfg.strategy, messages, cost.value, limit, cfg.estimator);
    }
    if !cfg.strategy.Host? {
      StrategyFits(cfg.strategy, messages, cost.value, limit, cfg.estimator);
    }
    var ok := ValidateEvictableRounds(applied.messages);
    if !ok {
      return Stopped(InvalidRound);
    }
    r := Ready(applied.messages);
  }

  predicate NamedOptional(before: seq<Message>, selected: seq<bool>)
    requires |selected| == |before|
  {
    forall i :: 0 <= i < |before| && !selected[i] ==> before[i].id != Anonymous
  }

  /** Whole units left of the optional messages, all of them named, merge into a valid history. */
  lemma {:induction false} UnitsMergeValid(before: seq<Message>, selected: seq<bool>, output: seq<Message>)
    requires Evictable(before, selected) && UniqueIds(before) && NamedOptional(before, selected)
    requires WholeUnits(Keep(before, Not(selected)), output)
    ensures MergeOf(before, selected, output, false).Merged? && Valid(MergeOf(before, selected, output, false).messages)
  {
    var chosen := UnitsAreChoice(before, selected, output);
    NamedChoiceIsRestored(before, selected, chosen);
  }

  /** Whole units left of the optional messages are a choice of whole units of the history. */
  lemma {:induction false} UnitsAreChoice(before: seq<Message>, selected: seq<bool>, output: seq<Message>)
    returns (chosen: seq<bool>)
    requires Evictable(before, selected) && WholeUnits(Keep(before, Not(selected)), output)
    ensures |chosen| == |before| && Choice(selected, chosen) && Uniform(Split(before), chosen)
    ensures Same(output, Keep(before, chosen))
  {
    var h, others := Split(before), Not(selected);
    ValidIsLayout(before);
    DroppingUnitsKeepsRounds(before, others);
    KeepFlatten(h, others);
    var again :| UnitSelection(Keep(before, others), output, again);
    chosen := LiftMarks(h, others, again);
  }

  method MergeAndAdmit(cfg: Config, before: seq<Message>, selected: seq<bool>, output: seq<Message>, cell: DecisionCell,
                       ghost from: nat)
    returns (r: Step, ghost kept: seq<bool>, ghost front: seq<Message>)
    requires Splittable(before, selected, from) && FirstOptional(selected) < |selected|
    modifies cell
    ensures !r.NotHandled? && Handed(cfg, before, selected, from, cell.d, r, kept, front)
    ensures var merged := MergeOf(before, selected, output, old(cell.d.compacted));
            && (r.Ready? <==> merged.Merged? && Admissible(cfg.estimator, merged.messages, old(cell.d.hardLimit)))
            && (r.Ready? ==> r.messages == merged.messages)
            && (r == Stopped(InvalidRound) <==> merged.Merged? && !Valid(merged.messages))
    ensures cell.d == old(cell.d).(afterTokens := cell.d.afterTokens)
  {
    kept, front := [], [];
    var merged := MergeRequired(before, selected, output, cell.d.compacted);
    if !merged.Merged? {
      return Stopped(InvalidRetention), kept, front;
    }
    kept, front := MergeKeepsRequired(before, selected, output, cell.d.compacted, from);
    r := Admit(cfg.estimator, merged.messages, cell);
  }

  /** A recorded summary request fits the decision it belongs to. */
  predicate SummaryFits(d: BudgetDecision, purpose: Descriptor) {
    && d.compacted == d.summary.Some?
    && (d.summary.Some? ==>
          && 0 <= d.summary.value.targetTokens <= d.summary.value.maxTokens <= d.hardLimit
          && d.summary.value.targetTokens <= d.targetTokens && d.summary.value.purpose == purpose)
  }

  /** Only these fields may differ from the decision the run started with. */
  predicate Extends(d: BudgetDecision, start: BudgetDecision) {
    d == start.(afterTokens := d.afterTokens, summary := d.summary, compacted := d.compacted)
  }

  function Reserved(cfg: Config, required: seq<Message>): Option<nat> {
    if |required| == 0 then Some(0) else Cost(cfg.estimator, required)
  }

  /** Without a summarizer and by weight, the output is the merge of what the strategy leaves. */
  ghost predicate PlainEviction(cfg: Config, before: seq<Message>, selected: seq<bool>, limit: int, out: seq<Message>)
    requires |selected| == |before|
  {
    var reserved := Reserved(cfg, Keep(before, selected));
    if |Keep(before, Not(selected))| == 0 then out == before
    else reserved.Some? && LeftMerged(cfg, before, selected, limit - reserved.value, out)
  }

  /** `out` is the merge of what is left of the optional messages within `limit`. */
  ghost predicate LeftMerged(cfg: Config, before: seq<Message>, selected: seq<bool>, limit: int, out: seq<Message>)
    requires |selected| == |before|
  {
    var left := OptionalOf(cfg, Keep(before, Not(selected)), limit);
    left.Kept? && MergeOf(before, selected, left.messages, false) == Merged(out)
  }

  /** Eviction fails on its own rounds: what the strategy leaves, or its merge with the required messages, is torn. */
  ghost predicate Tears(cfg: Config, before: seq<Message>, selected: seq<bool>, limit: int)
    requires |selected| == |before|
  {
    var reserved := Reserved(cfg, Keep(before, selected));
    && |Keep(before, Not(selected))| > 0 && reserved.Some? && reserved.value <= limit
    && LeavesTorn(cfg, before, selected, limit - reserved.value)
  }

  ghost predicate LeavesTorn(cfg: Config, before: seq<Message>, selected: seq<bool>, limit: int)
    requires |selected| == |before|
  {
    var left := OptionalOf(cfg, Keep(before, Not(selected)), limit);
    left.Kept? && (ValidComplete(left.messages) ==> MergesTorn(before, selected, left.messages))
  }

  predicate MergesTorn(before: seq<Message>, selected: seq<bool>, output: seq<Message>)
    requires |selected| == |before|
  {
    var merged := MergeOf(before, selected, output, false);
    merged.Merged? && !Valid(merged.messages)
  }

  /** With an atomic strategy the choice itself is sound: the run tears rounds exactly when the earliest copies of the
      chosen messages, with the required ones, are not a valid history. Then the merge changes their order, and its
      marks cut through a round. */
  lemma {:induction false} AtomicTearsIff(cfg: Config, before: seq<Message>, selected: seq<bool>, limit: int)
    returns (chosen: seq<bool>)
    requires Evictable(before, selected) && UniqueIds(before) && Atomic(cfg.strategy)
    requires OptionalOf(cfg, Keep(before, Not(selected)), limit).Kept?
    ensures |chosen| == |before| && Choice(selected, chosen) && Uniform(Split(before), chosen)
    ensures OptionalOf(cfg, Keep(before, Not(selected)), limit) == Kept(Keep(before, chosen))
    ensures var landed := MergeMarks(before, selected, Keep(before, chosen));
            && (LeavesTorn(cfg, before, selected, limit) <==> true in selected && !Valid(Keep(before, landed)))
            && (LeavesTorn(cfg, before, selected, limit) ==>
                  !OrderKept(before, Either(selected, chosen), landed) && !Uniform(Split(before), landed))
  {
    var evictable := Keep(before, Not(selected));
    var left := OptionalOf(cfg, evictable, limit).messages;
    OptionalIsComplete(before, selected);
    LeftIsWhole(cfg, evictable, limit);
    chosen := UnitsAreChoice(before, selected, left);
    var landed := MergeMarks(before, selected, left);
    MergeYieldsChoiceIff(before, selected, chosen);
    MergeOfChoice(before, selected, chosen);
    if Uniform(Split(before), landed) {
      DroppingUnitsKeepsRounds(before, landed);
    }
  }

  /** What an atomic strategy leaves of complete rounds is whole units, and complete. */
  lemma {:induction false} LeftIsWhole(cfg: Config, messages: seq<Message>, limit: int)
    requires ValidComplete(messages) && Atomic(cfg.strategy) && OptionalOf(cfg, messages, limit).Kept?
    ensures WholeUnits(messages, OptionalOf(cfg, messages, limit).messages)
            && ValidComplete(OptionalOf(cfg, messages, limit).messages)
  {
    var cost := Cost(cfg.estimator, messages).value;
    if cost <= limit {
      WholeAndNothing(messages);
    } else {
      AtomicStrategyKeepsRounds(cfg.strategy, messages, cost, limit, cfg.estimator);
    }
  }

  method ExecuteOverflow(cfg: Config, before: seq<Message>, selected: seq<bool>, cell: DecisionCell, ghost from: nat)
    returns (r: Step, ghost kept: seq<bool>, ghost front: seq<Message>)
    requires Splittable(before, selected, from)
    requires 0 <= cell.d.targetTokens <= cell.d.hardLimit && !cell.d.compacted && cell.d.summary.None?
    requires Cost(cfg.estimator, before) == Some(cell.d.beforeTokens)
    modifies cell
    ensures !r.NotHandled? && Handed(cfg, before, selected, from, cell.d, r, kept, front)
    ensures Extends(cell.d, old(cell.d)) && (r.Ready? ==> SummaryFits(cell.d, SummaryPurpose(cfg)))
    ensures cfg.summarizer.None? && Atomic(cfg.strategy) && NamedOptional(before, selected) ==>
              r != Stopped(InvalidRound)
    ensures cfg.summarizer.None? && !ByWeight(cfg, before, selected) ==>
              EvictionHandled(cfg, before, selected, old(cell.d.hardLimit), r)
    ensures cfg.summarizer.None? && ByWeight(cfg, before, selected) ==>
              && (r.Ready? ==> PlainEviction(cfg, before, selected, old(cell.d.hardLimit), r.messages))
              && (r == Stopped(InvalidRound) <==> Tears(cfg, before, selected, old(cell.d.hardLimit)))
  {
    var required, evictable := SplitRequired(before, selected);
    r, kept, front := TryCompleteEviction(cfg, before, selected, |required| > 0, cell, from);
    if r.NotHandled? {
      r, kept, front := EvictWithReserve(cfg, before, selected, required, evictable, cell, from);
    }
  }

  /** The general path: reserve the required cost, then shrink the rest into what remains. */
  method EvictWithReserve(cfg: Config, before: seq<Message>, selected: seq<bool>, required: seq<Message>,
                          evictable: seq<Message>, cell: DecisionCell, ghost from: nat)
    returns (r: Step, ghost kept: seq<bool>, ghost front: seq<Message>)
    requires Splittable(before, selected, from)
    requires required == Keep(before, selected) && evictable == Keep(before, Not(selected))
    requires 0 <= cell.d.targetTokens <= cell.d.hardLimit && !cell.d.compacted && cell.d.summary.None?
    requires Cost(cfg.estimator, before) == Some(cell.d.beforeTokens)
    modifies cell
    ensures !r.NotHandled? && Handed(cfg, before, selected, from, cell.d, r, kept, front)
    ensures Extends(cell.d, old(cell.d)) && (r.Ready? ==> SummaryFits(cell.d, SummaryPurpose(cfg)))
    ensures cfg.summarizer.None? && Atomic(cfg.strategy) && NamedOptional(before, selected) ==>
              r != Stopped(InvalidRound)
    ensures cfg.summarizer.None? ==>
              && (r.Ready? ==> PlainEviction(cfg, before, selected, old(cell.d.hardLimit), r.messages))
              && (r == Stopped(InvalidRound) <==> Tears(cfg, before, selected, old(cell.d.hardLimit)))
  {
    kept, front := [], [];
    var cost := Reserved(cfg, required);
    if cost.None? {
      return Stopped(EstimateFailed), kept, front;
    }
    var reserved := cost.value;
    if reserved > cell.d.hardLimit {
      return Stopped(RequiredExceedsBudget), kept, front;
    }
    ghost var limit := cell.d.hardLimit;
    r, kept, front := ShrinkOptional(cfg, before, selected, evictable, reserved, cell, from);
    ReserveDecides(cfg, before, selected, limit, reserved, if r.Ready? then r.messages else []);
  }

  /** With the required cost in reserve, what is left decides. */
  lemma {:induction false} ReserveDecides(cfg: Config, before: seq<Message>, selected: seq<bool>, limit: int,
                                          reserved: nat, out: seq<Message>)
    requires |selected| == |before| && Reserved(cfg, Keep(before, selected)) == Some(reserved) && reserved <= limit
    ensures Same(PlainEviction(cfg, before, selected, limit, out),
                 if |Keep(before, Not(selected))| == 0 then out == before
                 else LeftMerged(cfg, before, selected, limit - reserved, out))
    ensures Same(Tears(cfg, before, selected, limit),
                 |Keep(before, Not(selected))| > 0 && LeavesTorn(cfg, before, selected, limit - reserved))
  {
  }

  method ShrinkOptional(cfg: Config, before: seq<Message>, selected: seq<bool>, evictable: seq<Message>, reserved: nat,
                        cell: DecisionCell, ghost from: nat)
    returns (r: Step, ghost kept: seq<bool>, ghost front: seq<Message>)
    requires Splittable(before, selected, from) && evictable == Keep(before, Not(selected))
    requires 0 <= cell.d.targetTokens <= cell.d.hardLimit && !cell.d.compacted && cell.d.summary.None?
    requires Cost(cfg.estimator, before) == Some(cell.d.beforeTokens) && reserved <= cell.d.hardLimit
    modifies cell
    ensures !r.NotHandled? && Handed(cfg, before, selected, from, cell.d, r, kept, front)
    ensures Extends(cell.d, old(cell.d)) && (r.Ready? ==> SummaryFits(cell.d, SummaryPurpose(cfg)))
    ensures cfg.summarizer.None? && Atomic(cfg.strategy) && NamedOptional(before, selected) ==>
              r != Stopped(InvalidRound)
    ensures cfg.summarizer.None? && |evictable| > 0 ==>
              && (r.Ready? ==> LeftMerged(cfg, before, selected, old(cell.d.hardLimit) - reserved, r.messages))
              && (r == Stopped(InvalidRound) <==> LeavesTorn(cfg, before, selected, old(cell.d.hardLimit) - reserved))
    ensures |evictable| == 0 ==> r != Stopped(InvalidRound) && (r.Ready? ==> r.messages == before)
  {
    if |evictable| == 0 {
      r, kept, front := KeepAll(cfg, before, selected, cell, from);
    } else {
      SomethingOptional(before, selected);
      if cfg.summarizer.Some? {
        r, kept, front := SummarizeAndMerge(cfg, before, selected, evictable, reserved, cell, from);
      } else {
        r, kept, front := EvictAndMerge(cfg, before, selected, evictable, reserved, cell, from);
      }
    }
  }

  /** Nothing is optional: the history stays as it is if it fits. */
  method KeepAll(cfg: Config, before: seq<Message>, selected: seq<bool>, cell: DecisionCell, ghost from: nat)
    returns (r: Step, ghost kept: seq<bool>, ghost front: seq<Message>)
    requires Splittable(before, selected, from) && Cost(cfg.estimator, before) == Some(cell.d.beforeTokens)
    modifies cell
    ensures !r.NotHandled? && r != Stopped(InvalidRound) && Handed(cfg, before, selected, from, cell.d, r, kept, front)
    ensures cell.d == old(cell.d).(afterTokens := cell.d.afterTokens) && (r.Ready? ==> r.messages == before)
  {
    kept, front := [], [];
    cell.d := cell.d.(afterTokens := cell.d.beforeTokens);
    if cell.d.afterTokens > cell.d.hardLimit {
      return Stopped(RequiredExceedsBudget), kept, front;
    }
    WholeKeeps(before, selected, from);
    return Ready(before), selected, before[..from];
  }

  method SummarizeAndMerge(cfg: Config, before: seq<Message>, selected: seq<bool>, evictable: seq<Message>,
                           reserved: nat, cell: DecisionCell, ghost from: nat)
    returns (r: Step, ghost kept: seq<bool>, ghost front: seq<Message>)
    requires Splittable(before, selected, from) && FirstOptional(selected) < |selected| && cfg.summarizer.Some?
    requires 0 <= cell.d.targetTokens <= cell.d.hardLimit && reserved <= cell.d.hardLimit
    modifies cell
    ensures !r.NotHandled? && Handed(cfg, before, selected, from, cell.d, r, kept, front)
    ensures Extends(cell.d, old(cell.d)) && (r.Ready? ==> SummaryFits(cell.d, SummaryPurpose(cfg)))
  {
    kept, front := [], [];
    var maxTokens := cell.d.hardLimit - reserved;
    var targetTokens := if cell.d.targetTokens - reserved > 0 then cell.d.targetTokens - reserved else 0;
    var output := SummarizeOptional(cfg, before, evictable, maxTokens, targetTokens, cell);
    if !output.Ready? {
      return output, kept, front;
    }
    r, kept, front := MergeAndAdmit(cfg, before, selected, output.messages, cell, from);
  }

  /** The optional messages an eviction may take are whole complete rounds. */
  lemma {:induction false} OptionalIsComplete(before: seq<Message>, selected: seq<bool>)
    requires Evictable(before, selected)
    ensures ValidComplete(Keep(before, Not(selected)))
  {
    DroppingUnitsKeepsRounds(before, Not(selected));
  }

  method EvictAndMerge(cfg: Config, before: seq<Message>, selected: seq<bool>, evictable: seq<Message>, reserved: nat,
                       cell: DecisionCell, ghost from: nat)
    returns (r: Step, ghost kept: seq<bool>, ghost front: seq<Message>)
    requires Splittable(before, selected, from) && FirstOptional(selected) < |selected|
    requires evictable == Keep(before, Not(selected)) && !cell.d.compacted
    modifies cell
    ensures !r.NotHandled? && Handed(cfg, before, selected, from, cell.d, r, kept, front)
    ensures cell.d == old(cell.d).(afterTokens := cell.d.afterTokens)
    ensures Atomic(cfg.strategy) && NamedOptional(before, selected) ==> r != Stopped(InvalidRound)
    ensures r.Ready? ==> LeftMerged(cfg, before, selected, old(cell.d.hardLimit) - reserved, r.messages)
    ensures r == Stopped(InvalidRound) <==> LeavesTorn(cfg, before, selected, old(cell.d.hardLimit) - reserved)
  {
    kept, front := [], [];
    OptionalIsComplete(before, selected);
    var output := EvictOptional(cfg, evictable, cell.d.hardLimit - reserved);
    if !output.Ready? {
      return output, kept, front;
    }
    if Atomic(cfg.strategy) && NamedOptional(before, selected) {
      UnitsMergeValid(before, selected, output.messages);
    }
    r, kept, front := MergeAndAdmit(cfg, before, selected, output.messages, cell, from);
  }
}
