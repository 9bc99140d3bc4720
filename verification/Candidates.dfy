/** Eviction measured on the complete candidate (budget_candidate.go). */
module Candidates {
  import opened Results
  import opened Sequences
  import opened Messages
  import opened Rounds
  import opened Layouts
  import opened ToolTurns
  import opened Plans

  /** A deterministic estimator; failure is `None`. `additive` marks the built-in ones whose total is the
      sum of their per-message weights. */
  datatype Estimator = Estimator(
    total: seq<Message> -> Option<int>, perMessage: seq<Message> -> Option<seq<int>>, additive: bool)

  /** `estimateBudgetMessages`: a negative estimate is refused. */
  function Cost(est: Estimator, messages: seq<Message>): Option<nat> {
    var tokens := est.total(messages);
    if tokens.None? || tokens.value < 0 then None else Some(tokens.value)
  }

  datatype HostOutcome = Output(messages: seq<Message>) | HostFailure

  /** The built-in eviction strategies, and a strategy supplied by the host. */
  datatype Strategy =
    | DropHead(minimum: int, atomic: bool)
    | DropTail
    | Drop
    | Strict
    | Host(apply: (seq<Message>, int, int) -> HostOutcome)

  datatype Eviction = NotBuiltIn | Evicted(messages: seq<Message>) | Exhausted | NotMeasured | Refused

  // ---------------------------------------------------------------- index helpers

  /** The first, or last, index that is not required; -1 if there is none. */
  predicate Finds(required: seq<bool>, tail: bool, index: int) {
    && -1 <= index < |required|
    && (index == -1 <==> forall i :: 0 <= i < |required| ==> required[i])
    && (index >= 0 ==> !required[index])
    && (index >= 0 && tail ==> forall i :: index < i < |required| ==> required[i])
    && (index >= 0 && !tail ==> forall i :: 0 <= i < index ==> required[i])
  }

  method FirstOptionalIndex(required: seq<bool>, tail: bool) returns (index: int)
    ensures Finds(required, tail, index)
  {
    if tail {
      for i := |required| downto 0
        invariant forall k :: i <= k < |required| ==> required[k]
      {
        if !required[i] {
          return i;
        }
      }
    }
    for i := 0 to |required|
      invariant forall k :: 0 <= k < i ==> required[k]
    {
      if !required[i] {
        return i;
      }
    }
    index := -1;
  }

  method OptionalCount(required: seq<bool>, ghost p: Plan) returns (count: nat)
    requires required == Flags(p)
    ensures count == Optional(p)
  {
    count := 0;
    for i := 0 to |required|
      invariant count == Unset(required[..i])
    {
      UnsetSnoc(required, i);
      if !required[i] {
        count := count + 1;
      }
    }
    assert required[..|required|] == required;
    UnsetFlags(p);
  }

  function Unset(flags: seq<bool>): nat {
    if |flags| == 0 then 0 else (if flags[0] then 0 else 1) + Unset(flags[1..])
  }

  lemma {:induction false} UnsetConcat(a: seq<bool>, b: seq<bool>)
    ensures Unset(a + b) == Unset(a) + Unset(b)
  {
    if |a| == 0 {
      assert a + b == b;
    } else {
      assert (a + b)[1..] == a[1..] + b;
      UnsetConcat(a[1..], b);
    }
  }

  lemma {:induction false} UnsetSnoc(flags: seq<bool>, i: nat)
    requires i < |flags|
    ensures Unset(flags[..i + 1]) == Unset(flags[..i]) + if flags[i] then 0 else 1
  {
    assert flags[..i + 1] == flags[..i] + [flags[i]];
    UnsetConcat(flags[..i], [flags[i]]);
  }

  lemma {:induction false} UnsetRepeat(b: bool, n: nat)
    ensures Unset(Repeat(b, n)) == if b then 0 else n
  {
    if n > 0 {
      assert Repeat(b, n)[1..] == Repeat(b, n - 1);
      UnsetRepeat(b, n - 1);
    }
  }

  lemma {:induction false} UnsetFlags(p: Plan)
    ensures Unset(Flags(p)) == Optional(p)
  {
    if p.Item? {
      UnsetFlags(p.rest);
      UnsetConcat(Repeat(p.required, |p.block|), Flags(p.rest));
      UnsetRepeat(p.required, |p.block|);
    }
  }

  method RemoveBudgetCandidate(messages: seq<Message>, required: seq<bool>, start: int, end: int, all: bool)
    returns (out: seq<Message>, selected: seq<bool>)
    requires |messages| == |required|
    ensures out == Keep(messages, Cut(required, start, end, all))
    ensures selected == Keep(required, Cut(required, start, end, all))
  {
    out, selected := [], [];
    ghost var marks := Cut(required, start, end, all);
    for index := 0 to |messages|
      invariant Same(out, Keep(messages[..index], marks[..index]))
      invariant selected == Keep(required[..index], marks[..index])
    {
      KeepSnoc(messages, marks, index);
      KeepSnoc(required, marks, index);
      CutAt(required, start, end, all, index);
      if !required[index] && (all || (index >= start && index <= end)) {
        assert out + [] == out && selected + [] == selected;
        continue;
      }
      out := out + [messages[index]];
      selected := selected + [required[index]];
    }
    KeepWhole(messages, marks);
    KeepWhole(required, marks);
  }

  datatype Span = Span(start: int, end: int)

  /** The span `budgetCandidateUnit` picks around an optional message. */
  function Picked(messages: seq<Message>, index: nat, tail: bool, atomic: bool): Span
    requires index < |messages|
  {
    var start := if tail && messages[index].role == Tool then TailStart(messages[..index + 1]) else index;
    Span(start, if atomic && messages[start].HasToolCalls() then RoundEnd(messages, start) else index)
  }

  method BudgetCandidateUnit(messages: seq<Message>, index: nat, tail: bool, atomic: bool)
    returns (start: nat, end: nat)
    requires index < |messages|
    ensures Span(start, end) == Picked(messages, index, tail, atomic)
  {
    start, end := index, index;
    if tail && messages[index].role == Tool {
      start := ToolRoundStartForTail(messages[..index + 1]);
    }
    if atomic && messages[start].HasToolCalls() {
      end := ToolRoundEndIndex(messages, start);
    }
  }

  // ---------------------------------------------------------------- the picked span is a block

  lemma {:induction false} RunStartAt(messages: seq<Message>, at: nat, i: nat)
    requires at < i < |messages| && messages[at].role != Tool
    requires forall k :: at < k <= i ==> messages[k].role == Tool
    ensures RunStart(messages, i) == at + 1
  {
    if at + 1 < i {
      RunStartAt(messages, at, i - 1);
    }
  }

  /** Where a complete round stands in a history that goes on with something else, both helpers find it. */
  lemma {:induction false} RoundSpan(messages: seq<Message>, at: nat, block: seq<Message>)
    requires Stands(messages, at, block) && block[0].HasToolCalls()
    ensures RoundEnd(messages, at) == at + |block| - 1
  {
    var end := at + |block|;
    assert forall k :: at <= k < end ==> messages[k] == block[k - at];
    ToolRunExact(messages, at + 1, end);
    assert messages[at + 1..end] == block[1..];
  }

  lemma {:induction false} HeadSpan(messages: seq<Message>, at: nat, block: seq<Message>)
    requires Stands(messages, at, block)
    ensures Picked(messages, at, false, true) == Span(at, at + |block| - 1)
  {
    assert messages[at] == block[0];
    if block[0].HasToolCalls() {
      RoundSpan(messages, at, block);
    }
  }

  lemma {:induction false} StandsInFront(messages: seq<Message>, at: nat, block: seq<Message>)
    requires Stands(messages, at, block)
    ensures Stands(messages[..at + |block|], at, block)
  {
    assert messages[..at + |block|][at..at + |block|] == block;
  }

  lemma {:induction false} TailStartAt(front: seq<Message>, at: nat, block: seq<Message>)
    requires Stands(front, at, block) && at + |block| == |front| && |block| > 1
    ensures TailStart(front) == at
  {
    var last := |front| - 1;
    assert forall k :: at <= k <= last ==> front[k] == block[k - at];
    RunStartAt(front, at, last);
    RoundSpan(front, at, block);
  }

  lemma {:induction false} BlockEnds(messages: seq<Message>, at: nat, block: seq<Message>)
    requires Stands(messages, at, block)
    ensures var last := at + |block| - 1;
            messages[at] == block[0] && messages[last].role == Tool <==> |block| > 1
  {
    var last := at + |block| - 1;
    assert messages[at] == block[0] && messages[last] == block[|block| - 1];
  }

  lemma {:induction false} TailSpan(messages: seq<Message>, at: nat, block: seq<Message>)
    requires Stands(messages, at, block)
    ensures Picked(messages, at + |block| - 1, true, true) == Span(at, at + |block| - 1)
  {
    assert messages[at] == block[0];
    BlockEnds(messages, at, block);
    if block[0].HasToolCalls() {
      RoundSpan(messages, at, block);
    }
    if |block| > 1 {
      StandsInFront(messages, at, block);
      TailStartAt(messages[..at + |block|], at, block);
    }
  }

  /** How one run of the loop drops blocks. */
  datatype Rule = Rule(tail: bool, all: bool, minimum: int, atomic: bool)

  predicate Cuttable(p: Plan, rule: Rule) {
    if rule.atomic then WholeBlocks(p) else SingleBlocks(p) && !rule.tail
  }

  function Last(p: Plan, rule: Rule): nat
    requires Blocks(p) > 0
  {
    if rule.tail then Blocks(p) - 1 else 0
  }

  lemma {:induction false} OptionalIndex(p: Plan, index: int, tail: bool)
    requires Solid(p) && Finds(Flags(p), tail, index)
    ensures index == -1 <==> Blocks(p) == 0
    ensures index >= 0 && !tail ==> index == BlockAt(p, 0)
    ensures index >= 0 && tail ==> index == BlockAt(p, Blocks(p) - 1) + |Block(p, Blocks(p) - 1)| - 1
  {
    if Blocks(p) == 0 {
      AllRequired(p);
    } else {
      var j := if tail then Blocks(p) - 1 else 0;
      var at, n := BlockAt(p, j), |Block(p, j)|;
      BlockFlags(p, j);
      BlockSolid(p, j);
      AfterLastBlock(p);
      assert !Flags(p)[at] && !Flags(p)[at + n - 1];
    }
  }

  lemma {:induction false} BlockSolid(p: Plan, j: nat)
    requires Solid(p) && j < Blocks(p)
    ensures |Block(p, j)| > 0
  {
    if p.required {
      BlockSolid(p.rest, j);
    } else if j > 0 {
      BlockSolid(p.rest, j - 1);
    }
  }

  /** The span picked at the optional index is exactly the first or the last droppable block. */
  lemma {:induction false} SpanIsBlock(p: Plan, rule: Rule, index: nat)
    requires Cuttable(p, rule) && Blocks(p) > 0 && index < |Text(p)|
    requires var j := Last(p, rule);
             index == if rule.tail then BlockAt(p, j) + |Block(p, j)| - 1 else BlockAt(p, j)
    ensures var j := Last(p, rule);
            Picked(Text(p), index, rule.tail, rule.atomic) == Span(BlockAt(p, j), BlockAt(p, j) + |Block(p, j)| - 1)
  {
    if rule.atomic {
      AtomicSpan(p, Last(p, rule), rule.tail);
    } else {
      SingleBlockSpan(p, Last(p, rule));
    }
  }

  lemma {:induction false} SingleBlockSpan(p: Plan, j: nat)
    requires SingleBlocks(p) && j < Blocks(p) && BlockAt(p, j) < |Text(p)|
    ensures |Block(p, j)| == 1 && Picked(Text(p), BlockAt(p, j), false, false) == Span(BlockAt(p, j), BlockAt(p, j))
  {
    BlockSingle(p, j);
    SingleSpan(Text(p), BlockAt(p, j));
  }

  lemma {:induction false} AtomicSpan(p: Plan, j: nat, tail: bool)
    requires WholeBlocks(p) && j < Blocks(p)
    ensures var at, last := BlockAt(p, j), BlockAt(p, j) + |Block(p, j)| - 1;
            at <= last < |Text(p)| && Picked(Text(p), if tail then last else at, tail, true) == Span(at, last)
  {
    var block := StandingBlock(p, j);
    WholeSpan(Text(p), BlockAt(p, j), block, tail);
  }

  lemma SingleSpan(messages: seq<Message>, index: nat)
    requires index < |messages|
    ensures Picked(messages, index, false, false) == Span(index, index)
  {
  }

  ghost predicate Stands(messages: seq<Message>, at: nat, block: seq<Message>) {
    && WholeBlock(block, false) && at + |block| <= |messages|
    && messages[at..at + |block|] == block
    && (at + |block| < |messages| ==> messages[at + |block|].role != Tool)
  }

  lemma {:induction false} StandingBlock(p: Plan, j: nat) returns (block: seq<Message>)
    requires WholeBlocks(p) && j < Blocks(p)
    ensures Same(block, Block(p, j)) && Stands(Text(p), BlockAt(p, j), block)
  {
    block := Block(p, j);
    BlockPlace(p, j);
    BlockShape(p, j);
  }

  lemma {:induction false} WholeSpan(messages: seq<Message>, at: nat, block: seq<Message>, tail: bool)
    requires Stands(messages, at, block)
    ensures Picked(messages, if tail then at + |block| - 1 else at, tail, true) == Span(at, at + |block| - 1)
  {
    if tail {
      TailSpan(messages, at, block);
    } else {
      HeadSpan(messages, at, block);
    }
  }

  // ---------------------------------------------------------------- the candidates in order

  function Dropped(plan: Plan, rule: Rule, k: nat): Plan
    requires k <= Blocks(plan)
  {
    if rule.all && k > 0 then RequiredOnly(plan)
    else if rule.tail then KeepFirst(plan, Blocks(plan) - k)
    else DropFirst(plan, k)
  }

  /** Candidate number `k`: the first, or last, `k` droppable blocks are gone; if that leaves fewer optional
      messages than the minimum, all of them are. */
  function Candidate(plan: Plan, rule: Rule, k: nat): Plan
    requires k <= Blocks(plan)
  {
    var d := Dropped(plan, rule, k);
    if k > 0 && rule.minimum > 0 && Optional(d) < rule.minimum then RequiredOnly(plan) else d
  }

  lemma {:induction false} DroppedNone(plan: Plan, rule: Rule)
    ensures Candidate(plan, rule, 0) == plan
  {
    KeepEveryBlock(plan);
    DropNone(plan);
  }

  lemma {:induction false} DroppedStep(plan: Plan, rule: Rule, k: nat)
    requires k < Blocks(plan) && (rule.all ==> k == 0)
    ensures Blocks(Dropped(plan, rule, k)) == Blocks(plan) - k
    ensures !rule.all ==>
              Dropped(plan, rule, k + 1) == Without(Dropped(plan, rule, k), Last(Dropped(plan, rule, k), rule))
  {
    if rule.tail {
      KeepFirstStep(plan, Blocks(plan) - k);
    } else {
      DropFirstStep(plan, k);
    }
  }

  lemma {:induction false} CandidateFewer(plan: Plan, rule: Rule, k: nat)
    requires k <= Blocks(plan)
    ensures Fewer(Candidate(plan, rule, k), plan)
    ensures Cuttable(plan, rule) ==> Cuttable(Candidate(plan, rule, k), rule) && Solid(Candidate(plan, rule, k))
  {
    var c := Candidate(plan, rule, k);
    KeepFirstFewer(plan, 0);
    KeepFirstFewer(plan, Blocks(plan) - k);
    DropFirstFewer(plan, k);
    FewerBlocks(c, plan);
    WholeIsSolid(c);
  }

  /** While a candidate still has something optional, the next one drops exactly one more block. */
  lemma {:induction false} CandidateStep(plan: Plan, rule: Rule, k: nat)
    requires k <= Blocks(plan) && Solid(plan) && Blocks(Candidate(plan, rule, k)) > 0
    ensures k < Blocks(plan) && Candidate(plan, rule, k) == Dropped(plan, rule, k) && (rule.all ==> k == 0)
  {
    KeepNothing(plan);
    if k == Blocks(plan) {
      DropEveryBlock(plan);
    }
  }

  lemma {:induction false} DropEveryBlock(p: Plan)
    ensures Blocks(DropFirst(p, Blocks(p))) == 0
  {
    if p.Item? {
      DropEveryBlock(p.rest);
    }
  }

  lemma {:induction false} RequiredOnlyTwice(plan: Plan, q: Plan)
    requires Fewer(q, plan)
    ensures RequiredOnly(q) == RequiredOnly(plan)
    decreases plan
  {
    if plan.Item? {
      if !plan.required && Fewer(q, plan.rest) {
        RequiredOnlyTwice(plan.rest, q);
      } else {
        RequiredOnlyTwice(plan.rest, q.rest);
      }
    }
  }

  predicate TooLarge(est: Estimator, limit: int, c: Plan) {
    Cost(est, Text(c)).Some? && Cost(est, Text(c)).value > limit
  }

  predicate AllTooLarge(plan: Plan, rule: Rule, est: Estimator, limit: int, k: nat)
    requires k <= Blocks(plan)
  {
    forall j :: 1 <= j <= k ==> TooLarge(est, limit, Candidate(plan, rule, j))
  }

  /** Candidate `k` is the first one that fits. */
  predicate FirstFit(plan: Plan, rule: Rule, est: Estimator, limit: int, k: nat) {
    && 1 <= k <= Blocks(plan) && AllTooLarge(plan, rule, est, limit, k - 1)
    && Cost(est, Text(Candidate(plan, rule, k))).Some? && !TooLarge(est, limit, Candidate(plan, rule, k))
  }

  /** Every candidate up to `k` is too large, and candidate `k` has nothing optional left. */
  predicate NothingFits(plan: Plan, rule: Rule, est: Estimator, limit: int, k: nat) {
    k <= Blocks(plan) && AllTooLarge(plan, rule, est, limit, k) && Optional(Candidate(plan, rule, k)) == 0
  }

  predicate FailsAt(plan: Plan, rule: Rule, est: Estimator, limit: int, k: nat) {
    && 1 <= k <= Blocks(plan) && AllTooLarge(plan, rule, est, limit, k - 1)
    && Cost(est, Text(Candidate(plan, rule, k))).None?
  }

  ghost predicate Outcome(plan: Plan, rule: Rule, est: Estimator, limit: int, r: Eviction) {
    match r
    case Evicted(out) => exists k: nat :: FirstFit(plan, rule, est, limit, k)
                                          && Same(out, Text(Candidate(plan, rule, k)))
    case Exhausted => exists k: nat :: NothingFits(plan, rule, est, limit, k)
    case NotMeasured => exists k: nat :: FailsAt(plan, rule, est, limit, k)
    case NotBuiltIn => false
    case Refused => false
  }

  function RuleOf(strategy: Strategy): Rule {
    match strategy
    case DropHead(minimum, atomic) => Rule(false, false, minimum, atomic)
    case DropTail => Rule(true, false, 0, true)
    case _ => Rule(false, true, 0, true)
  }

  /** What the caller of the eviction loop has established. */
  ghost predicate Evictable(before: seq<Message>, required: seq<bool>) {
    && Valid(before) && |required| == |before|
    && Uniform(Split(before), required) && Uniform(Split(before), Not(required))
    && KeptComplete(Split(before), Not(required))
  }

  ghost function PlanFor(rule: Rule, before: seq<Message>, required: seq<bool>): Plan
    requires Evictable(before, required)
  {
    if rule.atomic then UnitPlan(Split(before), required) else SinglePlan(before, required)
  }

  lemma {:induction false} PlanReady(rule: Rule, before: seq<Message>, required: seq<bool>)
    requires Evictable(before, required) && (rule.atomic || !rule.tail)
    ensures var plan := PlanFor(rule, before, required);
            Cuttable(plan, rule) && Solid(plan) && Same(Text(plan), before) && Same(Flags(plan), required)
  {
    var plan := PlanFor(rule, before, required);
    ValidIsLayout(before);
    if rule.atomic {
      UnitPlanText(Split(before), required);
      UnitPlanWhole(Split(before), required, {});
    } else {
      SinglePlanText(before, required);
    }
    WholeIsSolid(plan);
  }

  /** What one removal leaves. */
  ghost function Removed(c: Plan, rule: Rule): Plan
    requires Blocks(c) > 0
  {
    if rule.all then RequiredOnly(c) else Without(c, Last(c, rule))
  }

  lemma {:induction false} RemovedIsDropped(plan: Plan, rule: Rule, k: nat)
    requires k <= Blocks(plan) && Solid(plan) && Blocks(Candidate(plan, rule, k)) > 0
    ensures k < Blocks(plan) && Removed(Candidate(plan, rule, k), rule) == Dropped(plan, rule, k + 1)
    ensures RequiredOnly(Dropped(plan, rule, k + 1)) == RequiredOnly(plan)
  {
    CandidateStep(plan, rule, k);
    CandidateFewer(plan, rule, k);
    RequiredOnlyTwice(plan, Candidate(plan, rule, k));
    DroppedStep(plan, rule, k);
    KeepFirstFewer(plan, 0);
    KeepFirstFewer(plan, Blocks(plan) - k - 1);
    DropFirstFewer(plan, k + 1);
    RequiredOnlyTwice(plan, Dropped(plan, rule, k + 1));
  }

  ghost predicate Shows(cur: seq<Message>, selected: seq<bool>, c: Plan) {
    Same(cur, Text(c)) && Same(selected, Flags(c))
  }

  method RemoveNext(cur: seq<Message>, selected: seq<bool>, index: nat, rule: Rule, ghost c: Plan)
    returns (out: seq<Message>, rest: seq<bool>)
    requires Shows(cur, selected, c) && Cuttable(c, rule) && Blocks(c) > 0 && index < |cur|
    requires var j := Last(c, rule);
             index == if rule.tail then BlockAt(c, j) + |Block(c, j)| - 1 else BlockAt(c, j)
    ensures Shows(out, rest, Removed(c, rule))
  {
    SpanIsBlock(c, rule, index);
    var start, end := BudgetCandidateUnit(cur, index, rule.tail, rule.atomic);
    out, rest := RemoveBudgetCandidate(cur, selected, start, end, rule.all);
    if rule.all {
      CutAll(c, start, end);
    } else {
      CutBlock(c, Last(c, rule));
    }
  }

  method EnforceMinimum(cur: seq<Message>, selected: seq<bool>, minimum: int, ghost c: Plan)
    returns (out: seq<Message>, rest: seq<bool>)
    requires Shows(cur, selected, c)
    ensures Shows(out, rest, if minimum > 0 && Optional(c) < minimum then RequiredOnly(c) else c)
  {
    out, rest := cur, selected;
    var count := OptionalCount(selected, c);
    if minimum > 0 && count < minimum {
      CutAll(c, 0, |cur| - 1);
      out, rest := RemoveBudgetCandidate(cur, selected, 0, |cur| - 1, true);
    }
  }

  /** One pass of the loop: the next candidate, or nothing when no optional message is left. */
  method NextCandidate(cur: seq<Message>, selected: seq<bool>, rule: Rule, ghost plan: Plan, ghost k: nat)
    returns (more: bool, out: seq<Message>, rest: seq<bool>)
    requires Cuttable(plan, rule) && Solid(plan) && k <= Blocks(plan) && Shows(cur, selected, Candidate(plan, rule, k))
    ensures !more ==> Optional(Candidate(plan, rule, k)) == 0
    ensures more ==> k < Blocks(plan) && Shows(out, rest, Candidate(plan, rule, k + 1))
  {
    ghost var c := Candidate(plan, rule, k);
    CandidateFewer(plan, rule, k);
    var index := FirstOptionalIndex(selected, rule.tail);
    OptionalIndex(c, index, rule.tail);
    if index < 0 {
      NoBlocksLeft(c);
      return false, [], [];
    }
    RemovedIsDropped(plan, rule, k);
    more := true;
    out, rest := RemoveNext(cur, selected, index, rule, c);
    out, rest := EnforceMinimum(out, rest, rule.minimum, Removed(c, rule));
  }

  method EvictUntilFit(before: seq<Message>, required: seq<bool>, rule: Rule, limit: int, est: Estimator,
                       ghost plan: Plan)
    returns (r: Eviction)
    requires Cuttable(plan, rule) && Solid(plan) && Shows(before, required, plan)
    ensures Outcome(plan, rule, est, limit, r)
  {
    var cur, selected := before, required;
    ghost var k := 0;
    DroppedNone(plan, rule);
    while true
      invariant k <= Blocks(plan) && AllTooLarge(plan, rule, est, limit, k)
      invariant Shows(cur, selected, Candidate(plan, rule, k))
      decreases Blocks(plan) - k
    {
      var more, out, rest := NextCandidate(cur, selected, rule, plan, k);
      if !more {
        assert NothingFits(plan, rule, est, limit, k);
        return Exhausted;
      }
      cur, selected, k := out, rest, k + 1;
      var cost := Cost(est, cur);
      if cost.None? {
        assert FailsAt(plan, rule, est, limit, k);
        return NotMeasured;
      }
      if cost.value <= limit {
        assert FirstFit(plan, rule, est, limit, k);
        return Evicted(cur);
      }
    }
  }

  method EvictCompleteCandidate(strategy: Strategy, before: seq<Message>, required: seq<bool>, limit: int,
                                est: Estimator)
    returns (r: Eviction)
    requires Evictable(before, required)
    ensures strategy.Host? ==> r == NotBuiltIn
    ensures strategy.Strict? ==> r == Refused
    ensures !strategy.Host? && !strategy.Strict? ==>
              Outcome(PlanFor(RuleOf(strategy), before, required), RuleOf(strategy), est, limit, r)
  {
    if strategy.Host? {
      return NotBuiltIn;
    }
    if strategy.Strict? {
      return Refused;
    }
    var rule := RuleOf(strategy);
    PlanReady(rule, before, required);
    r := EvictUntilFit(before, required, rule, limit, est, PlanFor(rule, before, required));
  }

  // ---------------------------------------------------------------- what every candidate keeps

  /** Whatever candidate is reached: it keeps every required message in order, it has no optional message or
      at least the minimum, and it is reached within as many steps as there are optional messages. With
      atomicity it is made of whole units, so its rounds are intact. */
  lemma {:induction false} CandidatesAreSound(before: seq<Message>, required: seq<bool>, rule: Rule, k: nat)
    returns (marks: seq<bool>)
    requires Evictable(before, required) && (rule.atomic || !rule.tail)
    requires 1 <= k <= Blocks(PlanFor(rule, before, required))
    ensures var plan := PlanFor(rule, before, required);
            var out := Text(Candidate(plan, rule, k));
            && |marks| == |before| && out == Keep(before, marks)
            && (forall i :: 0 <= i < |before| && required[i] ==> marks[i])
            && (Optional(Candidate(plan, rule, k)) == 0 || rule.minimum <= Optional(Candidate(plan, rule, k)))
            && k <= Optional(plan)
            && (rule.atomic ==> Uniform(Split(before), marks) && Valid(out))
  {
    var plan := PlanFor(rule, before, required);
    PlanReady(rule, before, required);
    CandidateFewer(plan, rule, k);
    KeepNothing(plan);
    NoBlocksLeft(plan);
    ValidIsLayout(before);
    if rule.atomic {
      marks := FewerUnits(Split(before), required, Candidate(plan, rule, k));
      DroppingUnitsKeepsRounds(before, marks);
    } else {
      marks := FewerMessages(before, required, Candidate(plan, rule, k));
    }
  }
}
