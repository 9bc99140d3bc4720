/** Limits, thresholds and the recorded budget decision (budget_request.go, budget_policy.go, manifest.go). */
module Budgets {
  import opened Results
  import opened Messages

  /** The largest Go `int`. */
  const MAX_INT := 0x7FFF_FFFF_FFFF_FFFF

  // ---------------------------------------------------------------- the input limit

  datatype BudgetMode = Window | Effective | OtherMode(name: string)

  datatype BudgetRequest = BudgetRequest(
    mode: BudgetMode, window: int, outputReservation: int, wireReservation: int, effectiveLimit: int)

  /** `Resolve`: what is left of the window, or the effective limit as given. */
  function Resolve(b: BudgetRequest): (limit: Option<int>)
    ensures limit.Some? ==> 0 <= limit.value
    ensures limit.Some? && b.mode.Window? ==> limit.value + b.outputReservation + b.wireReservation == b.window
    ensures limit.Some? <==>
            && 0 <= b.window && 0 <= b.outputReservation && 0 <= b.wireReservation && 0 <= b.effectiveLimit
            && match b.mode
               case Effective => b.window == b.outputReservation == b.wireReservation == 0
               case Window => b.effectiveLimit == 0 && b.outputReservation + b.wireReservation <= b.window
               case OtherMode(_) => false
  {
    if b.window < 0 || b.outputReservation < 0 || b.wireReservation < 0 || b.effectiveLimit < 0 then None
    else match b.mode
      case Effective =>
        if b.window != 0 || b.outputReservation != 0 || b.wireReservation != 0 then None else Some(b.effectiveLimit)
      case Window =>
        if b.effectiveLimit != 0 || b.outputReservation > b.window || b.wireReservation > b.window - b.outputReservation
        then None else Some(b.window - b.outputReservation - b.wireReservation)
      case OtherMode(_) => None
  }

  // ---------------------------------------------------------------- thresholds

  datatype CompactionPolicy = CompactionPolicy(descriptor: Descriptor, triggerPercent: int, targetPercent: int) {
    predicate Valid() {
      descriptor.Valid() && 1 <= targetPercent && triggerPercent <= 100 && targetPercent <= triggerPercent
    }
  }

  function BudgetPercent(limit: int, percent: int): int {
    limit / 100 * percent + limit % 100 * percent / 100
  }

  predicate Machine(n: int) {
    0 <= n <= MAX_INT
  }

  lemma QuotientOfSum(a: int, b: int)
    ensures (100 * a + b) / 100 == a + b / 100
  {
  }

  lemma ScaledDown(x: int, percent: int, whole: int)
    requires 0 <= x && 0 <= percent <= whole
    ensures 0 <= x * percent <= x * whole
  {
  }

  /** The percentage is the exact rounded-down share, and no step of the computation leaves the machine range. */
  lemma {:induction false} BudgetPercentIsFloor(limit: int, percent: int)
    requires 0 <= limit && 0 <= percent <= 100
    ensures BudgetPercent(limit, percent) == limit * percent / 100
    ensures 0 <= limit / 100 * percent <= BudgetPercent(limit, percent) <= limit
    ensures Machine(limit) ==>
              Machine(limit / 100 * percent) && Machine(limit % 100 * percent) && Machine(BudgetPercent(limit, percent))
  {
    var q, r := limit / 100, limit % 100;
    assert limit == 100 * q + r;
    ScaledDown(q, percent, 100);
    ScaledDown(r, percent, 100);
    assert limit * percent == 100 * (q * percent) + r * percent;
    QuotientOfSum(q * percent, r * percent);
  }

  lemma {:induction false} BudgetPercentMonotone(limit: int, low: int, high: int)
    requires 0 <= limit && 0 <= low <= high <= 100
    ensures BudgetPercent(limit, low) <= BudgetPercent(limit, high)
  {
    BudgetPercentIsFloor(limit, low);
    BudgetPercentIsFloor(limit, high);
    ScaledDown(limit, low, high);
  }

  // ---------------------------------------------------------------- decisions

  datatype SummaryBudget = SummaryBudget(maxTokens: int, targetTokens: int, purpose: Descriptor) {
    predicate Valid() {
      0 <= targetTokens <= maxTokens && purpose.Valid()
    }
  }

  datatype BudgetDecision = BudgetDecision(
    hardLimit: int, triggerTokens: int, targetTokens: int, beforeTokens: int, afterTokens: int,
    required: seq<ContentRef>, summary: Option<SummaryBudget>, compacted: bool, targetReached: bool)

  predicate ValidDecision(d: BudgetDecision) {
    && 0 <= d.targetTokens <= d.triggerTokens <= d.hardLimit
    && 0 <= d.beforeTokens && 0 <= d.afterTokens <= d.hardLimit
    && d.targetReached == (d.afterTokens <= d.targetTokens)
    && d.compacted == d.summary.Some?
    && (forall k :: 0 <= k < |d.required| ==> d.required[k].Valid())
    && (d.summary.Some? ==>
          && d.summary.value.maxTokens <= d.hardLimit && d.summary.value.targetTokens <= d.targetTokens
          && d.summary.value.Valid())
  }

  method ValidateDecision(d: BudgetDecision) returns (ok: bool)
    ensures ok <==> ValidDecision(d)
  {
    if d.hardLimit < 0 || d.targetTokens < 0 || d.triggerTokens < d.targetTokens || d.triggerTokens > d.hardLimit ||
       d.beforeTokens < 0 || d.afterTokens < 0 || d.afterTokens > d.hardLimit ||
       d.targetReached != (d.afterTokens <= d.targetTokens) || d.compacted != d.summary.Some? {
      return false;
    }
    for k := 0 to |d.required|
      invariant forall j :: 0 <= j < k ==> d.required[j].Valid()
    {
      if !d.required[k].Valid() {
        return false;
      }
    }
    if d.summary.Some? {
      if d.summary.value.maxTokens > d.hardLimit || d.summary.value.targetTokens > d.targetTokens {
        return false;
      }
      return d.summary.value.Valid();
    }
    ok := true;
  }

  function Trigger(limit: int, compaction: Option<CompactionPolicy>): int {
    if compaction.None? then limit else BudgetPercent(limit, compaction.value.triggerPercent)
  }

  function Target(limit: int, compaction: Option<CompactionPolicy>): int {
    if compaction.None? then limit else BudgetPercent(limit, compaction.value.targetPercent)
  }

  /** `validateDecision`: a manifest recomputes both thresholds from its own policy. */
  predicate ManifestAccepts(d: BudgetDecision, tokenLimit: int, compaction: Option<CompactionPolicy>) {
    && ValidDecision(d) && d.hardLimit <= tokenLimit
    && d.triggerTokens == Trigger(d.hardLimit, compaction) && d.targetTokens == Target(d.hardLimit, compaction)
  }

  lemma {:induction false} ThresholdsOrdered(limit: int, compaction: Option<CompactionPolicy>)
    requires 0 <= limit && (compaction.Some? ==> compaction.value.Valid())
    ensures 0 <= Target(limit, compaction) <= Trigger(limit, compaction) <= limit
  {
    if compaction.Some? {
      BudgetPercentMonotone(limit, compaction.value.targetPercent, compaction.value.triggerPercent);
      BudgetPercentIsFloor(limit, compaction.value.targetPercent);
      BudgetPercentIsFloor(limit, compaction.value.triggerPercent);
    }
  }
}
