/** The built-in eviction strategies (strategies.go). */
module Strategies {
  import opened Results
  import opened Sequences
  import opened Messages
  import opened Rounds
  import opened Layouts
  import opened ToolTurns
  import opened Plans
  import opened Candidates
  import opened Budgets
  import opened Weights

  datatype Applied = Kept(messages: seq<Message>) | TooBig | BadRequest | BadEstimate

  // ---------------------------------------------------------------- drop head

  /** The first index whose suffix weighs at most `limit`. */
  predicate LongestSuffix(weights: seq<int>, limit: int, k: nat) {
    && k <= |weights| && Weight(weights, k) <= limit
    && forall i :: 0 <= i < k ==> Weight(weights, i) > limit
  }

  function EnforceMinMessages(messages: seq<Message>, minimum: int): seq<Message> {
    if minimum > 0 && |messages| < minimum then [] else messages
  }

  method ApplyFastPath(messages: seq<Message>, weights: seq<int>, limit: int, minimum: int) returns (out: seq<Message>)
    requires |weights| == |messages| && NonNegative(weights) && 0 <= limit
    ensures exists k: nat :: LongestSuffix(weights, limit, k) && Same(out, EnforceMinMessages(messages[k..], minimum))
  {
    var suffixSum := new int[|weights| + 1];
    suffixSum[|weights|] := 0;
    for i := |weights| downto 0
      invariant forall j :: i <= j <= |weights| ==> suffixSum[j] == Weight(weights, j)
    {
      suffixSum[i] := suffixSum[i + 1] + weights[i];
    }
    var best: nat := |messages|;
    var low, high := 0, |messages|;
    while low <= high
      invariant 0 <= low <= |messages| + 1 && -1 <= high <= |messages| && low <= high + 1
      invariant forall j :: 0 <= j <= |weights| ==> suffixSum[j] == Weight(weights, j)
      invariant best <= |messages| && Weight(weights, best) <= limit && best == if high < |messages| then high + 1
                else |messages|
      invariant forall j :: 0 <= j < low <= |messages| ==> Weight(weights, j) > limit
      invariant low <= |messages|
    {
      var mid := low + (high - low) / 2;
      if suffixSum[mid] <= limit {
        best := mid;
        high := mid - 1;
      } else {
        forall j | 0 <= j <= mid
          ensures Weight(weights, j) > limit
        {
          WeightFalls(weights, j, mid);
        }
        if mid == |messages| {
          assert false;
        }
        low := mid + 1;
      }
    }
    assert LongestSuffix(weights, limit, best);
    out := EnforceMinMessages(messages[best..], minimum);
  }

  lemma LongestIsUnique(weights: seq<int>, limit: int, j: nat, k: nat)
    requires LongestSuffix(weights, limit, j) && LongestSuffix(weights, limit, k)
    ensures j == k
  {
  }

  /** Where the unit that starts at `i` ends, one past. */
  function UnitNext(messages: seq<Message>, atomic: bool, i: nat): (next: nat)
    requires i < |messages|
    ensures i < next <= |messages|
  {
    if atomic && messages[i].role == Assistant && messages[i].HasToolCalls() then RoundEnd(messages, i) + 1 else i + 1
  }

  /** What the loop compares with the limit once everything before `i` is gone. */
  function Remaining(est: Estimator, messages: seq<Message>, weights: seq<int>, i: nat): Option<int>
    requires |weights| == |messages| && i <= |messages|
  {
    if i == 0 || est.additive then Some(Weight(weights, i)) else Cost(est, messages[i..])
  }

  /** The loop as a search over unit boundaries: the first boundary from `i` on that fits. */
  function FirstBoundary(est: Estimator, messages: seq<Message>, weights: seq<int>, atomic: bool, limit: int,
                         i: nat): (b: Option<nat>)
    requires |weights| == |messages| && i <= |messages|
    ensures b.Some? ==> i <= b.value <= |messages|
    decreases |messages| - i
  {
    var total := Remaining(est, messages, weights, i);
    if total.None? then None
    else if total.value <= limit || i == |messages| then Some(i)
    else FirstBoundary(est, messages, weights, atomic, limit, UnitNext(messages, atomic, i))
  }

  method FindFirstDroppable(deleted: array<bool>, searchStart: nat) returns (index: int)
    ensures index == -1 || (searchStart <= index < deleted.Length && !deleted[index])
    ensures forall i :: searchStart <= i < (if index < 0 then deleted.Length else index) ==> deleted[i]
  {
    var i := searchStart;
    while i < deleted.Length
      invariant searchStart <= i && forall k :: searchStart <= k < i && k < deleted.Length ==> deleted[k]
    {
      if !deleted[i] {
        return i;
      }
      i := i + 1;
    }
    index := -1;
  }

  /** `activeToolRoundEndIndex`: the end of the complete round that opens at `start`, among the visible messages. */
  method ActiveToolRoundEnd(messages: seq<Message>, start: nat, deleted: array<bool>) returns (end: nat)
    requires deleted.Length == |messages| && start < |messages|
    ensures (forall i :: start <= i < |messages| ==> !deleted[i]) ==> end == RoundEnd(messages, start)
  {
    var visible: seq<Message>, indexes: seq<nat> := [], [];
    var i := start;
    ghost var clean := forall i :: start <= i < |messages| ==> !deleted[i];
    while i < |messages|
      invariant start <= i <= |messages| && |visible| == |indexes|
      invariant clean ==> visible == messages[start..i] && forall k :: 0 <= k < |indexes| ==> indexes[k] == start + k
      invariant clean && start < i ==> ToolRun(messages, start + 1) == ToolRun(messages, i)
    {
      if !deleted[i] {
        if i != start && messages[i].role != Tool {
          break;
        }
        visible, indexes := visible + [messages[i]], indexes + [i];
      }
      i := i + 1;
    }
    var results := ToolRoundFromMessages(visible, 0);
    if clean {
      VisibleRound(messages, start, visible);
    }
    if results.None? || |results.value| >= |indexes| {
      return start;
    }
    end := indexes[|results.value|];
  }

  lemma {:induction false} VisibleRound(messages: seq<Message>, start: nat, visible: seq<Message>)
    requires start < |messages| && visible == messages[start..ToolRun(messages, start + 1)]
    ensures ToolRun(visible, 1) == |visible|
    ensures CompleteAt(visible, 0) <==> CompleteAt(messages, start)
  {
    ToolRunRoles(messages, start + 1);
    ToolRunExact(visible, 1, |visible|);
    assert visible[1..|visible|] == messages[start + 1..ToolRun(messages, start + 1)];
  }

  /** The mutable state of the selective loop. */
  class DropHeadState {
    const messages: seq<Message>
    const weights: seq<int>
    const deleted: array<bool>
    var total: int
    var searchStart: nat

    constructor (messages: seq<Message>, weights: seq<int>, total: int)
      requires |weights| == |messages| && total == Weight(weights, 0)
      ensures this.messages == messages && this.weights == weights && this.total == total
      ensures Valid() && searchStart == 0 && fresh(deleted)
    {
      this.messages, this.weights, this.total, this.searchStart := messages, weights, total, 0;
      this.deleted := new bool[|messages|](_ => false);
    }

    /** Everything before `searchStart` is deleted and nothing after it. */
    ghost predicate Valid()
      reads this, deleted
    {
      && deleted.Length == |messages| == |weights| && searchStart <= |messages|
      && forall i :: 0 <= i < |messages| ==> deleted[i] == (i < searchStart)
    }

    method RemoveUnit(start: nat, end: nat)
      requires Valid() && start == searchStart <= end < |messages|
      modifies this, deleted
      ensures total == old(total) - (Weight(weights, start) - Weight(weights, end + 1))
      ensures searchStart == end + 1 && Valid()
    {
      var i := start;
      while i <= end && i < |messages|
        invariant start <= i <= end + 1 && searchStart == start
        invariant forall k :: 0 <= k < |messages| ==> deleted[k] == (k < i)
        invariant total == old(total) - (Weight(weights, start) - Weight(weights, i))
      {
        if !deleted[i] {
          deleted[i] := true;
          total := total - weights[i];
        }
        i := i + 1;
      }
      searchStart := end + 1;
    }

    /** `total` is what the loop compares with the limit. */
    ghost predicate Measured(est: Estimator)
      requires Valid()
      reads this, deleted
    {
      Remaining(est, messages, weights, searchStart) == Some(total)
    }

    method NextDroppable() returns (index: int)
      requires Valid()
      ensures index == if searchStart < |messages| then searchStart else -1
    {
      assert searchStart < |messages| ==> !deleted[searchStart];
      index := FindFirstDroppable(deleted, searchStart);
    }

    /** One pass of the loop: drop the unit at `searchStart` and measure what is left. */
    method DropUnit(est: Estimator, atomic: bool) returns (ok: bool)
      requires Valid() && Measured(est) && searchStart < |messages|
      modifies this, deleted
      ensures Valid() && searchStart == UnitNext(messages, atomic, old(searchStart))
      ensures ok <==> Remaining(est, messages, weights, searchStart).Some?
      ensures ok ==> Measured(est)
    {
      var start := searchStart;
      var end := start;
      if atomic && messages[start].role == Assistant && messages[start].HasToolCalls() {
        end := ActiveToolRoundEnd(messages, start, deleted);
      }
      RemoveUnit(start, end);
      if !est.additive {
        var candidate := Retained();
        var cost := Cost(est, candidate);
        if cost.None? {
          return false;
        }
        total := cost.value;
      }
      ok := true;
    }

    method Retained() returns (out: seq<Message>)
      requires Valid()
      ensures out == messages[searchStart..]
    {
      out := [];
      for i := 0 to |messages|
        invariant out == if i <= searchStart then [] else messages[searchStart..i]
      {
        if !deleted[i] {
          out := out + [messages[i]];
        }
      }
    }
  }

  method ApplySelectivePath(state: DropHeadState, limit: int, est: Estimator, atomic: bool, minimum: int)
    returns (r: Applied)
    requires state.Valid() && state.searchStart == 0 && state.total == Weight(state.weights, 0)
    modifies state, state.deleted
    ensures r == Trimmed(est, state.messages, state.weights, atomic, limit, minimum)
  {
    ghost var all := FirstBoundary(est, state.messages, state.weights, atomic, limit, 0);
    while state.total > limit
      invariant state.Valid() && state.Measured(est)
      invariant Same(all, FirstBoundary(est, state.messages, state.weights, atomic, limit, state.searchStart))
      decreases |state.messages| - state.searchStart
    {
      var start := state.NextDroppable();
      if start == -1 {
        break;
      }
      var ok := state.DropUnit(est, atomic);
      assert Same(all, FirstBoundary(est, state.messages, state.weights, atomic, limit, state.searchStart));
      if !ok {
        return BadEstimate;
      }
    }
    if state.total > limit {
      return Kept([]);
    }
    var out := state.Retained();
    r := Kept(EnforceMinMessages(out, minimum));
  }

  /** What drop-head does with a block, from its checks to the trimmed suffix. */
  function HeadTrimmed(est: Estimator, messages: seq<Message>, original: int, limit: int, minimum: int,
                       atomic: bool): Applied {
    if minimum < 0 || original < 0 || limit < 0 then BadRequest
    else if |messages| == 0 then Kept([])
    else if original <= limit then Kept(messages)
    else
      var weights := est.perMessage(messages);
      if weights.None? || |weights.value| != |messages| then BadEstimate
      else if !NonNegative(weights.value) || Weight(weights.value, 0) != original || original > MAX_INT then BadEstimate
      else Trimmed(est, messages, weights.value, atomic, limit, minimum)
  }

  method ApplyDropHead(messages: seq<Message>, original: int, limit: int, est: Estimator, minimum: int, atomic: bool)
    returns (r: Applied)
    ensures r == HeadTrimmed(est, messages, original, limit, minimum, atomic)
  {
    if minimum < 0 || original < 0 || limit < 0 {
      return BadRequest;
    }
    if |messages| == 0 {
      return Kept([]);
    }
    if original <= limit {
      return Kept(messages);
    }
    var weights := est.perMessage(messages);
    if weights.None? || |weights.value| != |messages| {
      return BadEstimate;
    }
    var sum := SumEstimateTokens(weights.value);
    if sum.None? || sum.value != original {
      return BadEstimate;
    }
    if !atomic && est.additive {
      var out := ApplyFastPath(messages, weights.value, limit, minimum);
      FastEqualsSelective(est, messages, weights.value, limit, minimum);
      ghost var k: nat :| LongestSuffix(weights.value, limit, k)
        && Same(out, EnforceMinMessages(messages[k..], minimum));
      LongestIsUnique(weights.value, limit, k, FirstBoundary(est, messages, weights.value, false, limit, 0).value);
      return Kept(out);
    }
    var state := new DropHeadState(messages, weights.value, original);
    r := ApplySelectivePath(state, limit, est, atomic, minimum);
  }

  /** What the selective loop leaves. */
  function Trimmed(est: Estimator, messages: seq<Message>, weights: seq<int>, atomic: bool, limit: int,
                   minimum: int): Applied
    requires |weights| == |messages|
  {
    var b := FirstBoundary(est, messages, weights, atomic, limit, 0);
    if b.None? then BadEstimate
    else
      var total := Remaining(est, messages, weights, b.value);
      if total.Some? && total.value > limit then Kept([])
      else Kept(EnforceMinMessages(messages[b.value..], minimum))
  }

  // ---------------------------------------------------------------- fast path and selective path agree

  /** The estimator charges every suffix the sum of its weights. */
  ghost predicate AdditiveOn(est: Estimator, messages: seq<Message>, weights: seq<int>) {
    && |weights| == |messages|
    && forall i :: 0 <= i <= |messages| ==> Remaining(est, messages, weights, i) == Some(Weight(weights, i))
  }

  lemma {:induction false} SearchFindsLongest(est: Estimator, messages: seq<Message>, weights: seq<int>, limit: int,
                                              i: nat)
    requires AdditiveOn(est, messages, weights) && NonNegative(weights) && 0 <= limit && i <= |messages|
    requires forall j :: 0 <= j < i ==> Weight(weights, j) > limit
    ensures var b := FirstBoundary(est, messages, weights, false, limit, i);
            b.Some? && LongestSuffix(weights, limit, b.value)
    decreases |messages| - i
  {
    if Weight(weights, i) > limit && i < |messages| {
      SearchFindsLongest(est, messages, weights, limit, i + 1);
    }
  }

  /** With atomicity off, the selective loop leaves exactly the longest suffix within the limit, under the same
      minimum rule: what the binary search returns. */
  lemma {:induction false} FastEqualsSelective(est: Estimator, messages: seq<Message>, weights: seq<int>, limit: int,
                                               minimum: int)
    requires |weights| == |messages| && NonNegative(weights) && 0 <= limit
    requires est.additive || AdditiveOn(est, messages, weights)
    ensures var b := FirstBoundary(est, messages, weights, false, limit, 0);
            b.Some? && LongestSuffix(weights, limit, b.value) &&
            Trimmed(est, messages, weights, false, limit,
                    minimum) == Kept(EnforceMinMessages(messages[b.value..], minimum))
  {
    SearchFindsLongest(est, messages, weights, limit, 0);
  }

  // ---------------------------------------------------------------- atomic trimming keeps rounds whole

  lemma {:induction false} NextUnit(h: History, messages: seq<Message>, from: nat, seen: set<Name>)
    requires h.Next? && from <= |messages| && At(h, messages, from) && Layout(h, seen) && AllComplete(h)
    ensures from < |messages| && UnitNext(messages, true, from) == from + h.unit.Size()
  {
    if h.unit.Round? {
      CompleteIsNothingMissing(h.unit);
    }
  }

  function Suffix(count: nat, from: nat): (marks: seq<bool>)
    ensures |marks| == count
  {
    seq(count, i requires 0 <= i < count => from <= i)
  }

  /** Marks that keep exactly what starts at `b`. */
  predicate KeepsFrom(marks: seq<bool>, b: nat) {
    forall i :: 0 <= i < |marks| ==> marks[i] == (b <= i)
  }

  /** Every boundary the atomic loop stops at leaves a suffix of whole units. */
  lemma BoundaryNext(messages: seq<Message>, from: nat, next: nat, b: nat)
    requires from < next <= |messages| && next == UnitNext(messages, true, from)
    requires b <= from || Reaches(messages, from, b)
    ensures b <= next || Reaches(messages, next, b)
  {
  }

  lemma {:induction false} BoundaryIsUniform(h: History, messages: seq<Message>, from: nat, seen: set<Name>, b: nat,
                                             marks: seq<bool>)
    requires from <= |messages| == |marks| && At(h, messages, from) && Layout(h, seen) && AllComplete(h)
    requires KeepsFrom(marks, b) && (b <= from || Reaches(messages, from, b))
    ensures Uniform(h, marks[from..])
    decreases h
  {
    if h.Next? {
      var next := from + h.unit.Size();
      UnitSpan(h, messages, from);
      NextUnit(h, messages, from, seen);
      BoundaryNext(messages, from, next, b);
      BoundaryIsUniform(h.rest, messages, next, seen + h.unit.Names(), b, marks);
      ReachesAfter(messages, next, b);
      UniformStep(h, marks, from, next);
    }
  }

  lemma {:induction false} ReachesAfter(messages: seq<Message>, i: nat, b: nat)
    requires i <= |messages|
    ensures Reaches(messages, i, b) ==> i <= b
    decreases |messages| - i
  {
    if i < |messages| {
      ReachesAfter(messages, UnitNext(messages, true, i), b);
    }
  }

  /** `b` is a unit boundary at or after `i`. */
  predicate Reaches(messages: seq<Message>, i: nat, b: nat)
    requires i <= |messages|
    decreases |messages| - i
  {
    i == b || (i < |messages| && Reaches(messages, UnitNext(messages, true, i), b))
  }

  lemma {:induction false} FirstBoundaryReached(est: Estimator, messages: seq<Message>, weights: seq<int>, limit: int,
                                                i: nat)
    requires |weights| == |messages| && i <= |messages|
    ensures var b := FirstBoundary(est, messages, weights, true, limit, i);
            b.Some? ==> i <= b.value <= |messages| && Reaches(messages, i, b.value)
    decreases |messages| - i
  {
    var total := Remaining(est, messages, weights, i);
    if total.Some? && total.value > limit && i < |messages| {
      FirstBoundaryReached(est, messages, weights, limit, UnitNext(messages, true, i));
    }
  }

  lemma {:induction false} KeepFrom<T>(s: seq<T>, b: nat)
    requires b <= |s|
    ensures Keep(s, Suffix(|s|, b)) == s[b..]
  {
    var marks := Suffix(|s|, b);
    KeepSuffix(s, marks, b);
    KeepNone(s[..b], marks[..b]);
    assert [] + s[b..] == s[b..];
  }

  /** `out` is made of whole units of `messages`, in order. */
  ghost predicate WholeUnits(messages: seq<Message>, out: seq<Message>) {
    exists marks :: UnitSelection(messages, out, marks)
  }

  ghost predicate UnitSelection(messages: seq<Message>, out: seq<Message>, marks: seq<bool>) {
    |marks| == |messages| && Uniform(Split(messages), marks) && Same(out, Keep(messages, marks))
  }

  lemma {:induction false} SelectionIsComplete(messages: seq<Message>, out: seq<Message>)
    requires ValidComplete(messages) && WholeUnits(messages, out)
    ensures ValidComplete(out)
  {
    var marks :| UnitSelection(messages, out, marks);
    AllCompleteKept(Split(messages), marks);
    DroppingUnitsKeepsRounds(messages, marks);
  }

  lemma {:induction false} SuffixOfUnits(messages: seq<Message>, b: nat)
    requires ValidComplete(messages) && b <= |messages| && Reaches(messages, 0, b)
    ensures WholeUnits(messages, messages[b..])
  {
    var marks := Suffix(|messages|, b);
    ValidIsLayout(messages);
    WholeSplitAt(messages);
    BoundaryIsUniform(Split(messages), messages, 0, {}, b, marks);
    assert marks[0..] == marks;
    KeepFrom(messages, b);
    assert UnitSelection(messages, messages[b..], marks);
  }

  lemma {:induction false} ConstantIsUniform(h: History, marks: seq<bool>, b: bool)
    requires |marks| == |Flatten(h)| && forall i :: 0 <= i < |marks| ==> marks[i] == b
    ensures Uniform(h, marks)
  {
    if h.Next? {
      ConstantIsUniform(h.rest, marks[h.unit.Size()..], b);
    }
  }

  /** Everything and nothing are selections of whole units. */
  lemma {:induction false} WholeAndNothing(messages: seq<Message>)
    requires ValidComplete(messages)
    ensures WholeUnits(messages, messages) && WholeUnits(messages, [])
  {
    var all, none := seq(|messages|, _ => true), seq(|messages|, _ => false);
    ValidIsLayout(messages);
    ConstantIsUniform(Split(messages), all, true);
    ConstantIsUniform(Split(messages), none, false);
    KeepAll(messages, all);
    KeepNone(messages, none);
    assert UnitSelection(messages, messages, all) && UnitSelection(messages, [], none);
  }

  /** Trimming with atomicity leaves a suffix made of whole units, whatever the estimator. */
  lemma {:induction false} AtomicTrimKeepsRounds(est: Estimator, messages: seq<Message>, weights: seq<int>, limit: int,
                                                 minimum: int)
    requires ValidComplete(messages) && |weights| == |messages|
    ensures var r := Trimmed(est, messages, weights, true, limit, minimum);
            r.Kept? ==> WholeUnits(messages, r.messages) && IsSuffix(r.messages, messages)
  {
    var b := FirstBoundary(est, messages, weights, true, limit, 0);
    WholeAndNothing(messages);
    assert messages[|messages|..] == [];
    if b.Some? {
      FirstBoundaryReached(est, messages, weights, limit, 0);
      SuffixOfUnits(messages, b.value);
    }
  }

  ghost predicate IsSuffix(a: seq<Message>, b: seq<Message>) {
    exists k :: 0 <= k <= |b| && Same(a, b[k..])
  }

  // ---------------------------------------------------------------- drop tail, drop, strict

  /** One trailing message, or the complete round that ends the history, is gone. */
  function DropTailUnit(messages: seq<Message>): (out: seq<Message>)
    ensures |messages| > 0 ==> |out| < |messages|
  {
    if |messages| == 0 then messages
    else if messages[|messages| - 1].role != Tool then messages[..|messages| - 1]
    else messages[..TailStart(messages)]
  }

  /** The first shorter prefix that fits; a history of one message cannot be shortened. */
  function TailTrimmed(est: Estimator, messages: seq<Message>, limit: int): Applied
    decreases |messages|
  {
    if |messages| <= 1 then TooBig
    else
      var out := DropTailUnit(messages);
      var tokens := Cost(est, out);
      if tokens.None? then BadEstimate
      else if tokens.value <= limit then Kept(out)
      else TailTrimmed(est, out, limit)
  }

  method ApplyDropTail(messages: seq<Message>, original: int, limit: int, est: Estimator) returns (r: Applied)
    ensures r == if |messages| == 0 then Kept([]) else if original <= limit then Kept(messages)
                 else TailTrimmed(est, messages, limit)
  {
    if |messages| == 0 {
      return Kept([]);
    }
    if original <= limit {
      return Kept(messages);
    }
    var out := messages;
    while |out| > 1
      invariant Same(TailTrimmed(est, messages, limit), TailTrimmed(est, out, limit))
      decreases |out|
    {
      var last := |out| - 1;
      if out[last].role != Tool {
        out := out[..last];
      } else {
        var start := ToolRoundStartForTail(out);
        out := out[..start];
      }
      var tokens := Cost(est, out);
      if tokens.None? {
        return BadEstimate;
      }
      if tokens.value <= limit {
        return Kept(out);
      }
    }
    r := TooBig;
  }

  /** What each strategy does with a block that is over its limit or within it. */
  function AppliedOf(strategy: Strategy, messages: seq<Message>, original: int, limit: int, est: Estimator): Applied {
    match strategy
    case Strict => if original > limit then TooBig else Kept(messages)
    case Drop => if original > limit then Kept([]) else Kept(messages)
    case DropTail =>
      if |messages| == 0 then Kept([]) else if original <= limit then Kept(messages)
        else TailTrimmed(est, messages, limit)
    case DropHead(minimum, atomic) => HeadTrimmed(est, messages, original, limit, minimum, atomic)
    case Host(apply) =>
      var out := apply(messages, original, limit);
      if out.HostFailure? then BadRequest else Kept(out.messages)
  }

  method ApplyStrategy(strategy: Strategy, messages: seq<Message>, original: int, limit: int, est: Estimator)
    returns (r: Applied)
    ensures r == AppliedOf(strategy, messages, original, limit, est)
  {
    match strategy
    case Strict =>
      r := if original > limit then TooBig else Kept(messages);
    case Drop =>
      r := if original > limit then Kept([]) else Kept(messages);
    case DropTail =>
      r := ApplyDropTail(messages, original, limit, est);
    case DropHead(minimum, atomic) =>
      r := ApplyDropHead(messages, original, limit, est, minimum, atomic);
    case Host(apply) =>
      var out := apply(messages, original, limit);
      r := if out.HostFailure? then BadRequest else Kept(out.messages);
  }

  // ---------------------------------------------------------------- trimming the tail keeps rounds whole

  function Front(h: History): History
    requires h.Next?
  {
    if h.rest.Next? then Next(h.unit, Front(h.rest)) else End
  }

  function LastUnit(h: History): Unit
    requires h.Next?
  {
    if h.rest.Next? then LastUnit(h.rest) else h.unit
  }

  lemma {:induction false} FrontAndLast(h: History, seen: set<Name>)
    requires h.Next? && Layout(h, seen) && AllComplete(h)
    ensures Same(Flatten(h), Flatten(Front(h)) + LastUnit(h).Content())
    ensures Layout(Front(h), seen) && AllComplete(Front(h))
    ensures ValidUnit(LastUnit(h)) && CompleteUnit(LastUnit(h))
    decreases h
  {
    if h.rest.Next? {
      FrontAndLast(h.rest, seen + h.unit.Names());
      ConcatAssoc(h.unit.Content(), Flatten(Front(h.rest)), LastUnit(h).Content());
    } else {
      assert h.unit.Content() + [] == [] + h.unit.Content();
    }
  }

  lemma {:induction false} StandsLast(front: seq<Message>, block: seq<Message>)
    requires WholeBlock(block, false)
    ensures Stands(front + block, |front|, block)
    ensures DropTailUnit(front + block) == front
  {
    var all := front + block;
    assert all[..|front|] == front;
    assert all[|front|..] == block;
    assert all[|front|..|all|] == all[|front|..];
    BlockEnds(all, |front|, block);
    if |block| > 1 {
      TailStartAt(all, |front|, block);
    }
  }

  lemma {:induction false} FrontMarks(h: History, seen: set<Name>) returns (marks: seq<bool>)
    requires h.Next? && Layout(h, seen)
    ensures Uniform(h, marks) && |marks| == |Flatten(h)| && Same(Keep(Flatten(h), marks), Flatten(Front(h)))
    decreases h
  {
    var content, n := h.unit.Content(), h.unit.Size();
    if h.rest.Next? {
      var rest := FrontMarks(h.rest, seen + h.unit.Names());
      marks := Repeat(true, n) + rest;
      assert marks[n..] == rest;
    } else {
      marks := Repeat(false, n);
      assert marks[n..] == [];
    }
    KeepBlock(content, Flatten(h.rest), marks);
  }

  /** Each step drops exactly the last unit. */
  lemma {:induction false} DropsLastUnit(messages: seq<Message>)
    requires ValidComplete(messages) && |messages| > 0
    ensures WholeUnits(messages, DropTailUnit(messages)) && DropTailUnit(messages) <= messages
  {
    var h := Split(messages);
    ValidIsLayout(messages);
    FrontAndLast(h, {});
    UnitBlock(LastUnit(h), false);
    StandsLast(Flatten(Front(h)), LastUnit(h).Content());
    var marks := FrontMarks(h, {});
    assert UnitSelection(messages, DropTailUnit(messages), marks);
  }

  /** Selecting units of selected units is selecting units. */
  lemma {:induction false} LiftMarks(h: History, keep: seq<bool>, again: seq<bool>) returns (marks: seq<bool>)
    requires Uniform(h, keep) && Uniform(KeepUnits(h, keep), again)
    ensures Uniform(h, marks) && |marks| == |keep| == |Flatten(h)| && |again| == |Flatten(KeepUnits(h, keep))|
    ensures Same(Keep(Flatten(h), marks), Keep(Flatten(KeepUnits(h, keep)), again))
    ensures forall i :: 0 <= i < |marks| && marks[i] ==> keep[i]
    decreases h
  {
    if !h.Next? {
      marks := [];
    } else {
      var n, rest := h.unit.Size(), keep[h.unit.Size()..];
      var others := LiftMarks(h.rest, rest, if keep[0] then again[n..] else again);
      var own := keep[0] && again[0];
      marks := Repeat(own, n) + others;
      LiftBlock(h, keep, again, others, marks);
    }
  }

  lemma {:induction false} LiftBlock(h: History, keep: seq<bool>, again: seq<bool>, others: seq<bool>, marks: seq<bool>)
    requires h.Next? && Uniform(h, keep) && Uniform(KeepUnits(h, keep), again)
    requires var n, rest := h.unit.Size(), keep[h.unit.Size()..];
             var tail := if keep[0] then again[n..] else again;
             && Uniform(h.rest, others) && |others| == |rest| == |Flatten(h.rest)|
             && |tail| == |Flatten(KeepUnits(h.rest, rest))|
             && Same(Keep(Flatten(h.rest), others), Keep(Flatten(KeepUnits(h.rest, rest)), tail))
             && (forall i :: 0 <= i < |others| && others[i] ==> rest[i])
             && marks == Repeat(keep[0] && again[0], n) + others
    ensures Uniform(h, marks) && |marks| == |keep| == |Flatten(h)| && |again| == |Flatten(KeepUnits(h, keep))|
    ensures Same(Keep(Flatten(h), marks), Keep(Flatten(KeepUnits(h, keep)), again))
    ensures forall i :: 0 <= i < |marks| && marks[i] ==> keep[i]
  {
    var n, content := h.unit.Size(), h.unit.Content();
    assert marks[n..] == others;
    KeepBlock(content, Flatten(h.rest), marks);
    if keep[0] {
      KeepBlock(content, Flatten(KeepUnits(h.rest, keep[n..])), again);
    } else {
      assert [] + Keep(Flatten(h.rest), others) == Keep(Flatten(h.rest), others);
    }
    forall i | 0 <= i < |marks| && marks[i]
      ensures keep[i]
    {
      if i >= n {
        assert others[i - n] && keep[n..][i - n] == keep[i];
      }
    }
  }

  lemma {:induction false} WholeUnitsCompose(a: seq<Message>, b: seq<Message>, c: seq<Message>)
    requires ValidComplete(a) && WholeUnits(a, b) && WholeUnits(b, c)
    ensures WholeUnits(a, c)
  {
    var keep :| UnitSelection(a, b, keep);
    var again :| UnitSelection(b, c, again);
    ValidIsLayout(a);
    DroppingUnitsKeepsRounds(a, keep);
    KeepFlatten(Split(a), keep);
    var marks := LiftMarks(Split(a), keep, again);
    assert UnitSelection(a, c, marks);
  }

  /** Trimming the tail of complete rounds leaves a prefix made of whole units, within the limit. */
  lemma {:induction false} TailTrimKeepsRounds(est: Estimator, messages: seq<Message>, limit: int)
    requires ValidComplete(messages)
    ensures var r := TailTrimmed(est, messages, limit);
            r.Kept? ==> WholeUnits(messages, r.messages) && r.messages <= messages && Cost(est, r.messages).Some? &&
                        Cost(est, r.messages).value <= limit
    decreases |messages|
  {
    if |messages| > 1 {
      var out := DropTailUnit(messages);
      DropsLastUnit(messages);
      SelectionIsComplete(messages, out);
      TailTrimKeepsRounds(est, out, limit);
      var r := TailTrimmed(est, out, limit);
      if r.Kept? {
        WholeUnitsCompose(messages, out, r.messages);
      }
    }
  }

  /** Strategies that never divide a round. */
  predicate Atomic(strategy: Strategy) {
    match strategy
    case DropHead(_, atomic) => atomic
    case DropTail => true
    case Drop => true
    case Strict => true
    case Host(_) => false
  }

  /** An atomic built-in strategy leaves whole units of complete rounds: a suffix for drop-head, a prefix for
      drop-tail. */
  lemma {:induction false} AtomicStrategyKeepsRounds(strategy: Strategy, messages: seq<Message>, original: int,
                                                     limit: int, est: Estimator)
    requires Atomic(strategy) && ValidComplete(messages)
    ensures var r := AppliedOf(strategy, messages, original, limit, est);
            r.Kept? ==>
              && WholeUnits(messages, r.messages) && ValidComplete(r.messages)
              && (strategy.DropHead? ==> IsSuffix(r.messages, messages))
              && (strategy.DropTail? ==> r.messages <= messages)
  {
    WholeAndNothing(messages);
    assert messages[0..] == messages && messages[|messages|..] == [];
    var r := AppliedOf(strategy, messages, original, limit, est);
    if strategy.DropHead? {
      var weights := est.perMessage(messages);
      if weights.Some? && |weights.value| == |messages| {
        AtomicTrimKeepsRounds(est, messages, weights.value, limit, strategy.minimum);
      }
    } else if strategy.DropTail? {
      TailTrimKeepsRounds(est, messages, limit);
    }
    if r.Kept? {
      SelectionIsComplete(messages, r.messages);
    }
  }

  // ---------------------------------------------------------------- what is left fits

  /** What a strategy leaves of `messages` fits: by the estimator, or by the weights where they add up. */
  ghost predicate WithinLimit(est: Estimator, messages: seq<Message>, out: seq<Message>, limit: int) {
    || |out| == 0
    || (Cost(est, out).Some? && Cost(est, out).value <= limit)
    || (est.additive && est.perMessage(messages).Some?
        && SuffixWeighs(messages, est.perMessage(messages).value, out, limit))
  }

  ghost predicate SuffixWeighs(messages: seq<Message>, weights: seq<int>, out: seq<Message>, limit: int) {
    |weights| == |messages| &&
    exists k: nat :: k <= |messages| && Same(out, messages[k..]) && Weight(weights, k) <= limit
  }

  lemma {:induction false} BoundaryMeasured(est: Estimator, messages: seq<Message>, weights: seq<int>, atomic: bool,
                                            limit: int, i: nat)
    requires |weights| == |messages| && i <= |messages|
    ensures var b := FirstBoundary(est, messages, weights, atomic, limit, i);
            b.Some? ==> Remaining(est, messages, weights, b.value).Some?
    decreases |messages| - i
  {
    var total := Remaining(est, messages, weights, i);
    if total.Some? && total.value > limit && i < |messages| {
      BoundaryMeasured(est, messages, weights, atomic, limit, UnitNext(messages, atomic, i));
    }
  }

  lemma {:induction false} TrimmedFits(est: Estimator, messages: seq<Message>, weights: seq<int>, atomic: bool,
                                       limit: int, minimum: int)
    requires |weights| == |messages| && est.perMessage(messages) == Some(weights) && Weight(weights, 0) > limit
    ensures var r := Trimmed(est, messages, weights, atomic, limit, minimum);
            r.Kept? ==> WithinLimit(est, messages, r.messages, limit)
  {
    BoundaryMeasured(est, messages, weights, atomic, limit, 0);
    var r := Trimmed(est, messages, weights, atomic, limit, minimum);
    var b := FirstBoundary(est, messages, weights, atomic, limit, 0);
    if r.Kept? && |r.messages| > 0 {
      assert Same(r.messages, messages[b.value..]);
      assert Remaining(est, messages, weights, b.value).value <= limit;
    }
  }

  lemma {:induction false} TailFits(est: Estimator, messages: seq<Message>, limit: int)
    ensures var r := TailTrimmed(est, messages, limit);
            r.Kept? ==> Cost(est, r.messages).Some? && Cost(est, r.messages).value <= limit
    decreases |messages|
  {
    if |messages| > 1 {
      TailFits(est, DropTailUnit(messages), limit);
    }
  }

  /** What a built-in strategy leaves of a block that is too large fits, atomic or not. */
  lemma {:induction false} StrategyFits(strategy: Strategy, messages: seq<Message>, original: int, limit: int,
                                        est: Estimator)
    requires !strategy.Host? && original > limit
    ensures var r := AppliedOf(strategy, messages, original, limit, est);
            r.Kept? ==> WithinLimit(est, messages, r.messages, limit)
  {
    if strategy.DropHead? {
      var weights := est.perMessage(messages);
      if weights.Some? && |weights.value| == |messages| && Weight(weights.value, 0) == original {
        TrimmedFits(est, messages, weights.value, strategy.atomic, limit, strategy.minimum);
      }
    } else if strategy.DropTail? {
      TailFits(est, messages, limit);
    }
  }
}
