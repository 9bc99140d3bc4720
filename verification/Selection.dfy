/** Priority admission of atomic units under a whole-set cost (selection.go). */
module Selection {
  import opened Results
  import opened Messages

  datatype SegmentName = SystemSegment | HistorySegment | MemorySegment | ToolsSegment | OtherSegment(name: string)

  /** Whether the artifact policy lets a unit in on its own; units without an artifact are eligible. */
  datatype Local = Eligible | Ineligible | Unmeasured

  datatype Candidate = Candidate(
    ref: ContentRef, members: seq<ContentRef>, roundMembers: seq<ContentRef>, segment: SegmentName,
    messages: seq<Message>,
    required: bool, ordinal: nat, local: Local)

  datatype Choice = Choice(ref: ContentRef, priority: int)

  type Priorities = map<ContentRef, int>

  // ---------------------------------------------------------------- the plan

  predicate IsCandidate(candidates: seq<Candidate>, ref: ContentRef) {
    exists k :: 0 <= k < |candidates| && candidates[k].ref == ref
  }

  /** The reference stands inside a round, not at its start. */
  predicate IsTail(candidates: seq<Candidate>, ref: ContentRef) {
    exists k, i :: 0 <= k < |candidates| && 1 <= i < |candidates[k].members| && candidates[k].members[i] == ref
  }

  predicate Chosen(plan: seq<Choice>, ref: ContentRef) {
    exists k :: 0 <= k < |plan| && plan[k].ref == ref
  }

  /** Every choice addresses a whole unit, none twice, and nothing required is left out. */
  predicate PlanAccepted(candidates: seq<Candidate>, plan: seq<Choice>) {
    && (forall k :: 0 <= k < |plan| ==> !IsTail(candidates, plan[k].ref) && IsCandidate(candidates, plan[k].ref))
    && (forall j, k :: 0 <= j < k < |plan| ==> plan[j].ref != plan[k].ref)
    && (forall k :: 0 <= k < |candidates| && candidates[k].required ==> Chosen(plan, candidates[k].ref))
  }

  ghost predicate PrioritiesOf(priorities: Priorities, plan: seq<Choice>) {
    && (forall ref :: ref in priorities <==> Chosen(plan, ref))
    && (forall k :: 0 <= k < |plan| ==> plan[k].ref in priorities && priorities[plan[k].ref] == plan[k].priority)
  }

  method CollectRefs(candidates: seq<Candidate>) returns (allowed: set<ContentRef>, tails: set<ContentRef>)
    ensures forall ref :: ref in allowed <==> IsCandidate(candidates, ref)
    ensures forall ref :: ref in tails <==> IsTail(candidates, ref)
  {
    allowed, tails := {}, {};
    for k := 0 to |candidates|
      invariant forall ref :: ref in allowed <==> exists j :: 0 <= j < k && candidates[j].ref == ref
      invariant forall ref :: ref in tails <==>
                  exists j, i :: 0 <= j < k && 1 <= i < |candidates[j].members| && candidates[j].members[i] == ref
    {
      allowed := allowed + {candidates[k].ref};
      ghost var before := tails;
      var members := candidates[k].members;
      var i := 1;
      while i < |members|
        invariant 1 <= i && forall ref :: ref in tails <==>
                    ref in before || exists l :: 1 <= l < i && l < |members| && members[l] == ref
      {
        tails := tails + {members[i]};
        i := i + 1;
      }
    }
  }

  method ValidateSelectionPlan(candidates: seq<Candidate>, plan: seq<Choice>) returns (r: Option<Priorities>)
    ensures r.Some? <==> PlanAccepted(candidates, plan)
    ensures r.Some? ==> PrioritiesOf(r.value, plan)
  {
    var allowed, tails := CollectRefs(candidates);
    var priorities: Priorities := map[];
    for k := 0 to |plan|
      invariant forall ref :: ref in priorities <==> exists j :: 0 <= j < k && plan[j].ref == ref
      invariant forall j :: 0 <= j < k ==>
                  && !IsTail(candidates, plan[j].ref) && IsCandidate(candidates, plan[j].ref)
                  && plan[j].ref in priorities && priorities[plan[j].ref] == plan[j].priority
      invariant forall i, j :: 0 <= i < j < k ==> plan[i].ref != plan[j].ref
    {
      if plan[k].ref in tails || plan[k].ref !in allowed || plan[k].ref in priorities {
        return None;
      }
      priorities := priorities[plan[k].ref := plan[k].priority];
    }
    for k := 0 to |candidates|
      invariant forall j :: 0 <= j < k && candidates[j].required ==> Chosen(plan, candidates[j].ref)
    {
      if candidates[k].required && candidates[k].ref !in priorities {
        return None;
      }
    }
    r := Some(priorities);
  }

  // ---------------------------------------------------------------- the order

  function PriorityOf(priorities: Priorities, c: Candidate): int {
    if c.ref in priorities then priorities[c.ref] else 0
  }

  /** Strictly earlier by the sort key alone. */
  predicate Outranks(priorities: Priorities, a: Candidate, b: Candidate) {
    if a.required != b.required then a.required else PriorityOf(priorities, a) > PriorityOf(priorities, b)
  }

  /** The admission order: required first, then higher priority, then preparation order. */
  predicate Precedes(candidates: seq<Candidate>, priorities: Priorities, a: nat, b: nat)
    requires a < |candidates| && b < |candidates|
  {
    Outranks(priorities, candidates[a], candidates[b]) || (!Outranks(priorities, candidates[b], candidates[a]) && a < b)
  }

  /** `order` lists the first `n` candidates, each once, in admission order. */
  ghost predicate InAdmissionOrder(candidates: seq<Candidate>, priorities: Priorities, order: seq<nat>, n: nat) {
    && |order| == n <= |candidates|
    && (forall p :: 0 <= p < |order| ==> order[p] < n)
    && (forall i: nat :: i < n ==> i in order)
    && (forall p, q :: 0 <= p < q < |order| ==> Precedes(candidates, priorities, order[p], order[q]))
  }

  method InsertionPoint(candidates: seq<Candidate>, priorities: Priorities, order: seq<nat>, n: nat) returns (p: nat)
    requires n < |candidates| && InAdmissionOrder(candidates, priorities, order, n)
    ensures p <= |order|
    ensures forall q :: 0 <= q < p ==> Precedes(candidates, priorities, order[q], n)
    ensures forall q :: p <= q < |order| ==> Precedes(candidates, priorities, n, order[q])
  {
    p := |order|;
    while p > 0 && Outranks(priorities, candidates[n], candidates[order[p - 1]])
      invariant p <= |order|
      invariant forall q :: p <= q < |order| ==> Outranks(priorities, candidates[n], candidates[order[q]])
    {
      p := p - 1;
    }
    forall q | 0 <= q < p
      ensures Precedes(candidates, priorities, order[q], n)
    {
      if q < p - 1 {
        assert Precedes(candidates, priorities, order[q], order[p - 1]);
      }
    }
  }

  lemma {:induction false} InsertedOrdered(candidates: seq<Candidate>, priorities: Priorities, order: seq<nat>, n: nat,
                                           p: nat)
    requires n < |candidates| && InAdmissionOrder(candidates, priorities, order, n) && p <= |order|
    requires forall q :: 0 <= q < p ==> Precedes(candidates, priorities, order[q], n)
    requires forall q :: p <= q < |order| ==> Precedes(candidates, priorities, n, order[q])
    ensures InAdmissionOrder(candidates, priorities, order[..p] + [n] + order[p..], n + 1)
  {
    var more := order[..p] + [n] + order[p..];
    assert forall q :: 0 <= q < p ==> more[q] == order[q];
    assert more[p] == n;
    assert forall q :: p < q < |more| ==> more[q] == order[q - 1];
    forall i: nat | i < n + 1
      ensures i in more
    {
      if i < n {
        assert i in order;
        var q :| 0 <= q < |order| && order[q] == i;
        assert more[if q < p then q else q + 1] == i;
      }
    }
  }

  /** The stable sort of the candidates. */
  method AdmissionOrder(candidates: seq<Candidate>, priorities: Priorities) returns (order: seq<nat>)
    ensures InAdmissionOrder(candidates, priorities, order, |candidates|)
  {
    order := [];
    for n := 0 to |candidates|
      invariant InAdmissionOrder(candidates, priorities, order, n)
    {
      var p := InsertionPoint(candidates, priorities, order, n);
      InsertedOrdered(candidates, priorities, order, n, p);
      order := order[..p] + [n] + order[p..];
    }
  }

  // ---------------------------------------------------------------- admission

  /** Without a policy or a budget everything fits; otherwise the admitted units are measured together, as one
      list of messages or segment by segment. */
  datatype SelectionBudget = Unlimited | Limited(cost: seq<Candidate> -> Option<int>, limit: int)

  /** The admitted units among the first `n`, in preparation order. */
  function AdmittedUnits(candidates: seq<Candidate>, admitted: set<ContentRef>, n: nat): seq<Candidate>
    requires n <= |candidates|
  {
    if n == 0 then []
    else AdmittedUnits(candidates, admitted, n - 1) + if candidates[n - 1].ref in admitted then [candidates[n - 1]]
      else []
  }

  function Tokens(candidates: seq<Candidate>, budget: SelectionBudget, admitted: set<ContentRef>): Option<int>
    requires budget.Limited?
  {
    budget.cost(AdmittedUnits(candidates, admitted, |candidates|))
  }

  /** `selectionFits`; nothing when the estimate fails or is negative. */
  function Fits(candidates: seq<Candidate>, budget: SelectionBudget, admitted: set<ContentRef>): Option<bool> {
    if budget.Unlimited? then Some(true)
    else
      var tokens := Tokens(candidates, budget, admitted);
      if tokens.None? || tokens.value < 0 then None else Some(tokens.value <= budget.limit)
  }

  method MeasureSelection(candidates: seq<Candidate>, budget: SelectionBudget, admitted: set<ContentRef>)
    returns (r: Option<bool>)
    ensures r == Fits(candidates, budget, admitted)
  {
    if budget.Unlimited? {
      return Some(true);
    }
    var units: seq<Candidate> := [];
    for k := 0 to |candidates|
      invariant units == AdmittedUnits(candidates, admitted, k)
    {
      if candidates[k].ref in admitted {
        units := units + [candidates[k]];
      } else {
        assert units + [] == units;
      }
    }
    var tokens := budget.cost(units);
    r := if tokens.None? || tokens.value < 0 then None else Some(tokens.value <= budget.limit);
  }

  datatype Admission = Admitted(refs: set<ContentRef>) | OverBudget | NotMeasured

  /** What one candidate does to the admitted set. */
  function AdmitOne(candidates: seq<Candidate>, priorities: Priorities, budget: SelectionBudget, c: Candidate,
                    refs: set<ContentRef>): Admission {
    if c.ref !in priorities then Admitted(refs)
    else match c.local
      case Unmeasured => NotMeasured
      case Ineligible => if c.required then OverBudget else Admitted(refs)
      case Eligible =>
        var fits := Fits(candidates, budget, refs + {c.ref});
        if fits.None? then NotMeasured
        else if fits.value then Admitted(refs + {c.ref})
        else if c.required then OverBudget
        else Admitted(refs - {c.ref})
  }

  /** Admit the candidates of `order` from position `k` on. */
  function AdmitFrom(candidates: seq<Candidate>, priorities: Priorities, budget: SelectionBudget, order: seq<nat>,
                     k: nat, refs: set<ContentRef>): Admission
    requires k <= |order| && forall p :: 0 <= p < |order| ==> order[p] < |candidates|
    decreases |order| - k
  {
    if k == |order| then Admitted(refs)
    else
      var next := AdmitOne(candidates, priorities, budget, candidates[order[k]], refs);
      if next.Admitted? then AdmitFrom(candidates, priorities, budget, order, k + 1, next.refs) else next
  }

  method AdmitSelection(candidates: seq<Candidate>, priorities: Priorities, budget: SelectionBudget)
    returns (r: Admission, ghost order: seq<nat>)
    ensures InAdmissionOrder(candidates, priorities, order, |candidates|)
    ensures r == AdmitFrom(candidates, priorities, budget, order, 0, {})
  {
    var sorted := AdmissionOrder(candidates, priorities);
    order := sorted;
    var admitted: set<ContentRef> := {};
    for k := 0 to |sorted|
      invariant AdmitFrom(candidates, priorities, budget, sorted, 0, {}) == AdmitFrom(candidates, priorities, budget,
                                                                                      sorted, k, admitted)
    {
      var c := candidates[sorted[k]];
      if c.ref !in priorities {
        continue;
      }
      if c.local.Unmeasured? {
        return NotMeasured, order;
      }
      if c.local.Ineligible? {
        if c.required {
          return OverBudget, order;
        }
        continue;
      }
      assert admitted + {c.ref} - {c.ref} == admitted - {c.ref};
      admitted := admitted + {c.ref};
      var fits := MeasureSelection(candidates, budget, admitted);
      if fits.None? {
        return NotMeasured, order;
      }
      if !fits.value {
        if c.required {
          return OverBudget, order;
        }
        admitted := admitted - {c.ref};
      }
    }
    r := Admitted(admitted);
  }

  // ---------------------------------------------------------------- what admission guarantees

  /** The admitted set is empty or fits. */
  predicate EmptyOrFits(candidates: seq<Candidate>, budget: SelectionBudget, refs: set<ContentRef>) {
    refs == {} || Fits(candidates, budget, refs) == Some(true)
  }

  /** A larger set never costs less. */
  ghost predicate Monotone(candidates: seq<Candidate>, budget: SelectionBudget) {
    budget.Limited? ==>
      forall a: set<ContentRef>,
      b: set<ContentRef> {:trigger Tokens(candidates, budget, a), Tokens(candidates, budget, b)} :: a <= b ==>
        Tokens(candidates, budget, a).Some? && Tokens(candidates, budget, b).Some? &&
        0 <= Tokens(candidates, budget, a).value <= Tokens(candidates, budget, b).value
  }

  /** The unit was offered, may enter on its own, and is not in. */
  predicate LeftOut(priorities: Priorities, c: Candidate, refs: set<ContentRef>) {
    c.ref in priorities && c.local.Eligible? && c.ref !in refs
  }

  lemma {:induction false} AdmitOneSound(candidates: seq<Candidate>, priorities: Priorities, budget: SelectionBudget,
                                         c: Candidate, refs: set<ContentRef>)
    requires AdmitOne(candidates, priorities, budget, c, refs).Admitted? && EmptyOrFits(candidates, budget, refs)
    ensures var more := AdmitOne(candidates, priorities, budget, c, refs).refs;
            && refs <= more && EmptyOrFits(candidates, budget, more)
            && (forall ref :: ref in more ==> ref in refs || (ref == c.ref && c.ref in priorities && c.local.Eligible?))
            && (c.required && c.ref in priorities ==> c.ref in more)
            && (LeftOut(priorities, c, more) ==> Fits(candidates, budget, refs + {c.ref}) == Some(false))
  {
    if c.ref in refs {
      assert refs + {c.ref} == refs;
    } else {
      assert refs - {c.ref} == refs;
    }
  }

  lemma {:induction false} StillTooLarge(candidates: seq<Candidate>, budget: SelectionBudget, refs: set<ContentRef>,
                                         more: set<ContentRef>)
    requires Monotone(candidates, budget) && refs <= more && Fits(candidates, budget, refs) == Some(false)
    ensures Fits(candidates, budget, more) == Some(false)
  {
    assert Tokens(candidates, budget, refs).value <= Tokens(candidates, budget, more).value;
  }

  /** From position `k` on, starting with `refs`. */
  ghost predicate AdmissionSound(candidates: seq<Candidate>, priorities: Priorities, budget: SelectionBudget,
                                 order: seq<nat>, k: nat, refs: set<ContentRef>, final: set<ContentRef>)
    requires k <= |order| && forall p :: 0 <= p < |order| ==> order[p] < |candidates|
  {
    && refs <= final && EmptyOrFits(candidates, budget, final)
    && (forall ref :: ref in final ==> ref in refs || Offered(candidates, priorities, ref))
    && (forall p :: k <= p < |order| ==>
          var c := candidates[order[p]];
          && (c.required && c.ref in priorities ==> c.ref in final)
          && (Monotone(candidates, budget) && LeftOut(priorities, c, final) ==>
                Fits(candidates, budget, final + {c.ref}) == Some(false)))
  }

  predicate Offered(candidates: seq<Candidate>, priorities: Priorities, ref: ContentRef) {
    exists i :: 0 <= i < |candidates| && candidates[i].ref == ref && ref in priorities && candidates[i].local.Eligible?
  }

  lemma {:induction false} AdmitFromSound(candidates: seq<Candidate>, priorities: Priorities, budget: SelectionBudget,
                                          order: seq<nat>, k: nat, refs: set<ContentRef>)
    requires k <= |order| && forall p :: 0 <= p < |order| ==> order[p] < |candidates|
    requires EmptyOrFits(candidates, budget, refs)
             && AdmitFrom(candidates, priorities, budget, order, k, refs).Admitted?
    ensures AdmissionSound(candidates, priorities, budget, order, k, refs,
                           AdmitFrom(candidates, priorities, budget, order, k, refs).refs)
    decreases |order| - k
  {
    if k < |order| {
      var c := candidates[order[k]];
      var more := AdmitOne(candidates, priorities, budget, c, refs).refs;
      AdmitOneSound(candidates, priorities, budget, c, refs);
      AdmitFromSound(candidates, priorities, budget, order, k + 1, more);
      var final := AdmitFrom(candidates, priorities, budget, order, k, refs).refs;
      AdmissionExtends(candidates, priorities, budget, order, k, refs, more, final);
    }
  }

  lemma {:induction false} AdmissionExtends(candidates: seq<Candidate>, priorities: Priorities, budget: SelectionBudget,
                                            order: seq<nat>, k: nat, refs: set<ContentRef>, more: set<ContentRef>,
                                            final: set<ContentRef>)
    requires k < |order| && forall p :: 0 <= p < |order| ==> order[p] < |candidates|
    requires AdmissionSound(candidates, priorities, budget, order, k + 1, more, final) && refs <= more
    requires var c := candidates[order[k]];
             && (forall ref :: ref in more ==>
                 ref in refs || (ref == c.ref && c.ref in priorities && c.local.Eligible?))
             && (c.required && c.ref in priorities ==> c.ref in more)
             && (LeftOut(priorities, c, more) ==> Fits(candidates, budget, refs + {c.ref}) == Some(false))
    ensures AdmissionSound(candidates, priorities, budget, order, k, refs, final)
  {
    var c := candidates[order[k]];
    if Monotone(candidates, budget) && LeftOut(priorities, c, final) {
      StillTooLarge(candidates, budget, refs + {c.ref}, final + {c.ref});
    }
  }

  /** Required units are admitted, only offered units are, the admitted set is empty or fits, and with a monotone
      cost no unit left out for lack of room could still be added. */
  lemma {:induction false} AdmissionIsSound(candidates: seq<Candidate>, priorities: Priorities, budget: SelectionBudget,
                                            order: seq<nat>)
    requires InAdmissionOrder(candidates, priorities, order, |candidates|)
    requires forall k :: 0 <= k < |candidates| && candidates[k].required ==> candidates[k].ref in priorities
    requires AdmitFrom(candidates, priorities, budget, order, 0, {}).Admitted?
    ensures var refs := AdmitFrom(candidates, priorities, budget, order, 0, {}).refs;
            && EmptyOrFits(candidates, budget, refs)
            && (forall ref :: ref in refs ==> Offered(candidates, priorities, ref))
            && (forall i :: 0 <= i < |candidates| && candidates[i].required ==> candidates[i].ref in refs)
            && (Monotone(candidates, budget) ==>
                forall i :: 0 <= i < |candidates| && LeftOut(priorities, candidates[i], refs) ==>
                  Fits(candidates, budget, refs + {candidates[i].ref}) == Some(false))
  {
    AdmitFromSound(candidates, priorities, budget, order, 0, {});
    var refs := AdmitFrom(candidates, priorities, budget, order, 0, {}).refs;
    forall i | 0 <= i < |candidates|
      ensures candidates[i].required ==> candidates[i].ref in refs
      ensures Monotone(candidates, budget) && LeftOut(priorities, candidates[i], refs) ==>
                Fits(candidates, budget, refs + {candidates[i].ref}) == Some(false)
    {
      var j: nat := i;
      assert j in order;
      var p :| 0 <= p < |order| && order[p] == j;
    }
  }
}
