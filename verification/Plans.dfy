/** A history cut into blocks that are kept or dropped as a whole. */
module Plans {
  import opened Sequences
  import opened Messages
  import opened Rounds
  import opened Layouts
  import opened ToolTurns

  datatype Plan = Done | Item(block: seq<Message>, required: bool, rest: Plan)

  function Text(p: Plan): seq<Message> {
    match p
    case Done => []
    case Item(block, _, rest) => block + Text(rest)
  }

  function Repeat(b: bool, n: nat): (s: seq<bool>)
    ensures |s| == n && forall i :: 0 <= i < n ==> s[i] == b
  {
    seq(n, _ => b)
  }

  function Flags(p: Plan): (flags: seq<bool>)
    ensures |flags| == |Text(p)|
  {
    match p
    case Done => []
    case Item(block, required, rest) => Repeat(required, |block|) + Flags(rest)
  }

  /** How many messages, and how many blocks, may be dropped. */
  function Optional(p: Plan): nat {
    match p
    case Done => 0
    case Item(block, required, rest) => (if required then 0 else |block|) + Optional(rest)
  }

  function Blocks(p: Plan): nat {
    match p
    case Done => 0
    case Item(_, required, rest) => (if required then 0 else 1) + Blocks(rest)
  }

  predicate Solid(p: Plan) {
    p.Item? ==> |p.block| > 0 && Solid(p.rest)
  }

  /** Blocks open with a message that is no tool result; a droppable block is one message or one complete round. */
  predicate WholeBlock(block: seq<Message>, required: bool) {
    && |block| > 0 && block[0].role != Tool
    && (forall i :: 0 < i < |block| ==> block[i].role == Tool)
    && (required || if block[0].HasToolCalls() then CompleteRound(block[0], block[1..]) else |block| == 1)
  }

  predicate WholeBlocks(p: Plan) {
    p.Item? ==> WholeBlock(p.block, p.required) && WholeBlocks(p.rest)
  }

  predicate SingleBlocks(p: Plan) {
    p.Item? ==> |p.block| == 1 && SingleBlocks(p.rest)
  }

  /** The droppable block number `j`, where it starts, and the plan without it. */
  function Block(p: Plan, j: nat): seq<Message>
    requires j < Blocks(p)
  {
    if p.required then Block(p.rest, j) else if j == 0 then p.block else Block(p.rest, j - 1)
  }

  function BlockAt(p: Plan, j: nat): nat
    requires j < Blocks(p)
  {
    if p.required then |p.block| + BlockAt(p.rest, j)
    else if j == 0 then 0 else |p.block| + BlockAt(p.rest, j - 1)
  }

  function Without(p: Plan, j: nat): (q: Plan)
    requires j < Blocks(p)
    ensures Blocks(q) == Blocks(p) - 1
  {
    if p.required then Item(p.block, true, Without(p.rest, j))
    else if j == 0 then p.rest else Item(p.block, false, Without(p.rest, j - 1))
  }

  /** The first `k` droppable blocks are gone. */
  function DropFirst(p: Plan, k: nat): Plan {
    if p.Done? || k == 0 then p
    else if p.required then Item(p.block, true, DropFirst(p.rest, k))
    else DropFirst(p.rest, k - 1)
  }

  /** Only the first `n` droppable blocks are left. */
  function KeepFirst(p: Plan, n: nat): Plan {
    if p.Done? then p
    else if p.required then Item(p.block, true, KeepFirst(p.rest, n))
    else if n == 0 then KeepFirst(p.rest, 0)
    else Item(p.block, false, KeepFirst(p.rest, n - 1))
  }

  function RequiredOnly(p: Plan): Plan {
    KeepFirst(p, 0)
  }

  // ---------------------------------------------------------------- one more block

  lemma {:induction false} DropFirstStep(p: Plan, k: nat)
    requires k < Blocks(p)
    ensures Blocks(DropFirst(p, k)) == Blocks(p) - k
    ensures DropFirst(p, k + 1) == Without(DropFirst(p, k), 0)
  {
    if k > 0 || p.required {
      DropFirstStep(p.rest, if p.required then k else k - 1);
    } else {
      DropNone(p.rest);
    }
  }

  lemma DropNone(p: Plan)
    ensures DropFirst(p, 0) == p
  {
  }

  lemma {:induction false} KeepFirstStep(p: Plan, n: nat)
    requires 0 < n <= Blocks(p)
    ensures Blocks(KeepFirst(p, n)) == n
    ensures KeepFirst(p, n - 1) == Without(KeepFirst(p, n), n - 1)
  {
    if p.required {
      KeepFirstStep(p.rest, n);
    } else if n > 1 {
      KeepFirstStep(p.rest, n - 1);
    } else {
      KeepNothing(p.rest);
    }
  }

  lemma {:induction false} KeepNothing(p: Plan)
    ensures Blocks(RequiredOnly(p)) == 0 && Optional(RequiredOnly(p)) == 0
  {
    if p.Item? {
      KeepNothing(p.rest);
    }
  }

  lemma {:induction false} KeepEveryBlock(p: Plan)
    ensures KeepFirst(p, Blocks(p)) == p
  {
    if p.Item? {
      KeepEveryBlock(p.rest);
    }
  }

  lemma {:induction false} NoBlocksLeft(p: Plan)
    requires Solid(p)
    ensures Optional(p) == 0 <==> Blocks(p) == 0
    ensures Blocks(p) <= Optional(p)
    ensures Optional(p) == 0 ==> RequiredOnly(p) == p
  {
    if p.Item? {
      NoBlocksLeft(p.rest);
    }
  }

  // ---------------------------------------------------------------- plans made of fewer blocks

  /** `q` drops some of the droppable blocks of `p`. */
  predicate Fewer(q: Plan, p: Plan)
    decreases p
  {
    if p.Done? then q.Done?
    else
      || (q.Item? && q.block == p.block && q.required == p.required && Fewer(q.rest, p.rest))
      || (!p.required && Fewer(q, p.rest))
  }

  lemma {:induction false} FewerSelf(p: Plan)
    ensures Fewer(p, p)
  {
    if p.Item? {
      FewerSelf(p.rest);
    }
  }

  lemma {:induction false} DropFirstFewer(p: Plan, k: nat)
    ensures Fewer(DropFirst(p, k), p)
  {
    if p.Done? || k == 0 {
      FewerSelf(p);
    } else {
      DropFirstFewer(p.rest, if p.required then k else k - 1);
    }
  }

  lemma {:induction false} KeepFirstFewer(p: Plan, n: nat)
    ensures Fewer(KeepFirst(p, n), p)
  {
    if p.Item? {
      KeepFirstFewer(p.rest, if p.required || n == 0 then n else n - 1);
    }
  }

  /** What holds of every block holds of fewer blocks. */
  lemma {:induction false} FewerBlocks(q: Plan, p: Plan)
    requires Fewer(q, p)
    ensures WholeBlocks(p) ==> WholeBlocks(q)
    ensures SingleBlocks(p) ==> SingleBlocks(q)
    ensures Solid(p) ==> Solid(q)
    decreases p
  {
    if p.Item? {
      if !p.required && Fewer(q, p.rest) {
        FewerBlocks(q, p.rest);
      } else {
        FewerBlocks(q.rest, p.rest);
      }
    }
  }

  lemma {:induction false} WholeIsSolid(p: Plan)
    ensures WholeBlocks(p) || SingleBlocks(p) ==> Solid(p)
  {
    if p.Item? {
      WholeIsSolid(p.rest);
    }
  }

  // ---------------------------------------------------------------- blocks by index

  lemma Middle<T>(front: seq<T>, block: seq<T>, back: seq<T>)
    ensures (front + (block + back))[|front|..|front| + |block|] == block
  {
  }

  lemma {:induction false} BlockSplit(p: Plan, j: nat) returns (front: seq<Message>, back: seq<Message>)
    requires j < Blocks(p)
    ensures Same(Text(p), front + (Block(p, j) + back)) && |front| == BlockAt(p, j)
  {
    if !p.required && j == 0 {
      front, back := [], Text(p.rest);
      assert [] + Text(p) == Text(p);
    } else {
      var inner, rest := BlockSplit(p.rest, if p.required then j else j - 1);
      front, back := p.block + inner, rest;
      ConcatAssoc(p.block, inner, Block(p, j) + rest);
    }
  }

  lemma {:induction false} BlockPlace(p: Plan, j: nat)
    requires j < Blocks(p)
    ensures BlockAt(p, j) + |Block(p, j)| <= |Text(p)|
    ensures Text(p)[BlockAt(p, j)..BlockAt(p, j) + |Block(p, j)|] == Block(p, j)
  {
    var front, back := BlockSplit(p, j);
    Middle(front, Block(p, j), back);
  }

  lemma {:induction false} BlockFlags(p: Plan, j: nat)
    requires j < Blocks(p)
    ensures BlockAt(p, j) + |Block(p, j)| <= |Text(p)|
    ensures forall i :: BlockAt(p, j) <= i < BlockAt(p, j) + |Block(p, j)| ==> !Flags(p)[i]
    ensures j == 0 ==> forall i :: 0 <= i < BlockAt(p, j) ==> Flags(p)[i]
  {
    var n, own, others := |p.block|, Repeat(p.required, |p.block|), Flags(p.rest);
    assert forall i :: 0 <= i < n ==> Flags(p)[i] == own[i];
    assert forall i :: n <= i < n + |others| ==> Flags(p)[i] == others[i - n];
    if p.required {
      BlockFlags(p.rest, j);
    } else if j > 0 {
      BlockFlags(p.rest, j - 1);
    }
  }

  lemma {:induction false} AllRequired(p: Plan)
    requires Blocks(p) == 0
    ensures forall i :: 0 <= i < |Text(p)| ==> Flags(p)[i]
  {
    if p.Item? {
      AllRequired(p.rest);
    }
  }

  lemma {:induction false} AfterLastBlock(p: Plan)
    requires Blocks(p) > 0
    ensures var last := Blocks(p) - 1;
            forall i :: BlockAt(p, last) + |Block(p, last)| <= i < |Text(p)| ==> Flags(p)[i]
  {
    if p.required || Blocks(p) > 1 {
      AfterLastBlock(p.rest);
    } else {
      AllRequired(p.rest);
    }
  }

  lemma {:induction false} BlockShape(p: Plan, j: nat)
    requires j < Blocks(p) && WholeBlocks(p)
    ensures WholeBlock(Block(p, j), false)
    ensures BlockAt(p, j) + |Block(p, j)| <= |Text(p)|
    ensures BlockAt(p, j) + |Block(p, j)| < |Text(p)| ==> Text(p)[BlockAt(p, j) + |Block(p, j)|].role != Tool
  {
    if p.required {
      BlockShape(p.rest, j);
    } else if j > 0 {
      BlockShape(p.rest, j - 1);
    }
  }

  lemma {:induction false} BlockSingle(p: Plan, j: nat)
    requires j < Blocks(p) && SingleBlocks(p)
    ensures |Block(p, j)| == 1
  {
    if p.required {
      BlockSingle(p.rest, j);
    } else if j > 0 {
      BlockSingle(p.rest, j - 1);
    }
  }

  // ---------------------------------------------------------------- cutting a block out

  /** Marks that drop what is optional between `start` and `end`, or everything optional. */
  function Cut(flags: seq<bool>, start: int, end: int, all: bool): (marks: seq<bool>)
    ensures |marks| == |flags|
  {
    if |flags| == 0 then []
    else
      var last := |flags| - 1;
      Cut(flags[..last], start, end, all) + [flags[last] || !(all || start <= last <= end)]
  }

  lemma {:induction false} CutAt(flags: seq<bool>, start: int, end: int, all: bool, i: nat)
    requires i < |flags|
    ensures Cut(flags, start, end, all)[i] == (flags[i] || !(all || start <= i <= end))
    decreases |flags|
  {
    if i < |flags| - 1 {
      CutAt(flags[..|flags| - 1], start, end, all, i);
    }
  }

  lemma {:induction false} CutConcat(a: seq<bool>, b: seq<bool>, start: int, end: int, all: bool)
    ensures Cut(a + b, start, end, all) == Cut(a, start, end, all) + Cut(b, start - |a|, end - |a|, all)
    decreases |b|
  {
    if |b| == 0 {
      assert a + b == a && Cut(a, start, end, all) + [] == Cut(a, start, end, all);
    } else {
      var last := |b| - 1;
      assert (a + b)[..|a| + last] == a + b[..last];
      CutConcat(a, b[..last], start, end, all);
    }
  }

  lemma {:induction false} KeepCut<T>(a: seq<T>, b: seq<T>, fa: seq<bool>, fb: seq<bool>, start: int, end: int,
                                      all: bool)
    requires |a| == |fa| && |b| == |fb|
    ensures Keep(a + b, Cut(fa + fb, start, end, all)) ==
            Keep(a, Cut(fa, start, end, all)) + Keep(b, Cut(fb, start - |a|, end - |a|, all))
  {
    CutConcat(fa, fb, start, end, all);
    KeepConcat(a, b, Cut(fa, start, end, all), Cut(fb, start - |a|, end - |a|, all));
  }

  lemma {:induction false} CutNothing<T>(s: seq<T>, flags: seq<bool>, start: int, end: int)
    requires |s| == |flags| && (end < 0 || |s| <= start)
    ensures Keep(s, Cut(flags, start, end, false)) == s
  {
    forall i | 0 <= i < |s|
      ensures Cut(flags, start, end, false)[i]
    {
      CutAt(flags, start, end, false, i);
    }
    KeepAll(s, Cut(flags, start, end, false));
  }

  lemma {:induction false} CutRequired<T>(s: seq<T>, start: int, end: int, all: bool)
    ensures Keep(s, Cut(Repeat(true, |s|), start, end, all)) == s
  {
    forall i | 0 <= i < |s|
      ensures Cut(Repeat(true, |s|), start, end, all)[i]
    {
      CutAt(Repeat(true, |s|), start, end, all, i);
    }
    KeepAll(s, Cut(Repeat(true, |s|), start, end, all));
  }

  lemma {:induction false} CutWhole<T>(s: seq<T>, start: int, end: int, all: bool)
    requires all || (start <= 0 && |s| - 1 <= end)
    ensures Keep(s, Cut(Repeat(false, |s|), start, end, all)) == []
  {
    forall i | 0 <= i < |s|
      ensures !Cut(Repeat(false, |s|), start, end, all)[i]
    {
      CutAt(Repeat(false, |s|), start, end, all, i);
    }
    KeepNone(s, Cut(Repeat(false, |s|), start, end, all));
  }

  lemma {:induction false} CutItem(p: Plan, start: int, end: int, all: bool)
    requires p.Item?
    ensures var own, n := Repeat(p.required, |p.block|), |p.block|;
            && Same(Keep(Text(p), Cut(Flags(p), start, end, all)),
                    Keep(p.block, Cut(own, start, end, all)) + Keep(Text(p.rest),
                                                                    Cut(Flags(p.rest), start - n, end - n, all)))
            && Same(Keep(Flags(p), Cut(Flags(p), start, end, all)),
                    Keep(own, Cut(own, start, end, all)) + Keep(Flags(p.rest),
                                                                Cut(Flags(p.rest), start - n, end - n, all)))
  {
    var own := Repeat(p.required, |p.block|);
    KeepCut(p.block, Text(p.rest), own, Flags(p.rest), start, end, all);
    KeepCut(own, Flags(p.rest), own, Flags(p.rest), start, end, all);
  }

  ghost predicate CutsTo(p: Plan, start: int, end: int, q: Plan) {
    var marks := Cut(Flags(p), start, end, false);
    Same(Keep(Text(p), marks), Text(q)) && Same(Keep(Flags(p), marks), Flags(q))
  }

  /** Cutting the span of a droppable block leaves the plan without it. */
  lemma {:induction false} CutBlock(p: Plan, j: nat)
    requires j < Blocks(p)
    ensures CutsTo(p, BlockAt(p, j), BlockAt(p, j) + |Block(p, j)| - 1, Without(p, j))
  {
    var at := BlockAt(p, j);
    var end := at + |Block(p, j)| - 1;
    if p.required {
      CutBlock(p.rest, j);
      CutLater(p, at, end, Without(p.rest, j));
    } else if j > 0 {
      CutBlock(p.rest, j - 1);
      CutLater(p, at, end, Without(p.rest, j - 1));
    } else {
      CutFirst(p);
    }
  }

  lemma {:induction false} CutLater(p: Plan, start: int, end: int, rest: Plan)
    requires p.Item? && (p.required || |p.block| <= start)
    requires CutsTo(p.rest, start - |p.block|, end - |p.block|, rest)
    ensures CutsTo(p, start, end, Item(p.block, p.required, rest))
  {
    CutItem(p, start, end, false);
    CutUntouched(p, start, end);
  }

  lemma {:induction false} CutFirst(p: Plan)
    requires p.Item? && !p.required
    ensures CutsTo(p, 0, |p.block| - 1, p.rest)
  {
    var own, n := Repeat(false, |p.block|), |p.block|;
    CutItem(p, 0, n - 1, false);
    OnlyRestLeft(p.block, Text(p.rest), Flags(p.rest), n);
    OnlyRestLeft(own, Flags(p.rest), Flags(p.rest), n);
  }

  lemma {:induction false} OnlyRestLeft<T>(block: seq<T>, rest: seq<T>, flags: seq<bool>, n: nat)
    requires |rest| == |flags| && n == |block|
    ensures Same(Keep(block, Cut(Repeat(false, n), 0, n - 1, false)) + Keep(rest, Cut(flags, 0 - n, n - 1 - n, false)),
                 rest)
  {
    CutWhole(block, 0, n - 1, false);
    CutNothing(rest, flags, 0 - n, -1);
    assert [] + rest == rest;
  }

  lemma {:induction false} CutUntouched(p: Plan, start: int, end: int)
    requires p.Item? && (p.required || |p.block| <= start)
    ensures var own := Repeat(p.required, |p.block|);
            Keep(p.block, Cut(own, start, end, false)) == p.block && Keep(own, Cut(own, start, end, false)) == own
  {
    var own := Repeat(p.required, |p.block|);
    if p.required {
      CutRequired(p.block, start, end, false);
      CutRequired(own, start, end, false);
    } else {
      CutNothing(p.block, own, start, end);
      CutNothing(own, own, start, end);
    }
  }

  lemma {:induction false} CutAll(p: Plan, start: int, end: int)
    ensures Same(Keep(Text(p), Cut(Flags(p), start, end, true)), Text(RequiredOnly(p)))
    ensures Same(Keep(Flags(p), Cut(Flags(p), start, end, true)), Flags(RequiredOnly(p)))
  {
    if p.Item? {
      var n, own := |p.block|, Repeat(p.required, |p.block|);
      CutItem(p, start, end, true);
      CutAll(p.rest, start - n, end - n);
      if p.required {
        CutRequired(p.block, start, end, true);
        CutRequired(own, start, end, true);
      } else {
        CutWhole(p.block, start, end, true);
        CutWhole(own, start, end, true);
        assert [] + Text(RequiredOnly(p.rest)) == Text(RequiredOnly(p.rest));
        assert [] + Flags(RequiredOnly(p.rest)) == Flags(RequiredOnly(p.rest));
      }
    }
  }

  // ---------------------------------------------------------------- plans of a history

  function UnitPlan(h: History, required: seq<bool>): Plan
    requires Uniform(h, required)
  {
    if !h.Next? then Done
    else Item(h.unit.Content(), required[0], UnitPlan(h.rest, required[h.unit.Size()..]))
  }

  function SinglePlan(messages: seq<Message>, required: seq<bool>): Plan
    requires |messages| == |required|
  {
    if |messages| == 0 then Done
    else Item([messages[0]], required[0], SinglePlan(messages[1..], required[1..]))
  }

  lemma ConstantHead(marks: seq<bool>, n: nat)
    requires 0 < n <= |marks| && Constant(marks, n)
    ensures marks == Repeat(marks[0], n) + marks[n..]
  {
  }

  lemma {:induction false} UnitPlanText(h: History, required: seq<bool>)
    requires Uniform(h, required)
    ensures Text(UnitPlan(h, required)) == Flatten(h) && Flags(UnitPlan(h, required)) == required
  {
    if h.Next? {
      UnitPlanText(h.rest, required[h.unit.Size()..]);
      ConstantHead(required, h.unit.Size());
    }
  }

  lemma {:induction false} SinglePlanText(messages: seq<Message>, required: seq<bool>)
    requires |messages| == |required|
    ensures Text(SinglePlan(messages, required)) == messages && Flags(SinglePlan(messages, required)) == required
    ensures SingleBlocks(SinglePlan(messages, required))
  {
    if |messages| > 0 {
      SinglePlanText(messages[1..], required[1..]);
    }
  }

  lemma {:induction false} UnitBlock(u: Unit, required: bool)
    requires ValidUnit(u) && (!required ==> CompleteUnit(u))
    ensures WholeBlock(u.Content(), required)
  {
    if u.Round? {
      CompleteIsNothingMissing(u);
      assert u.Content()[1..] == u.results;
      assert forall i :: 0 < i < u.Size() ==> u.Content()[i] == u.results[i - 1];
    }
  }

  lemma {:induction false} UnitPlanWhole(h: History, required: seq<bool>, seen: set<Name>)
    requires Uniform(h, required) && Uniform(h, Not(required)) && Layout(h, seen) && KeptComplete(h, Not(required))
    ensures WholeBlocks(UnitPlan(h, required))
    decreases h
  {
    if h.Next? {
      var n := h.unit.Size();
      assert Not(required)[n..] == Not(required[n..]);
      UnitPlanWhole(h.rest, required[n..], seen + h.unit.Names());
      UnitBlock(h.unit, required[0]);
    }
  }

  /** Fewer blocks are the history with marks that never divide a unit and keep everything required. */
  lemma {:induction false} FewerUnits(h: History, required: seq<bool>, q: Plan) returns (marks: seq<bool>)
    requires Uniform(h, required) && Fewer(q, UnitPlan(h, required))
    ensures Uniform(h, marks) && |marks| == |required| == |Flatten(h)|
    ensures Keep(Flatten(h), marks) == Text(q)
    ensures forall i :: 0 <= i < |marks| && required[i] ==> marks[i]
    decreases h
  {
    if !h.Next? {
      marks := [];
    } else {
      var n, rest := h.unit.Size(), required[h.unit.Size()..];
      var keep := required[0] || !Fewer(q, UnitPlan(h.rest, rest));
      var others := FewerUnits(h.rest, rest, if keep then q.rest else q);
      marks := Repeat(keep, n) + others;
      assert marks[n..] == others;
      KeepBlock(h.unit.Content(), Flatten(h.rest), marks);
      assert [] + Text(q) == Text(q);
    }
  }

  lemma {:induction false} FewerMessages(messages: seq<Message>, required: seq<bool>, q: Plan)
    returns (marks: seq<bool>)
    requires |messages| == |required| && Fewer(q, SinglePlan(messages, required))
    ensures |marks| == |messages| && Keep(messages, marks) == Text(q)
    ensures forall i :: 0 <= i < |marks| && required[i] ==> marks[i]
    decreases |messages|
  {
    if |messages| == 0 {
      marks := [];
    } else {
      var keep := required[0] || !Fewer(q, SinglePlan(messages[1..], required[1..]));
      var others := FewerMessages(messages[1..], required[1..], if keep then q.rest else q);
      marks := [keep] + others;
      assert marks[1..] == others;
      assert [] + Text(q) == Text(q);
    }
  }
}
