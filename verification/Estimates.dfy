/** Coverage tables of token estimates: merging them and what they account for (estimate_report.go). */
module Estimates {
  import opened Results
  import opened Sequences
  import opened Messages
  import opened Budgets

  datatype Quality = Counted | Estimated | Unknown

  datatype Kind = TextKind | ImageKind | CallKind | ResultKind | MediaKind | ExtensionKind

  datatype Entry = Entry(kind: Kind, quality: Quality, parts: int, fallback: int)

  /** `extensions` maps a declared extension type to whether it is metadata only; `fallback` is the cost of one unit
      that cannot be counted. */
  datatype Profile = Profile(capabilities: map<Kind, Quality>, fallback: Option<int>, extensions: map<string, bool>) {
    predicate Valid() {
      (fallback.Some? ==> 0 < fallback.value) && "" !in extensions
    }

    function Declared(k: Kind): Quality {
      if k in capabilities then capabilities[k] else Unknown
    }

    function MetadataOnly(typeId: string): bool {
      typeId in extensions && extensions[typeId]
    }

    function ExtensionQuality(typeId: string): Quality {
      if typeId !in extensions then Unknown else Declared(ExtensionKind)
    }

    function Tokens(): int {
      if fallback.Some? then fallback.value else 0
    }
  }

  function Worse(a: Quality, b: Quality): (worst: Quality)
    ensures worst.Unknown? <==> a.Unknown? || b.Unknown?
    ensures worst.Counted? <==> a.Counted? && b.Counted?
  {
    if a.Unknown? || b.Unknown? then Unknown else if a.Estimated? || b.Estimated? then Estimated else Counted
  }

  /** Checked addition of token counts. */
  function AddTokens(a: int, b: int): (sum: Option<int>)
    ensures sum.Some? <==> 0 <= a && 0 <= b && a + b <= MAX_INT
    ensures sum.Some? ==> sum.value == a + b
  {
    if a < 0 || b < 0 || b > MAX_INT - a then None else Some(a + b)
  }

  // ---------------------------------------------------------------- tables

  datatype Sum = Sum(parts: int, fallback: int, quality: Quality)

  const NOTHING := Sum(0, 0, Counted)

  function SumOf(e: Entry): Sum {
    Sum(e.parts, e.fallback, e.quality)
  }

  function Plus(x: Sum, y: Sum): Sum {
    Sum(x.parts + y.parts, x.fallback + y.fallback, Worse(x.quality, y.quality))
  }

  predicate HasKind(c: seq<Entry>, k: Kind) {
    exists i :: 0 <= i < |c| && c[i].kind == k
  }

  /** One entry per kind, each for at least one part. */
  predicate Proper(c: seq<Entry>) {
    && (forall i, j :: 0 <= i < j < |c| ==> c[i].kind != c[j].kind)
    && (forall i :: 0 <= i < |c| ==> c[i].parts > 0)
  }

  /** What the table says about a kind. */
  function Lookup(c: seq<Entry>, k: Kind): Sum {
    if |c| == 0 then NOTHING
    else if c[|c| - 1].kind == k then SumOf(c[|c| - 1])
    else Lookup(c[..|c| - 1], k)
  }

  lemma {:induction false} LookupAt(c: seq<Entry>, i: nat)
    requires Proper(c) && i < |c|
    ensures Lookup(c, c[i].kind) == SumOf(c[i])
  {
    if i < |c| - 1 {
      LookupAt(c[..|c| - 1], i);
    }
  }

  lemma {:induction false} LookupNone(c: seq<Entry>, k: Kind)
    requires !HasKind(c, k)
    ensures Lookup(c, k) == NOTHING
  {
    if |c| > 0 {
      LookupNone(c[..|c| - 1], k);
    }
  }

  function FallbackTotal(c: seq<Entry>): int {
    if |c| == 0 then 0 else FallbackTotal(c[..|c| - 1]) + c[|c| - 1].fallback
  }

  lemma {:induction false} TotalSnoc(c: seq<Entry>, e: Entry)
    ensures FallbackTotal(c + [e]) == FallbackTotal(c) + e.fallback
  {
    assert (c + [e])[..|c|] == c;
  }

  lemma {:induction false} TotalUpdate(c: seq<Entry>, i: nat, e: Entry)
    requires i < |c|
    ensures FallbackTotal(c[i := e]) == FallbackTotal(c) - c[i].fallback + e.fallback
  {
    var last := |c| - 1;
    var d := c[i := e];
    if i < last {
      TotalUpdate(c[..last], i, e);
      assert d[..last] == c[..last][i := e];
    } else {
      assert d[..last] == c[..last];
    }
  }

  /** `next` is `c` with `e` added to the entry of its kind. */
  ghost predicate Grown(c: seq<Entry>, e: Entry, next: seq<Entry>) {
    && Proper(next) && FallbackTotal(next) == FallbackTotal(c) + e.fallback
    && forall k :: Lookup(next, k) == if k == e.kind then Plus(Lookup(c, k), SumOf(e)) else Lookup(c, k)
  }

  lemma {:induction false} GrowNew(c: seq<Entry>, e: Entry)
    requires Proper(c) && e.parts > 0 && !HasKind(c, e.kind)
    ensures Grown(c, e, c + [e])
  {
    TotalSnoc(c, e);
    LookupNone(c, e.kind);
    PlusNothing(SumOf(e));
    forall k
      ensures Lookup(c + [e], k) == if k == e.kind then SumOf(e) else Lookup(c, k)
    {
      LookupSnoc(c, e, k);
    }
  }

  lemma {:induction false} LookupSnoc(c: seq<Entry>, e: Entry, k: Kind)
    ensures Lookup(c + [e], k) == if k == e.kind then SumOf(e) else Lookup(c, k)
  {
    assert (c + [e])[..|c|] == c;
  }

  lemma PlusNothing(x: Sum)
    ensures Plus(x, NOTHING) == x && Plus(NOTHING, x) == x
  {
  }

  lemma {:induction false} LookupUpdate(c: seq<Entry>, i: nat, e: Entry, k: Kind)
    requires Proper(c) && i < |c| && c[i].kind == e.kind
    ensures Lookup(c[i := e], k) == if k == e.kind then SumOf(e) else Lookup(c, k)
  {
    var last := |c| - 1;
    var d := c[i := e];
    if i < last {
      LookupUpdate(c[..last], i, e, k);
      assert d[..last] == c[..last][i := e];
    } else {
      assert d[..last] == c[..last];
    }
  }

  lemma {:induction false} GrowOld(c: seq<Entry>, e: Entry, i: nat)
    requires Proper(c) && e.parts > 0 && i < |c| && c[i].kind == e.kind
    ensures var now := Entry(e.kind, Worse(c[i].quality, e.quality), c[i].parts + e.parts, c[i].fallback + e.fallback);
            Grown(c, e, c[i := now])
  {
    var now := Entry(e.kind, Worse(c[i].quality, e.quality), c[i].parts + e.parts, c[i].fallback + e.fallback);
    var next := c[i := now];
    TotalUpdate(c, i, now);
    LookupAt(c, i);
    forall k
      ensures Lookup(next, k) == if k == now.kind then SumOf(now) else Lookup(c, k)
    {
      LookupUpdate(c, i, now, k);
    }
  }

  method IndexOfKind(c: seq<Entry>, k: Kind) returns (index: int)
    ensures index == -1 <==> !HasKind(c, k)
    ensures index != -1 ==> 0 <= index < |c| && c[index].kind == k
  {
    for i := 0 to |c|
      invariant forall j :: 0 <= j < i ==> c[j].kind != k
    {
      if c[i].kind == k {
        return i;
      }
    }
    index := -1;
  }

  /** Kind by kind, `next` is `a` and `b` together. */
  ghost predicate Joined(a: seq<Entry>, b: seq<Entry>, next: seq<Entry>) {
    && Proper(next) && FallbackTotal(next) == FallbackTotal(a) + FallbackTotal(b)
    && forall k :: Lookup(next, k) == Plus(Lookup(a, k), Lookup(b, k))
  }

  lemma {:induction false} JoinStep(a: seq<Entry>, b: seq<Entry>, n: nat, now: seq<Entry>, next: seq<Entry>)
    requires n < |b| && Proper(b) && Joined(a, b[..n], now) && Grown(now, b[n], next)
    ensures Joined(a, b[..n + 1], next)
  {
    var more := b[..n] + [b[n]];
    assert b[..n + 1] == more;
    PrefixProper(b, n);
    GrowNew(b[..n], b[n]);
    forall k
      ensures Lookup(next, k) == Plus(Lookup(a, k), Lookup(more, k))
    {
      JoinAt(Lookup(a, k), Lookup(b[..n], k), Lookup(now, k), SumOf(b[n]), Lookup(more, k), Lookup(next, k),
             k == b[n].kind);
    }
  }

  lemma PrefixProper(b: seq<Entry>, n: nat)
    requires n < |b| && Proper(b)
    ensures Proper(b[..n]) && !HasKind(b[..n], b[n].kind) && b[n].parts > 0
  {
  }

  lemma JoinAt(a: Sum, b: Sum, now: Sum, e: Sum, more: Sum, next: Sum, here: bool)
    requires now == Plus(a, b)
    requires more == (if here then Plus(b, e) else b) && next == (if here then Plus(now, e) else now)
    ensures next == Plus(a, more)
  {
  }

  lemma {:induction false} JoinStarts(a: seq<Entry>, b: seq<Entry>)
    requires Proper(a)
    ensures Joined(a, b[..0], a)
  {
    assert b[..0] == [];
    forall k
      ensures Lookup(a, k) == Plus(Lookup(a, k), Lookup([], k))
    {
      PlusNothing(Lookup(a, k));
    }
  }

  method AddEntry(c: seq<Entry>, incoming: Entry) returns (out: seq<Entry>)
    requires Proper(c) && incoming.parts > 0
    ensures Grown(c, incoming, out)
  {
    var index := IndexOfKind(c, incoming.kind);
    if index < 0 {
      GrowNew(c, incoming);
      return c + [incoming];
    }
    GrowOld(c, incoming, index);
    out := c[index := Entry(incoming.kind, Worse(c[index].quality, incoming.quality), c[index].parts + incoming.parts,
                            c[index].fallback + incoming.fallback)];
  }

  method MergeEstimateCoverage(dst: seq<Entry>, src: seq<Entry>) returns (out: seq<Entry>)
    requires Proper(dst) && Proper(src)
    ensures Joined(dst, src, out)
  {
    out := dst;
    JoinStarts(dst, src);
    for n := 0 to |src|
      invariant Joined(dst, src[..n], out)
    {
      var more := AddEntry(out, src[n]);
      JoinStep(dst, src, n, out, more);
      out := more;
    }
    assert src[..|src|] == src;
  }

  // ---------------------------------------------------------------- units

  function KindCount(groups: seq<seq<Kind>>, k: Kind): nat {
    if |groups| == 0 then 0 else KindCount(groups[..|groups| - 1], k) + multiset(groups[|groups| - 1])[k]
  }

  /** A part with a kind the estimator cannot count. */
  predicate Unsupported(p: Profile, group: seq<Kind>) {
    ExtensionKind !in group && exists i :: 0 <= i < |group| && p.Declared(group[i]).Unknown?
  }

  predicate UnsupportedType(p: Profile, typeId: string) {
    !p.MetadataOnly(typeId) && p.ExtensionQuality(typeId).Unknown?
  }

  function GroupUnits(p: Profile, groups: seq<seq<Kind>>): nat {
    if |groups| == 0 then 0
    else GroupUnits(p, groups[..|groups| - 1]) + if Unsupported(p, groups[|groups| - 1]) then 1 else 0
  }

  function TypeUnits(p: Profile, types: seq<string>): nat {
    if |types| == 0 then 0
    else TypeUnits(p, types[..|types| - 1]) + if UnsupportedType(p, types[|types| - 1]) then 1 else 0
  }

  /** The worst quality among the extensions that take part. */
  function TypesQuality(p: Profile, types: seq<string>): Quality {
    if |types| == 0 then Counted
    else
      var typeId := types[|types| - 1];
      Worse(TypesQuality(p, types[..|types| - 1]), if p.MetadataOnly(typeId) then Counted
            else p.ExtensionQuality(typeId))
  }

  lemma {:induction false} GroupsConcat(p: Profile, a: seq<seq<Kind>>, b: seq<seq<Kind>>)
    ensures GroupUnits(p, a + b) == GroupUnits(p, a) + GroupUnits(p, b)
    ensures forall k :: KindCount(a + b, k) == KindCount(a, k) + KindCount(b, k)
    decreases |b|
  {
    if |b| == 0 {
      assert a + b == a;
    } else {
      var last := |b| - 1;
      GroupsConcat(p, a, b[..last]);
      assert (a + b)[..|a + b| - 1] == a + b[..last];
    }
  }

  lemma {:induction false} TypesConcat(p: Profile, a: seq<string>, b: seq<string>)
    ensures TypeUnits(p, a + b) == TypeUnits(p, a) + TypeUnits(p, b)
    ensures TypesQuality(p, a + b) == Worse(TypesQuality(p, a), TypesQuality(p, b))
    decreases |b|
  {
    if |b| == 0 {
      assert a + b == a;
    } else {
      var last := |b| - 1;
      TypesConcat(p, a, b[..last]);
      assert (a + b)[..|a + b| - 1] == a + b[..last];
    }
  }

  // ---------------------------------------------------------------- what a table accounts for

  /** The entry of a kind is never better than declared, and only unknown parts have a fallback. */
  predicate Fits(declared: Quality, s: Sum) {
    && s.fallback >= 0 && (s.fallback > 0 ==> s.quality.Unknown?)
    && (s.parts > 0 ==> Worse(s.quality, declared) == s.quality)
    && s.parts >= 0 && (s.parts == 0 ==> s.fallback == 0 && s.quality.Counted?)
  }

  /** The fallback cost of the units that cannot be counted. */
  function Charge(p: Profile, groups: seq<seq<Kind>>, types: seq<string>): int {
    Times(p.Tokens(), GroupUnits(p, groups) + TypeUnits(p, types))
  }

  /** `units` times `tokens`, as the builder adds it up. */
  function Times(tokens: int, units: nat): int {
    if units == 0 then 0 else Times(tokens, units - 1) + tokens
  }

  lemma {:induction false} TimesIsProduct(tokens: int, units: nat)
    ensures Times(tokens, units) == units * tokens
  {
    if units > 0 {
      TimesIsProduct(tokens, units - 1);
    }
  }

  lemma {:induction false} TimesAdds(tokens: int, a: nat, b: nat)
    ensures Times(tokens, a + b) == Times(tokens, a) + Times(tokens, b)
  {
    if b > 0 {
      TimesAdds(tokens, a, b - 1);
    }
  }

  /** The table counts every part of `groups` once, charges every unit that cannot be counted once, and is as good as
      the worst part of each kind. */
  ghost predicate Accounts(p: Profile, c: seq<Entry>, groups: seq<seq<Kind>>, types: seq<string>, fallback: int) {
    Proper(c) && Tallies(p, c, groups) && Billed(p, c, groups, types, fallback)
  }

  /** The charge of the table, the quality of its extensions, and that nothing unknown is free. */
  ghost predicate Billed(p: Profile, c: seq<Entry>, groups: seq<seq<Kind>>, types: seq<string>, fallback: int) {
    && FallbackTotal(c) == fallback && fallback == Charge(p, groups, types)
    && Lookup(c, ExtensionKind).quality == TypesQuality(p, types)
    && (AnyUnknown(c) ==> fallback > 0)
  }

  lemma EmptyAccounts(p: Profile)
    ensures Accounts(p, [], [], [], 0)
  {
  }

  lemma {:induction false} FitsPlus(declared: Quality, x: Sum, y: Sum)
    requires Fits(declared, x) && Fits(declared, y)
    ensures Fits(declared, Plus(x, y))
  {
    if x.parts > 0 || y.parts > 0 {
      WorseAbsorbs(x.quality, y.quality, declared, x.parts > 0);
    }
  }

  lemma WorseAbsorbs(a: Quality, b: Quality, declared: Quality, first: bool)
    requires if first then Worse(a, declared) == a else Worse(b, declared) == b
    ensures Worse(Worse(a, b), declared) == Worse(a, b)
  {
  }

  lemma {:induction false} ChargeAdds(p: Profile, groups: seq<seq<Kind>>, types: seq<string>,
                                      groups': seq<seq<Kind>>, types': seq<string>)
    ensures Charge(p, groups + groups', types + types') == Charge(p, groups, types) + Charge(p, groups', types')
  {
    GroupsConcat(p, groups, groups');
    TypesConcat(p, types, types');
    TimesAdds(p.Tokens(), GroupUnits(p, groups) + TypeUnits(p, types), GroupUnits(p, groups') + TypeUnits(p, types'));
  }

  ghost predicate AnyUnknown(c: seq<Entry>) {
    exists k :: Lookup(c, k).quality.Unknown?
  }

  lemma {:induction false} JoinUnknown(a: seq<Entry>, b: seq<Entry>, c: seq<Entry>)
    requires Joined(a, b, c)
    ensures AnyUnknown(c) ==> AnyUnknown(a) || AnyUnknown(b)
  {
    if k :| Lookup(c, k).quality.Unknown? {
      assert Lookup(c, k).quality == Worse(Lookup(a, k).quality, Lookup(b, k).quality);
    }
  }

  /** Kind by kind. */
  ghost predicate Tallies(p: Profile, c: seq<Entry>, groups: seq<seq<Kind>>) {
    forall k :: Lookup(c, k).parts == KindCount(groups, k) && Fits(p.Declared(k), Lookup(c, k))
  }

  lemma {:induction false} JoinTallies(p: Profile, a: seq<Entry>, groups: seq<seq<Kind>>, b: seq<Entry>,
                                       groups': seq<seq<Kind>>, c: seq<Entry>)
    requires Tallies(p, a, groups) && Tallies(p, b, groups') && Joined(a, b, c)
    ensures Tallies(p, c, groups + groups')
  {
    GroupsConcat(p, groups, groups');
    forall k
      ensures Lookup(c, k).parts == KindCount(groups + groups', k) && Fits(p.Declared(k), Lookup(c, k))
    {
      assert Lookup(c, k) == Plus(Lookup(a, k), Lookup(b, k));
      FitsPlus(p.Declared(k), Lookup(a, k), Lookup(b, k));
    }
  }

  lemma {:induction false} JoinAccounts(p: Profile, a: seq<Entry>, groups: seq<seq<Kind>>, types: seq<string>, f: int,
                                        b: seq<Entry>, groups': seq<seq<Kind>>, types': seq<string>, f': int,
                                        c: seq<Entry>,
                                        all: seq<string>, total: int)
    requires Accounts(p, a, groups, types, f) && Accounts(p, b, groups', types', f') && Joined(a, b, c)
    requires f >= 0 && f' >= 0 && Same(all, types + types') && total == f + f'
    ensures Accounts(p, c, groups + groups', all, total)
  {
    JoinTallies(p, a, groups, b, groups', c);
    JoinBills(p, a, groups, types, f, b, groups', types', f', c, all, total);
  }

  lemma {:induction false} JoinBills(p: Profile, a: seq<Entry>, groups: seq<seq<Kind>>, types: seq<string>, f: int,
                                     b: seq<Entry>, groups': seq<seq<Kind>>, types': seq<string>, f': int,
                                     c: seq<Entry>, all: seq<string>, total: int)
    requires Billed(p, a, groups, types, f) && Billed(p, b, groups', types', f') && Joined(a, b, c)
    requires f >= 0 && f' >= 0 && Same(all, types + types') && total == f + f'
    ensures Billed(p, c, groups + groups', all, total)
  {
    JoinCharges(p, groups, types, groups', types', all);
    JoinUnknown(a, b, c);
    assert Lookup(c, ExtensionKind) == Plus(Lookup(a, ExtensionKind), Lookup(b, ExtensionKind));
  }

  lemma {:induction false} JoinCharges(p: Profile, groups: seq<seq<Kind>>, types: seq<string>,
                                       groups': seq<seq<Kind>>, types': seq<string>, all: seq<string>)
    requires Same(all, types + types')
    ensures Charge(p, groups + groups', all) == Charge(p, groups, types) + Charge(p, groups', types')
    ensures TypesQuality(p, all) == Worse(TypesQuality(p, types), TypesQuality(p, types'))
  {
    ChargeAdds(p, groups, types, groups', types');
    TypesConcat(p, types, types');
  }
}
