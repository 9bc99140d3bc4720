/** Building the segments of an estimate report (estimate_report.go, estimate_extensions.go). */
module EstimateBuild {
  import opened Results
  import opened Sequences
  import opened Messages
  import opened Budgets
  import opened Estimates

  datatype Shape =
    | Text | Image | Media(valid: bool) | Call(carriesMedia: bool) | Outcome(carriesMedia: bool) | OtherShape

  datatype Part = Part(shape: Shape, body: string)

  /** `accepted` is what the codec says about the value: registered, and unchanged by a round trip. */
  datatype Extra = Extra(typeId: string, accepted: bool, body: string)

  /** `ref` is the content reference of the message, if it has one. */
  datatype Input = Input(ref: Option<ContentRef>, parts: seq<Part>, extensions: seq<Extra>, rest: string)

  datatype InputSegment = InputSegment(name: string, messages: seq<Input>)

  // ---------------------------------------------------------------- one part

  function KindsOf(shape: Shape): (kinds: Option<seq<Kind>>)
    ensures kinds.Some? ==> kinds.value != [] && Distinct(kinds.value) && ExtensionKind !in kinds.value
  {
    match shape
    case Text => Some([TextKind])
    case Image => Some([ImageKind])
    case Media(valid) => if valid then Some([MediaKind]) else None
    case Call(media) => Some(if media then [CallKind, MediaKind] else [CallKind])
    case Outcome(media) => Some(if media then [ResultKind, MediaKind] else [ResultKind])
    case OtherShape => None
  }

  datatype Priced = Priced(coverage: seq<Entry>, fallback: int)

  /** One entry per kind of the part. */
  ghost predicate Rows(kinds: seq<Kind>, c: seq<Entry>) {
    |c| == |kinds| && forall i :: 0 <= i < |c| ==> c[i].kind == kinds[i] && c[i].parts == 1
  }

  method PartCoverage(p: Profile, kinds: seq<Kind>) returns (coverage: seq<Entry>, quality: Quality)
    ensures Rows(kinds, coverage)
    ensures forall i :: 0 <= i < |kinds| ==> coverage[i].quality == p.Declared(kinds[i]) && coverage[i].fallback == 0
    ensures quality.Unknown? <==> exists i :: 0 <= i < |kinds| && p.Declared(kinds[i]).Unknown?
  {
    coverage, quality := [], Counted;
    for i := 0 to |kinds|
      invariant |coverage| == i
      invariant forall j :: 0 <= j < i ==> coverage[j] == Entry(kinds[j], p.Declared(kinds[j]), 1, 0)
      invariant quality.Unknown? <==> exists j :: 0 <= j < i && p.Declared(kinds[j]).Unknown?
    {
      quality := Worse(quality, p.Declared(kinds[i]));
      coverage := coverage + [Entry(kinds[i], p.Declared(kinds[i]), 1, 0)];
    }
  }

  /** The fallback goes once, to the first kind that cannot be counted; then the whole part is unknown. */
  method ChargeFallback(coverage: seq<Entry>, kinds: seq<Kind>, tokens: int) returns (out: seq<Entry>, ghost at: nat)
    requires Rows(kinds, coverage) && forall i :: 0 <= i < |coverage| ==> coverage[i].fallback == 0
    requires exists i :: 0 <= i < |coverage| && coverage[i].quality.Unknown?
    ensures Rows(kinds, out) && at < |out|
    ensures forall i :: 0 <= i < |out| ==> out[i].quality.Unknown? && out[i].fallback == if i == at then tokens else 0
  {
    var first := 0;
    while !coverage[first].quality.Unknown?
      invariant first < |coverage| && forall j :: 0 <= j < first ==> !coverage[j].quality.Unknown?
      decreases |coverage| - first
    {
      first := first + 1;
    }
    at := first;
    out := [];
    for i := 0 to |coverage|
      invariant |out| == i
      invariant forall j :: 0 <= j < i ==> out[j] == Entry(kinds[j], Unknown, 1, if j == first then tokens else 0)
    {
      out := out + [coverage[i].(quality := Unknown, fallback := if i == first then tokens else 0)];
    }
  }

  lemma {:induction false} TotalNone(c: seq<Entry>)
    requires forall i :: 0 <= i < |c| ==> c[i].fallback == 0
    ensures FallbackTotal(c) == 0
  {
    if |c| > 0 {
      TotalNone(c[..|c| - 1]);
    }
  }

  lemma {:induction false} TotalOne(c: seq<Entry>, at: nat, tokens: int)
    requires at < |c| && forall i :: 0 <= i < |c| ==> c[i].fallback == if i == at then tokens else 0
    ensures FallbackTotal(c) == tokens
  {
    var last := |c| - 1;
    if at < last {
      TotalOne(c[..last], at, tokens);
    } else {
      TotalNone(c[..last]);
    }
  }

  lemma {:induction false} RowsLookup(kinds: seq<Kind>, c: seq<Entry>, k: Kind)
    requires Distinct(kinds) && Rows(kinds, c)
    ensures Proper(c) && KindCount([kinds], k) == (if k in kinds then 1 else 0)
    ensures k !in kinds ==> Lookup(c, k) == NOTHING
    ensures k in kinds ==> exists i :: 0 <= i < |c| && kinds[i] == k && Lookup(c, k) == SumOf(c[i])
  {
    DistinctCount(kinds, k);
    assert KindCount([kinds][..0], k) == 0;
    if k in kinds {
      var i :| 0 <= i < |kinds| && kinds[i] == k;
      LookupAt(c, i);
    } else {
      LookupNone(c, k);
    }
  }

  lemma {:induction false} SupportedAccounts(p: Profile, kinds: seq<Kind>, c: seq<Entry>)
    requires Distinct(kinds) && ExtensionKind !in kinds && Rows(kinds, c)
    requires forall i :: 0 <= i < |kinds| ==> c[i].quality == p.Declared(kinds[i]) && c[i].fallback == 0
    requires forall i :: 0 <= i < |kinds| ==> !p.Declared(kinds[i]).Unknown?
    ensures Accounts(p, c, [kinds], [], 0)
  {
    TotalNone(c);
    OneGroup(p, kinds);
    forall k
      ensures Lookup(c, k).parts == KindCount([kinds], k) && Fits(p.Declared(k), Lookup(c, k))
      ensures !Lookup(c, k).quality.Unknown?
    {
      RowsLookup(kinds, c, k);
    }
    RowsLookup(kinds, c, ExtensionKind);
  }

  lemma {:induction false} OneGroup(p: Profile, kinds: seq<Kind>)
    ensures GroupUnits(p, [kinds]) == if Unsupported(p, kinds) then 1 else 0
    ensures TypeUnits(p, []) == 0 && TypesQuality(p, []) == Counted
  {
    assert GroupUnits(p, [kinds][..0]) == 0;
  }

  lemma {:induction false} UnsupportedAccounts(p: Profile, kinds: seq<Kind>, c: seq<Entry>, at: nat)
    requires Distinct(kinds) && ExtensionKind !in kinds && Rows(kinds, c) && at < |c| && p.Tokens() > 0
    requires forall i :: 0 <= i < |c| ==> c[i].quality.Unknown? && c[i].fallback == if i == at then p.Tokens() else 0
    requires Unsupported(p, kinds)
    ensures Accounts(p, c, [kinds], [], p.Tokens())
  {
    TotalOne(c, at, p.Tokens());
    OneGroup(p, kinds);
    assert Times(p.Tokens(), 1) == Times(p.Tokens(), 0) + p.Tokens();
    forall k
      ensures Lookup(c, k).parts == KindCount([kinds], k) && Fits(p.Declared(k), Lookup(c, k))
    {
      RowsLookup(kinds, c, k);
    }
    RowsLookup(kinds, c, ExtensionKind);
  }

  method EstimatePart(p: Profile, kinds: seq<Kind>) returns (r: Option<Priced>)
    requires p.Valid() && kinds != [] && Distinct(kinds) && ExtensionKind !in kinds
    ensures r.Some? ==> Accounts(p, r.value.coverage, [kinds], [], r.value.fallback)
    ensures r.Some? ==> r.value.fallback == if Unsupported(p, kinds) then p.Tokens() else 0
    ensures r.None? <==> Unsupported(p, kinds) && p.fallback.None?
  {
    var coverage, quality := PartCoverage(p, kinds);
    if !quality.Unknown? {
      SupportedAccounts(p, kinds, coverage);
      return Some(Priced(coverage, 0));
    }
    if p.fallback.None? {
      return None;
    }
    var charged, at := ChargeFallback(coverage, kinds, p.fallback.value);
    UnsupportedAccounts(p, kinds, charged, at);
    r := Some(Priced(charged, p.fallback.value));
  }

  // ---------------------------------------------------------------- one message

  /** The kinds of every part, if all of them can be told. */
  function GroupsOf(parts: seq<Part>, n: nat): Option<seq<seq<Kind>>>
    requires n <= |parts|
  {
    if n == 0 then Some([])
    else
      var before, kinds := GroupsOf(parts, n - 1), KindsOf(parts[n - 1].shape);
      if before.None? || kinds.None? then None else Some(before.value + [kinds.value])
  }

  /** The parts the estimator is shown. */
  function KnownParts(p: Profile, parts: seq<Part>, n: nat): seq<Part>
    requires n <= |parts|
  {
    if n == 0 then []
    else
      var kinds := KindsOf(parts[n - 1].shape);
      KnownParts(p, parts, n - 1) + if kinds.Some? && !Unsupported(p, kinds.value) then [parts[n - 1]] else []
  }

  /** Every unit that cannot be counted has a price, and the prices together stay in the machine range. */
  predicate Priceable(p: Profile, groups: seq<seq<Kind>>, types: seq<string>) {
    && (GroupUnits(p, groups) + TypeUnits(p, types) > 0 ==> p.fallback.Some?)
    && Charge(p, groups, types) <= MAX_INT
  }

  lemma {:induction false} ChargeAtLeastZero(p: Profile, groups: seq<seq<Kind>>, types: seq<string>)
    requires p.Valid()
    ensures 0 <= Charge(p, groups, types)
  {
    TimesAtLeastZero(p.Tokens(), GroupUnits(p, groups) + TypeUnits(p, types));
  }

  lemma {:induction false} TimesAtLeastZero(tokens: int, units: nat)
    requires 0 <= tokens
    ensures 0 <= Times(tokens, units)
  {
    if units > 0 {
      TimesAtLeastZero(tokens, units - 1);
    }
  }

  /** Prices of two lists: each can be priced, and the sum still fits. */
  lemma {:induction false} PriceableJoins(p: Profile, groups: seq<seq<Kind>>, types: seq<string>,
                                          groups': seq<seq<Kind>>, types': seq<string>, all: seq<string>)
    requires p.Valid() && Same(all, types + types')
    ensures Priceable(p, groups + groups', all) <==>
            && Priceable(p, groups, types) && Priceable(p, groups', types')
            && Charge(p, groups, types) + Charge(p, groups', types') <= MAX_INT
  {
    GroupsConcat(p, groups, groups');
    TypesConcat(p, types, types');
    JoinCharges(p, groups, types, groups', types', all);
    ChargeAtLeastZero(p, groups, types);
    ChargeAtLeastZero(p, groups', types');
  }

  /** The first `n` parts can be told and priced. */
  predicate PartsPayable(p: Profile, parts: seq<Part>, n: nat)
    requires n <= |parts|
  {
    GroupsOf(parts, n).Some? && Priceable(p, GroupsOf(parts, n).value, [])
  }

  lemma {:induction false} PartsPayableBefore(p: Profile, parts: seq<Part>, n: nat, m: nat)
    requires p.Valid() && n <= m <= |parts| && PartsPayable(p, parts, m)
    ensures PartsPayable(p, parts, n)
    decreases m
  {
    if n < m {
      NothingBefore([]);
      PriceableJoins(p, GroupsOf(parts, m - 1).value, [], [KindsOf(parts[m - 1].shape).value], [], []);
      PartsPayableBefore(p, parts, n, m - 1);
    }
  }

  lemma {:induction false} PartsStayUnpaid(p: Profile, parts: seq<Part>, n: nat)
    requires p.Valid() && n <= |parts| && !PartsPayable(p, parts, n)
    ensures !PartsPayable(p, parts, |parts|)
  {
    if PartsPayable(p, parts, |parts|) {
      PartsPayableBefore(p, parts, n, |parts|);
    }
  }

  datatype PartsEstimate = PartsEstimate(known: seq<Part>, groups: seq<seq<Kind>>, coverage: seq<Entry>, fallback: int)

  /** What `estimateParts` has after `n` parts. */
  ghost predicate PartsDone(p: Profile, parts: seq<Part>, n: nat, e: PartsEstimate)
    requires n <= |parts|
  {
    && GroupsOf(parts, n) == Some(e.groups) && Same(e.known, KnownParts(p, parts, n))
    && Accounts(p, e.coverage, e.groups, [], e.fallback) && 0 <= e.fallback <= MAX_INT
  }

  lemma NoParts(p: Profile, parts: seq<Part>, e: PartsEstimate)
    requires p.Valid() && e == PartsEstimate([], [], [], 0)
    ensures PartsDone(p, parts, 0, e) && PartsPayable(p, parts, 0)
  {
    EmptyAccounts(p);
  }

  method EstimateParts(p: Profile, parts: seq<Part>) returns (r: Option<PartsEstimate>)
    requires p.Valid()
    ensures r.Some? ==> PartsDone(p, parts, |parts|, r.value)
    ensures r.Some? <==> PartsPayable(p, parts, |parts|)
  {
    var e := PartsEstimate([], [], [], 0);
    NoParts(p, parts, e);
    for n := 0 to |parts|
      invariant PartsDone(p, parts, n, e) && PartsPayable(p, parts, n)
    {
      var next := AddPart(p, parts, n, e);
      if next.None? {
        PartsStayUnpaid(p, parts, n + 1);
        return None;
      }
      e := next.value;
    }
    r := Some(e);
  }

  /** The part's price added to what the parts before it came to. */
  method PricePart(p: Profile, e: PartsEstimate, kinds: seq<Kind>) returns (r: Option<Priced>)
    requires p.Valid() && kinds != [] && Distinct(kinds) && ExtensionKind !in kinds
    requires Accounts(p, e.coverage, e.groups, [], e.fallback) && 0 <= e.fallback <= MAX_INT
    requires Priceable(p, e.groups, [])
    ensures r.Some? <==> Priceable(p, e.groups + [kinds], [])
    ensures r.Some? ==> Accounts(p, r.value.coverage, e.groups + [kinds], [], r.value.fallback)
                        && 0 <= r.value.fallback <= MAX_INT
    ensures r.Some? ==> (r.value.fallback == e.fallback <==> !Unsupported(p, kinds))
  {
    PartPriceable(p, e.groups, kinds);
    var part := EstimatePart(p, kinds);
    if part.None? {
      return None;
    }
    var fallback := AddTokens(e.fallback, part.value.fallback);
    if fallback.None? {
      return None;
    }
    var coverage := MergeEstimateCoverage(e.coverage, part.value.coverage);
    PartJoins(p, e, kinds, part.value, coverage, fallback.value);
    r := Some(Priced(coverage, fallback.value));
  }

  lemma {:induction false} PartPriceable(p: Profile, groups: seq<seq<Kind>>, kinds: seq<Kind>)
    requires p.Valid() && Priceable(p, groups, [])
    ensures Priceable(p, groups + [kinds], []) <==>
            if Unsupported(p, kinds) then p.fallback.Some? && Charge(p, groups, []) + p.Tokens() <= MAX_INT else true
  {
    NothingBefore([]);
    PriceableJoins(p, groups, [], [kinds], [], []);
    OneGroup(p, kinds);
    assert Times(p.Tokens(), 0) == 0 && Times(p.Tokens(), 1) == Times(p.Tokens(), 0) + p.Tokens();
    ChargeAtLeastZero(p, groups, []);
  }

  method AddPart(p: Profile, parts: seq<Part>, n: nat, e: PartsEstimate) returns (r: Option<PartsEstimate>)
    requires p.Valid() && n < |parts| && PartsDone(p, parts, n, e) && PartsPayable(p, parts, n)
    ensures r.Some? ==> PartsDone(p, parts, n + 1, r.value)
    ensures r.Some? <==> PartsPayable(p, parts, n + 1)
  {
    var kinds := KindsOf(parts[n].shape);
    if kinds.None? {
      return None;
    }
    var priced := PricePart(p, e, kinds.value);
    if priced.None? {
      return None;
    }
    assert e.known + [] == e.known;
    var known := if priced.value.fallback == e.fallback then e.known + [parts[n]] else e.known;
    r := Some(PartsEstimate(known, e.groups + [kinds.value], priced.value.coverage, priced.value.fallback));
  }

  lemma NothingBefore(types: seq<string>)
    ensures Same([] + types, types)
  {
    assert [] + types == types;
  }

  lemma {:induction false} PartJoins(p: Profile, e: PartsEstimate, kinds: seq<Kind>, part: Priced, coverage: seq<Entry>,
                                     total: int)
    requires Accounts(p, e.coverage, e.groups, [], e.fallback) && e.fallback >= 0
    requires Accounts(p, part.coverage, [kinds], [], part.fallback) && part.fallback >= 0
    requires Joined(e.coverage, part.coverage, coverage) && total == e.fallback + part.fallback
    ensures Accounts(p, coverage, e.groups + [kinds], [], total)
  {
    NothingBefore([]);
    JoinAccounts(p, e.coverage, e.groups, [], e.fallback, part.coverage, [kinds], [], part.fallback, coverage, [],
                 total);
  }

  // ---------------------------------------------------------------- extensions

  /** One group for every extension that takes part. */
  function ExtensionGroups(p: Profile, types: seq<string>): seq<seq<Kind>> {
    if |types| == 0 then []
    else
      var last := |types| - 1;
      ExtensionGroups(p, types[..last]) + if p.MetadataOnly(types[last]) then [] else [[ExtensionKind]]
  }

  /** The extensions the estimator is shown, and the types of all of them. */
  datatype Reading = Reading(known: seq<Extra>, types: seq<string>)

  predicate Shown(p: Profile, typeId: string) {
    !p.MetadataOnly(typeId) && !p.ExtensionQuality(typeId).Unknown?
  }

  function WithExtra(p: Profile, r: Reading, e: Extra): Reading {
    Reading(if Shown(p, e.typeId) then r.known + [e] else r.known, r.types + [e.typeId])
  }

  /** Nothing if one of the first `n` has no type or is not accepted. */
  function ReadOf(p: Profile, extras: seq<Extra>, n: nat): Option<Reading>
    requires n <= |extras|
  {
    if n == 0 then Some(Reading([], []))
    else
      var before := ReadOf(p, extras, n - 1);
      if before.None? || extras[n - 1].typeId == "" || !extras[n - 1].accepted then None
      else Some(WithExtra(p, before.value, extras[n - 1]))
  }

  predicate NamedTypes(types: seq<string>) {
    forall i :: 0 <= i < |types| ==> types[i] != ""
  }

  lemma {:induction false} ReadNamed(p: Profile, extras: seq<Extra>, n: nat)
    requires n <= |extras| && ReadOf(p, extras, n).Some?
    ensures NamedTypes(ReadOf(p, extras, n).value.types)
  {
    if n > 0 {
      ReadNamed(p, extras, n - 1);
    }
  }

  /** The first `n` extensions can be read and priced. */
  predicate ExtrasPayable(p: Profile, extras: seq<Extra>, n: nat)
    requires n <= |extras|
  {
    && ReadOf(p, extras, n).Some?
    && Priceable(p, ExtensionGroups(p, ReadOf(p, extras, n).value.types), ReadOf(p, extras, n).value.types)
  }

  lemma {:induction false} ExtrasPayableButLast(p: Profile, extras: seq<Extra>, n: nat)
    requires p.Valid() && n < |extras| && ExtrasPayable(p, extras, n + 1)
    ensures Same(ExtrasPayable(p, extras, n), true)
  {
    var types := ReadOf(p, extras, n).value.types;
    TypesPriceable(p, types, extras[n].typeId);
    assert Same(Priceable(p, ExtensionGroups(p, types), types), true);
  }

  lemma {:induction false} ExtrasPayableBefore(p: Profile, extras: seq<Extra>, n: nat, m: nat)
    requires p.Valid() && n <= m <= |extras| && ExtrasPayable(p, extras, m)
    ensures ExtrasPayable(p, extras, n)
    decreases m
  {
    if n < m {
      ExtrasPayableButLast(p, extras, m - 1);
      ExtrasPayableBefore(p, extras, n, m - 1);
    }
  }

  lemma {:induction false} ExtrasStayUnpaid(p: Profile, extras: seq<Extra>, n: nat)
    requires p.Valid() && n <= |extras| && !ExtrasPayable(p, extras, n)
    ensures !ExtrasPayable(p, extras, |extras|)
  {
    if ExtrasPayable(p, extras, |extras|) {
      ExtrasPayableBefore(p, extras, n, |extras|);
    }
  }

  lemma NoExtras(p: Profile, extras: seq<Extra>, e: ExtrasEstimate)
    requires p.Valid() && e == ExtrasEstimate(Reading([], []), [], 0)
    ensures ExtrasDone(p, extras, 0, e) && ExtrasPayable(p, extras, 0)
  {
    EmptyAccounts(p);
  }

  lemma {:induction false} TypesPriceable(p: Profile, types: seq<string>, typeId: string)
    requires p.Valid()
    ensures Priceable(p, ExtensionGroups(p, types + [typeId]), types + [typeId]) <==>
            && Priceable(p, ExtensionGroups(p, types), types)
            && if UnsupportedType(p, typeId) then
                 p.fallback.Some? && Charge(p, ExtensionGroups(p, types), types) + p.Tokens() <= MAX_INT
               else true
  {
    var one := if p.MetadataOnly(typeId) then [] else [[ExtensionKind]];
    TypesSnoc(p, types, typeId);
    PriceableJoins(p, ExtensionGroups(p, types), types, one, [typeId], types + [typeId]);
    OneType(p, typeId);
    assert Times(p.Tokens(), 0) == 0 && Times(p.Tokens(), 1) == Times(p.Tokens(), 0) + p.Tokens();
    ChargeAtLeastZero(p, ExtensionGroups(p, types), types);
  }

  datatype ExtrasEstimate = ExtrasEstimate(read: Reading, coverage: seq<Entry>, fallback: int)

  ghost predicate ExtrasDone(p: Profile, extras: seq<Extra>, n: nat, e: ExtrasEstimate)
    requires n <= |extras|
  {
    && ReadOf(p, extras, n) == Some(e.read) && 0 <= e.fallback <= MAX_INT
    && Accounts(p, e.coverage, ExtensionGroups(p, e.read.types), e.read.types, e.fallback)
  }

  lemma {:induction false} OneType(p: Profile, typeId: string)
    ensures TypeUnits(p, [typeId]) == if UnsupportedType(p, typeId) then 1 else 0
    ensures TypesQuality(p, [typeId]) == if p.MetadataOnly(typeId) then Counted else p.ExtensionQuality(typeId)
    ensures GroupUnits(p, []) == 0 && GroupUnits(p, [[ExtensionKind]]) == 0
  {
    assert [typeId][..0] == [];
    assert [[ExtensionKind]][..0] == [];
    assert ExtensionKind in [ExtensionKind];
  }

  lemma {:induction false} MetadataAccounts(p: Profile, typeId: string)
    requires p.MetadataOnly(typeId)
    ensures Accounts(p, [], [], [typeId], 0)
  {
    EmptyAccounts(p);
    OneType(p, typeId);
  }

  lemma {:induction false} ExtensionAccounts(p: Profile, typeId: string, c: seq<Entry>, fallback: int)
    requires !p.MetadataOnly(typeId) && c == [Entry(ExtensionKind, p.ExtensionQuality(typeId), 1, fallback)]
    requires fallback == if p.ExtensionQuality(typeId).Unknown? then p.Tokens() else 0
    requires p.ExtensionQuality(typeId).Unknown? ==> p.Tokens() > 0
    ensures Accounts(p, c, [[ExtensionKind]], [typeId], fallback)
  {
    var kinds := [ExtensionKind];
    OneType(p, typeId);
    assert Rows(kinds, c);
    if fallback > 0 {
      TotalOne(c, 0, fallback);
    } else {
      TotalNone(c);
    }
    assert Times(p.Tokens(), 0) == 0 && Times(p.Tokens(), 1) == Times(p.Tokens(), 0) + p.Tokens();
    forall k
      ensures Lookup(c, k).parts == KindCount([kinds], k) && Fits(p.Declared(k), Lookup(c, k))
      ensures Lookup(c, k) == if k == ExtensionKind then SumOf(c[0]) else NOTHING
    {
      RowsLookup(kinds, c, k);
    }
  }

  lemma {:induction false} TypesSnoc(p: Profile, types: seq<string>, typeId: string)
    ensures ExtensionGroups(p, types + [typeId]) ==
            ExtensionGroups(p, types) + if p.MetadataOnly(typeId) then [] else [[ExtensionKind]]
  {
    assert (types + [typeId])[..|types|] == types;
  }

  /** One extension: its coverage and its fallback, nothing for metadata. */
  method EstimateExtra(p: Profile, typeId: string) returns (r: Option<Priced>)
    requires p.Valid()
    ensures r.Some? ==> Accounts(p, r.value.coverage, if p.MetadataOnly(typeId) then [] else [[ExtensionKind]],
                                 [typeId], r.value.fallback)
    ensures r.Some? ==> r.value.fallback == if UnsupportedType(p, typeId) then p.Tokens() else 0
    ensures r.None? <==> UnsupportedType(p, typeId) && p.fallback.None?
  {
    if p.MetadataOnly(typeId) {
      MetadataAccounts(p, typeId);
      return Some(Priced([], 0));
    }
    var quality := p.ExtensionQuality(typeId);
    if quality.Unknown? && p.fallback.None? {
      return None;
    }
    var fallback := if quality.Unknown? then p.fallback.value else 0;
    var coverage := [Entry(ExtensionKind, quality, 1, fallback)];
    ExtensionAccounts(p, typeId, coverage, fallback);
    r := Some(Priced(coverage, fallback));
  }

  lemma {:induction false} ExtraJoins(p: Profile, e: ExtrasEstimate, typeId: string, extra: Priced,
                                      coverage: seq<Entry>, total: int)
    requires Accounts(p, e.coverage, ExtensionGroups(p, e.read.types), e.read.types, e.fallback) && e.fallback >= 0
    requires Accounts(p, extra.coverage, if p.MetadataOnly(typeId) then [] else [[ExtensionKind]], [typeId],
                      extra.fallback)
    requires Joined(e.coverage, extra.coverage, coverage) && extra.fallback >= 0 && total == e.fallback + extra.fallback
    ensures Accounts(p, coverage, ExtensionGroups(p, e.read.types + [typeId]), e.read.types + [typeId], total)
  {
    TypesSnoc(p, e.read.types, typeId);
    JoinAccounts(p, e.coverage, ExtensionGroups(p, e.read.types), e.read.types, e.fallback, extra.coverage,
                 if p.MetadataOnly(typeId) then [] else [[ExtensionKind]], [typeId], extra.fallback, coverage,
                 e.read.types + [typeId], total);
  }

  method AddExtra(p: Profile, extras: seq<Extra>, n: nat, e: ExtrasEstimate) returns (r: Option<ExtrasEstimate>)
    requires p.Valid() && n < |extras| && ExtrasDone(p, extras, n, e) && ExtrasPayable(p, extras, n)
    ensures r.Some? ==> ExtrasDone(p, extras, n + 1, r.value)
    ensures r.Some? <==> ExtrasPayable(p, extras, n + 1)
  {
    var typeId := extras[n].typeId;
    if typeId == "" || !extras[n].accepted {
      return None;
    }
    var priced := PriceExtra(p, e, typeId);
    if priced.None? {
      return None;
    }
    r := Some(ExtrasEstimate(WithExtra(p, e.read, extras[n]), priced.value.coverage, priced.value.fallback));
  }

  method PriceExtra(p: Profile, e: ExtrasEstimate, typeId: string) returns (r: Option<Priced>)
    requires p.Valid() && 0 <= e.fallback <= MAX_INT
    requires Accounts(p, e.coverage, ExtensionGroups(p, e.read.types), e.read.types, e.fallback)
    requires Priceable(p, ExtensionGroups(p, e.read.types), e.read.types)
    ensures r.Some? <==> Priceable(p, ExtensionGroups(p, e.read.types + [typeId]), e.read.types + [typeId])
    ensures r.Some? ==> 0 <= r.value.fallback <= MAX_INT
    ensures r.Some? ==> Accounts(p, r.value.coverage, ExtensionGroups(p, e.read.types + [typeId]),
                                 e.read.types + [typeId], r.value.fallback)
  {
    TypesPriceable(p, e.read.types, typeId);
    var extra := EstimateExtra(p, typeId);
    if extra.None? {
      return None;
    }
    var fallback := AddTokens(e.fallback, extra.value.fallback);
    if fallback.None? {
      return None;
    }
    var coverage := MergeEstimateCoverage(e.coverage, extra.value.coverage);
    ExtraJoins(p, e, typeId, extra.value, coverage, fallback.value);
    r := Some(Priced(coverage, fallback.value));
  }

  method EstimateExtensions(p: Profile, extras: seq<Extra>) returns (r: Option<ExtrasEstimate>)
    requires p.Valid()
    ensures r.Some? ==> ExtrasDone(p, extras, |extras|, r.value)
    ensures r.Some? <==> ExtrasPayable(p, extras, |extras|)
  {
    var e := ExtrasEstimate(Reading([], []), [], 0);
    NoExtras(p, extras, e);
    for n := 0 to |extras|
      invariant ExtrasDone(p, extras, n, e) && ExtrasPayable(p, extras, n)
    {
      var next := AddExtra(p, extras, n, e);
      if next.None? {
        ExtrasStayUnpaid(p, extras, n + 1);
        return None;
      }
      e := next.value;
    }
    r := Some(e);
  }

  // ---------------------------------------------------------------- the groups of a message

  function ExtensionCount(groups: seq<seq<Kind>>): nat {
    if |groups| == 0 then 0
    else ExtensionCount(groups[..|groups| - 1]) + if ExtensionKind in groups[|groups| - 1] then 1 else 0
  }

  function Participating(p: Profile, types: seq<string>): nat {
    if |types| == 0 then 0
    else Participating(p, types[..|types| - 1]) + if p.MetadataOnly(types[|types| - 1]) then 0 else 1
  }

  predicate GroupsWhole(groups: seq<seq<Kind>>) {
    forall i :: 0 <= i < |groups| ==> groups[i] != [] && (ExtensionKind in groups[i] ==> |groups[i]| == 1)
  }

  /** Parts and extension groups of one message, as the validator wants them. */
  predicate GroupsFit(p: Profile, groups: seq<seq<Kind>>, types: seq<string>) {
    GroupsWhole(groups) && NamedTypes(types) && ExtensionCount(groups) == Participating(p, types)
  }

  lemma {:induction false} ExtensionCountConcat(a: seq<seq<Kind>>, b: seq<seq<Kind>>)
    ensures ExtensionCount(a + b) == ExtensionCount(a) + ExtensionCount(b)
    decreases |b|
  {
    if |b| == 0 {
      assert a + b == a;
    } else {
      var last := |b| - 1;
      ExtensionCountConcat(a, b[..last]);
      assert (a + b)[..|a + b| - 1] == a + b[..last];
    }
  }

  lemma {:induction false} PartGroups(parts: seq<Part>, n: nat)
    requires n <= |parts| && GroupsOf(parts, n).Some?
    ensures GroupsWhole(GroupsOf(parts, n).value) && ExtensionCount(GroupsOf(parts, n).value) == 0
  {
    if n > 0 {
      PartGroups(parts, n - 1);
      var before, kinds := GroupsOf(parts, n - 1).value, KindsOf(parts[n - 1].shape).value;
      assert (before + [kinds])[..|before|] == before;
    }
  }

  lemma {:induction false} TypeGroupsWhole(p: Profile, types: seq<string>)
    ensures GroupsWhole(ExtensionGroups(p, types))
  {
    if |types| > 0 {
      TypeGroupsWhole(p, types[..|types| - 1]);
    }
  }

  lemma {:induction false} OneExtensionCounts()
    ensures ExtensionCount([[ExtensionKind]]) == 1 && ExtensionCount([]) == 0
  {
    assert ExtensionKind in [ExtensionKind];
    assert ExtensionCount([[ExtensionKind]][..0]) == 0;
  }

  lemma {:induction false} TypeGroupsCount(p: Profile, types: seq<string>)
    ensures ExtensionCount(ExtensionGroups(p, types)) == Participating(p, types)
  {
    if |types| > 0 {
      var last := |types| - 1;
      var before := ExtensionGroups(p, types[..last]);
      TypeGroupsCount(p, types[..last]);
      OneExtensionCounts();
      ExtensionCountConcat(before, if p.MetadataOnly(types[last]) then [] else [[ExtensionKind]]);
    }
  }

  lemma {:induction false} MessageGroups(p: Profile, parts: seq<Part>, types: seq<string>)
    requires GroupsOf(parts, |parts|).Some? && NamedTypes(types)
    ensures GroupsFit(p, GroupsOf(parts, |parts|).value + ExtensionGroups(p, types), types)
  {
    var a, b := GroupsOf(parts, |parts|).value, ExtensionGroups(p, types);
    PartGroups(parts, |parts|);
    TypeGroupsWhole(p, types);
    TypeGroupsCount(p, types);
    ExtensionCountConcat(a, b);
  }
}
