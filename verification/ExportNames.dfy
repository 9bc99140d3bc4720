/** The exported records and the renaming of occurrences (export.go). */
module ExportNames {
  import opened Results
  import opened Sequences
  import opened Messages
  import opened Graphs
  import opened Lineage
  import opened Export

  // ---------------------------------------------------------------- decimal numbers

  function Digit(n: nat): char
    requires n < 10
  {
    ('0' as int + n) as char
  }

  function Decimal(n: nat): (s: string)
    ensures |s| > 0 && (|s| == 1 <==> n < 10)
  {
    if n < 10 then [Digit(n)] else Decimal(n / 10) + [Digit(n % 10)]
  }

  /** Different numbers are written differently. */
  lemma {:induction false} DecimalInjective(a: nat, b: nat)
    requires Decimal(a) == Decimal(b)
    ensures a == b
  {
    var s, t := Decimal(a), Decimal(b);
    if a < 10 {
      assert s[0] == t[0];
    } else {
      assert s[|s| - 1] == Digit(a % 10) && t[|t| - 1] == Digit(b % 10);
      assert s[..|s| - 1] == Decimal(a / 10) && t[..|t| - 1] == Decimal(b / 10);
      DecimalInjective(a / 10, b / 10);
    }
  }

  function Alias(n: nat): string {
    "export/" + Decimal(n)
  }

  lemma {:induction false} AliasInjective(a: nat, b: nat)
    requires Alias(a) == Alias(b)
    ensures a == b
  {
    assert Alias(a)[7..] == Decimal(a) && Alias(b)[7..] == Decimal(b);
    DecimalInjective(a, b);
  }

  // ---------------------------------------------------------------- renaming

  type Names = map<string, string>

  /** No alias is used twice. */
  predicate Injective(names: Names) {
    forall x, y :: x in names && y in names && names[x] == names[y] ==> x == y
  }

  /** Aliases are numbered in order of first use. */
  ghost predicate Numbered(names: Names) {
    && Injective(names)
    && forall x :: x in names ==> IsAlias(names[x], |names|)
  }

  ghost predicate IsAlias(alias: string, bound: nat) {
    exists n: nat :: 1 <= n <= bound && alias == Alias(n)
  }

  lemma {:induction false} AliasIsNew(names: Names)
    requires Numbered(names)
    ensures forall x :: x in names ==> names[x] != Alias(|names| + 1)
  {
    forall x | x in names
      ensures names[x] != Alias(|names| + 1)
    {
      assert IsAlias(names[x], |names|);
      var n: nat :| 1 <= n <= |names| && names[x] == Alias(n);
      if Alias(n) == Alias(|names| + 1) {
        AliasInjective(n, |names| + 1);
      }
    }
  }

  lemma {:induction false} OneMoreName(names: Names, occurrence: string, alias: string)
    requires occurrence !in names
    ensures |names[occurrence := alias]| == |names| + 1
  {
    var more := names[occurrence := alias];
    assert more.Keys == names.Keys + {occurrence};
    assert |more| == |more.Keys| && |names| == |names.Keys|;
  }

  predicate Extends(more: Names, names: Names) {
    forall x :: x in names ==> x in more && more[x] == names[x]
  }

  predicate Known(names: Names, ref: ContentRef) {
    ref.occurrence == "" || ref.occurrence in names
  }

  /** Only the occurrence changes, and only if there is one. */
  function Renamed(names: Names, ref: ContentRef): ContentRef {
    if ref.occurrence in names && ref.occurrence != "" then ref.(occurrence := names[ref.occurrence]) else ref
  }

  lemma {:induction false} NextAlias(names: Names, occurrence: string)
    requires Numbered(names) && occurrence !in names
    ensures var more := names[occurrence := Alias(|names| + 1)];
            Numbered(more) && Extends(more, names) && |more| == |names| + 1
  {
    var more := names[occurrence := Alias(|names| + 1)];
    AliasIsNew(names);
    OneMoreName(names, occurrence, Alias(|names| + 1));
    forall x | x in more
      ensures IsAlias(more[x], |more|)
    {
      if x != occurrence {
        assert IsAlias(names[x], |names|);
        var n: nat :| 1 <= n <= |names| && names[x] == Alias(n);
      } else {
        assert more[x] == Alias(|more|);
      }
    }
  }

  /** The occurrence names given out so far in one export. */
  class Renamer {
    var names: Names

    constructor ()
      ensures names == map[] && Valid()
    {
      names := map[];
    }

    ghost predicate Valid()
      reads this
    {
      Numbered(names)
    }

    method Exported(ref: ContentRef) returns (r: ContentRef)
      requires Valid()
      modifies this
      ensures Valid() && Extends(names, old(names)) && Known(names, ref) && r == Renamed(names, ref)
    {
      if ref.occurrence != "" && ref.occurrence !in names {
        NextAlias(names, ref.occurrence);
        names := names[ref.occurrence := Alias(|names| + 1)];
      }
      r := Renamed(names, ref);
    }
  }

  // ---------------------------------------------------------------- exported records

  datatype ExportRecord = ExportRecord(
    outputs: seq<ContentRef>, transform: Option<Descriptor>, inputs: seq<ContentRef>, opaqueDigests: seq<string>,
    omitted: nat)

  datatype Disclosure = Disclosure(allowed: set<ContentRef>, opaqueDigests: bool, transforms: bool)

  predicate Approved(d: Disclosure, ref: ContentRef) {
    ref.Base() in d.allowed
  }

  /** The approved outputs among the first `n`. */
  function Outputs(refs: seq<ContentRef>, needed: set<ContentRef>, d: Disclosure, n: nat): seq<ContentRef>
    requires n <= |refs|
  {
    if n == 0 then []
    else Outputs(refs, needed, d, n - 1) + if refs[n - 1] in needed && Approved(d, refs[n - 1]) then [refs[n - 1]]
      else []
  }

  /** The approved inputs among the first `n`. */
  function Inputs(refs: seq<ContentRef>, d: Disclosure, n: nat): seq<ContentRef>
    requires n <= |refs|
  {
    if n == 0 then [] else Inputs(refs, d, n - 1) + if Approved(d, refs[n - 1]) then [refs[n - 1]] else []
  }

  function Digests(refs: seq<ContentRef>, d: Disclosure, n: nat): seq<string>
    requires n <= |refs|
  {
    if n == 0 then []
    else Digests(refs, d, n - 1) + if !Approved(d, refs[n - 1]) && d.opaqueDigests then [refs[n - 1].digest] else []
  }

  function Omitted(refs: seq<ContentRef>, d: Disclosure, n: nat): nat
    requires n <= |refs|
  {
    if n == 0 then 0 else Omitted(refs, d, n - 1) + if !Approved(d, refs[n - 1]) && !d.opaqueDigests then 1 else 0
  }

  function RenamedAll(names: Names, refs: seq<ContentRef>): (out: seq<ContentRef>)
    ensures |out| == |refs|
  {
    seq(|refs|, i requires 0 <= i < |refs| => Renamed(names, refs[i]))
  }

  predicate AllKnown(names: Names, refs: seq<ContentRef>) {
    forall i :: 0 <= i < |refs| ==> Known(names, refs[i])
  }

  /** Names that are given stay given. */
  lemma {:induction false} RenamedStays(names: Names, more: Names, refs: seq<ContentRef>)
    requires AllKnown(names, refs) && Extends(more, names)
    ensures AllKnown(more, refs) && RenamedAll(more, refs) == RenamedAll(names, refs)
  {
    forall i | 0 <= i < |refs|
      ensures Renamed(more, refs[i]) == Renamed(names, refs[i]) && Known(more, refs[i])
    {
      assert Known(names, refs[i]);
    }
  }

  /** `out` is how `refs` are disclosed under `names`. */
  ghost predicate Shown(names: Names, refs: seq<ContentRef>, out: seq<ContentRef>) {
    AllKnown(names, refs) && Same(out, RenamedAll(names, refs))
  }

  lemma {:induction false} ShownStays(names: Names, more: Names, refs: seq<ContentRef>, out: seq<ContentRef>)
    requires Shown(names, refs, out) && Extends(more, names)
    ensures Shown(more, refs, out)
  {
    RenamedStays(names, more, refs);
  }

  lemma {:induction false} ShownSnoc(names: Names, more: Names, refs: seq<ContentRef>, out: seq<ContentRef>,
                                     ref: ContentRef)
    requires Shown(names, refs, out) && Extends(more, names) && Known(more, ref)
    ensures Shown(more, refs + [ref], out + [Renamed(more, ref)])
  {
    RenamedStays(names, more, refs);
    assert RenamedAll(more, refs + [ref]) == RenamedAll(more, refs) + [Renamed(more, ref)];
  }

  method ApprovedOutputs(r: Record, needed: set<ContentRef>, d: Disclosure, renamer: Renamer)
    returns (outputs: seq<ContentRef>)
    requires renamer.Valid()
    modifies renamer
    ensures renamer.Valid() && Extends(renamer.names, old(renamer.names))
    ensures Shown(renamer.names, Outputs(r.outputs, needed, d, |r.outputs|), outputs)
  {
    outputs := [];
    for k := 0 to |r.outputs|
      invariant renamer.Valid() && Extends(renamer.names, old(renamer.names))
      invariant Shown(renamer.names, Outputs(r.outputs, needed, d, k), outputs)
    {
      var ref := r.outputs[k];
      ghost var before, done := renamer.names, Outputs(r.outputs, needed, d, k);
      if ref in needed && Approved(d, ref) {
        var out := renamer.Exported(ref);
        ShownSnoc(before, renamer.names, done, outputs, ref);
        outputs := outputs + [out];
      } else {
        assert done + [] == done;
      }
    }
  }

  /** What the inputs of a record disclose: approved references renamed, the rest as digests or only counted. */
  ghost predicate Disclosed(names: Names, refs: seq<ContentRef>, d: Disclosure, n: nat, inputs: seq<ContentRef>,
                            digests: seq<string>, omitted: nat)
    requires n <= |refs|
  {
    && Shown(names, Inputs(refs, d, n), inputs)
    && Same(digests, Digests(refs, d, n)) && omitted == Omitted(refs, d, n)
  }

  lemma {:induction false} DiscloseNamed(names: Names, more: Names, refs: seq<ContentRef>, d: Disclosure, k: nat,
                                         inputs: seq<ContentRef>, digests: seq<string>, omitted: nat)
    requires k < |refs| && Disclosed(names, refs, d, k, inputs, digests, omitted)
    requires Approved(d, refs[k]) && Extends(more, names) && Known(more, refs[k])
    ensures Disclosed(more, refs, d, k + 1, inputs + [Renamed(more, refs[k])], digests, omitted)
  {
    ShownSnoc(names, more, Inputs(refs, d, k), inputs, refs[k]);
    assert Digests(refs, d, k) + [] == Digests(refs, d, k);
  }

  lemma {:induction false} DiscloseDigest(names: Names, refs: seq<ContentRef>, d: Disclosure, k: nat,
                                          inputs: seq<ContentRef>, digests: seq<string>, omitted: nat)
    requires k < |refs| && Disclosed(names, refs, d, k, inputs, digests, omitted)
    requires !Approved(d, refs[k]) && d.opaqueDigests
    ensures Disclosed(names, refs, d, k + 1, inputs, digests + [refs[k].digest], omitted)
  {
    assert Inputs(refs, d, k) + [] == Inputs(refs, d, k);
  }

  lemma {:induction false} DiscloseCount(names: Names, refs: seq<ContentRef>, d: Disclosure, k: nat,
                                         inputs: seq<ContentRef>, digests: seq<string>, omitted: nat)
    requires k < |refs| && Disclosed(names, refs, d, k, inputs, digests, omitted)
    requires !Approved(d, refs[k]) && !d.opaqueDigests
    ensures Disclosed(names, refs, d, k + 1, inputs, digests, omitted + 1)
  {
    assert Inputs(refs, d, k) + [] == Inputs(refs, d, k);
    assert Digests(refs, d, k) + [] == Digests(refs, d, k);
  }

  method AppendInputs(refs: seq<ContentRef>, d: Disclosure, renamer: Renamer)
    returns (inputs: seq<ContentRef>, digests: seq<string>, omitted: nat)
    requires renamer.Valid()
    modifies renamer
    ensures renamer.Valid() && Extends(renamer.names, old(renamer.names))
    ensures Disclosed(renamer.names, refs, d, |refs|, inputs, digests, omitted)
  {
    inputs, digests, omitted := [], [], 0;
    for k := 0 to |refs|
      invariant renamer.Valid() && Extends(renamer.names, old(renamer.names))
      invariant Disclosed(renamer.names, refs, d, k, inputs, digests, omitted)
    {
      ghost var before := renamer.names;
      if Approved(d, refs[k]) {
        var out := renamer.Exported(refs[k]);
        DiscloseNamed(before, renamer.names, refs, d, k, inputs, digests, omitted);
        inputs := inputs + [out];
      } else if d.opaqueDigests {
        DiscloseDigest(before, refs, d, k, inputs, digests, omitted);
        digests := digests + [refs[k].digest];
      } else {
        DiscloseCount(before, refs, d, k, inputs, digests, omitted);
        omitted := omitted + 1;
      }
    }
  }

  // ---------------------------------------------------------------- the whole export

  /** Where an exported record comes from: a record of the graph, or the sanitizing of a message. */
  datatype Source = FromRecord(record: Record) | Sanitized(original: ContentRef, public: ContentRef)

  /** `e` is exactly the disclosed part of its source, under the names of the whole export. */
  ghost predicate Discloses(names: Names, needed: set<ContentRef>, d: Disclosure, source: Source, e: ExportRecord) {
    match source
    case FromRecord(r) =>
      && Shown(names, Outputs(r.outputs, needed, d, |r.outputs|), e.outputs)
      && Disclosed(names, r.inputs, d, |r.inputs|, e.inputs, e.opaqueDigests, e.omitted)
      && e.transform == if d.transforms then Some(r.transform) else None
    case Sanitized(original, public) =>
      && e.outputs == [public] && e.transform.None?
      && Disclosed(names, [original], d, 1, e.inputs, e.opaqueDigests, e.omitted)
  }

  ghost predicate AllDisclose(names: Names, needed: set<ContentRef>, d: Disclosure, sources: seq<Source>,
                              result: seq<ExportRecord>) {
    |sources| == |result| && forall k :: 0 <= k < |result| ==> Discloses(names, needed, d, sources[k], result[k])
  }

  lemma {:induction false} DisclosesStays(names: Names, more: Names, needed: set<ContentRef>, d: Disclosure,
                                          source: Source, e: ExportRecord)
    requires Discloses(names, needed, d, source, e) && Extends(more, names)
    ensures Discloses(more, needed, d, source, e)
  {
    match source
    case FromRecord(r) =>
      ShownStays(names, more, Outputs(r.outputs, needed, d, |r.outputs|), e.outputs);
      ShownStays(names, more, Inputs(r.inputs, d, |r.inputs|), e.inputs);
    case Sanitized(original, _) =>
      ShownStays(names, more, Inputs([original], d, 1), e.inputs);
  }

  lemma {:induction false} AllDiscloseSnoc(names: Names, more: Names, needed: set<ContentRef>, d: Disclosure,
                                           sources: seq<Source>,
                                           result: seq<ExportRecord>, source: Source, e: ExportRecord)
    requires AllDisclose(names, needed, d, sources, result) && Extends(more, names)
             && Discloses(more, needed, d, source, e)
    ensures AllDisclose(more, needed, d, sources + [source], result + [e])
  {
    forall k | 0 <= k < |result|
      ensures Discloses(more, needed, d, sources[k], result[k])
    {
      DisclosesStays(names, more, needed, d, sources[k], result[k]);
    }
  }

  /** The records with an approved, needed output, in order. */
  function RecordSources(records: seq<Record>, needed: set<ContentRef>, d: Disclosure, n: nat): seq<Source>
    requires n <= |records|
  {
    if n == 0 then []
    else
      RecordSources(records, needed, d, n - 1) +
      if Outputs(records[n - 1].outputs, needed, d, |records[n - 1].outputs|) != [] then [FromRecord(records[n - 1])]
        else []
  }

  function SanitizedSources(originals: seq<ContentRef>, public: seq<ContentRef>, n: nat): seq<Source>
    requires n <= |originals| == |public|
  {
    if n == 0 then []
    else
      SanitizedSources(originals, public, n - 1) +
      if originals[n - 1] != public[n - 1] then [Sanitized(originals[n - 1], public[n - 1])] else []
  }

  method ExportRecords(records: seq<Record>, needed: set<ContentRef>, d: Disclosure, renamer: Renamer)
    returns (result: seq<ExportRecord>)
    requires renamer.Valid()
    modifies renamer
    ensures renamer.Valid()
            && AllDisclose(renamer.names, needed, d, RecordSources(records, needed, d, |records|), result)
  {
    result := [];
    for k := 0 to |records|
      invariant renamer.Valid() && AllDisclose(renamer.names, needed, d, RecordSources(records, needed, d, k), result)
    {
      ghost var before, sources := renamer.names, RecordSources(records, needed, d, k);
      assert sources + [] == sources;
      var more := ExportOne(records[k], needed, d, renamer);
      if more.None? {
        AllDiscloseStays(before, renamer.names, needed, d, sources, result);
        continue;
      }
      AllDiscloseSnoc(before, renamer.names, needed, d, sources, result, FromRecord(records[k]), more.value);
      result := result + [more.value];
    }
  }

  lemma {:induction false} AllDiscloseStays(names: Names, more: Names, needed: set<ContentRef>, d: Disclosure,
                                            sources: seq<Source>, result: seq<ExportRecord>)
    requires AllDisclose(names, needed, d, sources, result) && Extends(more, names)
    ensures AllDisclose(more, needed, d, sources, result)
  {
    forall k | 0 <= k < |result|
      ensures Discloses(more, needed, d, sources[k], result[k])
    {
      DisclosesStays(names, more, needed, d, sources[k], result[k]);
    }
  }

  method ExportOne(r: Record, needed: set<ContentRef>, d: Disclosure, renamer: Renamer)
    returns (e: Option<ExportRecord>)
    requires renamer.Valid()
    modifies renamer
    ensures renamer.Valid() && Extends(renamer.names, old(renamer.names))
    ensures e.Some? <==> Outputs(r.outputs, needed, d, |r.outputs|) != []
    ensures e.Some? ==> Discloses(renamer.names, needed, d, FromRecord(r), e.value)
  {
    var outputs := ApprovedOutputs(r, needed, d, renamer);
    if |outputs| == 0 {
      return None;
    }
    ghost var before := renamer.names;
    var inputs, digests, omitted := AppendInputs(r.inputs, d, renamer);
    ShownStays(before, renamer.names, Outputs(r.outputs, needed, d, |r.outputs|), outputs);
    e := Some(ExportRecord(outputs, if d.transforms then Some(r.transform) else None, inputs, digests, omitted));
  }

  method ExportSanitized(originals: seq<ContentRef>, public: seq<ContentRef>, needed: set<ContentRef>, d: Disclosure,
                         renamer: Renamer, start: seq<ExportRecord>, ghost sources: seq<Source>)
    returns (result: seq<ExportRecord>)
    requires |originals| == |public| && renamer.Valid() && AllDisclose(renamer.names, needed, d, sources, start)
    modifies renamer
    ensures renamer.Valid()
    ensures AllDisclose(renamer.names, needed, d, sources + SanitizedSources(originals, public, |originals|), result)
  {
    result := start;
    assert sources + [] == sources;
    for k := 0 to |originals|
      invariant renamer.Valid()
      invariant AllDisclose(renamer.names, needed, d, sources + SanitizedSources(originals, public, k), result)
    {
      ghost var before, done := renamer.names, SanitizedSources(originals, public, k);
      assert done + [] == done;
      if originals[k] != public[k] {
        var inputs, digests, omitted := AppendInputs([originals[k]], d, renamer);
        var e := ExportRecord([public[k]], None, inputs, digests, omitted);
        AllDiscloseSnoc(before, renamer.names, needed, d, sources + done, result, Sanitized(originals[k], public[k]),
                        e);
        ConcatAssoc(sources, done, [Sanitized(originals[k], public[k])]);
        result := result + [e];
      }
    }
  }

  /** The bases an export may name: what was approved, and what the export does not change. */
  ghost predicate AllowedIs(allowed: set<ContentRef>, lineageRefs: seq<ContentRef>, originals: seq<ContentRef>,
                            public: seq<ContentRef>)
    requires |originals| == |public|
  {
    forall ref :: ref in allowed <==>
      || (exists k :: 0 <= k < |lineageRefs| && lineageRefs[k].Base() == ref)
      || (exists k :: 0 <= k < |originals| && originals[k] == public[k] == ref)
  }

  method BuildAllowed(lineageRefs: seq<ContentRef>, originals: seq<ContentRef>, public: seq<ContentRef>)
    returns (allowed: Option<set<ContentRef>>)
    requires |originals| == |public|
    ensures allowed.Some? <==> forall k :: 0 <= k < |lineageRefs| ==> lineageRefs[k].Valid()
    ensures allowed.Some? ==> AllowedIs(allowed.value, lineageRefs, originals, public)
  {
    var found: set<ContentRef> := {};
    for k := 0 to |lineageRefs|
      invariant forall j :: 0 <= j < k ==> lineageRefs[j].Valid()
      invariant forall ref :: ref in found <==> exists j :: 0 <= j < k && lineageRefs[j].Base() == ref
    {
      if !lineageRefs[k].Valid() {
        return None;
      }
      found := found + {lineageRefs[k].Base()};
    }
    ghost var approved := found;
    for k := 0 to |originals|
      invariant forall ref :: ref in found <==>
                  ref in approved || exists j :: 0 <= j < k && originals[j] == public[j] == ref
    {
      if originals[k] == public[k] {
        found := found + {originals[k]};
      }
    }
    allowed := Some(found);
  }

  /** The lineage of an export: only ancestors of the selected messages, only approved or sanitized references, one
      renaming for the whole export. */
  method ExportLineage(records: seq<Record>, originals: seq<ContentRef>, public: seq<ContentRef>,
                       lineageRefs: seq<ContentRef>, opaqueDigests: bool, transforms: bool)
    returns (result: Option<seq<ExportRecord>>, ghost e: Edges<ContentRef>, ghost needed: set<ContentRef>,
             ghost d: Disclosure, ghost names: Names)
    requires |originals| == |public|
    ensures result.Some? <==> forall k :: 0 <= k < |lineageRefs| ==> lineageRefs[k].Valid()
    ensures result.Some? ==>
              && SourcesOf(e, records) && (forall ref :: ref in needed <==> IsAncestor(e, records, originals, ref))
              && AllowedIs(d.allowed, lineageRefs, originals, public) && d.opaqueDigests == opaqueDigests
              && d.transforms == transforms
              && Numbered(names)
              && AllDisclose(names, needed, d,
                             RecordSources(records, needed, d, |records|) + SanitizedSources(originals, public,
                                                                                             |originals|), result.value)
  {
    e, needed, d, names := map[], {}, Disclosure({}, false, false), map[];
    var allowed := BuildAllowed(lineageRefs, originals, public);
    if allowed.None? {
      return None, e, needed, d, names;
    }
    var ancestors;
    ancestors, e := ExportAncestors(records, originals);
    var disclosure := Disclosure(allowed.value, opaqueDigests, transforms);
    var renamer := new Renamer();
    var found := ExportRecords(records, ancestors, disclosure, renamer);
    found := ExportSanitized(originals, public, ancestors, disclosure, renamer, found,
                             RecordSources(records, ancestors, disclosure, |records|));
    needed, d, names := ancestors, disclosure, renamer.names;
    result := Some(found);
  }

  // ---------------------------------------------------------------- what an export names

  predicate AllApproved(d: Disclosure, refs: seq<ContentRef>) {
    forall ref :: ref in refs ==> Approved(d, ref)
  }

  lemma {:induction false} OutputsApproved(refs: seq<ContentRef>, needed: set<ContentRef>, d: Disclosure, n: nat)
    requires n <= |refs|
    ensures AllApproved(d, Outputs(refs, needed, d, n)) && forall ref :: ref in Outputs(refs, needed, d, n) ==>
              ref in needed
  {
    if n > 0 {
      OutputsApproved(refs, needed, d, n - 1);
    }
  }

  lemma {:induction false} InputsApproved(refs: seq<ContentRef>, d: Disclosure, n: nat)
    requires n <= |refs|
    ensures AllApproved(d, Inputs(refs, d, n))
  {
    if n > 0 {
      InputsApproved(refs, d, n - 1);
    }
  }

  /** `shown` is the disclosed form of an approved reference. */
  ghost predicate ApprovedName(names: Names, d: Disclosure, shown: ContentRef) {
    exists ref :: Approved(d, ref) && Known(names, ref) && shown == Renamed(names, ref)
  }

  lemma {:induction false} ShownApproved(names: Names, d: Disclosure, refs: seq<ContentRef>, out: seq<ContentRef>)
    requires Shown(names, refs, out) && AllApproved(d, refs)
    ensures forall k :: 0 <= k < |out| ==> ApprovedName(names, d, out[k])
  {
    forall k | 0 <= k < |out|
      ensures ApprovedName(names, d, out[k])
    {
      assert refs[k] in refs && Known(names, refs[k]) && out[k] == Renamed(names, refs[k]);
    }
  }

  /** An exported record names only approved references, except the public form of a sanitized message. */
  lemma {:induction false} OnlyApprovedNamed(names: Names, needed: set<ContentRef>, d: Disclosure, source: Source,
                                             e: ExportRecord)
    requires Discloses(names, needed, d, source, e)
    ensures forall k :: 0 <= k < |e.inputs| ==> ApprovedName(names, d, e.inputs[k])
    ensures forall k :: 0 <= k < |e.outputs| ==>
              ApprovedName(names, d, e.outputs[k]) || (source.Sanitized? && e.outputs[k] == source.public)
  {
    match source
    case FromRecord(r) =>
      OutputsApproved(r.outputs, needed, d, |r.outputs|);
      InputsApproved(r.inputs, d, |r.inputs|);
      ShownApproved(names, d, Outputs(r.outputs, needed, d, |r.outputs|), e.outputs);
      ShownApproved(names, d, Inputs(r.inputs, d, |r.inputs|), e.inputs);
    case Sanitized(original, _) =>
      InputsApproved([original], d, 1);
      ShownApproved(names, d, Inputs([original], d, 1), e.inputs);
  }

  /** Two references are disclosed alike only if they are the same reference. */
  lemma {:induction false} RenamingIsInjective(names: Names, a: ContentRef, b: ContentRef)
    requires Numbered(names) && Known(names, a) && Known(names, b) && Renamed(names, a) == Renamed(names, b)
    ensures a == b
  {
    if a.occurrence != "" {
      assert IsAlias(names[a.occurrence], |names|);
    }
    if b.occurrence != "" {
      assert IsAlias(names[b.occurrence], |names|);
    }
  }
}
