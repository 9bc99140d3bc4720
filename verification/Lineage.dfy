/** The graph of content revisions (lineage.go). */
module Lineage {
  import opened Results
  import opened Sequences
  import opened Messages
  import opened Graphs

  datatype Record = Record(
    id: Name, transform: Descriptor, inputs: seq<ContentRef>, outputs: seq<ContentRef>, stage: string)

  datatype Lineage = Lineage(records: seq<Record>, unresolved: seq<ContentRef>)

  // ---------------------------------------------------------------- records

  predicate GoodRecord(r: Record) {
    && r.id != Anonymous && (|r.inputs| > 0 || |r.outputs| > 0) && r.transform.Valid()
    && GoodRefs(r.inputs) && GoodRefs(r.outputs)
  }

  method ValidateRecord(r: Record) returns (ok: bool)
    ensures ok <==> GoodRecord(r)
  {
    if r.id == Anonymous || (|r.inputs| == 0 && |r.outputs| == 0) || !r.transform.Valid() {
      return false;
    }
    var inputs := ValidateRefs(r.inputs);
    if !inputs {
      return false;
    }
    ok := ValidateRefs(r.outputs);
  }

  // ---------------------------------------------------------------- derivation

  /** The record derives `output` from `input`; passing a reference through derives nothing. */
  predicate DerivesIn(r: Record, output: ContentRef, input: ContentRef) {
    output in r.outputs && input in r.inputs && input != output
  }

  predicate Derives(records: seq<Record>, output: ContentRef, input: ContentRef) {
    exists k :: 0 <= k < |records| && DerivesIn(records[k], output, input)
  }

  /** The record produces something new under that reference. */
  predicate Produces(r: Record, output: ContentRef) {
    output in r.outputs && (|r.inputs| == 0 || exists k :: 0 <= k < |r.inputs| && r.inputs[k] != output)
  }

  predicate ProducedBefore(records: seq<Record>, n: nat, output: ContentRef)
    requires n <= |records|
  {
    exists k :: 0 <= k < n && Produces(records[k], output)
  }

  /** No reference has two changing producers among the first `n` records. */
  ghost predicate OneProducer(records: seq<Record>, n: nat)
    requires n <= |records|
  {
    forall k, ref :: 0 <= k < n && Produces(records[k], ref) ==> !ProducedBefore(records, k, ref)
  }

  /** The first `n` records are well formed and have distinct identities. */
  predicate GoodRecords(records: seq<Record>, n: nat)
    requires n <= |records|
  {
    && (forall k :: 0 <= k < n ==> GoodRecord(records[k]))
    && (forall j, k :: 0 <= j < k < n ==> records[j].id != records[k].id)
  }

  ghost predicate WellFormed(l: Lineage) {
    && GoodRecords(l.records, |l.records|)
    && OneProducer(l.records, |l.records|)
    && (forall k :: 0 <= k < |l.unresolved| ==> l.unresolved[k].Valid())
  }

  ghost predicate DerivationPath(records: seq<Record>, p: seq<ContentRef>) {
    |p| > 0 && forall i :: 0 < i < |p| ==> Derives(records, p[i - 1], p[i])
  }

  /** Some content is derived from itself. */
  ghost predicate DerivedFromItself(records: seq<Record>) {
    exists p: seq<ContentRef> :: DerivationPath(records, p) && |p| > 1 && p[0] == p[|p| - 1]
  }

  // ---------------------------------------------------------------- building the edges

  /** The edges hold exactly the derivations of the records given so far. */
  ghost predicate EdgesOf(e: Edges<ContentRef>, records: seq<Record>) {
    forall a, b :: Step(e, a, b) <==> Derives(records, a, b)
  }

  method AddOutput(edges: Edges<ContentRef>, producers: map<ContentRef, Name>, r: Record, output: ContentRef)
    returns (ok: bool, edges': Edges<ContentRef>, producers': map<ContentRef, Name>)
    requires output in r.outputs
    ensures ok <==> !(Produces(r, output) && output in producers)
    ensures forall a, b :: Step(edges', a, b) <==> Step(edges, a, b) || (a == output && DerivesIn(r, a, b))
    ensures ok ==> forall a :: a in producers' <==> a in producers || (a == output && Produces(r, a))
  {
    var changed := |r.inputs| == 0;
    edges', producers' := edges, producers;
    for k := 0 to |r.inputs|
      invariant changed <==> |r.inputs| == 0 || exists j :: 0 <= j < k && r.inputs[j] != output
      invariant forall a, b :: Step(edges', a, b) <==>
                  Step(edges, a, b) || (a == output && b in r.inputs[..k] && b != output)
    {
      var input := r.inputs[k];
      assert r.inputs[..k + 1] == r.inputs[..k] + [input];
      if input != output {
        changed := true;
        edges' := Appended(edges', output, input);
      }
    }
    assert r.inputs[..|r.inputs|] == r.inputs;
    ok := true;
    if changed {
      if output in producers {
        return false, edges', producers';
      }
      producers' := producers'[output := r.id];
    }
  }

  function Appended(e: Edges<ContentRef>, a: ContentRef, b: ContentRef): (more: Edges<ContentRef>)
    ensures forall x, y :: Step(more, x, y) <==> Step(e, x, y) || (x == a && y == b)
  {
    e[a := (if a in e then e[a] else []) + [b]]
  }

  method AddRecord(edges: Edges<ContentRef>, producers: map<ContentRef, Name>, r: Record)
    returns (ok: bool, edges': Edges<ContentRef>, producers': map<ContentRef, Name>)
    requires Distinct(r.outputs)
    ensures ok <==> forall a :: a in producers ==> !Produces(r, a)
    ensures ok ==> forall a, b :: Step(edges', a, b) <==> Step(edges, a, b) || DerivesIn(r, a, b)
    ensures ok ==> forall a :: a in producers' <==> a in producers || Produces(r, a)
  {
    edges', producers' := edges, producers;
    for k := 0 to |r.outputs|
      invariant forall a, b :: Step(edges', a, b) <==> Step(edges, a, b) || (a in r.outputs[..k] && DerivesIn(r, a, b))
      invariant forall a :: a in producers' <==> a in producers || (a in r.outputs[..k] && Produces(r, a))
      invariant forall a :: a in producers && a in r.outputs[..k] ==> !Produces(r, a)
    {
      assert r.outputs[..k + 1] == r.outputs[..k] + [r.outputs[k]];
      assert r.outputs[k] !in r.outputs[..k];
      ok, edges', producers' := AddOutput(edges', producers', r, r.outputs[k]);
      if !ok {
        return;
      }
    }
    assert r.outputs[..|r.outputs|] == r.outputs;
    ok := true;
  }

  lemma {:induction false} DerivesSnoc(records: seq<Record>, k: nat, a: ContentRef, b: ContentRef)
    requires k < |records|
    ensures Derives(records[..k + 1], a, b) <==> Derives(records[..k], a, b) || DerivesIn(records[k], a, b)
  {
    assert forall j :: 0 <= j < k ==> records[..k + 1][j] == records[j] == records[..k][j];
    if DerivesIn(records[k], a, b) {
      assert DerivesIn(records[..k + 1][k], a, b);
    }
  }

  /** The producers are exactly the references some record so far produces. */
  ghost predicate ProducersOf(producers: map<ContentRef, Name>, records: seq<Record>, n: nat)
    requires n <= |records|
  {
    forall a :: a in producers <==> ProducedBefore(records, n, a)
  }

  lemma {:induction false} EdgesGrow(e: Edges<ContentRef>, f: Edges<ContentRef>, records: seq<Record>, k: nat)
    requires k < |records| && EdgesOf(e, records[..k])
    requires forall a, b :: Step(f, a, b) <==> Step(e, a, b) || DerivesIn(records[k], a, b)
    ensures EdgesOf(f, records[..k + 1])
  {
    forall a, b
      ensures Step(f, a, b) <==> Derives(records[..k + 1], a, b)
    {
      DerivesSnoc(records, k, a, b);
      assert Step(e, a, b) <==> Derives(records[..k], a, b);
    }
  }

  lemma {:induction false} ProducersGrow(p: map<ContentRef, Name>, q: map<ContentRef, Name>, records: seq<Record>,
                                         k: nat)
    requires k < |records| && ProducersOf(p, records, k)
    requires forall a :: a in q <==> a in p || Produces(records[k], a)
    ensures ProducersOf(q, records, k + 1)
  {
    forall a
      ensures a in q <==> ProducedBefore(records, k + 1, a)
    {
      assert a in p <==> ProducedBefore(records, k, a);
      if Produces(records[k], a) {
        assert ProducedBefore(records, k + 1, a);
      }
    }
  }

  lemma {:induction false} OneProducerGrows(p: map<ContentRef, Name>, records: seq<Record>, k: nat)
    requires k < |records| && ProducersOf(p, records, k) && OneProducer(records, k)
    ensures OneProducer(records, k + 1) <==> forall a :: a in p ==> !Produces(records[k], a)
  {
    if OneProducer(records, k + 1) {
      forall a | a in p
        ensures !Produces(records[k], a)
      {
        assert ProducedBefore(records, k, a);
      }
    } else {
      var j, a :| 0 <= j < k + 1 && Produces(records[j], a) && ProducedBefore(records, j, a);
      assert j == k && a in p;
    }
  }

  lemma OneProducerPrefix(records: seq<Record>, k: nat, n: nat)
    requires k <= n <= |records|
    ensures OneProducer(records, n) ==> OneProducer(records, k)
  {
  }

  function IdsOf(records: seq<Record>, n: nat): set<Name>
    requires n <= |records|
  {
    set k | 0 <= k < n :: records[k].id
  }

  lemma GoodRecordsGrow(records: seq<Record>, k: nat)
    requires k < |records| && GoodRecords(records, k)
    ensures GoodRecords(records, k + 1) <==> GoodRecord(records[k]) && records[k].id !in IdsOf(records, k)
    ensures GoodRecords(records, |records|) ==> GoodRecords(records, k + 1)
    ensures IdsOf(records, k + 1) == IdsOf(records, k) + {records[k].id}
  {
  }

  /** Read the records: refuse what is malformed, collect the edges otherwise. */
  method CollectEdges(records: seq<Record>) returns (ok: bool, edges: Edges<ContentRef>)
    ensures ok <==> GoodRecords(records, |records|) && OneProducer(records, |records|)
    ensures ok ==> EdgesOf(edges, records)
  {
    var ids: set<Name> := {};
    var producers: map<ContentRef, Name> := map[];
    edges := map[];
    for k := 0 to |records|
      invariant GoodRecords(records, k) && ids == IdsOf(records, k)
      invariant OneProducer(records, k) && ProducersOf(producers, records, k) && EdgesOf(edges, records[..k])
    {
      GoodRecordsGrow(records, k);
      var good := ValidateRecord(records[k]);
      if !good || records[k].id in ids {
        return false, edges;
      }
      ids := ids + {records[k].id};
      OneProducerGrows(producers, records, k);
      var added, more, makers := AddRecord(edges, producers, records[k]);
      if !added {
        OneProducerPrefix(records, k + 1, |records|);
        return false, edges;
      }
      EdgesGrow(edges, more, records, k);
      ProducersGrow(producers, makers, records, k);
      edges, producers := more, makers;
    }
    assert records[..|records|] == records;
    ok := true;
  }

  lemma {:induction false} SameCycles(e: Edges<ContentRef>, records: seq<Record>)
    requires EdgesOf(e, records)
    ensures Cyclic(e) <==> DerivedFromItself(records)
  {
    forall p: seq<ContentRef>
      ensures Path(e, p) <==> DerivationPath(records, p)
    {
      assert forall i :: 0 < i < |p| ==> (Step(e, p[i - 1], p[i]) <==> Derives(records, p[i - 1], p[i]));
    }
    if Cyclic(e) {
      var p: seq<ContentRef> :| Cycle(e, p);
      assert DerivationPath(records, p) && |p| > 1 && p[0] == p[|p| - 1];
    }
    if DerivedFromItself(records) {
      var p: seq<ContentRef> :| DerivationPath(records, p) && |p| > 1 && p[0] == p[|p| - 1];
      assert Cycle(e, p);
    }
  }

  /** Accepts exactly the well-formed graphs in which nothing is derived from itself. */
  method Validate(l: Lineage) returns (ok: bool)
    ensures ok <==> WellFormed(l) && !DerivedFromItself(l.records)
  {
    var collected, edges := CollectEdges(l.records);
    if !collected {
      return false;
    }
    for k := 0 to |l.unresolved|
      invariant forall j :: 0 <= j < k ==> l.unresolved[j].Valid()
    {
      if !l.unresolved[k].Valid() {
        return false;
      }
    }
    SameCycles(edges, l.records);
    var search := new DepthFirst(edges);
    ok := search.Search();
  }

  /** Passing content through unchanged never makes a graph unacceptable by a cycle. */
  lemma {:induction false} PassThroughIsHarmless(records: seq<Record>, r: Record)
    requires r.inputs == r.outputs && |r.inputs| == 1
    ensures DerivedFromItself(records + [r]) <==> DerivedFromItself(records)
  {
    var more := records + [r];
    forall a, b
      ensures Derives(more, a, b) <==> Derives(records, a, b)
    {
      assert more[..|records|] == records && more[..|records| + 1] == more;
      DerivesSnoc(more, |records|, a, b);
      assert !DerivesIn(r, a, b);
    }
    assert forall p: seq<ContentRef> :: DerivationPath(more, p) <==> DerivationPath(records, p);
  }

  // ---------------------------------------------------------------- latest occurrences

  /** The first reference from `i` on with that base. */
  function OccurrenceIn(refs: seq<ContentRef>, base: ContentRef, i: nat): Option<ContentRef>
    requires i <= |refs|
    decreases |refs| - i
  {
    if i == |refs| then None else if refs[i].Base() == base then Some(refs[i]) else OccurrenceIn(refs, base, i + 1)
  }

  /** The latest occurrence of a base reference among the outputs of the first `n` records. */
  function LatestIn(records: seq<Record>, base: ContentRef, n: nat): Option<ContentRef>
    requires n <= |records|
  {
    if n == 0 then None
    else
      var found := OccurrenceIn(records[n - 1].outputs, base, 0);
      if found.Some? then found else LatestIn(records, base, n - 1)
  }

  method FindLatest(records: seq<Record>, base: ContentRef) returns (found: Option<ContentRef>)
    ensures found == LatestIn(records, base, |records|)
  {
    for n := |records| downto 0
      invariant LatestIn(records, base, |records|) == LatestIn(records, base, n)
    {
      var refs := records[n].outputs;
      for i := 0 to |refs|
        invariant OccurrenceIn(refs, base, 0) == OccurrenceIn(refs, base, i)
      {
        if refs[i].Base() == base {
          return Some(refs[i]);
        }
      }
    }
    found := None;
  }
}
