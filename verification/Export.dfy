/** Which lineage leaves with an export, and under which names (export.go). */
module Export {
  import opened Results
  import opened Messages
  import opened Graphs
  import opened Lineage

  // ---------------------------------------------------------------- ancestors

  /** Every edge from an output of a record to an input of it. */
  ghost predicate SourcesOf(producers: Edges<ContentRef>, records: seq<Record>) {
    forall a, b :: Step(producers, a, b) <==>
        exists k :: 0 <= k < |records| && a in records[k].outputs && b in records[k].inputs
  }

  method BuildSources(records: seq<Record>) returns (producers: Edges<ContentRef>)
    ensures SourcesOf(producers, records)
  {
    producers := map[];
    for k := 0 to |records|
      invariant forall a, b :: Step(producers, a, b) <==>
                  exists j :: 0 <= j < k && a in records[j].outputs && b in records[j].inputs
    {
      ghost var before := producers;
      var outputs, inputs := records[k].outputs, records[k].inputs;
      for i := 0 to |outputs|
        invariant forall a, b :: Step(producers, a, b) <==> Step(before, a, b) || (a in outputs[..i] && b in inputs)
      {
        assert outputs[..i + 1] == outputs[..i] + [outputs[i]];
        producers := Extended(producers, outputs[i], inputs);
      }
      assert outputs[..|outputs|] == outputs;
    }
  }

  function Extended(e: Edges<ContentRef>, a: ContentRef, inputs: seq<ContentRef>): (more: Edges<ContentRef>)
    ensures forall x, y :: Step(more, x, y) <==> Step(e, x, y) || (x == a && y in inputs)
  {
    e[a := (if a in e then e[a] else []) + inputs]
  }

  /** The latest occurrence of some selected reference. */
  predicate IsRoot(records: seq<Record>, selected: seq<ContentRef>, a: ContentRef) {
    exists k :: 0 <= k < |selected| && LatestIn(records, selected[k], |records|) == Some(a)
  }

  ghost predicate IsAncestor(e: Edges<ContentRef>, records: seq<Record>, selected: seq<ContentRef>, b: ContentRef) {
    exists a :: IsRoot(records, selected, a) && Reaches(e, a, b)
  }

  /** While the queue is worked off: everything found is an ancestor, and nothing is lost. */
  ghost predicate Closing(e: Edges<ContentRef>, records: seq<Record>, selected: seq<ContentRef>,
                          needed: set<ContentRef>, queue: seq<ContentRef>) {
    && (forall a :: IsRoot(records, selected, a) ==> a in needed || a in queue)
    && (forall b :: b in needed || b in queue ==> IsAncestor(e, records, selected, b))
    && (forall a, b :: a in needed && Step(e, a, b) ==> b in needed || b in queue)
  }

  lemma {:induction false} ClosingSkips(e: Edges<ContentRef>, records: seq<Record>, selected: seq<ContentRef>,
                                        needed: set<ContentRef>, queue: seq<ContentRef>)
    requires Closing(e, records, selected, needed, queue) && |queue| > 0 && queue[0] in needed
    ensures Closing(e, records, selected, needed, queue[1..])
  {
    assert forall v :: v in queue <==> v == queue[0] || v in queue[1..];
  }

  lemma {:induction false} ClosingVisits(e: Edges<ContentRef>, records: seq<Record>, selected: seq<ContentRef>,
                                         needed: set<ContentRef>, queue: seq<ContentRef>)
    requires Closing(e, records, selected, needed, queue) && |queue| > 0
    ensures var next := if queue[0] in e then e[queue[0]] else [];
            Closing(e, records, selected, needed + {queue[0]}, queue[1..] + next)
  {
    var v, next := queue[0], if queue[0] in e then e[queue[0]] else [];
    assert forall u :: u in queue <==> u == v || u in queue[1..];
    assert forall u :: u in queue[1..] + next <==> u in queue[1..] || u in next;
    assert v in queue;
    forall w | w in next
      ensures IsAncestor(e, records, selected, w)
    {
      var a :| IsRoot(records, selected, a) && Reaches(e, a, v);
      assert Step(e, v, w);
      ReachesStep(e, a, v, w);
    }
  }

  lemma {:induction false} ClosingEnds(e: Edges<ContentRef>, records: seq<Record>, selected: seq<ContentRef>,
                                       needed: set<ContentRef>)
    requires Closing(e, records, selected, needed, [])
    ensures forall b :: b in needed <==> IsAncestor(e, records, selected, b)
  {
    assert Closed(e, needed);
    forall b | IsAncestor(e, records, selected, b)
      ensures b in needed
    {
      var a :| IsRoot(records, selected, a) && Reaches(e, a, b);
      ClosedHolds(e, needed, a, b);
    }
  }

  method Roots(records: seq<Record>, selected: seq<ContentRef>) returns (queue: seq<ContentRef>)
    ensures forall a :: a in queue <==> IsRoot(records, selected, a)
  {
    queue := [];
    for k := 0 to |selected|
      invariant forall a :: a in queue <==>
                  exists j :: 0 <= j < k && LatestIn(records, selected[j], |records|) == Some(a)
    {
      var found := FindLatest(records, selected[k]);
      if found.Some? {
        queue := queue + [found.value];
      }
    }
  }

  lemma {:induction false} ClosingStarts(e: Edges<ContentRef>, records: seq<Record>, selected: seq<ContentRef>,
                                         queue: seq<ContentRef>)
    requires forall a :: a in queue <==> IsRoot(records, selected, a)
    ensures Closing(e, records, selected, {}, queue)
  {
    forall b | b in queue
      ensures IsAncestor(e, records, selected, b)
    {
      ReachesSelf(e, b);
    }
  }

  /** Exactly the content the latest occurrences of the selected messages derive from, whatever the record order. */
  method ExportAncestors(records: seq<Record>, selected: seq<ContentRef>)
    returns (needed: set<ContentRef>, ghost e: Edges<ContentRef>)
    ensures SourcesOf(e, records)
    ensures forall b :: b in needed <==> IsAncestor(e, records, selected, b)
  {
    var producers := BuildSources(records);
    e := producers;
    var queue := Roots(records, selected);
    needed := CloseBackward(producers, records, selected, queue);
  }

  ghost function Universe(e: Edges<ContentRef>, roots: seq<ContentRef>): (all: set<ContentRef>)
    ensures Nodes(e) <= all && Within(roots, all)
  {
    Nodes(e) + set a | a in roots
  }

  ghost predicate Within(queue: seq<ContentRef>, all: set<ContentRef>) {
    forall k :: 0 <= k < |queue| ==> queue[k] in all
  }

  lemma {:induction false} WithinNext(e: Edges<ContentRef>, queue: seq<ContentRef>, all: set<ContentRef>)
    requires Within(queue, all) && |queue| > 0 && Nodes(e) <= all
    ensures queue[0] in all && Within(queue[1..], all)
    ensures Within(queue[1..] + if queue[0] in e then e[queue[0]] else [], all)
  {
    if queue[0] in e {
      forall k | 0 <= k < |e[queue[0]]|
        ensures e[queue[0]][k] in all
      {
        assert e[queue[0]][k] in Nodes(e);
      }
    }
  }

  method CloseBackward(producers: Edges<ContentRef>, ghost records: seq<Record>, ghost selected: seq<ContentRef>,
                       roots: seq<ContentRef>)
    returns (needed: set<ContentRef>)
    requires forall a :: a in roots <==> IsRoot(records, selected, a)
    ensures forall b :: b in needed <==> IsAncestor(producers, records, selected, b)
  {
    needed := {};
    var queue := roots;
    ghost var all := Universe(producers, roots);
    ClosingStarts(producers, records, selected, queue);
    while |queue| > 0
      invariant Closing(producers, records, selected, needed, queue)
      invariant Within(queue, all)
      decreases |all - needed|, |queue|
    {
      var ref := queue[0];
      WithinNext(producers, queue, all);
      if ref in needed {
        ClosingSkips(producers, records, selected, needed, queue);
        queue := queue[1..];
        continue;
      }
      ClosingVisits(producers, records, selected, needed, queue);
      FewerLeft(all, needed, ref);
      needed := needed + {ref};
      queue := queue[1..] + if ref in producers then producers[ref] else [];
    }
    assert queue == [];
    ClosingEnds(producers, records, selected, needed);
  }
}
