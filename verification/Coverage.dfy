/** Which inputs reach which final outputs (manifest_coverage.go). */
module Coverage {
  import opened Messages
  import opened Graphs
  import opened Lineage

  const SUMMARIZE := "summarize"

  // ---------------------------------------------------------------- derivation trails

  /** A chain of derivations walked backwards from a root: each hop goes from an output of a record to one of
      its inputs. */
  datatype Trail = Start | Via(before: Trail, record: Record, input: ContentRef)

  function End(root: ContentRef, t: Trail): ContentRef {
    if t.Start? then root else t.input
  }

  predicate Follows(records: seq<Record>, root: ContentRef, t: Trail) {
    t.Via? ==>
      && t.record in records && t.input in t.record.inputs
      && Follows(records, root, t.before) && End(root, t.before) in t.record.outputs
  }

  predicate Summarizes(r: Record, inherited: seq<Name>) {
    r.stage == SUMMARIZE && r.id !in inherited
  }

  /** Some hop is a summary that was not inherited. */
  predicate Crosses(t: Trail, inherited: seq<Name>) {
    t.Via? && (Crosses(t.before, inherited) || Summarizes(t.record, inherited))
  }

  datatype Visit = Visit(ref: ContentRef, summarized: bool)

  ghost predicate LeadsTo(records: seq<Record>, inherited: seq<Name>, root: ContentRef, v: Visit, t: Trail) {
    Follows(records, root, t) && End(root, t) == v.ref && Crosses(t, inherited) == v.summarized
  }

  ghost predicate Reached(records: seq<Record>, inherited: seq<Name>, root: ContentRef, v: Visit) {
    exists t :: LeadsTo(records, inherited, root, v, t)
  }

  predicate Hop(r: Record, inherited: seq<Name>, v: Visit, w: Visit) {
    v.ref in r.outputs && w.ref in r.inputs && w.summarized == (v.summarized || Summarizes(r, inherited))
  }

  ghost predicate Hops(records: seq<Record>, inherited: seq<Name>, v: Visit, w: Visit) {
    exists k :: 0 <= k < |records| && Hop(records[k], inherited, v, w)
  }

  lemma {:induction false} ReachedStart(records: seq<Record>, inherited: seq<Name>, root: ContentRef)
    ensures Reached(records, inherited, root, Visit(root, false))
  {
    assert LeadsTo(records, inherited, root, Visit(root, false), Start);
  }

  lemma {:induction false} ReachedHop(records: seq<Record>, inherited: seq<Name>, root: ContentRef, v: Visit, w: Visit)
    requires Reached(records, inherited, root, v) && Hops(records, inherited, v, w)
    ensures Reached(records, inherited, root, w)
  {
    var t :| LeadsTo(records, inherited, root, v, t);
    var k :| 0 <= k < |records| && Hop(records[k], inherited, v, w);
    assert LeadsTo(records, inherited, root, w, Via(t, records[k], w.ref));
  }

  // ---------------------------------------------------------------- the walk

  datatype Reach = Reach(output: ContentRef, summarized: bool)

  type Reaches = map<ContentRef, seq<Reach>>

  function At<V>(m: map<ContentRef, seq<V>>, ref: ContentRef): seq<V> {
    if ref in m then m[ref] else []
  }

  /** The producers of a reference are the records that list it as an output. */
  ghost predicate MakersOf(producers: map<ContentRef, seq<Record>>, records: seq<Record>) {
    forall ref, r :: r in At(producers, ref) <==> r in records && ref in r.outputs
  }

  method Expand(producers: seq<Record>, inherited: seq<Name>, v: Visit) returns (next: seq<Visit>)
    ensures forall w :: w in next <==> exists k :: 0 <= k < |producers| && Feeds(producers[k], inherited, v, w)
  {
    next := [];
    for k := 0 to |producers|
      invariant forall w :: w in next <==> exists j :: 0 <= j < k && Feeds(producers[j], inherited, v, w)
    {
      var summary := v.summarized || Summarizes(producers[k], inherited);
      ghost var before := next;
      for i := 0 to |producers[k].inputs|
        invariant forall w :: w in next <==>
                    w in before || (w.ref in producers[k].inputs[..i] && w.summarized == summary)
      {
        assert producers[k].inputs[..i + 1] == producers[k].inputs[..i] + [producers[k].inputs[i]];
        next := next + [Visit(producers[k].inputs[i], summary)];
      }
      assert producers[k].inputs[..|producers[k].inputs|] == producers[k].inputs;
    }
  }

  predicate Feeds(r: Record, inherited: seq<Name>, v: Visit, w: Visit) {
    w.ref in r.inputs && w.summarized == (v.summarized || Summarizes(r, inherited))
  }

  lemma {:induction false} FeedsIsHop(producers: map<ContentRef, seq<Record>>, records: seq<Record>,
                                      inherited: seq<Name>, v: Visit, w: Visit)
    requires MakersOf(producers, records)
    ensures (exists k :: 0 <= k < |At(producers, v.ref)| && Feeds(At(producers, v.ref)[k], inherited, v, w)) <==>
            Hops(records, inherited, v, w)
  {
    var own := At(producers, v.ref);
    if k :| 0 <= k < |own| && Feeds(own[k], inherited, v, w) {
      assert own[k] in own && own[k] in records;
      var j :| 0 <= j < |records| && records[j] == own[k];
      assert Hop(records[j], inherited, v, w);
    }
    if j :| 0 <= j < |records| && Hop(records[j], inherited, v, w) {
      assert records[j] in own;
      var k :| 0 <= k < |own| && own[k] == records[j];
      assert Feeds(own[k], inherited, v, w);
    }
  }

  /** Everything a walk from `root` can visit. */
  ghost function Universe(records: seq<Record>, root: ContentRef): set<Visit> {
    var refs := {root} + set k, i | 0 <= k < |records| && 0 <= i < |records[k].inputs| :: records[k].inputs[i];
    (set ref | ref in refs :: Visit(ref, false)) + (set ref | ref in refs :: Visit(ref, true))
  }

  lemma {:induction false} HopInUniverse(records: seq<Record>, inherited: seq<Name>, root: ContentRef, v: Visit,
                                         w: Visit)
    requires Hops(records, inherited, v, w)
    ensures w in Universe(records, root)
  {
    var k :| 0 <= k < |records| && Hop(records[k], inherited, v, w);
    var i :| 0 <= i < |records[k].inputs| && records[k].inputs[i] == w.ref;
  }

  /** What the queue and the visited set satisfy while the walk runs. */
  ghost predicate Walking(records: seq<Record>, inherited: seq<Name>, root: ContentRef, seen: set<Visit>,
                          queue: seq<Visit>) {
    && (Visit(root, false) in seen || Visit(root, false) in queue)
    && (forall v :: v in seen || v in queue ==> Reached(records, inherited, root, v) && v in Universe(records, root))
    && (forall v, w :: v in seen && Hops(records, inherited, v, w) ==> w in seen || w in queue)
  }

  lemma {:induction false} WalkStarts(records: seq<Record>, inherited: seq<Name>, root: ContentRef)
    ensures Walking(records, inherited, root, {}, [Visit(root, false)])
  {
    ReachedStart(records, inherited, root);
  }

  lemma {:induction false} WalkSkips(records: seq<Record>, inherited: seq<Name>, root: ContentRef, seen: set<Visit>,
                                     queue: seq<Visit>)
    requires Walking(records, inherited, root, seen, queue) && |queue| > 0 && queue[0] in seen
    ensures Walking(records, inherited, root, seen, queue[1..])
  {
    assert forall v :: v in queue <==> v == queue[0] || v in queue[1..];
  }

  lemma {:induction false} WalkVisits(records: seq<Record>, inherited: seq<Name>, root: ContentRef, seen: set<Visit>,
                                      queue: seq<Visit>, next: seq<Visit>)
    requires Walking(records, inherited, root, seen, queue) && |queue| > 0
    requires forall w :: w in next <==> Hops(records, inherited, queue[0], w)
    ensures Walking(records, inherited, root, seen + {queue[0]}, queue[1..] + next)
    ensures queue[0] in Universe(records, root)
  {
    var v, more := queue[0], queue[1..] + next;
    assert forall u :: u in queue <==> u == v || u in queue[1..];
    assert forall u :: u in more <==> u in queue[1..] || u in next;
    assert v in queue;
    forall w | w in next
      ensures Reached(records, inherited, root, w) && w in Universe(records, root)
    {
      ReachedHop(records, inherited, root, v, w);
      HopInUniverse(records, inherited, root, v, w);
    }
  }

  /** A finished walk has visited the end of every trail. */
  lemma {:induction false} TrailIsWalked(records: seq<Record>, inherited: seq<Name>, root: ContentRef, seen: set<Visit>,
                                         v: Visit, t: Trail)
    requires Walking(records, inherited, root, seen, []) && LeadsTo(records, inherited, root, v, t)
    ensures v in seen
    decreases t
  {
    if t.Via? {
      var u := Visit(End(root, t.before), Crosses(t.before, inherited));
      TrailIsWalked(records, inherited, root, seen, u, t.before);
      var k :| 0 <= k < |records| && records[k] == t.record;
      assert Hop(records[k], inherited, u, v);
    }
  }

  lemma {:induction false} WalkEnds(records: seq<Record>, inherited: seq<Name>, root: ContentRef, seen: set<Visit>)
    requires Walking(records, inherited, root, seen, [])
    ensures forall v :: v in seen <==> Reached(records, inherited, root, v)
  {
    forall v | Reached(records, inherited, root, v)
      ensures v in seen
    {
      var t :| LeadsTo(records, inherited, root, v, t);
      TrailIsWalked(records, inherited, root, seen, v, t);
    }
  }

  /** `more` is `reach` with an entry for `final` at every visited reference. */
  ghost predicate Recorded(reach: Reaches, more: Reaches, final: ContentRef, seen: set<Visit>) {
    forall ref, x :: x in At(more, ref) <==>
        x in At(reach, ref) || (x.output == final && Visit(ref, x.summarized) in seen)
  }

  function Noted(reach: Reaches, v: Visit, final: ContentRef): (more: Reaches)
    ensures forall ref, x :: x in At(more, ref) <==>
              x in At(reach, ref) || (ref == v.ref && x == Reach(final, v.summarized))
  {
    reach[v.ref := At(reach, v.ref) + [Reach(final, v.summarized)]]
  }

  lemma RecordedStep(reach: Reaches, more: Reaches, final: ContentRef, seen: set<Visit>, v: Visit)
    requires Recorded(reach, more, final, seen)
    ensures Recorded(reach, Noted(more, v, final), final, seen + {v})
  {
  }

  method Successors(producers: map<ContentRef, seq<Record>>, inherited: seq<Name>, visit: Visit,
                    ghost records: seq<Record>)
    returns (next: seq<Visit>)
    requires MakersOf(producers, records)
    ensures forall w :: w in next <==> Hops(records, inherited, visit, w)
  {
    next := Expand(At(producers, visit.ref), inherited, visit);
    forall w
      ensures w in next <==> Hops(records, inherited, visit, w)
    {
      FeedsIsHop(producers, records, inherited, visit, w);
    }
  }

  method Walk(reach: Reaches, producers: map<ContentRef, seq<Record>>, inherited: seq<Name>, final: ContentRef,
              root: ContentRef, ghost records: seq<Record>)
    returns (more: Reaches, seen: set<Visit>)
    requires MakersOf(producers, records)
    ensures Walking(records, inherited, root, seen, []) && Recorded(reach, more, final, seen)
  {
    more, seen := reach, {};
    var queue := [Visit(root, false)];
    WalkStarts(records, inherited, root);
    while |queue| > 0
      invariant Walking(records, inherited, root, seen, queue)
      invariant Recorded(reach, more, final, seen)
      decreases |Universe(records, root) - seen|, |queue|
    {
      var visit := queue[0];
      if visit in seen {
        WalkSkips(records, inherited, root, seen, queue);
        queue := queue[1..];
        continue;
      }
      var next := Successors(producers, inherited, visit, records);
      WalkVisits(records, inherited, root, seen, queue, next);
      FewerLeft(Universe(records, root), seen, visit);
      RecordedStep(reach, more, final, seen, visit);
      seen, more, queue := seen + {visit}, Noted(more, visit, final), queue[1..] + next;
    }
    assert queue == [];
  }

  /** Afterwards a reference lists `final` exactly for the trails from `root` that end there, one entry for those
      that cross a summary and one for those that do not. */
  method WalkCoverage(reach: Reaches, producers: map<ContentRef, seq<Record>>, inherited: seq<Name>, final: ContentRef,
                      root: ContentRef, ghost records: seq<Record>)
    returns (more: Reaches)
    requires MakersOf(producers, records)
    ensures forall ref, x :: x in At(more, ref) <==>
              x in At(reach, ref) || (x.output == final && Reached(records, inherited, root, Visit(ref, x.summarized)))
  {
    var seen;
    more, seen := Walk(reach, producers, inherited, final, root, records);
    WalkEnds(records, inherited, root, seen);
  }
}
