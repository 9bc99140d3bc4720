/** Finite directed graphs given by adjacency lists: paths, cycles and closures. */
module Graphs {

  type Edges<!T> = map<T, seq<T>>

  predicate Step<T(==)>(e: Edges<T>, a: T, b: T) {
    a in e && b in e[a]
  }

  ghost predicate Path<T(!new)>(e: Edges<T>, p: seq<T>) {
    |p| > 0 && forall i :: 0 < i < |p| ==> Step(e, p[i - 1], p[i])
  }

  ghost predicate Cycle<T(!new)>(e: Edges<T>, p: seq<T>) {
    Path(e, p) && |p| > 1 && p[0] == p[|p| - 1]
  }

  ghost predicate Cyclic<T(!new)>(e: Edges<T>) {
    exists p: seq<T> :: Cycle(e, p)
  }

  /** A numbering in which every edge leads to a smaller number. */
  ghost predicate Ranked<T(!new)>(e: Edges<T>, rank: map<T, nat>) {
    forall a, b :: a in rank && Step(e, a, b) ==> b in rank && rank[b] < rank[a]
  }

  lemma {:induction false} RankFalls<T(!new)>(e: Edges<T>, rank: map<T, nat>, p: seq<T>, n: nat)
    requires Ranked(e, rank) && Path(e, p) && 0 < n < |p| && p[0] in rank
    ensures p[n] in rank && rank[p[n]] < rank[p[0]]
  {
    assert Step(e, p[n - 1], p[n]);
    if n > 1 {
      RankFalls(e, rank, p, n - 1);
    }
  }

  /** A ranked graph has no cycle. */
  lemma {:induction false} RankedIsAcyclic<T(!new)>(e: Edges<T>, rank: map<T, nat>)
    requires Ranked(e, rank) && e.Keys <= rank.Keys
    ensures !Cyclic(e)
  {
    forall p: seq<T> | Path(e, p) && |p| > 1
      ensures p[0] != p[|p| - 1]
    {
      assert Step(e, p[0], p[1]);
      RankFalls(e, rank, p, |p| - 1);
    }
  }

  // ---------------------------------------------------------------- reachability

  ghost predicate Reaches<T(!new)>(e: Edges<T>, a: T, b: T) {
    exists p: seq<T> :: Path(e, p) && p[0] == a && p[|p| - 1] == b
  }

  lemma {:induction false} ReachesSelf<T(!new)>(e: Edges<T>, a: T)
    ensures Reaches(e, a, a)
  {
    assert Path(e, [a]);
  }

  lemma {:induction false} ReachesStep<T(!new)>(e: Edges<T>, a: T, b: T, c: T)
    requires Reaches(e, a, b) && Step(e, b, c)
    ensures Reaches(e, a, c)
  {
    var p: seq<T> :| Path(e, p) && p[0] == a && p[|p| - 1] == b;
    var q := p + [c];
    assert forall i :: 0 <= i < |p| ==> q[i] == p[i];
    assert Path(e, q) && q[0] == a && q[|q| - 1] == c;
  }

  ghost predicate Closed<T(!new)>(e: Edges<T>, s: set<T>) {
    forall a, b :: a in s && Step(e, a, b) ==> b in s
  }

  /** A set closed under the edges holds everything its elements reach. */
  lemma {:induction false} ClosedHolds<T(!new)>(e: Edges<T>, s: set<T>, a: T, b: T)
    requires Closed(e, s) && a in s && Reaches(e, a, b)
    ensures b in s
  {
    var p: seq<T> :| Path(e, p) && p[0] == a && p[|p| - 1] == b;
    ClosedAlong(e, s, p, |p| - 1);
  }

  lemma {:induction false} ClosedAlong<T(!new)>(e: Edges<T>, s: set<T>, p: seq<T>, n: nat)
    requires Closed(e, s) && Path(e, p) && n < |p| && p[0] in s
    ensures p[n] in s
  {
    if n > 0 {
      ClosedAlong(e, s, p, n - 1);
      assert Step(e, p[n - 1], p[n]);
    }
  }

  /** Every node the edges mention. */
  ghost function Nodes<T>(e: Edges<T>): set<T> {
    e.Keys + set a, i | a in e && 0 <= i < |e[a]| :: e[a][i]
  }

  // ---------------------------------------------------------------- depth-first search

  /** `stack` is a path, made of exactly the nodes in `visiting`. */
  ghost predicate OnPath<T(!new)>(e: Edges<T>, visiting: set<T>, stack: seq<T>) {
    (stack != [] ==> Path(e, stack)) && forall a :: a in visiting <==> a in stack
  }

  /** Finished nodes are ranked below everything that leads to them. */
  ghost predicate Finished<T(!new)>(e: Edges<T>, visited: set<T>, rank: map<T, nat>) {
    rank.Keys == visited && Ranked(e, rank) && forall a :: a in rank ==> rank[a] < |visited|
  }

  /** `ref` may come next on the path. */
  ghost predicate Next<T(!new)>(e: Edges<T>, stack: seq<T>, ref: T) {
    ref in Nodes(e) && (stack != [] ==> Step(e, stack[|stack| - 1], ref))
  }

  lemma {:induction false} PathGrows<T(!new)>(e: Edges<T>, visiting: set<T>, stack: seq<T>, ref: T)
    requires OnPath(e, visiting, stack) && Next(e, stack, ref)
    ensures OnPath(e, visiting + {ref}, stack + [ref])
  {
    var q := stack + [ref];
    assert forall i :: 0 <= i < |stack| ==> q[i] == stack[i];
  }

  lemma NodeFinishes<T(!new)>(e: Edges<T>, visited: set<T>, rank: map<T, nat>, ref: T)
    requires Finished(e, visited, rank) && ref !in visited && forall b :: Step(e, ref, b) ==> b in visited
    ensures Finished(e, visited + {ref}, rank[ref := |visited|])
  {
  }

  lemma {:induction false} BackEdgeIsCycle<T(!new)>(e: Edges<T>, visiting: set<T>, stack: seq<T>, ref: T)
    requires OnPath(e, visiting, stack) && Next(e, stack, ref) && ref in visiting
    ensures Cyclic(e)
  {
    var i :| 0 <= i < |stack| && stack[i] == ref;
    var p := stack[i..] + [ref];
    assert forall k :: 0 <= k < |stack| - i ==> p[k] == stack[i + k];
    forall k | 0 < k < |p|
      ensures Step(e, p[k - 1], p[k])
    {
      if k < |p| - 1 {
        assert Step(e, stack[i + k - 1], stack[i + k]);
      }
    }
    assert Cycle(e, p);
  }

  lemma {:induction false} FewerLeft<T>(all: set<T>, path: set<T>, ref: T)
    requires ref in all && ref !in path
    ensures |all - (path + {ref})| < |all - path|
  {
    assert all - (path + {ref}) == (all - path) - {ref};
  }

  /** The search state: what is on the current path and what is finished. */
  class DepthFirst<T(==, !new)> {
    const edges: Edges<T>
    var visiting: set<T>
    var visited: set<T>
    ghost var stack: seq<T>
    ghost var rank: map<T, nat>

    constructor (edges: Edges<T>)
      ensures this.edges == edges && Valid() && stack == []
    {
      this.edges, this.visiting, this.visited, this.stack, this.rank := edges, {}, {}, [], map[];
    }

    ghost predicate Valid()
      reads this
    {
      visiting !! visited && OnPath(edges, visiting, stack) && Finished(edges, visited, rank)
    }

    /** Nothing changed but what is finished. */
    ghost predicate Progressed(before: seq<T>, path: set<T>, done: set<T>)
      reads this
    {
      Valid() && stack == before && visiting == path && done <= visited
    }

    /** Visit everything below `ref`; fails exactly when it meets the current path again. */
    method Visit(ref: T) returns (ok: bool)
      requires Valid() && Next(edges, stack, ref)
      modifies this
      ensures !ok ==> Cyclic(edges)
      ensures ok ==> Progressed(old(stack), old(visiting), old(visited)) && ref in visited
      decreases |Nodes(edges) - visiting|, 0
    {
      if ref in visiting {
        BackEdgeIsCycle(edges, visiting, stack, ref);
        return false;
      }
      if ref in visited {
        return true;
      }
      ghost var before, path, done := stack, visiting, visited;
      FewerLeft(Nodes(edges), visiting, ref);
      Enter(ref);
      ok := VisitInputs(ref, if ref in edges then edges[ref] else []);
      if ok {
        Leave(ref, before, path);
      }
    }

    method Enter(ref: T)
      requires Valid() && Next(edges, stack, ref) && ref !in visiting && ref !in visited
      modifies this
      ensures Progressed(old(stack) + [ref], old(visiting) + {ref}, old(visited))
    {
      PathGrows(edges, visiting, stack, ref);
      visiting := visiting + {ref};
      stack := stack + [ref];
    }

    method Leave(ref: T, ghost before: seq<T>, ghost path: set<T>)
      requires Valid() && visiting == path + {ref} && ref !in path && OnPath(edges, path, before)
      requires forall b :: Step(edges, ref, b) ==> b in visited
      modifies this
      ensures Progressed(before, path, old(visited) + {ref})
    {
      NodeFinishes(edges, visited, rank, ref);
      visiting := visiting - {ref};
      rank := rank[ref := |visited|];
      visited := visited + {ref};
      stack := before;
      assert visiting == path;
    }

    method VisitInputs(ref: T, inputs: seq<T>) returns (ok: bool)
      requires Valid() && stack != [] && stack[|stack| - 1] == ref
      requires forall k :: 0 <= k < |inputs| ==> Step(edges, ref, inputs[k])
      modifies this
      ensures !ok ==> Cyclic(edges)
      ensures ok ==> Progressed(old(stack), old(visiting), old(visited)) && forall b :: b in inputs ==> b in visited
      decreases |Nodes(edges) - visiting|, 1
    {
      for k := 0 to |inputs|
        invariant Progressed(old(stack), old(visiting), old(visited))
        invariant forall b :: b in inputs[..k] ==> b in visited
      {
        StepIsNext(edges, stack, inputs[k]);
        ok := Visit(inputs[k]);
        if !ok {
          return false;
        }
        assert inputs[..k + 1] == inputs[..k] + [inputs[k]];
      }
      assert inputs[..|inputs|] == inputs;
      ok := true;
    }

    /** Search from every node with edges. */
    method Search() returns (ok: bool)
      requires Valid() && stack == []
      modifies this
      ensures ok <==> !Cyclic(edges)
    {
      var pending := edges.Keys;
      while pending != {}
        invariant Valid() && stack == [] && pending <= edges.Keys && edges.Keys - pending <= visited
        decreases |pending|
      {
        var ref :| ref in pending;
        ok := Visit(ref);
        if !ok {
          return false;
        }
        pending := pending - {ref};
      }
      RankedIsAcyclic(edges, rank);
      ok := true;
    }
  }

  lemma {:induction false} StepIsNext<T(!new)>(e: Edges<T>, stack: seq<T>, b: T)
    requires stack != [] && Step(e, stack[|stack| - 1], b)
    ensures Next(e, stack, b)
  {
    var a := stack[|stack| - 1];
    var k :| 0 <= k < |e[a]| && e[a][k] == b;
  }
}
