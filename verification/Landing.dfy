/** When two selections of a sequence read the same. */
module Landing {
  import opened Sequences
  import opened Matching

  /** Copy number `r` of a value under `a` lands on copy number `r` of it under `b`. */
  predicate Lands<T(==)>(s: seq<T>, a: seq<bool>, b: seq<bool>, i: nat, p: nat)
    requires |s| == |a| == |b|
  {
    i < |s| && p < |s| && a[i] && b[p] && s[i] == s[p] && Count(s, a, s[i], i) == Count(s, b, s[i], p)
  }

  /** Moving every selected element to where its copy lands does not change the order. */
  ghost predicate OrderKept<T>(s: seq<T>, a: seq<bool>, b: seq<bool>)
    requires |s| == |a| == |b|
  {
    forall i, k, p, q ::
      0 <= i < k < |s| && 0 <= p < |s| && 0 <= q < |s| && Lands(s, a, b, i, p) && Lands(s, a, b, k, q) ==> p < q
  }

  // ---------------------------------------------------------------- positions

  /** How often `x` stands among the first `n` elements. */
  function Seen<T(==)>(t: seq<T>, x: T, n: nat): nat
    requires n <= |t|
  {
    if n == 0 then 0 else Seen(t, x, n - 1) + if t[n - 1] == x then 1 else 0
  }

  lemma {:induction false} SeenGrows<T>(t: seq<T>, x: T, i: nat, n: nat)
    requires i < n <= |t| && t[i] == x
    ensures Seen(t, x, i) < Seen(t, x, n)
  {
    if i < n - 1 {
      SeenGrows(t, x, i, n - 1);
    }
  }

  /** `at` lists the marked positions in order. */
  ghost predicate Lists<T>(s: seq<T>, marks: seq<bool>, at: seq<nat>)
    requires |s| == |marks|
  {
    && Placed(Keep(s, marks), s, at)
    && (forall k :: 0 <= k < |at| ==> marks[at[k]])
    && ListsAll(marks, at, |marks|)
  }

  lemma {:induction false} IndexOf(at: seq<nat>, i: nat) returns (k: nat)
    requires Listed(at, i)
    ensures k < |at| && at[k] == i
  {
    k :| 0 <= k < |at| && at[k] == i;
  }

  lemma {:induction false} NoneBetween<T>(s: seq<T>, marks: seq<bool>, at: seq<nat>, k: nat, i: nat)
    requires |s| == |marks| && Lists(s, marks, at) && k < |at| && i < at[k] && (k == 0 || at[k - 1] < i)
    ensures !marks[i]
  {
    if marks[i] {
      var l := IndexOf(at, i);
    }
  }

  /** Counting copies before a marked position is counting them in what is kept. */
  lemma {:induction false} CountIsSeen<T>(s: seq<T>, marks: seq<bool>, at: seq<nat>, x: T, k: nat)
    requires |s| == |marks| && Lists(s, marks, at) && k < |at|
    ensures Count(s, marks, x, at[k]) == Seen(Keep(s, marks), x, k)
  {
    var from := if k == 0 then 0 else at[k - 1] + 1;
    forall j | from <= j < at[k]
      ensures !marks[j]
    {
      NoneBetween(s, marks, at, k, j);
    }
    CountGrows(s, marks, x, from, at[k]);
    if k > 0 {
      CountIsSeen(s, marks, at, x, k - 1);
    }
  }

  // ---------------------------------------------------------------- landings

  /** There is a copy for every number below the total. */
  lemma {:induction false} NthCopy<T>(s: seq<T>, marks: seq<bool>, x: T, r: nat, n: nat) returns (p: nat)
    requires |s| == |marks| && n <= |s| && r < Count(s, marks, x, n)
    ensures p < n && marks[p] && s[p] == x && Count(s, marks, x, p) == r
  {
    if marks[n - 1] && s[n - 1] == x && Count(s, marks, x, n - 1) == r {
      p := n - 1;
    } else {
      p := NthCopy(s, marks, x, r, n - 1);
    }
  }

  lemma {:induction false} Landing<T>(s: seq<T>, a: seq<bool>, b: seq<bool>, i: nat) returns (p: nat)
    requires |s| == |a| == |b| && i < |s| && a[i]
    requires multiset(Keep(s, a))[s[i]] == multiset(Keep(s, b))[s[i]]
    ensures p < |s| && Lands(s, a, b, i, p)
  {
    KeepCount(s, a, s[i]);
    KeepCount(s, b, s[i]);
    CountGrows(s, a, s[i], i + 1, |s|);
    p := NthCopy(s, b, s[i], Count(s, a, s[i], i), |s|);
  }

  /** If both selections read the same, copies land in place. */
  lemma {:induction false} SameTextLands<T>(s: seq<T>, a: seq<bool>, b: seq<bool>, atA: seq<nat>, atB: seq<nat>, u: nat,
                                            p: nat)
    requires |s| == |a| == |b| && Lists(s, a, atA) && Lists(s, b, atB) && Keep(s, a) == Keep(s, b)
    requires u < |atA| && p < |s| && Lands(s, a, b, atA[u], p)
    ensures p == atB[u]
  {
    var t, x := Keep(s, a), s[p];
    var v := IndexOf(atB, p);
    CountIsSeen(s, a, atA, x, u);
    CountIsSeen(s, b, atB, x, v);
    if u < v {
      SeenGrows(t, x, u, v);
    } else if v < u {
      SeenGrows(t, x, v, u);
    }
  }

  lemma SameOrder<T>(s: seq<T>, marks: seq<bool>, at: seq<nat>, u: nat, w: nat)
    requires |s| == |marks| && Lists(s, marks, at) && u < |at| && w < |at| && at[u] < at[w]
    ensures u < w
  {
  }

  lemma {:induction false} SameTextKeepsOrder<T>(s: seq<T>, a: seq<bool>, b: seq<bool>)
    requires |s| == |a| == |b| && Keep(s, a) == Keep(s, b)
    ensures OrderKept(s, a, b)
  {
    var atA := KeepPlaced(s, a);
    var atB := KeepPlaced(s, b);
    forall i: nat, k: nat, p: nat, q: nat
      | i < k < |s| && p < |s| && q < |s| && Lands(s, a, b, i, p) && Lands(s, a, b, k, q)
      ensures p < q
    {
      var u := IndexOf(atA, i);
      var w := IndexOf(atA, k);
      SameTextLands(s, a, b, atA, atB, u, p);
      SameTextLands(s, a, b, atA, atB, w, q);
      SameOrder(s, a, atA, u, w);
    }
  }

  ghost predicate Increasing(g: seq<nat>) {
    forall u, w :: 0 <= u < w < |g| ==> g[u] < g[w]
  }

  lemma {:induction false} IncreasingAbove(g: seq<nat>, u: nat)
    requires Increasing(g) && u < |g|
    ensures u <= g[u]
  {
    if u > 0 {
      IncreasingAbove(g, u - 1);
    }
  }

  lemma {:induction false} IncreasingBelow(g: seq<nat>, u: nat, n: nat)
    requires Increasing(g) && u < |g| == n && forall v :: 0 <= v < |g| ==> g[v] < n
    ensures g[u] <= u
    decreases n - u
  {
    if u < n - 1 {
      IncreasingBelow(g, u + 1, n);
    }
  }

  /** `g[u]` is where the listed position `atA[u]` lands in the list `atB`. */
  ghost predicate LandsAt<T>(s: seq<T>, a: seq<bool>, b: seq<bool>, atA: seq<nat>, atB: seq<nat>, g: seq<nat>)
    requires |s| == |a| == |b|
  {
    |g| <= |atA| && forall u :: 0 <= u < |g| ==> g[u] < |atB| && Lands(s, a, b, atA[u], atB[g[u]])
  }

  lemma {:induction false} LandIndex<T>(s: seq<T>, a: seq<bool>, b: seq<bool>, atA: seq<nat>, atB: seq<nat>, u: nat)
    returns (v: nat)
    requires |s| == |a| == |b| && Lists(s, a, atA) && Lists(s, b, atB) && u < |atA|
    requires multiset(Keep(s, a)) == multiset(Keep(s, b))
    ensures v < |atB| && Lands(s, a, b, atA[u], atB[v])
  {
    var p := Landing(s, a, b, atA[u]);
    v := IndexOf(atB, p);
  }

  lemma {:induction false} Landings<T>(s: seq<T>, a: seq<bool>, b: seq<bool>, atA: seq<nat>, atB: seq<nat>, n: nat)
    returns (g: seq<nat>)
    requires |s| == |a| == |b| && Lists(s, a, atA) && Lists(s, b, atB) && n <= |atA|
    requires multiset(Keep(s, a)) == multiset(Keep(s, b))
    ensures |g| == n && LandsAt(s, a, b, atA, atB, g)
  {
    if n == 0 {
      g := [];
    } else {
      var front := Landings(s, a, b, atA, atB, n - 1);
      var v := LandIndex(s, a, b, atA, atB, n - 1);
      g := front + [v];
    }
  }

  lemma {:induction false} LandingsIncrease<T>(s: seq<T>, a: seq<bool>, b: seq<bool>, atA: seq<nat>, atB: seq<nat>,
                                               g: seq<nat>)
    requires |s| == |a| == |b| && Lists(s, a, atA) && Lists(s, b, atB) && LandsAt(s, a, b, atA, atB, g)
             && OrderKept(s, a, b)
    ensures Increasing(g)
  {
    forall u, w | 0 <= u < w < |g|
      ensures g[u] < g[w]
    {
      LaterLands(s, a, b, atA[u], atA[w], atB[g[u]], atB[g[w]]);
      assert atB[g[u]] < atB[g[w]];
    }
  }

  lemma LaterLands<T>(s: seq<T>, a: seq<bool>, b: seq<bool>, i: nat, k: nat, p: nat, q: nat)
    requires |s| == |a| == |b| && OrderKept(s, a, b) && i < k && Lands(s, a, b, i, p) && Lands(s, a, b, k, q)
    ensures p < q
  {
  }

  lemma {:induction false} SameLength<T>(t: seq<T>, u: seq<T>)
    requires multiset(t) == multiset(u)
    ensures |t| == |u|
  {
    assert |multiset(t)| == |multiset(u)|;
  }

  lemma {:induction false} OrderGivesText<T>(s: seq<T>, a: seq<bool>, b: seq<bool>)
    requires |s| == |a| == |b| && multiset(Keep(s, a)) == multiset(Keep(s, b)) && OrderKept(s, a, b)
    ensures Keep(s, a) == Keep(s, b)
  {
    var atA := KeepPlaced(s, a);
    var atB := KeepPlaced(s, b);
    SameLength(Keep(s, a), Keep(s, b));
    var g := Landings(s, a, b, atA, atB, |atA|);
    LandingsIncrease(s, a, b, atA, atB, g);
    InPlace(s, a, b, atA, atB, g);
  }

  lemma {:induction false} InPlace<T>(s: seq<T>, a: seq<bool>, b: seq<bool>, atA: seq<nat>, atB: seq<nat>, g: seq<nat>)
    requires |s| == |a| == |b| && Lists(s, a, atA) && Lists(s, b, atB) && |g| == |atA| == |atB|
    requires LandsAt(s, a, b, atA, atB, g) && Increasing(g)
    ensures Keep(s, a) == Keep(s, b)
  {
    forall u | 0 <= u < |g|
      ensures Keep(s, a)[u] == Keep(s, b)[u]
    {
      IncreasingAbove(g, u);
      IncreasingBelow(g, u, |g|);
      LandsInPlace(s, a, b, atA, atB, g, u);
    }
  }

  lemma {:induction false} LandsInPlace<T>(s: seq<T>, a: seq<bool>, b: seq<bool>, atA: seq<nat>, atB: seq<nat>,
                                           g: seq<nat>, u: nat)
    requires |s| == |a| == |b| && Lists(s, a, atA) && Lists(s, b, atB) && |g| == |atA| == |atB| && u < |g|
    requires LandsAt(s, a, b, atA, atB, g) && g[u] == u
    ensures Keep(s, a)[u] == Keep(s, b)[u]
  {
    assert Lands(s, a, b, atA[u], atB[u]);
  }

  /** Two selections with the same copies read the same exactly when landing keeps the order. */
  lemma {:induction false} SameTextIff<T>(s: seq<T>, a: seq<bool>, b: seq<bool>)
    requires |s| == |a| == |b| && multiset(Keep(s, a)) == multiset(Keep(s, b))
    ensures Keep(s, a) == Keep(s, b) <==> OrderKept(s, a, b)
  {
    if Keep(s, a) == Keep(s, b) {
      SameTextKeepsOrder(s, a, b);
    }
    if OrderKept(s, a, b) {
      OrderGivesText(s, a, b);
    }
  }
}
