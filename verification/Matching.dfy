/** Greedy matching of a sequence against a bag of copies, each copy used at most once. */
module Matching {
  import opened Sequences

  /** How many of the first `n` elements are marked and equal to `x`. */
  function Count<T(==)>(s: seq<T>, marks: seq<bool>, x: T, n: nat): (c: nat)
    requires |s| == |marks| && n <= |s|
  {
    if n == 0 then 0
    else Count(s, marks, x, n - 1) + if marks[n - 1] && s[n - 1] == x then 1 else 0
  }

  function Min(a: nat, b: nat): nat {
    if a < b then a else b
  }

  /** Fixed elements stay; another element stays while the bag holds more copies of it than came before. */
  function MergeMarks<T(==)>(s: seq<T>, fixed: seq<bool>, bag: seq<T>): (marks: seq<bool>)
    requires |s| == |fixed|
    ensures |marks| == |s|
  {
    seq(|s|, i requires 0 <= i < |s| => fixed[i] || Count(s, Not(fixed), s[i], i) < multiset(bag)[s[i]])
  }

  lemma {:induction false} KeepCount<T>(s: seq<T>, marks: seq<bool>, x: T)
    requires |s| == |marks|
    ensures multiset(Keep(s, marks))[x] == Count(s, marks, x, |s|)
  {
    KeepCountUpTo(s, marks, x, |s|);
    assert s[..|s|] == s && marks[..|s|] == marks;
  }

  lemma {:induction false} KeepCountUpTo<T>(s: seq<T>, marks: seq<bool>, x: T, n: nat)
    requires |s| == |marks| && n <= |s|
    ensures multiset(Keep(s[..n], marks[..n]))[x] == Count(s, marks, x, n)
  {
    if n > 0 {
      KeepCountUpTo(s, marks, x, n - 1);
      KeepSnoc(s, marks, n - 1);
    }
  }

  lemma {:induction false} CountAgrees<T>(s: seq<T>, a: seq<bool>, b: seq<bool>, x: T, n: nat)
    requires |s| == |a| == |b| && n <= |s| && forall j :: 0 <= j < n && s[j] == x ==> a[j] == b[j]
    ensures Count(s, a, x, n) == Count(s, b, x, n)
  {
    if n > 0 {
      CountAgrees(s, a, b, x, n - 1);
    }
  }

  lemma {:induction false} CountBelow<T>(s: seq<T>, a: seq<bool>, b: seq<bool>, x: T, n: nat)
    requires |s| == |a| == |b| && n <= |s| && forall j :: 0 <= j < n && a[j] ==> b[j]
    ensures Count(s, a, x, n) <= Count(s, b, x, n)
  {
    if n > 0 {
      CountBelow(s, a, b, x, n - 1);
    }
  }

  lemma {:induction false} CountGrows<T>(s: seq<T>, marks: seq<bool>, x: T, i: nat, n: nat)
    requires |s| == |marks| && i <= n <= |s|
    ensures Count(s, marks, x, i) <= Count(s, marks, x, n)
    ensures (forall j :: i <= j < n && marks[j] ==> s[j] != x) ==> Count(s, marks, x, i) == Count(s, marks, x, n)
  {
    if i < n {
      CountGrows(s, marks, x, i, n - 1);
    }
  }

  /** The elements of the bag not consumed yet. */
  ghost function Free<T>(bag: seq<T>, consumed: seq<bool>): multiset<T>
    requires |consumed| == |bag|
  {
    multiset(Keep(bag, Not(consumed)))
  }

  lemma {:induction false} FreeTake<T>(bag: seq<T>, consumed: seq<bool>, j: nat)
    requires |consumed| == |bag| && j < |bag| && !consumed[j]
    ensures Free(bag, consumed) == Free(bag, consumed[j := true]) + multiset{bag[j]}
  {
    KeepUnmark(bag, Not(consumed), j);
    assert Not(consumed[j := true]) == Not(consumed)[j := false];
  }

  lemma {:induction false} FreeWithout<T>(bag: seq<T>, consumed: seq<bool>, x: T)
    requires |consumed| == |bag|
    requires forall j :: 0 <= j < |bag| ==> consumed[j] || bag[j] != x
    ensures x !in Free(bag, consumed)
  {
    KeepMembers(bag, Not(consumed));
    assert x !in Keep(bag, Not(consumed));
  }

  lemma {:induction false} FreeEmpty<T>(bag: seq<T>, consumed: seq<bool>)
    requires |consumed| == |bag|
    ensures Free(bag, consumed) == multiset{} <==> forall j :: 0 <= j < |consumed| ==> consumed[j]
  {
    if forall j :: 0 <= j < |consumed| ==> consumed[j] {
      KeepNone(bag, Not(consumed));
    } else {
      var i :| 0 <= i < |consumed| && !consumed[i];
      FreeTake(bag, consumed, i);
      assert bag[i] in Free(bag, consumed);
    }
  }

  lemma {:induction false} MergeCount<T>(s: seq<T>, fixed: seq<bool>, bag: seq<T>, x: T, n: nat)
    requires |s| == |fixed| && n <= |s|
    ensures Count(s, MergeMarks(s, fixed, bag), x, n) ==
            Count(s, fixed, x, n) + Min(multiset(bag)[x], Count(s, Not(fixed), x, n))
  {
    if n > 0 {
      MergeCount(s, fixed, bag, x, n - 1);
    }
  }

  lemma {:induction false} MatchedCopies<T>(s: seq<T>, fixed: seq<bool>, bag: seq<T>, x: T)
    requires |s| == |fixed| && multiset(bag)[x] <= multiset(Keep(s, Not(fixed)))[x]
    ensures multiset(Keep(s, MergeMarks(s, fixed, bag)))[x] == multiset(Keep(s, fixed))[x] + multiset(bag)[x]
  {
    KeepCount(s, MergeMarks(s, fixed, bag), x);
    KeepCount(s, fixed, x);
    KeepCount(s, Not(fixed), x);
    MergeCount(s, fixed, bag, x, |s|);
  }

  /** If the bag holds nothing but free elements, matching keeps the fixed elements and the bag, each as
      often as it was given. */
  lemma {:induction false} MatchingConserves<T(!new)>(s: seq<T>, fixed: seq<bool>, bag: seq<T>)
    requires |s| == |fixed| && multiset(bag) <= multiset(Keep(s, Not(fixed)))
    ensures multiset(Keep(s, MergeMarks(s, fixed, bag))) == multiset(Keep(s, fixed)) + multiset(bag)
  {
    forall x: T
      ensures Copies(Keep(s, MergeMarks(s, fixed, bag)), x) == Copies(Keep(s, fixed), x) + Copies(bag, x)
    {
      assert multiset(bag)[x] <= multiset(Keep(s, Not(fixed)))[x];
      MatchedCopies(s, fixed, bag, x);
    }
    SameCopies(Keep(s, MergeMarks(s, fixed, bag)), Keep(s, fixed), bag);
  }

  function Copies<T(==)>(s: seq<T>, x: T): nat {
    multiset(s)[x]
  }

  lemma {:induction false} SameCopies<T(!new)>(a: seq<T>, b: seq<T>, c: seq<T>)
    requires forall x :: Copies(a, x) == Copies(b, x) + Copies(c, x)
    ensures multiset(a) == multiset(b) + multiset(c)
  {
    var l, r := multiset(a), multiset(b) + multiset(c);
    forall x: T
      ensures l[x] == r[x]
    {
      assert Copies(a, x) == Copies(b, x) + Copies(c, x);
    }
  }

  // ---------------------------------------------------------------- when matching restores a choice

  predicate Choice(fixed: seq<bool>, chosen: seq<bool>) {
    |chosen| == |fixed| && forall i :: 0 <= i < |fixed| ==> !(fixed[i] && chosen[i])
  }

  /** No free element is chosen after an equal one was passed over. */
  predicate EarliestCopies<T(==)>(s: seq<T>, fixed: seq<bool>, chosen: seq<bool>)
    requires |s| == |fixed| == |chosen|
  {
    forall j, i :: 0 <= j < i < |s| && !fixed[j] && !chosen[j] && chosen[i] ==> s[j] != s[i]
  }

  lemma {:induction false} MatchedAt<T>(s: seq<T>, fixed: seq<bool>, chosen: seq<bool>, i: nat)
    requires |s| == |fixed| && Choice(fixed, chosen) && EarliestCopies(s, fixed, chosen) && i < |s| && !fixed[i]
    ensures Count(s, Not(fixed), s[i], i) < Count(s, chosen, s[i], |s|) <==> chosen[i]
  {
    if chosen[i] {
      CountAgrees(s, chosen, Not(fixed), s[i], i);
      CountGrows(s, chosen, s[i], i + 1, |s|);
    } else {
      CountGrows(s, chosen, s[i], i, |s|);
      CountBelow(s, chosen, Not(fixed), s[i], i);
    }
  }

  /** Matching a choice against its own bag gives the choice back exactly when the choice took the
      earliest copies. */
  lemma {:induction false} MatchingRestoresIff<T>(s: seq<T>, fixed: seq<bool>, chosen: seq<bool>)
    requires |s| == |fixed| && Choice(fixed, chosen)
    ensures (forall i :: 0 <= i < |s| && !fixed[i] ==> MergeMarks(s, fixed, Keep(s, chosen))[i] == chosen[i]) <==>
            EarliestCopies(s, fixed, chosen)
  {
    var bag := Keep(s, chosen);
    var marks := MergeMarks(s, fixed, bag);
    if EarliestCopies(s, fixed, chosen) {
      forall i | 0 <= i < |s| && !fixed[i]
        ensures marks[i] == chosen[i]
      {
        MatchedAt(s, fixed, chosen, i);
        KeepCount(s, chosen, s[i]);
      }
    } else {
      var j, i :| 0 <= j < i < |s| && !fixed[j] && !chosen[j] && chosen[i] && s[j] == s[i];
      CountGrows(s, Not(fixed), s[i], j, i);
      assert marks[j] || !marks[i];
    }
  }

  /** What is left of `pool` after the free elements before index `n` took their matches. */
  ghost predicate LeftOf<T(!new)>(left: multiset<T>, s: seq<T>, fixed: seq<bool>, bag: seq<T>, n: nat)
    requires |s| == |fixed| && n <= |s|
  {
    forall x :: left[x] + Min(multiset(bag)[x], Count(s, Not(fixed), x, n)) == multiset(bag)[x]
  }

  lemma {:induction false} LeftStep<T(!new)>(left: multiset<T>, s: seq<T>, fixed: seq<bool>, bag: seq<T>, n: nat)
    requires |s| == |fixed| && n < |s| && LeftOf(left, s, fixed, bag, n)
    ensures fixed[n] ==> LeftOf(left, s, fixed, bag, n + 1)
    ensures !fixed[n] ==> LeftOf(left - multiset{s[n]}, s, fixed, bag, n + 1)
    ensures MergeMarks(s, fixed, bag)[n] <==> fixed[n] || s[n] in left
  {
    var next := left - multiset{s[n]};
    assert forall x :: next[x] == if x == s[n] && left[x] > 0 then left[x] - 1 else left[x];
  }

  lemma {:induction false} LeftAtEnd<T(!new)>(left: multiset<T>, s: seq<T>, fixed: seq<bool>, bag: seq<T>)
    requires |s| == |fixed| && LeftOf(left, s, fixed, bag, |s|)
    ensures left == multiset{} <==> multiset(bag) <= multiset(Keep(s, Not(fixed)))
  {
    var free := multiset(Keep(s, Not(fixed)));
    forall x
      ensures left[x] == 0 <==> multiset(bag)[x] <= free[x]
    {
      KeepCount(s, Not(fixed), x);
    }
  }

  // ---------------------------------------------------------------- a choice and what is fixed

  /** The fixed marks together with the chosen ones. */
  function Either(a: seq<bool>, b: seq<bool>): (marks: seq<bool>)
    requires |a| == |b|
    ensures |marks| == |a|
  {
    seq(|a|, i requires 0 <= i < |a| => a[i] || b[i])
  }

  lemma {:induction false} EitherCount<T>(s: seq<T>, fixed: seq<bool>, chosen: seq<bool>, x: T, n: nat)
    requires |s| == |fixed| && Choice(fixed, chosen) && n <= |s|
    ensures Count(s, Either(fixed, chosen), x, n) == Count(s, fixed, x, n) + Count(s, chosen, x, n)
  {
    if n > 0 {
      EitherCount(s, fixed, chosen, x, n - 1);
      assert !(fixed[n - 1] && chosen[n - 1]);
    }
  }

  lemma {:induction false} EitherCopies<T(!new)>(s: seq<T>, fixed: seq<bool>, chosen: seq<bool>)
    requires |s| == |fixed| && Choice(fixed, chosen)
    ensures multiset(Keep(s, Either(fixed, chosen))) == multiset(Keep(s, fixed)) + multiset(Keep(s, chosen))
  {
    forall x: T
      ensures Copies(Keep(s, Either(fixed, chosen)), x) == Copies(Keep(s, fixed), x) + Copies(Keep(s, chosen), x)
    {
      KeepCount(s, Either(fixed, chosen), x);
      KeepCount(s, fixed, x);
      KeepCount(s, chosen, x);
      EitherCount(s, fixed, chosen, x, |s|);
    }
    SameCopies(Keep(s, Either(fixed, chosen)), Keep(s, fixed), Keep(s, chosen));
  }

  lemma {:induction false} ChosenIsFree<T(!new)>(s: seq<T>, fixed: seq<bool>, chosen: seq<bool>)
    requires |s| == |fixed| && Choice(fixed, chosen)
    ensures multiset(Keep(s, chosen)) <= multiset(Keep(s, Not(fixed)))
  {
    forall x: T
      ensures multiset(Keep(s, chosen))[x] <= multiset(Keep(s, Not(fixed)))[x]
    {
      KeepCount(s, chosen, x);
      KeepCount(s, Not(fixed), x);
      CountBelow(s, chosen, Not(fixed), x, |s|);
    }
  }
}
