/** Optional values shared by every module. */
module Results {
  datatype Option<+T> = None | Some(value: T)
}

/** Sequence vocabulary: marked selections, distinctness and sums. */
module Sequences {

  /** Equality of values, without looking into their structure. */
  ghost predicate Same<T>(a: T, b: T) {
    a == b
  }

  predicate Distinct<T(==)>(s: seq<T>) {
    forall i, j :: 0 <= i < j < |s| ==> s[i] != s[j]
  }

  lemma {:induction false} DistinctCount<T>(s: seq<T>, x: T)
    requires Distinct(s)
    ensures multiset(s)[x] == if x in s then 1 else 0
  {
    if |s| > 0 {
      var front, last := s[..|s| - 1], s[|s| - 1];
      assert s == front + [last];
      DistinctCount(front, x);
      assert multiset(s) == multiset(front) + multiset{last};
    }
  }

  lemma {:induction false} SubsetSize<T>(a: set<T>, b: set<T>)
    requires a <= b
    ensures |a| <= |b| && (|a| == |b| <==> a == b)
  {
    assert b == a + (b - a) && |b| == |a| + |b - a|;
    if |a| == |b| {
      assert b - a == {};
    }
  }

  lemma SliceHead<T>(s: seq<T>, i: nat)
    requires i < |s|
    ensures s[i..] == [s[i]] + s[i + 1..] && s[i..][1..] == s[i + 1..]
  {
  }

  lemma SliceWithin<T>(s: seq<T>, i: nat, j: nat)
    requires i < j <= |s|
    ensures s[i..][0] == s[i] && s[i..][1..j - i] == s[i + 1..j] && s[i..][j - i..] == s[j..]
  {
  }

  lemma SliceBlock<T>(s: seq<T>, i: nat, j: nat)
    requires i < j <= |s|
    ensures s[i..] == [s[i]] + s[i + 1..j] + s[j..]
  {
  }

  lemma ConcatAssoc<T>(a: seq<T>, b: seq<T>, c: seq<T>)
    ensures a + b + c == a + (b + c)
  {
  }

  lemma {:induction false} DistinctConcat<T>(a: seq<T>, b: seq<T>)
    ensures Distinct(a + b) <==> Distinct(a) && Distinct(b) && forall x :: x in a ==> x !in b
  {
    var c := a + b;
    assert forall i :: 0 <= i < |a| ==> c[i] == a[i];
    assert forall i :: 0 <= i < |b| ==> c[|a| + i] == b[i];
    if Distinct(c) {
      forall i, j | 0 <= i < j < |b|
        ensures b[i] != b[j]
      {
        assert c[|a| + i] != c[|a| + j];
      }
      assert forall i, j :: 0 <= i < |a| && 0 <= j < |b| ==> a[i] != b[j];
    } else {
      var i, j :| 0 <= i < j < |c| && c[i] == c[j];
      if j < |a| {
        assert a[i] == a[j];
      } else if |a| <= i {
        assert b[i - |a|] == b[j - |a|];
      } else {
        assert a[i] in a && a[i] == b[j - |a|];
      }
    }
  }

  /** The elements of `s` whose mark is set, in order. */
  function Keep<T>(s: seq<T>, marks: seq<bool>): seq<T>
    requires |s| == |marks|
  {
    if s == [] then []
    else (if marks[0] then [s[0]] else []) + Keep(s[1..], marks[1..])
  }

  function Not(marks: seq<bool>): seq<bool> {
    seq(|marks|, i requires 0 <= i < |marks| => !marks[i])
  }

  lemma {:induction false} KeepConcat<T>(a: seq<T>, b: seq<T>, ma: seq<bool>, mb: seq<bool>)
    requires |a| == |ma| && |b| == |mb|
    ensures Keep(a + b, ma + mb) == Keep(a, ma) + Keep(b, mb)
  {
    if a == [] {
      assert a + b == b && ma + mb == mb;
    } else {
      var s, m := a + b, ma + mb;
      var head := if ma[0] then [a[0]] else [];
      assert s[0] == a[0] && s[1..] == a[1..] + b;
      assert m[0] == ma[0] && m[1..] == ma[1..] + mb;
      KeepConcat(a[1..], b, ma[1..], mb);
      ConcatAssoc(head, Keep(a[1..], ma[1..]), Keep(b, mb));
    }
  }

  lemma {:induction false} KeepSnoc<T>(s: seq<T>, marks: seq<bool>, i: nat)
    requires |s| == |marks| && i < |s|
    ensures Keep(s[..i + 1], marks[..i + 1]) == Keep(s[..i], marks[..i]) + (if marks[i] then [s[i]] else [])
  {
    assert s[..i + 1] == s[..i] + [s[i]] && marks[..i + 1] == marks[..i] + [marks[i]];
    KeepConcat(s[..i], [s[i]], marks[..i], [marks[i]]);
    assert Keep([s[i]], [marks[i]]) == if marks[i] then [s[i]] else [];
  }

  lemma {:induction false} KeepWhole<T>(s: seq<T>, marks: seq<bool>)
    requires |s| == |marks|
    ensures Keep(s[..|s|], marks[..|s|]) == Keep(s, marks)
  {
    assert s[..|s|] == s && marks[..|s|] == marks;
  }

  lemma {:induction false} KeepAll<T>(s: seq<T>, marks: seq<bool>)
    requires |s| == |marks|
    requires forall i :: 0 <= i < |marks| ==> marks[i]
    ensures Keep(s, marks) == s
  {
    if s != [] {
      KeepAll(s[1..], marks[1..]);
    }
  }

  lemma {:induction false} KeepNone<T>(s: seq<T>, marks: seq<bool>)
    requires |s| == |marks|
    requires forall i :: 0 <= i < |marks| ==> !marks[i]
    ensures Keep(s, marks) == []
  {
    if s != [] {
      KeepNone(s[1..], marks[1..]);
    }
  }

  lemma {:induction false} KeepMembers<T>(s: seq<T>, marks: seq<bool>)
    requires |s| == |marks|
    ensures |Keep(s, marks)| <= |s|
    ensures forall x :: x in Keep(s, marks) <==> exists i :: 0 <= i < |s| && marks[i] && s[i] == x
  {
    if s != [] {
      KeepMembers(s[1..], marks[1..]);
      forall x
        ensures x in Keep(s, marks) <==> exists i :: 0 <= i < |s| && marks[i] && s[i] == x
      {
        if x in Keep(s[1..], marks[1..]) {
          var i :| 0 <= i < |s[1..]| && marks[1..][i] && s[1..][i] == x;
          assert marks[i + 1] && s[i + 1] == x;
        }
        if i :| 0 <= i < |s| && marks[i] && s[i] == x {
          if i > 0 {
            assert marks[1..][i - 1] && s[1..][i - 1] == x;
          }
        }
      }
    }
  }

  // ---------------------------------------------------------------- positions of what is kept

  /** The kept elements stand at increasing positions of the original. */
  ghost predicate Placed<T>(kept: seq<T>, s: seq<T>, at: seq<nat>) {
    && |at| == |kept|
    && (forall k :: 0 <= k < |at| ==> at[k] < |s| && s[at[k]] == kept[k])
    && (forall k, l :: 0 <= k < l < |at| ==> at[k] < at[l])
  }

  ghost predicate Listed(at: seq<nat>, i: nat) {
    exists k :: 0 <= k < |at| && at[k] == i
  }

  /** Every marked position below `n` is listed. */
  ghost predicate ListsAll(marks: seq<bool>, at: seq<nat>, n: nat)
    requires n <= |marks|
  {
    forall i: nat :: i < n && marks[i] ==> Listed(at, i)
  }

  lemma {:induction false} ListsNext(marks: seq<bool>, front: seq<nat>, at: seq<nat>, n: nat)
    requires n < |marks| && ListsAll(marks, front, n) && at == if marks[n] then front + [n] else front
    ensures ListsAll(marks, at, n + 1)
  {
    forall i: nat | i < n + 1 && marks[i]
      ensures Listed(at, i)
    {
      if i < n {
        assert Listed(front, i);
        var k :| 0 <= k < |front| && front[k] == i;
        assert at[k] == i;
      } else {
        assert at[|front|] == n;
      }
    }
  }

  lemma {:induction false} PlacedNext<T>(s: seq<T>, marks: seq<bool>, front: seq<nat>, at: seq<nat>, n: nat)
    requires |s| == |marks| && n < |s| && Placed(Keep(s[..n], marks[..n]), s, front)
    requires (forall k :: 0 <= k < |front| ==> front[k] < n && marks[front[k]])
    requires at == if marks[n] then front + [n] else front
    ensures Placed(Keep(s[..n + 1], marks[..n + 1]), s, at)
    ensures forall k :: 0 <= k < |at| ==> at[k] < n + 1 && marks[at[k]]
  {
    KeepSnoc(s, marks, n);
  }

  lemma {:induction false} PlacedUpTo<T>(s: seq<T>, marks: seq<bool>, n: nat) returns (at: seq<nat>)
    requires |s| == |marks| && n <= |s|
    ensures Placed(Keep(s[..n], marks[..n]), s, at) && ListsAll(marks, at, n)
    ensures forall k :: 0 <= k < |at| ==> at[k] < n && marks[at[k]]
  {
    if n == 0 {
      at := [];
    } else {
      var front := PlacedUpTo(s, marks, n - 1);
      at := if marks[n - 1] then front + [n - 1] else front;
      PlacedNext(s, marks, front, at, n - 1);
      ListsNext(marks, front, at, n - 1);
    }
  }

  lemma {:induction false} KeepPlaced<T>(s: seq<T>, marks: seq<bool>) returns (at: seq<nat>)
    requires |s| == |marks|
    ensures Placed(Keep(s, marks), s, at) && ListsAll(marks, at, |marks|)
    ensures forall k :: 0 <= k < |at| ==> marks[at[k]]
  {
    at := PlacedUpTo(s, marks, |s|);
    KeepWhole(s, marks);
  }

  /** Fewer marks keep a subsequence of what more marks keep. */
  lemma {:induction false} KeepFewer<T>(s: seq<T>, fewer: seq<bool>, more: seq<bool>) returns (marks: seq<bool>)
    requires |s| == |fewer| == |more| && forall i :: 0 <= i < |s| && fewer[i] ==> more[i]
    ensures |marks| == |Keep(s, more)| && Keep(Keep(s, more), marks) == Keep(s, fewer)
    decreases |s|
  {
    if |s| == 0 {
      marks := [];
    } else {
      var rest := KeepFewer(s[1..], fewer[1..], more[1..]);
      var kept := Keep(s[1..], more[1..]);
      if more[0] {
        marks := [fewer[0]] + rest;
        assert ([s[0]] + kept)[1..] == kept && marks[1..] == rest;
      } else {
        marks := rest;
        assert [] + kept == kept && [] + Keep(s[1..], fewer[1..]) == Keep(s[1..], fewer[1..]);
      }
    }
  }

  /** A suffix that is marked throughout is kept as it is. */
  lemma {:induction false} KeepSuffix<T>(s: seq<T>, marks: seq<bool>, from: nat)
    requires |s| == |marks| && from <= |s|
    requires forall i :: from <= i < |s| ==> marks[i]
    ensures Keep(s, marks) == Keep(s[..from], marks[..from]) + s[from..]
  {
    assert s == s[..from] + s[from..] && marks == marks[..from] + marks[from..];
    KeepConcat(s[..from], s[from..], marks[..from], marks[from..]);
    KeepAll(s[from..], marks[from..]);
  }

  /** Taking one mark away takes one occurrence away. */
  lemma {:induction false} KeepUnmark<T>(s: seq<T>, marks: seq<bool>, j: nat)
    requires |s| == |marks| && j < |s| && marks[j]
    ensures multiset(Keep(s, marks)) == multiset(Keep(s, marks[j := false])) + multiset{s[j]}
  {
    var a, x, b := Keep(s[..j], marks[..j]), s[j], Keep(s[j + 1..], marks[j + 1..]);
    KeepAround(s, marks, j);
    KeepAround(s, marks[j := false], j);
    assert marks[j := false][..j] == marks[..j] && marks[j := false][j + 1..] == marks[j + 1..];
    assert multiset(a + [x] + b) == multiset(a) + multiset{x} + multiset(b);
    assert a + [] + b == a + b;
  }

  lemma {:induction false} KeepAround<T>(s: seq<T>, marks: seq<bool>, j: nat)
    requires |s| == |marks| && j < |s|
    ensures Keep(s, marks) ==
            Keep(s[..j], marks[..j]) + (if marks[j] then [s[j]] else []) + Keep(s[j + 1..], marks[j + 1..])
  {
    KeepSnoc(s, marks, j);
    assert s == s[..j + 1] + s[j + 1..] && marks == marks[..j + 1] + marks[j + 1..];
    KeepConcat(s[..j + 1], s[j + 1..], marks[..j + 1], marks[j + 1..]);
  }
}
