/** Which messages a budget run must keep (budget_retention.go, rolling_summary.go). */
module Retention {
  import opened Results
  import opened Sequences
  import opened Messages
  import opened Rounds
  import opened Layouts
  import opened RoundIndex

  datatype RetentionPolicy = RetentionPolicy(messageIds: seq<Name>, contentRefs: seq<ContentRef>, roles: seq<Role>)

  /** Content references of messages: nothing for an anonymous or unencodable message. */
  datatype Codec = Codec(ref: Message -> Option<ContentRef>) {
    ghost predicate Lawful() {
      forall m :: ref(m).Some? ==> m.id != Anonymous && ref(m).value.id == m.id && ref(m).value.Valid()
    }
  }

  // ---------------------------------------------------------------- explicit selection

  predicate Wanted(policy: RetentionPolicy, codec: Codec, m: Message) {
    || m.role in policy.roles
    || m.id in policy.messageIds
    || (|policy.contentRefs| > 0 && codec.ref(m).Some? && codec.ref(m).value in policy.contentRefs)
  }

  /** Nothing selected is anonymous, references can be taken, and every explicit selector found a message. */
  predicate Resolvable(policy: RetentionPolicy, codec: Codec, messages: seq<Message>) {
    && (forall i :: 0 <= i < |messages| ==>
          && (|policy.contentRefs| > 0 ==> codec.ref(messages[i]).Some?)
          && (Wanted(policy, codec, messages[i]) ==> messages[i].id != Anonymous))
    && (forall id :: id in policy.messageIds ==> exists i :: 0 <= i < |messages| && messages[i].id == id)
    && (forall ref :: ref in policy.contentRefs ==>
          exists i :: 0 <= i < |messages| && codec.ref(messages[i]) == Some(ref))
  }

  // ---------------------------------------------------------------- round expansion

  predicate Touched(marks: seq<bool>, o: Observation) {
    exists j :: o.start <= j <= o.end && j < |marks| && marks[j]
  }

  /** A message is required once it is marked or shares a round with a marked message. */
  ghost predicate RequiredAt(marks: seq<bool>, rounds: seq<Observation>, i: nat)
    requires i < |marks|
  {
    marks[i] || exists k :: 0 <= k < |rounds| && Inside(rounds[k], i) && Touched(marks, rounds[k])
  }

  method ExpandRequiredRounds(selected: array<bool>, rounds: seq<Observation>)
    requires Ordered(rounds, selected.Length)
    modifies selected
    ensures forall i :: 0 <= i < selected.Length ==> selected[i] == RequiredAt(old(selected[..]), rounds, i)
  {
    ghost var before := selected[..];
    for r := 0 to |rounds|
      invariant forall i :: 0 <= i < selected.Length ==> selected[i] == RequiredAt(before, rounds[..r], i)
      invariant forall i :: 0 <= i < selected.Length && (r > 0 ==> rounds[r - 1].end < i) ==> selected[i] == before[i]
    {
      var o := rounds[r];
      var protect := false;
      for i := o.start to o.end + 1
        invariant protect <==> exists j :: o.start <= j < i && before[j]
      {
        protect := protect || selected[i];
      }
      assert protect == Touched(before, o);
      ghost var middle := selected[..];
      if protect {
        for i := o.start to o.end + 1
          invariant forall j :: 0 <= j < selected.Length ==> selected[j] == (middle[j] || o.start <= j < i)
        {
          selected[i] := true;
        }
      }
      assert forall j :: 0 <= j < selected.Length ==> selected[j] == (middle[j] || (protect && Inside(o, j)));
      RequiredSnoc(before, rounds, r);
    }
    assert rounds[..|rounds|] == rounds;
  }

  lemma {:induction false} RequiredSnoc(marks: seq<bool>, rounds: seq<Observation>, r: nat)
    requires r < |rounds|
    ensures forall i :: 0 <= i < |marks| ==>
              (RequiredAt(marks, rounds[..r + 1], i) <==>
               RequiredAt(marks, rounds[..r], i) || (Touched(marks, rounds[r]) && Inside(rounds[r], i)))
  {
    var less, more := rounds[..r], rounds[..r + 1];
    assert forall k :: 0 <= k < r ==> less[k] == more[k];
    assert more[r] == rounds[r];
    forall i | 0 <= i < |marks|
      ensures RequiredAt(marks, more, i) <==>
              RequiredAt(marks, less, i) || (Touched(marks, rounds[r]) && Inside(rounds[r], i))
    {
      if k :| 0 <= k < |less| && Inside(less[k], i) && Touched(marks, less[k]) {
        assert Inside(more[k], i);
      }
      if Touched(marks, rounds[r]) && Inside(rounds[r], i) {
        assert Inside(more[r], i);
      }
    }
  }

  lemma {:induction false} RequiredIsTouched(marks: seq<bool>, rounds: seq<Observation>, k: nat, i: nat)
    requires k < |rounds| && Ordered(rounds, |marks|) && Inside(rounds[k], i)
    ensures RequiredAt(marks, rounds, i) <==> Touched(marks, rounds[k])
  {
    if marks[i] {
      assert Touched(marks, rounds[k]);
    }
    if l :| 0 <= l < |rounds| && Inside(rounds[l], i) && Touched(marks, rounds[l]) {
      assert l == k;
    }
  }

  // ---------------------------------------------------------------- the protected suffix

  /** `start` moved back to the start of every round that waits for an answer or contains it. */
  function PulledBack(start: nat, rounds: seq<Observation>, whole: bool): nat
    decreases |rounds|
  {
    if |rounds| == 0 then start
    else
      var o := rounds[0];
      var pull := (o.state == Pending && o.start < start) || (whole && o.start < start <= o.end);
      PulledBack(if pull then o.start else start, rounds[1..], whole)
  }

  method RollingTailStart(count: nat, recent: nat, rounds: seq<Observation>) returns (start: nat)
    ensures start == PulledBack(if recent < count then count - recent else 0, rounds, true)
  {
    start := 0;
    if recent < count {
      start := count - recent;
    }
    ghost var initial := start;
    assert rounds[0..] == rounds;
    for k := 0 to |rounds|
      invariant PulledBack(initial, rounds, true) == PulledBack(start, rounds[k..], true)
    {
      SliceHead(rounds, k);
      if (rounds[k].state == Pending && rounds[k].start < start) || rounds[k].start < start <= rounds[k].end {
        start := rounds[k].start;
      }
    }
  }

  /** Where the protected suffix starts: `rolling` is the configured number of recent messages. */
  function SuffixStart(count: nat, rounds: seq<Observation>, rolling: Option<nat>): nat {
    var start := if rolling.None? then count
                 else PulledBack(if rolling.value < count then count - rolling.value else 0, rounds, true);
    PulledBack(start, rounds, false)
  }

  method ProtectBudgetSuffix(selected: array<bool>, rounds: seq<Observation>, rolling: Option<nat>)
    modifies selected
    ensures forall i :: 0 <= i < selected.Length ==>
              selected[i] == (old(selected[i]) || SuffixStart(selected.Length, rounds, rolling) <= i)
  {
    var start: nat := selected.Length;
    if rolling.Some? {
      start := RollingTailStart(selected.Length, rolling.value, rounds);
    }
    ghost var initial := start;
    assert rounds[0..] == rounds;
    for k := 0 to |rounds|
      invariant PulledBack(initial, rounds, false) == PulledBack(start, rounds[k..], false)
      invariant selected[..] == old(selected[..])
    {
      SliceHead(rounds, k);
      if rounds[k].state == Pending && rounds[k].start < start {
        start := rounds[k].start;
      }
    }
    var i := start;
    while i < selected.Length
      invariant start <= i
      invariant forall j :: 0 <= j < selected.Length ==> selected[j] == (old(selected[j]) || start <= j < i)
    {
      selected[i] := true;
      i := i + 1;
    }
  }

  predicate BeforePending(s: nat, rounds: seq<Observation>) {
    forall k :: 0 <= k < |rounds| && rounds[k].state == Pending ==> s <= rounds[k].start
  }

  lemma {:induction false} OrderedTail(rounds: seq<Observation>, count: nat)
    requires |rounds| > 0 && Ordered(rounds, count)
    ensures Ordered(rounds[1..], count)
    ensures forall k :: 0 <= k < |rounds[1..]| ==> rounds[0].end < rounds[1..][k].start
  {
    assert forall k :: 0 <= k < |rounds[1..]| ==> rounds[1..][k] == rounds[k + 1];
  }

  ghost predicate StartOf(s: nat, start: nat, rounds: seq<Observation>) {
    s == start || exists k :: 0 <= k < |rounds| && rounds[k].start == s
  }

  lemma {:induction false} PulledBackPlace(start: nat, rounds: seq<Observation>, whole: bool, count: nat)
    requires Ordered(rounds, count)
    ensures PulledBack(start, rounds, whole) <= start && StartOf(PulledBack(start, rounds, whole), start, rounds)
    decreases |rounds|
  {
    if |rounds| > 0 {
      var o, rest := rounds[0], rounds[1..];
      var next := if (o.state == Pending && o.start < start) || (whole && o.start < start <= o.end) then o.start
        else start;
      OrderedTail(rounds, count);
      PulledBackPlace(next, rest, whole, count);
      var s := PulledBack(next, rest, whole);
      if s != next {
        var k :| 0 <= k < |rest| && rest[k].start == s;
        assert rounds[k + 1].start == s;
      }
    }
  }

  lemma {:induction false} PulledBackUnsplit(start: nat, rounds: seq<Observation>, whole: bool, count: nat)
    requires Ordered(rounds, count) && (whole || Unsplit(rounds, start))
    ensures Unsplit(rounds, PulledBack(start, rounds, whole))
    decreases |rounds|
  {
    if |rounds| > 0 {
      var o, rest := rounds[0], rounds[1..];
      var next := if (o.state == Pending && o.start < start) || (whole && o.start < start <= o.end) then o.start
        else start;
      OrderedTail(rounds, count);
      assert forall k :: 0 < k < |rounds| ==> rounds[k] == rest[k - 1];
      assert !whole ==> Unsplit(rest, next);
      PulledBackUnsplit(next, rest, whole, count);
      PulledBackPlace(next, rest, whole, count);
    }
  }

  lemma {:induction false} PulledBackBeforePending(start: nat, rounds: seq<Observation>, whole: bool, count: nat)
    requires Ordered(rounds, count)
    ensures BeforePending(PulledBack(start, rounds, whole), rounds)
    decreases |rounds|
  {
    if |rounds| > 0 {
      var o, rest := rounds[0], rounds[1..];
      var next := if (o.state == Pending && o.start < start) || (whole && o.start < start <= o.end) then o.start
        else start;
      OrderedTail(rounds, count);
      assert forall k :: 0 < k < |rounds| ==> rounds[k] == rest[k - 1];
      PulledBackBeforePending(next, rest, whole, count);
      PulledBackPlace(next, rest, whole, count);
    }
  }

  lemma {:induction false} PulledBackGreatest(start: nat, rounds: seq<Observation>, whole: bool, t: nat)
    requires t <= start && Unsplit(rounds, t) && BeforePending(t, rounds)
    ensures t <= PulledBack(start, rounds, whole)
    decreases |rounds|
  {
    if |rounds| > 0 {
      var o, rest := rounds[0], rounds[1..];
      assert forall k :: 0 <= k < |rest| ==> rest[k] == rounds[k + 1];
      assert !(o.start < t <= o.end) && (o.state == Pending ==> t <= o.start);
      PulledBackGreatest(
        if (o.state == Pending && o.start < start) || (whole && o.start < start <= o.end) then o.start else start,
        rest, whole, t);
    }
  }

  /** A suffix from `s` on may be protected: it leaves the configured tail inside, waits for no answer
      outside, and cuts no round. */
  predicate Protects(s: nat, count: nat, rounds: seq<Observation>, rolling: Option<nat>) {
    && s <= count
    && (rolling.Some? ==> s == 0 || s + rolling.value <= count)
    && BeforePending(s, rounds)
    && Unsplit(rounds, s)
  }

  /** The protected suffix is the shortest one that keeps the recent tail, keeps every pending round
      and cuts no round. */
  lemma {:induction false} SuffixIsShortest(count: nat, rounds: seq<Observation>, rolling: Option<nat>)
    requires Ordered(rounds, count)
    ensures Protects(SuffixStart(count, rounds, rolling), count, rounds, rolling)
    ensures forall t: nat :: Protects(t, count, rounds, rolling) ==> t <= SuffixStart(count, rounds, rolling)
  {
    var start := count;
    if rolling.Some? {
      var recent: nat := if rolling.value < count then count - rolling.value else 0;
      start := PulledBack(recent, rounds, true);
      PulledBackPlace(recent, rounds, true, count);
      PulledBackUnsplit(recent, rounds, true, count);
      forall t: nat | Protects(t, count, rounds, rolling)
        ensures t <= start
      {
        PulledBackGreatest(recent, rounds, true, t);
      }
    }
    PulledBackPlace(start, rounds, false, count);
    PulledBackUnsplit(start, rounds, false, count);
    PulledBackBeforePending(start, rounds, false, count);
    forall t: nat | Protects(t, count, rounds, rolling)
      ensures t <= SuffixStart(count, rounds, rolling)
    {
      PulledBackGreatest(start, rounds, false, t);
    }
  }

  // ---------------------------------------------------------------- the required marks

  function WantedMarks(policy: RetentionPolicy, codec: Codec, messages: seq<Message>): (marks: seq<bool>)
    ensures |marks| == |messages|
  {
    seq(|messages|, i requires 0 <= i < |messages| => Wanted(policy, codec, messages[i]))
  }

  /** `marks` is what selection, round expansion and suffix protection leave. */
  ghost predicate RequiredMarks(marks: seq<bool>, policy: RetentionPolicy, codec: Codec, messages: seq<Message>,
                                rounds: seq<Observation>, rolling: Option<nat>) {
    && |marks| == |messages|
    && forall i :: 0 <= i < |marks| ==>
         marks[i] == (RequiredAt(WantedMarks(policy, codec, messages), rounds, i) ||
                      SuffixStart(|messages|, rounds, rolling) <= i)
  }

  method SelectRequired(policy: RetentionPolicy, codec: Codec, messages: seq<Message>, rounds: seq<Observation>)
    returns (ok: bool, selected: array<bool>)
    requires Ordered(rounds, |messages|)
    ensures ok <==> Resolvable(policy, codec, messages)
    ensures fresh(selected) && selected.Length == |messages|
    ensures ok ==> forall i :: 0 <= i < selected.Length ==>
                     selected[i] == RequiredAt(WantedMarks(policy, codec, messages), rounds, i)
  {
    selected := new bool[|messages|];
    ghost var wanted := WantedMarks(policy, codec, messages);
    var ids: set<Name> := {};
    var refs: set<ContentRef> := {};
    for i := 0 to |messages|
      invariant forall j :: 0 <= j < i ==> selected[j] == wanted[j]
      invariant forall j :: 0 <= j < i ==>
                  && (|policy.contentRefs| > 0 ==> codec.ref(messages[j]).Some?)
                  && (wanted[j] ==> messages[j].id != Anonymous)
      invariant forall id :: id in ids <==> id in policy.messageIds && exists j :: 0 <= j < i && messages[j].id == id
      invariant forall ref :: ref in refs <==>
                  ref in policy.contentRefs && exists j :: 0 <= j < i && codec.ref(messages[j]) == Some(ref)
    {
      var m := messages[i];
      selected[i] := m.role in policy.roles || m.id in policy.messageIds;
      if m.id in policy.messageIds {
        ids := ids + {m.id};
      }
      if |policy.contentRefs| > 0 {
        var ref := codec.ref(m);
        if ref.None? {
          return false, selected;
        }
        if ref.value in policy.contentRefs {
          selected[i] := true;
          refs := refs + {ref.value};
        }
      }
      if selected[i] && m.id == Anonymous {
        assert wanted[i];
        return false, selected;
      }
    }
    ok := ValidateResolved(policy, ids, refs);
    if ok {
      assert selected[..] == wanted;
      ExpandRequiredRounds(selected, rounds);
    }
  }

  method ValidateResolved(policy: RetentionPolicy, ids: set<Name>, refs: set<ContentRef>) returns (ok: bool)
    ensures ok <==> (forall id :: id in policy.messageIds ==> id in ids) &&
                    (forall ref :: ref in policy.contentRefs ==> ref in refs)
  {
    for k := 0 to |policy.messageIds|
      invariant forall j :: 0 <= j < k ==> policy.messageIds[j] in ids
    {
      if policy.messageIds[k] !in ids {
        return false;
      }
    }
    for k := 0 to |policy.contentRefs|
      invariant forall j :: 0 <= j < k ==> policy.contentRefs[j] in refs
    {
      if policy.contentRefs[k] !in refs {
        return false;
      }
    }
    ok := true;
  }

  lemma {:induction false} RequiredMarksUniform(marks: seq<bool>, policy: RetentionPolicy, codec: Codec,
                                                messages: seq<Message>, rounds: seq<Observation>, rolling: Option<nat>)
    requires Ordered(rounds, |messages|) && RequiredMarks(marks, policy, codec, messages, rounds, rolling)
    ensures RoundsUniform(rounds, marks)
    ensures forall k :: 0 <= k < |rounds| && rounds[k].state == Pending ==> marks[rounds[k].start]
  {
    var wanted := WantedMarks(policy, codec, messages);
    var s := SuffixStart(|messages|, rounds, rolling);
    SuffixIsShortest(|messages|, rounds, rolling);
    forall k, i | 0 <= k < |rounds| && rounds[k].start <= i <= rounds[k].end < |marks|
      ensures marks[i] == marks[rounds[k].start]
    {
      RequiredIsTouched(wanted, rounds, k, i);
      RequiredIsTouched(wanted, rounds, k, rounds[k].start);
      assert s <= i <==> s <= rounds[k].start;
    }
  }

  /** After selection, expansion and suffix protection: no round is divided, every pending round and
      the configured recent tail are required, everything selected is required, and what may be evicted
      is a valid history without pending rounds. */
  lemma {:induction false} RequirementsRespectRounds(marks: seq<bool>, policy: RetentionPolicy, codec: Codec,
                                                     messages: seq<Message>, rolling: Option<nat>)
    requires Valid(messages)
    requires RequiredMarks(marks, policy, codec, messages, Inspect(messages, map[]).rounds, rolling)
    ensures Uniform(Split(messages), marks)
    ensures var rounds := Inspect(messages, map[]).rounds;
            forall k :: 0 <= k < |rounds| && rounds[k].state == Pending ==>
                rounds[k].start < |marks| && marks[rounds[k].start]
    ensures forall i :: 0 <= i < |marks| && Wanted(policy, codec, messages[i]) ==> marks[i]
    ensures rolling.Some? ==> forall i :: 0 <= i < |marks| && |marks| <= i + rolling.value ==> marks[i]
    ensures ValidComplete(Keep(messages, Not(marks)))
  {
    var rounds := Inspect(messages, map[]).rounds;
    RoundsPartition(messages);
    RequiredMarksUniform(marks, policy, codec, messages, rounds, rolling);
    UniformOfRounds(messages, marks);
    SuffixIsShortest(|messages|, rounds, rolling);
    assert forall i :: 0 <= i < |marks| ==>
             WantedMarks(policy, codec, messages)[i] == Wanted(policy, codec, messages[i]);
    KeptWithoutPending(messages, Not(marks));
  }
}
