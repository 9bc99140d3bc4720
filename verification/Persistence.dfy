/** What a compiled conversation writes back (transform_record.go, persistence_projection.go). */
module Persistence {
  import opened Results
  import opened Sequences
  import opened Messages
  import opened Exclusions

  const EVICTED := "evicted"
  const TRUNCATED := "truncated"
  const FORMATTED := "formatted"
  const PASSED := "passed"
  const REPLACED_BY_DEFERRED := "replaced_by_deferred"

  // ---------------------------------------------------------------- the effective outcome of a chain

  predicate InPlace(reason: string) {
    reason != REPLACED_BY_FORMATTER && reason != REPLACED_BY_HOOK && reason != REPLACED_BY_DEFERRED
  }

  predicate Removing(step: TransformStep) {
    step.action == EVICTED || step.action == TRUNCATED
  }

  predicate Replacing(step: TransformStep) {
    step.action == FORMATTED && !InPlace(step.reason)
  }

  /** A step that neither removes nor replaces the message. */
  predicate Harmless(step: TransformStep) {
    step.action == PASSED || (step.action == FORMATTED && InPlace(step.reason))
  }

  function Advance(final: TransformStep, step: TransformStep): TransformStep {
    if Removing(step) then step
    else if step.action != PASSED && step.action != FORMATTED then final
    else if Removing(final) || Replacing(final) then final
    else step
  }

  function FinalOf(chain: seq<TransformStep>, n: nat): TransformStep
    requires n <= |chain|
  {
    if n == 0 then TransformStep("", "") else Advance(FinalOf(chain, n - 1), chain[n - 1])
  }

  method Final(chain: seq<TransformStep>) returns (final: TransformStep)
    ensures final == FinalOf(chain, |chain|)
  {
    final := TransformStep("", "");
    for k := 0 to |chain|
      invariant final == FinalOf(chain, k)
    {
      if Removing(chain[k]) {
        final := chain[k];
      } else if chain[k].action == PASSED || chain[k].action == FORMATTED {
        if Removing(final) || Replacing(final) {
          continue;
        }
        final := chain[k];
      }
    }
  }

  predicate Has(p: TransformStep -> bool, chain: seq<TransformStep>, n: nat)
    requires n <= |chain|
  {
    exists k :: 0 <= k < n && p(chain[k])
  }

  lemma HasSnoc(p: TransformStep -> bool, chain: seq<TransformStep>, n: nat)
    requires n < |chain|
    ensures Has(p, chain, n + 1) <==> Has(p, chain, n) || p(chain[n])
  {
  }

  /** The outcome by its kind: a removal anywhere wins, then a replacement anywhere, then any harmless step. */
  lemma {:induction false} FinalKind(chain: seq<TransformStep>, n: nat)
    requires n <= |chain|
    ensures Removing(FinalOf(chain, n)) <==> Has(Removing, chain, n)
    ensures Replacing(FinalOf(chain, n)) <==> Has(Replacing, chain, n) && !Has(Removing, chain, n)
    ensures Harmless(FinalOf(chain, n)) <==>
            Has(Harmless, chain, n) && !Has(Replacing, chain, n) && !Has(Removing, chain, n)
  {
    if n > 0 {
      FinalKind(chain, n - 1);
      HasSnoc(Removing, chain, n - 1);
      HasSnoc(Replacing, chain, n - 1);
      HasSnoc(Harmless, chain, n - 1);
    }
  }

  /** Among several steps of the deciding kind: the last removal, the first replacement, the last harmless step. */
  ghost predicate Decides(chain: seq<TransformStep>, n: nat, k: nat)
    requires k < n <= |chain|
  {
    if Has(Removing, chain, n) then
      Removing(chain[k]) && forall j :: k < j < n ==> !Removing(chain[j])
    else if Has(Replacing, chain, n) then
      Replacing(chain[k]) && forall j :: 0 <= j < k ==> !Replacing(chain[j])
    else
      Harmless(chain[k]) && forall j :: k < j < n ==> !Harmless(chain[j])
  }

  lemma {:induction false} FinalDecides(chain: seq<TransformStep>, n: nat, k: nat)
    requires k < n <= |chain| && Decides(chain, n, k)
    ensures FinalOf(chain, n) == chain[k]
  {
    FinalKind(chain, n - 1);
    HasSnoc(Removing, chain, n - 1);
    HasSnoc(Replacing, chain, n - 1);
    HasSnoc(Harmless, chain, n - 1);
    if k < n - 1 {
      if Decides(chain, n - 1, k) {
        FinalDecides(chain, n - 1, k);
      }
    }
  }

  /** A message is written back exactly when some step declared it and none removed or replaced it. */
  lemma {:induction false} PersistsIff(chain: seq<TransformStep>)
    ensures Harmless(FinalOf(chain, |chain|)) <==>
            && (exists k :: 0 <= k < |chain| && Harmless(chain[k]))
            && (forall k :: 0 <= k < |chain| ==> !Removing(chain[k]) && !Replacing(chain[k]))
  {
    FinalKind(chain, |chain|);
  }

  // ---------------------------------------------------------------- the order of what is written

  predicate HasId(messages: seq<Message>, id: Name, n: nat)
    requires n <= |messages|
  {
    exists k :: 0 <= k < n && messages[k].id == id
  }

  /** The last message with that identity. */
  function LastWith(messages: seq<Message>, id: Name): (m: Message)
    requires HasId(messages, id, |messages|)
    ensures m in messages && m.id == id
  {
    var last := |messages| - 1;
    if messages[last].id == id then messages[last]
    else
      assert forall k :: 0 <= k < last ==> messages[..last][k] == messages[k];
      LastWith(messages[..last], id)
  }

  predicate FirstOfItsId(messages: seq<Message>, n: nat)
    requires n < |messages|
  {
    !HasId(messages, messages[n].id, n)
  }

  /** The selected messages the payload names, in the order of the payload. */
  function Led(selected: seq<Message>, payload: seq<Message>, n: nat): seq<Message>
    requires n <= |payload|
  {
    if n == 0 then []
    else
      var id := payload[n - 1].id;
      Led(selected, payload, n - 1) +
      if HasId(selected, id, |selected|) && FirstOfItsId(payload, n - 1) then [LastWith(selected, id)] else []
  }

  /** The others, in their own order. */
  function Trailing(selected: seq<Message>, payload: seq<Message>, n: nat): seq<Message>
    requires n <= |selected|
  {
    if n == 0 then []
    else
      Trailing(selected, payload, n - 1) +
      if !HasId(payload, selected[n - 1].id, |payload|) && FirstOfItsId(selected, n - 1) then [selected[n - 1]] else []
  }

  function InPayloadOrder(selected: seq<Message>, payload: seq<Message>): seq<Message> {
    Led(selected, payload, |payload|) + Trailing(selected, payload, |selected|)
  }

  /** The table maps every identity of the selection outside the first `n` payload messages to its last message. */
  ghost predicate Table(byId: map<Name, Message>, selected: seq<Message>, payload: seq<Message>, n: nat)
    requires n <= |payload|
  {
    forall id :: (id in byId <==> HasId(selected, id, |selected|) && !HasId(payload, id, n))
                 && (id in byId ==> byId[id] == LastWith(selected, id))
  }

  lemma HasIdNext(messages: seq<Message>, id: Name, n: nat)
    requires n < |messages|
    ensures HasId(messages, id, n + 1) <==> HasId(messages, id, n) || messages[n].id == id
  {
  }

  lemma {:induction false} LastWithNext(messages: seq<Message>, id: Name, n: nat)
    requires n < |messages|
    ensures HasId(messages[..n + 1], id, n + 1) <==> HasId(messages[..n], id, n) || messages[n].id == id
    ensures HasId(messages[..n + 1], id, n + 1) ==>
              LastWith(messages[..n + 1], id) ==
              if messages[n].id == id then messages[n] else LastWith(messages[..n], id)
  {
    assert messages[..n + 1][..n] == messages[..n];
    assert forall k :: 0 <= k < n ==> messages[..n + 1][k] == messages[k] && messages[..n][k] == messages[k];
  }

  method IndexById(selected: seq<Message>, ghost payload: seq<Message>) returns (byId: map<Name, Message>)
    ensures Table(byId, selected, payload, 0)
  {
    byId := map[];
    for k := 0 to |selected|
      invariant forall id :: (id in byId <==> HasId(selected[..k], id, k))
                             && (id in byId ==> byId[id] == LastWith(selected[..k], id))
    {
      forall id
        ensures HasId(selected[..k + 1], id, k + 1) <==> HasId(selected[..k], id, k) || selected[k].id == id
        ensures HasId(selected[..k + 1], id, k + 1) ==>
                  LastWith(selected[..k + 1], id) == if selected[k].id == id then selected[k]
                    else LastWith(selected[..k], id)
      {
        LastWithNext(selected, id, k);
      }
      byId := byId[selected[k].id := selected[k]];
    }
    assert selected[..|selected|] == selected;
  }

  lemma {:induction false} TableNext(byId: map<Name, Message>, selected: seq<Message>, payload: seq<Message>, n: nat)
    requires n < |payload| && Table(byId, selected, payload, n)
    ensures Table(byId - {payload[n].id}, selected, payload, n + 1)
    ensures payload[n].id in byId <==> HasId(selected, payload[n].id, |selected|) && FirstOfItsId(payload, n)
  {
    forall id
      ensures HasId(payload, id, n + 1) <==> HasId(payload, id, n) || payload[n].id == id
    {
      HasIdNext(payload, id, n);
    }
  }

  /** What is still in the table while the rest is appended. */
  ghost predicate Remaining(byId: map<Name, Message>, selected: seq<Message>, payload: seq<Message>, n: nat)
    requires n <= |selected|
  {
    forall id :: id in byId <==>
      HasId(selected, id, |selected|) && !HasId(payload, id, |payload|) && !HasId(selected, id, n)
  }

  lemma {:induction false} RemainingNext(byId: map<Name, Message>, selected: seq<Message>, payload: seq<Message>,
                                         n: nat)
    requires n < |selected| && Remaining(byId, selected, payload, n)
    ensures Remaining(byId - {selected[n].id}, selected, payload, n + 1)
    ensures selected[n].id in byId <==> !HasId(payload, selected[n].id, |payload|) && FirstOfItsId(selected, n)
  {
    forall id
      ensures HasId(selected, id, n + 1) <==> HasId(selected, id, n) || selected[n].id == id
    {
      HasIdNext(selected, id, n);
    }
  }

  lemma LedNext(selected: seq<Message>, payload: seq<Message>, n: nat, found: bool)
    requires n < |payload| && found == (HasId(selected, payload[n].id, |selected|) && FirstOfItsId(payload, n))
    ensures Led(selected, payload, n + 1) ==
            if found then Led(selected, payload, n) + [LastWith(selected, payload[n].id)] else Led(selected, payload, n)
  {
  }

  method LeadByPayload(selected: seq<Message>, payload: seq<Message>, table: map<Name, Message>)
    returns (out: seq<Message>, byId: map<Name, Message>)
    requires Table(table, selected, payload, 0)
    ensures out == Led(selected, payload, |payload|) && Remaining(byId, selected, payload, 0)
  {
    out, byId := [], table;
    for n := 0 to |payload|
      invariant Table(byId, selected, payload, n) && out == Led(selected, payload, n)
    {
      TableNext(byId, selected, payload, n);
      LedNext(selected, payload, n, payload[n].id in byId);
      if payload[n].id in byId {
        out := out + [byId[payload[n].id]];
        byId := byId - {payload[n].id};
      } else {
        assert byId - {payload[n].id} == byId;
      }
    }
  }

  lemma TrailingNext(selected: seq<Message>, payload: seq<Message>, n: nat, found: bool)
    requires n < |selected| && found == (!HasId(payload, selected[n].id, |payload|) && FirstOfItsId(selected, n))
    ensures Trailing(selected, payload, n + 1) ==
            if found then Trailing(selected, payload, n) + [selected[n]] else Trailing(selected, payload, n)
  {
  }

  method AppendRest(selected: seq<Message>, payload: seq<Message>, table: map<Name, Message>)
    returns (out: seq<Message>)
    requires Remaining(table, selected, payload, 0)
    ensures out == Trailing(selected, payload, |selected|)
  {
    var byId := table;
    out := [];
    for n := 0 to |selected|
      invariant Remaining(byId, selected, payload, n) && out == Trailing(selected, payload, n)
    {
      RemainingNext(byId, selected, payload, n);
      TrailingNext(selected, payload, n, selected[n].id in byId);
      if selected[n].id in byId {
        out := out + [selected[n]];
        byId := byId - {selected[n].id};
      } else {
        assert byId - {selected[n].id} == byId;
      }
    }
  }

  method OrderPersistenceMessages(selected: seq<Message>, payload: seq<Message>) returns (out: seq<Message>)
    ensures out == InPayloadOrder(selected, payload)
  {
    var table := IndexById(selected, payload);
    var led, byId := LeadByPayload(selected, payload, table);
    var rest := AppendRest(selected, payload, byId);
    out := led + rest;
  }

  // ---------------------------------------------------------------- nothing is lost or doubled

  predicate DistinctIds(messages: seq<Message>) {
    forall i, j :: 0 <= i < j < |messages| ==> messages[i].id != messages[j].id
  }

  predicate Within(part: seq<Message>, all: seq<Message>) {
    forall k :: 0 <= k < |part| ==> part[k] in all
  }

  lemma {:induction false} HasIdConcat(a: seq<Message>, b: seq<Message>, id: Name)
    ensures HasId(a + b, id, |a + b|) <==> HasId(a, id, |a|) || HasId(b, id, |b|)
  {
    var c := a + b;
    assert forall k :: 0 <= k < |a| ==> c[k] == a[k];
    assert forall k :: 0 <= k < |b| ==> c[|a| + k] == b[k];
    if k :| 0 <= k < |c| && c[k].id == id {
      assert if k < |a| then a[k].id == id else b[k - |a|].id == id;
    }
  }

  lemma DistinctIdsConcat(a: seq<Message>, b: seq<Message>)
    requires DistinctIds(a) && DistinctIds(b) && forall k :: 0 <= k < |b| ==> !HasId(a, b[k].id, |a|)
    ensures DistinctIds(a + b)
  {
  }

  /** `out` holds each identity that `wanted` asks for exactly once, always with a message of `all`. */
  ghost predicate Serves(out: seq<Message>, all: seq<Message>, wanted: iset<Name>) {
    DistinctIds(out) && Within(out, all) && forall id :: HasId(out, id, |out|) <==> id in wanted
  }

  ghost function IdsOf(messages: seq<Message>): iset<Name> {
    iset id | HasId(messages, id, |messages|)
  }

  ghost function Before(selected: seq<Message>, payload: seq<Message>, n: nat): iset<Name>
    requires n <= |payload|
  {
    iset id | HasId(selected, id, |selected|) && HasId(payload, id, n)
  }

  ghost function Behind(selected: seq<Message>, payload: seq<Message>, n: nat): iset<Name>
    requires n <= |selected|
  {
    iset id | HasId(selected, id, n) && !HasId(payload, id, |payload|)
  }

  lemma {:induction false} ServesOneMore(out: seq<Message>, all: seq<Message>, wanted: iset<Name>, m: Message)
    requires Serves(out, all, wanted) && m in all && m.id !in wanted
    ensures Serves(out + [m], all, wanted + iset{m.id})
  {
    DistinctIdsConcat(out, [m]);
    forall id
      ensures HasId(out + [m], id, |out + [m]|) <==> id in wanted || id == m.id
    {
      HasIdConcat(out, [m], id);
      assert HasId([m], id, 1) <==> [m][0].id == id;
    }
  }

  lemma {:induction false} BeforeNext(selected: seq<Message>, payload: seq<Message>, n: nat, found: bool)
    requires n < |payload| && found == (HasId(selected, payload[n].id, |selected|) && FirstOfItsId(payload, n))
    ensures Before(selected, payload, n + 1) == Before(selected, payload, n) + if found then iset{payload[n].id}
            else iset{}
    ensures found ==> payload[n].id !in Before(selected, payload, n)
  {
    forall id
      ensures HasId(payload, id, n + 1) <==> HasId(payload, id, n) || payload[n].id == id
    {
      HasIdNext(payload, id, n);
    }
  }

  lemma {:induction false} BehindNext(selected: seq<Message>, payload: seq<Message>, n: nat, found: bool)
    requires n < |selected| && found == (!HasId(payload, selected[n].id, |payload|) && FirstOfItsId(selected, n))
    ensures Behind(selected, payload, n + 1) == Behind(selected, payload, n) + if found then iset{selected[n].id}
            else iset{}
    ensures found ==> selected[n].id !in Behind(selected, payload, n)
  {
    forall id
      ensures HasId(selected, id, n + 1) <==> HasId(selected, id, n) || selected[n].id == id
    {
      HasIdNext(selected, id, n);
    }
  }

  lemma {:induction false} LedServes(selected: seq<Message>, payload: seq<Message>, n: nat)
    requires n <= |payload|
    ensures Serves(Led(selected, payload, n), selected, Before(selected, payload, n))
  {
    if n > 0 {
      var id := payload[n - 1].id;
      var found := HasId(selected, id, |selected|) && FirstOfItsId(payload, n - 1);
      LedServes(selected, payload, n - 1);
      LedNext(selected, payload, n - 1, found);
      BeforeNext(selected, payload, n - 1, found);
      var now := Before(selected, payload, n - 1);
      if found {
        ServesOneMore(Led(selected, payload, n - 1), selected, now, LastWith(selected, id));
      } else {
        assert Before(selected, payload, n) == now;
      }
    }
  }

  lemma {:induction false} TrailingServes(selected: seq<Message>, payload: seq<Message>, n: nat)
    requires n <= |selected|
    ensures Serves(Trailing(selected, payload, n), selected, Behind(selected, payload, n))
  {
    if n > 0 {
      var m := selected[n - 1];
      var found := !HasId(payload, m.id, |payload|) && FirstOfItsId(selected, n - 1);
      TrailingServes(selected, payload, n - 1);
      TrailingNext(selected, payload, n - 1, found);
      BehindNext(selected, payload, n - 1, found);
      var now := Behind(selected, payload, n - 1);
      if found {
        ServesOneMore(Trailing(selected, payload, n - 1), selected, now, m);
      } else {
        assert Behind(selected, payload, n) == now;
      }
    }
  }

  /** Every identity of the selection comes out exactly once, with a message of the selection. */
  lemma {:induction false} OrderServes(selected: seq<Message>, payload: seq<Message>)
    ensures Serves(InPayloadOrder(selected, payload), selected, IdsOf(selected))
  {
    var led, rest := Led(selected, payload, |payload|), Trailing(selected, payload, |selected|);
    LedServes(selected, payload, |payload|);
    TrailingServes(selected, payload, |selected|);
    forall k | 0 <= k < |rest|
      ensures !HasId(led, rest[k].id, |led|)
    {
      assert HasId(rest, rest[k].id, |rest|);
    }
    DistinctIdsConcat(led, rest);
    forall id
      ensures HasId(led + rest, id, |led + rest|) <==> HasId(selected, id, |selected|)
    {
      HasIdConcat(led, rest, id);
    }
  }

  lemma {:induction false} SameMembers(a: seq<Message>, b: seq<Message>)
    requires Distinct(a) && Distinct(b) && forall x :: x in a <==> x in b
    ensures multiset(a) == multiset(b)
  {
    forall x: Message
      ensures multiset(a)[x] == multiset(b)[x]
    {
      DistinctCount(a, x);
      DistinctCount(b, x);
    }
  }

  /** Ordering permutes the selection exactly when no identity repeats in it. */
  lemma {:induction false} OrderPermutesIff(selected: seq<Message>, payload: seq<Message>)
    ensures multiset(InPayloadOrder(selected, payload)) == multiset(selected) <==> DistinctIds(selected)
  {
    var out := InPayloadOrder(selected, payload);
    OrderServes(selected, payload);
    if DistinctIds(selected) {
      ServedAll(out, selected);
      SameMembers(out, selected);
    } else if multiset(out) == multiset(selected) {
      var i, j :| 0 <= i < j < |selected| && selected[i].id == selected[j].id;
      RepeatedId(out, selected, i, j);
    }
  }

  lemma {:induction false} ServedAll(out: seq<Message>, all: seq<Message>)
    requires Serves(out, all, IdsOf(all)) && DistinctIds(all)
    ensures forall x :: x in out <==> x in all
  {
    forall x | x in all
      ensures x in out
    {
      var i :| 0 <= i < |all| && all[i] == x;
      assert HasId(all, x.id, |all|) && HasId(out, x.id, |out|);
      var k :| 0 <= k < |out| && out[k].id == x.id;
      assert out[k] in all;
      var j :| 0 <= j < |all| && all[j] == out[k];
      assert j == i;
    }
  }

  lemma {:induction false} RepeatedId(out: seq<Message>, all: seq<Message>, i: nat, j: nat)
    requires DistinctIds(out) && i < j < |all| && all[i].id == all[j].id
    ensures multiset(out) != multiset(all)
  {
    if all[i] == all[j] {
      DistinctCount(out, all[i]);
      TwoCopies(all, i, j);
    } else {
      assert all[i] in multiset(all) && all[j] in multiset(all);
    }
  }

  lemma {:induction false} TwoCopies(all: seq<Message>, i: nat, j: nat)
    requires i < j < |all| && all[i] == all[j]
    ensures multiset(all)[all[i]] >= 2
  {
    assert all == all[..j] + [all[j]] + all[j + 1..];
    assert all[i] == all[..j][i] && all[i] in all[..j];
  }

  // ---------------------------------------------------------------- one segment

  /** One segment of a compiled conversation. `artifacts` are the identities of messages made from artifacts; `turn` is
      the current turn's message as it is to be stored. */
  datatype Compiled = Compiled(
    history: bool, source: seq<Message>, payload: seq<Message>, chains: map<Name, seq<TransformStep>>,
    pending: set<Name>,
    artifacts: set<Name>, introduced: map<Name, Message>, turn: Option<Message>)

  function Fate(c: Compiled, id: Name): Option<TransformStep> {
    if id in c.chains then Some(FinalOf(c.chains[id], |c.chains[id]|)) else None
  }

  predicate SourceStays(c: Compiled, m: Message) {
    && m.id != Anonymous && (c.history ==> m.id !in c.pending)
    && (Fate(c, m.id).Some? ==> Harmless(Fate(c, m.id).value))
  }

  /** What a payload message adds: its baseline if it was introduced, itself if it was passed through. */
  function Addition(c: Compiled, m: Message): seq<Message> {
    var fate := Fate(c, m.id);
    if m.id in c.artifacts || m.id == Anonymous || m.id in c.pending || HasId(c.source, m.id, |c.source|) then []
    else if fate.None? || !Harmless(fate.value) then []
    else if m.id in c.introduced then [c.introduced[m.id]]
    else if fate.value.action == FORMATTED then []
    else [m]
  }

  function StayingSources(c: Compiled, n: nat): seq<Message>
    requires n <= |c.source|
  {
    if n == 0 then [] else StayingSources(c, n - 1) + if SourceStays(c, c.source[n - 1]) then [c.source[n - 1]] else []
  }

  function Additions(c: Compiled, n: nat): seq<Message>
    requires n <= |c.payload|
  {
    if n == 0 then [] else Additions(c, n - 1) + Addition(c, c.payload[n - 1])
  }

  function Selected(c: Compiled): seq<Message> {
    StayingSources(c, |c.source|) + Additions(c, |c.payload|)
  }

  function Turn(c: Compiled): seq<Message> {
    if c.history && c.turn.Some? && c.turn.value.id != Anonymous then [c.turn.value] else []
  }

  method MayStay(c: Compiled, m: Message) returns (stays: bool)
    ensures stays <==> SourceStays(c, m)
  {
    if m.id == Anonymous || (c.history && m.id in c.pending) {
      return false;
    }
    if m.id !in c.chains {
      return true;
    }
    var final := Final(c.chains[m.id]);
    stays := Harmless(final);
  }

  method PayloadAdds(c: Compiled) returns (out: seq<Message>)
    ensures out == Additions(c, |c.payload|)
  {
    out := [];
    for k := 0 to |c.payload|
      invariant out == Additions(c, k)
    {
      var more := AddOne(c, c.payload[k]);
      out := out + more;
    }
  }

  method AddOne(c: Compiled, m: Message) returns (out: seq<Message>)
    ensures out == Addition(c, m)
  {
    var inSource := false;
    for k := 0 to |c.source|
      invariant inSource <==> HasId(c.source, m.id, k)
    {
      HasIdNext(c.source, m.id, k);
      inSource := inSource || c.source[k].id == m.id;
    }
    if m.id in c.artifacts || m.id == Anonymous || m.id in c.pending || inSource || m.id !in c.chains {
      return [];
    }
    var final := Final(c.chains[m.id]);
    if !Harmless(final) {
      return [];
    }
    if m.id in c.introduced {
      return [c.introduced[m.id]];
    }
    out := if final.action == FORMATTED then [] else [m];
  }

  method DerivePersistenceSegment(c: Compiled) returns (out: seq<Message>)
    ensures out == InPayloadOrder(Selected(c), c.payload) + Turn(c)
  {
    out := [];
    for k := 0 to |c.source|
      invariant out == StayingSources(c, k)
    {
      var stays := MayStay(c, c.source[k]);
      out := out + if stays then [c.source[k]] else [];
    }
    var adds := PayloadAdds(c);
    out := OrderPersistenceMessages(out + adds, c.payload);
    out := out + Turn(c);
  }

  // ---------------------------------------------------------------- what is written back

  predicate Keyed(introduced: map<Name, Message>) {
    forall id :: id in introduced ==> introduced[id].id == id
  }

  lemma {:induction false} StayingAre(c: Compiled, n: nat)
    requires n <= |c.source|
    ensures forall m :: m in StayingSources(c, n) <==> m in c.source[..n] && SourceStays(c, m)
  {
    if n > 0 {
      StayingAre(c, n - 1);
      assert c.source[..n] == c.source[..n - 1] + [c.source[n - 1]];
    }
  }

  lemma {:induction false} StayingIdsFromSource(c: Compiled, n: nat, id: Name)
    requires n <= |c.source|
    ensures HasId(StayingSources(c, n), id, |StayingSources(c, n)|) ==> HasId(c.source, id, n)
  {
    if n > 0 {
      StayingIdsFromSource(c, n - 1, id);
      HasIdNext(c.source, id, n - 1);
      var before := StayingSources(c, n - 1);
      if SourceStays(c, c.source[n - 1]) {
        HasIdConcat(before, [c.source[n - 1]], id);
      } else {
        assert before + [] == before;
      }
    }
  }

  lemma {:induction false} StayingDistinct(c: Compiled, n: nat)
    requires n <= |c.source| && UniqueIds(c.source)
    ensures DistinctIds(StayingSources(c, n))
  {
    if n > 0 {
      StayingDistinct(c, n - 1);
      var before := StayingSources(c, n - 1);
      if SourceStays(c, c.source[n - 1]) {
        StayingAre(c, n - 1);
        forall k | 0 <= k < |before|
          ensures before[k].id != c.source[n - 1].id
        {
          assert before[k] in before;
          var i :| 0 <= i < n - 1 && c.source[i] == before[k];
        }
      }
    }
  }

  lemma AdditionId(c: Compiled, m: Message)
    requires Keyed(c.introduced)
    ensures forall a :: a in Addition(c, m) ==> a.id == m.id && m.id != Anonymous && !HasId(c.source, m.id, |c.source|)
    ensures |Addition(c, m)| <= 1
  {
  }

  lemma {:induction false} AdditionsFrom(c: Compiled, n: nat, a: Message)
    requires n <= |c.payload| && Keyed(c.introduced) && a in Additions(c, n)
    ensures a.id != Anonymous && HasId(c.payload, a.id, n) && !HasId(c.source, a.id, |c.source|)
    ensures Fate(c, a.id).Some? && Harmless(Fate(c, a.id).value)
  {
    AdditionId(c, c.payload[n - 1]);
    if a in Additions(c, n - 1) {
      AdditionsFrom(c, n - 1, a);
    } else {
      assert a in Addition(c, c.payload[n - 1]);
    }
  }

  lemma {:induction false} AdditionsDistinct(c: Compiled, n: nat)
    requires n <= |c.payload| && UniqueIds(c.payload) && Keyed(c.introduced)
    ensures DistinctIds(Additions(c, n))
  {
    if n > 0 {
      AdditionsDistinct(c, n - 1);
      var before, m := Additions(c, n - 1), c.payload[n - 1];
      AdditionId(c, m);
      forall k | 0 <= k < |before| && Addition(c, m) != []
        ensures before[k].id != m.id
      {
        assert Addition(c, m)[0] in Addition(c, m);
        AdditionsFrom(c, n - 1, before[k]);
        var i :| 0 <= i < n - 1 && c.payload[i].id == before[k].id;
      }
    }
  }

  lemma {:induction false} SelectedDistinct(c: Compiled)
    requires UniqueIds(c.source) && UniqueIds(c.payload) && Keyed(c.introduced)
    ensures DistinctIds(Selected(c))
  {
    var stay, adds := StayingSources(c, |c.source|), Additions(c, |c.payload|);
    StayingDistinct(c, |c.source|);
    AdditionsDistinct(c, |c.payload|);
    forall k | 0 <= k < |adds|
      ensures !HasId(stay, adds[k].id, |stay|)
    {
      AdditionsFrom(c, |c.payload|, adds[k]);
      StayingIdsFromSource(c, |c.source|, adds[k].id);
    }
    DistinctIdsConcat(stay, adds);
  }

  /** With distinct identities on both sides a segment writes back a permutation of the staying sources and the
      additions. */
  lemma {:induction false} WritesBackSelection(c: Compiled)
    requires UniqueIds(c.source) && UniqueIds(c.payload) && Keyed(c.introduced)
    ensures multiset(InPayloadOrder(Selected(c), c.payload)) ==
            multiset(StayingSources(c, |c.source|)) + multiset(Additions(c, |c.payload|))
  {
    SelectedDistinct(c);
    OrderPermutesIff(Selected(c), c.payload);
  }

  /** A source message is written back, as the source holds it, exactly when it is named, not pending, and no
      step removed or replaced it. */
  lemma {:induction false} SourceWrittenIff(c: Compiled, m: Message)
    requires UniqueIds(c.source) && UniqueIds(c.payload) && Keyed(c.introduced) && m in c.source
    ensures m in InPayloadOrder(Selected(c), c.payload) <==> SourceStays(c, m)
  {
    var out := InPayloadOrder(Selected(c), c.payload);
    WritesBackSelection(c);
    StayingAre(c, |c.source|);
    assert c.source[..|c.source|] == c.source;
    assert m in out <==> m in multiset(out);
    if m in Additions(c, |c.payload|) {
      AdditionsFrom(c, |c.payload|, m);
      assert false;
    }
  }

  /** Nothing that a step removed or replaced is ever written back, whatever the identities. */
  lemma {:induction false} RemovedStaysRemoved(c: Compiled, m: Message)
    requires Keyed(c.introduced) && m in InPayloadOrder(Selected(c), c.payload) && m.id in c.chains
    ensures var chain := c.chains[m.id]; forall k :: 0 <= k < |chain| ==> !Removing(chain[k]) && !Replacing(chain[k])
  {
    var out := InPayloadOrder(Selected(c), c.payload);
    OrderServes(Selected(c), c.payload);
    var k :| 0 <= k < |out| && out[k] == m;
    assert m in Selected(c);
    StayingAre(c, |c.source|);
    if m !in StayingSources(c, |c.source|) {
      AdditionsFrom(c, |c.payload|, m);
    }
    PersistsIff(c.chains[m.id]);
  }
}
