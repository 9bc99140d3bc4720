/** The conversation store and its version tokens (conversation.go, conversation_delta.go). */
module Store {
  import opened Results
  import opened Messages

  const MAX_INT64: int := 0x7FFF_FFFF_FFFF_FFFF

  datatype Stored<+S> = Stored(content: S, version: int)

  type Conversations<S> = map<Name, Stored<S>>

  /** What this model leaves to the host: the empty content, one transition, and the projection, encoding and decoding
      a state goes through before it is stored. */
  datatype Rules<!S, !D> = Rules(empty: S, apply: (S, D) -> Option<S>, seal: S -> Option<S>)

  datatype Failure = EmptyCommit | VersionConflict | InvalidDelta | InvalidState | VersionExhausted

  datatype Call<+D> = Commit(id: Name, token: int, deltas: seq<D>) | Clear(id: Name, token: int)

  datatype Outcome<S> = Done(store: Conversations<S>) | Denied(reason: Failure)

  // ---------------------------------------------------------------- one call

  function Current<S>(empty: S, store: Conversations<S>, id: Name): Stored<S> {
    if id in store then store[id] else Stored(empty, 0)
  }

  /** The token of a stored conversation, zero for one that was never stored. */
  function Token<S>(store: Conversations<S>, id: Name): int {
    if id in store then store[id].version else 0
  }

  /** Transitions in order; one that fails fails the whole batch. */
  function ApplyAll<S, D>(apply: (S, D) -> Option<S>, content: S, deltas: seq<D>): Option<S> {
    if |deltas| == 0 then Some(content)
    else
      var next := apply(content, deltas[0]);
      if next.None? then None else ApplyAll(apply, next.value, deltas[1..])
  }

  function NextVersion(current: int): (next: Option<int>)
    ensures next.Some? ==> current < next.value <= MAX_INT64
  {
    if current < 0 || current >= MAX_INT64 then None else Some(current + 1)
  }

  function CommittedContent<S, D>(rules: Rules<S, D>, content: S, deltas: seq<D>): Option<S> {
    var next := ApplyAll(rules.apply, content, deltas);
    if next.None? then None else rules.seal(next.value)
  }

  function Respond<S, D>(rules: Rules<S, D>, store: Conversations<S>, call: Call<D>): Outcome<S> {
    var current := Current(rules.empty, store, call.id);
    match call
    case Commit(id, token, deltas) =>
      if |deltas| == 0 then Denied(EmptyCommit)
      else if current.version != token then Denied(VersionConflict)
      else if ApplyAll(rules.apply, current.content, deltas).None? then Denied(InvalidDelta)
      else if CommittedContent(rules, current.content, deltas).None? then Denied(InvalidState)
      else if NextVersion(token).None? then Denied(VersionExhausted)
      else Done(store[id := Stored(CommittedContent(rules, current.content, deltas).value, NextVersion(token).value)])
    case Clear(id, token) =>
      if current.version != token then Denied(VersionConflict)
      else if NextVersion(token).None? then Denied(VersionExhausted)
      else Done(store[id := Stored(rules.empty, NextVersion(token).value)])
  }

  method ApplyDeltas<S, D>(apply: (S, D) -> Option<S>, content: S, deltas: seq<D>) returns (r: Option<S>)
    ensures r == ApplyAll(apply, content, deltas)
  {
    var next := content;
    assert deltas[0..] == deltas;
    for k := 0 to |deltas|
      invariant ApplyAll(apply, content, deltas) == ApplyAll(apply, next, deltas[k..])
    {
      assert deltas[k..][1..] == deltas[k + 1..];
      var step := apply(next, deltas[k]);
      if step.None? {
        return None;
      }
      next := step.value;
    }
    r := Some(next);
  }

  class MemoryStore<S, D> {
    const rules: Rules<S, D>
    var conversations: Conversations<S>

    constructor (rules: Rules<S, D>)
      ensures this.rules == rules && conversations == map[]
    {
      this.rules, this.conversations := rules, map[];
    }

    /** An unknown conversation loads as empty. */
    method LoadState(id: Name) returns (r: Stored<S>)
      ensures r == Current(rules.empty, conversations, id)
    {
      r := if id in conversations then conversations[id] else Stored(rules.empty, 0);
    }

    method CommitState(id: Name, token: int, deltas: seq<D>) returns (failure: Option<Failure>)
      modifies this
      ensures Answers(old(conversations), Respond(rules, old(conversations), Commit(id, token, deltas)), failure)
    {
      if |deltas| == 0 {
        return Some(EmptyCommit);
      }
      var current: Stored<S> := Stored(rules.empty, 0);
      if id in conversations {
        current := conversations[id];
      }
      if current.version != token {
        return Some(VersionConflict);
      }
      var next := ApplyDeltas(rules.apply, current.content, deltas);
      if next.None? {
        return Some(InvalidDelta);
      }
      var sealed := rules.seal(next.value);
      if sealed.None? {
        return Some(InvalidState);
      }
      var version := NextVersion(current.version);
      if version.None? {
        return Some(VersionExhausted);
      }
      conversations := conversations[id := Stored(sealed.value, version.value)];
      failure := None;
    }

    method ClearState(id: Name, token: int) returns (failure: Option<Failure>)
      modifies this
      ensures Answers(old(conversations), Respond(rules, old(conversations), Clear(id, token)), failure)
    {
      var current: Stored<S> := Stored(rules.empty, 0);
      if id in conversations {
        current := conversations[id];
      }
      if current.version != token {
        return Some(VersionConflict);
      }
      var version := NextVersion(current.version);
      if version.None? {
        return Some(VersionExhausted);
      }
      conversations := conversations[id := Stored(rules.empty, version.value)];
      failure := None;
    }

    /** The store and the answer are the outcome's; a denied call changed nothing. */
    ghost predicate Answers(before: Conversations<S>, outcome: Outcome<S>, failure: Option<Failure>)
      reads this
    {
      match outcome
      case Done(store) => conversations == store && failure.None?
      case Denied(reason) => conversations == before && failure == Some(reason)
    }
  }

  // ---------------------------------------------------------------- runs

  function After<S, D>(rules: Rules<S, D>, store: Conversations<S>, call: Call<D>): Conversations<S> {
    var r := Respond(rules, store, call);
    if r.Done? then r.store else store
  }

  /** The store after the first `n` calls of a run. */
  function RunTo<S, D>(rules: Rules<S, D>, store: Conversations<S>, calls: seq<Call<D>>, n: nat): Conversations<S>
    requires n <= |calls|
  {
    if n == 0 then store else After(rules, RunTo(rules, store, calls, n - 1), calls[n - 1])
  }

  predicate Succeeds<S, D>(rules: Rules<S, D>, store: Conversations<S>, calls: seq<Call<D>>, i: nat)
    requires i < |calls|
  {
    Respond(rules, RunTo(rules, store, calls, i), calls[i]).Done?
  }

  /** A success spends its token: the next one is exactly one higher, and no other conversation moves. */
  lemma SuccessSpendsToken<S, D>(rules: Rules<S, D>, store: Conversations<S>, call: Call<D>)
    requires Respond(rules, store, call).Done?
    ensures Token(store, call.id) == call.token && Token(After(rules, store, call), call.id) == call.token + 1
    ensures 0 <= call.token < MAX_INT64
    ensures forall id :: id != call.id ==> Token(After(rules, store, call), id) == Token(store, id)
  {
  }

  lemma {:induction false} TokensGrow<S,
      D>(rules: Rules<S, D>, store: Conversations<S>, calls: seq<Call<D>>, i: nat, j: nat, id: Name)
    requires i <= j <= |calls|
    ensures Token(RunTo(rules, store, calls, i), id) <= Token(RunTo(rules, store, calls, j), id)
  {
    if i < j {
      TokensGrow(rules, store, calls, i, j - 1, id);
      var before := RunTo(rules, store, calls, j - 1);
      if Respond(rules, before, calls[j - 1]).Done? {
        SuccessSpendsToken(rules, before, calls[j - 1]);
      }
    }
  }

  /** After a success no call with the same or an older token works again, whether the success was a commit or a
      clear: at most one call per token succeeds, and tokens from before a clear stay dead. */
  lemma {:induction false} SpentTokensStayDead<S,
      D>(rules: Rules<S, D>, store: Conversations<S>, calls: seq<Call<D>>, i: nat, j: nat)
    requires i < j < |calls| && Succeeds(rules, store, calls, i)
    requires calls[j].id == calls[i].id && calls[j].token <= calls[i].token
    ensures !Succeeds(rules, store, calls, j)
    ensures RunTo(rules, store, calls, j + 1) == RunTo(rules, store, calls, j)
  {
    SuccessSpendsToken(rules, RunTo(rules, store, calls, i), calls[i]);
    TokensGrow(rules, store, calls, i + 1, j, calls[i].id);
    if Succeeds(rules, store, calls, j) {
      SuccessSpendsToken(rules, RunTo(rules, store, calls, j), calls[j]);
    }
  }

  /** The calls among the first `n` that succeeded. */
  function Successful<S, D>(rules: Rules<S, D>, store: Conversations<S>, calls: seq<Call<D>>, n: nat): seq<Call<D>>
    requires n <= |calls|
  {
    if n == 0 then []
    else Successful(rules, store, calls, n - 1) + if Succeeds(rules, store, calls, n - 1) then [calls[n - 1]] else []
  }

  lemma {:induction false} RunPrefix<S,
      D>(rules: Rules<S, D>, store: Conversations<S>, a: seq<Call<D>>, b: seq<Call<D>>, n: nat)
    requires n <= |a| <= |b| && a == b[..|a|]
    ensures RunTo(rules, store, a, n) == RunTo(rules, store, b, n)
  {
    if n > 0 {
      RunPrefix(rules, store, a, b, n - 1);
      assert a[n - 1] == b[n - 1];
    }
  }

  /** Erasing the denied calls of a run changes nothing, and what is left succeeds throughout. */
  lemma {:induction false} DeniedCallsAreInvisible<S,
      D>(rules: Rules<S, D>, store: Conversations<S>, calls: seq<Call<D>>, n: nat)
    requires n <= |calls|
    ensures var kept := Successful(rules, store, calls, n);
            && RunTo(rules, store, kept, |kept|) == RunTo(rules, store, calls, n)
            && forall i :: 0 <= i < |kept| ==> Succeeds(rules, store, kept, i)
  {
    if n > 0 {
      DeniedCallsAreInvisible(rules, store, calls, n - 1);
      var before := Successful(rules, store, calls, n - 1);
      if Succeeds(rules, store, calls, n - 1) {
        SuccessAppends(rules, store, before, calls[n - 1]);
      } else {
        assert before + [] == before;
      }
    }
  }

  lemma {:induction false} SuccessAppends<S,
      D>(rules: Rules<S, D>, store: Conversations<S>, kept: seq<Call<D>>, call: Call<D>)
    requires forall i :: 0 <= i < |kept| ==> Succeeds(rules, store, kept, i)
    requires Respond(rules, RunTo(rules, store, kept, |kept|), call).Done?
    ensures var more := kept + [call];
            && RunTo(rules, store, more, |more|) == After(rules, RunTo(rules, store, kept, |kept|), call)
            && forall i :: 0 <= i < |more| ==> Succeeds(rules, store, more, i)
  {
    var more := kept + [call];
    forall i | 0 <= i <= |kept|
      ensures RunTo(rules, store, more, i) == RunTo(rules, store, kept, i)
    {
      RunPrefix(rules, store, kept, more, i);
    }
    forall i | 0 <= i < |more|
      ensures Succeeds(rules, store, more, i)
    {
      if i < |kept| {
        assert more[i] == kept[i] && Succeeds(rules, store, kept, i);
      }
    }
  }

  /** The calls on one conversation among `calls`. */
  function CountFor<D>(calls: seq<Call<D>>, id: Name, n: nat): nat
    requires n <= |calls|
  {
    if n == 0 then 0 else CountFor(calls, id, n - 1) + if calls[n - 1].id == id then 1 else 0
  }

  lemma {:induction false} CountSnoc<D>(calls: seq<Call<D>>, call: Call<D>, id: Name, n: nat)
    requires n <= |calls|
    ensures CountFor(calls + [call], id, n) == CountFor(calls, id, n)
  {
    if n > 0 {
      CountSnoc(calls, call, id, n - 1);
      assert (calls + [call])[n - 1] == calls[n - 1];
    }
  }

  /** In a fresh store the token of a conversation is the number of successful calls on it. */
  lemma {:induction false} TokenCountsSuccesses<S, D>(rules: Rules<S, D>, calls: seq<Call<D>>, n: nat, id: Name)
    requires n <= |calls|
    ensures var kept := Successful(rules, map[], calls, n);
            Token(RunTo(rules, map[], calls, n), id) == CountFor(kept, id, |kept|) <= MAX_INT64
  {
    if n > 0 {
      TokenCountsSuccesses(rules, calls, n - 1, id);
      var before, kept := RunTo(rules, map[], calls, n - 1), Successful(rules, map[], calls, n - 1);
      if Respond(rules, before, calls[n - 1]).Done? {
        SuccessSpendsToken(rules, before, calls[n - 1]);
        CountSnoc(kept, calls[n - 1], id, |kept|);
      } else {
        assert kept + [] == kept;
      }
    }
  }

  /** A token that is neither negative nor the last one is accepted with a batch the host accepts, and only then. */
  lemma CommitSucceedsIff<S,
      D>(rules: Rules<S, D>, store: Conversations<S>, id: Name, token: int, deltas: seq<D>)
    ensures Respond(rules, store, Commit(id, token, deltas)).Done? <==>
            && token == Token(store, id) && 0 <= token < MAX_INT64 && |deltas| > 0
            && CommittedContent(rules, Current(rules.empty, store, id).content, deltas).Some?
  {
  }

  /** Once the last token is reached every later call on the conversation is denied. */
  lemma {:induction false} ExhaustedForever<S,
      D>(rules: Rules<S, D>, store: Conversations<S>, calls: seq<Call<D>>, i: nat, j: nat)
    requires i <= j < |calls| && Token(RunTo(rules, store, calls, i), calls[j].id) >= MAX_INT64
    ensures !Succeeds(rules, store, calls, j)
  {
    TokensGrow(rules, store, calls, i, j, calls[j].id);
    if Succeeds(rules, store, calls, j) {
      SuccessSpendsToken(rules, RunTo(rules, store, calls, j), calls[j]);
    }
  }
}
