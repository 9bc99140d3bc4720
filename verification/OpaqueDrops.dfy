/** Dropping invalidated opaque state until what is left is stable (opaque_state_policy.go). */
module OpaqueDrops {
  import opened Results
  import opened Sequences
  import opened Messages
  import opened OpaqueStates

  datatype OpaquePolicy = OpaquePolicy(profile: Descriptor, dropInvalid: bool)

  /** A state as the request carried it: `order` is its position among the extensions of `message`. */
  datatype Origin = Origin(message: Message, state: OpaqueState, order: nat)

  datatype Enforced = Accepted(messages: seq<Message>, dropped: set<Name>) | Refused

  // ---------------------------------------------------------------- dropping

  predicate Survives(e: Extension, ids: set<Name>) {
    e.Opaque? ==> e.state.id !in ids
  }

  /** The first `n` extensions without the dropped states. */
  function Filtered(extensions: seq<Extension>, ids: set<Name>, n: nat): (out: seq<Extension>)
    requires n <= |extensions|
    ensures |out| <= n
  {
    if n == 0 then []
    else Filtered(extensions, ids, n - 1) + if Survives(extensions[n - 1], ids) then [extensions[n - 1]] else []
  }

  function Without(m: Message, ids: set<Name>): Message {
    m.(extensions := Filtered(m.extensions, ids, |m.extensions|))
  }

  function DropAll(messages: seq<Message>, ids: set<Name>): (out: seq<Message>)
    ensures |out| == |messages| && forall i :: 0 <= i < |out| ==> out[i] == Without(messages[i], ids)
  {
    seq(|messages|, i requires 0 <= i < |messages| => Without(messages[i], ids))
  }

  method DropOpaqueStates(payload: array<Message>, ids: set<Name>)
    modifies payload
    ensures payload[..] == DropAll(old(payload[..]), ids)
  {
    ghost var before := payload[..];
    for i := 0 to payload.Length
      invariant forall k :: 0 <= k < payload.Length ==>
                  payload[k] == if k < i then Without(before[k], ids) else before[k]
    {
      var extensions: seq<Extension> := [];
      var m := payload[i];
      for k := 0 to |m.extensions|
        invariant extensions == Filtered(m.extensions, ids, k)
      {
        if !m.extensions[k].Opaque? || m.extensions[k].state.id !in ids {
          extensions := extensions + [m.extensions[k]];
        }
      }
      payload[i] := m.(extensions := extensions);
    }
  }

  // ---------------------------------------------------------------- the inventory after a drop

  function States(stock: Inventory): map<Name, Held> {
    if stock.Stock? then stock.states else map[]
  }

  /** `less` holds the states of `stock` except `ids`, each still owned by the message of the same identity. */
  ghost predicate Shrunk(stock: Inventory, less: Inventory, ids: set<Name>) {
    && stock.Stock? && less.Stock?
    && (forall id :: id in less.states <==> id in stock.states && id !in ids)
    && (forall id :: id in less.states ==>
          less.states[id].state == stock.states[id].state && less.states[id].message.id == stock.states[id].message.id)
  }

  lemma {:induction false} FilteredPrefix(extensions: seq<Extension>, ids: set<Name>, k: nat, n: nat)
    requires k <= n <= |extensions|
    ensures Filtered(extensions, ids, k) <= Filtered(extensions, ids, n)
  {
    if k < n {
      FilteredPrefix(extensions, ids, k, n - 1);
    }
  }

  lemma ShrunkStep(stock: Inventory, less: Inventory, m: Message, m': Message, e: Extension,
                   ids: set<Name>)
    requires Shrunk(stock, less, ids) && m.id == m'.id && WithExtension(stock, m, e).Stock?
    ensures Shrunk(WithExtension(stock, m, e), if Survives(e, ids) then WithExtension(less, m', e) else less, ids)
  {
  }

  lemma {:induction false} FilteredAt(m: Message, ids: set<Name>, n: nat)
    requires 0 < n <= |m.extensions|
    ensures var before, now := Filtered(m.extensions, ids, n - 1), Filtered(m.extensions, ids, n);
            && |now| <= |Without(m, ids).extensions|
            && (Survives(m.extensions[n - 1], ids) ==>
                |now| == |before| + 1 && Without(m, ids).extensions[|before|] == m.extensions[n - 1])
            && (!Survives(m.extensions[n - 1], ids) ==> |now| == |before|)
  {
    FilteredPrefix(m.extensions, ids, n, |m.extensions|);
    var before, now := Filtered(m.extensions, ids, n - 1), Filtered(m.extensions, ids, n);
    if Survives(m.extensions[n - 1], ids) {
      assert now[|before|] == m.extensions[n - 1];
    }
  }

  /** The inventory of a filtered message, extension by extension. */
  lemma {:induction false} ShrunkMessage(stock: Inventory, less: Inventory, m: Message, ids: set<Name>, n: nat)
    requires Shrunk(stock, less, ids) && n <= |m.extensions| && WithMessage(stock, m, n).Stock?
    ensures |Filtered(m.extensions, ids, n)| <= |Without(m, ids).extensions|
    ensures Shrunk(WithMessage(stock, m, n), WithMessage(less, Without(m, ids), |Filtered(m.extensions, ids, n)|), ids)
  {
    if n > 0 {
      ShrunkMessage(stock, less, m, ids, n - 1);
      FilteredAt(m, ids, n);
      ShrunkStep(WithMessage(stock, m, n - 1), WithMessage(less, Without(m, ids), |Filtered(m.extensions, ids, n - 1)|),
                 m, Without(m, ids), m.extensions[n - 1], ids);
    }
  }

  lemma {:induction false} ShrunkInventory(messages: seq<Message>, ids: set<Name>, n: nat)
    requires n <= |messages| && InventoryOf(messages, n).Stock?
    ensures Shrunk(InventoryOf(messages, n), InventoryOf(DropAll(messages, ids), n), ids)
  {
    if n > 0 {
      var m := messages[n - 1];
      if InventoryOf(messages, n - 1).BadStock? {
        InventoryStaysBad(messages, n - 1, n);
      }
      ShrunkInventory(messages, ids, n - 1);
      ShrunkMessage(InventoryOf(messages, n - 1), InventoryOf(DropAll(messages, ids), n - 1), m, ids, |m.extensions|);
    }
  }

  // ---------------------------------------------------------------- one pass

  function Stocked(messages: seq<Message>): Inventory {
    InventoryOf(messages, |messages|)
  }

  function VerdictOf(host: Host, messages: seq<Message>, profile: Descriptor, id: Name): Verdict
    requires id in States(Stocked(messages))
  {
    var held := States(Stocked(messages))[id];
    Judge(host, messages, held.message.id, held.state, profile)
  }

  function InvalidIds(host: Host, messages: seq<Message>, profile: Descriptor): set<Name> {
    set id | id in States(Stocked(messages)) && VerdictOf(host, messages, profile, id) == Invalidated
  }

  predicate NoneBroken(host: Host, messages: seq<Message>, profile: Descriptor) {
    forall id :: id in States(Stocked(messages)) ==> VerdictOf(host, messages, profile, id) != Broken
  }

  predicate Reportable(host: Host, before: map<Name, Held>, ids: set<Name>) {
    forall id :: id in ids ==> id in before && host.ref(before[id].message).Some?
  }

  /** All verdicts of one pass. */
  function Verdicts(host: Host, messages: seq<Message>, profile: Descriptor): map<Name, Verdict> {
    map id | id in States(Stocked(messages)) :: VerdictOf(host, messages, profile, id)
  }

  function Chosen(verdicts: map<Name, Verdict>, host: Host, policy: OpaquePolicy,
                  before: map<Name, Held>): Option<set<Name>> {
    var invalid := set id | id in verdicts && verdicts[id] == Invalidated;
    if exists id :: id in verdicts && verdicts[id] == Broken then None
    else if invalid == {} then Some({})
    else if !policy.dropInvalid || !Reportable(host, before, invalid) then None
    else Some(invalid)
  }

  /** What `invalidOpaqueStates` returns, or nothing when it fails. */
  function Pass(host: Host, messages: seq<Message>, policy: OpaquePolicy, before: map<Name, Held>): Option<set<Name>> {
    if Stocked(messages).BadStock? then None
    else Chosen(Verdicts(host, messages, policy.profile), host, policy, before)
  }

  lemma {:induction false} ChosenFails(verdicts: map<Name, Verdict>, host: Host, policy: OpaquePolicy,
                                       before: map<Name, Held>, id: Name)
    requires id in verdicts
    requires verdicts[id] == Broken
             || (verdicts[id] == Invalidated && (!policy.dropInvalid || !Reportable(host, before, {id})))
    ensures Chosen(verdicts, host, policy, before).None?
  {
    var invalid := set k | k in verdicts && verdicts[k] == Invalidated;
    assert verdicts[id] == Invalidated ==> id in invalid;
  }

  /** Everything up to `pending` was judged: `invalid` is what is to be dropped. */
  ghost predicate Sorted(verdicts: map<Name, Verdict>, pending: set<Name>, invalid: set<Name>) {
    && pending <= verdicts.Keys
    && (forall id :: id in verdicts && id !in pending ==> verdicts[id] != Broken)
    && (forall id :: id in invalid <==> id in verdicts && id !in pending && verdicts[id] == Invalidated)
  }

  lemma {:induction false} ChosenIs(verdicts: map<Name, Verdict>, host: Host, policy: OpaquePolicy,
                                    before: map<Name, Held>, invalid: set<Name>)
    requires Sorted(verdicts, {}, invalid)
             && (invalid != {} ==> policy.dropInvalid && Reportable(host, before, invalid))
    ensures Chosen(verdicts, host, policy, before) == Some(invalid)
  {
    assert invalid == set id | id in verdicts && verdicts[id] == Invalidated;
  }

  ghost predicate Gathered(verdicts: map<Name, Verdict>, host: Host, policy: OpaquePolicy, before: map<Name, Held>,
                           pending: set<Name>, invalid: set<Name>) {
    Sorted(verdicts, pending, invalid) && (invalid != {} ==> policy.dropInvalid && Reportable(host, before, invalid))
  }

  lemma GatherHolds(verdicts: map<Name, Verdict>, host: Host, policy: OpaquePolicy,
                    before: map<Name, Held>, pending: set<Name>, invalid: set<Name>, id: Name)
    requires Gathered(verdicts, host, policy, before, pending, invalid) && id in pending && verdicts[id] == Holds
    ensures Gathered(verdicts, host, policy, before, pending - {id}, invalid)
  {
  }

  lemma GatherInvalid(verdicts: map<Name, Verdict>, host: Host, policy: OpaquePolicy,
                      before: map<Name, Held>, pending: set<Name>, invalid: set<Name>, id: Name)
    requires Gathered(verdicts, host, policy, before, pending, invalid) && id in pending && verdicts[id] == Invalidated
    requires policy.dropInvalid && id in before && host.ref(before[id].message).Some?
    ensures Gathered(verdicts, host, policy, before, pending - {id}, invalid + {id})
  {
  }

  method InvalidOpaqueStates(host: Host, messages: seq<Message>, policy: OpaquePolicy, before: map<Name, Held>)
    returns (r: Option<set<Name>>)
    ensures r == Pass(host, messages, policy, before)
  {
    var stock := OpaqueStateInventory(messages);
    if stock.BadStock? {
      return None;
    }
    r := JudgeAll(host, messages, policy, before, stock.states, Verdicts(host, messages, policy.profile));
  }

  method JudgeAll(host: Host, messages: seq<Message>, policy: OpaquePolicy, before: map<Name, Held>,
                  states: map<Name, Held>, ghost verdicts: map<Name, Verdict>)
    returns (r: Option<set<Name>>)
    requires verdicts.Keys == states.Keys
    requires forall id :: id in states ==>
               verdicts[id] == Judge(host, messages, states[id].message.id, states[id].state, policy.profile)
    ensures r == Chosen(verdicts, host, policy, before)
  {
    var invalid: set<Name> := {};
    var pending := states.Keys;
    while pending != {}
      invariant pending <= states.Keys && Gathered(verdicts, host, policy, before, pending, invalid)
      decreases |pending|
    {
      var id :| id in pending;
      var verdict := ValidateOne(host, messages, states[id].message.id, states[id].state, policy.profile);
      if verdict != Holds {
        if verdict != Invalidated || !policy.dropInvalid || id !in before || host.ref(before[id].message).None? {
          ChosenFails(verdicts, host, policy, before, id);
          return None;
        }
        GatherInvalid(verdicts, host, policy, before, pending, invalid, id);
        invalid := invalid + {id};
      } else {
        GatherHolds(verdicts, host, policy, before, pending, invalid, id);
      }
      pending := pending - {id};
    }
    ChosenIs(verdicts, host, policy, before, invalid);
    r := Some(invalid);
  }

  lemma {:induction false} PassIsInvalid(host: Host, messages: seq<Message>, policy: OpaquePolicy,
                                         before: map<Name, Held>)
    requires Pass(host, messages, policy, before).Some?
    ensures Stocked(messages).Stock? && NoneBroken(host, messages, policy.profile)
    ensures Pass(host, messages, policy, before).value == InvalidIds(host, messages, policy.profile)
    ensures !policy.dropInvalid ==> Pass(host, messages, policy, before).value == {}
  {
    var verdicts := Verdicts(host, messages, policy.profile);
    assert forall id :: id in verdicts ==> verdicts[id] == VerdictOf(host, messages, policy.profile, id);
    assert InvalidIds(host, messages, policy.profile) == set id | id in verdicts && verdicts[id] == Invalidated;
  }

  // ---------------------------------------------------------------- the loop

  lemma {:induction false} FewerKeys(a: map<Name, Held>, b: map<Name, Held>, ids: set<Name>)
    requires (forall id :: id in b <==> id in a && id !in ids) && ids <= a.Keys && ids != {}
    ensures |b| < |a|
  {
    assert b.Keys == a.Keys - ids && |b.Keys| == |a.Keys| - |ids|;
    assert |b| == |b.Keys| && |a| == |a.Keys|;
  }

  /** Every drop makes the inventory smaller. */
  lemma {:induction false} DropShrinks(host: Host, messages: seq<Message>, policy: OpaquePolicy,
                                       before: map<Name, Held>)
    requires var p := Pass(host, messages, policy, before); p.Some? && p.value != {}
    ensures var p := Pass(host, messages, policy, before).value;
            |States(Stocked(DropAll(messages, p)))| < |States(Stocked(messages))|
  {
    var p := Pass(host, messages, policy, before).value;
    PassIsInvalid(host, messages, policy, before);
    ShrunkInventory(messages, p, |messages|);
    FewerKeys(States(Stocked(messages)), States(Stocked(DropAll(messages, p))), p);
  }

  /** Drop what is invalid, look again, until nothing is. */
  function Settle(host: Host, messages: seq<Message>, policy: OpaquePolicy, before: map<Name, Held>,
                  dropped: set<Name>): Enforced
    decreases |States(Stocked(messages))|
  {
    var p := Pass(host, messages, policy, before);
    if p.None? then Refused
    else if p.value == {} then Accepted(messages, dropped)
    else
      DropShrinks(host, messages, policy, before);
      Settle(host, DropAll(messages, p.value), policy, before, dropped + p.value)
  }

  method DropUntilStable(host: Host, messages: seq<Message>, policy: OpaquePolicy, before: map<Name, Held>,
                         missing: set<Name>)
    returns (r: Enforced)
    ensures r == Settle(host, messages, policy, before, missing)
  {
    var accepted := new Message[|messages|](i requires 0 <= i < |messages| => messages[i]);
    var dropped := missing;
    assert accepted[..] == messages;
    while true
      invariant Same(Settle(host, messages, policy, before, missing),
                     Settle(host, accepted[..], policy, before, dropped))
      decreases |States(Stocked(accepted[..]))|
    {
      ghost var current := accepted[..];
      var invalid := InvalidOpaqueStates(host, accepted[..], policy, before);
      if invalid.None? {
        return Refused;
      }
      if invalid.value == {} {
        return Accepted(accepted[..], dropped);
      }
      DropShrinks(host, current, policy, before);
      dropped := dropped + invalid.value;
      DropOpaqueStates(accepted, invalid.value);
    }
  }

  // ---------------------------------------------------------------- comparing with the request

  /** The states among the first `n` extensions stand in the message they came from, in their original order;
      the result is the order of the last one. */
  function OrderUpTo(m: Message, original: map<Name, Origin>, n: nat): Option<int>
    requires n <= |m.extensions|
  {
    if n == 0 then Some(-1)
    else
      var before := OrderUpTo(m, original, n - 1);
      var e := m.extensions[n - 1];
      if before.None? || !e.Opaque? then before
      else if e.state.id !in original || original[e.state.id].message.id != m.id
        || original[e.state.id].order <= before.value
      then None
      else Some(original[e.state.id].order)
  }

  lemma {:induction false} OrderStaysBad(m: Message, original: map<Name, Origin>, k: nat, n: nat)
    requires k <= n <= |m.extensions| && OrderUpTo(m, original, k).None?
    ensures OrderUpTo(m, original, n).None?
  {
    if k < n {
      OrderStaysBad(m, original, k, n - 1);
    }
  }

  predicate InOrder(messages: seq<Message>, original: map<Name, Origin>) {
    forall i :: 0 <= i < |messages| ==> OrderUpTo(messages[i], original, |messages[i].extensions|).Some?
  }

  method ValidateOpaqueOrdering(messages: seq<Message>, original: map<Name, Origin>) returns (ok: bool)
    ensures ok <==> InOrder(messages, original)
  {
    for i := 0 to |messages|
      invariant forall k :: 0 <= k < i ==> OrderUpTo(messages[k], original, |messages[k].extensions|).Some?
    {
      var m := messages[i];
      var previous: int := -1;
      for k := 0 to |m.extensions|
        invariant OrderUpTo(m, original, k) == Some(previous)
      {
        if m.extensions[k].Opaque? {
          var id := m.extensions[k].state.id;
          if id !in original || original[id].message.id != m.id || original[id].order <= previous {
            OrderStaysBad(m, original, k + 1, |m.extensions|);
            return false;
          }
          previous := original[id].order;
        }
      }
    }
    ok := true;
  }

  predicate Present(messages: seq<Message>, id: Name) {
    exists i :: 0 <= i < |messages| && messages[i].id == id
  }

  /** A state that is gone was dropped for a reason: its owner is gone too, or its context no longer holds. */
  predicate MissingAllowed(host: Host, messages: seq<Message>, policy: OpaquePolicy, o: Origin) {
    && o.state.binding.profile == policy.profile && CodecKnown(host, o.state) && policy.dropInvalid
    && (Present(messages, o.message.id) ==> Judge(host, messages, o.message.id, o.state, policy.profile) == Invalidated)
    && host.ref(o.message).Some?
  }

  predicate Unmoved(current: map<Name, Held>, o: Origin, id: Name)
    requires id in current
  {
    o.state == current[id].state && o.message.id == current[id].message.id
  }

  /** A state of the request is still where it was, or allowed to be missing. */
  predicate Accounted(host: Host, messages: seq<Message>, policy: OpaquePolicy, current: map<Name, Held>, o: Origin,
                      id: Name) {
    if id in current then Unmoved(current, o, id) else MissingAllowed(host, messages, policy, o)
  }

  predicate AllAccounted(host: Host, messages: seq<Message>, policy: OpaquePolicy, current: map<Name, Held>,
                         original: map<Name, Origin>) {
    forall id :: id in original ==> Accounted(host, messages, policy, current, original[id], id)
  }

  predicate AllKnown(policy: OpaquePolicy, current: map<Name, Held>, original: map<Name, Origin>) {
    forall id :: id in current ==> id in original && current[id].state.binding.profile == policy.profile
  }

  predicate InventoryAccepted(host: Host, messages: seq<Message>, policy: OpaquePolicy, current: map<Name, Held>,
                              original: map<Name, Origin>) {
    && InOrder(messages, original)
    && AllAccounted(host, messages, policy, current, original)
    && AllKnown(policy, current, original)
  }

  method ValidateMissing(host: Host, messages: seq<Message>, policy: OpaquePolicy, o: Origin) returns (ok: bool)
    ensures ok && host.ref(o.message).Some? <==> MissingAllowed(host, messages, policy, o)
  {
    if o.state.binding.profile != policy.profile || !CodecKnown(host, o.state) || !policy.dropInvalid {
      return false;
    }
    for i := 0 to |messages|
      invariant (exists k :: 0 <= k < i && messages[k].id == o.message.id) ==>
                  Judge(host, messages, o.message.id, o.state, policy.profile) == Invalidated
    {
      if messages[i].id == o.message.id {
        var verdict := ValidateOne(host, messages, o.message.id, o.state, policy.profile);
        if verdict != Invalidated {
          return false;
        }
      }
    }
    ok := true;
  }

  method CheckAccounted(host: Host, messages: seq<Message>, policy: OpaquePolicy, current: map<Name, Held>, o: Origin,
                        id: Name)
    returns (ok: bool)
    ensures ok <==> Accounted(host, messages, policy, current, o, id)
  {
    if id in current {
      return Unmoved(current, o, id);
    }
    ok := ValidateMissing(host, messages, policy, o);
    ok := ok && host.ref(o.message).Some?;
  }

  method CheckOriginal(host: Host, messages: seq<Message>, policy: OpaquePolicy, current: map<Name, Held>,
                       original: map<Name, Origin>)
    returns (missing: Option<set<Name>>)
    ensures missing.Some? <==> AllAccounted(host, messages, policy, current, original)
    ensures missing.Some? ==> missing.value == original.Keys - current.Keys
  {
    ghost var fine := set id | id in original && Accounted(host, messages, policy, current, original[id], id);
    var found: set<Name> := {};
    var pending := original.Keys;
    while pending != {}
      invariant pending <= original.Keys && original.Keys - pending <= fine
      invariant forall id :: id in found <==> id in original && id !in current && id !in pending
      decreases |pending|
    {
      var id :| id in pending;
      var ok := CheckAccounted(host, messages, policy, current, original[id], id);
      if !ok {
        return None;
      }
      assert id in fine;
      if id !in current {
        found := found + {id};
      }
      pending := pending - {id};
    }
    forall id | id in original
      ensures Accounted(host, messages, policy, current, original[id], id)
    {
      assert id in fine;
    }
    assert found == original.Keys - current.Keys;
    missing := Some(found);
  }

  method CheckCurrent(policy: OpaquePolicy, current: map<Name, Held>, original: map<Name, Origin>) returns (ok: bool)
    ensures ok <==> AllKnown(policy, current, original)
  {
    var pending := current.Keys;
    while pending != {}
      invariant pending <= current.Keys
      invariant forall id :: id in current && id !in pending ==>
                  id in original && current[id].state.binding.profile == policy.profile
      decreases |pending|
    {
      var id :| id in pending;
      if id !in original || current[id].state.binding.profile != policy.profile {
        return false;
      }
      pending := pending - {id};
    }
    ok := true;
  }

  method CheckOpaqueInventory(host: Host, messages: seq<Message>, policy: OpaquePolicy, current: map<Name, Held>,
                              original: map<Name, Origin>)
    returns (dropped: Option<set<Name>>)
    ensures dropped.Some? <==> InventoryAccepted(host, messages, policy, current, original)
    ensures dropped.Some? ==> dropped.value == original.Keys - current.Keys
  {
    var ordered := ValidateOpaqueOrdering(messages, original);
    if !ordered {
      return None;
    }
    dropped := CheckOriginal(host, messages, policy, current, original);
    if dropped.Some? {
      var known := CheckCurrent(policy, current, original);
      dropped := if known then dropped else None;
    }
  }

  method EnforceOpaqueState(host: Host, messages: seq<Message>, policy: Option<OpaquePolicy>,
                            original: map<Name, Origin>)
    returns (r: Enforced)
    ensures r == EnforcedOf(host, messages, policy, original)
  {
    var current := OpaqueStateInventory(messages);
    if current.BadStock? {
      return Refused;
    }
    if |current.states| == 0 && |original| == 0 {
      return Accepted(messages, {});
    }
    if policy.None? {
      return Refused;
    }
    var missing := CheckOpaqueInventory(host, messages, policy.value, current.states, original);
    if missing.None? {
      return Refused;
    }
    r := DropUntilStable(host, messages, policy.value, current.states, missing.value);
  }

  function EnforcedOf(host: Host, messages: seq<Message>, policy: Option<OpaquePolicy>,
                      original: map<Name, Origin>): Enforced {
    var current := States(Stocked(messages));
    if Stocked(messages).BadStock? then Refused
    else if |current| == 0 && |original| == 0 then Accepted(messages, {})
    else if policy.None? || !InventoryAccepted(host, messages, policy.value, current, original) then Refused
    else Settle(host, messages, policy.value, current, original.Keys - current.Keys)
  }

  // ---------------------------------------------------------------- what the loop leaves

  lemma {:induction false} FilteredTwice(extensions: seq<Extension>, a: set<Name>, b: set<Name>, n: nat)
    requires n <= |extensions|
    ensures Same(Filtered(Filtered(extensions, a, n), b, |Filtered(extensions, a, n)|), Filtered(extensions, a + b, n))
  {
    if n > 0 {
      FilteredTwice(extensions, a, b, n - 1);
      var before, now, e := Filtered(extensions, a, n - 1), Filtered(extensions, a, n), extensions[n - 1];
      FilteredSame(before, now, b, |before|);
      if Survives(e, a) {
        assert now[|before|] == e && |now| == |before| + 1;
      } else {
        assert now == before;
        assert Filtered(extensions, a + b, n) == Filtered(extensions, a + b, n - 1);
      }
    }
  }

  lemma {:induction false} FilteredSame(s: seq<Extension>, t: seq<Extension>, ids: set<Name>, n: nat)
    requires n <= |s| <= |t| && s <= t
    ensures Filtered(s, ids, n) == Filtered(t, ids, n)
  {
    if n > 0 {
      FilteredSame(s, t, ids, n - 1);
    }
  }

  lemma {:induction false} DropTwice(messages: seq<Message>, a: set<Name>, b: set<Name>)
    ensures DropAll(DropAll(messages, a), b) == DropAll(messages, a + b)
  {
    var twice, once := DropAll(DropAll(messages, a), b), DropAll(messages, a + b);
    forall i | 0 <= i < |messages|
      ensures twice[i] == once[i]
    {
      FilteredTwice(messages[i].extensions, a, b, |messages[i].extensions|);
    }
  }

  lemma {:induction false} FilteredNothing(extensions: seq<Extension>, n: nat)
    requires n <= |extensions|
    ensures Filtered(extensions, {}, n) == extensions[..n]
  {
    if n > 0 {
      FilteredNothing(extensions, n - 1);
    }
  }

  lemma {:induction false} DropNothing(messages: seq<Message>)
    ensures DropAll(messages, {}) == messages
  {
    forall i | 0 <= i < |messages|
      ensures DropAll(messages, {})[i] == messages[i]
    {
      var e := messages[i].extensions;
      FilteredNothing(e, |e|);
      assert e[..|e|] == e;
    }
  }

  /** A stable history: nothing malformed, and every state it carries holds. */
  ghost predicate Stable(host: Host, messages: seq<Message>, profile: Descriptor) {
    && Stocked(messages).Stock?
    && forall id :: id in States(Stocked(messages)) ==> VerdictOf(host, messages, profile, id) == Holds
  }

  lemma {:induction false} EmptyPassIsStable(host: Host, messages: seq<Message>, policy: OpaquePolicy,
                                             before: map<Name, Held>)
    requires Pass(host, messages, policy, before) == Some({})
    ensures Stable(host, messages, policy.profile)
  {
    PassIsInvalid(host, messages, policy, before);
    forall id | id in States(Stocked(messages))
      ensures VerdictOf(host, messages, policy.profile, id) == Holds
    {
      assert id !in InvalidIds(host, messages, policy.profile);
    }
  }

  /** Every dropped state was invalid in the history left by the passes before its own. */
  ghost predicate Justified(host: Host, messages: seq<Message>, profile: Descriptor, drops: set<Name>) {
    forall id :: id in drops ==> exists earlier: set<Name> :: DroppedAfter(host, messages, profile, drops, earlier, id)
  }

  ghost predicate DroppedAfter(host: Host, messages: seq<Message>, profile: Descriptor, drops: set<Name>,
                               earlier: set<Name>, id: Name) {
    earlier <= drops && id !in earlier && id in InvalidIds(host, DropAll(messages, earlier), profile)
  }

  lemma {:induction false} JustifiedStep(host: Host, messages: seq<Message>, profile: Descriptor, first: set<Name>,
                                         rest: set<Name>)
    requires Stocked(messages).Stock? && first == InvalidIds(host, messages, profile)
    requires Justified(host, DropAll(messages, first), profile, rest)
    ensures Justified(host, messages, profile, first + rest)
  {
    forall id | id in first + rest
      ensures exists earlier: set<Name> :: DroppedAfter(host, messages, profile, first + rest, earlier, id)
    {
      if id in first {
        DropNothing(messages);
        assert DroppedAfter(host, messages, profile, first + rest, {}, id);
      } else {
        var earlier: set<Name> :| DroppedAfter(host, DropAll(messages, first), profile, rest, earlier, id);
        DropTwice(messages, first, earlier);
        assert DroppedAfter(host, messages, profile, first + rest, first + earlier, id);
      }
    }
  }

  /** States and nothing else are gone, and what is left is stable. */
  ghost predicate SettledTo(host: Host, messages: seq<Message>, policy: OpaquePolicy, r: Enforced, dropped: set<Name>,
                            drops: set<Name>) {
    && r.Accepted? && r.dropped == dropped + drops && Same(r.messages, DropAll(messages, drops))
    && Stocked(messages).Stock? && drops <= States(Stocked(messages)).Keys
    && (!policy.dropInvalid ==> drops == {})
  }

  lemma {:induction false} SettledNow(host: Host, messages: seq<Message>, policy: OpaquePolicy, before: map<Name, Held>,
                                      dropped: set<Name>)
    requires Pass(host, messages, policy, before) == Some({})
    ensures SettledTo(host, messages, policy, Accepted(messages, dropped), dropped, {})
  {
    PassIsInvalid(host, messages, policy, before);
    DropNothing(messages);
    assert dropped + {} == dropped;
  }

  lemma {:induction false} DropsWithin(messages: seq<Message>, first: set<Name>, rest: set<Name>)
    requires Stocked(messages).Stock? && first <= States(Stocked(messages)).Keys
    requires rest <= States(Stocked(DropAll(messages, first))).Keys
    ensures first + rest <= States(Stocked(messages)).Keys
  {
    ShrunkInventory(messages, first, |messages|);
  }

  lemma {:induction false} SettledLater(host: Host, messages: seq<Message>, policy: OpaquePolicy, r: Enforced,
                                        dropped: set<Name>, first: set<Name>, rest: set<Name>)
    requires Stocked(messages).Stock? && first <= States(Stocked(messages)).Keys && policy.dropInvalid
    requires SettledTo(host, DropAll(messages, first), policy, r, dropped + first, rest)
    ensures SettledTo(host, messages, policy, r, dropped, first + rest)
  {
    DropTwice(messages, first, rest);
    DropsWithin(messages, first, rest);
    assert dropped + first + rest == dropped + (first + rest);
  }

  lemma {:induction false} PassWithin(host: Host, messages: seq<Message>, policy: OpaquePolicy, before: map<Name, Held>)
    requires var p := Pass(host, messages, policy, before); p.Some? && p.value != {}
    ensures Stocked(messages).Stock? && policy.dropInvalid
    ensures Pass(host, messages, policy, before).value <= States(Stocked(messages)).Keys
    ensures Pass(host, messages, policy, before).value == InvalidIds(host, messages, policy.profile)
  {
    PassIsInvalid(host, messages, policy, before);
  }

  /** The loop drops states and nothing else, only states invalid at their pass, and stops at a stable history;
      in fail-closed mode it drops nothing. */
  lemma {:induction false} SettleIsSound(host: Host, messages: seq<Message>, policy: OpaquePolicy,
                                         before: map<Name, Held>, dropped: set<Name>)
    returns (r: Enforced, drops: set<Name>)
    requires Settle(host, messages, policy, before, dropped).Accepted?
    ensures Same(r, Settle(host, messages, policy, before, dropped))
    ensures SettledTo(host, messages, policy, r, dropped, drops)
    ensures Stable(host, r.messages, policy.profile)
    ensures Justified(host, messages, policy.profile, drops)
    decreases |States(Stocked(messages))|
  {
    var p := Pass(host, messages, policy, before).value;
    if p == {} {
      r, drops := Accepted(messages, dropped), {};
      SettledNow(host, messages, policy, before, dropped);
      EmptyPassIsStable(host, messages, policy, before);
    } else {
      PassWithin(host, messages, policy, before);
      DropShrinks(host, messages, policy, before);
      var rest;
      r, rest := SettleIsSound(host, DropAll(messages, p), policy, before, dropped + p);
      drops := p + rest;
      SettledLater(host, messages, policy, r, dropped, p, rest);
      JustifiedStep(host, messages, policy.profile, p, rest);
    }
  }

  // ---------------------------------------------------------------- the whole check

  predicate HasOpaqueState(messages: seq<Message>) {
    exists i, j :: 0 <= i < |messages| && 0 <= j < |messages[i].extensions| && IsOpaque(messages[i].extensions[j])
  }

  predicate IsOpaque(e: Extension) {
    e.Opaque? || e.typeId == OPAQUE_TYPE
  }

  /** `ValidateOpaqueState`. */
  ghost predicate ValidOpaque(host: Host, messages: seq<Message>, profile: Descriptor) {
    HasOpaqueState(messages) ==> UniqueIds(messages) && Stable(host, messages, profile)
  }

  method FindOpaqueState(messages: seq<Message>) returns (found: bool)
    ensures found <==> HasOpaqueState(messages)
  {
    for i := 0 to |messages|
      invariant forall k, j :: 0 <= k < i && 0 <= j < |messages[k].extensions| ==> !IsOpaque(messages[k].extensions[j])
    {
      for j := 0 to |messages[i].extensions|
        invariant forall l :: 0 <= l < j ==> !IsOpaque(messages[i].extensions[l])
      {
        if IsOpaque(messages[i].extensions[j]) {
          return true;
        }
      }
    }
    found := false;
  }

  method ValidateOpaqueState(host: Host, messages: seq<Message>, profile: Descriptor) returns (ok: bool)
    ensures ok <==> ValidOpaque(host, messages, profile)
  {
    var has := FindOpaqueState(messages);
    if !has {
      return true;
    }
    var unique := ValidateUniqueMessageIDs(messages);
    if !unique {
      return false;
    }
    var stock := OpaqueStateInventory(messages);
    if stock.BadStock? {
      return false;
    }
    ok := AllHold(host, messages, profile, stock.states, Verdicts(host, messages, profile));
  }

  method AllHold(host: Host, messages: seq<Message>, profile: Descriptor, states: map<Name, Held>,
                 ghost verdicts: map<Name, Verdict>)
    returns (ok: bool)
    requires verdicts.Keys == states.Keys
    requires forall id :: id in states ==>
               verdicts[id] == Judge(host, messages, states[id].message.id, states[id].state, profile)
    ensures ok <==> forall id :: id in verdicts ==> verdicts[id] == Holds
  {
    var pending := states.Keys;
    while pending != {}
      invariant pending <= states.Keys && forall id :: id in verdicts && id !in pending ==> verdicts[id] == Holds
      decreases |pending|
    {
      var id :| id in pending;
      var verdict := ValidateOne(host, messages, states[id].message.id, states[id].state, profile);
      if verdict != Holds {
        return false;
      }
      pending := pending - {id};
    }
    ok := true;
  }

  lemma {:induction false} DropKeepsIds(messages: seq<Message>, ids: set<Name>)
    ensures UniqueIds(DropAll(messages, ids)) <==> UniqueIds(messages)
  {
    assert forall i :: 0 <= i < |messages| ==> DropAll(messages, ids)[i].id == messages[i].id;
  }

  /** What enforcement guarantees: states and nothing else are dropped, each because it was invalid; every state of
      the request is still there or reported as dropped; in fail-closed mode success means nothing was dropped; and
      the result passes validation whenever the message identities are distinct, exactly so if a state is left. */
  lemma {:induction false} EnforcementIsSound(host: Host, messages: seq<Message>, policy: OpaquePolicy,
                                              original: map<Name, Origin>)
    returns (drops: set<Name>)
    requires EnforcedOf(host, messages, Some(policy), original).Accepted?
    ensures var r := EnforcedOf(host, messages, Some(policy), original);
            && r.messages == DropAll(messages, drops)
            && Justified(host, messages, policy.profile, drops)
            && (!policy.dropInvalid ==> r.dropped == {} && r.messages == messages)
            && (UniqueIds(messages) ==> ValidOpaque(host, r.messages, policy.profile))
            && (ValidOpaque(host, r.messages, policy.profile) <==> !HasOpaqueState(r.messages) || UniqueIds(messages))
            && Conserved(original, r)
  {
    var current := States(Stocked(messages));
    if |current| == 0 && |original| == 0 {
      drops := {};
      DropNothing(messages);
      assert current == map[] && original == map[];
    } else {
      var r;
      r, drops := SettleIsSound(host, messages, policy, current, original.Keys - current.Keys);
      ShrunkInventory(messages, drops, |messages|);
      DropKeepsIds(messages, drops);
      if !policy.dropInvalid {
        NothingMissing(host, messages, policy, current, original);
        DropNothing(messages);
      }
      forall id | id in current
        ensures id in original && Unmoved(current, original[id], id)
      {
        assert Accounted(host, messages, policy, current, original[id], id);
      }
      ConservedByDrop(messages, original, current, drops, r);
    }
  }

  /** Every state of the request survives unchanged with its owner, or is reported as dropped, and not both. */
  ghost predicate Conserved(original: map<Name, Origin>, r: Enforced) {
    && r.Accepted? && Stocked(r.messages).Stock?
    && (forall id :: id in original <==> (id in r.dropped || id in States(Stocked(r.messages))))
    && (forall id :: id in States(Stocked(r.messages)) ==>
          id !in r.dropped && id in original && Unmoved(States(Stocked(r.messages)), original[id], id))
  }

  lemma {:induction false} NothingMissing(host: Host, messages: seq<Message>, policy: OpaquePolicy,
                                          current: map<Name, Held>, original: map<Name, Origin>)
    requires AllAccounted(host, messages, policy, current, original) && !policy.dropInvalid
    ensures original.Keys - current.Keys == {}
  {
    forall id | id in original
      ensures id in current
    {
      assert Accounted(host, messages, policy, current, original[id], id);
    }
  }

  lemma {:induction false} ConservedByDrop(messages: seq<Message>, original: map<Name, Origin>,
                                           current: map<Name, Held>, drops: set<Name>, r: Enforced)
    requires Stocked(messages) == Stock(current) && r.Accepted? && r.messages == DropAll(messages, drops)
    requires r.dropped == original.Keys - current.Keys + drops && drops <= current.Keys
    requires forall id :: id in current ==> id in original && Unmoved(current, original[id], id)
    ensures Conserved(original, r)
  {
    ShrunkInventory(messages, drops, |messages|);
  }

  // ---------------------------------------------------------------- repeated message identities

  const PROFILE := Descriptor(Named("profile"), Named("1"))
  const STATE := OpaqueState(Named("state"), PROFILE, "payload", -1, OpaqueBinding(PROFILE, [], [], Anonymous))
  const OWNER := Message(Named("x"), User, [], [], "first", [Opaque(STATE)])
  const TWIN := Message(Named("x"), User, [], [], "second", [])

  lemma {:induction false} TwinStock(messages: seq<Message>)
    requires messages == [OWNER, TWIN]
    ensures Stocked(messages) == Stock(map[STATE.id := Held(OWNER, STATE)])
  {
    assert InventoryOf(messages, 0) == Stock(map[]);
    assert WithMessage(Stock(map[]), OWNER, 0) == Stock(map[]);
    assert WithMessage(Stock(map[]), OWNER, 1) == Stock(map[][STATE.id := Held(OWNER, STATE)]);
    assert InventoryOf(messages, 1) == WithMessage(InventoryOf(messages, 0), OWNER, 1);
    assert InventoryOf(messages, 2) == WithMessage(InventoryOf(messages, 1), TWIN, 0);
  }

  lemma {:induction false} TwinHolds(host: Host, messages: seq<Message>)
    requires messages == [OWNER, TWIN] && CodecKnown(host, STATE) && host.ref(OWNER).Some? && host.ref(TWIN).Some?
    ensures Judge(host, messages, OWNER.id, STATE, PROFILE) == Holds
  {
    var s := Scanned(host, messages, OWNER.id, -1, 0);
    assert Scanned(host, messages, OWNER.id, -1, 1) == Some(([] + [host.ref(OWNER).value], 0));
    assert Scanned(host, messages, OWNER.id, -1, 2) == Some(([] + [host.ref(OWNER).value] + [host.ref(TWIN).value], 1));
  }

  /** Enforcement alone leaves repeated message identities to its caller: it accepts this history, validation refuses
      it. */
  lemma {:induction false} EnforcementLeavesIdsToCaller(host: Host)
    requires CodecKnown(host, STATE) && host.ref(OWNER).Some? && host.ref(TWIN).Some?
    ensures var messages, policy := [OWNER, TWIN], OpaquePolicy(PROFILE, true);
            var original := map[STATE.id := Origin(OWNER, STATE, 0)];
            && EnforcedOf(host, messages, Some(policy), original) == Accepted(messages, {})
            && !ValidOpaque(host, messages, PROFILE)
  {
    var messages, policy := [OWNER, TWIN], OpaquePolicy(PROFILE, true);
    var current, original := map[STATE.id := Held(OWNER, STATE)], map[STATE.id := Origin(OWNER, STATE, 0)];
    TwinStock(messages);
    TwinHolds(host, messages);
    TwinOrder(messages, original);
    assert original.Keys - current.Keys == {};
    TwinPass(host, messages, policy, current);
    assert IsOpaque(messages[0].extensions[0]);
    assert messages[0].id == messages[1].id;
  }

  lemma {:induction false} TwinOrder(messages: seq<Message>, original: map<Name, Origin>)
    requires messages == [OWNER, TWIN] && original == map[STATE.id := Origin(OWNER, STATE, 0)]
    ensures InOrder(messages, original)
  {
    assert OrderUpTo(OWNER, original, 0) == Some(-1) && OrderUpTo(OWNER, original, 1) == Some(0);
  }

  lemma {:induction false} TwinPass(host: Host, messages: seq<Message>, policy: OpaquePolicy, before: map<Name, Held>)
    requires Stocked(messages) == Stock(map[STATE.id := Held(OWNER, STATE)])
    requires Judge(host, messages, OWNER.id, STATE, policy.profile) == Holds
    ensures Pass(host, messages, policy, before) == Some({})
  {
    var verdicts := Verdicts(host, messages, policy.profile);
    assert verdicts == map[STATE.id := Holds];
    ChosenIs(verdicts, host, policy, before, {});
  }
}
