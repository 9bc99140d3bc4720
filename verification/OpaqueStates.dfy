/** Validity of host-owned opaque state (opaque_state.go). */
module OpaqueStates {
  import opened Results
  import opened Messages

  const OPAQUE_TYPE := "contexty.opaque_state"

  /** What is outside this model: the content reference of a message, the number of its content parts, and
      the codec registered for a payload type. */
  datatype Host = Host(
    ref: Message -> Option<ContentRef>, parts: Message -> nat, codecs: map<string, Descriptor>)

  datatype Verdict = Holds | Invalidated | Broken

  // ---------------------------------------------------------------- the envelope

  predicate RefsWellFormed(refs: seq<ContentRef>) {
    GoodRefs(refs) && forall i :: 0 <= i < |refs| ==> refs[i].occurrence == ""
  }

  predicate WellFormed(s: OpaqueState) {
    && s.id != Anonymous && s.payloadType != "" && s.payloadType != OPAQUE_TYPE && -1 <= s.afterPart
    && s.codec.Valid() && s.binding.profile.Valid()
    && (|s.binding.prefix| == 0) == (s.binding.boundary == Anonymous)
    && RefsWellFormed(s.binding.required) && RefsWellFormed(s.binding.prefix)
    && (|s.binding.prefix| > 0 ==> s.binding.prefix[|s.binding.prefix| - 1].id == s.binding.boundary)
  }

  method ValidateBaseRefs(refs: seq<ContentRef>) returns (ok: bool)
    ensures ok <==> RefsWellFormed(refs)
  {
    for i := 0 to |refs|
      invariant forall k :: 0 <= k < i ==> refs[k].occurrence == ""
    {
      if refs[i].occurrence != "" {
        return false;
      }
    }
    ok := ValidateRefs(refs);
  }

  method ValidateState(s: OpaqueState) returns (ok: bool)
    ensures ok <==> WellFormed(s)
  {
    if s.id == Anonymous || s.payloadType == "" || s.payloadType == OPAQUE_TYPE || s.afterPart < -1 {
      return false;
    }
    if !s.codec.Valid() || !s.binding.profile.Valid() {
      return false;
    }
    if (|s.binding.prefix| == 0) != (s.binding.boundary == Anonymous) {
      return false;
    }
    var required := ValidateBaseRefs(s.binding.required);
    var prefix := ValidateBaseRefs(s.binding.prefix);
    if !required || !prefix {
      return false;
    }
    ok := |s.binding.prefix| == 0 || s.binding.prefix[|s.binding.prefix| - 1].id == s.binding.boundary;
  }

  // ---------------------------------------------------------------- context and binding

  datatype Context = Context(refs: seq<ContentRef>, owner: nat) | NoOwner | BadContext

  /** The references of the first `n` messages and the last of them that is the owner, if any. */
  function Scanned(host: Host, messages: seq<Message>, owner: Name, afterPart: int,
                   n: nat): Option<(seq<ContentRef>, int)>
    requires n <= |messages|
  {
    if n == 0 then Some(([], -1))
    else
      var before := Scanned(host, messages, owner, afterPart, n - 1);
      var m := messages[n - 1];
      if before.None? || host.ref(m).None? then None
      else if m.id != owner then Some((before.value.0 + [host.ref(m).value], before.value.1))
      else if afterPart >= host.parts(m) then None
      else Some((before.value.0 + [host.ref(m).value], n - 1))
  }

  lemma {:induction false} ScannedShape(host: Host, messages: seq<Message>, owner: Name, afterPart: int, n: nat)
    requires n <= |messages|
    ensures var s := Scanned(host, messages, owner, afterPart, n);
            s.Some? ==> |s.value.0| == n && -1 <= s.value.1 < n
  {
    if n > 0 {
      ScannedShape(host, messages, owner, afterPart, n - 1);
    }
  }

  lemma {:induction false} ScannedFails(host: Host, messages: seq<Message>, owner: Name, afterPart: int, i: nat, n: nat)
    requires i <= n <= |messages| && Scanned(host, messages, owner, afterPart, i).None?
    ensures Scanned(host, messages, owner, afterPart, n).None?
  {
    if i < n {
      ScannedFails(host, messages, owner, afterPart, i, n - 1);
    }
  }

  function ContextOf(host: Host, messages: seq<Message>, owner: Name, afterPart: int): Context {
    var s := Scanned(host, messages, owner, afterPart, |messages|);
    if s.None? then BadContext else if s.value.1 < 0 then NoOwner else Context(s.value.0, s.value.1)
  }

  method OpaqueContextRefs(host: Host, messages: seq<Message>, ownerId: Name, afterPart: int) returns (r: Context)
    ensures r == ContextOf(host, messages, ownerId, afterPart)
    ensures r.Context? ==> r.owner < |r.refs|
  {
    var refs: seq<ContentRef> := [];
    var owner := -1;
    for i := 0 to |messages|
      invariant Scanned(host, messages, ownerId, afterPart, i) == Some((refs, owner))
    {
      var m := messages[i];
      var ref := host.ref(m);
      if ref.None? {
        ScannedFails(host, messages, ownerId, afterPart, i + 1, |messages|);
        return BadContext;
      }
      refs := refs + [ref.value];
      if m.id == ownerId {
        owner := i;
        if afterPart >= host.parts(m) {
          ScannedFails(host, messages, ownerId, afterPart, i + 1, |messages|);
          return BadContext;
        }
      }
    }
    ScannedShape(host, messages, ownerId, afterPart, |messages|);
    r := if owner < 0 then NoOwner else Context(refs, owner);
  }

  /** The last reference with that identity, among the first `n`. */
  function LastRef(refs: seq<ContentRef>, id: Name, n: nat): Option<ContentRef>
    requires n <= |refs|
  {
    if n == 0 then None else if refs[n - 1].id == id then Some(refs[n - 1]) else LastRef(refs, id, n - 1)
  }

  /** The first reference before `owner` that is the boundary ends exactly the declared prefix. */
  predicate PrefixHolds(binding: OpaqueBinding, refs: seq<ContentRef>, owner: nat)
    requires owner < |refs|
  {
    |binding.prefix| == 0 ||
    exists i :: 0 <= i < owner && refs[i].id == binding.boundary
                && (forall j :: 0 <= j < i ==> refs[j].id != binding.boundary) &&
                binding.prefix == refs[..i + 1]
  }

  predicate BindingHolds(binding: OpaqueBinding, refs: seq<ContentRef>, owner: nat)
    requires owner < |refs|
  {
    && (forall k :: 0 <= k < |binding.required| ==>
          binding.required[k].id != refs[owner].id
            && LastRef(refs, binding.required[k].id, |refs|) == Some(binding.required[k]))
    && PrefixHolds(binding, refs, owner)
  }

  method ValidateOpaqueBinding(binding: OpaqueBinding, refs: seq<ContentRef>, owner: nat) returns (ok: bool)
    requires owner < |refs|
    ensures ok <==> BindingHolds(binding, refs, owner)
  {
    var byId: map<Name, ContentRef> := map[];
    for i := 0 to |refs|
      invariant forall id :: (id in byId <==> LastRef(refs, id, i).Some?)
                             && (id in byId ==> LastRef(refs, id, i) == Some(byId[id]))
    {
      byId := byId[refs[i].id := refs[i]];
    }
    for k := 0 to |binding.required|
      invariant forall j :: 0 <= j < k ==>
                  binding.required[j].id != refs[owner].id
                    && LastRef(refs, binding.required[j].id, |refs|) == Some(binding.required[j])
    {
      var required := binding.required[k];
      if required.id == refs[owner].id || required.id !in byId || byId[required.id] != required {
        return false;
      }
    }
    if |binding.prefix| == 0 {
      return true;
    }
    for i := 0 to owner
      invariant forall j :: 0 <= j < i ==> refs[j].id != binding.boundary
    {
      if refs[i].id == binding.boundary {
        return binding.prefix == refs[..i + 1];
      }
    }
    ok := false;
  }

  predicate CodecKnown(host: Host, s: OpaqueState) {
    s.payloadType in host.codecs && host.codecs[s.payloadType] == s.codec
  }

  predicate ContextHolds(s: OpaqueState, c: Context) {
    c.Context? && c.owner < |c.refs| && BindingHolds(s.binding, c.refs, c.owner)
  }

  /** `validateOneOpaqueState`. */
  function Judge(host: Host, messages: seq<Message>, owner: Name, s: OpaqueState, profile: Descriptor): Verdict {
    if !WellFormed(s) || !CodecKnown(host, s) then Broken
    else if s.binding.profile != profile then Invalidated
    else
      var c := ContextOf(host, messages, owner, s.afterPart);
      if c.BadContext? then Broken else if ContextHolds(s, c) then Holds else Invalidated
  }

  method ValidateOne(host: Host, messages: seq<Message>, owner: Name, s: OpaqueState, profile: Descriptor)
    returns (v: Verdict)
    ensures v == Judge(host, messages, owner, s, profile)
  {
    var ok := ValidateState(s);
    if !ok || !CodecKnown(host, s) {
      return Broken;
    }
    if s.binding.profile != profile {
      return Invalidated;
    }
    var c := OpaqueContextRefs(host, messages, owner, s.afterPart);
    match c
    case BadContext => v := Broken;
    case NoOwner => v := Invalidated;
    case Context(refs, at) =>
      var holds := ValidateOpaqueBinding(s.binding, refs, at);
      v := if holds then Holds else Invalidated;
  }

  // ---------------------------------------------------------------- the inventory

  /** Which message carries a state. */
  datatype Held = Held(message: Message, state: OpaqueState)

  datatype Inventory = Stock(states: map<Name, Held>) | BadStock

  function WithExtension(stock: Inventory, m: Message, e: Extension): Inventory {
    if stock.BadStock? then BadStock
    else match e
      case Foreign(typeId, _) => if typeId == OPAQUE_TYPE then BadStock else stock
      case Opaque(s) =>
        if !WellFormed(s) || s.id in stock.states then BadStock else Stock(stock.states[s.id := Held(m, s)])
  }

  function WithMessage(stock: Inventory, m: Message, n: nat): Inventory
    requires n <= |m.extensions|
  {
    if n == 0 then stock else WithExtension(WithMessage(stock, m, n - 1), m, m.extensions[n - 1])
  }

  /** The states of the first `n` messages by identity; nothing if one is malformed, disguised or repeated. */
  function InventoryOf(messages: seq<Message>, n: nat): Inventory
    requires n <= |messages|
  {
    if n == 0 then Stock(map[])
    else WithMessage(InventoryOf(messages, n - 1), messages[n - 1], |messages[n - 1].extensions|)
  }

  lemma {:induction false} MessageStaysBad(stock: Inventory, m: Message, k: nat, n: nat)
    requires k <= n <= |m.extensions| && WithMessage(stock, m, k).BadStock?
    ensures WithMessage(stock, m, n).BadStock?
  {
    if k < n {
      MessageStaysBad(stock, m, k, n - 1);
    }
  }

  lemma {:induction false} InventoryStaysBad(messages: seq<Message>, k: nat, n: nat)
    requires k <= n <= |messages| && InventoryOf(messages, k).BadStock?
    ensures InventoryOf(messages, n).BadStock?
  {
    if k < n {
      InventoryStaysBad(messages, k, n - 1);
      MessageStaysBad(InventoryOf(messages, n - 1), messages[n - 1], 0, |messages[n - 1].extensions|);
    }
  }

  method OpaqueStateInventory(messages: seq<Message>) returns (r: Inventory)
    ensures r == InventoryOf(messages, |messages|)
  {
    var states: map<Name, Held> := map[];
    for i := 0 to |messages|
      invariant InventoryOf(messages, i) == Stock(states)
    {
      var next := ScanMessage(messages[i], states);
      if next.BadStock? {
        InventoryStaysBad(messages, i + 1, |messages|);
        return BadStock;
      }
      states := next.states;
    }
    r := Stock(states);
  }

  method ScanMessage(m: Message, before: map<Name, Held>) returns (r: Inventory)
    ensures r == WithMessage(Stock(before), m, |m.extensions|)
  {
    var states := before;
    for order := 0 to |m.extensions|
      invariant WithMessage(Stock(before), m, order) == Stock(states)
    {
      match m.extensions[order]
      case Foreign(typeId, _) =>
        if typeId == OPAQUE_TYPE {
          MessageStaysBad(Stock(before), m, order + 1, |m.extensions|);
          return BadStock;
        }
      case Opaque(s) =>
        var ok := ValidateState(s);
        if !ok || s.id in states {
          MessageStaysBad(Stock(before), m, order + 1, |m.extensions|);
          return BadStock;
        }
        states := states[s.id := Held(m, s)];
    }
    r := Stock(states);
  }
}
