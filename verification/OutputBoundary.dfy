/** The last gate of an output: unique identities, the host's rewrite, then opaque state (output_boundary.go). */
module OutputBoundary {
  import opened Results
  import opened Sequences
  import opened Messages
  import opened Rounds
  import opened Layouts
  import opened OutputPolicy
  import opened OpaqueStates
  import opened OpaqueDrops
  import SelectionUnits

  datatype Payload = Payload(
    system: seq<PromptMessage>, history: seq<PromptMessage>, tools: seq<PromptMessage>, memory: seq<PromptMessage>)

  /** `encode` is the serialized rest of a message and `encodable` whether it survives a round trip; `rewrite` is
      the host's output policy; `main` tells the main output from a named target. */
  datatype Gate = Gate(
    host: Host, encode: PromptMessage -> string, encodable: PromptMessage -> bool,
    rewrite: Option<Payload -> Option<Payload>>, opaquePolicy: Option<OpaquePolicy>, main: bool)

  datatype Outcome =
    | Delivered(messages: seq<Message>, dropped: set<Name>)
    | BadInput | BadRewrite | BadState | BadRounds

  function Output(payload: Payload, main: bool): seq<PromptMessage> {
    if main then payload.system + payload.history + payload.tools + payload.memory
    else payload.system + payload.history + payload.memory + payload.tools
  }

  /** A message as opaque state sees it. */
  function Carried(encode: PromptMessage -> string, m: PromptMessage): Message {
    Message(m.id, m.role, CallsOf(m.parts), ResultsOf(m.parts), encode(m), m.extensions)
  }

  function CarriedAll(encode: PromptMessage -> string, messages: seq<PromptMessage>): (out: seq<Message>)
    ensures |out| == |messages| && forall i :: 0 <= i < |out| ==> out[i] == Carried(encode, messages[i])
  {
    seq(|messages|, i requires 0 <= i < |messages| => Carried(encode, messages[i]))
  }

  // ---------------------------------------------------------------- the host's rewrite

  predicate Presentable(encodable: PromptMessage -> bool, messages: seq<PromptMessage>) {
    forall i :: 0 <= i < |messages| ==> !messages[i].role.OtherRole? && encodable(messages[i])
  }

  predicate PayloadPresentable(encodable: PromptMessage -> bool, p: Payload) {
    && Presentable(encodable, p.system) && Presentable(encodable, p.history)
    && Presentable(encodable, p.tools) && Presentable(encodable, p.memory)
  }

  predicate PayloadAccepted(before: Payload, after: Payload) {
    && SegmentAccepted(before.system, after.system) && SegmentAccepted(before.history, after.history)
    && SegmentAccepted(before.tools, after.tools) && SegmentAccepted(before.memory, after.memory)
  }

  method ValidatePresentable(encodable: PromptMessage -> bool, messages: seq<PromptMessage>) returns (ok: bool)
    ensures ok <==> Presentable(encodable, messages)
  {
    for i := 0 to |messages|
      invariant forall k :: 0 <= k < i ==> !messages[k].role.OtherRole? && encodable(messages[k])
    {
      if messages[i].role.OtherRole? || !encodable(messages[i]) {
        return false;
      }
    }
    ok := true;
  }

  method ValidateOutputPolicyPayload(encodable: PromptMessage -> bool, p: Payload) returns (ok: bool)
    ensures ok <==> PayloadPresentable(encodable, p)
  {
    ok := ValidatePresentable(encodable, p.system);
    if ok {
      ok := ValidatePresentable(encodable, p.history);
    }
    if ok {
      ok := ValidatePresentable(encodable, p.tools);
    }
    if ok {
      ok := ValidatePresentable(encodable, p.memory);
    }
  }

  method ApplyOutputPolicy(gate: Gate, input: Payload) returns (output: Option<Payload>)
    requires gate.rewrite.Some?
    ensures output.Some? ==> gate.rewrite.value(input) == output && PayloadAccepted(input, output.value)
    ensures output.None? <==> (!PayloadPresentable(gate.encodable, input) || gate.rewrite.value(input).None?
                               || !PayloadPresentable(gate.encodable, gate.rewrite.value(input).value)
                               || !PayloadAccepted(input, gate.rewrite.value(input).value))
  {
    var presentable := ValidateOutputPolicyPayload(gate.encodable, input);
    if !presentable {
      return None;
    }
    output := gate.rewrite.value(input);
    if output.None? {
      return;
    }
    presentable := ValidateOutputPolicyPayload(gate.encodable, output.value);
    if !presentable {
      return None;
    }
    var system := ValidateSegment(input.system, output.value.system);
    var history := ValidateSegment(input.history, output.value.history);
    var tools := ValidateSegment(input.tools, output.value.tools);
    var memory := ValidateSegment(input.memory, output.value.memory);
    if !system || !history || !tools || !memory {
      return None;
    }
  }

  // ---------------------------------------------------------------- identities

  predicate SameIds(a: seq<PromptMessage>, b: seq<PromptMessage>) {
    |a| == |b| && forall i :: 0 <= i < |a| ==> a[i].id == b[i].id
  }

  lemma SameIdsConcat(a: seq<PromptMessage>, b: seq<PromptMessage>, c: seq<PromptMessage>,
                      d: seq<PromptMessage>)
    requires SameIds(a, b) && SameIds(c, d)
    ensures SameIds(a + c, b + d)
  {
  }

  /** An accepted rewrite keeps every identity of the output in its place. */
  lemma {:induction false} RewriteKeepsIds(before: Payload, after: Payload, main: bool)
    requires PayloadAccepted(before, after)
    ensures SameIds(Output(before, main), Output(after, main))
  {
    var a, b := before.system + before.history, after.system + after.history;
    SameIdsConcat(before.system, after.system, before.history, after.history);
    if main {
      SameIdsConcat(a, b, before.tools, after.tools);
      SameIdsConcat(a + before.tools, b + after.tools, before.memory, after.memory);
    } else {
      SameIdsConcat(a, b, before.memory, after.memory);
      SameIdsConcat(a + before.memory, b + after.memory, before.tools, after.tools);
    }
  }

  lemma {:induction false} SameIdsUnique(encode: PromptMessage -> string, a: seq<PromptMessage>, b: seq<PromptMessage>)
    requires SameIds(a, b)
    ensures UniqueIds(CarriedAll(encode, a)) <==> UniqueIds(CarriedAll(encode, b))
  {
    var x, y := CarriedAll(encode, a), CarriedAll(encode, b);
    assert forall i :: 0 <= i < |a| ==> x[i].id == a[i].id && y[i].id == b[i].id && x[i].id == y[i].id;
  }

  // ---------------------------------------------------------------- the rounds of the history

  /** The round check of the history segment, skipped when nothing in it belongs to a round. */
  predicate RoundsPass(history: seq<PromptMessage>) {
    SelectionUnits.HasRoundParts(SeenAll(history)) ==> Valid(SeenAll(history))
  }

  method ValidateFinalRounds(history: seq<PromptMessage>) returns (ok: bool)
    ensures ok <==> RoundsPass(history)
  {
    var seen := SeenAll(history);
    var any := SelectionUnits.FindRoundParts(seen);
    if !any {
      return true;
    }
    var inspection := InspectToolRoundStates(seen, map[]);
    ok := inspection.Inspected?;
  }

  /** A rewrite of a history that passed fails only by giving the tool role to a message without tool parts. */
  lemma {:induction false} RewriteFailsRoundsIff(before: seq<PromptMessage>, after: seq<PromptMessage>)
    requires SegmentAccepted(before, after) && RoundsPass(before)
    ensures !RoundsPass(after) <==>
            SelectionUnits.HasRoundParts(SeenAll(before)) && !ToolRolesEarned(SeenAll(after))
  {
    var a, b := SeenAll(before), SeenAll(after);
    forall i | 0 <= i < |a|
      ensures Alike(a[i], b[i])
    {
      MatchIsAlike(before[i], after[i]);
    }
    assert SelectionUnits.HasRoundParts(a) <==> SelectionUnits.HasRoundParts(b);
    if SelectionUnits.HasRoundParts(a) {
      RewriteKeepsRounds(before, after, map[]);
    }
  }

  // ---------------------------------------------------------------- the gate

  ghost predicate Admits(gate: Gate, payload: Payload) {
    && (forall i :: 0 <= i < |Output(payload, gate.main)| ==> !Output(payload, gate.main)[i].role.OtherRole?)
    && UniqueIds(CarriedAll(gate.encode, Output(payload, gate.main))) && RoundsPass(payload.history)
  }

  method ValidateOutputBeforePolicy(gate: Gate, payload: Payload) returns (ok: bool)
    ensures ok <==> Admits(gate, payload)
  {
    var messages := Output(payload, gate.main);
    for i := 0 to |messages|
      invariant forall k :: 0 <= k < i ==> !messages[k].role.OtherRole?
    {
      if messages[i].role.OtherRole? {
        return false;
      }
    }
    var unique := ValidateUniqueMessageIDs(CarriedAll(gate.encode, messages));
    if !unique {
      return false;
    }
    ok := ValidateFinalRounds(payload.history);
  }

  /** What passes the gate: the identities of the output in place, opaque state that validation accepts, every state
      of the request kept or reported, and the rounds of the history as they were. */
  ghost predicate Passes(gate: Gate, payload: Payload, original: map<Name, Origin>, accepted: Payload, r: Outcome) {
    && r.Delivered? && SameIds(Output(payload, gate.main), Output(accepted, gate.main))
    && Conserved(original, Accepted(r.messages, r.dropped))
    && (exists drops :: Same(r.messages, DropAll(CarriedAll(gate.encode, Output(accepted, gate.main)), drops)))
    && (gate.opaquePolicy.Some? ==> ValidOpaque(gate.host, r.messages, gate.opaquePolicy.value.profile))
    && (gate.opaquePolicy.None? ==> forall profile :: ValidOpaque(gate.host, r.messages, profile))
  }

  /** `acceptSemanticOutput`; `accepted` is the payload after the host's rewrite. */
  method AcceptSemanticOutput(gate: Gate, payload: Payload, original: map<Name, Origin>)
    returns (r: Outcome, accepted: Payload)
    ensures r.Delivered? ==> Admits(gate, payload) && Passes(gate, payload, original, accepted, r)
    ensures r.BadInput? <==> !Admits(gate, payload)
    ensures r.Delivered? || r.BadRounds? ==> PayloadAccepted(payload, accepted)
    ensures r.Delivered? && Valid(SeenAll(payload.history)) && ToolRolesEarned(SeenAll(accepted.history)) ==>
              Inspect(SeenAll(accepted.history), map[]) == Inspect(SeenAll(payload.history), map[])
    ensures r.BadRounds? ==> !ToolRolesEarned(SeenAll(accepted.history))
  {
    accepted := payload;
    var admitted := ValidateOutputBeforePolicy(gate, payload);
    if !admitted {
      return BadInput, accepted;
    }
    SelfAccepted(payload);
    if gate.rewrite.Some? {
      var rewritten := ApplyOutputPolicy(gate, payload);
      if rewritten.None? {
        return BadRewrite, accepted;
      }
      accepted := rewritten.value;
    }
    RewriteKeepsIds(payload, accepted, gate.main);
    SameIdsUnique(gate.encode, Output(payload, gate.main), Output(accepted, gate.main));
    var enforced := EnforceOpaqueState(gate.host, CarriedAll(gate.encode, Output(accepted, gate.main)),
                                       gate.opaquePolicy, original);
    if enforced.Refused? {
      return BadState, accepted;
    }
    RewriteFailsRoundsIff(payload.history, accepted.history);
    var rounds := ValidateFinalRounds(accepted.history);
    if !rounds {
      return BadRounds, accepted;
    }
    r := Delivered(enforced.messages, enforced.dropped);
    EnforcedPasses(gate, payload, original, accepted, r);
    if Valid(SeenAll(payload.history)) && ToolRolesEarned(SeenAll(accepted.history)) {
      RewriteKeepsRounds(payload.history, accepted.history, map[]);
    }
  }

  lemma SelfAccepted(payload: Payload)
    ensures PayloadAccepted(payload, payload)
  {
  }

  lemma {:induction false} EnforcedPasses(gate: Gate, payload: Payload, original: map<Name, Origin>, accepted: Payload,
                                          r: Outcome)
    requires r.Delivered? && SameIds(Output(payload, gate.main), Output(accepted, gate.main))
    requires var messages := CarriedAll(gate.encode, Output(accepted, gate.main));
             && UniqueIds(messages)
             && EnforcedOf(gate.host, messages, gate.opaquePolicy, original) == Accepted(r.messages, r.dropped)
    ensures Passes(gate, payload, original, accepted, r)
  {
    var messages := CarriedAll(gate.encode, Output(accepted, gate.main));
    if gate.opaquePolicy.Some? {
      var drops := EnforcementIsSound(gate.host, messages, gate.opaquePolicy.value, original);
      assert Same(r.messages, DropAll(messages, drops));
    } else {
      DropNothing(messages);
      assert Same(r.messages, DropAll(messages, {}));
    }
  }
}
