/** Messages, their tool parts, and content references. */
module Messages {
  import opened Sequences

  /** Identities are opaque text, only compared and checked for absence; `Anonymous` is the empty one. */
  datatype Name = Anonymous | Named(text: string)

  datatype Descriptor = Descriptor(id: Name, revision: Name) {
    predicate Valid() {
      id != Anonymous && revision != Anonymous
    }
  }

  datatype ContentRef = ContentRef(id: Name, digest: string, occurrence: string) {
    /** A SHA-256 digest in lower-case hexadecimal and a present identity. */
    predicate Valid() {
      id != Anonymous && CanonicalDigest(digest)
    }

    function Base(): ContentRef {
      this.(occurrence := "")
    }
  }

  predicate CanonicalDigest(digest: string) {
    |digest| == 64 && forall c :: c in digest ==> '0' <= c <= '9' || 'a' <= c <= 'f'
  }

  /** Valid references, none of them twice. */
  predicate GoodRefs(refs: seq<ContentRef>) {
    Distinct(refs) && forall i :: 0 <= i < |refs| ==> refs[i].Valid()
  }

  method ValidateRefs(refs: seq<ContentRef>) returns (ok: bool)
    ensures ok <==> GoodRefs(refs)
  {
    var seen: set<ContentRef> := {};
    for i := 0 to |refs|
      invariant forall k :: 0 <= k < i ==> refs[k].Valid() && refs[k] in seen
      invariant forall j, k :: 0 <= j < k < i ==> refs[j] != refs[k]
      invariant forall r :: r in seen ==> exists k :: 0 <= k < i && refs[k] == r
    {
      if !refs[i].Valid() || refs[i] in seen {
        return false;
      }
      seen := seen + {refs[i]};
    }
    ok := true;
  }

  datatype Role = System | Developer | User | Assistant | Tool | OtherRole(name: string)

  datatype OpaqueBinding = OpaqueBinding(
    profile: Descriptor, required: seq<ContentRef>, prefix: seq<ContentRef>, boundary: Name)

  datatype OpaqueState = OpaqueState(
    id: Name, codec: Descriptor, payloadType: string, afterPart: int, binding: OpaqueBinding)

  datatype Extension = Opaque(state: OpaqueState) | Foreign(typeId: string, body: string)

  /** A message as the history algorithms see it: `calls` and `results` are the identities of its
      tool call and tool result parts in order, `body` is everything else it carries. */
  datatype Message = Message(
    id: Name, role: Role, calls: seq<Name>, results: seq<Name>, body: string, extensions: seq<Extension>) {

    predicate HasToolCalls() {
      |calls| > 0
    }
  }

  /** Present message identities are never repeated; anonymous messages may repeat. */
  predicate UniqueIds(messages: seq<Message>) {
    forall i, j :: 0 <= i < j < |messages| && messages[i].id != Anonymous ==> messages[i].id != messages[j].id
  }

  method ValidateUniqueMessageIDs(messages: seq<Message>) returns (ok: bool)
    ensures ok <==> UniqueIds(messages)
  {
    var seen := {};
    for i := 0 to |messages|
      invariant UniqueIds(messages[..i])
      invariant forall id :: id in seen <==> id != Anonymous && exists k :: 0 <= k < i && messages[k].id == id
    {
      if messages[i].id != Anonymous {
        if messages[i].id in seen {
          return false;
        }
        seen := seen + {messages[i].id};
      }
    }
    assert messages[..|messages|] == messages;
    ok := true;
  }

  lemma {:induction false} KeepUniqueIds(messages: seq<Message>, marks: seq<bool>)
    requires |messages| == |marks| && UniqueIds(messages)
    ensures UniqueIds(Keep(messages, marks))
  {
    if messages != [] {
      KeepUniqueIds(messages[1..], marks[1..]);
      KeepMembers(messages[1..], marks[1..]);
      assert forall m :: m in Keep(messages[1..], marks[1..]) && messages[0].id != Anonymous ==> m.id != messages[0].id;
    }
  }
}
