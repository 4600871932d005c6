/** Conversation messages and the pairing of tool results with the calls that
    asked for them. */
module Messages {

  datatype Role = System | User | Assistant | Tool

  datatype Call = Call(id: string, name: string)

  /** An assistant turn's calls as they arrive on the wire, which may not
      parse. */
  datatype Calls = Malformed | Parsed(list: seq<Call>)

  datatype Message = Message(role: Role, content: string, calls: Calls, toolCallId: string)

  const NoCalls := Parsed([])

  function ToolMessage(id: string, content: string): Message {
    Message(Tool, content, NoCalls, id)
  }

  function AssistantMessage(content: string, calls: seq<Call>): Message {
    Message(Assistant, content, Parsed(calls), "")
  }

  function CallIds(calls: seq<Call>): set<string> {
    set i | 0 <= i < |calls| :: calls[i].id
  }

  datatype Scan = Broken | Pending(ids: set<string>)

  /** The ids asked for and not yet answered, or `Broken` at the first message
      that cannot be paired. */
  function ScanOne(s: Scan, m: Message): Scan {
    if s.Broken? then Broken
    else match m.role
      case Assistant => if m.calls.Malformed? then Broken else Pending(s.ids + CallIds(m.calls.list))
      case Tool => if m.toolCallId == "" || m.toolCallId !in s.ids then Broken else Pending(s.ids - {m.toolCallId})
      case _ => s
  }

  function ScanAll(messages: seq<Message>): Scan {
    if messages == [] then Pending({})
    else ScanOne(ScanAll(messages[..|messages| - 1]), messages[|messages| - 1])
  }

  predicate Paired(messages: seq<Message>) {
    ScanAll(messages).Pending?
  }

  // ---------------------------------------------------------------- pairing, read off the messages

  ghost predicate Asks(m: Message, id: string) {
    m.role == Assistant && m.calls.Parsed? && exists i :: 0 <= i < |m.calls.list| && m.calls.list[i].id == id
  }

  ghost predicate Replies(m: Message, id: string) {
    m.role == Tool && m.toolCallId == id
  }

  /** Some assistant turn asked under the id, and no tool message after it has
      answered. */
  ghost predicate Outstanding(messages: seq<Message>, id: string) {
    exists j :: 0 <= j < |messages| && Asks(messages[j], id) && forall k :: j < k < |messages| ==> !Replies(messages[k], id)
  }

  ghost predicate Fits(messages: seq<Message>, m: Message) {
    && (m.role == Assistant ==> m.calls.Parsed?)
    && (m.role == Tool ==> m.toolCallId != "" && Outstanding(messages, m.toolCallId))
  }

  /** Every assistant turn parses, and every tool message answers what is
      outstanding when it comes. */
  ghost predicate WellPaired(messages: seq<Message>) {
    forall i :: 0 <= i < |messages| ==> Fits(messages[..i], messages[i])
  }

  lemma {:induction false} PairedIff(messages: seq<Message>)
    ensures Paired(messages) <==> WellPaired(messages)
    ensures Paired(messages) ==> forall id :: id in ScanAll(messages).ids <==> Outstanding(messages, id)
  {
    if messages != [] {
      var n := |messages| - 1;
      PairedIff(messages[..n]);
      WellPairedSnoc(messages);
      if Paired(messages) {
        forall id ensures id in ScanAll(messages).ids <==> Outstanding(messages, id) {
          OutstandingSnoc(messages, id);
        }
      }
    }
  }

  lemma WellPairedSnoc(messages: seq<Message>)
    requires messages != []
    ensures var n := |messages| - 1;
      WellPaired(messages) <==> WellPaired(messages[..n]) && Fits(messages[..n], messages[n])
  {
    var n := |messages| - 1;
    forall i | 0 <= i < n
      ensures Fits(messages[..n][..i], messages[..n][i]) <==> Fits(messages[..i], messages[i])
    {
      assert messages[..n][..i] == messages[..i];
    }
  }

  lemma OutstandingSnoc(messages: seq<Message>, id: string)
    requires messages != []
    ensures var n := |messages| - 1;
      Outstanding(messages, id) <==>
        Asks(messages[n], id) || (Outstanding(messages[..n], id) && !Replies(messages[n], id))
  {
    var n := |messages| - 1;
    assert forall i :: 0 <= i < n ==> messages[..n][i] == messages[i];
  }

  method ValidateToolPairing(messages: seq<Message>) returns (ok: bool)
    ensures ok <==> Paired(messages)
  {
    var pending: set<string> := {};
    for i := 0 to |messages|
      invariant ScanAll(messages[..i]) == Pending(pending)
    {
      var m := messages[i];
      assert messages[..i + 1][..i] == messages[..i];
      match m.role {
        case Assistant =>
          if m.calls.Malformed? {
            BrokenStays(messages, i + 1);
            return false;
          }
          ghost var before := pending;
          for j := 0 to |m.calls.list|
            invariant pending == before + CallIds(m.calls.list[..j])
          {
            pending := pending + {m.calls.list[j].id};
            CallIdsSnoc(m.calls.list, j);
          }
          assert m.calls.list[..|m.calls.list|] == m.calls.list;
        case Tool =>
          if m.toolCallId == "" {
            BrokenStays(messages, i + 1);
            return false;
          }
          if m.toolCallId !in pending {
            BrokenStays(messages, i + 1);
            return false;
          }
          pending := pending - {m.toolCallId};
        case _ =>
      }
    }
    assert messages[..|messages|] == messages;
    ok := true;
  }

  lemma CallIdsSnoc(calls: seq<Call>, j: nat)
    requires j < |calls|
    ensures CallIds(calls[..j + 1]) == CallIds(calls[..j]) + {calls[j].id}
  {
    var longer := calls[..j + 1];
    forall s | s in CallIds(longer) ensures s in CallIds(calls[..j]) + {calls[j].id} {
      var i :| 0 <= i < |longer| && longer[i].id == s;
      if i < j {
        assert calls[..j][i].id == s;
      }
    }
    forall s | s in CallIds(calls[..j]) + {calls[j].id} ensures s in CallIds(longer) {
      if s in CallIds(calls[..j]) {
        var i :| 0 <= i < j && calls[..j][i].id == s;
        assert longer[i].id == s;
      } else {
        assert longer[j].id == s;
      }
    }
  }

  lemma {:induction false} BrokenStays(messages: seq<Message>, n: nat)
    requires n <= |messages| && ScanAll(messages[..n]).Broken?
    ensures ScanAll(messages).Broken?
  {
    if n < |messages| {
      assert messages[..|messages| - 1][..n] == messages[..n];
      BrokenStays(messages[..|messages| - 1], n);
    } else {
      assert messages[..n] == messages;
    }
  }

  /** The verdict depends on roles, calls and ids only, never on the text. */
  lemma {:induction false} PairingIgnoresContent(a: seq<Message>, b: seq<Message>)
    requires |a| == |b|
    requires forall i :: 0 <= i < |a| ==> b[i] == a[i].(content := b[i].content)
    ensures ScanAll(a) == ScanAll(b)
  {
    if a != [] {
      PairingIgnoresContent(a[..|a| - 1], b[..|b| - 1]);
    }
  }
}
