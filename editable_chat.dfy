/** The message-editing hook of src/hooks/use-editable-chat.ts: locating a
    tool call in the chat's UI messages, reading its data, and replacing its
    result while dropping every later message. */
module EditableChat {
  import opened Common
  import opened Json

  /** A part of a UI message: a tool call, or any other kind of part. An
      absent `output` (`undefined`) is `None`; a JSON `null` output is
      `Some(JNull)`. */
  datatype UiPart =
    | ToolCallPart(id: string, name: string, arguments: Option<string>, output: Option<JsonValue>, state: Option<string>)
    | OtherPart(kind: string)

  datatype UiMessage = UiMessage(id: string, role: string, parts: seq<UiPart>)

  datatype Position = Position(msgIndex: nat, partIndex: nat)

  /** Part `p` of message `m` is a tool call with the id. */
  predicate CallAt(msgs: seq<UiMessage>, toolCallId: string, m: int, p: int) {
    && 0 <= m < |msgs| && 0 <= p < |msgs[m].parts|
    && msgs[m].parts[p].ToolCallPart? && msgs[m].parts[p].id == toolCallId
  }

  ghost predicate NoCall(msgs: seq<UiMessage>, toolCallId: string) {
    forall m, p :: !CallAt(msgs, toolCallId, m, p)
  }

  /** `pos` is the first call with the id, scanning message by message and,
      within a message, part by part. */
  ghost predicate FirstCall(msgs: seq<UiMessage>, toolCallId: string, pos: Position) {
    && CallAt(msgs, toolCallId, pos.msgIndex, pos.partIndex)
    && forall m, p :: CallAt(msgs, toolCallId, m, p) ==>
         pos.msgIndex < m || (pos.msgIndex == m && pos.partIndex <= p)
  }

  /** There is at most one first call. */
  lemma FirstCallUnique(msgs: seq<UiMessage>, toolCallId: string, a: Position, b: Position)
    requires FirstCall(msgs, toolCallId, a) && FirstCall(msgs, toolCallId, b)
    ensures a == b
  {
    assert CallAt(msgs, toolCallId, b.msgIndex, b.partIndex);
    assert CallAt(msgs, toolCallId, a.msgIndex, a.partIndex);
  }

  /** `findToolCall`: the nested scan. */
  method FindToolCall(msgs: seq<UiMessage>, toolCallId: string) returns (r: Option<Position>)
    ensures r.None? <==> NoCall(msgs, toolCallId)
    ensures r.Some? ==> FirstCall(msgs, toolCallId, r.value)
  {
    var m := 0;
    while m < |msgs|
      invariant 0 <= m <= |msgs|
      invariant forall m', p' :: m' < m ==> !CallAt(msgs, toolCallId, m', p')
    {
      var p := 0;
      while p < |msgs[m].parts|
        invariant 0 <= p <= |msgs[m].parts|
        invariant forall p' :: p' < p ==> !CallAt(msgs, toolCallId, m, p')
      {
        var part := msgs[m].parts[p];
        if part.ToolCallPart? && part.id == toolCallId {
          forall m', p' | CallAt(msgs, toolCallId, m', p')
            ensures m < m' || (m == m' && p <= p')
          {
            assert !(m' < m) && !(m' == m && p' < p);
          }
          assert CallAt(msgs, toolCallId, m, p);
          return Some(Position(m, p));
        }
        p := p + 1;
      }
      m := m + 1;
    }
    return None;
  }

  /** The input and output `getToolCallData` reports. */
  datatype ToolCallData = ToolCallData(input: JsonValue, output: Option<JsonValue>)

  /** The input of a call: `null` when the arguments are absent, empty or
      do not parse. */
  function InputOf(arguments: Option<string>, parse: Parser): JsonValue {
    if arguments.None? || arguments.value == "" then JNull
    else match parse(arguments.value)
      case Some(v) => v
      case None => JNull
  }

  /** `getToolCallData`: nothing for an unknown id; otherwise the first
      call's parsed arguments and its output. */
  method GetToolCallData(msgs: seq<UiMessage>, toolCallId: string, parse: Parser) returns (r: Option<ToolCallData>)
    ensures r.None? <==> NoCall(msgs, toolCallId)
    ensures forall pos :: FirstCall(msgs, toolCallId, pos) ==>
      var part := msgs[pos.msgIndex].parts[pos.partIndex];
      r == Some(ToolCallData(InputOf(part.arguments, parse), part.output))
  {
    var found := FindToolCall(msgs, toolCallId);
    if found.None? {
      return None;
    }
    var part := msgs[found.value.msgIndex].parts[found.value.partIndex];
    var input := JNull;
    if part.arguments.Some? && part.arguments.value != "" {
      var parsed := parse(part.arguments.value);
      if parsed.Some? {
        input := parsed.value;
      }
    }
    r := Some(ToolCallData(input, part.output));
    forall pos | FirstCall(msgs, toolCallId, pos)
      ensures pos == found.value
    {
      FirstCallUnique(msgs, toolCallId, pos, found.value);
    }
  }

  /** `canEditToolCall`: the call exists and its output is defined. */
  method CanEditToolCall(msgs: seq<UiMessage>, toolCallId: string) returns (b: bool)
    ensures b <==> exists pos :: FirstCall(msgs, toolCallId, pos) && msgs[pos.msgIndex].parts[pos.partIndex].output.Some?
  {
    var found := FindToolCall(msgs, toolCallId);
    if found.None? {
      return false;
    }
    b := msgs[found.value.msgIndex].parts[found.value.partIndex].output.Some?;
    forall pos | FirstCall(msgs, toolCallId, pos)
      ensures pos == found.value
    {
      FirstCallUnique(msgs, toolCallId, pos, found.value);
    }
  }

  /** The messages up to and including message `m`, where part `p` of
      message `m` gets `newOutput`. */
  function Replaced(msgs: seq<UiMessage>, m: nat, p: nat, newOutput: JsonValue): seq<UiMessage>
    requires m < |msgs| && p < |msgs[m].parts| && msgs[m].parts[p].ToolCallPart?
  {
    var msg := msgs[m];
    msgs[..m] + [msg.(parts := msg.parts[p := msg.parts[p].(output := Some(newOutput))])]
  }

  /** After a replacement the list ends at the edited message; earlier
      messages, the message's other parts and the call's other fields are
      as they were, and the call's output is the new one. */
  lemma ReplacedShape(msgs: seq<UiMessage>, m: nat, p: nat, newOutput: JsonValue)
    requires m < |msgs| && p < |msgs[m].parts| && msgs[m].parts[p].ToolCallPart?
    ensures var r := Replaced(msgs, m, p, newOutput);
      && |r| == m + 1
      && r[..m] == msgs[..m]
      && r[m].id == msgs[m].id && r[m].role == msgs[m].role
      && |r[m].parts| == |msgs[m].parts|
      && (forall q :: 0 <= q < |r[m].parts| && q != p ==> r[m].parts[q] == msgs[m].parts[q])
      && r[m].parts[p] == msgs[m].parts[p].(output := Some(newOutput))
  {
  }

  /** The chat whose messages the hook edits. */
  class Chat {
    var messages: seq<UiMessage>

    constructor (initial: seq<UiMessage>)
      ensures messages == initial
    {
      messages := initial;
    }

    /** `replaceToolResult`: an unknown id leaves the messages alone;
        otherwise they become the replaced prefix. */
    method ReplaceToolResult(toolCallId: string, newOutput: JsonValue)
      modifies this
      ensures NoCall(old(messages), toolCallId) ==> messages == old(messages)
      ensures forall pos :: FirstCall(old(messages), toolCallId, pos) ==>
        messages == Replaced(old(messages), pos.msgIndex, pos.partIndex, newOutput)
      ensures !NoCall(old(messages), toolCallId) ==> |messages| <= |old(messages)|
    {
      var found := FindToolCall(messages, toolCallId);
      if found.None? {
        return;
      }
      var m, p := found.value.msgIndex, found.value.partIndex;
      var truncated := messages[..m + 1];
      var lastMsg := truncated[m];
      var toolPart := lastMsg.parts[p].(output := Some(newOutput));
      lastMsg := lastMsg.(parts := lastMsg.parts[p := toolPart]);
      truncated := truncated[m := lastMsg];
      assert truncated == Replaced(messages, m, p, newOutput);
      forall pos | FirstCall(messages, toolCallId, pos)
        ensures pos == found.value
      {
        FirstCallUnique(messages, toolCallId, pos, found.value);
      }
      messages := truncated;
    }
  }
}
