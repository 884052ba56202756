/** Chat messages as the chat library hands them to an adapter, and the text
    extraction of src/lib/message-utils.ts (which both adapters repeat as a
    private `extractContent`). */
module MessageUtils {
  import opened Common
  import opened Json
  import opened Chunks

  datatype ContentPart = ContentPart(kind: string, content: string)

  /** `string | null | ContentPart[] | undefined`; `NoContent` is null or undefined. */
  datatype MessageContent = NoContent | TextContent(text: string) | PartsContent(parts: seq<ContentPart>)

  /** A tool call's arguments: a JSON text, or an already-parsed value. */
  datatype ToolArguments = ArgumentText(text: string) | ArgumentValue(value: JsonValue)

  datatype ToolCallRef = ToolCallRef(id: string, name: string, arguments: ToolArguments)

  datatype Role = User | Assistant | Tool | OtherRole

  /** A model message; `toolCallId` is "" when absent. */
  datatype ModelMessage = ModelMessage(role: Role, content: MessageContent, toolCalls: seq<ToolCallRef>, toolCallId: string)

  /** A tool offered to the model; `inputSchema` is None when not given. */
  datatype ToolSpec = ToolSpec(name: string, description: string, inputSchema: Option<JsonValue>)

  /** The options an adapter's `chatStream` receives. Absent lists are empty;
      `thinkingHistory` is the stored thinking keyed by response id, in the
      order its keys were first written. */
  datatype TextOptions = TextOptions(
    model: string,
    messages: seq<ModelMessage>,
    systemPrompts: seq<string>,
    tools: seq<ToolSpec>,
    temperature: Option<real>,
    maxTokens: Option<int>,
    topP: Option<real>,
    thinkingHistory: Option<seq<(string, ThinkingItem)>>)

  /** JavaScript truthiness of a content value: arrays are truthy even when empty. */
  predicate ContentTruthy(c: MessageContent) {
    match c
    case NoContent => false
    case TextContent(t) => t != ""
    case PartsContent(_) => true
  }

  /** The in-order concatenation of the `content` of the parts of kind "text". */
  function TextOfParts(parts: seq<ContentPart>): string
    decreases |parts|
  {
    if |parts| == 0 then ""
    else
      var last := parts[|parts| - 1];
      TextOfParts(parts[..|parts| - 1]) + (if last.kind == "text" then last.content else "")
  }

  /** `extractContent` */
  function ExtractContent(c: MessageContent): (r: string)
    ensures !ContentTruthy(c) ==> r == ""
    ensures c.TextContent? ==> r == c.text
    ensures c.PartsContent? ==> r == TextOfParts(c.parts)
  {
    if !ContentTruthy(c) then ""
    else match c
      case TextContent(t) => t
      case PartsContent(ps) => TextOfParts(ps)
  }

  /** Parts of another kind contribute nothing, and a text part contributes
      its content in place: the result is a concatenation in part order. */
  lemma {:induction false} TextOfPartsAppend(a: seq<ContentPart>, b: seq<ContentPart>)
    ensures TextOfParts(a + b) == TextOfParts(a) + TextOfParts(b)
    decreases |b|
  {
    if |b| == 0 {
      assert a + b == a;
    } else {
      assert (a + b)[..|a + b| - 1] == a + b[..|b| - 1];
      TextOfPartsAppend(a, b[..|b| - 1]);
    }
  }

  /** With no part of kind "text" the result is "". */
  lemma {:induction false} NoTextPartsGiveEmpty(parts: seq<ContentPart>)
    requires forall i :: 0 <= i < |parts| ==> parts[i].kind != "text"
    ensures ExtractContent(PartsContent(parts)) == ""
    decreases |parts|
  {
    if |parts| > 0 {
      NoTextPartsGiveEmpty(parts[..|parts| - 1]);
    }
  }

  /** Every character of the result comes from the content of a text part:
      its length is the sum of the text parts' lengths, and dropping all
      other parts does not change it. */
  lemma {:induction false} OnlyTextPartsCount(parts: seq<ContentPart>)
    ensures TextOfParts(parts) == TextOfParts(TextParts(parts))
    ensures forall i :: 0 <= i < |TextParts(parts)| ==> TextParts(parts)[i].kind == "text"
    decreases |parts|
  {
    if |parts| > 0 {
      var init := parts[..|parts| - 1];
      var last := parts[|parts| - 1];
      OnlyTextPartsCount(init);
      if last.kind == "text" {
        var kept := TextParts(init) + [last];
        assert kept[..|kept| - 1] == TextParts(init);
        assert TextOfParts(kept) == TextOfParts(TextParts(init)) + last.content;
      } else {
        assert TextParts(parts) == TextParts(init) + [];
        assert TextParts(init) + [] == TextParts(init);
      }
      assert TextOfParts(parts) == TextOfParts(init) + (if last.kind == "text" then last.content else "");
    }
  }

  /** `parts.filter(p => p.type === "text")` */
  function TextParts(parts: seq<ContentPart>): seq<ContentPart>
    decreases |parts|
  {
    if |parts| == 0 then []
    else
      var last := parts[|parts| - 1];
      TextParts(parts[..|parts| - 1]) + (if last.kind == "text" then [last] else [])
  }

  /** A tool result's content, as both adapters send it: the text itself, or
      `JSON.stringify` (the parameter `stringify`) of anything else. */
  function ToolResultContent(content: MessageContent, stringify: MessageContent -> string): string {
    if content.TextContent? then content.text else stringify(content)
  }
}
