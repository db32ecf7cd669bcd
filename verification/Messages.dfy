/** Conversation messages, as far as the transcript functions look at them. */
module Messages {
  import opened Options

  /** A tool declaration. */
  datatype Tool = Tool(name: string, description: string, parameters: string, sampling: Option<string>)

  datatype SystemContent = Text(text: string) | Blocks(blocks: seq<string>)

  type Sections = map<string, Option<string>>

  datatype SystemMessage = SystemMessage(
    content: SystemContent,
    sections: Option<Sections>,
    toolsAdded: Option<seq<Tool>>,
    toolsRemoved: Option<seq<string>>,
    timestamp: nat)

  datatype ToolCall = ToolCall(id: string, name: string, arguments: string, thoughtSignature: Option<string>)

  datatype ContentBlock =
    | TextBlock(text: string, textSignature: Option<string>)
    | Thinking(thinking: string, thinkingSignature: Option<string>, redacted: Option<bool>)
    | CallBlock(call: ToolCall)

  datatype StopReason = Stop | Length | ToolUse | Error | Aborted

  datatype AssistantMessage = AssistantMessage(
    content: seq<ContentBlock>, provider: string, api: string, model: string, stopReason: StopReason)

  /** A block of a user message or of a tool result. */
  datatype UserBlock = UserText(text: string, signature: Option<string>) | Image(data: string)

  datatype UserContent = PlainText(text: string) | UserBlocks(blocks: seq<UserBlock>)

  datatype ToolResult = ToolResult(
    toolCallId: string, toolName: string, content: seq<UserBlock>, isError: bool, timestamp: nat)

  datatype Message =
    | System(system: SystemMessage)
    | User(user: UserContent)
    | Assistant(assistant: AssistantMessage)
    | Result(result: ToolResult)

  function Join(parts: seq<string>, separator: string): string {
    if parts == [] then "" else if |parts| == 1 then parts[0] else parts[0] + separator + Join(parts[1..], separator)
  }

  function AsPlainText(c: SystemContent): string {
    match c
    case Text(s) => s
    case Blocks(blocks) => Join(blocks, "\n")
  }

  /** The tool calls of an assistant message, in order. */
  function CallsOf(content: seq<ContentBlock>): seq<ToolCall> {
    if content == [] then []
    else (if content[0].CallBlock? then [content[0].call] else []) + CallsOf(content[1..])
  }

  function SystemOnly(ms: seq<Message>): seq<Message> {
    if ms == [] then [] else (if ms[0].System? then [ms[0]] else []) + SystemOnly(ms[1..])
  }

  function WithoutSystem(ms: seq<Message>): seq<Message> {
    if ms == [] then [] else (if ms[0].System? then [] else [ms[0]]) + WithoutSystem(ms[1..])
  }

  lemma {:induction false} SystemOnlyConcat(a: seq<Message>, b: seq<Message>)
    ensures SystemOnly(a + b) == SystemOnly(a) + SystemOnly(b)
  {
    if a == [] {
      assert a + b == b;
    } else {
      assert (a + b)[1..] == a[1..] + b;
      SystemOnlyConcat(a[1..], b);
    }
  }

  lemma {:induction false} WithoutSystemConcat(a: seq<Message>, b: seq<Message>)
    ensures WithoutSystem(a + b) == WithoutSystem(a) + WithoutSystem(b)
  {
    if a == [] {
      assert a + b == b;
    } else {
      assert (a + b)[1..] == a[1..] + b;
      WithoutSystemConcat(a[1..], b);
    }
  }
}
