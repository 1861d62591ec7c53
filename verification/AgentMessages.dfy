/**
 Messages, tools and events of packages/agent (src/types.ts) and of the transcript helpers in
 packages/ai/src/utils/transcript.ts.
 */
module AgentMessages {
  import opened Wrappers

  /** A tool as it is declared to the model. */
  datatype Tool = Tool(name: string, definition: string)

  datatype ToolCall = ToolCall(id: string, name: string, arguments: string)

  datatype Block = Text(text: string) | Thinking(text: string) | Call(call: ToolCall)

  /** The content of a tool result; the texts the loop itself produces are named by what they say. */
  datatype Content =
    | Output(text: string)
    | ErrorText(message: string)
    | ToolNotFound(name: string)
    | ExecutionBlocked
    | OperationAborted
    | ArgumentsTruncated(name: string)

  datatype StopReason = Stop | Length | ToolUse | Error | Aborted

  datatype Message =
    | System(content: string, toolsAdded: seq<Tool>, toolsRemoved: seq<string>)
    | User(content: string)
    | Assistant(blocks: seq<Block>, stopReason: StopReason, errorMessage: Option<string>)
    | ToolResult(callId: string, toolName: string, result: Content, isError: bool)
    | Custom(kind: string, content: string)

  datatype ExecutionMode = Sequential | Parallel

  /** A tool the runtime can execute. */
  datatype AgentTool = AgentTool(declaration: Tool, executionMode: Option<ExecutionMode>)

  datatype Context = Context(messages: seq<Message>, tools: seq<AgentTool>)

  datatype Event =
    | AgentStart
    | AgentEnd(messages: seq<Message>)
    | TurnStart
    | TurnEnd(message: Message, toolResults: seq<Message>)
    | MessageStart(message: Message)
    | MessageUpdate(message: Message)
    | MessageEnd(message: Message)
    | ToolBatchStart(calls: seq<ToolCall>)
    | ToolStart(call: ToolCall)
    | ToolUpdate(call: ToolCall, partial: string)
    | ToolEnd(call: ToolCall, result: Content, isError: bool)

  /** The tool calls among the blocks of an assistant message. */
  function CallsOf(blocks: seq<Block>): seq<ToolCall> {
    if blocks == [] then []
    else (if blocks[0].Call? then [blocks[0].call] else []) + CallsOf(blocks[1..])
  }

  /** The calls are those of the blocks, part by part and in order. */
  lemma {:induction false} CallsInOrder(a: seq<Block>, b: seq<Block>)
    ensures CallsOf(a + b) == CallsOf(a) + CallsOf(b)
  {
    if a == [] {
      assert a + b == b;
    } else {
      assert (a + b)[1..] == a[1..] + b;
      CallsInOrder(a[1..], b);
      FirstCalls(if a[0].Call? then [a[0].call] else [], CallsOf(a[1..]), CallsOf(b));
    }
  }

  lemma FirstCalls(first: seq<ToolCall>, more: seq<ToolCall>, last: seq<ToolCall>)
    ensures first + (more + last) == (first + more) + last
  {
  }

  lemma CallsOfOne(block: Block)
    ensures CallsOf([block]) == match block case Call(call) => [call] case _ => []
  {
    assert [block][1..] == [];
  }

  function Concat<T>(parts: seq<seq<T>>): seq<T> {
    if parts == [] then [] else Concat(parts[..|parts| - 1]) + parts[|parts| - 1]
  }
}
