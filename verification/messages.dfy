/** The values that the agent loop moves around: messages, tool calls and the
    events it emits. Text that the loop never inspects stays an opaque string. */
module Messages {
  datatype Option<+T> = None | Some(value: T)

  datatype ToolCall = ToolCall(id: string, name: string, args: string)

  datatype Part = Text(text: string) | Call(call: ToolCall)

  datatype StopReason = Stop | Length | ToolUse | Failed | Aborted

  /** `Other` stands for user and custom messages. */
  datatype Message =
    | Other(role: string, body: string)
    | Assistant(content: seq<Part>, stopReason: StopReason, errorMessage: Option<string>)
    | ToolResult(callId: string, toolName: string, body: string, details: string, isError: bool)

  /** What a tool hands back; `terminate` may be left undefined. */
  datatype ToolValue = ToolValue(content: string, details: string, terminate: Option<bool>)

  datatype Finalized = Finalized(call: ToolCall, result: ToolValue, isError: bool)

  function ErrorValue(message: string): (r: ToolValue) {
    ToolValue(message, "{}", None)
  }

  /** The tool calls of a message's content, in the order they appear. */
  function CallsIn(content: seq<Part>): (calls: seq<ToolCall>) {
    if content == [] then []
    else (if content[0].Call? then [content[0].call] else []) + CallsIn(content[1..])
  }

  predicate DistinctIds(calls: seq<ToolCall>) {
    forall i, j | 0 <= i < j < |calls| :: calls[i].id != calls[j].id
  }

  function CallsOf(m: Message): (r: seq<ToolCall>) {
    if m.Assistant? then CallsIn(m.content) else []
  }

  function ResultMessage(f: Finalized): (r: Message) {
    ToolResult(f.call.id, f.call.name, f.result.content, f.result.details, f.isError)
  }

  function ResultMessages(fs: seq<Finalized>): (ms: seq<Message>)
    ensures |ms| == |fs|
    ensures forall i | 0 <= i < |fs| :: ms[i] == ResultMessage(fs[i])
  {
    seq(|fs|, i requires 0 <= i < |fs| => ResultMessage(fs[i]))
  }

  /** A batch ends the run's tool use only when it is not empty and every call asks for it. */
  predicate Terminates(fs: seq<Finalized>) {
    && fs != []
    && forall i | 0 <= i < |fs| :: fs[i].result.terminate == Some(true)
  }

  /** `results` answer `calls` one by one, in order. */
  predicate Answers(results: seq<Message>, calls: seq<ToolCall>) {
    && |results| == |calls|
    && forall i | 0 <= i < |calls| ::
         results[i].ToolResult? && results[i].callId == calls[i].id && results[i].toolName == calls[i].name
  }

  datatype Event =
    | AgentStart
    | AgentEnd(messages: seq<Message>)
    | TurnStart
    | TurnEnd(message: Message, toolResults: seq<Message>)
    | MessageStart(message: Message)
    | MessageUpdate(message: Message)
    | MessageEnd(message: Message)
    | ToolStart(call: ToolCall)
    | ToolUpdate(call: ToolCall, partial: string)
    | ToolEnd(finalized: Finalized)
    | Reflex(toolName: string, turnIndex: nat, consecutiveReflexes: nat)

  const ABORT_ERROR_MESSAGE := "Request was aborted"
}
