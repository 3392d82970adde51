/**
 * The conversation messages every workflow state holds (LangChain's
 * HumanMessage, SystemMessage, AIMessage and ToolMessage).
 */
module Messages {
  import opened Wrappers

  /** One tool invocation requested by the model: `{"name": ..., "args": ...}`. */
  datatype ToolCall = ToolCall(name: string, args: string)

  /** `usage_metadata` of an AI message: counter names such as "total_tokens" to counts. */
  type UsageMetadata = map<string, nat>

  /**
   * Only AI messages have the `tool_calls` and `usage_metadata` attributes;
   * an AI message's `usage_metadata` may be None.
   */
  datatype Message =
    | Human(content: string)
    | System(content: string)
    | AI(content: string, toolCalls: seq<ToolCall>, usage: Option<UsageMetadata>)
    | Tool(content: string, toolName: string)

  /** `hasattr(msg, "tool_calls") and msg.tool_calls`. */
  predicate HasToolCalls(m: Message) {
    m.AI? && |m.toolCalls| > 0
  }

  /** The tool calls a message carries; none for a message without the attribute. */
  function ToolCallsOf(m: Message): seq<ToolCall> {
    if m.AI? then m.toolCalls else []
  }

  /** `isinstance(msg, AIMessage)` and the message requests no tool. */
  predicate IsToolFreeReply(m: Message) {
    m.AI? && |m.toolCalls| == 0
  }

  function Last(msgs: seq<Message>): Message
    requires |msgs| > 0
  {
    msgs[|msgs| - 1]
  }
}
