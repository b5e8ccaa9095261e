/** The OpenAI-shaped messages the agent works with, whichever provider it talks to. */
module Message {
  datatype ToolCall = ToolCall(id: string, kind: string, name: string, args: string)

  datatype Message = Message(role: string, content: string, toolCalls: seq<ToolCall>, toolCallId: string, name: string)

  datatype Usage = Usage(prompt: int, completion: int, total: int)

  datatype ChatResult = ChatResult(message: Message, usage: Usage, model: string)

  function SystemMessage(content: string): Message {
    Message("system", content, [], "", "")
  }

  function UserMessage(content: string): Message {
    Message("user", content, [], "", "")
  }

  function AssistantMessage(content: string, toolCalls: seq<ToolCall>): Message {
    Message("assistant", content, toolCalls, "", "")
  }

  function ToolMessage(call: ToolCall, content: string): Message {
    Message("tool", content, [], call.id, call.name)
  }

  function FunctionCall(id: string, name: string, args: string): ToolCall {
    ToolCall(id, "function", name, args)
  }
}
