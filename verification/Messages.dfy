/** Conversation messages (pkg/message types), shared by the loops that grow them and the
    transformations that rewrite them. */
module Messages {
  datatype Role = System | User | Assistant | Tool

  datatype ToolCall = ToolCall(id: string, name: string, args: string)

  datatype Message = Message(role: Role, content: string, toolCalls: seq<ToolCall>, toolCallId: string)

  function SystemMessage(content: string): Message {
    Message(System, content, [], "")
  }

  function UserMessage(content: string): Message {
    Message(User, content, [], "")
  }

  function AssistantMessage(content: string, calls: seq<ToolCall>): Message {
    Message(Assistant, content, calls, "")
  }

  function ToolMessage(id: string, content: string): Message {
    Message(Tool, content, [], id)
  }
}
