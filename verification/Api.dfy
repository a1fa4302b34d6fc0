/** The items of a response (pkg/api/types.go) and the messages exchanged with a
    provider (pkg/provider/types.go), as far as the other modules use them. */
module Api {
  type ItemId = nat

  datatype ItemStatus = ItemInProgress | ItemCompleted | ItemIncomplete | ItemFailed

  datatype Role = User | Assistant | System | Tool

  /** One function call: its call id, function name and argument text. */
  datatype ToolCall = ToolCall(id: string, name: string, arguments: string)

  /** `Bare` is an item of an unknown type, or without the data of its type. */
  datatype Item =
    | Message(id: ItemId, status: ItemStatus, role: Role, content: seq<string>, output: seq<string>)
    | FunctionCall(id: ItemId, status: ItemStatus, call: ToolCall)
    | FunctionCallOutput(id: ItemId, status: ItemStatus, callID: string, result: string)
    | Reasoning(id: ItemId, status: ItemStatus, thought: string)
    | Bare(id: ItemId, status: ItemStatus)

  datatype ProviderMessage = ProviderMessage(role: Role, content: string, toolCalls: seq<ToolCall>, toolCallID: string)

  datatype Usage = Usage(inputTokens: int, outputTokens: int, totalTokens: int)
}
