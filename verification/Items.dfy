/** JSON values as the gateway reads them. Strings are sequences of code points, already trimmed. */
module Items {

  datatype Option<+T> = None | Some(value: T)

  datatype Kind =
    | Message
    | Reasoning
    | FunctionCall
    | CustomToolCall
    | FunctionCallOutput
    | CustomToolCallOutput
    | Compaction
    | CompactionTrigger
    | OtherKind(name: string)

  datatype Role = User | Assistant | System | Developer | OtherRole(name: string)

  /** The `encrypted_content` field of a reasoning item, classified once on entry. */
  datatype Encrypted = Missing | Invalid | Verified(token: string)

  /** One element of an `input` or `output` array. An element that is not a JSON object, or that
      lacks a field, has "" in that field; `payload` stands for every other field. */
  datatype Item = Item(kind: Kind, id: string, callId: string, role: Role, encrypted: Encrypted, payload: string)

  predicate IsToolCall(item: Item) {
    (item.kind.FunctionCall? || item.kind.CustomToolCall?) && item.callId != ""
  }

  predicate IsToolOutput(item: Item) {
    (item.kind.FunctionCallOutput? || item.kind.CustomToolCallOutput?) && item.callId != ""
  }

  function ToolCallIds(items: seq<Item>): set<string> {
    set item | item in items && IsToolCall(item) :: item.callId
  }

  function ToolOutputIds(items: seq<Item>): set<string> {
    set item | item in items && IsToolOutput(item) :: item.callId
  }
}
