/** Messages to and from a provider, as the tool loop and the decoder share
    them. */
module Messages {
  import opened Text

  /** JSON, as far as a provider's reply is read. `Number` is every number that is not a `u64`. */
  datatype Json =
    | Null
    | Bool(b: bool)
    | U64(n: nat)
    | Number
    | Str(s: string)
    | Arr(items: seq<Json>)
    | Obj(fields: map<string, Json>)
  {
    /** Indexing: a missing key reads as null. */
    function At(key: string): Json { if Obj? && key in fields then fields[key] else Null }

    function AsStr(): Option<string> { if Str? then Some(s) else None }

    function AsStrOr(default: string): string { if Str? then s else default }

    /** `as_u64` and then a cast to `u32`. */
    function AsU32(): Option<nat> { if U64? then Some(n % 0x1_0000_0000) else None }
  }

  datatype Block =
    | TextBlock(text: string)
    | ToolUse(id: string, name: string, input: Json)
    | ToolResult(toolUseId: string, content: string, isError: bool)
    | Injected(notice: Notice)    // a text block the loop itself adds

  /** The texts the loop adds after tool results; their wording is not modelled. */
  datatype Notice = DegradedWarning | ExpectationMixed | ExpectationFailed

  datatype StopReason = EndTurn | ToolUseStop | MaxTokens | StopSequence | Other(reason: string)

  datatype Response = Response(
    content: seq<Block>, stop: StopReason, model: string, inputTokens: Option<nat>, outputTokens: Option<nat>)

  datatype Role = Assistant | User

  datatype Message = Message(role: Role, blocks: seq<Block>)
}
