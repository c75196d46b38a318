/** Progress of one interactive turn, as a streaming client sees it
    (`src/tool_loop.rs`, `src/wire.rs`). */
module TurnEvents {
  datatype TurnStatus = Thinking | Tool(name: string) | Responding

  datatype ResetReason = Fallback | Guard | Budget | Refusal | Failure

  datatype TurnEvent =
    | Status(status: TurnStatus)
    | Delta(text: string)
    | Segment(index: nat, tool: bool)
    | Reset(reason: ResetReason)
}
