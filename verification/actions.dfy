/** What the TUI loop executes, and what components hand back to it. */
module Actions {
  import AppErrors

  datatype Action =
    | Start
    | Stop
    | Tick
    | Render
    | Error(error: AppErrors.Error)
    | HandleOutgoing(text: string)
}
