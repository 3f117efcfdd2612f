/** What the terminal side reports to the TUI loop. */
module Events {
  import AppErrors

  datatype KeyEventKind = Press | Repeat | Release

  /** The key codes the TUI and the chat act on; every other code is
      `Other`. */
  datatype KeyCode = Backspace | Enter | Esc | Char(c: char) | Other(code: nat)

  /** A key event, reduced to its kind and its code. */
  datatype KeyEvent = KeyEvent(kind: KeyEventKind, code: KeyCode)

  datatype Event =
    | TerminalManagerInitialized
    | Shutdown
    | Error(error: AppErrors.Error)
    | Tick
    | Render
    | Key(key: KeyEvent)
    | CapturedInput(text: string)
}
