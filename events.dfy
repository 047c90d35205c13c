/** Terminal key events, as far as the handlers look at them. */
module Events {
  /** The key codes the handlers distinguish; every other key is `OtherKey`. */
  datatype KeyCode = Char(c: char) | Enter | Left | Right | Up | Down | Esc | OtherKey

  /** One modifier flag of a key event. */
  datatype Modifier = Shift | Control | Alt | Super | Hyper | Meta

  /** A key press: its code and the set of modifier flags held down. */
  datatype KeyEvent = KeyEvent(code: KeyCode, modifiers: set<Modifier>)
}
