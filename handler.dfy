/**
 * The top-level key dispatcher: Ctrl-C quits the application before any page
 * sees the key; every other key goes to the current page's own handler, whose
 * answer says whether to do nothing, show another page or quit.
 */
module Handler {
  import opened Events
  import opened Application

  /** What a page's key handler asks the application to do. */
  datatype PageEvent = Nothing | Navigate(page: Page) | QuitApp

  /** The dispatcher's result type; the dispatcher itself never fails. */
  datatype AppResult = Ok | Err(message: string)

  /** Exactly the Control modifier, with 'c' or 'C'. */
  predicate IsHardQuit(key: KeyEvent) {
    key.modifiers == {Control} && (key.code == Char('c') || key.code == Char('C'))
  }

  /**
   * The application state (running, page) after dispatching `key`;
   * `pageHandler` stands for the current page's own key handler.
   */
  function Dispatch(running: bool, page: Page, key: KeyEvent, pageHandler: (Page, KeyEvent) -> PageEvent): (bool, Page) {
    if IsHardQuit(key) then (false, page)
    else match pageHandler(page, key)
      case Nothing => (running, page)
      case Navigate(p) => (running, p)
      case QuitApp => (false, page)
  }

  /**
   * Ctrl-C stops the application and keeps the page, whatever the page's
   * handler would have answered: the handler is not consulted.
   */
  lemma HardQuitIgnoresPageHandler(running: bool, page: Page, key: KeyEvent, h1: (Page, KeyEvent) -> PageEvent, h2: (Page, KeyEvent) -> PageEvent)
    requires IsHardQuit(key)
    ensures Dispatch(running, page, key, h1) == Dispatch(running, page, key, h2) == (false, page)
  {
  }

  /**
   * Any other key, including 'c' with other modifiers, is decided by the page's
   * handler: Nothing keeps the whole state, Navigate(p) shows p and keeps the
   * running flag, QuitApp stops the application and keeps the page.
   */
  lemma OtherKeysFollowPageEvent(running: bool, page: Page, key: KeyEvent, pageHandler: (Page, KeyEvent) -> PageEvent)
    requires !IsHardQuit(key)
    ensures pageHandler(page, key) == Nothing ==> Dispatch(running, page, key, pageHandler) == (running, page)
    ensures pageHandler(page, key).Navigate? ==> Dispatch(running, page, key, pageHandler) == (running, pageHandler(page, key).page)
    ensures pageHandler(page, key) == QuitApp ==> Dispatch(running, page, key, pageHandler) == (false, page)
  {
  }

  /** Dispatching never sets a stopped application running again. */
  lemma DispatchNeverRestarts(running: bool, page: Page, key: KeyEvent, pageHandler: (Page, KeyEvent) -> PageEvent)
    ensures Dispatch(running, page, key, pageHandler).0 ==> running
  {
  }

  /** Dispatches `key` and updates `app` accordingly; always answers Ok. */
  method HandleKeyEvents(key: KeyEvent, app: App, pageHandler: (Page, KeyEvent) -> PageEvent) returns (r: AppResult)
    modifies app
    ensures r == Ok
    ensures (app.running, app.currentPage) == Dispatch(old(app.running), old(app.currentPage), key, pageHandler)
  {
    if IsHardQuit(key) {
      app.Quit();
    } else {
      match pageHandler(app.currentPage, key) {
        case Nothing =>
        case Navigate(newPage) =>
          app.currentPage := newPage;
        case QuitApp =>
          app.Quit();
      }
    }
    return Ok;
  }
}
