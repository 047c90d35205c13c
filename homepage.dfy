/** The homepage's key handling: moving the selection, starting a study session or quitting. */
module Homepage {
  import opened Options
  import opened Events
  import opened HomepageMenu
  import opened Application

  /** The homepage's data, when the page shown is the homepage. */
  function Extract(p: Page): (r: Option<PageData>)
    ensures r.Some? <==> p.Homepage?
    ensures r.Some? ==> p == Homepage(r.value)
  {
    match p
    case Homepage(data) => Some(data)
    case StudyPage => None
  }

  /** Whether the key stops the application: Enter while Quit is selected. */
  predicate QuitsOnKey(d: PageData, code: KeyCode) {
    d.currentOption == Quit && code == Enter
  }

  /** The page shown after the key is handled on a homepage with data d. */
  function PageAfterKey(d: PageData, code: KeyCode): Page {
    match code
    case Enter => if d.currentOption == Start then StudyPage else Homepage(d)
    case Left | Up => Homepage(PreviousOption(d))
    case Right | Down => Homepage(NextOption(d))
    case _ => Homepage(d)
  }

  /**
   * Only Enter on Start leaves the homepage; the selection moves exactly on
   * the four arrow keys; Enter on Quit keeps the homepage with Quit selected.
   */
  lemma KeyOutcomes(d: PageData, code: KeyCode)
    ensures PageAfterKey(d, code) == StudyPage <==> d.currentOption == Start && code == Enter
    ensures PageAfterKey(d, code).Homepage? ==> (PageAfterKey(d, code).data != d <==> code in {Left, Right, Up, Down})
    ensures QuitsOnKey(d, code) ==> PageAfterKey(d, code) == Homepage(d) && d.currentOption == Quit
  {
  }

  /**
   * Handles a key on the homepage. The shown page must be the homepage (the
   * handler unwraps its data). Enter on Start opens the study page and returns
   * at once; every other path stores the (possibly moved) data back as the
   * homepage.
   */
  method HandleKeyEvents(key: KeyEvent, app: App)
    requires app.currentPage.Homepage?
    modifies app
    ensures app.currentPage == PageAfterKey(old(app.currentPage).data, key.code)
    ensures app.running == (old(app.running) && !QuitsOnKey(old(app.currentPage).data, key.code))
  {
    var pageData := Extract(app.currentPage).value;
    match (pageData.currentOption, key.code) {
      case (Quit, Enter) =>
        app.Quit();
      case (Start, Enter) =>
        app.GoToStudyPage();
        return;
      case (_, Left) | (_, Up) =>
        pageData := PreviousOption(pageData);
      case (_, Right) | (_, Down) =>
        pageData := NextOption(pageData);
      case _ =>
    }
    app.GoToHomepage(pageData);
  }
}
