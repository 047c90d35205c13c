/** The application record: whether it is still running and which page is shown. */
module Application {
  import opened HomepageMenu

  /** The pages the application can show. */
  datatype Page = Homepage(data: PageData) | StudyPage

  class App {
    var running: bool
    var currentPage: Page

    /** A new application runs and shows the homepage with its default data. */
    constructor ()
      ensures running
      ensures currentPage == Homepage(DefaultPageData)
    {
      running := true;
      currentPage := Homepage(DefaultPageData);
    }

    /** The tick handler does nothing. */
    method Tick()
      ensures unchanged(this)
    {
    }

    /** Stops the application; the page stays. Calling it again changes nothing further. */
    method Quit()
      modifies this
      ensures !running
      ensures currentPage == old(currentPage)
    {
      running := false;
    }

    method GoToHomepage(data: PageData)
      modifies this
      ensures currentPage == Homepage(data)
      ensures running == old(running)
    {
      currentPage := Homepage(data);
    }

    method GoToStudyPage()
      modifies this
      ensures currentPage == StudyPage
      ensures running == old(running)
    {
      currentPage := StudyPage;
    }
  }
}
