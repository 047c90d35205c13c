/**
 * The result page shown after a study session: the representation studied,
 * the kana guessed right and wrong, and the elapsed time in milliseconds.
 */
module ResultPage {
  import opened Options
  import opened KanaCatalog
  import opened Decimal
  import opened Events
  import opened HomepageMenu
  import opened Application

  datatype ResultPage = ResultPage(
    representation: KanaRepresentation,
    goodGuesses: seq<Kana>,
    wrongGuesses: seq<Kana>,
    totalElapsedTime: nat)

  /**
   * What the conversion reads from a finished study session: its
   * representation, its two guess lists and its total elapsed time in
   * milliseconds.
   */
  datatype StudySession = StudySession(
    representation: KanaRepresentation,
    goodGuesses: seq<Kana>,
    wrongGuesses: seq<Kana>,
    totalElapsedTimeMs: nat)

  /** The result page of a finished session: every field is carried over unchanged. */
  function FromStudySession(s: StudySession): (r: ResultPage)
    ensures r.representation == s.representation
    ensures r.goodGuesses == s.goodGuesses && r.wrongGuesses == s.wrongGuesses
    ensures r.totalElapsedTime == s.totalElapsedTimeMs
  {
    ResultPage(s.representation, s.goodGuesses, s.wrongGuesses, s.totalElapsedTimeMs)
  }

  /** The number of kana studied: each was guessed either right or wrong. */
  function KanaCount(p: ResultPage): (n: nat)
    ensures n == |multiset(p.goodGuesses + p.wrongGuesses)|
  {
    |p.goodGuesses| + |p.wrongGuesses|
  }

  /** A session's result page counts every kana the session recorded. */
  lemma ConvertedPageCountsSession(s: StudySession)
    ensures KanaCount(FromStudySession(s)) == |s.goodGuesses| + |s.wrongGuesses|
    ensures multiset(FromStudySession(s).goodGuesses + FromStudySession(s).wrongGuesses) == multiset(s.goodGuesses + s.wrongGuesses)
  {
  }

  /** Any key leads back to the homepage with its default data. */
  function HandleKeyEvents(p: ResultPage, key: KeyEvent): (r: Option<Page>)
    ensures r.Some? && r.value.Homepage? && r.value.data.currentOption == Start
  {
    Some(Homepage(DefaultPageData))
  }

  lemma EveryKeyGoesHome(p: ResultPage, k1: KeyEvent, k2: KeyEvent)
    ensures HandleKeyEvents(p, k1) == HandleKeyEvents(p, k2) == Some(Homepage(DefaultPageData))
  {
  }

  /** The tick handler leaves the page as it is. */
  function Tick(p: ResultPage): (r: ResultPage)
    ensures r == p
  {
    p
  }

  /** The seconds part of a duration in milliseconds, within the minute. */
  function Seconds(t: nat): (s: nat)
    ensures s < 60
  {
    (t / 1000) % 60
  }

  /** The minutes part of a duration in milliseconds, within the hour. */
  function Minutes(t: nat): (m: nat)
    ensures m < 60
  {
    (t / 60000) % 60
  }

  /**
   * The elapsed time as written: "{s}s" under a minute, "{m}min and {s}s"
   * otherwise, except that a whole number of minutes prints the seconds
   * value where the minutes belong, giving "0min".
   */
  function FormatTime(t: nat): (s: string)
    ensures Minutes(t) != 0 && Seconds(t) == 0 ==> s == "0min"
  {
    if Minutes(t) == 0 then NatToString(Seconds(t)) + "s"
    else if Seconds(t) == 0 then NatToString(Seconds(t)) + "min"
    else NatToString(Minutes(t)) + "min and " + NatToString(Seconds(t)) + "s"
  }

  /** Hours are dropped: t and t plus one hour format the same. */
  lemma FormatTimeDropsHours(t: nat)
    ensures Minutes(t + 3600000) == Minutes(t) && Seconds(t + 3600000) == Seconds(t)
    ensures FormatTime(t + 3600000) == FormatTime(t)
  {
    var sec, min := t / 1000, t / 60000;
    assert (t + 3600000) / 1000 == sec + 3600;
    assert (sec + 3600) % 60 == sec % 60;
    assert (t + 3600000) / 60000 == min + 60;
    assert (min + 60) % 60 == min % 60;
  }

  /** One minute and two minutes format identically, so the minutes are lost. */
  lemma FormatTimeLosesWholeMinutes()
    ensures Minutes(60000) == 1 && Minutes(120000) == 2
    ensures FormatTime(60000) == FormatTime(120000) == "0min"
  {
  }

  /** The elapsed time as evidently intended: a whole number of minutes prints "{m}min". */
  function FormatTimeCorrected(t: nat): string {
    if Minutes(t) == 0 then NatToString(Seconds(t)) + "s"
    else if Seconds(t) == 0 then NatToString(Minutes(t)) + "min"
    else NatToString(Minutes(t)) + "min and " + NatToString(Seconds(t)) + "s"
  }

  /** Away from whole minutes, the text as written is the corrected text. */
  lemma FormatTimeAgreesOffWholeMinutes(t: nat)
    requires !(Minutes(t) != 0 && Seconds(t) == 0)
    ensures FormatTime(t) == FormatTimeCorrected(t)
  {
  }

  /** The corrected text determines the minutes and seconds within the hour. */
  lemma FormatTimeCorrectedInjective(t1: nat, t2: nat)
    requires FormatTimeCorrected(t1) == FormatTimeCorrected(t2)
    ensures Minutes(t1) == Minutes(t2) && Seconds(t1) == Seconds(t2)
  {
    var d1, x1 := LeadingNumber(t1), Rest(t1);
    var d2, x2 := LeadingNumber(t2), Rest(t2);
    assert FormatTimeCorrected(t1) == NatToString(d1) + x1;
    assert FormatTimeCorrected(t2) == NatToString(d2) + x2;
    DigitRunDetermined(NatToString(d1), x1, NatToString(d2), x2);
    NatToStringInjective(d1, d2);
    if Minutes(t1) != 0 && Seconds(t1) != 0 {
      var n1, n2 := NatToString(Seconds(t1)), NatToString(Seconds(t2));
      assert x1 == "min and " + n1 + "s";
      assert x2[..3] == "min";
      assert |x2| > 3;
      assert x2 == "min and " + n2 + "s";
      assert n1 == x1[8..|x1| - 1] == x2[8..|x2| - 1] == n2;
      NatToStringInjective(Seconds(t1), Seconds(t2));
    }
  }

  /** The number that starts the corrected text. */
  function LeadingNumber(t: nat): nat {
    if Minutes(t) == 0 then Seconds(t) else Minutes(t)
  }

  /** The corrected text after its leading number. */
  function Rest(t: nat): string {
    if Minutes(t) == 0 then "s"
    else if Seconds(t) == 0 then "min"
    else "min and " + NatToString(Seconds(t)) + "s"
  }
}
