/** The homepage's two-option menu and the page data that records the selected option. */
module HomepageMenu {
  import Menu

  /** The homepage options, in iteration order; `Start` is the default. */
  datatype MenuOption = Start | Quit

  const DefaultOption: MenuOption := Start

  /** The homepage's own state: the selected option. */
  datatype PageData = PageData(currentOption: MenuOption)

  const DefaultPageData: PageData := PageData(DefaultOption)

  /** Selecting the next option: with two options, this flips the selection. */
  function NextOption(d: PageData): (r: PageData)
    ensures r.currentOption != d.currentOption
  {
    match d.currentOption
    case Start => d.(currentOption := Quit)
    case Quit => d.(currentOption := Start)
  }

  /** Selecting the previous option: with two options, this also flips the selection. */
  function PreviousOption(d: PageData): (r: PageData)
    ensures r.currentOption != d.currentOption
  {
    match d.currentOption
    case Start => d.(currentOption := Quit)
    case Quit => d.(currentOption := Start)
  }

  /** Next and previous are the same move, and applying either twice changes nothing. */
  lemma MovesAreOneInvolution(d: PageData)
    ensures NextOption(d) == PreviousOption(d)
    ensures NextOption(NextOption(d)) == d
    ensures PreviousOption(PreviousOption(d)) == d
  {
  }

  /** The option's displayed name. */
  function OptionName(o: MenuOption): (name: string)
    ensures o == Start <==> name == "Start"
    ensures o == Quit <==> name == "Quit"
  {
    match o
    case Start => "Start"
    case Quit => "Quit"
  }

  /** The homepage menu's lines: every option's name in iteration order, the selected one underlined. */
  function MenuParagraph(current: MenuOption): (lines: seq<Menu.Line>)
    ensures |lines| == 2
    ensures lines[0].text == OptionName(Start) && lines[1].text == OptionName(Quit)
    ensures forall i :: 0 <= i < |lines| ==> (lines[i].highlighted <==> lines[i].text == OptionName(current))
  {
    [Menu.Line(OptionName(Start), Start == current), Menu.Line(OptionName(Quit), Quit == current)]
  }
}
