/**
 * The generic menu widget: a list of option labels drawn one per line with
 * blank lines between them, and a cursor that moves cyclically over the
 * option indices.
 */
module Menu {
  /** The largest value of the platform's unsigned machine word (64 bits). */
  const UsizeMax: nat := 0xFFFF_FFFF_FFFF_FFFF

  /** Horizontal alignment of the drawn paragraph; `Left` is the default. */
  datatype Alignment = Left | Center | Right

  const DefaultAlignment: Alignment := Left

  /** The widget's configuration: option labels, alignment and blank lines between options. */
  datatype MenuWidget = MenuWidget(options: seq<string>, alignment: Alignment, spacing: nat)

  /** A new menu: one blank line between options, default alignment. */
  function New(options: seq<string>): (m: MenuWidget)
    ensures m.options == options
    ensures m.alignment == DefaultAlignment && m.spacing == 1
  {
    MenuWidget(options, DefaultAlignment, 1)
  }

  /** Centres the menu, leaving options and spacing alone. */
  function Centered(m: MenuWidget): (r: MenuWidget)
    ensures r.alignment == Center
    ensures r.options == m.options && r.spacing == m.spacing
  {
    m.(alignment := Center)
  }

  /** Sets the spacing, leaving options and alignment alone. */
  function WithSpacing(m: MenuWidget, spacing: nat): (r: MenuWidget)
    ensures r.spacing == spacing
    ensures r.options == m.options && r.alignment == m.alignment
  {
    m.(spacing := spacing)
  }

  /**
   * The cursor after moving forward over options 0..=max: the successor
   * modulo max + 1. Both additions must stay within a machine word.
   */
  function NextIndex(c: nat, max: nat): (r: nat)
    requires c < UsizeMax && max < UsizeMax
    ensures r <= max
    ensures c < max ==> r == c + 1
    ensures c == max ==> r == 0
  {
    (c + 1) % (max + 1)
  }

  /** The cursor after moving backward: from 0 to max, otherwise one down. */
  function PreviousIndex(c: nat, max: nat): (r: nat)
    ensures c == 0 ==> r == max
    ensures c > 0 ==> r + 1 == c
    ensures c <= max ==> r <= max
  {
    if c == 0 then max else c - 1
  }

  /** Moving back then forward, or forward then back, returns to the same option. */
  lemma NextUndoesPrevious(c: nat, max: nat)
    requires c <= max < UsizeMax
    ensures NextIndex(PreviousIndex(c, max), max) == c
    ensures PreviousIndex(NextIndex(c, max), max) == c
  {
  }

  /** The menu cursor: the index of the highlighted option. */
  class MenuState {
    var currentOption: nat

    /** The default state: the first option is highlighted. */
    constructor ()
      ensures currentOption == 0
    {
      currentOption := 0;
    }

    method NextOption(max: nat)
      requires currentOption < UsizeMax && max < UsizeMax
      modifies this
      ensures currentOption == NextIndex(old(currentOption), max)
    {
      currentOption := (currentOption + 1) % (max + 1);
    }

    method PreviousOption(max: nat)
      modifies this
      ensures currentOption == PreviousIndex(old(currentOption), max)
    {
      if currentOption == 0 {
        currentOption := max;
      } else {
        currentOption := currentOption - 1;
      }
    }
  }

  /** A drawn line: its text and whether it is highlighted (bold and underlined). */
  datatype Line = Line(text: string, highlighted: bool)

  /** `n` empty lines. */
  function Blanks(n: nat): (r: seq<Line>)
    ensures |r| == n
    ensures forall j :: 0 <= j < n ==> r[j] == Line("", false)
  {
    if n == 0 then [] else Blanks(n - 1) + [Line("", false)]
  }

  /**
   * The lines drawn for option i: its label, highlighted when it is the
   * current option, followed by `spacing` blank lines unless it is the last.
   */
  function OptionBlock(options: seq<string>, current: nat, spacing: nat, i: nat): seq<Line>
    requires i < |options|
  {
    [Line(options[i], i == current)] + (if i < |options| - 1 then Blanks(spacing) else [])
  }

  /** The lines drawn for the first n options. */
  function LinesUpTo(options: seq<string>, current: nat, spacing: nat, n: nat): seq<Line>
    requires n <= |options|
  {
    if n == 0 then [] else LinesUpTo(options, current, spacing, n - 1) + OptionBlock(options, current, spacing, n - 1)
  }

  /** All lines the menu draws. */
  function MenuLines(m: MenuWidget, current: nat): seq<Line> {
    LinesUpTo(m.options, current, m.spacing, |m.options|)
  }

  /** Builds the menu's lines, option by option, as the widget's drawing does. */
  method RenderLines(m: MenuWidget, current: nat) returns (lines: seq<Line>)
    ensures lines == MenuLines(m, current)
  {
    lines := [];
    var i := 0;
    while i < |m.options|
      invariant 0 <= i <= |m.options|
      invariant lines == LinesUpTo(m.options, current, m.spacing, i)
    {
      lines := lines + [Line(m.options[i], i == current)];
      if i < |m.options| - 1 {
        var k := 0;
        while k < m.spacing
          invariant 0 <= k <= m.spacing
          invariant lines == LinesUpTo(m.options, current, m.spacing, i) + [Line(m.options[i], i == current)] + Blanks(k)
        {
          lines := lines + [Line("", false)];
          k := k + 1;
        }
      }
      i := i + 1;
    }
  }

  /** i * w, built by repeated addition so that the layout proofs stay linear. */
  function Stride(i: nat, w: nat): nat {
    if i == 0 then 0 else Stride(i - 1, w) + w
  }

  lemma {:induction false} StrideIsProduct(i: nat, w: nat)
    ensures Stride(i, w) == i * w
  {
    if i > 0 {
      StrideIsProduct(i - 1, w);
      assert (i - 1) * w + w == i * w;
    }
  }

  lemma {:induction false} StrideMonotone(i: nat, k: nat, w: nat)
    requires i < k
    ensures Stride(i, w) + w <= Stride(k, w)
  {
    if i < k - 1 {
      StrideMonotone(i, k - 1, w);
    }
  }

  /** The first n options take n * (spacing + 1) lines, less the spacing after the last option. */
  lemma {:induction false} LinesUpToLength(options: seq<string>, current: nat, spacing: nat, n: nat)
    requires n <= |options|
    ensures |LinesUpTo(options, current, spacing, n)| == Stride(n, spacing + 1) - (if n == |options| && n > 0 then spacing else 0)
  {
    if n > 0 {
      LinesUpToLength(options, current, spacing, n - 1);
    }
  }

  /** Among the first n options, option i's label sits at line i * (spacing + 1), highlighted exactly when i is the current option. */
  lemma {:induction false} LinesUpToLabels(options: seq<string>, current: nat, spacing: nat, n: nat)
    requires n <= |options|
    ensures forall i :: 0 <= i < n ==>
      Stride(i, spacing + 1) < |LinesUpTo(options, current, spacing, n)| &&
      LinesUpTo(options, current, spacing, n)[Stride(i, spacing + 1)] == Line(options[i], i == current)
  {
    if n > 0 {
      var w := spacing + 1;
      LinesUpToLabels(options, current, spacing, n - 1);
      LinesUpToLength(options, current, spacing, n - 1);
      var prev := LinesUpTo(options, current, spacing, n - 1);
      var block := OptionBlock(options, current, spacing, n - 1);
      var lines := LinesUpTo(options, current, spacing, n);
      assert lines == prev + block;
      forall i | 0 <= i < n
        ensures Stride(i, w) < |lines| && lines[Stride(i, w)] == Line(options[i], i == current)
      {
        if i < n - 1 {
          StrideMonotone(i, n - 1, w);
          assert lines[Stride(i, w)] == prev[Stride(i, w)];
        } else {
          assert lines[Stride(i, w)] == block[0];
        }
      }
    }
  }

  /** Among the first n options' lines, only the current option's label line is highlighted. */
  lemma {:induction false} LinesUpToHighlight(options: seq<string>, current: nat, spacing: nat, n: nat)
    requires n <= |options|
    ensures forall j :: 0 <= j < |LinesUpTo(options, current, spacing, n)| && LinesUpTo(options, current, spacing, n)[j].highlighted ==>
      current < n && j == Stride(current, spacing + 1)
  {
    if n > 0 {
      LinesUpToHighlight(options, current, spacing, n - 1);
      LinesUpToLength(options, current, spacing, n - 1);
      var prev := LinesUpTo(options, current, spacing, n - 1);
      var block := OptionBlock(options, current, spacing, n - 1);
      var lines := LinesUpTo(options, current, spacing, n);
      assert lines == prev + block;
      forall j | 0 <= j < |lines| && lines[j].highlighted
        ensures current < n && j == Stride(current, spacing + 1)
      {
        if j < |prev| {
          assert prev[j] == lines[j];
        } else {
          assert lines[j] == block[j - |prev|];
        }
      }
    }
  }

  /** The menu draws n + (n - 1) * spacing lines for n >= 1 options, and none for no options. */
  lemma MenuLineCount(m: MenuWidget, current: nat)
    ensures |m.options| == 0 ==> MenuLines(m, current) == []
    ensures |m.options| > 0 ==> |MenuLines(m, current)| == |m.options| + (|m.options| - 1) * m.spacing
  {
    var n := |m.options|;
    LinesUpToLength(m.options, current, m.spacing, n);
    StrideIsProduct(n, m.spacing + 1);
    if n > 0 {
      assert n * (m.spacing + 1) == n + (n - 1) * m.spacing + m.spacing;
    }
  }

  /** Option i's label is drawn at line i * (spacing + 1), highlighted exactly when i is the current option. */
  lemma MenuLabelLines(m: MenuWidget, current: nat, i: nat)
    requires i < |m.options|
    ensures i * (m.spacing + 1) < |MenuLines(m, current)|
    ensures MenuLines(m, current)[i * (m.spacing + 1)] == Line(m.options[i], i == current)
  {
    LinesUpToLabels(m.options, current, m.spacing, |m.options|);
    StrideIsProduct(i, m.spacing + 1);
    var lines := LinesUpTo(m.options, current, m.spacing, |m.options|);
    assert Stride(i, m.spacing + 1) < |lines| && lines[Stride(i, m.spacing + 1)] == Line(m.options[i], i == current);
  }

  /** The only highlighted line is the current option's label line, and only when the cursor is on an option. */
  lemma MenuHighlightsOnlyCurrent(m: MenuWidget, current: nat, j: nat)
    requires j < |MenuLines(m, current)|
    ensures MenuLines(m, current)[j].highlighted <==> current < |m.options| && j == current * (m.spacing + 1)
  {
    LinesUpToHighlight(m.options, current, m.spacing, |m.options|);
    StrideIsProduct(current, m.spacing + 1);
    if current < |m.options| && j == current * (m.spacing + 1) {
      MenuLabelLines(m, current, current);
    }
  }
}
