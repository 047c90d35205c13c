# kana-tui, modelled in Dafny

kana-tui is a terminal application that drills kana: it shuffles the 71
basic and voiced kana into a study plan, shows each in hiragana or katakana,
and checks the romanised answer the user types. This project models the
logic of the application that is not drawing or terminal I/O:

- **Kana catalogue** (`KanaCatalog`, `kana_catalog.dfy`): the closed
  enumeration of 71 kana in declaration order, their display labels, the
  answer validator with its two alternate spellings (`chi` for Chi, whose
  label is `tchi`, and `ji` for Dji), the hiragana and katakana glyph tables
  and the representation names.
- **Earlier catalogue** (`LegacyKanaCatalog`, `legacy_kana_catalog.dfy`):
  the earlier version's explicit table of accepted guesses and its own glyph
  tables. That version declares the same 71 kana in the same order under
  upper-case names (`KA`, `CHI`, `DJI`, ...); the model identifies the two
  enumerations variant for variant and reuses `KanaCatalog.Kana`, so that
  "agrees under the renaming" is stated and proved as plain equality of the
  two validators.
- **Study plans** (`Shuffle`, `StudyPlan`, `LegacyStudyPlan`): the list of
  all kana in enumeration order, shuffled in place. The shuffle is the
  forward Fisher-Yates loop (step i swaps position i with an index drawn from
  0..=i); the random number generator is an index oracle `pick`, and step i
  uses `pick(i) % (i + 1)`. The plan holds every kana exactly once.
- **Navigation**: the cyclic menu cursor and the menu's line layout
  (`Menu`), the homepage's two-option menu (`HomepageMenu`) and key handler
  (`Homepage`), the application record with its `running` flag and current
  page (`Application.App`), the top-level key dispatcher where Ctrl-C takes
  precedence (`Handler`), and the result page with its time formatting
  (`ResultPage`). Key events are the `Events` datatypes; decimal rendering of
  numbers is `Decimal`.

State that the source updates in place is modelled in place: `App` and
`MenuState` are classes whose methods modify their fields, and the shuffle
works on an `array`. The rest is datatypes, functions and lemmas.

In the source, the label of Chi is `tchi` (src/models/kana.rs:285), and the
two alternate spellings `chi` and `ji` are written into the validator itself
(src/models/kana.rs:348-349).

## Model

| member | source | states |
|---|---|---|
| KanaCatalog.RepresentationName | src/models/kana.rs:9-16 | a representation displays as an eight-letter lower-case name, "hiragana" exactly for Hiragana and "katakana" exactly for Katakana |
| KanaCatalog.Ordinal | src/models/kana.rs:18-107 | every kana has a position below 71 in declaration order, and FromOrdinal maps that position back to the kana |
| KanaCatalog.FromOrdinalInverse | src/models/kana.rs:18-107 | positions 0..70 and the 71 variants are in one-to-one correspondence |
| KanaCatalog.AllKanaEnumerates | src/models/kana.rs:18-107 | iterating the enumeration yields 71 kana, every variant appears, and none appears twice |
| KanaCatalog.Label | src/models/kana.rs:265-342 | each kana's display label is a non-empty lower-case ASCII word from which the kana can be read back |
| KanaCatalog.LabelsDistinct | src/models/kana.rs:267-339 | the 71 display labels are pairwise distinct |
| KanaCatalog.HiraganaGlyph | src/models/kana.rs:110-185 | every kana has a hiragana glyph of exactly one character, whose code point identifies the kana |
| KanaCatalog.KatakanaGlyph | src/models/kana.rs:187-262 | every kana has a katakana glyph of exactly one character |
| KanaCatalog.KatakanaIsShiftedHiragana | src/models/kana.rs:110-262 | each katakana glyph is the hiragana glyph shifted by 0x60 code points |
| KanaCatalog.GlyphsDistinct | src/models/kana.rs:110-262 | distinct kana have distinct hiragana glyphs and distinct katakana glyphs |
| KanaCatalog.AcceptedAnswers | src/models/kana.rs:344-354 | the set of answers accepted for a kana contains its display label |
| KanaCatalog.ValidateAnswer | src/models/kana.rs:344-354 | the validator; its lemmas below establish that it accepts exactly the label plus "chi" for Chi and "ji" for Dji, case-sensitively |
| KanaCatalog.ValidateAnswerAcceptsListed | src/models/kana.rs:344-354 | the validator accepts an answer if and only if it is in the kana's accepted set |
| KanaCatalog.LabelIsAccepted | src/models/kana.rs:344-354 | every kana accepts its own display label |
| KanaCatalog.ChiAnswers | src/models/kana.rs:344-354 | Chi's label is "tchi", and Chi accepts exactly "chi" and "tchi" |
| KanaCatalog.DjiAnswers | src/models/kana.rs:344-354 | Dji's label is "dji", and Dji accepts exactly "dji" and "ji" |
| KanaCatalog.OtherAnswers | src/models/kana.rs:351 | every kana other than Chi and Dji accepts an answer if and only if it equals the label exactly |
| KanaCatalog.AnswerIsCaseSensitive | src/models/kana.rs:351 | matching is case-sensitive: "a" is accepted for A but "A" is not, nor "SHI" for Shi or "Chi" for Chi |
| KanaCatalog.AcceptedAnswerReadsBack | src/models/kana.rs:344-354 | an accepted answer reads back to its kana, unless it is one of the two alternate spellings |
| KanaCatalog.AnswerIdentifiesKana | src/models/kana.rs:344-354 | two kana accept the same answer only if they are equal, or the answer is "ji" and the kana are Ji and Dji |
| KanaCatalog.JiIsAmbiguous | src/models/kana.rs:344-354 | "ji" is accepted by both Ji and Dji, two different kana |
| LegacyKanaCatalog.ValidateGuess | src/study/kana.rs:94-171 | the earlier table of accepted guesses; its lemmas below establish that it accepts exactly what the current validator accepts |
| LegacyKanaCatalog.ListedGuessIsLabel | src/study/kana.rs:94-171 | every guess the table lists is the kana's current label, or "chi" for CHI, or "ji" for DJI |
| LegacyKanaCatalog.LabelIsListed | src/study/kana.rs:94-171 | the table lists every kana's current label |
| LegacyKanaCatalog.GuessTableAgreesWithValidator | src/study/kana.rs:94-171 | the earlier guess table accepts exactly what the current validator accepts, kana for kana |
| LegacyKanaCatalog.ChiGuesses | src/study/kana.rs:114 | CHI accepts exactly "chi" and "tchi" |
| LegacyKanaCatalog.DjiGuesses | src/study/kana.rs:154 | DJI accepts exactly "dji" and "ji" |
| LegacyKanaCatalog.OtherKanaAcceptOneGuess | src/study/kana.rs:94-171 | every other kana accepts exactly one guess, a non-empty lower-case word |
| LegacyKanaCatalog.EmptyGuessRejected | src/study/kana.rs:168 | the empty guess is rejected for every kana |
| LegacyKanaCatalog.JiAcceptedTwice | src/study/kana.rs:149-154 | "ji" is accepted for both JI and DJI |
| LegacyKanaCatalog.HiraganaGlyph | src/study/kana.rs:175-249 | every kana has a hiragana glyph of exactly one character |
| LegacyKanaCatalog.KatakanaGlyph | src/study/kana.rs:251-325 | every kana has a katakana glyph of exactly one character |
| LegacyKanaCatalog.GlyphTablesAgree | src/study/kana.rs:175-325 | the earlier glyph tables give the same glyph as the current ones for every kana |
| Shuffle.SwapInPlace | src/models/mod.rs:10 | one shuffle step exchanges exactly the two positions and nothing else |
| Shuffle.ShuffleInPlace | src/models/mod.rs:10 | the array ends as the Fisher-Yates result for the drawn indices, with the same multiset of elements |
| Shuffle.StepsPermute | src/models/mod.rs:10 | every prefix of the shuffle's steps only reorders the sequence |
| Shuffle.ShuffledPermutes | src/models/mod.rs:10 | the shuffled sequence has the same length and the same multiset of elements |
| Shuffle.PermutationKeepsDistinct | src/models/mod.rs:9-10 | reordering a duplicate-free sequence keeps it duplicate-free |
| StudyPlan.CreateStudyPlan | src/models/mod.rs:8-13 | the plan is the shuffle of all kana: 71 entries, every kana present, none twice, the same multiset as the enumeration |
| StudyPlan.ReorderingHoldsEveryKanaOnce | src/models/mod.rs:9-10 | any reordering of the enumeration has 71 entries, holds every kana and has no duplicates |
| StudyPlan.CreateSmallStudyPlan | src/models/mod.rs:15-18 | the small plan is the single kana A |
| LegacyStudyPlan.CreateFullStudyPlan | src/study/mod.rs:13-18 | the earlier plan is likewise the shuffle of all 71 kana, each exactly once |
| Menu.New | src/widgets/menu.rs:17-23 | a new menu keeps the options, has spacing 1 and the default alignment |
| Menu.Centered | src/widgets/menu.rs:25-28 | centring sets the alignment to Center and leaves options and spacing unchanged |
| Menu.WithSpacing | src/widgets/menu.rs:30-33 | setting the spacing changes only the spacing |
| Menu.NextIndex | src/widgets/menu.rs:42-44 | moving forward stays within 0..=max, goes from c to c + 1 below max and wraps from max to 0, provided neither addition overflows a machine word |
| Menu.PreviousIndex | src/widgets/menu.rs:46-52 | moving back goes from 0 to max and from c > 0 to c - 1, staying within 0..=max when it starts there |
| Menu.NextUndoesPrevious | src/widgets/menu.rs:42-52 | for a cursor within 0..=max, back then forward and forward then back both return to the same option |
| Menu.MenuState.constructor | src/widgets/menu.rs:36-39 | the default cursor is on option 0 |
| Menu.MenuState.NextOption | src/widgets/menu.rs:42-44 | the cursor field becomes NextIndex of its old value |
| Menu.MenuState.PreviousOption | src/widgets/menu.rs:46-52 | the cursor field becomes PreviousIndex of its old value |
| Menu.RenderLines | src/widgets/menu.rs:64-79 | the loop builds exactly the menu's line list, option by option with blank lines between |
| Menu.MenuLineCount | src/widgets/menu.rs:64-79 | n >= 1 options give n + (n - 1) * spacing lines, and no options give no lines |
| Menu.MenuLabelLines | src/widgets/menu.rs:66-71 | option i's label is drawn at line i * (spacing + 1), highlighted exactly when i is the current option |
| Menu.MenuHighlightsOnlyCurrent | src/widgets/menu.rs:67-71 | a line is highlighted if and only if it is the current option's label line and the cursor is on an option |
| HomepageMenu.NextOption | src/pages/homepage.rs:72-77 | moving to the next option changes the selection |
| HomepageMenu.PreviousOption | src/pages/homepage.rs:79-84 | moving to the previous option changes the selection |
| HomepageMenu.MovesAreOneInvolution | src/pages/homepage.rs:72-84 | next and previous are the same swap of Start and Quit, and applying either twice is the identity |
| HomepageMenu.OptionName | src/pages/homepage.rs:110-117 | Start displays as "Start" and Quit as "Quit", and no other way round |
| HomepageMenu.MenuParagraph | src/pages/homepage.rs:95-108 | the homepage menu shows "Start" then "Quit", and a line is underlined exactly when it names the selected option |
| Homepage.Extract | src/pages/homepage.rs:65-70 | the homepage data is present exactly when the page is the homepage, and it is that page's data |
| Homepage.KeyOutcomes | src/pages/homepage.rs:42-57 | only Enter on Start leaves the homepage; the selection changes exactly on the arrow keys; Enter on Quit keeps the homepage with Quit selected |
| Homepage.HandleKeyEvents | src/pages/homepage.rs:42-57 | on the homepage, the key moves the app to the page PageAfterKey gives and stops it exactly on Enter with Quit selected |
| Application.App.constructor | src/app.rs:9-21 | a new application is running and shows the homepage with Start selected |
| Application.App.Tick | src/app.rs:24 | the tick handler changes nothing |
| Application.App.Quit | src/app.rs:27-29 | quitting clears the running flag and keeps the page, so quitting twice equals quitting once |
| Application.App.GoToHomepage | src/app.rs:31-33 | the page becomes the homepage with the given data and the running flag is unchanged |
| Application.App.GoToStudyPage | src/app.rs:35-37 | the page becomes the study page and the running flag is unchanged |
| Handler.HardQuitIgnoresPageHandler | src/handler.rs:9-10 | with exactly the Control modifier and 'c' or 'C', the application stops and keeps its page whatever the page's handler would answer |
| Handler.OtherKeysFollowPageEvent | src/handler.rs:9-16 | any other key, including 'c' with other modifiers, follows the page's answer: Nothing keeps the state, Navigate(p) shows p, QuitApp stops and keeps the page |
| Handler.DispatchNeverRestarts | src/handler.rs:8-19 | dispatching never sets a stopped application running again |
| Handler.HandleKeyEvents | src/handler.rs:8-19 | the dispatcher updates the application as Dispatch describes and always answers Ok |
| ResultPage.FromStudySession | src/pages/result_page.rs:93-102 | the result page carries the session's representation and guess lists unchanged and its elapsed time in milliseconds |
| ResultPage.KanaCount | src/pages/result_page.rs:34 | the number of kana studied is the size of the multiset of good and wrong guesses together |
| ResultPage.ConvertedPageCountsSession | src/pages/result_page.rs:93-102 | a converted page counts and holds exactly the kana the session recorded |
| ResultPage.HandleKeyEvents | src/pages/result_page.rs:73-75 | every key answers navigation to the homepage with Start selected |
| ResultPage.EveryKeyGoesHome | src/pages/result_page.rs:73-75 | the answer does not depend on the key |
| ResultPage.Tick | src/pages/result_page.rs:77 | the tick handler leaves the page unchanged |
| ResultPage.Seconds | src/pages/result_page.rs:82 | the seconds part is below 60 |
| ResultPage.Minutes | src/pages/result_page.rs:83 | the minutes part is below 60 |
| ResultPage.FormatTimeDropsHours | src/pages/result_page.rs:81-90 | a time and the same time plus one hour format identically |
| ResultPage.FormatTime | src/pages/result_page.rs:81-90 | the time text as written: every whole, non-zero number of minutes formats as "0min" |
| ResultPage.FormatTimeAgreesOffWholeMinutes | src/pages/result_page.rs:84-89 | away from whole minutes, "{s}s" and "{m}min and {s}s" are exactly the corrected text |
| ResultPage.FormatTimeLosesWholeMinutes | src/pages/result_page.rs:81-90 | one minute and two minutes format to the same text, "0min" |
| ResultPage.FormatTimeCorrectedInjective | src/pages/result_page.rs:81-90 | with the minutes printed for whole minutes, the text determines the minutes and seconds within the hour |

## Left out

- Terminal setup, the event loop, and all drawing are I/O and are not modelled. This covers the ratatui layouts, styles, paragraphs and blocks in every `render`, and the files `src/tui.rs`, `src/render.rs` and `src/main.rs`. The menu's drawing is modelled only as its list of (text, highlighted) lines. Bold and underlined styling both count as "highlighted", and the alignment is not applied.
- The random number generator is a parameter. The index oracle `pick` stands for it, and the loop shape follows the slice shuffle of the `rand` crate. That crate is not part of this model.
- The earlier version's own `Kana` enumeration is not a separate datatype. Its variants correspond one to one, in the same order, to the current ones. Its tables are modelled separately over the shared datatype.
- `PageData::next_option` and `previous_option` update the record in place. They are modelled as functions returning the updated record, because the record is a copied value stored inside `Page`. The homepage key handler uses them the same way on its local copy.
- Homepage.HandleKeyEvents: the source unwraps the homepage data and panics when the page shown is not the homepage. The model requires the homepage instead and does not model that panic.
- Handler.HandleKeyEvents: the current page's own key handler is a pure function of the page and the key. The trait it belongs to is not declared in `src/app.rs`. Any change that handler makes to the page object itself is not modelled.
- ResultPage.HandleKeyEvents: `Page::go_home` is not part of this model. It is taken to build the homepage with its default data.
- The study page shown in the source is a stub. `StudySession` stands in for the fields the conversion reads. `total_elapsed_time_ms` is not part of this model, so its value is a field.
- The floating-point percentage of correct answers on the result page is not modelled. It also divides by zero for an empty result.
- Integer widths:
  - Elapsed times are unbounded naturals. `format_time` only divides, so the 128-bit width cannot overflow there.
  - Menu.NextIndex: the machine word appears only as a precondition, shared by `Menu.MenuState.NextOption`. At `max` equal to the largest word, `max + 1` wraps to 0 and the remainder by zero panics in every build. At a cursor equal to the largest word, `current_option + 1` panics with overflow checks on and wraps to 0 in a default release build. The model excludes both cases and does not model the release-build wrap.
  - Counting kana with `KanaCount` does not model word overflow.
- Key events carry only their code and modifier set. Crossterm's event kind and state fields are omitted. Keys the handlers never inspect are one `OtherKey` code.
- `src/models/answer.rs`, `src/config.rs`, `src/widgets/button.rs`, `src/study/hiragana.rs` and `src/study/katakana.rs` are not part of this model.

## Findings

| source | as written | input that shows it | evidently intended | confidence | as-written member | corrected member |
|---|---|---|---|---|---|---|
| src/pages/result_page.rs:86-87 | when the minutes are non-zero and the seconds are zero, the text is the seconds value followed by "min", i.e. always "0min" | 60000 ms and 120000 ms both format as "0min" | print the minutes value: "1min", "2min" | high (not executed) | ResultPage.FormatTimeLosesWholeMinutes | ResultPage.FormatTimeCorrectedInjective |
