/**
 * The kana catalogue of the earlier application version. That version
 * declares its own enumeration of the same 71 kana, in the same order, under
 * upper-case variant names (`KA` for `Ka`, `CHI` for `Chi`, `DJI` for `Dji`).
 * The model identifies the two enumerations variant for variant and reuses
 * `KanaCatalog.Kana`; what the earlier version defines differently is its
 * explicit table of accepted guesses and its own copies of the glyph tables.
 */
module LegacyKanaCatalog {
  import opened KanaCatalog

  /**
   * The table of accepted guesses: a guess is accepted when it is one of the
   * strings listed for the kana, and rejected otherwise.
   */
  function ValidateGuess(k: Kana, guess: string): bool {
    match k
    case N   => guess == "n"
    case A   => guess == "a"
    case I   => guess == "i"
    case U   => guess == "u"
    case E   => guess == "e"
    case O   => guess == "o"
    case Ka  => guess == "ka"
    case Ki  => guess == "ki"
    case Ku  => guess == "ku"
    case Ke  => guess == "ke"
    case Ko  => guess == "ko"
    case Sa  => guess == "sa"
    case Shi => guess == "shi"
    case Su  => guess == "su"
    case Se  => guess == "se"
    case So  => guess == "so"
    case Ta  => guess == "ta"
    case Chi => guess == "chi" || guess == "tchi"
    case Tsu => guess == "tsu"
    case Te  => guess == "te"
    case To  => guess == "to"
    case Na  => guess == "na"
    case Ni  => guess == "ni"
    case Nu  => guess == "nu"
    case Ne  => guess == "ne"
    case No  => guess == "no"
    case Ha  => guess == "ha"
    case Hi  => guess == "hi"
    case Fu  => guess == "fu"
    case He  => guess == "he"
    case Ho  => guess == "ho"
    case Ma  => guess == "ma"
    case Mi  => guess == "mi"
    case Mu  => guess == "mu"
    case Me  => guess == "me"
    case Mo  => guess == "mo"
    case Ya  => guess == "ya"
    case Yu  => guess == "yu"
    case Yo  => guess == "yo"
    case Ra  => guess == "ra"
    case Ri  => guess == "ri"
    case Ru  => guess == "ru"
    case Re  => guess == "re"
    case Ro  => guess == "ro"
    case Wa  => guess == "wa"
    case Wo  => guess == "wo"
    case Ga  => guess == "ga"
    case Gi  => guess == "gi"
    case Gu  => guess == "gu"
    case Ge  => guess == "ge"
    case Go  => guess == "go"
    case Za  => guess == "za"
    case Ji  => guess == "ji"
    case Zu  => guess == "zu"
    case Ze  => guess == "ze"
    case Zo  => guess == "zo"
    case Da  => guess == "da"
    case Dji => guess == "dji" || guess == "ji"
    case Dzu => guess == "dzu"
    case De  => guess == "de"
    case Do  => guess == "do"
    case Ba  => guess == "ba"
    case Bi  => guess == "bi"
    case Bu  => guess == "bu"
    case Be  => guess == "be"
    case Bo  => guess == "bo"
    case Pa  => guess == "pa"
    case Pi  => guess == "pi"
    case Pu  => guess == "pu"
    case Pe  => guess == "pe"
    case Po  => guess == "po"
  }

  /** The hiragana glyph of a kana, from the earlier version's own table. */
  function HiraganaGlyph(k: Kana): (g: string)
    ensures |g| == 1
  {
    match k
    case N   => "ん"
    case A   => "あ"
    case I   => "い"
    case U   => "う"
    case E   => "え"
    case O   => "お"
    case Ka  => "か"
    case Ki  => "き"
    case Ku  => "く"
    case Ke  => "け"
    case Ko  => "こ"
    case Sa  => "さ"
    case Shi => "し"
    case Su  => "す"
    case Se  => "せ"
    case So  => "そ"
    case Ta  => "た"
    case Chi => "ち"
    case Tsu => "つ"
    case Te  => "て"
    case To  => "と"
    case Na  => "な"
    case Ni  => "に"
    case Nu  => "ぬ"
    case Ne  => "ね"
    case No  => "の"
    case Ha  => "は"
    case Hi  => "ひ"
    case Fu  => "ふ"
    case He  => "へ"
    case Ho  => "ほ"
    case Ma  => "ま"
    case Mi  => "み"
    case Mu  => "む"
    case Me  => "め"
    case Mo  => "も"
    case Ya  => "や"
    case Yu  => "ゆ"
    case Yo  => "よ"
    case Ra  => "ら"
    case Ri  => "り"
    case Ru  => "る"
    case Re  => "れ"
    case Ro  => "ろ"
    case Wa  => "わ"
    case Wo  => "を"
    case Ga  => "が"
    case Gi  => "ぎ"
    case Gu  => "ぐ"
    case Ge  => "げ"
    case Go  => "ご"
    case Za  => "ざ"
    case Ji  => "じ"
    case Zu  => "ず"
    case Ze  => "ぜ"
    case Zo  => "ぞ"
    case Da  => "だ"
    case Dji => "ぢ"
    case Dzu => "づ"
    case De  => "で"
    case Do  => "ど"
    case Ba  => "ば"
    case Bi  => "び"
    case Bu  => "ぶ"
    case Be  => "べ"
    case Bo  => "ぼ"
    case Pa  => "ぱ"
    case Pi  => "ぴ"
    case Pu  => "ぷ"
    case Pe  => "ぺ"
    case Po  => "ぽ"
  }

  /** The katakana glyph of a kana, from the earlier version's own table. */
  function KatakanaGlyph(k: Kana): (g: string)
    ensures |g| == 1
  {
    match k
    case N   => "ン"
    case A   => "ア"
    case I   => "イ"
    case U   => "ウ"
    case E   => "エ"
    case O   => "オ"
    case Ka  => "カ"
    case Ki  => "キ"
    case Ku  => "ク"
    case Ke  => "ケ"
    case Ko  => "コ"
    case Sa  => "サ"
    case Shi => "シ"
    case Su  => "ス"
    case Se  => "セ"
    case So  => "ソ"
    case Ta  => "タ"
    case Chi => "チ"
    case Tsu => "ツ"
    case Te  => "テ"
    case To  => "ト"
    case Na  => "ナ"
    case Ni  => "ニ"
    case Nu  => "ヌ"
    case Ne  => "ネ"
    case No  => "ノ"
    case Ha  => "ハ"
    case Hi  => "ヒ"
    case Fu  => "フ"
    case He  => "ヘ"
    case Ho  => "ホ"
    case Ma  => "マ"
    case Mi  => "ミ"
    case Mu  => "ム"
    case Me  => "メ"
    case Mo  => "モ"
    case Ya  => "ヤ"
    case Yu  => "ユ"
    case Yo  => "ヨ"
    case Ra  => "ラ"
    case Ri  => "リ"
    case Ru  => "ル"
    case Re  => "レ"
    case Ro  => "ロ"
    case Wa  => "ワ"
    case Wo  => "ヲ"
    case Ga  => "ガ"
    case Gi  => "ギ"
    case Gu  => "グ"
    case Ge  => "ゲ"
    case Go  => "ゴ"
    case Za  => "ザ"
    case Ji  => "ジ"
    case Zu  => "ズ"
    case Ze  => "ゼ"
    case Zo  => "ゾ"
    case Da  => "ダ"
    case Dji => "ヂ"
    case Dzu => "ヅ"
    case De  => "デ"
    case Do  => "ド"
    case Ba  => "バ"
    case Bi  => "ビ"
    case Bu  => "ブ"
    case Be  => "ベ"
    case Bo  => "ボ"
    case Pa  => "パ"
    case Pi  => "ピ"
    case Pu  => "プ"
    case Pe  => "ペ"
    case Po  => "ポ"
  }

  /** Every listed guess is the kana's current label, or one of the two extra spellings. */
  lemma ListedGuessIsLabel(k: Kana, guess: string)
    requires ValidateGuess(k, guess)
    ensures guess == Label(k) || (k == Chi && guess == "chi") || (k == Dji && guess == "ji")
  {
  }

  /** The table lists every kana's current label. */
  lemma LabelIsListed(k: Kana)
    ensures ValidateGuess(k, Label(k))
  {
  }

  /** The earlier table and the current validator accept exactly the same guesses. */
  lemma GuessTableAgreesWithValidator(k: Kana, guess: string)
    ensures ValidateGuess(k, guess) <==> ValidateAnswer(k, guess)
  {
    if ValidateGuess(k, guess) {
      ListedGuessIsLabel(k, guess);
      ValidateAnswerAcceptsListed(k, guess);
    }
    if ValidateAnswer(k, guess) {
      ValidateAnswerAcceptsListed(k, guess);
      LabelIsListed(k);
    }
  }

  lemma ChiGuesses(guess: string)
    ensures ValidateGuess(Chi, guess) <==> guess == "chi" || guess == "tchi"
  {
  }

  lemma DjiGuesses(guess: string)
    ensures ValidateGuess(Dji, guess) <==> guess == "dji" || guess == "ji"
  {
  }

  /** Apart from CHI and DJI, a kana has exactly one listed spelling, a non-empty lower-case word. */
  lemma OtherKanaAcceptOneGuess(k: Kana)
    requires k != Chi && k != Dji
    ensures exists w :: w != [] && IsLowercaseAscii(w) && forall g :: ValidateGuess(k, g) <==> g == w
  {
    forall g ensures ValidateGuess(k, g) <==> g == Label(k) {
      GuessTableAgreesWithValidator(k, g);
      OtherAnswers(k, g);
    }
    var w := Label(k);
    assert w != [] && IsLowercaseAscii(w) && forall g :: ValidateGuess(k, g) <==> g == w;
  }

  lemma EmptyGuessRejected(k: Kana)
    ensures !ValidateGuess(k, "")
  {
    if ValidateGuess(k, "") {
      ListedGuessIsLabel(k, "");
    }
  }

  /** "ji" is listed for both JI and DJI. */
  lemma JiAcceptedTwice()
    ensures ValidateGuess(Ji, "ji") && ValidateGuess(Dji, "ji")
  {
  }

  /** The earlier glyph tables coincide with the current ones, kana for kana. */
  lemma GlyphTablesAgree(k: Kana)
    ensures HiraganaGlyph(k) == KanaCatalog.HiraganaGlyph(k)
    ensures KatakanaGlyph(k) == KanaCatalog.KatakanaGlyph(k)
  {
  }
}
