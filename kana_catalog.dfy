/**
 * The kana catalogue of the current application version: the closed
 * enumeration of the 71 studied kana, their romanised labels, the answer
 * validator with its two alternate spellings, and the two glyph tables.
 * Everything here is pure data and exhaustive matches.
 */
module KanaCatalog {
  import opened Options

  /** The two writing systems a kana can be shown in. */
  datatype KanaRepresentation = Hiragana | Katakana

  /** The lower-case name a representation displays as. */
  function RepresentationName(r: KanaRepresentation): (name: string)
    ensures IsLowercaseAscii(name) && |name| == 8
    ensures r.Hiragana? <==> name == "hiragana"
    ensures r.Katakana? <==> name == "katakana"
  {
    match r
    case Hiragana => "hiragana"
    case Katakana => "katakana"
  }

  /** The studied kana, in declaration order (which is also the iteration order). */
  datatype Kana =
    | N
    | A | I | U | E | O  // ∅
    | Ka | Ki | Ku | Ke | Ko  // K
    | Sa | Shi | Su | Se | So  // S
    | Ta | Chi | Tsu | Te | To  // T
    | Na | Ni | Nu | Ne | No  // N
    | Ha | Hi | Fu | He | Ho  // H
    | Ma | Mi | Mu | Me | Mo  // M
    | Ya | Yu | Yo  // Y
    | Ra | Ri | Ru | Re | Ro  // R
    | Wa | Wo  // W
    | Ga | Gi | Gu | Ge | Go  // G
    | Za | Ji | Zu | Ze | Zo  // Z
    | Da | Dji | Dzu | De | Do  // D
    | Ba | Bi | Bu | Be | Bo  // B
    | Pa | Pi | Pu | Pe | Po  // P

  /** Number of variants of `Kana`. */
  const KanaCount: nat := 71

  /** The position of a variant in declaration order. */
  function Ordinal(k: Kana): (i: nat)
    ensures i < KanaCount
    ensures FromOrdinal(i) == k
  {
    match k
    case N   => 0
    case A   => 1
    case I   => 2
    case U   => 3
    case E   => 4
    case O   => 5
    case Ka  => 6
    case Ki  => 7
    case Ku  => 8
    case Ke  => 9
    case Ko  => 10
    case Sa  => 11
    case Shi => 12
    case Su  => 13
    case Se  => 14
    case So  => 15
    case Ta  => 16
    case Chi => 17
    case Tsu => 18
    case Te  => 19
    case To  => 20
    case Na  => 21
    case Ni  => 22
    case Nu  => 23
    case Ne  => 24
    case No  => 25
    case Ha  => 26
    case Hi  => 27
    case Fu  => 28
    case He  => 29
    case Ho  => 30
    case Ma  => 31
    case Mi  => 32
    case Mu  => 33
    case Me  => 34
    case Mo  => 35
    case Ya  => 36
    case Yu  => 37
    case Yo  => 38
    case Ra  => 39
    case Ri  => 40
    case Ru  => 41
    case Re  => 42
    case Ro  => 43
    case Wa  => 44
    case Wo  => 45
    case Ga  => 46
    case Gi  => 47
    case Gu  => 48
    case Ge  => 49
    case Go  => 50
    case Za  => 51
    case Ji  => 52
    case Zu  => 53
    case Ze  => 54
    case Zo  => 55
    case Da  => 56
    case Dji => 57
    case Dzu => 58
    case De  => 59
    case Do  => 60
    case Ba  => 61
    case Bi  => 62
    case Bu  => 63
    case Be  => 64
    case Bo  => 65
    case Pa  => 66
    case Pi  => 67
    case Pu  => 68
    case Pe  => 69
    case Po  => 70
  }

  /**
   * The variant at a position in declaration order: what iterating over the
   * enumeration yields. Written as a binary search over the positions;
   * `FromOrdinalInverse` and the postcondition of `Ordinal` pin it down as
   * the inverse of `Ordinal`.
   */
  function FromOrdinal(i: nat): Kana
    requires i < KanaCount
  {
    if i < 35 then
      if i < 17 then
        if i < 8 then
          if i < 4 then
            if i < 2 then
              if i < 1 then
                N
              else
                A
            else
              if i < 3 then
                I
              else
                U
          else
            if i < 6 then
              if i < 5 then
                E
              else
                O
            else
              if i < 7 then
                Ka
              else
                Ki
        else
          if i < 12 then
            if i < 10 then
              if i < 9 then
                Ku
              else
                Ke
            else
              if i < 11 then
                Ko
              else
                Sa
          else
            if i < 14 then
              if i < 13 then
                Shi
              else
                Su
            else
              if i < 15 then
                Se
              else
                if i < 16 then
                  So
                else
                  Ta
      else
        if i < 26 then
          if i < 21 then
            if i < 19 then
              if i < 18 then
                Chi
              else
                Tsu
            else
              if i < 20 then
                Te
              else
                To
          else
            if i < 23 then
              if i < 22 then
                Na
              else
                Ni
            else
              if i < 24 then
                Nu
              else
                if i < 25 then
                  Ne
                else
                  No
        else
          if i < 30 then
            if i < 28 then
              if i < 27 then
                Ha
              else
                Hi
            else
              if i < 29 then
                Fu
              else
                He
          else
            if i < 32 then
              if i < 31 then
                Ho
              else
                Ma
            else
              if i < 33 then
                Mi
              else
                if i < 34 then
                  Mu
                else
                  Me
    else
      if i < 53 then
        if i < 44 then
          if i < 39 then
            if i < 37 then
              if i < 36 then
                Mo
              else
                Ya
            else
              if i < 38 then
                Yu
              else
                Yo
          else
            if i < 41 then
              if i < 40 then
                Ra
              else
                Ri
            else
              if i < 42 then
                Ru
              else
                if i < 43 then
                  Re
                else
                  Ro
        else
          if i < 48 then
            if i < 46 then
              if i < 45 then
                Wa
              else
                Wo
            else
              if i < 47 then
                Ga
              else
                Gi
          else
            if i < 50 then
              if i < 49 then
                Gu
              else
                Ge
            else
              if i < 51 then
                Go
              else
                if i < 52 then
                  Za
                else
                  Ji
      else
        if i < 62 then
          if i < 57 then
            if i < 55 then
              if i < 54 then
                Zu
              else
                Ze
            else
              if i < 56 then
                Zo
              else
                Da
          else
            if i < 59 then
              if i < 58 then
                Dji
              else
                Dzu
            else
              if i < 60 then
                De
              else
                if i < 61 then
                  Do
                else
                  Ba
        else
          if i < 66 then
            if i < 64 then
              if i < 63 then
                Bi
              else
                Bu
            else
              if i < 65 then
                Be
              else
                Bo
          else
            if i < 68 then
              if i < 67 then
                Pa
              else
                Pi
            else
              if i < 69 then
                Pu
              else
                if i < 70 then
                  Pe
                else
                  Po
  }

  /** Every variant, in iteration order. */
  const AllKana: seq<Kana> := seq(KanaCount, i requires 0 <= i < KanaCount => FromOrdinal(i))

  /** Only lower-case ASCII letters. */
  predicate IsLowercaseAscii(s: string) {
    forall i :: 0 <= i < |s| ==> 'a' <= s[i] <= 'z'
  }

  /** The romanised label a kana displays as; also its canonical answer. */
  function Label(k: Kana): (s: string)
    ensures s != [] && IsLowercaseAscii(s)
    ensures FromLabel(s) == Some(k)
  {
    match k
    case N   => "n"
    case A   => "a"
    case I   => "i"
    case U   => "u"
    case E   => "e"
    case O   => "o"
    case Ka  => "ka"
    case Ki  => "ki"
    case Ku  => "ku"
    case Ke  => "ke"
    case Ko  => "ko"
    case Sa  => "sa"
    case Shi => "shi"
    case Su  => "su"
    case Se  => "se"
    case So  => "so"
    case Ta  => "ta"
    case Chi => "tchi"
    case Tsu => "tsu"
    case Te  => "te"
    case To  => "to"
    case Na  => "na"
    case Ni  => "ni"
    case Nu  => "nu"
    case Ne  => "ne"
    case No  => "no"
    case Ha  => "ha"
    case Hi  => "hi"
    case Fu  => "fu"
    case He  => "he"
    case Ho  => "ho"
    case Ma  => "ma"
    case Mi  => "mi"
    case Mu  => "mu"
    case Me  => "me"
    case Mo  => "mo"
    case Ya  => "ya"
    case Yu  => "yu"
    case Yo  => "yo"
    case Ra  => "ra"
    case Ri  => "ri"
    case Ru  => "ru"
    case Re  => "re"
    case Ro  => "ro"
    case Wa  => "wa"
    case Wo  => "wo"
    case Ga  => "ga"
    case Gi  => "gi"
    case Gu  => "gu"
    case Ge  => "ge"
    case Go  => "go"
    case Za  => "za"
    case Ji  => "ji"
    case Zu  => "zu"
    case Ze  => "ze"
    case Zo  => "zo"
    case Da  => "da"
    case Dji => "dji"
    case Dzu => "dzu"
    case De  => "de"
    case Do  => "do"
    case Ba  => "ba"
    case Bi  => "bi"
    case Bu  => "bu"
    case Be  => "be"
    case Bo  => "bo"
    case Pa  => "pa"
    case Pi  => "pi"
    case Pu  => "pu"
    case Pe  => "pe"
    case Po  => "po"
  }

  /**
   * Reads a label back: the kana whose label is exactly `s`, if any. Looks
   * at the initial letter first, then at the whole label.
   */
  function FromLabel(s: string): (r: Option<Kana>)
  {
    if s == [] then None
    else match s[0]
      case 'n' =>
        (match s
        case "n"    => Some(N)
        case "na"   => Some(Na)
        case "ni"   => Some(Ni)
        case "nu"   => Some(Nu)
        case "ne"   => Some(Ne)
        case "no"   => Some(No)
        case _      => None)
      case 'a' => if s == "a" then Some(A) else None
      case 'i' => if s == "i" then Some(I) else None
      case 'u' => if s == "u" then Some(U) else None
      case 'e' => if s == "e" then Some(E) else None
      case 'o' => if s == "o" then Some(O) else None
      case 'k' =>
        (match s
        case "ka"   => Some(Ka)
        case "ki"   => Some(Ki)
        case "ku"   => Some(Ku)
        case "ke"   => Some(Ke)
        case "ko"   => Some(Ko)
        case _      => None)
      case 's' =>
        (match s
        case "sa"   => Some(Sa)
        case "shi"  => Some(Shi)
        case "su"   => Some(Su)
        case "se"   => Some(Se)
        case "so"   => Some(So)
        case _      => None)
      case 't' =>
        (match s
        case "ta"   => Some(Ta)
        case "tchi" => Some(Chi)
        case "tsu"  => Some(Tsu)
        case "te"   => Some(Te)
        case "to"   => Some(To)
        case _      => None)
      case 'h' =>
        (match s
        case "ha"   => Some(Ha)
        case "hi"   => Some(Hi)
        case "he"   => Some(He)
        case "ho"   => Some(Ho)
        case _      => None)
      case 'f' => if s == "fu" then Some(Fu) else None
      case 'm' =>
        (match s
        case "ma"   => Some(Ma)
        case "mi"   => Some(Mi)
        case "mu"   => Some(Mu)
        case "me"   => Some(Me)
        case "mo"   => Some(Mo)
        case _      => None)
      case 'y' =>
        (match s
        case "ya"   => Some(Ya)
        case "yu"   => Some(Yu)
        case "yo"   => Some(Yo)
        case _      => None)
      case 'r' =>
        (match s
        case "ra"   => Some(Ra)
        case "ri"   => Some(Ri)
        case "ru"   => Some(Ru)
        case "re"   => Some(Re)
        case "ro"   => Some(Ro)
        case _      => None)
      case 'w' =>
        (match s
        case "wa"   => Some(Wa)
        case "wo"   => Some(Wo)
        case _      => None)
      case 'g' =>
        (match s
        case "ga"   => Some(Ga)
        case "gi"   => Some(Gi)
        case "gu"   => Some(Gu)
        case "ge"   => Some(Ge)
        case "go"   => Some(Go)
        case _      => None)
      case 'z' =>
        (match s
        case "za"   => Some(Za)
        case "zu"   => Some(Zu)
        case "ze"   => Some(Ze)
        case "zo"   => Some(Zo)
        case _      => None)
      case 'j' => if s == "ji" then Some(Ji) else None
      case 'd' =>
        (match s
        case "da"   => Some(Da)
        case "dji"  => Some(Dji)
        case "dzu"  => Some(Dzu)
        case "de"   => Some(De)
        case "do"   => Some(Do)
        case _      => None)
      case 'b' =>
        (match s
        case "ba"   => Some(Ba)
        case "bi"   => Some(Bi)
        case "bu"   => Some(Bu)
        case "be"   => Some(Be)
        case "bo"   => Some(Bo)
        case _      => None)
      case 'p' =>
        (match s
        case "pa"   => Some(Pa)
        case "pi"   => Some(Pi)
        case "pu"   => Some(Pu)
        case "pe"   => Some(Pe)
        case "po"   => Some(Po)
        case _      => None)
      case _ => None
  }

  /** The hiragana glyph of a kana. */
  function HiraganaGlyph(k: Kana): (g: string)
    ensures |g| == 1
    ensures FromHiraganaCodePoint(g[0] as int) == Some(k)
  {
    match k
    case N   => "ん"
    case A   => "あ"
    case I   => "い"
    case U   => "う"
    case E   => "え"
    case O   => "お"
    case Ka  => "か"
    case Ki  => "き"
    case Ku  => "く"
    case Ke  => "け"
    case Ko  => "こ"
    case Sa  => "さ"
    case Shi => "し"
    case Su  => "す"
    case Se  => "せ"
    case So  => "そ"
    case Ta  => "た"
    case Chi => "ち"
    case Tsu => "つ"
    case Te  => "て"
    case To  => "と"
    case Na  => "な"
    case Ni  => "に"
    case Nu  => "ぬ"
    case Ne  => "ね"
    case No  => "の"
    case Ha  => "は"
    case Hi  => "ひ"
    case Fu  => "ふ"
    case He  => "へ"
    case Ho  => "ほ"
    case Ma  => "ま"
    case Mi  => "み"
    case Mu  => "む"
    case Me  => "め"
    case Mo  => "も"
    case Ya  => "や"
    case Yu  => "ゆ"
    case Yo  => "よ"
    case Ra  => "ら"
    case Ri  => "り"
    case Ru  => "る"
    case Re  => "れ"
    case Ro  => "ろ"
    case Wa  => "わ"
    case Wo  => "を"
    case Ga  => "が"
    case Gi  => "ぎ"
    case Gu  => "ぐ"
    case Ge  => "げ"
    case Go  => "ご"
    case Za  => "ざ"
    case Ji  => "じ"
    case Zu  => "ず"
    case Ze  => "ぜ"
    case Zo  => "ぞ"
    case Da  => "だ"
    case Dji => "ぢ"
    case Dzu => "づ"
    case De  => "で"
    case Do  => "ど"
    case Ba  => "ば"
    case Bi  => "び"
    case Bu  => "ぶ"
    case Be  => "べ"
    case Bo  => "ぼ"
    case Pa  => "ぱ"
    case Pi  => "ぴ"
    case Pu  => "ぷ"
    case Pe  => "ぺ"
    case Po  => "ぽ"
  }

  /** The katakana glyph of a kana. */
  function KatakanaGlyph(k: Kana): (g: string)
    ensures |g| == 1
  {
    match k
    case N   => "ン"
    case A   => "ア"
    case I   => "イ"
    case U   => "ウ"
    case E   => "エ"
    case O   => "オ"
    case Ka  => "カ"
    case Ki  => "キ"
    case Ku  => "ク"
    case Ke  => "ケ"
    case Ko  => "コ"
    case Sa  => "サ"
    case Shi => "シ"
    case Su  => "ス"
    case Se  => "セ"
    case So  => "ソ"
    case Ta  => "タ"
    case Chi => "チ"
    case Tsu => "ツ"
    case Te  => "テ"
    case To  => "ト"
    case Na  => "ナ"
    case Ni  => "ニ"
    case Nu  => "ヌ"
    case Ne  => "ネ"
    case No  => "ノ"
    case Ha  => "ハ"
    case Hi  => "ヒ"
    case Fu  => "フ"
    case He  => "ヘ"
    case Ho  => "ホ"
    case Ma  => "マ"
    case Mi  => "ミ"
    case Mu  => "ム"
    case Me  => "メ"
    case Mo  => "モ"
    case Ya  => "ヤ"
    case Yu  => "ユ"
    case Yo  => "ヨ"
    case Ra  => "ラ"
    case Ri  => "リ"
    case Ru  => "ル"
    case Re  => "レ"
    case Ro  => "ロ"
    case Wa  => "ワ"
    case Wo  => "ヲ"
    case Ga  => "ガ"
    case Gi  => "ギ"
    case Gu  => "グ"
    case Ge  => "ゲ"
    case Go  => "ゴ"
    case Za  => "ザ"
    case Ji  => "ジ"
    case Zu  => "ズ"
    case Ze  => "ゼ"
    case Zo  => "ゾ"
    case Da  => "ダ"
    case Dji => "ヂ"
    case Dzu => "ヅ"
    case De  => "デ"
    case Do  => "ド"
    case Ba  => "バ"
    case Bi  => "ビ"
    case Bu  => "ブ"
    case Be  => "ベ"
    case Bo  => "ボ"
    case Pa  => "パ"
    case Pi  => "ピ"
    case Pu  => "プ"
    case Pe  => "ペ"
    case Po  => "ポ"
  }

  /**
   * Reads a hiragana code point back to the kana it is the glyph of, if any.
   * Written as a binary search over the sorted code points.
   */
  function FromHiraganaCodePoint(c: int): Option<Kana>
  {
    if c < 0x306A then
      if c < 0x3057 then
        if c < 0x304E then
          if c < 0x304A then
            if c < 0x3046 then
              if c < 0x3044 then
                if c == 0x3042 then Some(A) else None  // あ
              else
                if c == 0x3044 then Some(I) else None  // い
            else
              if c < 0x3048 then
                if c == 0x3046 then Some(U) else None  // う
              else
                if c == 0x3048 then Some(E) else None  // え
          else
            if c < 0x304C then
              if c < 0x304B then
                if c == 0x304A then Some(O) else None  // お
              else
                if c == 0x304B then Some(Ka) else None  // か
            else
              if c < 0x304D then
                if c == 0x304C then Some(Ga) else None  // が
              else
                if c == 0x304D then Some(Ki) else None  // き
        else
          if c < 0x3052 then
            if c < 0x3050 then
              if c < 0x304F then
                if c == 0x304E then Some(Gi) else None  // ぎ
              else
                if c == 0x304F then Some(Ku) else None  // く
            else
              if c < 0x3051 then
                if c == 0x3050 then Some(Gu) else None  // ぐ
              else
                if c == 0x3051 then Some(Ke) else None  // け
          else
            if c < 0x3054 then
              if c < 0x3053 then
                if c == 0x3052 then Some(Ge) else None  // げ
              else
                if c == 0x3053 then Some(Ko) else None  // こ
            else
              if c < 0x3055 then
                if c == 0x3054 then Some(Go) else None  // ご
              else
                if c < 0x3056 then
                  if c == 0x3055 then Some(Sa) else None  // さ
                else
                  if c == 0x3056 then Some(Za) else None  // ざ
      else
        if c < 0x3060 then
          if c < 0x305B then
            if c < 0x3059 then
              if c < 0x3058 then
                if c == 0x3057 then Some(Shi) else None  // し
              else
                if c == 0x3058 then Some(Ji) else None  // じ
            else
              if c < 0x305A then
                if c == 0x3059 then Some(Su) else None  // す
              else
                if c == 0x305A then Some(Zu) else None  // ず
          else
            if c < 0x305D then
              if c < 0x305C then
                if c == 0x305B then Some(Se) else None  // せ
              else
                if c == 0x305C then Some(Ze) else None  // ぜ
            else
              if c < 0x305E then
                if c == 0x305D then Some(So) else None  // そ
              else
                if c < 0x305F then
                  if c == 0x305E then Some(Zo) else None  // ぞ
                else
                  if c == 0x305F then Some(Ta) else None  // た
        else
          if c < 0x3065 then
            if c < 0x3062 then
              if c < 0x3061 then
                if c == 0x3060 then Some(Da) else None  // だ
              else
                if c == 0x3061 then Some(Chi) else None  // ち
            else
              if c < 0x3064 then
                if c == 0x3062 then Some(Dji) else None  // ぢ
              else
                if c == 0x3064 then Some(Tsu) else None  // つ
          else
            if c < 0x3067 then
              if c < 0x3066 then
                if c == 0x3065 then Some(Dzu) else None  // づ
              else
                if c == 0x3066 then Some(Te) else None  // て
            else
              if c < 0x3068 then
                if c == 0x3067 then Some(De) else None  // で
              else
                if c < 0x3069 then
                  if c == 0x3068 then Some(To) else None  // と
                else
                  if c == 0x3069 then Some(Do) else None  // ど
    else
      if c < 0x307C then
        if c < 0x3073 then
          if c < 0x306E then
            if c < 0x306C then
              if c < 0x306B then
                if c == 0x306A then Some(Na) else None  // な
              else
                if c == 0x306B then Some(Ni) else None  // に
            else
              if c < 0x306D then
                if c == 0x306C then Some(Nu) else None  // ぬ
              else
                if c == 0x306D then Some(Ne) else None  // ね
          else
            if c < 0x3070 then
              if c < 0x306F then
                if c == 0x306E then Some(No) else None  // の
              else
                if c == 0x306F then Some(Ha) else None  // は
            else
              if c < 0x3071 then
                if c == 0x3070 then Some(Ba) else None  // ば
              else
                if c < 0x3072 then
                  if c == 0x3071 then Some(Pa) else None  // ぱ
                else
                  if c == 0x3072 then Some(Hi) else None  // ひ
        else
          if c < 0x3077 then
            if c < 0x3075 then
              if c < 0x3074 then
                if c == 0x3073 then Some(Bi) else None  // び
              else
                if c == 0x3074 then Some(Pi) else None  // ぴ
            else
              if c < 0x3076 then
                if c == 0x3075 then Some(Fu) else None  // ふ
              else
                if c == 0x3076 then Some(Bu) else None  // ぶ
          else
            if c < 0x3079 then
              if c < 0x3078 then
                if c == 0x3077 then Some(Pu) else None  // ぷ
              else
                if c == 0x3078 then Some(He) else None  // へ
            else
              if c < 0x307A then
                if c == 0x3079 then Some(Be) else None  // べ
              else
                if c < 0x307B then
                  if c == 0x307A then Some(Pe) else None  // ぺ
                else
                  if c == 0x307B then Some(Ho) else None  // ほ
      else
        if c < 0x3088 then
          if c < 0x3080 then
            if c < 0x307E then
              if c < 0x307D then
                if c == 0x307C then Some(Bo) else None  // ぼ
              else
                if c == 0x307D then Some(Po) else None  // ぽ
            else
              if c < 0x307F then
                if c == 0x307E then Some(Ma) else None  // ま
              else
                if c == 0x307F then Some(Mi) else None  // み
          else
            if c < 0x3082 then
              if c < 0x3081 then
                if c == 0x3080 then Some(Mu) else None  // む
              else
                if c == 0x3081 then Some(Me) else None  // め
            else
              if c < 0x3084 then
                if c == 0x3082 then Some(Mo) else None  // も
              else
                if c < 0x3086 then
                  if c == 0x3084 then Some(Ya) else None  // や
                else
                  if c == 0x3086 then Some(Yu) else None  // ゆ
        else
          if c < 0x308C then
            if c < 0x308A then
              if c < 0x3089 then
                if c == 0x3088 then Some(Yo) else None  // よ
              else
                if c == 0x3089 then Some(Ra) else None  // ら
            else
              if c < 0x308B then
                if c == 0x308A then Some(Ri) else None  // り
              else
                if c == 0x308B then Some(Ru) else None  // る
          else
            if c < 0x308F then
              if c < 0x308D then
                if c == 0x308C then Some(Re) else None  // れ
              else
                if c == 0x308D then Some(Ro) else None  // ろ
            else
              if c < 0x3092 then
                if c == 0x308F then Some(Wa) else None  // わ
              else
                if c < 0x3093 then
                  if c == 0x3092 then Some(Wo) else None  // を
                else
                  if c == 0x3093 then Some(N) else None  // ん
  }

  /**
   * The spellings accepted for a kana: its label, plus "chi" for Chi and
   * "ji" for Dji.
   */
  function AcceptedAnswers(k: Kana): (answers: set<string>)
    ensures Label(k) in answers
  {
    {Label(k)} + (if k == Chi then {"chi"} else if k == Dji then {"ji"} else {})
  }

  /**
   * Whether `answer` is a correct answer for `k`: the two flexible spellings
   * first, then an exact, case-sensitive comparison with the label.
   */
  function ValidateAnswer(k: Kana, answer: string): bool
  {
    if k == Chi && (answer == "chi" || answer == "tchi") then true
    else if k == Dji && (answer == "dji" || answer == "ji") then true
    else Label(k) == answer
  }

  // ----- the enumeration -----

  /** The variant at a position sits at that position. */
  lemma FromOrdinalInverse(i: nat)
    requires i < KanaCount
    ensures Ordinal(FromOrdinal(i)) == i
  {
    match FromOrdinal(i)
    case N =>
    case A =>
    case I =>
    case U =>
    case E =>
    case O =>
    case Ka =>
    case Ki =>
    case Ku =>
    case Ke =>
    case Ko =>
    case Sa =>
    case Shi =>
    case Su =>
    case Se =>
    case So =>
    case Ta =>
    case Chi =>
    case Tsu =>
    case Te =>
    case To =>
    case Na =>
    case Ni =>
    case Nu =>
    case Ne =>
    case No =>
    case Ha =>
    case Hi =>
    case Fu =>
    case He =>
    case Ho =>
    case Ma =>
    case Mi =>
    case Mu =>
    case Me =>
    case Mo =>
    case Ya =>
    case Yu =>
    case Yo =>
    case Ra =>
    case Ri =>
    case Ru =>
    case Re =>
    case Ro =>
    case Wa =>
    case Wo =>
    case Ga =>
    case Gi =>
    case Gu =>
    case Ge =>
    case Go =>
    case Za =>
    case Ji =>
    case Zu =>
    case Ze =>
    case Zo =>
    case Da =>
    case Dji =>
    case Dzu =>
    case De =>
    case Do =>
    case Ba =>
    case Bi =>
    case Bu =>
    case Be =>
    case Bo =>
    case Pa =>
    case Pi =>
    case Pu =>
    case Pe =>
    case Po =>
  }

  /** Iteration yields 71 kana, each variant exactly once. */
  lemma AllKanaEnumerates()
    ensures |AllKana| == KanaCount
    ensures forall k :: k in AllKana
    ensures forall i, j :: 0 <= i < j < |AllKana| ==> AllKana[i] != AllKana[j]
  {
    forall k ensures k in AllKana {
      assert AllKana[Ordinal(k)] == k;
    }
    forall i, j | 0 <= i < j < |AllKana| ensures AllKana[i] != AllKana[j] {
      FromOrdinalInverse(i);
      FromOrdinalInverse(j);
    }
  }

  // ----- labels and answers -----

  /** The 71 labels are pairwise distinct. */
  lemma LabelsDistinct(k1: Kana, k2: Kana)
    ensures Label(k1) == Label(k2) ==> k1 == k2
  {
  }

  /** Every kana accepts its own label. */
  lemma LabelIsAccepted(k: Kana)
    ensures ValidateAnswer(k, Label(k))
  {
  }

  /** Chi displays as "tchi" and accepts exactly "chi" and "tchi". */
  lemma ChiAnswers(answer: string)
    ensures Label(Chi) == "tchi"
    ensures ValidateAnswer(Chi, answer) <==> answer == "chi" || answer == "tchi"
  {
  }

  /** Dji displays as "dji" and accepts exactly "dji" and "ji". */
  lemma DjiAnswers(answer: string)
    ensures Label(Dji) == "dji"
    ensures ValidateAnswer(Dji, answer) <==> answer == "dji" || answer == "ji"
  {
  }

  /** Every other kana accepts its label and nothing else. */
  lemma OtherAnswers(k: Kana, answer: string)
    requires k != Chi && k != Dji
    ensures ValidateAnswer(k, answer) <==> answer == Label(k)
  {
  }

  /** Matching is case-sensitive: an upper-case spelling is rejected. */
  lemma AnswerIsCaseSensitive()
    ensures ValidateAnswer(A, "a") && !ValidateAnswer(A, "A")
    ensures !ValidateAnswer(Shi, "SHI") && !ValidateAnswer(Chi, "Chi")
  {
  }

  /** The validator accepts exactly the spellings listed for the kana. */
  lemma ValidateAnswerAcceptsListed(k: Kana, answer: string)
    ensures ValidateAnswer(k, answer) <==> answer in AcceptedAnswers(k)
  {
  }

  /**
   * An accepted answer reads back as its kana, unless it is one of the two
   * alternate spellings.
   */
  lemma AcceptedAnswerReadsBack(k: Kana, answer: string)
    requires ValidateAnswer(k, answer)
    ensures FromLabel(answer) == Some(k) || (k == Chi && answer == "chi") || (k == Dji && answer == "ji")
  {
  }

  /**
   * An accepted answer identifies its kana, with one exception: "ji" is
   * accepted both by Ji and by Dji.
   */
  lemma AnswerIdentifiesKana(k1: Kana, k2: Kana, answer: string)
    requires ValidateAnswer(k1, answer) && ValidateAnswer(k2, answer)
    ensures k1 == k2 || (answer == "ji" && {k1, k2} == {Ji, Dji})
  {
    AcceptedAnswerReadsBack(k1, answer);
    AcceptedAnswerReadsBack(k2, answer);
    ReadBacksAgree(k1, k2, answer);
  }

  /** The step of `AnswerIdentifiesKana` that only looks at labels read back. */
  lemma ReadBacksAgree(k1: Kana, k2: Kana, answer: string)
    requires FromLabel(answer) == Some(k1) || (k1 == Chi && answer == "chi") || (k1 == Dji && answer == "ji")
    requires FromLabel(answer) == Some(k2) || (k2 == Chi && answer == "chi") || (k2 == Dji && answer == "ji")
    ensures k1 == k2 || (answer == "ji" && {k1, k2} == {Ji, Dji})
  {
    assert FromLabel("chi") == None;
    assert FromLabel("ji") == Some(Ji);
  }

  /** "ji" is accepted by two different kana. */
  lemma JiIsAmbiguous()
    ensures ValidateAnswer(Ji, "ji") && ValidateAnswer(Dji, "ji") && Ji != Dji
  {
  }

  // ----- glyphs -----

  /** Each katakana glyph is its hiragana glyph shifted by 0x60 code points. */
  lemma KatakanaIsShiftedHiragana(k: Kana)
    ensures KatakanaGlyph(k)[0] as int == HiraganaGlyph(k)[0] as int + 0x60
  {
    match k
    case N =>
    case A =>
    case I =>
    case U =>
    case E =>
    case O =>
    case Ka =>
    case Ki =>
    case Ku =>
    case Ke =>
    case Ko =>
    case Sa =>
    case Shi =>
    case Su =>
    case Se =>
    case So =>
    case Ta =>
    case Chi =>
    case Tsu =>
    case Te =>
    case To =>
    case Na =>
    case Ni =>
    case Nu =>
    case Ne =>
    case No =>
    case Ha =>
    case Hi =>
    case Fu =>
    case He =>
    case Ho =>
    case Ma =>
    case Mi =>
    case Mu =>
    case Me =>
    case Mo =>
    case Ya =>
    case Yu =>
    case Yo =>
    case Ra =>
    case Ri =>
    case Ru =>
    case Re =>
    case Ro =>
    case Wa =>
    case Wo =>
    case Ga =>
    case Gi =>
    case Gu =>
    case Ge =>
    case Go =>
    case Za =>
    case Ji =>
    case Zu =>
    case Ze =>
    case Zo =>
    case Da =>
    case Dji =>
    case Dzu =>
    case De =>
    case Do =>
    case Ba =>
    case Bi =>
    case Bu =>
    case Be =>
    case Bo =>
    case Pa =>
    case Pi =>
    case Pu =>
    case Pe =>
    case Po =>
  }

  /** No two kana share a glyph, in either writing system. */
  lemma GlyphsDistinct(k1: Kana, k2: Kana)
    ensures HiraganaGlyph(k1) == HiraganaGlyph(k2) ==> k1 == k2
    ensures KatakanaGlyph(k1) == KatakanaGlyph(k2) ==> k1 == k2
  {
    KatakanaIsShiftedHiragana(k1);
    KatakanaIsShiftedHiragana(k2);
  }
}
