/** The two enumerations of the assistant client's configuration: the speech
    recognition engine and the supported spoken languages, each language
    carrying its language tag. */
module Languages {

  /** Which subsystem performs speech-to-text. `Google` is deprecated in
      favour of `System`; it remains a valid choice. */
  datatype RecognitionEngine = Google | System | Speaktoit

  /** The thirteen supported languages, in declaration order. */
  datatype SupportedLanguage =
    | English
    | Russian
    | German
    | Portuguese
    | PortugueseBrazil
    | Spanish
    | French
    | Italian
    | Japanese
    | Korean
    | ChineseChina
    | ChineseHongKong
    | ChineseTaiwan

  /** The language tag attached to each language: a two-letter lower-case
      language subtag, optionally followed by `-` and a two-letter upper-case
      region subtag. */
  function Tag(language: SupportedLanguage): (tag: string)
    ensures |tag| == 2 || |tag| == 5
    ensures 'a' <= tag[0] <= 'z' && 'a' <= tag[1] <= 'z'
    ensures |tag| == 5 ==> tag[2] == '-' && 'A' <= tag[3] <= 'Z' && 'A' <= tag[4] <= 'Z'
  {
    match language
    case English => "en"
    case Russian => "ru"
    case German => "de"
    case Portuguese => "pt"
    case PortugueseBrazil => "pt-BR"
    case Spanish => "es"
    case French => "fr"
    case Italian => "it"
    case Japanese => "ja"
    case Korean => "ko"
    case ChineseChina => "zh-CN"
    case ChineseHongKong => "zh-HK"
    case ChineseTaiwan => "zh-TW"
  }

  /** Maps a tag back to its language by exact, case-sensitive match; every
      string that is not one of the thirteen tags falls back to English.
      The lookup is total: it never fails. */
  function FromLanguageTag(tag: string): (language: SupportedLanguage)
    // either the tag matched exactly, or the result is the English fallback
    ensures Tag(language) == tag || language == English
    // a tag that belongs to some language always finds that language
    ensures forall l :: Tag(l) == tag ==> language == l
  {
    match tag
    case "en" => English
    case "ru" => Russian
    case "de" => German
    case "pt" => Portuguese
    case "pt-BR" => PortugueseBrazil
    case "es" => Spanish
    case "fr" => French
    case "it" => Italian
    case "ja" => Japanese
    case "ko" => Korean
    case "zh-CN" => ChineseChina
    case "zh-HK" => ChineseHongKong
    case "zh-TW" => ChineseTaiwan
    case _ => English
  }

  /** Looking up a language's own tag gives that language back. */
  lemma TagRoundTrip(language: SupportedLanguage)
    ensures FromLanguageTag(Tag(language)) == language
  {
  }

  /** No two languages share a tag, so a stored tag identifies its language. */
  lemma TagInjective(a: SupportedLanguage, b: SupportedLanguage)
    ensures Tag(a) == Tag(b) <==> a == b
  {
  }

  /** A string is one of the thirteen tags exactly when the lookup maps it to
      a language whose tag it is; everything else (the empty string, case
      variants such as "EN", unknown tags such as "xx") resolves to English
      without being a tag. */
  lemma KnownTagIffLookupRoundTrips(tag: string)
    ensures (exists l :: Tag(l) == tag) <==> Tag(FromLanguageTag(tag)) == tag
    ensures !(exists l :: Tag(l) == tag) ==> FromLanguageTag(tag) == English
  {
  }
}
