/** The configuration object of the assistant client. The credentials, the
    language tag and the recognition engine are fixed at construction; the
    protocol version and the two testing flags (`debug`, `writeSoundLog`) may
    be changed afterwards, and the base service URL follows `debug`. */
module Configuration {
  import opened Languages
  import opened Endpoint

  /** The one error construction can raise. */
  datatype ConfigError = UnsupportedCombination

  datatype Result<T> = Ok(value: T) | Err(error: ConfigError)

  /** Every (engine, language) pair is supported except Speaktoit with Korean. */
  predicate IsSupported(engine: RecognitionEngine, language: SupportedLanguage)
  {
    !(engine == Speaktoit && language == Korean)
  }

  class AIConfiguration {
    const apiKey: string
    const subscriptionKey: string
    /** The tag of the chosen language, as stored; not the enumeration value. */
    const language: string
    const recognitionEngine: RecognitionEngine

    var protocolVersion: string
    var debug: bool
    var writeSoundLog: bool
    var serviceUrl: string

    /** The object invariant: the stored language is one of the tags and is
        not combined with the engine it is unsupported by, and the service URL
        is the production or the development URL as `debug` selects. */
    ghost predicate Valid()
      reads this
    {
      && Tag(FromLanguageTag(language)) == language
      && IsSupported(recognitionEngine, FromLanguageTag(language))
      && serviceUrl == ServiceUrl(debug)
    }

    /** The part of construction that runs once the (engine, language) pair
        has passed the check; `Create` performs that check. */
    constructor (apiKey: string, subscriptionKey: string, language: SupportedLanguage,
                 recognitionEngine: RecognitionEngine)
      requires IsSupported(recognitionEngine, language)
      ensures Valid()
      ensures this.apiKey == apiKey && this.subscriptionKey == subscriptionKey
      ensures this.language == Tag(language) && this.recognitionEngine == recognitionEngine
      ensures protocolVersion == CurrentProtocolVersion
      ensures serviceUrl == ProdUrl && !debug && !writeSoundLog
    {
      this.apiKey := apiKey;
      this.subscriptionKey := subscriptionKey;
      this.language := Tag(language);
      this.recognitionEngine := recognitionEngine;
      protocolVersion := CurrentProtocolVersion;
      debug := false;
      writeSoundLog := false;
      serviceUrl := ProdUrl;
      assert FromLanguageTag(Tag(language)) == language;
    }

    /** Switches between the development and the production backend. */
    method SetDebug(debug: bool)
      requires Valid()
      modifies this`debug, this`serviceUrl
      ensures Valid()
      ensures this.debug == debug
      ensures serviceUrl == ServiceUrl(debug)
      ensures protocolVersion == old(protocolVersion) && writeSoundLog == old(writeSoundLog)
    {
      this.debug := debug;
      if debug {
        serviceUrl := DevUrl;
      } else {
        serviceUrl := ProdUrl;
      }
    }

    /** Sets the flag that asks the recorder to keep sound logs. */
    method SetWriteSoundLog(writeSoundLog: bool)
      requires Valid()
      modifies this`writeSoundLog
      ensures Valid()
      ensures this.writeSoundLog == writeSoundLog
      ensures protocolVersion == old(protocolVersion) && debug == old(debug)
      ensures serviceUrl == old(serviceUrl)
    {
      this.writeSoundLog := writeSoundLog;
    }

    /** Sets the protocol version; any string is accepted, the empty string
        meaning the oldest version. */
    method SetProtocolVersion(protocolVersion: string)
      requires Valid()
      modifies this`protocolVersion
      ensures Valid()
      ensures this.protocolVersion == protocolVersion
      ensures debug == old(debug) && writeSoundLog == old(writeSoundLog)
      ensures serviceUrl == old(serviceUrl)
    {
      this.protocolVersion := protocolVersion;
    }

    /** The query URL for the current state, computed afresh on every call:
        it addresses the backend `debug` selects and asks for the current
        protocol version, or for none when that is empty. */
    function QuestionUrl(): (url: string)
      reads this
      requires Valid()
      ensures ParseQuestionUrl(url) == Some(UrlParts(debug, protocolVersion))
    {
      ParseBuildRoundTrip(debug, protocolVersion);
      BuildQuestionUrl(serviceUrl, protocolVersion)
    }
  }

  /** Construction as the client sees it: fails for Speaktoit with Korean and
      for no other pair, and otherwise yields a fresh configuration holding
      the given credentials, the language's tag, the engine, the current
      protocol version, the production URL and both flags off. */
  method Create(apiKey: string, subscriptionKey: string, language: SupportedLanguage,
                recognitionEngine: RecognitionEngine)
    returns (r: Result<AIConfiguration>)
    ensures r.Err? <==> recognitionEngine == Speaktoit && language == Korean
    ensures r.Err? ==> r.error == UnsupportedCombination
    ensures r.Ok? ==> fresh(r.value) && r.value.Valid()
    ensures r.Ok? ==> r.value.apiKey == apiKey && r.value.subscriptionKey == subscriptionKey
    ensures r.Ok? ==> r.value.language == Tag(language) && r.value.recognitionEngine == recognitionEngine
    ensures r.Ok? ==> r.value.protocolVersion == CurrentProtocolVersion
    ensures r.Ok? ==> r.value.serviceUrl == ProdUrl && !r.value.debug && !r.value.writeSoundLog
  {
    if recognitionEngine == Speaktoit && language == Korean {
      return Err(UnsupportedCombination);
    }
    var config := new AIConfiguration(apiKey, subscriptionKey, language, recognitionEngine);
    return Ok(config);
  }

  /** A client run on the production backend: the default query URL, the URL
      without a protocol version, and the URL once the version is restored;
      each change is visible on the next call. */
  method ProtocolVersionScenario(config: AIConfiguration)
    requires config.Valid() && !config.debug
    requires config.protocolVersion == CurrentProtocolVersion
    modifies config
  {
    DocumentedUrls();
    assert config.QuestionUrl() == "https://api.api.ai/v1/query?v=20150204";
    config.SetProtocolVersion("");
    assert config.QuestionUrl() == "https://api.api.ai/v1/query";
    config.SetProtocolVersion(CurrentProtocolVersion);
    assert config.QuestionUrl() == "https://api.api.ai/v1/query?v=20150204";
  }

  /** A client run that switches to the development backend and back. */
  method DebugScenario(config: AIConfiguration)
    requires config.Valid() && !config.debug
    requires config.protocolVersion == CurrentProtocolVersion
    modifies config
  {
    DocumentedUrls();
    config.SetDebug(true);
    assert config.QuestionUrl() == "https://dev.api.ai/api/query?v=20150204";
    config.SetDebug(false);
    assert config.QuestionUrl() == "https://api.api.ai/v1/query?v=20150204";
  }

  /** Construction refuses Speaktoit with Korean but accepts Korean with the
      other engines, storing the tag "ko". */
  method ConstructionScenario(apiKey: string, subscriptionKey: string)
  {
    var korean := Create(apiKey, subscriptionKey, Korean, Speaktoit);
    assert korean.Err?;
    var legacy := Create(apiKey, subscriptionKey, Korean, Google);
    assert legacy.Ok? && legacy.value.language == "ko";
    var english := Create(apiKey, subscriptionKey, English, System);
    ProtocolVersionScenario(english.value);
  }
}
