/** The backend query endpoint: the two base service URLs, the query path
    segment, the default protocol version, and how the query URL is built
    from them. `ParseQuestionUrl` is the inverse of the builder: it recovers
    which base URL and which protocol version a query URL was made from. */
module Endpoint {

  const ProdUrl: string := "https://api.api.ai/v1/"
  const DevUrl: string := "https://dev.api.ai/api/"
  const CurrentProtocolVersion: string := "20150204"
  const QuestionEndpoint: string := "query"

  /** The base service URL the debug flag selects. */
  function ServiceUrl(debug: bool): (url: string)
    ensures url == DevUrl <==> debug
    ensures url == ProdUrl <==> !debug
  {
    if debug then DevUrl else ProdUrl
  }

  /** The query URL for a base URL and a protocol version: the `?v=`
      parameter is present only for a non-empty version; the empty version
      stands for the oldest protocol and is left out of the URL. */
  function BuildQuestionUrl(base: string, version: string): (url: string)
    // the URL is the base followed by the query segment ...
    ensures base + QuestionEndpoint <= url
    // ... and goes on after it exactly when the version is non-empty
    ensures |url| > |base + QuestionEndpoint| <==> |version| > 0
  {
    if |version| > 0 then base + QuestionEndpoint + "?v=" + version
    else base + QuestionEndpoint
  }

  /** What a query URL says: which backend it addresses and which protocol
      version it asks for (the empty string for none). */
  datatype UrlParts = UrlParts(debug: bool, version: string)

  datatype Option<T> = None | Some(value: T)

  /** Reads a query URL back: it must start with one of the two base URLs
      followed by the query segment, and then either end, or go on with
      `?v=` and a non-empty version. */
  function ParseQuestionUrl(url: string): Option<UrlParts>
  {
    var prod := ProdUrl + QuestionEndpoint;
    var dev := DevUrl + QuestionEndpoint;
    if prod <= url then ParseVersionSuffix(false, url[|prod|..])
    else if dev <= url then ParseVersionSuffix(true, url[|dev|..])
    else None
  }

  function ParseVersionSuffix(debug: bool, rest: string): Option<UrlParts>
  {
    if rest == [] then Some(UrlParts(debug, ""))
    else if |rest| > 3 && rest[..3] == "?v=" then Some(UrlParts(debug, rest[3..]))
    else None
  }

  /** Every query URL can be read back: it names its backend and its
      protocol version exactly, so two different (debug, version) states
      never share a URL. */
  lemma {:induction false} ParseBuildRoundTrip(debug: bool, version: string)
    ensures ParseQuestionUrl(BuildQuestionUrl(ServiceUrl(debug), version)) == Some(UrlParts(debug, version))
  {
    var prod := ProdUrl + QuestionEndpoint;
    var dev := DevUrl + QuestionEndpoint;
    var base := ServiceUrl(debug) + QuestionEndpoint;
    var url := BuildQuestionUrl(ServiceUrl(debug), version);
    var suffix := if |version| > 0 then "?v=" + version else "";
    assert url == base + suffix;
    assert base <= url;
    assert url[|base|..] == suffix;
    if debug {
      assert url[8] == 'd' && prod[8] == 'a';
      assert !(prod <= url);
    }
    if |version| > 0 {
      assert suffix[..3] == "?v=" && suffix[3..] == version;
    }
  }

  /** Conversely, a URL that parses is exactly the URL built from what it
      parses to: the parser accepts nothing else. */
  lemma ParseQuestionUrlSound(url: string)
    ensures ParseQuestionUrl(url).Some? ==>
              BuildQuestionUrl(ServiceUrl(ParseQuestionUrl(url).value.debug),
                               ParseQuestionUrl(url).value.version) == url
  {
  }

  /** The three documented query URLs: the default state, the development
      backend, and the production backend with the empty protocol version. */
  lemma DocumentedUrls()
    ensures BuildQuestionUrl(ProdUrl, CurrentProtocolVersion) == "https://api.api.ai/v1/query?v=20150204"
    ensures BuildQuestionUrl(DevUrl, CurrentProtocolVersion) == "https://dev.api.ai/api/query?v=20150204"
    ensures BuildQuestionUrl(ProdUrl, "") == "https://api.api.ai/v1/query"
  {
  }
}
