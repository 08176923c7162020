# AIConfiguration — a Dafny model

This project models the configuration object of the API.AI Android client
(`ai.api.AIConfiguration`). The object holds:

- the API credentials;
- the spoken language, stored as its language tag;
- the speech recognition engine;
- the protocol version;
- two testing flags, `debug` and `writeSoundLog`.

From these it derives the query endpoint URL. The model has three modules:

- `Languages` (`languages.dfy`): the `RecognitionEngine` and
  `SupportedLanguages` enumerations as datatypes, the tag of each language
  (`Tag`), and the reverse lookup `FromLanguageTag`. The lookup matches
  exactly and falls back to English for every unknown string.
- `Endpoint` (`endpoint.dfy`): the production and development base URLs,
  the `query` segment and the default protocol version `20150204`.
  `BuildQuestionUrl` assembles the query URL. Its partner `ParseQuestionUrl`
  reads a URL back into the backend it addresses and the version it asks
  for. Two lemmas prove that each is the inverse of the other.
- `Configuration` (`configuration.dfy`): the class `AIConfiguration`. The
  four `final` Java fields become `const` fields, so they cannot change
  after construction. The mutable fields are `protocolVersion`, `debug`,
  `writeSoundLog` and `serviceUrl`. `Valid()` is the object invariant:
  - the stored language is one of the thirteen tags;
  - the (engine, language) pair is supported;
  - `serviceUrl` is `ServiceUrl(debug)`: the development URL exactly when
    `debug` holds, and the production URL otherwise.

  Every setter keeps this invariant.

The Java constructor throws `UnsupportedOperationException` for Speaktoit
with Korean. A Dafny constructor cannot fail, so the Java constructor is
modelled by the method `Create`. It returns `Err(UnsupportedCombination)`
for that pair and otherwise a fresh object built by the Dafny constructor.
The Dafny constructor requires the pair to be supported, and `Create`
checks this before calling it. Three client methods walk through the
documented behaviour:
- `ConstructionScenario` shows that Speaktoit with Korean is refused and
  Korean with another engine is accepted.
- `ProtocolVersionScenario` gives the default URL, the URL with an empty
  protocol version, and the URL after the version is restored.
- `DebugScenario` gives the URL after `SetDebug(true)` and after switching
  back.

The engines are named as in the code (`Google`, `System`, `Speaktoit`).
They are also known as the legacy system recogniser, the system recogniser
and the vendor recogniser.

## Model

| member | source | states |
|---|---|---|
| `Languages.Tag` | ailib/src/main/java/ai/api/AIConfiguration.java:62-80 | each of the 13 languages carries its tag (`en`, `ru`, `de`, `pt`, `pt-BR`, `es`, `fr`, `it`, `ja`, `ko`, `zh-CN`, `zh-HK`, `zh-TW`); its contract states every tag is two lower-case letters, optionally followed by `-` and two upper-case letters; `TagInjective` proves the tags pairwise distinct and `TagRoundTrip` and `FromLanguageTag` prove the lookup inverts it |
| `Languages.TagRoundTrip` | ailib/src/main/java/ai/api/AIConfiguration.java:82-109 | for every language, looking up its tag gives that language back |
| `Languages.FromLanguageTag` | ailib/src/main/java/ai/api/AIConfiguration.java:82-112 | the result is either the language whose tag matches the input exactly or the English fallback; any language whose tag equals the input is the one returned, so `FromLanguageTag(Tag(l)) == l` for all 13 languages |
| `Languages.TagInjective` | ailib/src/main/java/ai/api/AIConfiguration.java:62-74 | two languages have the same tag if and only if they are the same language (the 13 tags are pairwise distinct) |
| `Languages.KnownTagIffLookupRoundTrips` | ailib/src/main/java/ai/api/AIConfiguration.java:82-112 | a string is one of the 13 tags if and only if looking it up and taking the tag gives it back; every other string (`""`, `"EN"`, `"xx"`, …) resolves to English |
| `Endpoint.ServiceUrl` | ailib/src/main/java/ai/api/AIConfiguration.java:173-181 | the selected base URL is the development URL if and only if debug is on, and the production URL if and only if it is off |
| `Endpoint.BuildQuestionUrl` | ailib/src/main/java/ai/api/AIConfiguration.java:216-222 | the query URL starts with the base URL and `query`, and goes on after them exactly when the protocol version is non-empty; `ParseBuildRoundTrip`, `ParseQuestionUrlSound` and `DocumentedUrls` pin the exact string |
| `Endpoint.ParseBuildRoundTrip` | ailib/src/main/java/ai/api/AIConfiguration.java:216-222 | the query URL built for any (debug, version) parses back to exactly that debug flag and version: `?v=` is present for a non-empty version and absent for the empty one, and distinct states never share a URL |
| `Endpoint.ParseQuestionUrlSound` | ailib/src/main/java/ai/api/AIConfiguration.java:216-222 | every URL the parser accepts is exactly the query URL built from what it parses to |
| `Endpoint.DocumentedUrls` | ailib/src/main/java/ai/api/AIConfiguration.java:216-222 | the query URL is `https://api.api.ai/v1/query?v=20150204` in the default state, `https://dev.api.ai/api/query?v=20150204` on the development backend, and `https://api.api.ai/v1/query` with the empty protocol version |
| `Configuration.AIConfiguration.constructor` | ailib/src/main/java/ai/api/AIConfiguration.java:129-143 | for a supported pair: stores the credentials, the language's tag and the engine; protocol version `20150204`, production URL, `debug` and `writeSoundLog` off; establishes `Valid()` |
| `Configuration.Create` | ailib/src/main/java/ai/api/AIConfiguration.java:137-140 | fails with `UnsupportedCombination` if and only if the engine is Speaktoit and the language is Korean; otherwise returns a fresh valid configuration in the initial state above |
| `Configuration.AIConfiguration.SetDebug` | ailib/src/main/java/ai/api/AIConfiguration.java:173-181 | sets `debug` to the argument and `serviceUrl` to the development URL when it is true and the production URL otherwise; protocol version and sound-log flag unchanged; keeps `Valid()` |
| `Configuration.AIConfiguration.SetWriteSoundLog` | ailib/src/main/java/ai/api/AIConfiguration.java:187-189 | sets `writeSoundLog` only; protocol version, `debug` and `serviceUrl` unchanged; keeps `Valid()` |
| `Configuration.AIConfiguration.SetProtocolVersion` | ailib/src/main/java/ai/api/AIConfiguration.java:212-214 | sets the protocol version to any string, unvalidated; `debug`, `writeSoundLog` and `serviceUrl` unchanged; keeps `Valid()` |
| `Configuration.AIConfiguration.QuestionUrl` | ailib/src/main/java/ai/api/AIConfiguration.java:216-222 | the URL computed from the current state addresses the backend the current `debug` flag selects and carries the current protocol version (none when it is empty) |

## Left out

- The Java getters (`getApiKey`, `getSubscriptionKey`, `getLanguage`, `getRecognitionEngine`, `isDebug`, `isWriteSoundLog`, `getProtocolVersion`) are reads of the model's public fields and have no members of their own.
- `TextUtils.isEmpty` is an Android library call. It is modelled as `|protocolVersion| == 0`, since Dafny strings are never null.
- `String.format` is modelled as sequence concatenation.
- Null arguments are not modelled; Dafny strings and datatypes cannot be null.
- The exception's message text and the `@Deprecated` marker on `Google` carry no behaviour.
- What `writeSoundLog` does to sound recording is not modelled. It belongs to the recorder, which is not part of this model.
- Network use of the URL and the credentials is not modelled; the transport is not part of this model.
- Unsynchronised access to the mutable fields from several threads is not modelled.
- In the Java constructor the fields are assigned before the exception is thrown. The half-built object is never returned, so `Create` simply returns the error.
