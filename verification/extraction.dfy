/**
 * Where each provider controller looks for the image in a successful JSON
 * response, and in which order: an ordered list of URL paths, an ordered
 * list of base64 paths, and a fixed precedence between the two kinds.
 */
module Extraction {
  import opened Wrappers
  import opened JsonData
  import opened Outcomes

  // Response paths read by the controllers.
  const DataUrl: Path := [Key("data"), Idx(0), Key("url")]
  const DataB64: Path := [Key("data"), Idx(0), Key("b64_json")]
  const TopUrl: Path := [Key("url")]
  const ImageUrl: Path := [Key("image_url")]
  const ImagesUrl: Path := [Key("images"), Idx(0), Key("url")]
  const ResultUrl: Path := [Key("result"), Key("url")]
  const ResultsImage: Path := [Key("results"), Idx(0), Key("image")]
  const OutputUrl: Path := [Key("output"), Key("url")]
  const OutputResultsUrl: Path := [Key("output"), Key("results"), Idx(0), Key("url")]
  const TopImage: Path := [Key("image")]
  const ImageBase64: Path := [Key("image_base64")]
  const TopBase64: Path := [Key("base64")]
  const OutputImageBase64: Path := [Key("output"), Key("image_base64")]
  const TopB64Json: Path := [Key("b64_json")]
  const PredictionsImageUrl: Path := [Key("predictions"), Idx(0), Key("image_url")]
  const PredictionsBytes: Path := [Key("predictions"), Idx(0), Key("bytesBase64Encoded")]
  const CandidateParts: Path := [Key("candidates"), Idx(0), Key("content"), Key("parts")]
  const CandidateFirstInline: Path := [Key("candidates"), Idx(0), Key("content"), Key("parts"), Idx(0), Key("inlineData")]
  const InlineData: Path := [Key("inlineData")]
  const DataField: Path := [Key("data")]

  /**
   * The precedence shared by most controllers: the first truthy URL path if
   * there is one, otherwise the first truthy base64 path.
   */
  function UrlThenBase64(d: Json, urls: seq<Path>, b64s: seq<Path>): (r: Found)
    ensures r.ViaUrl? <==> exists i :: 0 <= i < |urls| && TruthyAt(d, urls[i]).Some?
    ensures r.ViaBase64? ==> forall i :: 0 <= i < |urls| ==> TruthyAt(d, urls[i]).None?
    ensures r.NoImage? <==> (forall i :: 0 <= i < |urls| ==> TruthyAt(d, urls[i]).None?) &&
                            (forall i :: 0 <= i < |b64s| ==> TruthyAt(d, b64s[i]).None?)
    ensures r.ViaUrl? ==> Some(r.url) == FirstTruthy(d, urls)
    ensures r.ViaBase64? ==> Some(r.payload) == FirstTruthy(d, b64s)
  {
    match FirstTruthy(d, urls)
    case Some(u) => ViaUrl(u)
    case None =>
      match FirstTruthy(d, b64s)
      case Some(p) => ViaBase64(p)
      case None => NoImage
  }

  // ---------------------------------------------------------------------------
  // Qwen (server/controllers/QwenImageController.ts)

  const QwenDashScopeUrls: seq<Path> := [OutputResultsUrl, OutputUrl]
  const QwenStandardUrls: seq<Path> := [DataUrl, TopUrl, ImageUrl, ImagesUrl, ResultUrl, ResultsImage]
  const QwenBase64: seq<Path> := [DataB64, ImageBase64, TopBase64, OutputImageBase64]

  /** The DashScope `if / else if` pair, then the standard `||` chain, then the base64 chain. */
  function QwenFound(d: Json): Found
  {
    var dashScope :=
      if TruthyAt(d, OutputResultsUrl).Some? then TruthyAt(d, OutputResultsUrl)
      else if TruthyAt(d, OutputUrl).Some? then TruthyAt(d, OutputUrl)
      else None;
    var url := if dashScope.Some? then dashScope else FirstTruthy(d, QwenStandardUrls);
    if url.Some? then ViaUrl(url.value)
    else
      match FirstTruthy(d, QwenBase64)
      case Some(p) => ViaBase64(p)
      case None => NoImage
  }

  /**
   * Qwen reads one precedence list of eight URL paths, DashScope first, and
   * reads base64 only when every one of them is falsy.
   */
  lemma QwenPrecedence(d: Json)
    ensures QwenFound(d) == UrlThenBase64(d, QwenDashScopeUrls + QwenStandardUrls, QwenBase64)
  {
    FirstTruthyAppend(d, QwenDashScopeUrls, QwenStandardUrls);
    FirstTruthyAppend(d, [OutputResultsUrl], [OutputUrl]);
    assert QwenDashScopeUrls == [OutputResultsUrl] + [OutputUrl];
  }

  // ---------------------------------------------------------------------------
  // OpenAI-style extraction (GPT Image and Infip controllers)

  const GptAltUrls: seq<Path> := [TopUrl, ImageUrl, ImagesUrl, ResultUrl, ResultsImage, OutputUrl]
  const GptAltBase64: seq<Path> := [ImageBase64, TopBase64, OutputImageBase64]
  const InfipAltUrls: seq<Path> := GptAltUrls + [TopImage]
  const InfipAltBase64: seq<Path> := GptAltBase64 + [TopB64Json]

  /**
   * `data[0].url`, else `data[0].b64_json`; only when both are falsy are the
   * alternative URL and base64 chains read, URL first.
   */
  function OpenAiStyleFound(d: Json, altUrls: seq<Path>, altB64s: seq<Path>): Found
  {
    if TruthyAt(d, DataUrl).Some? then ViaUrl(TruthyAt(d, DataUrl).value)
    else if TruthyAt(d, DataB64).Some? then ViaBase64(TruthyAt(d, DataB64).value)
    else UrlThenBase64(d, altUrls, altB64s)
  }

  function GptFound(d: Json): Found { OpenAiStyleFound(d, GptAltUrls, GptAltBase64) }

  function InfipFound(d: Json): Found { OpenAiStyleFound(d, InfipAltUrls, InfipAltBase64) }

  /**
   * Declarative reading of the OpenAI-style order: a URL found is the first
   * truthy one of `data[0].url` and the alternatives, but only when
   * `data[0].b64_json` does not pre-empt the alternatives; base64 is used only
   * when no URL path was consulted successfully; nothing is found exactly when
   * every path is falsy.
   */
  lemma OpenAiStylePrecedence(d: Json, altUrls: seq<Path>, altB64s: seq<Path>)
    ensures var r := OpenAiStyleFound(d, altUrls, altB64s);
      && (r.ViaUrl? ==> Some(r.url) == FirstTruthy(d, [DataUrl] + altUrls))
      && (r.ViaBase64? ==> Some(r.payload) == FirstTruthy(d, [DataB64] + altB64s) && TruthyAt(d, DataUrl).None?)
      && (TruthyAt(d, DataUrl).None? && TruthyAt(d, DataB64).Some? ==> r == ViaBase64(TruthyAt(d, DataB64).value))
      && (r.NoImage? <==> FirstTruthy(d, [DataUrl, DataB64] + altUrls + altB64s).None?)
  {
    FirstTruthyAppend(d, [DataUrl], altUrls);
    FirstTruthyAppend(d, [DataB64], altB64s);
    FirstTruthyAppend(d, [DataUrl, DataB64] + altUrls, altB64s);
    FirstTruthyAppend(d, [DataUrl, DataB64], altUrls);
    FirstTruthyAppend(d, [DataUrl], [DataB64]);
    assert [DataUrl, DataB64] == [DataUrl] + [DataB64];
  }

  /** Whenever GPT's chain finds a URL, Infip's longer chain finds the same URL. */
  lemma InfipExtendsGpt(d: Json)
    ensures GptFound(d).ViaUrl? ==> InfipFound(d) == GptFound(d)
    ensures GptFound(d).NoImage? ==> InfipFound(d).NoImage? || TruthyAt(d, TopImage).Some? || TruthyAt(d, TopB64Json).Some?
  {
    FirstTruthyAppend(d, GptAltUrls, [TopImage]);
    FirstTruthyAppend(d, GptAltBase64, [TopB64Json]);
  }

  // ---------------------------------------------------------------------------
  // Imagen 4 (server/controllers/Imagen4ThumbnailController.ts)

  const Imagen4Urls: seq<Path> := [DataUrl, TopUrl, ImageUrl, ImagesUrl, PredictionsImageUrl, ResultUrl]
  const Imagen4Base64: seq<Path> := [DataB64, ImageBase64, PredictionsBytes]

  /** The first truthy value of an `if / else if` chain over `paths`, written as that chain. */
  function IfElseChain(d: Json, paths: seq<Path>): Option<Json>
    decreases |paths|
  {
    if |paths| == 0 then None
    else if TruthyAt(d, paths[0]).Some? then TruthyAt(d, paths[0])
    else IfElseChain(d, paths[1..])
  }

  /** Both Imagen 4 chains are computed; a URL is used in preference to base64. */
  function Imagen4Found(d: Json): Found
  {
    var url := IfElseChain(d, Imagen4Urls);
    var data := IfElseChain(d, Imagen4Base64);
    if url.Some? then ViaUrl(url.value)
    else if data.Some? then ViaBase64(data.value)
    else NoImage
  }

  /** An `if / else if` chain picks the same value as the `||` chain over the same paths. */
  lemma {:induction false} IfElseChainIsFirstTruthy(d: Json, paths: seq<Path>)
    ensures IfElseChain(d, paths) == FirstTruthy(d, paths)
    decreases |paths|
  {
    if |paths| > 0 {
      IfElseChainIsFirstTruthy(d, paths[1..]);
      FirstTruthyAppend(d, [paths[0]], paths[1..]);
      assert paths == [paths[0]] + paths[1..];
    }
  }

  /** Imagen 4's precedence: the six URL paths in order, then the three base64 paths. */
  lemma Imagen4Precedence(d: Json)
    ensures Imagen4Found(d) == UrlThenBase64(d, Imagen4Urls, Imagen4Base64)
  {
    IfElseChainIsFirstTruthy(d, Imagen4Urls);
    IfElseChainIsFirstTruthy(d, Imagen4Base64);
  }

  // ---------------------------------------------------------------------------
  // Gemini inline data (Gemini Flash and the direct Gemini fallbacks)

  /** Scanning `for (const part of parts)` for the first part whose `inlineData` is truthy. */
  datatype Scan = ScanRaised | ScanNone | ScanFound(inline: Json)

  /** Part `i` is the first one carrying `inlineData`, which is `w`, and no part before it is `null`. */
  ghost predicate FirstInlineAt(items: seq<Json>, i: int, w: Json)
  {
    && 0 <= i < |items|
    && Lookup(items[i], InlineData) == Some(w)
    && forall j :: 0 <= j < i ==> !items[j].JNull? && TruthyAt(items[j], InlineData).None?
  }

  /** A `null` part raises when its `inlineData` is read; other parts without it are skipped. */
  function ScanItems(items: seq<Json>): (r: Scan)
    ensures r.ScanFound? ==> Truthy(r.inline) && exists i :: FirstInlineAt(items, i, r.inline)
    ensures r.ScanNone? <==> forall i :: 0 <= i < |items| ==> !items[i].JNull? && TruthyAt(items[i], InlineData).None?
    decreases |items|
  {
    if |items| == 0 then ScanNone
    else if items[0].JNull? then ScanRaised
    else
      match TruthyAt(items[0], InlineData)
      case Some(w) =>
        assert FirstInlineAt(items, 0, w);
        ScanFound(w)
      case None =>
        var rest := ScanItems(items[1..]);
        assert rest.ScanFound? ==> exists i :: FirstInlineAt(items, i, rest.inline) by {
          if rest.ScanFound? {
            var i :| FirstInlineAt(items[1..], i, rest.inline);
            assert FirstInlineAt(items, i + 1, rest.inline);
          }
        }
        rest
  }

  /**
   * Iterating a truthy `parts` value: an array is scanned item by item, a
   * string iterates characters that never carry `inlineData`, and any other
   * value is not iterable and raises.
   */
  function ScanParts(parts: Json): (r: Scan)
    ensures parts.JArr? ==> r == ScanItems(parts.items)
    ensures parts.JStr? ==> r == ScanNone
    ensures parts.JObj? || parts.JNum? || parts.JBool? ==> r == ScanRaised
  {
    match parts
    case JArr(items) => ScanItems(items)
    case JStr(_) => ScanNone
    case _ => ScanRaised
  }

  const FlashUrls: seq<Path> := [DataUrl, TopUrl, ImageUrl, ImagesUrl, ResultUrl]
  const FlashBase64: seq<Path> := [DataB64, ImageBase64, TopBase64]

  /** The truthy `inlineData.data` of the first part carrying `inlineData`, when the scan does not raise. */
  function FlashInline(d: Json): Option<Json>
  {
    match TruthyAt(d, CandidateParts)
    case None => None
    case Some(parts) =>
      match ScanParts(parts)
      case ScanFound(inline) => TruthyAt(inline, DataField)
      case _ => None
  }

  /** Iterating the truthy `parts` raises: a `null` part, or a value that is not iterable. */
  predicate FlashScanRaises(d: Json)
  {
    TruthyAt(d, CandidateParts).Some? && ScanParts(TruthyAt(d, CandidateParts).value).ScanRaised?
  }

  /**
   * Gemini Flash: inline data first, then the URL chain, then the base64
   * chain. Unlike the TypeScript controllers, inline data beats every URL
   * path. A scan that raises ends the configuration exactly like finding
   * nothing, so both give `NoImage`.
   */
  function FlashFound(d: Json): (r: Found)
    ensures FlashScanRaises(d) ==> r == NoImage
    ensures FlashInline(d).Some? ==> r == ViaBase64(FlashInline(d).value)
    ensures r.ViaUrl? ==> FlashInline(d).None? && Some(r.url) == FirstTruthy(d, FlashUrls)
    ensures r.ViaBase64? && FlashInline(d).None? ==>
              FirstTruthy(d, FlashUrls).None? && Some(r.payload) == FirstTruthy(d, FlashBase64)
    ensures !FlashScanRaises(d) && FlashInline(d).None? && FirstTruthy(d, FlashUrls).Some? ==>
              r == ViaUrl(FirstTruthy(d, FlashUrls).value)
    ensures !FlashScanRaises(d) && FlashInline(d).None? && FirstTruthy(d, FlashUrls).None? && FirstTruthy(d, FlashBase64).Some? ==>
              r == ViaBase64(FirstTruthy(d, FlashBase64).value)
    ensures r.NoImage? <==>
              FlashScanRaises(d)
              || (FlashInline(d).None? && FirstTruthy(d, FlashUrls).None? && FirstTruthy(d, FlashBase64).None?)
  {
    if FlashScanRaises(d) then NoImage
    else if FlashInline(d).Some? then ViaBase64(FlashInline(d).value)
    else UrlThenBase64(d, FlashUrls, FlashBase64)
  }

  // ---------------------------------------------------------------------------
  // Universal provider and the single-URL providers

  const UniversalPaths: seq<Path> := [DataUrl, TopUrl, ImageUrl, ImagesUrl, CandidateFirstInline]
  const ImagenUrls: seq<Path> := [DataUrl, TopUrl, ImageUrl, ImagesUrl]
  const GeminiProviderUrls: seq<Path> := [DataUrl, TopUrl]

  /**
   * Universal provider: one `||` chain mixes URLs with an inline-data object.
   * A string is a URL; any other value is base64 only through a truthy `.data`.
   */
  function UniversalFound(d: Json): (r: Found)
    ensures r.ViaUrl? ==> r.url.JStr? && Some(r.url) == FirstTruthy(d, UniversalPaths)
    ensures r.ViaBase64? ==> exists v :: Some(v) == FirstTruthy(d, UniversalPaths) && !v.JStr? && TruthyAt(v, DataField) == Some(r.payload)
    ensures FirstTruthy(d, UniversalPaths).Some? && FirstTruthy(d, UniversalPaths).value.JStr? ==>
              r == ViaUrl(FirstTruthy(d, UniversalPaths).value)
    ensures FirstTruthy(d, UniversalPaths).Some? && !FirstTruthy(d, UniversalPaths).value.JStr? &&
            TruthyAt(FirstTruthy(d, UniversalPaths).value, DataField).Some? ==>
              r == ViaBase64(TruthyAt(FirstTruthy(d, UniversalPaths).value, DataField).value)
    ensures r.NoImage? <==>
              FirstTruthy(d, UniversalPaths).None?
              || (!FirstTruthy(d, UniversalPaths).value.JStr? && TruthyAt(FirstTruthy(d, UniversalPaths).value, DataField).None?)
  {
    match FirstTruthy(d, UniversalPaths)
    case None => NoImage
    case Some(v) =>
      if v.JStr? then ViaUrl(v)
      else
        match TruthyAt(v, DataField)
        case Some(p) => ViaBase64(p)
        case None => NoImage
  }

}
