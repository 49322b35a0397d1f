/**
 * The image-producing layer of every generation controller: configuration
 * loops, endpoint loops, direct-SDK fallbacks and Pollinations fallbacks.
 * Each is a pure function of the outcomes the outside world produced; an
 * exception is an `Err` carrying its message.
 */
module Providers {
  import opened Wrappers
  import opened Strs
  import Chains
  import opened JsonData
  import opened Outcomes
  import opened Extraction
  import Dims
  import Requests
  import Prompts

  /** `catch (error) { throw new Error(prefix + error.message) }` around a step. */
  function Wrap<T>(prefix: string, r: Result<T>): (w: Result<T>)
    ensures w.Ok? <==> r.Ok?
    ensures r.Ok? ==> w == r
    ensures r.Err? ==> w.error == prefix + r.error
  {
    match r
    case Ok(_) => r
    case Err(m) => Err(prefix + m)
  }

  // ---------------------------------------------------------------------------
  // Configuration loops (Qwen, GPT Image, Infip, Imagen 4, Gemini Flash)

  /**
   * One configuration: the call must answer 200 or 201; the extraction's
   * finding is then turned into bytes. Every other outcome, thrown or not,
   * moves on to the next configuration.
   */
  function ConfigAttempt(found: Json -> Found, o: ConfigOutcome): (r: Option<Bytes>)
    ensures r.Some? ==> o.reply.ApiAnswered? && Accepted(o.reply.status) && !found(o.reply.data).NoImage?
    ensures o.reply.ApiAnswered? && Accepted(o.reply.status) ==> r == UseFound(found(o.reply.data), o.download)
  {
    match o.reply
    case ApiThrew(_) => None
    case ApiAnswered(status, data) => if Accepted(status) then UseFound(found(data), o.download) else None
  }

  /**
   * The `for` loop over the configurations: the bytes of the first one that
   * succeeds, or the loop's own "all failed" message when none does.
   */
  function ConfigLoop(found: Json -> Found, outcomes: seq<ConfigOutcome>, exhausted: string): (r: Result<Bytes>)
    ensures r.Err? <==> forall i :: 0 <= i < |outcomes| ==> ConfigAttempt(found, outcomes[i]).None?
    ensures r.Err? ==> r.error == exhausted
    ensures r.Ok? ==> exists i :: 0 <= i < |outcomes| && ConfigAttempt(found, outcomes[i]) == Some(r.value) &&
                        forall j :: 0 <= j < i ==> ConfigAttempt(found, outcomes[j]).None?
  {
    var attempt := (o: ConfigOutcome) => ConfigAttempt(found, o);
    match Chains.FirstSome(outcomes, attempt)
    case Some(b) =>
      assert exists i :: 0 <= i < |outcomes| && ConfigAttempt(found, outcomes[i]) == Some(b) &&
                         forall j :: 0 <= j < i ==> ConfigAttempt(found, outcomes[j]).None? by {
        var i :| 0 <= i < |outcomes| && attempt(outcomes[i]) == Some(b) && Chains.IsFirst(outcomes, attempt, i);
      }
      Ok(b)
    case None => Err(exhausted)
  }

  /** A failed configuration ahead of the others changes nothing; a successful one decides. */
  lemma ConfigLoopFirstDecides(found: Json -> Found, o: ConfigOutcome, rest: seq<ConfigOutcome>, exhausted: string)
    ensures ConfigAttempt(found, o).None? ==> ConfigLoop(found, [o] + rest, exhausted) == ConfigLoop(found, rest, exhausted)
    ensures ConfigAttempt(found, o).Some? ==> ConfigLoop(found, [o] + rest, exhausted) == Ok(ConfigAttempt(found, o).value)
  {
    var attempt := (c: ConfigOutcome) => ConfigAttempt(found, c);
    Chains.FirstSomeAppend([o], rest, attempt);
  }

  /** The static description of one configuration-loop controller. */
  datatype Configs = Configs(found: Json -> Found, count: nat, exhausted: string, wrap: string)

  const QwenConfigs := Configs(QwenFound, 6, "All Qwen Image API configurations failed", "Qwen generation failed: ")
  const GptConfigs := Configs(GptFound, 6, "All GPT Image 1.5 API configurations failed", "GPT Image generation failed: ")
  const InfipConfigs := Configs(InfipFound, 6, "All Infip API configurations failed", "Infip generation failed: ")
  const Imagen4Configs := Configs(Imagen4Found, 4, "All Imagen 4 API configurations failed", "Imagen 4 generation failed: ")
  const FlashConfigs := Configs(FlashFound, 5, "All Gemini 2.5 Flash Image API configurations failed", "Gemini Flash generation failed: ")

  /**
   * The provider function of a configuration-loop controller: the loop with
   * its exhaustion error rethrown under the controller's prefix, which is the
   * only error it can raise.
   */
  function Primary(c: Configs, outcomes: seq<ConfigOutcome>): (r: Result<Bytes>)
    requires |outcomes| == c.count
    ensures r.Err? <==> forall i :: 0 <= i < c.count ==> ConfigAttempt(c.found, outcomes[i]).None?
    ensures r.Err? ==> r.error == c.wrap + c.exhausted
    ensures r.Ok? ==> r == ConfigLoop(c.found, outcomes, c.exhausted)
  {
    Wrap(c.wrap, ConfigLoop(c.found, outcomes, c.exhausted))
  }

  // ---------------------------------------------------------------------------
  // Pollinations fallbacks

  const PollinationsBase: string := "https://image.pollinations.ai/prompt/"

  /** `https://image.pollinations.ai/prompt/${encoded}?width=${w}&height=${h}` followed by the query parameters. */
  function PollinationsUrl(encoded: string, size: Dims.Dims, params: string): string
  {
    PollinationsBase + encoded + "?width=" + NatToString(size.width) + "&height=" + NatToString(size.height) + params
  }

  /** Equal texts with a common head agree after it. */
  lemma CancelHead(head: string, u: string, v: string)
    requires head + u == head + v
    ensures u == v
  {
    assert u == (head + u)[|head|..];
    assert v == (head + v)[|head|..];
  }

  /** Equal texts with a common tail agree before it. */
  lemma CancelTail(u: string, v: string, tail: string)
    requires u + tail == v + tail
    ensures u == v
  {
    assert u == (u + tail)[..|u|];
    assert v == (v + tail)[..|v|];
  }

  /**
   * Text of the shape `head` + digits + `sep` + digits + `tail`, with `sep`
   * starting with a non-digit, spells its two digit strings unambiguously.
   */
  lemma DigitPairInjective(head: string, sep: string, tail: string, a1: string, b1: string, a2: string, b2: string)
    requires AllDigits(a1) && AllDigits(b1) && AllDigits(a2) && AllDigits(b2)
    requires |sep| > 0 && !IsDigit(sep[0])
    requires head + a1 + sep + b1 + tail == head + a2 + sep + b2 + tail
    ensures a1 == a2 && b1 == b2
  {
    var x1, x2 := sep + b1 + tail, sep + b2 + tail;
    assert head + a1 + sep + b1 + tail == head + (a1 + x1);
    assert head + a2 + sep + b2 + tail == head + (a2 + x2);
    CancelHead(head, a1 + x1, a2 + x2);
    DigitsCancel(a1, x1, a2, x2);
    assert x1 == sep + (b1 + tail) && x2 == sep + (b2 + tail);
    CancelHead(sep, b1 + tail, b2 + tail);
    CancelTail(b1, b2, tail);
  }

  /** Two Pollinations URLs built from the same prompt and parameters differ whenever the sizes differ. */
  lemma PollinationsUrlFixesSize(encoded: string, s1: Dims.Dims, s2: Dims.Dims, params: string)
    ensures PollinationsUrl(encoded, s1, params) == PollinationsUrl(encoded, s2, params) ==> s1 == s2
  {
    if PollinationsUrl(encoded, s1, params) == PollinationsUrl(encoded, s2, params) {
      DigitPairInjective(PollinationsBase + encoded + "?width=", "&height=", params,
                         NatToString(s1.width), NatToString(s1.height), NatToString(s2.width), NatToString(s2.height));
      NatToStringInjective(s1.width, s2.width);
      NatToStringInjective(s1.height, s2.height);
    }
  }

  /**
   * One controller's Pollinations fallback: the text appended to the prompt
   * before encoding, the size table, the query parameters after the size,
   * whether `Date.now()` is appended as the seed, the message for a non-200
   * answer and the prefix the fallback's `catch` adds.
   */
  datatype PollSpec = PollSpec(enhancement: string, table: Dims.Table, params: string, seeded: bool,
                               failed: string, wrap: string)

  const QualityTerms: string := ", masterpiece, best quality, ultra detailed, professional photography, award winning, trending on artstation"
  const FluxUltraSeed: string := "&model=flux&enhance=true&nologo=true&quality=ultra&seed="
  const FluxSeed: string := "&model=flux&enhance=true&nologo=true&seed="
  const PollinationsFailed: string := "Pollinations failed: "

  const QwenPoll := PollSpec(QualityTerms, Dims.Qwen, FluxUltraSeed, true, PollinationsFailed, "Qwen fallback failed: ")
  const GptPoll := PollSpec(QualityTerms + ", photorealistic", Dims.Landscape1792, FluxUltraSeed, true,
                            PollinationsFailed, "GPT Image fallback failed: ")
  const InfipPoll := PollSpec(QualityTerms + ", photorealistic, premium quality", Dims.Landscape1792, FluxUltraSeed, true,
                              PollinationsFailed, "Infip fallback failed: ")
  const Imagen4Poll := PollSpec("", Dims.Imagen4, FluxUltraSeed, true, PollinationsFailed, "Fallback generation failed: ")
  const FlashPoll := PollSpec("", Dims.Hd720, FluxSeed, true, PollinationsFailed, "Final fallback failed: ")
  const UniversalPoll := PollSpec("", Dims.Hd720, FluxSeed, true, PollinationsFailed, "Fallback generation failed: ")
  const ClaudePoll := PollSpec("", Dims.Claude, "&model=flux&enhance=true&nologo=true", false,
                               "Failed to generate image: ", "Image generation failed: ")

  /** The URL a fallback requests; `enc` is `encodeURIComponent` and `seed` the value of `Date.now()`. */
  function PollUrl(s: PollSpec, prompt: string, ar: Option<string>, seed: nat, enc: string -> string): string
  {
    PollinationsUrl(enc(prompt + s.enhancement), Dims.Pick(s.table, ar),
                    s.params + (if s.seeded then NatToString(seed) else ""))
  }

  /**
   * The fallback's single download (`net` answers each URL): the bytes of a
   * 200 answer; otherwise the failure, rethrown under the fallback's prefix.
   * axios rejects an answer outside 2xx with its own message, so the
   * controller's `failed` message is only reached by a 2xx other than 200.
   */
  function Pollinations(s: PollSpec, prompt: string, ar: Option<string>, seed: nat, enc: string -> string,
                        net: string -> Fetch): (r: Result<Bytes>)
    ensures var f := net(PollUrl(s, prompt, ar, seed, enc));
      && (r.Ok? <==> f.FetchAnswered? && f.status == 200)
      && (r.Ok? ==> r.value == Raw(f.body))
      && (f.FetchThrew? ==> r == Err(s.wrap + f.message))
      && (f.FetchAnswered? && !Resolves(f.status) ==> r == Err(s.wrap + Rejection(f.status)))
      && (f.FetchAnswered? && Resolves(f.status) && f.status != 200 ==> r == Err(s.wrap + s.failed + NatToString(f.status)))
  {
    var inner :=
      match Got(net(PollUrl(s, prompt, ar, seed, enc)))
      case FetchThrew(m) => Err(m)
      case FetchAnswered(status, body) =>
        if status == 200 then Ok(Raw(body)) else Err(s.failed + NatToString(status));
    Wrap(s.wrap, inner)
  }

  /** The bytes an image handler continues with, and the provider name it reports. */
  datatype Generated = Generated(bytes: Bytes, provider: string)

  /**
   * `try { primary } catch { fallback }` in a handler: the primary's error is
   * swallowed, the fallback's error propagates, and the provider name says
   * which of the two produced the bytes.
   */
  function WithFallback(primary: Result<Bytes>, primaryName: string, fallback: Result<Bytes>, fallbackName: string): (r: Result<Generated>)
    ensures r.Ok? <==> primary.Ok? || fallback.Ok?
    ensures primary.Ok? ==> r == Ok(Generated(primary.value, primaryName))
    ensures primary.Err? && fallback.Ok? ==> r == Ok(Generated(fallback.value, fallbackName))
    ensures r.Err? ==> r.error == fallback.error
  {
    match primary
    case Ok(b) => Ok(Generated(b, primaryName))
    case Err(_) =>
      match fallback
      case Ok(b) => Ok(Generated(b, fallbackName))
      case Err(m) => Err(m)
  }

  /** A configuration-loop controller followed by its Pollinations fallback. */
  function ConfigThenPollinations(c: Configs, primaryName: string, s: PollSpec, fallbackName: string,
                                  prompt: string, ar: Option<string>, outcomes: seq<ConfigOutcome>,
                                  seed: nat, enc: string -> string, net: string -> Fetch): (r: Result<Generated>)
    requires |outcomes| == c.count
    ensures r.Ok? && r.value.provider == primaryName && primaryName != fallbackName ==> Primary(c, outcomes).Ok?
    ensures Primary(c, outcomes).Ok? ==> r == Ok(Generated(Primary(c, outcomes).value, primaryName))
    ensures Primary(c, outcomes).Err? ==>
              r == (match Pollinations(s, prompt, ar, seed, enc, net)
                    case Ok(b) => Ok(Generated(b, fallbackName))
                    case Err(m) => Err(m))
  {
    WithFallback(Primary(c, outcomes), primaryName, Pollinations(s, prompt, ar, seed, enc, net), fallbackName)
  }

  const QwenLabel: string := "Qwen Image"
  const QwenFallbackLabel: string := "Enhanced Pollinations (Qwen Fallback)"
  const GptLabel: string := "GPT Image 1.5"
  const GptFallbackLabel: string := "Enhanced Pollinations (GPT Image Fallback)"
  const InfipLabel: string := "Infip"
  const InfipFallbackLabel: string := "Enhanced Pollinations (Infip Fallback)"
  const Imagen4Label: string := "Google Imagen 4"
  const Imagen4FallbackLabel: string := "Enhanced Pollinations (Imagen 4 Fallback)"

  /**
   * Qwen: six configurations, then Pollinations at the Qwen sizes; the
   * fallback label appears exactly when every configuration failed and the
   * fallback answered 200.
   */
  function QwenGenerate(prompt: string, ar: Option<string>, outcomes: seq<ConfigOutcome>, seed: nat,
                        enc: string -> string, net: string -> Fetch): (r: Result<Generated>)
    requires |outcomes| == 6
    ensures (r.Ok? && r.value.provider == QwenFallbackLabel) <==>
              (forall i :: 0 <= i < 6 ==> ConfigAttempt(QwenFound, outcomes[i]).None?) &&
              Pollinations(QwenPoll, prompt, ar, seed, enc, net).Ok?
    ensures Primary(QwenConfigs, outcomes).Ok? ==> r == Ok(Generated(Primary(QwenConfigs, outcomes).value, QwenLabel))
    ensures Primary(QwenConfigs, outcomes).Err? && Pollinations(QwenPoll, prompt, ar, seed, enc, net).Ok? ==>
              r == Ok(Generated(Pollinations(QwenPoll, prompt, ar, seed, enc, net).value, QwenFallbackLabel))
    ensures r.Err? <==> Primary(QwenConfigs, outcomes).Err? && Pollinations(QwenPoll, prompt, ar, seed, enc, net).Err?
    ensures r.Err? ==> r.error == Pollinations(QwenPoll, prompt, ar, seed, enc, net).error
    ensures r.Err? ==> IsPrefix(QwenPoll.wrap, r.error)
  {
    ConfigThenPollinations(QwenConfigs, QwenLabel, QwenPoll, QwenFallbackLabel, prompt, ar, outcomes, seed, enc, net)
  }

  /** GPT Image: six configurations, then Pollinations at the 1792-wide sizes. */
  function GptGenerate(prompt: string, ar: Option<string>, outcomes: seq<ConfigOutcome>, seed: nat,
                       enc: string -> string, net: string -> Fetch): (r: Result<Generated>)
    requires |outcomes| == 6
    ensures (r.Ok? && r.value.provider == GptFallbackLabel) <==>
              (forall i :: 0 <= i < 6 ==> ConfigAttempt(GptFound, outcomes[i]).None?) &&
              Pollinations(GptPoll, prompt, ar, seed, enc, net).Ok?
    ensures Primary(GptConfigs, outcomes).Ok? ==> r == Ok(Generated(Primary(GptConfigs, outcomes).value, GptLabel))
    ensures Primary(GptConfigs, outcomes).Err? && Pollinations(GptPoll, prompt, ar, seed, enc, net).Ok? ==>
              r == Ok(Generated(Pollinations(GptPoll, prompt, ar, seed, enc, net).value, GptFallbackLabel))
    ensures r.Err? <==> Primary(GptConfigs, outcomes).Err? && Pollinations(GptPoll, prompt, ar, seed, enc, net).Err?
    ensures r.Err? ==> r.error == Pollinations(GptPoll, prompt, ar, seed, enc, net).error
    ensures r.Err? ==> IsPrefix(GptPoll.wrap, r.error)
  {
    ConfigThenPollinations(GptConfigs, GptLabel, GptPoll, GptFallbackLabel, prompt, ar, outcomes, seed, enc, net)
  }

  /** Infip: six configurations, then Pollinations at the 1792-wide sizes. */
  function InfipGenerate(prompt: string, ar: Option<string>, outcomes: seq<ConfigOutcome>, seed: nat,
                         enc: string -> string, net: string -> Fetch): (r: Result<Generated>)
    requires |outcomes| == 6
    ensures (r.Ok? && r.value.provider == InfipFallbackLabel) <==>
              (forall i :: 0 <= i < 6 ==> ConfigAttempt(InfipFound, outcomes[i]).None?) &&
              Pollinations(InfipPoll, prompt, ar, seed, enc, net).Ok?
    ensures Primary(InfipConfigs, outcomes).Ok? ==> r == Ok(Generated(Primary(InfipConfigs, outcomes).value, InfipLabel))
    ensures Primary(InfipConfigs, outcomes).Err? && Pollinations(InfipPoll, prompt, ar, seed, enc, net).Ok? ==>
              r == Ok(Generated(Pollinations(InfipPoll, prompt, ar, seed, enc, net).value, InfipFallbackLabel))
    ensures r.Err? <==> Primary(InfipConfigs, outcomes).Err? && Pollinations(InfipPoll, prompt, ar, seed, enc, net).Err?
    ensures r.Err? ==> r.error == Pollinations(InfipPoll, prompt, ar, seed, enc, net).error
    ensures r.Err? ==> IsPrefix(InfipPoll.wrap, r.error)
  {
    ConfigThenPollinations(InfipConfigs, InfipLabel, InfipPoll, InfipFallbackLabel, prompt, ar, outcomes, seed, enc, net)
  }

  /** Imagen 4: four configurations, then Pollinations on the raw prompt at the Imagen 4 sizes. */
  function Imagen4Generate(prompt: string, ar: Option<string>, outcomes: seq<ConfigOutcome>, seed: nat,
                           enc: string -> string, net: string -> Fetch): (r: Result<Generated>)
    requires |outcomes| == 4
    ensures (r.Ok? && r.value.provider == Imagen4FallbackLabel) <==>
              (forall i :: 0 <= i < 4 ==> ConfigAttempt(Imagen4Found, outcomes[i]).None?) &&
              Pollinations(Imagen4Poll, prompt, ar, seed, enc, net).Ok?
    ensures Primary(Imagen4Configs, outcomes).Ok? ==> r == Ok(Generated(Primary(Imagen4Configs, outcomes).value, Imagen4Label))
    ensures Primary(Imagen4Configs, outcomes).Err? && Pollinations(Imagen4Poll, prompt, ar, seed, enc, net).Ok? ==>
              r == Ok(Generated(Pollinations(Imagen4Poll, prompt, ar, seed, enc, net).value, Imagen4FallbackLabel))
    ensures r.Err? <==> Primary(Imagen4Configs, outcomes).Err? && Pollinations(Imagen4Poll, prompt, ar, seed, enc, net).Err?
    ensures r.Err? ==> r.error == Pollinations(Imagen4Poll, prompt, ar, seed, enc, net).error
    ensures r.Err? ==> IsPrefix(Imagen4Poll.wrap, r.error)
  {
    ConfigThenPollinations(Imagen4Configs, Imagen4Label, Imagen4Poll, Imagen4FallbackLabel, prompt, ar, outcomes, seed, enc, net)
  }

  // ---------------------------------------------------------------------------
  // Direct Gemini (the SDK fallback of the Gemini provider and Gemini Flash)

  /** `parts` is the truthy parts list of `resp` and the first inline part's `data` decodes to `b`. */
  ghost predicate DecodedInline(resp: Json, parts: Json, b: Bytes)
  {
    && TruthyAt(resp, CandidateParts) == Some(parts)
    && ScanParts(parts).ScanFound?
    && Lookup(ScanParts(parts).inline, DataField).Some?
    && Decode(Lookup(ScanParts(parts).inline, DataField).value) == Some(b)
  }

  /**
   * `response.candidates?.[0]?.content?.parts`, then the first part with
   * `inlineData`, whose `data` is base64-decoded. A `null` response, a `null`
   * part, a non-iterable `parts` and a payload that is not a string raise.
   */
  function DirectGemini(sdk: SdkReply, noParts: string, noInline: string, wrap: string): (r: Result<Bytes>)
    ensures r.Err? ==> IsPrefix(wrap, r.error)
    ensures sdk.Err? ==> r == Err(wrap + sdk.error)
    ensures r.Ok? ==> sdk.Ok? && (exists parts :: DecodedInline(sdk.value, parts, r.value))
    ensures forall parts, b :: sdk.Ok? && DecodedInline(sdk.value, parts, b) ==> r == Ok(b)
    ensures sdk.Ok? && !sdk.value.JNull? && TruthyAt(sdk.value, CandidateParts).None? ==> r == Err(wrap + noParts)
    ensures sdk.Ok? && !sdk.value.JNull? && TruthyAt(sdk.value, CandidateParts).Some? &&
            ScanParts(TruthyAt(sdk.value, CandidateParts).value).ScanNone? ==>
              r == Err(wrap + noInline)
  {
    var inner :=
      match sdk
      case Err(m) => Err(m)
      case Ok(resp) =>
        if resp.JNull? then Err(RuntimeTypeError)
        else
          match TruthyAt(resp, CandidateParts)
          case None => Err(noParts)
          case Some(parts) =>
            match ScanParts(parts)
            case ScanRaised => Err(RuntimeTypeError)
            case ScanNone => Err(noInline)
            case ScanFound(inline) =>
              match Lookup(inline, DataField)
              case None => Err(RuntimeTypeError)
              case Some(payload) =>
                match Decode(payload)
                case Some(b) =>
                  assert DecodedInline(resp, parts, b);
                  Ok(b)
                case None => Err(RuntimeTypeError);
    Wrap(wrap, inner)
  }

  // ---------------------------------------------------------------------------
  // Gemini provider (server/dist/controllers/GeminiProviderThumbnailController.js)

  /**
   * The provider call: it must answer exactly 200, name a URL at `data[0].url`
   * or `url`, and that URL must download with 200. Its error messages are
   * never seen: every failure goes on to direct Gemini.
   */
  function ProviderAttempt(reply: ApiReply, download: Fetch): (r: Option<Bytes>)
    ensures r.Some? ==> reply.ApiAnswered? && reply.status == 200 && FirstTruthy(reply.data, GeminiProviderUrls).Some?
    ensures reply.ApiAnswered? && reply.status == 200 && FirstTruthy(reply.data, GeminiProviderUrls).Some? ==>
              r == Downloaded(download)
    ensures r.Some? <==> reply.ApiAnswered? && reply.status == 200 && FirstTruthy(reply.data, GeminiProviderUrls).Some?
                         && download.FetchAnswered? && download.status == 200
  {
    match reply
    case ApiThrew(_) => None
    case ApiAnswered(status, data) =>
      if status != 200 then None
      else if FirstTruthy(data, GeminiProviderUrls).None? then None
      else Downloaded(download)
  }

  const ProviderLabel: string := "Gemini 2.5 Flash Image Preview (Provider)"
  const AllMethodsFailed: string := "All image generation methods failed: "

  /** The Gemini provider's generation: the provider call, else direct Gemini. */
  function GeminiProviderGenerate(reply: ApiReply, download: Fetch, sdk: SdkReply): (r: Result<Bytes>)
    ensures ProviderAttempt(reply, download).Some? ==> r == Ok(ProviderAttempt(reply, download).value)
    ensures ProviderAttempt(reply, download).None? ==>
              r == DirectGemini(sdk, "No image data received from Gemini", "No image data found in Gemini response", AllMethodsFailed)
    ensures r.Err? ==> IsPrefix(AllMethodsFailed, r.error)
  {
    match ProviderAttempt(reply, download)
    case Some(b) => Ok(b)
    case None => DirectGemini(sdk, "No image data received from Gemini", "No image data found in Gemini response", AllMethodsFailed)
  }

  // ---------------------------------------------------------------------------
  // Gemini Flash (server/dist/controllers/GeminiFlashImageController.js)

  const FlashLabel: string := "Gemini 2.5 Flash Image"
  const DirectLabel: string := "Direct Gemini 2.5 Flash Image"
  const FlashFallbackLabel: string := "Pollinations (Gemini Fallback)"

  const DirectFailed: string := "Direct Gemini failed: "

  /**
   * The direct-Gemini tier of Gemini Flash, with its own messages and prefix:
   * the first inline part's bytes when they decode, else an error under
   * `Direct Gemini failed: `.
   */
  function FlashDirect(sdk: SdkReply): (r: Result<Bytes>)
    ensures r.Err? ==> IsPrefix(DirectFailed, r.error)
    ensures sdk.Err? ==> r == Err(DirectFailed + sdk.error)
    ensures forall parts, b :: sdk.Ok? && DecodedInline(sdk.value, parts, b) ==> r == Ok(b)
    ensures r.Ok? ==> sdk.Ok? && (exists parts :: DecodedInline(sdk.value, parts, r.value))
  {
    DirectGemini(sdk, "No image data received from direct Gemini", "No image data found in direct Gemini response", DirectFailed)
  }

  /**
   * Three tiers, each tried only when the one before it raised: the five
   * configurations, direct Gemini, then Pollinations, whose error is the
   * only one that propagates.
   */
  function FlashGenerate(prompt: string, ar: Option<string>, outcomes: seq<ConfigOutcome>, sdk: SdkReply,
                         seed: nat, enc: string -> string, net: string -> Fetch): (r: Result<Generated>)
    requires |outcomes| == 5
    ensures Primary(FlashConfigs, outcomes).Ok? ==> r == Ok(Generated(Primary(FlashConfigs, outcomes).value, FlashLabel))
    ensures (r.Ok? && r.value.provider == DirectLabel) <==>
              Primary(FlashConfigs, outcomes).Err? && FlashDirect(sdk).Ok?
    ensures (r.Ok? && r.value.provider == FlashFallbackLabel) <==>
              Primary(FlashConfigs, outcomes).Err? && FlashDirect(sdk).Err? &&
              Pollinations(FlashPoll, prompt, ar, seed, enc, net).Ok?
    ensures Primary(FlashConfigs, outcomes).Err? && FlashDirect(sdk).Ok? ==>
              r == Ok(Generated(FlashDirect(sdk).value, DirectLabel))
    ensures Primary(FlashConfigs, outcomes).Err? && FlashDirect(sdk).Err? &&
            Pollinations(FlashPoll, prompt, ar, seed, enc, net).Ok? ==>
              r == Ok(Generated(Pollinations(FlashPoll, prompt, ar, seed, enc, net).value, FlashFallbackLabel))
    ensures r.Err? <==> Primary(FlashConfigs, outcomes).Err? && FlashDirect(sdk).Err? &&
                        Pollinations(FlashPoll, prompt, ar, seed, enc, net).Err?
    ensures r.Err? ==> r.error == Pollinations(FlashPoll, prompt, ar, seed, enc, net).error
    ensures r.Err? ==> IsPrefix(FlashPoll.wrap, r.error)
  {
    match Primary(FlashConfigs, outcomes)
    case Ok(b) => Ok(Generated(b, FlashLabel))
    case Err(_) =>
      WithFallback(FlashDirect(sdk), DirectLabel, Pollinations(FlashPoll, prompt, ar, seed, enc, net), FlashFallbackLabel)
  }

  // ---------------------------------------------------------------------------
  // Imagen 3.5 (server/controllers/ImagenThumbnailController.ts)

  /** The data of a reply that answered exactly 200, the one that ends the endpoint loop. */
  function Answer200(reply: ApiReply): (r: Option<Json>)
    ensures r.Some? <==> reply.ApiAnswered? && reply.status == 200
    ensures r.Some? ==> r.value == reply.data
  {
    match reply
    case ApiAnswered(status, data) => if status == 200 then Some(data) else None
    case ApiThrew(_) => None
  }

  /** How many endpoints the loop tries: up to and excluding the first 200, or all of them. */
  function StopIndex(replies: seq<ApiReply>): (k: nat)
    ensures k <= |replies|
    ensures forall j :: 0 <= j < k ==> Answer200(replies[j]).None?
    ensures k < |replies| ==> Answer200(replies[k]).Some?
    decreases |replies|
  {
    if |replies| == 0 then 0
    else if Answer200(replies[0]).Some? then 0
    else 1 + StopIndex(replies[1..])
  }

  /**
   * The message of the last call that raised, `lastError?.message`; an
   * answer outside 2xx raises axios's rejection.
   */
  function LastThrown(replies: seq<ApiReply>): (r: Option<string>)
    ensures r.Some? <==> exists j :: 0 <= j < |replies| && Posted(replies[j]).ApiThrew?
    ensures |replies| > 0 && Posted(replies[|replies| - 1]).ApiThrew? ==> r == Some(Posted(replies[|replies| - 1]).message)
    decreases |replies|
  {
    if |replies| == 0 then None
    else if Posted(replies[|replies| - 1]).ApiThrew? then Some(Posted(replies[|replies| - 1]).message)
    else
      var rest := LastThrown(replies[..|replies| - 1]);
      assert rest.Some? ==> exists j :: 0 <= j < |replies| && Posted(replies[j]).ApiThrew? by {
        if rest.Some? {
          var j :| 0 <= j < |replies| - 1 && Posted(replies[..|replies| - 1][j]).ApiThrew?;
          assert Posted(replies[j]).ApiThrew?;
        }
      }
      rest
  }

  /**
   * The endpoint loop as written: each answer axios resolves becomes
   * `response`, a 200 ends the loop, and each raise (including axios's
   * rejection of a status outside 2xx) is remembered as `lastError`. The
   * loop ends with a 200 response exactly when some endpoint answered 200,
   * and then it holds the first such answer.
   */
  method EndpointLoop(replies: seq<ApiReply>) returns (response: Option<ApiReply>, lastError: Option<string>)
    ensures (response.Some? && response.value.ApiAnswered? && response.value.status == 200) <==>
              Chains.FirstSome(replies, Answer200).Some?
    ensures Chains.FirstSome(replies, Answer200).Some? ==>
              response.value.data == Chains.FirstSome(replies, Answer200).value
    ensures lastError == LastThrown(replies[..StopIndex(replies)])
    ensures response.Some? ==> response.value.ApiAnswered? && Resolves(response.value.status)
  {
    response := None;
    lastError := None;
    var i := 0;
    while i < |replies|
      invariant 0 <= i <= |replies|
      invariant forall j :: 0 <= j < i ==> Answer200(replies[j]).None?
      invariant lastError == LastThrown(replies[..i])
      invariant response.Some? ==> response.value.ApiAnswered? && Resolves(response.value.status) && response.value.status != 200
    {
      assert replies[..i + 1][..i] == replies[..i];
      match Posted(replies[i]) {
        case ApiThrew(m) =>
          lastError := Some(m);
        case ApiAnswered(status, _) =>
          response := Some(replies[i]);
          if status == 200 {
            assert StopIndex(replies) == i;
            break;
          }
      }
      i := i + 1;
    }
    if i == |replies| {
      assert replies[..i] == replies;
    }
  }

  const ImagenWord: string := "Imagen"
  const ImagenMethodsFailed: string := "All " + ImagenWord + " generation methods failed: "

  /**
   * The provider path: the first 200 answer must name a URL and the URL must
   * download with 200. Its own errors are all caught and lead to Vertex AI.
   */
  function ImagenPrimary(replies: seq<ApiReply>, download: Fetch): (r: Option<Bytes>)
    ensures r.Some? ==> exists d :: Chains.FirstSome(replies, Answer200) == Some(d) && FirstTruthy(d, ImagenUrls).Some?
    ensures r.Some? ==> r == Downloaded(download)
    ensures Chains.FirstSome(replies, Answer200).Some? && FirstTruthy(Chains.FirstSome(replies, Answer200).value, ImagenUrls).Some? ==>
              r == Downloaded(download)
    ensures r.Some? <==> Chains.FirstSome(replies, Answer200).Some? &&
                         FirstTruthy(Chains.FirstSome(replies, Answer200).value, ImagenUrls).Some? &&
                         download.FetchAnswered? && download.status == 200
  {
    match Chains.FirstSome(replies, Answer200)
    case None => None
    case Some(d) => if FirstTruthy(d, ImagenUrls).None? then None else Downloaded(download)
  }

  /**
   * The Vertex AI fallback: base64 at `predictions[0].bytesBase64Encoded`, and
   * every failure, axios's rejection of a status outside 2xx included,
   * rethrown as `All Imagen generation methods failed: …`.
   */
  function Vertex(reply: ApiReply): (r: Result<Bytes>)
    ensures r.Err? ==> IsPrefix(ImagenMethodsFailed, r.error)
    ensures r.Ok? <==> reply.ApiAnswered? && Resolves(reply.status) && TruthyAt(reply.data, PredictionsBytes).Some? &&
                       Decode(TruthyAt(reply.data, PredictionsBytes).value).Some?
    ensures r.Ok? ==> Some(r.value) == Decode(TruthyAt(reply.data, PredictionsBytes).value)
    ensures reply.ApiThrew? ==> r == Err(ImagenMethodsFailed + reply.message)
    ensures reply.ApiAnswered? && !Resolves(reply.status) ==> r == Err(ImagenMethodsFailed + Rejection(reply.status))
  {
    var inner :=
      match Posted(reply)
      case ApiThrew(m) => Err(m)
      case ApiAnswered(_, data) =>
        if data.JNull? then Err(RuntimeTypeError)
        else
          match TruthyAt(data, PredictionsBytes)
          case None => Err("No image data in Vertex AI response")
          case Some(p) =>
            match Decode(p)
            case Some(b) => Ok(b)
            case None => Err(RuntimeTypeError);
    Wrap(ImagenMethodsFailed, inner)
  }

  const ImagenLabel: string := "Google Imagen 3.5"

  /**
   * Imagen 3.5's generation: the provider path over three endpoints, else
   * Vertex AI. Every error it raises names Imagen.
   */
  function ImagenGenerate(replies: seq<ApiReply>, download: Fetch, vertex: ApiReply): (r: Result<Bytes>)
    requires |replies| == 3
    ensures ImagenPrimary(replies, download).Some? ==> r == Ok(ImagenPrimary(replies, download).value)
    ensures ImagenPrimary(replies, download).None? ==> r == Vertex(vertex)
    ensures r.Err? ==> IsPrefix(ImagenMethodsFailed, r.error) && Contains(r.error, ImagenWord)
  {
    match ImagenPrimary(replies, download)
    case Some(b) => Ok(b)
    case None =>
      var r := Vertex(vertex);
      if r.Err? then PrefixNamesImagen(r.error); r else r
  }

  /** Every message under the Vertex prefix mentions Imagen. */
  lemma PrefixNamesImagen(e: string)
    requires IsPrefix(ImagenMethodsFailed, e)
    ensures Contains(e, ImagenWord)
  {
    var m := e[|ImagenMethodsFailed|..];
    assert e == ImagenMethodsFailed + m;
    assert e == "All " + ImagenWord + (" generation methods failed: " + m);
    ContainsInfix("All ", ImagenWord, " generation methods failed: " + m);
  }

  // ---------------------------------------------------------------------------
  // Universal provider (server/dist/controllers/UniversalProviderController.js)

  /**
   * One (endpoint, request format) call: only a 200 answer is read. A string
   * finding is downloaded and kept for any status axios lets through, with no
   * status test of its own; an object finding is decoded from its `.data`.
   */
  function UniversalAttempt(o: ConfigOutcome): (r: Option<Bytes>)
    ensures r.Some? ==> o.reply.ApiAnswered? && o.reply.status == 200 && !UniversalFound(o.reply.data).NoImage?
    ensures o.reply.ApiAnswered? && o.reply.status == 200 && UniversalFound(o.reply.data).ViaUrl? ==>
              (r.Some? <==> o.download.FetchAnswered? && Resolves(o.download.status))
    ensures o.reply.ApiAnswered? && o.reply.status == 200 && UniversalFound(o.reply.data).ViaUrl? &&
            o.download.FetchAnswered? && Resolves(o.download.status) ==>
              r == Some(Raw(o.download.body))
    ensures o.reply.ApiAnswered? && o.reply.status == 200 && UniversalFound(o.reply.data).ViaBase64? ==>
              r == Decode(UniversalFound(o.reply.data).payload)
  {
    match o.reply
    case ApiThrew(_) => None
    case ApiAnswered(status, data) =>
      if status != 200 then None
      else
        match UniversalFound(data)
        case ViaUrl(_) =>
          (match Got(o.download)
           case FetchAnswered(_, body) => Some(Raw(body))
           case FetchThrew(_) => None)
        case ViaBase64(p) => Decode(p)
        case NoImage => None
  }

  /** A provider entry: its key and, per endpoint, the outcome of each request format. */
  datatype Provider = Provider(key: Option<string>, endpoints: seq<seq<ConfigOutcome>>)

  /**
   * One provider: skipped when its key is falsy, otherwise the endpoint loop
   * around the format loop, which is one loop over every (endpoint, format)
   * pair in row order.
   */
  function ProviderLoop(p: Provider): (r: Option<Bytes>)
    ensures !Requests.Truthy(p.key) ==> r.None?
    ensures Requests.Truthy(p.key) ==> r == Chains.FirstSome(Chains.Flatten(p.endpoints), UniversalAttempt)
  {
    if !Requests.Truthy(p.key) then None
    else
      Chains.FirstSomeNested(p.endpoints, UniversalAttempt);
      Chains.FirstSome(p.endpoints, (formats: seq<ConfigOutcome>) => Chains.FirstSome(formats, UniversalAttempt))
  }

  /**
   * The three nested loops: providers, then endpoints, then request formats.
   * Nothing is found when no provider has a key, and whatever is found comes
   * from a keyed provider.
   */
  function UniversalLoop(providers: seq<Provider>): (r: Option<Bytes>)
    ensures r.None? <==> forall i :: 0 <= i < |providers| ==> ProviderLoop(providers[i]).None?
    ensures r.Some? ==> exists i :: 0 <= i < |providers| && Requests.Truthy(providers[i].key) && ProviderLoop(providers[i]) == r
    ensures (forall i :: 0 <= i < |providers| ==> !Requests.Truthy(providers[i].key)) ==> r.None?
  {
    Chains.FirstSome(providers, ProviderLoop)
  }

  /**
   * The nested loops try every (endpoint, format) pair of a keyed provider in
   * row order and stop at the first success; a provider without a key is
   * never called.
   */
  lemma UniversalLoopOrder(p: Provider, rest: seq<Provider>)
    ensures !Requests.Truthy(p.key) ==> UniversalLoop([p] + rest) == UniversalLoop(rest)
    ensures Requests.Truthy(p.key) ==>
              UniversalLoop([p] + rest) == Chains.FirstSome(Chains.Flatten(p.endpoints), UniversalAttempt).Or(UniversalLoop(rest))
  {
    Chains.FirstSomeAppend([p], rest, ProviderLoop);
    Chains.FirstSomeNested(p.endpoints, UniversalAttempt);
  }

  const UniversalLabel: string := "Universal Provider (Imagen 3.5 + Fallback)"
  const UniversalWrap: string := "Image generation failed: "

  /**
   * The Universal provider's generation: the single provider `Imagen 3.5`
   * with three endpoints and three request formats each, then Pollinations.
   * A fallback failure is wrapped twice.
   */
  function UniversalGenerate(key: Option<string>, endpoints: seq<seq<ConfigOutcome>>, prompt: string, ar: Option<string>,
                             seed: nat, enc: string -> string, net: string -> Fetch): (r: Result<Bytes>)
    requires |endpoints| == 3 && forall i :: 0 <= i < 3 ==> |endpoints[i]| == 3
    ensures Requests.Truthy(key) && Chains.FirstSome(Chains.Flatten(endpoints), UniversalAttempt).Some? ==>
              r == Ok(Chains.FirstSome(Chains.Flatten(endpoints), UniversalAttempt).value)
    ensures !Requests.Truthy(key) || Chains.FirstSome(Chains.Flatten(endpoints), UniversalAttempt).None? ==>
              r == Wrap(UniversalWrap, Pollinations(UniversalPoll, prompt, ar, seed, enc, net))
    ensures r.Err? ==> IsPrefix(UniversalWrap + UniversalPoll.wrap, r.error)
  {
    UniversalLoopOrder(Provider(key, endpoints), []);
    assert [Provider(key, endpoints)] + [] == [Provider(key, endpoints)];
    match UniversalLoop([Provider(key, endpoints)])
    case Some(b) => Ok(b)
    case None => Wrap(UniversalWrap, Pollinations(UniversalPoll, prompt, ar, seed, enc, net))
  }

  // ---------------------------------------------------------------------------
  // OpenAI DALL-E 3 (server/controllers/ThumbnailController.ts)

  const OpenAiLabel: string := "OpenAI DALL-E 3"
  const FirstImage: Path := [Key("data"), Idx(0)]

  /** `response.data[0]` exists, is not `null`, and its `url` is truthy. */
  predicate OpenAiUrlGiven(resp: Json)
  {
    Lookup(resp, FirstImage).Some? && !Lookup(resp, FirstImage).value.JNull? &&
    TruthyAt(Lookup(resp, FirstImage).value, TopUrl).Some?
  }

  const OpenAiDownloadFailed: string := "Failed to download image: "

  /**
   * `response.data[0].url`, read without optional chaining, then a download
   * that must answer 200. The SDK's own error propagates unchanged, and so
   * does the error axios raises for a download outside 2xx.
   */
  function OpenAiGenerate(sdk: SdkReply, download: Fetch): (r: Result<Bytes>)
    ensures sdk.Err? ==> r == Err(sdk.error)
    ensures r.Ok? <==> sdk.Ok? && OpenAiUrlGiven(sdk.value) && Downloaded(download).Some?
    ensures r.Ok? ==> r == Ok(Downloaded(download).value)
    ensures sdk.Ok? && Lookup(sdk.value, FirstImage).Some? && !Lookup(sdk.value, FirstImage).value.JNull? &&
            TruthyAt(Lookup(sdk.value, FirstImage).value, TopUrl).None? ==>
              r == Err("No image URL received from OpenAI")
    ensures sdk.Ok? && OpenAiUrlGiven(sdk.value) && download.FetchThrew? ==> r == Err(download.message)
    ensures sdk.Ok? && OpenAiUrlGiven(sdk.value) && download.FetchAnswered? && !Resolves(download.status) ==>
              r == Err(Rejection(download.status))
    ensures sdk.Ok? && OpenAiUrlGiven(sdk.value) && download.FetchAnswered? && Resolves(download.status) &&
            download.status != 200 ==>
              r == Err(OpenAiDownloadFailed + NatToString(download.status))
  {
    match sdk
    case Err(m) => Err(m)
    case Ok(resp) =>
      match Lookup(resp, FirstImage)
      case None => Err(RuntimeTypeError)
      case Some(item) =>
        if item.JNull? then Err(RuntimeTypeError)
        else if TruthyAt(item, TopUrl).None? then Err("No image URL received from OpenAI")
        else
          match Got(download)
          case FetchThrew(m) => Err(m)
          case FetchAnswered(status, body) =>
            if status != 200 then Err(OpenAiDownloadFailed + NatToString(status)) else Ok(Raw(body))
  }

  // ---------------------------------------------------------------------------
  // Claude enhancement (server/dist/controllers/ClaudeEnhancedThumbnailController.js)

  /** A content block of an Anthropic message. */
  datatype Block = TextBlock(text: string) | OtherBlock(kind: string)

  /** The Anthropic `messages.create` call: it raised, or answered with content blocks. */
  datatype ClaudeReply = ClaudeThrew(message: string) | ClaudeAnswered(content: seq<Block>)

  /**
   * The enhanced prompt: the first block's text when it is a text block, an
   * empty prompt for any other block, and the fixed fallback prompt when the
   * call raised or `content[0]` is missing. It never raises.
   */
  function Enhance(reply: ClaudeReply, req: Requests.Request): (p: string)
    requires Requests.Valid(req)
    ensures reply.ClaudeAnswered? && |reply.content| > 0 && reply.content[0].TextBlock? ==> p == reply.content[0].text
    ensures reply.ClaudeAnswered? && |reply.content| > 0 && reply.content[0].OtherBlock? ==> p == ""
    ensures reply.ClaudeThrew? || |reply.content| == 0 ==> p == Prompts.ClaudeFallbackPrompt(req)
  {
    match reply
    case ClaudeThrew(_) => Prompts.ClaudeFallbackPrompt(req)
    case ClaudeAnswered(content) =>
      if |content| == 0 then Prompts.ClaudeFallbackPrompt(req)
      else
        match content[0]
        case TextBlock(t) => t
        case OtherBlock(_) => ""
  }

  const ClaudeLabel: string := "Claude Haiku + Pollinations AI"

  /**
   * The Claude handler's image: Pollinations on the enhanced prompt at the
   * 1024-wide sizes with no seed, giving the downloaded body on 200; every
   * failure reads `Image generation failed: …`.
   */
  function ClaudeGenerate(enhanced: string, ar: Option<string>, enc: string -> string, net: string -> Fetch): (r: Result<Bytes>)
    ensures r.Err? ==> IsPrefix(ClaudePoll.wrap, r.error)
    ensures var f := net(PollinationsUrl(enc(enhanced), Dims.Pick(Dims.Claude, ar), ClaudePoll.params));
      && (r.Ok? <==> f.FetchAnswered? && f.status == 200)
      && (r.Ok? ==> r.value == Raw(f.body))
      && (f.FetchThrew? ==> r == Err(ClaudePoll.wrap + f.message))
      && (f.FetchAnswered? && !Resolves(f.status) ==> r == Err(ClaudePoll.wrap + Rejection(f.status)))
      && (f.FetchAnswered? && Resolves(f.status) && f.status != 200 ==>
            r == Err(ClaudePoll.wrap + ClaudePoll.failed + NatToString(f.status)))
  {
    assert enhanced + ClaudePoll.enhancement == enhanced;
    assert ClaudePoll.params + "" == ClaudePoll.params;
    Pollinations(ClaudePoll, enhanced, ar, 0, enc, net)
  }

}
