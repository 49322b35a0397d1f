/**
 * The Hugging Face model loop of the TypeScript development server
 * (server/server-simple.ts): five models on the inference API, with a
 * router retry for a deprecated endpoint and a second try for a model that
 * is loading, then three models on the text-to-image route, then failure.
 */
module HfStages {
  import opened Wrappers
  import opened Strs
  import Chains
  import opened Outcomes

  /** A `fetch` call: it raised, or answered with a status, its body as bytes and its body as text. */
  datatype HttpReply = HttpThrew(message: string) | HttpAnswered(status: nat, body: seq<bv8>, text: string)

  /** `response.ok`. */
  predicate StatusOk(status: nat)
  {
    200 <= status <= 299
  }

  /** An answer the loop keeps: `ok` and more than 1000 bytes long. */
  predicate Usable(r: HttpReply)
  {
    r.HttpAnswered? && StatusOk(r.status) && |r.body| > 1000
  }

  /** The index of the first `c` in `s`, or `|s|` when there is none. */
  function IndexOf(s: string, c: char): (i: nat)
    ensures i <= |s|
    ensures i < |s| ==> s[i] == c
    ensures forall j :: 0 <= j < i ==> s[j] != c
    decreases |s|
  {
    if |s| == 0 then 0 else if s[0] == c then 0 else 1 + IndexOf(s[1..], c)
  }

  /** `s.split('/')[1]`: the text between the first and second slash, `undefined` when there is no slash. */
  function SecondSegment(s: string): string
  {
    var i := IndexOf(s, '/');
    if i == |s| then "undefined"
    else
      var rest := s[i + 1..];
      rest[..IndexOf(rest, '/')]
  }

  /** For an `owner/name` model id, the segment is the name. */
  lemma SecondSegmentOfId(owner: string, name: string)
    requires '/' !in owner && '/' !in name
    ensures SecondSegment(owner + "/" + name) == name
  {
    var s := owner + "/" + name;
    assert s[|owner|] == '/';
    assert forall j :: 0 <= j < |owner| ==> s[j] == owner[j];
    assert IndexOf(s, '/') == |owner|;
    assert s[|owner| + 1..] == name;
    assert IndexOf(name, '/') == |name|;
  }

  /** The upload of a kept image: its URL, or nothing when the upload raised. */
  function Uploading(upload: Upload, provider: string): (r: Option<Hit>)
    ensures r.Some? <==> upload.Uploaded?
    ensures r.Some? ==> r.value == Hit(upload.url, provider)
  {
    match upload
    case Uploaded(url) => Some(Hit(url, provider))
    case UploadFailed(_) => None
  }

  /** Everything one first-stage model can meet: the inference call, the router call, the second try and the upload. */
  datatype ModelOutcome = ModelOutcome(primary: HttpReply, router: HttpReply, retry: HttpReply, upload: Upload)

  const Deprecated: string := "api-inference.huggingface.co is no longer supported"

  /**
   * One first-stage model. A usable answer is uploaded. A 410 whose text says
   * the endpoint is deprecated tries the router; a 503 whose text mentions
   * `loading` tries once more. A raise anywhere, the upload included, moves
   * on to the next model.
   */
  function ModelAttempt(model: string, o: ModelOutcome): (r: Option<Hit>)
    ensures Usable(o.primary) ==> r == Uploading(o.upload, "Hugging Face (" + SecondSegment(model) + ")")
    ensures o.primary.HttpAnswered? && o.primary.status == 410 && Contains(o.primary.text, Deprecated) ==>
              r == (if Usable(o.router) then Uploading(o.upload, "Hugging Face Router (" + SecondSegment(model) + ")") else None)
    ensures o.primary.HttpAnswered? && o.primary.status == 503 && Contains(o.primary.text, "loading") ==>
              r == (if Usable(o.retry) then Uploading(o.upload, "Hugging Face (" + SecondSegment(model) + " - Retry)") else None)
    ensures r.Some? ==> o.primary.HttpAnswered? && o.upload.Uploaded? && r.value.url == o.upload.url
    ensures r.Some? ==>
              || Usable(o.primary)
              || (o.primary.HttpAnswered? && o.primary.status == 410 && Contains(o.primary.text, Deprecated) && Usable(o.router))
              || (o.primary.HttpAnswered? && o.primary.status == 503 && Contains(o.primary.text, "loading") && Usable(o.retry))
  {
    var name := SecondSegment(model);
    match o.primary
    case HttpThrew(_) => None
    case HttpAnswered(status, body, text) =>
      if StatusOk(status) then
        if |body| > 1000 then Uploading(o.upload, "Hugging Face (" + name + ")") else None
      else if status == 410 && Contains(text, Deprecated) then
        if Usable(o.router) then Uploading(o.upload, "Hugging Face Router (" + name + ")") else None
      else if status == 503 && Contains(text, "loading") then
        if Usable(o.retry) then Uploading(o.upload, "Hugging Face (" + name + " - Retry)") else None
      else None
  }

  /** A second-stage model: the text-to-image call and the upload. */
  datatype T2iOutcome = T2iOutcome(reply: HttpReply, upload: Upload)

  function T2iAttempt(model: string, o: T2iOutcome): (r: Option<Hit>)
    ensures r.Some? <==> Usable(o.reply) && o.upload.Uploaded?
    ensures r.Some? ==> r.value == Hit(o.upload.url, "Hugging Face T2I (" + SecondSegment(model) + ")")
  {
    if Usable(o.reply) then Uploading(o.upload, "Hugging Face T2I (" + SecondSegment(model) + ")") else None
  }

  const Stage1Models: seq<string> := [
    "black-forest-labs/FLUX.1-dev",
    "stabilityai/stable-diffusion-xl-base-1.0",
    "runwayml/stable-diffusion-v1-5",
    "ByteDance/SDXL-Lightning",
    "stabilityai/stable-diffusion-2-1"
  ]

  /** The text-to-image stage retries the first three models. */
  const Stage2Models: seq<string> := Stage1Models[..3]

  /** One model of either stage together with what it met. */
  datatype Try = Inference(model: string, outcome: ModelOutcome) | TextToImage(model: string, t2i: T2iOutcome)

  function Attempt(t: Try): Option<Hit>
  {
    match t
    case Inference(m, o) => ModelAttempt(m, o)
    case TextToImage(m, o) => T2iAttempt(m, o)
  }

  function Stage1Tries(outcomes: seq<ModelOutcome>): (ts: seq<Try>)
    requires |outcomes| == |Stage1Models|
    ensures |ts| == |outcomes| && forall i :: 0 <= i < |ts| ==> ts[i] == Inference(Stage1Models[i], outcomes[i])
  {
    seq(|outcomes|, i requires 0 <= i < |outcomes| => Inference(Stage1Models[i], outcomes[i]))
  }

  function Stage2Tries(outcomes: seq<T2iOutcome>): (ts: seq<Try>)
    requires |outcomes| == |Stage2Models|
    ensures |ts| == |outcomes| && forall i :: 0 <= i < |ts| ==> ts[i] == TextToImage(Stage2Models[i], outcomes[i])
  {
    seq(|outcomes|, i requires 0 <= i < |outcomes| => TextToImage(Stage2Models[i], outcomes[i]))
  }

  const AllFailed: string := "All image generation services failed - unable to create thumbnail"

  /** A hit whose URL is truthy, the test `if (!imageUrl)` makes after each stage. */
  predicate HasUrl(h: Option<Hit>)
  {
    h.Some? && |h.value.url| > 0
  }

  /**
   * The two stages: the text-to-image stage runs only when the first stage
   * left no URL, and the handler raises when neither produced one.
   */
  function Generate(first: seq<ModelOutcome>, second: seq<T2iOutcome>): (r: Result<Hit>)
    requires |first| == 5 && |second| == 3
    ensures HasUrl(Chains.FirstSome(Stage1Tries(first), Attempt)) ==> r == Ok(Chains.FirstSome(Stage1Tries(first), Attempt).value)
    ensures r.Err? <==> !HasUrl(Chains.FirstSome(Stage1Tries(first), Attempt)) && !HasUrl(Chains.FirstSome(Stage2Tries(second), Attempt))
    ensures !HasUrl(Chains.FirstSome(Stage1Tries(first), Attempt)) && HasUrl(Chains.FirstSome(Stage2Tries(second), Attempt)) ==>
              r == Ok(Chains.FirstSome(Stage2Tries(second), Attempt).value)
    ensures r.Err? ==> r.error == AllFailed
    ensures r.Ok? ==> |r.value.url| > 0
  {
    var s1 := Chains.FirstSome(Stage1Tries(first), Attempt);
    if HasUrl(s1) then Ok(s1.value)
    else
      var s2 := Chains.FirstSome(Stage2Tries(second), Attempt);
      if HasUrl(s2) then Ok(s2.value) else Err(AllFailed)
  }

  /** What the second stage met is irrelevant once the first stage produced a URL. */
  lemma SecondStageOnlyAfterFirstFails(first: seq<ModelOutcome>, second: seq<T2iOutcome>, other: seq<T2iOutcome>)
    requires |first| == 5 && |second| == 3 && |other| == 3
    ensures HasUrl(Chains.FirstSome(Stage1Tries(first), Attempt)) ==> Generate(first, second) == Generate(first, other)
  {
  }

  /** Every upload of a stage answered with a non-empty URL. */
  ghost predicate UrlsNonEmpty(ts: seq<Try>)
  {
    forall i :: 0 <= i < |ts| ==> Attempt(ts[i]).Some? ==> |Attempt(ts[i]).value.url| > 0
  }

  /**
   * When uploads never return an empty URL, the two stages are one ordered
   * chain of eight tries: five inference models, then three text-to-image
   * models, the first success winning.
   */
  lemma StagesAreOneChain(first: seq<ModelOutcome>, second: seq<T2iOutcome>)
    requires |first| == 5 && |second| == 3
    requires UrlsNonEmpty(Stage1Tries(first)) && UrlsNonEmpty(Stage2Tries(second))
    ensures Generate(first, second) ==
              (match Chains.FirstSome(Stage1Tries(first) + Stage2Tries(second), Attempt)
               case Some(h) => Ok(h)
               case None => Err(AllFailed))
  {
    Chains.FirstSomeAppend(Stage1Tries(first), Stage2Tries(second), Attempt);
  }

}
