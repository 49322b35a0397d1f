/**
 * The generation handlers: each validates the request, creates the record
 * with `isGenerating` set, runs its provider chain, and ends the record with
 * one terminal update and one answer. The handlers differ only in their
 * prompt, their chain, and their policy for the terminal update and the
 * error answer.
 */
module Handlers {
  import opened Wrappers
  import opened Requests
  import opened Outcomes
  import opened Jobs
  import opened Errors
  import Prompts
  import Providers
  import HfStages
  import PollChain

  /** The answer to a generation request. */
  datatype Answer =
    | Rejected(message: string)                 // 400, before any record exists
    | Done(record: Thumbnail, provider: string)  // the saved record and the provider name
    | Errored(reply: ErrorReply)                  // the classified error answer

  /**
   * What distinguishes the handlers' endings: whether the error path writes
   * `image_url = ''`, whether success writes `prompt_used`, and how errors
   * are classified.
   */
  datatype Policy = Policy(clearOnFailure: bool, writesPrompt: bool, rules: seq<Rule>, generic: string)

  /** The terminal update a policy makes for a generation outcome. */
  function Terminate(policy: Policy, prompt: string, outcome: Result<Hit>): (t: Terminal)
    ensures outcome.Ok? ==> t == Succeeded(outcome.value.url, if policy.writesPrompt then Some(prompt) else None)
    ensures outcome.Err? ==> t == Failed(policy.clearOnFailure)
  {
    match outcome
    case Ok(hit) => Succeeded(hit.url, if policy.writesPrompt then Some(prompt) else None)
    case Err(_) => Failed(policy.clearOnFailure)
  }

  /**
   * How a handler that accepted the request ends, stated on the store and
   * answer it leaves: one record more, the older records untouched, and the
   * owner's new record no longer generating, with the URL, prompt and answer
   * the outcome and the policy call for.
   */
  ghost predicate EndsAs(before: Store, after: (Store, Answer), id: nat, owner: string, req: Request, now: nat,
                         policy: Policy, prompt: string, outcome: Result<Hit>)
    requires Valid(req)
  {
    var (store, answer) := after;
    |store| == |before| + 1 && store[..|before|] == before
    && FindOwned(store, id, owner).Some?
    && var t := FindOwned(store, id, owner).value;
       !t.isGenerating && t.title == req.title.value && t.style == req.style.value && t.userPrompt == req.userPrompt
       && (outcome.Ok? ==>
             answer == Done(t, outcome.value.provider)
             && t.imageUrl == Some(outcome.value.url)
             && t.promptUsed == (if policy.writesPrompt then Some(prompt) else req.userPrompt))
       && (outcome.Err? ==>
             answer == Errored(Classify(policy.rules, policy.generic, outcome.error))
             && t.imageUrl == (if policy.clearOnFailure then Some("") else None)
             && t.promptUsed == req.userPrompt)
  }

  /** Creation, generation outcome, terminal update and answer of an accepted request. */
  function Run(store: Store, id: nat, owner: string, req: Request, now: nat,
               policy: Policy, prompt: string, outcome: Result<Hit>): (r: (Store, Answer))
    requires Valid(req) && !HasId(store, id)
    ensures EndsAs(store, r, id, owner, req, now, policy, prompt, outcome)
  {
    var term := Terminate(policy, prompt, outcome);
    var after := Finish(Create(store, id, owner, req, now), id, term);
    Lifecycle(store, id, owner, req, now, term);
    var t := Apply(NewRecord(id, owner, req, now), term);
    match outcome
    case Ok(hit) => (after, Done(t, hit.provider))
    case Err(e) => (after, Errored(Classify(policy.rules, policy.generic, e)))
  }

  /** The controllers' upload of the generated bytes: its URL, or the upload's error. */
  function AfterUpload(g: Result<Providers.Generated>, upload: Upload): (r: Result<Hit>)
    ensures r.Ok? <==> g.Ok? && upload.Uploaded?
    ensures r.Ok? ==> r.value == Hit(upload.url, g.value.provider)
    ensures g.Err? ==> r == Err(g.error)
    ensures g.Ok? && upload.UploadFailed? ==> r == Err(upload.message)
  {
    match g
    case Err(e) => Err(e)
    case Ok(gen) =>
      match upload
      case Uploaded(url) => Ok(Hit(url, gen.provider))
      case UploadFailed(m) => Err(m)
  }

  /** Bytes from a chain with a single provider name. */
  function Named(b: Result<Bytes>, provider: string): (r: Result<Providers.Generated>)
    ensures r.Ok? <==> b.Ok?
    ensures r.Ok? ==> r.value == Providers.Generated(b.value, provider)
    ensures r.Err? ==> r.error == b.error
  {
    match b
    case Ok(bytes) => Ok(Providers.Generated(bytes, provider))
    case Err(e) => Err(e)
  }

  // ---------------------------------------------------------------------------
  // Policies

  /** The development servers clear `image_url` on failure and answer the generic message. */
  const ServerPolicy: Policy := Policy(true, true, [], Generic)
  const QwenPolicy: Policy := Policy(false, true, [], QwenFailed)
  const GptPolicy: Policy := Policy(false, true, [], GptFailed)
  const InfipPolicy: Policy := Policy(false, true, [], InfipFailed)
  const Imagen4Policy: Policy := Policy(false, true, [], Imagen4Failed)
  const FlashPolicy: Policy := Policy(false, true, [], FlashFailed)
  const UniversalPolicy: Policy := Policy(false, true, [], Generic)
  const ImagenPolicy: Policy := Policy(false, true, ImagenRules, Generic)
  const ProviderPolicy: Policy := Policy(false, true, ProviderRules, Generic)
  const ClaudePolicy: Policy := Policy(false, true, ClaudeRules, Generic)
  /** The OpenAI controller never writes `prompt_used`. */
  const OpenAiPolicy: Policy := Policy(false, false, OpenAiRules, Generic)

  /** A request that fails validation is answered 400 and creates nothing. */
  ghost predicate RejectsInvalid(store: Store, req: Request, r: (Store, Answer))
  {
    !Valid(req) ==> r == (store, Rejected(ValidationMessage))
  }

  // ---------------------------------------------------------------------------
  // The handlers

  /** `/api/thumbnail/generate` of the TypeScript development server: the Hugging Face stages. */
  function ServerTsHandler(store: Store, id: nat, session: Option<string>, req: Request, now: nat,
                           first: seq<HfStages.ModelOutcome>, second: seq<HfStages.T2iOutcome>): (r: (Store, Answer))
    requires !HasId(store, id) && |first| == 5 && |second| == 3
    ensures RejectsInvalid(store, req, r)
    ensures Valid(req) ==> EndsAs(store, r, id, SessionUser(session), req, now, ServerPolicy,
                                  Prompts.ServerPrompt(req), HfStages.Generate(first, second))
  {
    if !Valid(req) then (store, Rejected(ValidationMessage))
    else Run(store, id, SessionUser(session), req, now, ServerPolicy, Prompts.ServerPrompt(req), HfStages.Generate(first, second))
  }

  /**
   * `/api/thumbnail/generate` of the compiled development server, with its
   * Pollinations chain as written: the chain always yields a URL, so an
   * accepted request always ends with the record holding a non-empty URL.
   */
  function ServerJsHandler(store: Store, id: nat, session: Option<string>, req: Request, now: nat,
                           enc: string -> string, probes: seq<PollChain.Probe>, later: PollChain.Later): (r: (Store, Answer))
    requires !HasId(store, id) && PollChain.ProbesFor(probes)
    ensures RejectsInvalid(store, req, r)
    ensures Valid(req) ==> r.1.Done? && r.1.record.imageUrl.Some? && |r.1.record.imageUrl.value| > 0
    ensures Valid(req) ==> EndsAs(store, r, id, SessionUser(session), req, now, ServerPolicy, Prompts.ServerPrompt(req),
                                  Ok(PollChain.ChainAsWritten(Prompts.ServerPrompt(req), req.title.value, req.aspectRatio, enc, probes, later)))
  {
    if !Valid(req) then (store, Rejected(ValidationMessage))
    else
      var prompt := Prompts.ServerPrompt(req);
      Run(store, id, SessionUser(session), req, now, ServerPolicy, prompt,
          Ok(PollChain.ChainAsWritten(prompt, req.title.value, req.aspectRatio, enc, probes, later)))
  }

  /** `generateThumbnailWithQwen`. */
  function QwenHandler(store: Store, id: nat, session: Option<string>, req: Request, now: nat,
                       outcomes: seq<ConfigOutcome>, seed: nat, enc: string -> string, net: string -> Fetch,
                       upload: Upload): (r: (Store, Answer))
    requires !HasId(store, id) && |outcomes| == 6
    ensures RejectsInvalid(store, req, r)
    ensures Valid(req) ==>
              var prompt := Prompts.DetailPrompt(Prompts.MasterpieceHead, Prompts.QwenSuffix, req);
              EndsAs(store, r, id, SessionUser(session), req, now, QwenPolicy, prompt,
                     AfterUpload(Providers.QwenGenerate(prompt, req.aspectRatio, outcomes, seed, enc, net), upload))
  {
    if !Valid(req) then (store, Rejected(ValidationMessage))
    else
      var prompt := Prompts.DetailPrompt(Prompts.MasterpieceHead, Prompts.QwenSuffix, req);
      Run(store, id, SessionUser(session), req, now, QwenPolicy, prompt,
          AfterUpload(Providers.QwenGenerate(prompt, req.aspectRatio, outcomes, seed, enc, net), upload))
  }

  /** `generateThumbnailWithGPTImage`. */
  function GptHandler(store: Store, id: nat, session: Option<string>, req: Request, now: nat,
                      outcomes: seq<ConfigOutcome>, seed: nat, enc: string -> string, net: string -> Fetch,
                      upload: Upload): (r: (Store, Answer))
    requires !HasId(store, id) && |outcomes| == 6
    ensures RejectsInvalid(store, req, r)
    ensures Valid(req) ==>
              var prompt := Prompts.DetailPrompt(Prompts.MasterpieceHead, Prompts.GptSuffix, req);
              EndsAs(store, r, id, SessionUser(session), req, now, GptPolicy, prompt,
                     AfterUpload(Providers.GptGenerate(prompt, req.aspectRatio, outcomes, seed, enc, net), upload))
  {
    if !Valid(req) then (store, Rejected(ValidationMessage))
    else
      var prompt := Prompts.DetailPrompt(Prompts.MasterpieceHead, Prompts.GptSuffix, req);
      Run(store, id, SessionUser(session), req, now, GptPolicy, prompt,
          AfterUpload(Providers.GptGenerate(prompt, req.aspectRatio, outcomes, seed, enc, net), upload))
  }

  /** `generateThumbnailWithInfip`: the GPT template and suffix. */
  function InfipHandler(store: Store, id: nat, session: Option<string>, req: Request, now: nat,
                        outcomes: seq<ConfigOutcome>, seed: nat, enc: string -> string, net: string -> Fetch,
                        upload: Upload): (r: (Store, Answer))
    requires !HasId(store, id) && |outcomes| == 6
    ensures RejectsInvalid(store, req, r)
    ensures Valid(req) ==>
              var prompt := Prompts.DetailPrompt(Prompts.MasterpieceHead, Prompts.GptSuffix, req);
              EndsAs(store, r, id, SessionUser(session), req, now, InfipPolicy, prompt,
                     AfterUpload(Providers.InfipGenerate(prompt, req.aspectRatio, outcomes, seed, enc, net), upload))
  {
    if !Valid(req) then (store, Rejected(ValidationMessage))
    else
      var prompt := Prompts.DetailPrompt(Prompts.MasterpieceHead, Prompts.GptSuffix, req);
      Run(store, id, SessionUser(session), req, now, InfipPolicy, prompt,
          AfterUpload(Providers.InfipGenerate(prompt, req.aspectRatio, outcomes, seed, enc, net), upload))
  }

  /** `generateThumbnailWithImagen4`. */
  function Imagen4Handler(store: Store, id: nat, session: Option<string>, req: Request, now: nat,
                          outcomes: seq<ConfigOutcome>, seed: nat, enc: string -> string, net: string -> Fetch,
                          upload: Upload): (r: (Store, Answer))
    requires !HasId(store, id) && |outcomes| == 4
    ensures RejectsInvalid(store, req, r)
    ensures Valid(req) ==>
              var prompt := Prompts.DetailPrompt(Prompts.MasterpieceHead, Prompts.Imagen4Suffix, req);
              EndsAs(store, r, id, SessionUser(session), req, now, Imagen4Policy, prompt,
                     AfterUpload(Providers.Imagen4Generate(prompt, req.aspectRatio, outcomes, seed, enc, net), upload))
  {
    if !Valid(req) then (store, Rejected(ValidationMessage))
    else
      var prompt := Prompts.DetailPrompt(Prompts.MasterpieceHead, Prompts.Imagen4Suffix, req);
      Run(store, id, SessionUser(session), req, now, Imagen4Policy, prompt,
          AfterUpload(Providers.Imagen4Generate(prompt, req.aspectRatio, outcomes, seed, enc, net), upload))
  }

  /** `generateThumbnailWithImagen`: every generation failure is answered IMAGEN_API_FAILED. */
  function ImagenHandler(store: Store, id: nat, session: Option<string>, req: Request, now: nat,
                         replies: seq<ApiReply>, download: Fetch, vertex: ApiReply, upload: Upload): (r: (Store, Answer))
    requires !HasId(store, id) && |replies| == 3
    ensures RejectsInvalid(store, req, r)
    ensures Valid(req) ==>
              EndsAs(store, r, id, SessionUser(session), req, now, ImagenPolicy,
                     Prompts.DetailPrompt(Prompts.ProfessionalHead, Prompts.ImagenSuffix, req),
                     AfterUpload(Named(Providers.ImagenGenerate(replies, download, vertex), Providers.ImagenLabel), upload))
    ensures Valid(req) && Providers.ImagenGenerate(replies, download, vertex).Err? ==>
              r.1 == Errored(ErrorReply(500, "Imagen 3.5 API failed. Please try again.", "IMAGEN_API_FAILED"))
  {
    if !Valid(req) then (store, Rejected(ValidationMessage))
    else
      ImagenFailuresAreApiFailures(replies, download, vertex);
      Run(store, id, SessionUser(session), req, now, ImagenPolicy,
          Prompts.DetailPrompt(Prompts.ProfessionalHead, Prompts.ImagenSuffix, req),
          AfterUpload(Named(Providers.ImagenGenerate(replies, download, vertex), Providers.ImagenLabel), upload))
  }

  /** `generateThumbnailWithGeminiFlash`. */
  function FlashHandler(store: Store, id: nat, session: Option<string>, req: Request, now: nat,
                        outcomes: seq<ConfigOutcome>, sdk: SdkReply, seed: nat, enc: string -> string,
                        net: string -> Fetch, upload: Upload): (r: (Store, Answer))
    requires !HasId(store, id) && |outcomes| == 5
    ensures RejectsInvalid(store, req, r)
    ensures Valid(req) ==>
              var prompt := Prompts.DetailPrompt(Prompts.ProfessionalHead, Prompts.FlashSuffix, req);
              EndsAs(store, r, id, SessionUser(session), req, now, FlashPolicy, prompt,
                     AfterUpload(Providers.FlashGenerate(prompt, req.aspectRatio, outcomes, sdk, seed, enc, net), upload))
  {
    if !Valid(req) then (store, Rejected(ValidationMessage))
    else
      var prompt := Prompts.DetailPrompt(Prompts.ProfessionalHead, Prompts.FlashSuffix, req);
      Run(store, id, SessionUser(session), req, now, FlashPolicy, prompt,
          AfterUpload(Providers.FlashGenerate(prompt, req.aspectRatio, outcomes, sdk, seed, enc, net), upload))
  }

  /** The universal provider's handler. */
  function UniversalHandler(store: Store, id: nat, session: Option<string>, req: Request, now: nat,
                            key: Option<string>, endpoints: seq<seq<ConfigOutcome>>, seed: nat,
                            enc: string -> string, net: string -> Fetch, upload: Upload): (r: (Store, Answer))
    requires !HasId(store, id) && |endpoints| == 3 && forall i :: 0 <= i < 3 ==> |endpoints[i]| == 3
    ensures RejectsInvalid(store, req, r)
    ensures Valid(req) ==>
              var prompt := Prompts.DetailPrompt(Prompts.ProfessionalHead, Prompts.UniversalSuffix, req);
              EndsAs(store, r, id, SessionUser(session), req, now, UniversalPolicy, prompt,
                     AfterUpload(Named(Providers.UniversalGenerate(key, endpoints, prompt, req.aspectRatio, seed, enc, net),
                                       Providers.UniversalLabel), upload))
  {
    if !Valid(req) then (store, Rejected(ValidationMessage))
    else
      var prompt := Prompts.DetailPrompt(Prompts.ProfessionalHead, Prompts.UniversalSuffix, req);
      Run(store, id, SessionUser(session), req, now, UniversalPolicy, prompt,
          AfterUpload(Named(Providers.UniversalGenerate(key, endpoints, prompt, req.aspectRatio, seed, enc, net),
                            Providers.UniversalLabel), upload))
  }

  /** The Gemini provider's handler. */
  function ProviderHandler(store: Store, id: nat, session: Option<string>, req: Request, now: nat,
                           reply: ApiReply, download: Fetch, sdk: SdkReply, upload: Upload): (r: (Store, Answer))
    requires !HasId(store, id)
    ensures RejectsInvalid(store, req, r)
    ensures Valid(req) ==>
              EndsAs(store, r, id, SessionUser(session), req, now, ProviderPolicy, Prompts.CreatePrompt(req),
                     AfterUpload(Named(Providers.GeminiProviderGenerate(reply, download, sdk), Providers.ProviderLabel), upload))
  {
    if !Valid(req) then (store, Rejected(ValidationMessage))
    else
      Run(store, id, SessionUser(session), req, now, ProviderPolicy, Prompts.CreatePrompt(req),
          AfterUpload(Named(Providers.GeminiProviderGenerate(reply, download, sdk), Providers.ProviderLabel), upload))
  }

  /**
   * The Claude handler: the enhanced prompt, which never fails, drives the
   * image and is what success stores as `prompt_used`.
   */
  function ClaudeHandler(store: Store, id: nat, session: Option<string>, req: Request, now: nat,
                         claude: Providers.ClaudeReply, enc: string -> string, net: string -> Fetch,
                         upload: Upload): (r: (Store, Answer))
    requires !HasId(store, id)
    ensures RejectsInvalid(store, req, r)
    ensures Valid(req) ==>
              var enhanced := Providers.Enhance(claude, req);
              EndsAs(store, r, id, SessionUser(session), req, now, ClaudePolicy, enhanced,
                     AfterUpload(Named(Providers.ClaudeGenerate(enhanced, req.aspectRatio, enc, net), Providers.ClaudeLabel), upload))
    ensures Valid(req) && r.1.Done? ==> r.1.record.promptUsed == Some(Providers.Enhance(claude, req))
  {
    if !Valid(req) then (store, Rejected(ValidationMessage))
    else
      var enhanced := Providers.Enhance(claude, req);
      Run(store, id, SessionUser(session), req, now, ClaudePolicy, enhanced,
          AfterUpload(Named(Providers.ClaudeGenerate(enhanced, req.aspectRatio, enc, net), Providers.ClaudeLabel), upload))
  }

  /** `generateThumbnail` of the OpenAI controller: success leaves `prompt_used` as the user's prompt. */
  function OpenAiHandler(store: Store, id: nat, session: Option<string>, req: Request, now: nat,
                         sdk: SdkReply, download: Fetch, upload: Upload): (r: (Store, Answer))
    requires !HasId(store, id)
    ensures RejectsInvalid(store, req, r)
    ensures Valid(req) ==>
              EndsAs(store, r, id, SessionUser(session), req, now, OpenAiPolicy, Prompts.CreatePrompt(req),
                     AfterUpload(Named(Providers.OpenAiGenerate(sdk, download), Providers.OpenAiLabel), upload))
    ensures Valid(req) && r.1.Done? ==> r.1.record.promptUsed == req.userPrompt
  {
    if !Valid(req) then (store, Rejected(ValidationMessage))
    else
      Run(store, id, SessionUser(session), req, now, OpenAiPolicy, Prompts.CreatePrompt(req),
          AfterUpload(Named(Providers.OpenAiGenerate(sdk, download), Providers.OpenAiLabel), upload))
  }

}
