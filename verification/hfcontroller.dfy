/**
 * The Hugging Face controller (server/controllers/HuggingFaceImageController.ts):
 * request defaults, the model table, the data URL that is
 * stored, the mapping of upstream failures to answers, the model listing's
 * display names and the connection test. Unlike the other handlers it saves
 * its record only after the image arrived.
 */
module HfController {
  import opened Wrappers
  import opened Strs
  import opened Requests
  import opened Jobs
  import Prompts

  // ---------------------------------------------------------------------------
  // Request defaults and prompt

  /**
   * A destructuring default (`aspect_ratio = "16:9"`, `model = 'flux-schnell'`):
   * it replaces only an absent field, so an empty string is kept.
   */
  function Destructured(v: Option<string>, d: string): (r: string)
    ensures v.Some? ==> r == v.value
    ensures v.None? ==> r == d
  {
    v.GetOr(d)
  }

  /**
   * A destructuring default and `v || d` disagree exactly on an empty string
   * with a non-empty default: the destructuring default keeps it.
   */
  lemma DestructuredKeepsEmpty(v: Option<string>, d: string)
    ensures Destructured(v, d) != OrDefault(v, d) <==> v == Some("") && d != ""
    ensures v == Some("") ==> Destructured(v, d) == ""
  {
  }

  /** `text_overlay = false`. */
  function OverlayOrDefault(v: Option<bool>): (r: bool)
    ensures r <==> v == Some(true)
  {
    v.GetOr(false)
  }

  const DefaultAspect: string := "16:9"
  const DefaultModel: string := "flux-schnell"

  // ---------------------------------------------------------------------------
  // The model table

  /** `AVAILABLE_MODELS`, in declaration order. */
  const ModelKeys: seq<string> := ["flux-schnell", "flux-dev", "stable-diffusion-xl", "stable-diffusion-3", "playground-v2"]
  const ModelIds: seq<string> := [
    "black-forest-labs/FLUX.1-schnell",
    "black-forest-labs/FLUX.1-dev",
    "stabilityai/stable-diffusion-xl-base-1.0",
    "stabilityai/stable-diffusion-3-medium-diffusers",
    "playgroundai/playground-v2.5-1024px-aesthetic"
  ]

  /** The position of `key` in the table, or the table's length. */
  function KeyIndex(key: string, keys: seq<string>): (i: nat)
    ensures i <= |keys|
    ensures i < |keys| ==> keys[i] == key
    ensures i == |keys| ==> key !in keys
    decreases |keys|
  {
    if |keys| == 0 then 0 else if keys[0] == key then 0 else 1 + KeyIndex(key, keys[1..])
  }

  /** The endpoint for a model key: its table entry, or FLUX.1-schnell for a key not in the table. */
  function Endpoint(key: string): (r: string)
    ensures r in ModelIds
    ensures key !in ModelKeys ==> r == ModelIds[0]
    ensures forall i :: 0 <= i < |ModelKeys| && ModelKeys[i] == key ==> r == ModelIds[i]
  {
    var i := KeyIndex(key, ModelKeys);
    if i < |ModelIds| then ModelIds[i] else ModelIds[0]
  }

  const RouterBase: string := "https://router.huggingface.co/hf-inference/models/"

  // ---------------------------------------------------------------------------
  // The stored image

  const DataUrlPrefix: string := "data:image/png;base64,"

  /** The `data:` URL of a base64 payload (RFC 2397, section 3). */
  function DataUrl(b64: string): (r: string)
    ensures IsPrefix(DataUrlPrefix, r) && r[|DataUrlPrefix|..] == b64
  {
    DataUrlPrefix + b64
  }

  /** The payload is read back from a data URL by dropping the prefix. */
  lemma DataUrlInjective(a: string, b: string)
    ensures DataUrl(a) == DataUrl(b) ==> a == b
  {
    if DataUrl(a) == DataUrl(b) {
      assert a == DataUrl(a)[|DataUrlPrefix|..];
    }
  }

  // ---------------------------------------------------------------------------
  // The upstream call and failures

  /**
   * The axios call: it raised without a response (with an error code and a
   * message), or it answered. axios raises for a status outside 2xx, and
   * the handler raises itself for a 2xx other than 200.
   */
  datatype Call = CallThrew(code: string, message: string) | CallAnswered(status: nat, statusText: string, body: seq<bv8>)

  predicate Succeeded(c: Call)
  {
    c.CallAnswered? && c.status == 200
  }

  /** Whether a failed call carries an upstream `error.response`. */
  predicate HasResponse(c: Call)
  {
    c.CallAnswered? && !(200 <= c.status <= 299)
  }

  const StatusMessages: seq<string> := [
    "Invalid Hugging Face API token",
    "Rate limit exceeded. Please try again later.",
    "Model is currently loading. Please try again in a few moments."
  ]
  const TimeoutMessage: string := "Request timeout. The model might be loading, please try again."

  /** The HTTP status and message answered for a failed call. */
  function Failure(c: Call): (r: (nat, string))
    requires !Succeeded(c)
    ensures HasResponse(c) ==> r.0 == c.status
    ensures !HasResponse(c) ==> r.0 == 500
    ensures HasResponse(c) && c.status == 401 ==> r.1 == StatusMessages[0]
    ensures HasResponse(c) && c.status == 429 ==> r.1 == StatusMessages[1]
    ensures HasResponse(c) && c.status == 503 ==> r.1 == StatusMessages[2]
    ensures HasResponse(c) && c.status !in {401, 429, 503} ==> r.1 == "Hugging Face API error: " + c.statusText
    ensures c.CallThrew? && c.code == "ECONNABORTED" ==> r.1 == TimeoutMessage
    ensures c.CallThrew? && c.code != "ECONNABORTED" ==> r.1 == OrDefault(Some(c.message), "Unknown error occurred")
    ensures c.CallAnswered? && !HasResponse(c) ==> r.1 == "Hugging Face API returned status " + NatToString(c.status)
  {
    match c
    case CallThrew(code, message) =>
      (500, if code == "ECONNABORTED" then TimeoutMessage else OrDefault(Some(message), "Unknown error occurred"))
    case CallAnswered(status, statusText, _) =>
      if 200 <= status <= 299 then (500, "Hugging Face API returned status " + NatToString(status))
      else if status == 401 then (status, StatusMessages[0])
      else if status == 429 then (status, StatusMessages[1])
      else if status == 503 then (status, StatusMessages[2])
      else (status, "Hugging Face API error: " + statusText)
  }

  // ---------------------------------------------------------------------------
  // The handler

  datatype Answer =
    | Rejected(message: string)
    | Saved(record: Thumbnail, endpoint: string)
    | Errored(status: nat, message: string)

  /**
   * `generateThumbnailWithHuggingFace`. `b64` is the base64 encoding of the
   * answered bytes. The record is saved only after success, already
   * finished, with the data URL as its image; a failure saves nothing.
   */
  function Handle(store: Store, id: nat, session: Option<string>, req: Request, model: Option<string>,
                  call: Call, b64: seq<bv8> -> string, now: nat): (r: (Store, Answer))
    requires !HasId(store, id)
    ensures !Valid(req) ==> r == (store, Rejected(ValidationMessage))
    ensures Valid(req) && !Succeeded(call) ==> r == (store, Errored(Failure(call).0, Failure(call).1))
    ensures Valid(req) && Succeeded(call) ==>
              && |r.0| == |store| + 1 && r.0[..|store|] == store
              && r.1.Saved? && r.1.endpoint == Endpoint(Destructured(model, DefaultModel))
              && var t := r.1.record;
                 && FindOwned(r.0, id, OrDefault(session, "anonymous")) == Some(t)
                 && t.id == id && t.userId == OrDefault(session, "anonymous") && t.createdAt == now
                 && t.title == req.title.value && t.style == req.style.value
                 && t.userPrompt == req.userPrompt && t.colorScheme == req.colorScheme
                 && !t.isGenerating
                 && t.imageUrl == Some(DataUrl(b64(call.body)))
                 && t.promptUsed == Some(Prompts.HfPrompt(req))
                 && t.aspectRatio == Some(Destructured(req.aspectRatio, DefaultAspect))
                 && t.textOverlay == Some(OverlayOrDefault(req.textOverlay))
  {
    if !Valid(req) then (store, Rejected(ValidationMessage))
    else if !Succeeded(call) then
      var (status, message) := Failure(call);
      (store, Errored(status, message))
    else
      var owner := OrDefault(session, "anonymous");
      var prompt := Prompts.HfPrompt(req);
      var t := Thumbnail(id, owner, req.title.value, req.style.value, req.userPrompt, Some(prompt),
                         Some(Destructured(req.aspectRatio, DefaultAspect)), req.colorScheme,
                         Some(OverlayOrDefault(req.textOverlay)), Some(DataUrl(b64(call.body))), false, now);
      (Save(store, t), Saved(t, Endpoint(Destructured(model, DefaultModel))))
  }

  // ---------------------------------------------------------------------------
  // Model listing

  /** The first character of a `\w` run, the character `\b\w` matches. */
  predicate WordStart(s: string, i: nat)
    requires i < |s|
  {
    IsWordChar(s[i]) && (i == 0 || !IsWordChar(s[i - 1]))
  }

  /** `key.replace(/-/g, ' ')`. */
  function Undash(s: string): (r: string)
    ensures |r| == |s| && '-' !in r
    ensures forall i :: 0 <= i < |s| ==> r[i] == (if s[i] == '-' then ' ' else s[i])
  {
    seq(|s|, i requires 0 <= i < |s| => if s[i] == '-' then ' ' else s[i])
  }

  /** `.replace(/\b\w/g, l => l.toUpperCase())`. */
  function CapitaliseWords(s: string): (r: string)
    ensures |r| == |s|
    ensures forall i :: 0 <= i < |s| ==> r[i] == (if WordStart(s, i) then ToUpper(s[i]) else s[i])
  {
    seq(|s|, i requires 0 <= i < |s| => if WordStart(s, i) then ToUpper(s[i]) else s[i])
  }

  function DisplayName(key: string): (r: string)
    ensures |r| == |key| && '-' !in r
  {
    var u := Undash(key);
    var r := CapitaliseWords(u);
    assert forall i :: 0 <= i < |r| ==> r[i] != '-' by {
      forall i | 0 <= i < |r| ensures r[i] != '-' {
        assert u[i] != '-';
      }
    }
    r
  }

  /**
   * A display name is already in display form: each word starts with a
   * capital or a non-letter, so computing it again changes nothing.
   */
  lemma DisplayNameIdempotent(key: string)
    ensures DisplayName(DisplayName(key)) == DisplayName(key)
  {
    var d := DisplayName(key);
    var u := Undash(key);
    assert Undash(d) == d;
    forall i | 0 <= i < |d|
      ensures CapitaliseWords(d)[i] == d[i]
    {
      assert IsWordChar(d[i]) <==> IsWordChar(u[i]);
      if i > 0 {
        assert IsWordChar(d[i - 1]) <==> IsWordChar(u[i - 1]);
      }
    }
  }

  /** Letters that do not start a word, and every other character but `-`, keep their case. */
  lemma DisplayNameKeepsInnerLetters(key: string, i: nat)
    requires 0 < i < |key| && IsWordChar(key[i - 1]) && key[i] != '-'
    ensures DisplayName(key)[i] == key[i]
  {
    var u := Undash(key);
    assert u[i - 1] == key[i - 1] && u[i] == key[i];
  }

  /** One entry of the model listing. */
  datatype ModelEntry = ModelEntry(id: string, name: string, displayName: string)

  /** `getHuggingFaceModels`: the table in declaration order. */
  function Models(): (r: seq<ModelEntry>)
    ensures |r| == |ModelKeys|
    ensures forall i :: 0 <= i < |r| ==>
              r[i].id == ModelKeys[i] && r[i].name == ModelIds[i] && r[i].displayName == DisplayName(ModelKeys[i])
  {
    seq(|ModelKeys|, i requires 0 <= i < |ModelKeys| => ModelEntry(ModelKeys[i], ModelIds[i], DisplayName(ModelKeys[i])))
  }

  // ---------------------------------------------------------------------------
  // Connection test

  /**
   * The connection test's answer: the HTTP status, `success`, the message,
   * `token_valid`, and the upstream status carried in the body (`status` on
   * success, `status_code` on failure, absent when the call raised).
   */
  datatype TestAnswer = TestAnswer(status: nat, success: bool, message: string, tokenValid: bool, upstream: Option<nat>)

  /**
   * `testHuggingFaceConnection`: success answers 200 and reports a valid
   * token; an upstream 503 or 429 still proves the token valid, and a 401 or
   * anything else does not. A failure answers the upstream status, or 500.
   */
  function ConnectionTest(c: Call): (r: TestAnswer)
    ensures r.success <==> c.CallAnswered? && 200 <= c.status <= 299
    ensures r.success ==> r.status == 200 && r.tokenValid && r.upstream == Some(c.status)
    ensures HasResponse(c) ==> (r.tokenValid <==> c.status == 503 || c.status == 429)
    ensures HasResponse(c) ==> r.status == (if c.status == 0 then 500 else c.status) && r.upstream == Some(c.status)
    ensures c.CallThrew? ==> !r.tokenValid && r.status == 500 && r.message == "Connection test failed" && r.upstream.None?
  {
    match c
    case CallThrew(_, _) => TestAnswer(500, false, "Connection test failed", false, None)
    case CallAnswered(status, _, _) =>
      if 200 <= status <= 299 then TestAnswer(200, true, "Hugging Face API connection successful", true, Some(status))
      else
        var code := if status == 0 then 500 else status;
        if status == 401 then TestAnswer(code, false, "Invalid API token", false, Some(status))
        else if status == 503 then TestAnswer(code, false, "Model is loading, but connection is valid", true, Some(status))
        else if status == 429 then TestAnswer(code, false, "Rate limited, but token is valid", true, Some(status))
        else TestAnswer(code, false, "Connection test failed", false, Some(status))
  }

}
