/**
 * What the outside world answers. Every HTTP request, SDK call and upload of
 * the system is replaced by the outcome it produced, given as data, so the
 * code around it becomes a pure function of those outcomes.
 */
module Outcomes {
  import opened Wrappers
  import opened JsonData
  import Strs

  /** Image bytes: received verbatim, or produced by base64-decoding a text payload. */
  datatype Bytes = Raw(bytes: seq<bv8>) | Base64Decoded(text: string)

  /** A JSON API call: it raised (network error, timeout, non-2xx status) or answered. */
  datatype ApiReply = ApiThrew(message: string) | ApiAnswered(status: nat, data: Json)

  /** A binary download with `responseType: 'arraybuffer'`. */
  datatype Fetch = FetchThrew(message: string) | FetchAnswered(status: nat, body: seq<bv8>)

  /** An SDK call (OpenAI, Google GenAI, Anthropic): it raised, or resolved to a response object. */
  type SdkReply = Result<Json>

  /** An image's final URL and the provider name the handler reports with it. */
  datatype Hit = Hit(url: string, provider: string)

  /** The Cloudinary upload of a generated file. */
  datatype Upload = Uploaded(url: string) | UploadFailed(message: string)

  /** The answer of one provider configuration, and of the download of the URL it pointed to. */
  datatype ConfigOutcome = ConfigOutcome(reply: ApiReply, download: Fetch)

  /**
   * The message JavaScript raises when code reads a property of `null` or
   * `undefined`, iterates a non-iterable or hands a non-string to
   * `Buffer.from`. The engine's exact wording is abstracted; it contains none
   * of the words the error classifiers look for.
   */
  const RuntimeTypeError: string := "TypeError: invalid operand"

  /** `response.status === 200 || response.status === 201`, the check every configuration loop makes. */
  predicate Accepted(status: nat)
  {
    status == 200 || status == 201
  }

  /**
   * `Buffer.from(payload, 'base64')`: a string payload is decoded; anything
   * else raises.
   */
  function Decode(payload: Json): (r: Option<Bytes>)
    ensures r.Some? <==> payload.JStr?
    ensures r.Some? ==> r.value == Base64Decoded(payload.s)
  {
    match payload
    case JStr(s) => Some(Base64Decoded(s))
    case _ => None
  }

  /**
   * axios's default `validateStatus`: a request's promise resolves only for a
   * 2xx status, and any other answer rejects before the caller's own status
   * test runs. `fetch` has no such rule.
   */
  predicate Resolves(status: nat)
  {
    200 <= status < 300
  }

  const RejectionPrefix: string := "Request failed with status code "

  /** The message of the error axios raises for an answer outside 2xx. */
  function Rejection(status: nat): (m: string)
    ensures |m| > |RejectionPrefix| && m[..|RejectionPrefix|] == RejectionPrefix
  {
    RejectionPrefix + Strs.NatToString(status)
  }

  /** The message names the status it was raised for. */
  lemma RejectionNamesStatus(a: nat, b: nat)
    ensures Rejection(a) == Rejection(b) <==> a == b
  {
    if Rejection(a) == Rejection(b) {
      assert Strs.NatToString(a) == Rejection(a)[|RejectionPrefix|..];
      assert Strs.NatToString(b) == Rejection(b)[|RejectionPrefix|..];
      Strs.NatToStringInjective(a, b);
    }
  }

  /**
   * A download as `await axios.get(…)` delivers it: a 2xx answer arrives, an
   * answer outside 2xx arrives as the error axios raises, a network failure
   * is unchanged.
   */
  function Got(f: Fetch): (r: Fetch)
    ensures r.FetchAnswered? <==> f.FetchAnswered? && Resolves(f.status)
    ensures r.FetchAnswered? ==> r == f
    ensures f.FetchThrew? ==> r == f
    ensures f.FetchAnswered? && !Resolves(f.status) ==> r == FetchThrew(Rejection(f.status))
  {
    match f
    case FetchAnswered(status, _) => if Resolves(status) then f else FetchThrew(Rejection(status))
    case FetchThrew(_) => f
  }

  /** An API call as `await axios.post(…)` delivers it, under the same rule. */
  function Posted(a: ApiReply): (r: ApiReply)
    ensures r.ApiAnswered? <==> a.ApiAnswered? && Resolves(a.status)
    ensures r.ApiAnswered? ==> r == a
    ensures a.ApiThrew? ==> r == a
    ensures a.ApiAnswered? && !Resolves(a.status) ==> r == ApiThrew(Rejection(a.status))
  {
    match a
    case ApiAnswered(status, _) => if Resolves(status) then a else ApiThrew(Rejection(status))
    case ApiThrew(_) => a
  }

  /** Bytes of a download that answered exactly 200. */
  function Downloaded(f: Fetch): (r: Option<Bytes>)
    ensures r.Some? <==> f.FetchAnswered? && f.status == 200
    ensures r.Some? ==> r.value == Raw(f.body)
  {
    match f
    case FetchAnswered(status, body) => if status == 200 then Some(Raw(body)) else None
    case FetchThrew(_) => None
  }

  /**
   * A caller that keeps a download only on 200 sees no difference between the
   * rejection axios raises and an answer it would have refused itself, and
   * passing an outcome through axios twice changes nothing.
   */
  lemma DownloadedThroughAxios(f: Fetch)
    ensures Downloaded(Got(f)) == Downloaded(f)
    ensures Got(Got(f)) == Got(f)
  {
  }

  /** What one extraction pass found in a response body. */
  datatype Found = ViaUrl(url: Json) | ViaBase64(payload: Json) | NoImage

  /**
   * Turning a finding into bytes: a URL is downloaded and kept only on 200, a
   * base64 payload is decoded, and nothing found gives nothing. A failed
   * download never falls back to base64.
   */
  function UseFound(found: Found, download: Fetch): (r: Option<Bytes>)
    ensures found.NoImage? ==> r.None?
    ensures found.ViaUrl? ==> r == Downloaded(download)
    ensures found.ViaBase64? ==> r == Decode(found.payload)
  {
    match found
    case ViaUrl(_) => Downloaded(download)
    case ViaBase64(p) => Decode(p)
    case NoImage => None
  }

}
