/**
 * The image chain of the compiled JavaScript development server
 * (server/dist/server-simple.js): three Pollinations models checked with a
 * HEAD and a GET, then a basic Pollinations URL, then a Picsum photo, then a
 * placeholder URL that needs no network at all.
 */
module PollChain {
  import opened Wrappers
  import opened Strs
  import Chains
  import Dims
  import Providers
  import opened Outcomes

  /** A `fetch` used only for its status and `content-type` header. */
  datatype Ping = PingThrew(message: string) | PingAnswered(status: nat, contentType: Option<string>)

  /** `response.ok`. */
  predicate PingOk(p: Ping)
  {
    p.PingAnswered? && 200 <= p.status <= 299
  }

  /** `response.ok && response.headers.get('content-type')?.includes('image')`. */
  predicate ServesImage(p: Ping)
  {
    PingOk(p) && p.contentType.Some? && Contains(p.contentType.value, "image")
  }

  /** One model's check: the timestamp used as its seed, the HEAD answer and the GET answer. */
  datatype Probe = Probe(model: string, seed: nat, head: Ping, get: Ping)

  const Models: seq<string> := ["flux", "flux-realism", "turbo"]

  const Enhancement: string := ", masterpiece, best quality, ultra detailed, professional, award winning, trending, viral"

  /** The probes follow the source's model list, one probe per model. */
  predicate ProbesFor(probes: seq<Probe>)
  {
    |probes| == |Models| && forall i :: 0 <= i < |probes| ==> probes[i].model == Models[i]
  }

  function ModelUrl(encoded: string, size: Dims.Dims, p: Probe): string
  {
    Providers.PollinationsUrl(encoded, size, "&model=" + p.model + "&enhance=true&nologo=true&quality=ultra&seed=" + NatToString(p.seed))
  }

  function Candidate(encoded: string, size: Dims.Dims, p: Probe): Hit
  {
    Hit(ModelUrl(encoded, size, p), "Pollinations (" + p.model + ")")
  }

  /**
   * One pass of the model loop as written: the state it leaves and whether
   * it breaks. A HEAD that serves an image sets the candidate; an ok GET then
   * breaks and a failing GET clears it; a GET that raises is caught and the
   * loop continues with the candidate still set.
   */
  function StepAsWritten(state: Option<Hit>, encoded: string, size: Dims.Dims, p: Probe): (Option<Hit>, bool)
  {
    if !ServesImage(p.head) then (state, false)
    else
      var c := Some(Candidate(encoded, size, p));
      match p.get
      case PingThrew(_) => (c, false)
      case PingAnswered(_, _) => if PingOk(p.get) then (c, true) else (None, false)
  }

  /**
   * The loop as written, from `state` over the remaining probes. Without a
   * HEAD that serves an image nothing changes; any other hit it ends with is
   * the candidate of a model whose HEAD served an image, whatever its GET did.
   */
  function LoopAsWritten(state: Option<Hit>, encoded: string, size: Dims.Dims, probes: seq<Probe>): (r: Option<Hit>)
    ensures (forall i :: 0 <= i < |probes| ==> !ServesImage(probes[i].head)) ==> r == state
    ensures r.Some? && r != state ==>
              exists i :: 0 <= i < |probes| && ServesImage(probes[i].head) && r.value == Candidate(encoded, size, probes[i])
    decreases |probes|
  {
    if |probes| == 0 then state
    else
      var (next, stop) := StepAsWritten(state, encoded, size, probes[0]);
      if stop then next
      else
        var r := LoopAsWritten(next, encoded, size, probes[1..]);
        assert forall i :: 0 <= i < |probes[1..]| ==> probes[1..][i] == probes[i + 1];
        assert next.Some? && next != state ==> ServesImage(probes[0].head) && next.value == Candidate(encoded, size, probes[0]);
        r
  }

  /** A candidate is validated when its HEAD serves an image and its GET is ok. */
  function Validated(encoded: string, size: Dims.Dims, p: Probe): (r: Option<Hit>)
    ensures r.Some? <==> ServesImage(p.head) && PingOk(p.get)
    ensures r.Some? ==> r.value == Candidate(encoded, size, p)
  {
    if ServesImage(p.head) && PingOk(p.get) then Some(Candidate(encoded, size, p)) else None
  }

  /**
   * The loop as intended: the first candidate that passed both checks, and
   * none when no candidate did.
   */
  function Loop(encoded: string, size: Dims.Dims, probes: seq<Probe>): (r: Option<Hit>)
    ensures r.None? <==> forall i :: 0 <= i < |probes| ==> !(ServesImage(probes[i].head) && PingOk(probes[i].get))
    ensures r.Some? ==> exists i :: 0 <= i < |probes| && ServesImage(probes[i].head) && PingOk(probes[i].get)
                                    && r.value == Candidate(encoded, size, probes[i])
                                    && forall j :: 0 <= j < i ==> !(ServesImage(probes[j].head) && PingOk(probes[j].get))
  {
    var f := (p: Probe) => Validated(encoded, size, p);
    var r := Chains.FirstSome(probes, f);
    assert r.None? <==> forall i :: 0 <= i < |probes| ==> f(probes[i]).None?;
    r
  }

  /** A GET that raised after a HEAD that served an image: the case the loop as written mishandles. */
  predicate GetRaisedAfterImage(p: Probe)
  {
    ServesImage(p.head) && p.get.PingThrew?
  }

  /** Where no GET raises after an image HEAD, the loop as written is the intended loop. */
  lemma {:induction false} AsWrittenAgreesWithoutRaisedGet(encoded: string, size: Dims.Dims, probes: seq<Probe>)
    requires forall i :: 0 <= i < |probes| ==> !GetRaisedAfterImage(probes[i])
    ensures LoopAsWritten(None, encoded, size, probes) == Loop(encoded, size, probes)
    decreases |probes|
  {
    if |probes| > 0 {
      var f := (p: Probe) => Validated(encoded, size, p);
      assert Loop(encoded, size, probes) == Chains.FirstSome(probes, f);
      assert Loop(encoded, size, probes[1..]) == Chains.FirstSome(probes[1..], f);
      assert forall i :: 0 <= i < |probes[1..]| ==> !GetRaisedAfterImage(probes[1..][i]) by {
        forall i | 0 <= i < |probes[1..]| ensures !GetRaisedAfterImage(probes[1..][i]) {
          assert probes[1..][i] == probes[i + 1];
        }
      }
      assert !GetRaisedAfterImage(probes[0]);
      AsWrittenAgreesWithoutRaisedGet(encoded, size, probes[1..]);
    }
  }

  /**
   * The counterexample: the first model's HEAD serves an image but its GET
   * raises, and the other two models' HEADs raise. The loop as written ends
   * with the first model's unvalidated URL; the intended loop has none, so
   * the chain would move on to the basic URL.
   */
  lemma AsWrittenKeepsUnvalidatedUrl(encoded: string, size: Dims.Dims)
    ensures var probes := [Probe("flux", 1, PingAnswered(200, Some("image/jpeg")), PingThrew("socket hang up")),
                           Probe("flux-realism", 2, PingThrew("timeout"), PingThrew("timeout")),
                           Probe("turbo", 3, PingThrew("timeout"), PingThrew("timeout"))];
            LoopAsWritten(None, encoded, size, probes) == Some(Candidate(encoded, size, probes[0]))
            && Loop(encoded, size, probes).None?
  {
    var probes := [Probe("flux", 1, PingAnswered(200, Some("image/jpeg")), PingThrew("socket hang up")),
                   Probe("flux-realism", 2, PingThrew("timeout"), PingThrew("timeout")),
                   Probe("turbo", 3, PingThrew("timeout"), PingThrew("timeout"))];
    assert Contains("image/jpeg", "image") by {
      ContainsInfix("", "image", "/jpeg");
      assert "" + "image" + "/jpeg" == "image/jpeg";
    }
    assert probes[1..][1..] == [probes[2]];
    assert [probes[2]][1..] == [];
  }

  const BasicParams: string := "&enhance=true&nologo=true&seed="
  const BasicLabel: string := "Pollinations (Basic)"
  const PicsumLabel: string := "Picsum (Fallback - Random Image)"
  const PlaceholderLabel: string := "Placeholder (Service Unavailable)"

  function PicsumUrl(size: Dims.Dims, seed: nat): string
  {
    "https://picsum.photos/" + NatToString(size.width) + "/" + NatToString(size.height) + "?random=" + NatToString(seed)
  }

  const PlaceholderHead: string := "https://via.placeholder.com/"
  const PlaceholderTail: string := "/FF6B6B/FFFFFF?text="

  function PlaceholderUrl(size: Dims.Dims, encodedTitle: string): string
  {
    PlaceholderHead + NatToString(size.width) + "x" + NatToString(size.height) + (PlaceholderTail + encodedTitle)
  }

  /** A model candidate is a Pollinations URL, never the placeholder. */
  lemma LoopShape(encoded: string, size: Dims.Dims, probes: seq<Probe>)
    requires Loop(encoded, size, probes).Some?
    ensures Loop(encoded, size, probes).value.provider != PlaceholderLabel
    ensures |Loop(encoded, size, probes).value.url| > 0
  {
    var i :| 0 <= i < |probes| && Loop(encoded, size, probes).value == Candidate(encoded, size, probes[i]);
    CandidateShape(encoded, size, probes[i]);
  }

  /** Every model candidate has a non-empty URL and a Pollinations label. */
  lemma CandidateShape(encoded: string, size: Dims.Dims, p: Probe)
    ensures Candidate(encoded, size, p).provider != PlaceholderLabel
    ensures |Candidate(encoded, size, p).url| > 0
  {
    var c := Candidate(encoded, size, p);
    assert c.provider[1] == 'o';
    assert PlaceholderLabel[1] == 'l';
    assert |c.url| >= |Providers.PollinationsBase|;
  }

  /** What the later stages met: the basic URL's seed and HEAD, Picsum's seed and HEAD. */
  datatype Later = Later(basicSeed: nat, basicHead: Ping, picsumSeed: nat, picsumHead: Ping)

  /**
   * The stages after the model loop: the loop's hit when it has one, else
   * the basic URL when its HEAD is ok, then Picsum when its HEAD is ok, then
   * the placeholder. The placeholder needs no answer, so a URL always comes
   * out and the "no fallback available" error after it cannot be raised.
   */
  function Fallbacks(first: Option<Hit>, encoded: string, size: Dims.Dims, encodedTitle: string, later: Later): (r: Hit)
    requires first.Some? ==> |first.value.url| > 0 && first.value.provider != PlaceholderLabel
    ensures |r.url| > 0
    ensures first.Some? ==> r == first.value
    ensures r.provider == PlaceholderLabel <==> first.None? && !PingOk(later.basicHead) && !PingOk(later.picsumHead)
    ensures r.provider == PlaceholderLabel ==> r.url == PlaceholderUrl(size, encodedTitle)
  {
    if first.Some? then first.value
    else if PingOk(later.basicHead) then
      assert BasicLabel[1] != PlaceholderLabel[1];
      Hit(Providers.PollinationsUrl(encoded, size, BasicParams + NatToString(later.basicSeed)), BasicLabel)
    else if PingOk(later.picsumHead) then
      assert PicsumLabel[1] != PlaceholderLabel[1];
      Hit(PicsumUrl(size, later.picsumSeed), PicsumLabel)
    else
      Hit(PlaceholderUrl(size, encodedTitle), PlaceholderLabel)
  }

  /** A hit of the loop as written, started with no candidate, is one of the model candidates. */
  lemma {:induction false} LoopAsWrittenShape(state: Option<Hit>, encoded: string, size: Dims.Dims, probes: seq<Probe>)
    requires state.Some? ==> |state.value.url| > 0 && state.value.provider != PlaceholderLabel
    ensures var r := LoopAsWritten(state, encoded, size, probes);
            r.Some? ==> |r.value.url| > 0 && r.value.provider != PlaceholderLabel
    decreases |probes|
  {
    if |probes| > 0 {
      CandidateShape(encoded, size, probes[0]);
      LoopAsWrittenShape(StepAsWritten(state, encoded, size, probes[0]).0, encoded, size, probes[1..]);
    }
  }

  /**
   * The chain of server/dist/server-simple.js as written: the model loop as
   * written, then the fallbacks. A model candidate kept by the loop wins,
   * even one whose GET raised.
   */
  function ChainAsWritten(prompt: string, title: string, ar: Option<string>, enc: string -> string,
                          probes: seq<Probe>, later: Later): (r: Hit)
    requires ProbesFor(probes)
    ensures |r.url| > 0
    ensures LoopAsWritten(None, enc(prompt + Enhancement), Dims.Pick(Dims.Landscape1792, ar), probes).Some? ==>
              r == LoopAsWritten(None, enc(prompt + Enhancement), Dims.Pick(Dims.Landscape1792, ar), probes).value
    ensures r.provider == PlaceholderLabel <==>
              LoopAsWritten(None, enc(prompt + Enhancement), Dims.Pick(Dims.Landscape1792, ar), probes).None?
              && !PingOk(later.basicHead) && !PingOk(later.picsumHead)
    ensures r.provider == PlaceholderLabel ==> r.url == PlaceholderUrl(Dims.Pick(Dims.Landscape1792, ar), enc(title))
  {
    var size := Dims.Pick(Dims.Landscape1792, ar);
    var encoded := enc(prompt + Enhancement);
    LoopAsWrittenShape(None, encoded, size, probes);
    Fallbacks(LoopAsWritten(None, encoded, size, probes), encoded, size, enc(title), later)
  }

  /**
   * The corrected chain: the same fallbacks after the corrected model loop,
   * so a candidate is kept only when its HEAD and its GET both passed.
   */
  function Chain(prompt: string, title: string, ar: Option<string>, enc: string -> string,
                 probes: seq<Probe>, later: Later): (r: Hit)
    requires ProbesFor(probes)
    ensures |r.url| > 0
    ensures Loop(enc(prompt + Enhancement), Dims.Pick(Dims.Landscape1792, ar), probes).Some? ==>
              r == Loop(enc(prompt + Enhancement), Dims.Pick(Dims.Landscape1792, ar), probes).value
    ensures r.provider == PlaceholderLabel <==>
              Loop(enc(prompt + Enhancement), Dims.Pick(Dims.Landscape1792, ar), probes).None?
              && !PingOk(later.basicHead) && !PingOk(later.picsumHead)
    ensures r.provider == PlaceholderLabel ==> r.url == PlaceholderUrl(Dims.Pick(Dims.Landscape1792, ar), enc(title))
  {
    var size := Dims.Pick(Dims.Landscape1792, ar);
    var encoded := enc(prompt + Enhancement);
    var first := Loop(encoded, size, probes);
    if first.Some? then
      LoopShape(encoded, size, probes);
      Fallbacks(first, encoded, size, enc(title), later)
    else Fallbacks(first, encoded, size, enc(title), later)
  }

  /** Where no GET raises after an image HEAD, the chain as written is the corrected chain. */
  lemma ChainAgreesWithoutRaisedGet(prompt: string, title: string, ar: Option<string>, enc: string -> string,
                                    probes: seq<Probe>, later: Later)
    requires ProbesFor(probes)
    requires forall i :: 0 <= i < |probes| ==> !GetRaisedAfterImage(probes[i])
    ensures ChainAsWritten(prompt, title, ar, enc, probes, later) == Chain(prompt, title, ar, enc, probes, later)
  {
    AsWrittenAgreesWithoutRaisedGet(enc(prompt + Enhancement), Dims.Pick(Dims.Landscape1792, ar), probes);
  }

  /** Equal placeholder URLs were made for the same size. */
  lemma PlaceholderFixesSize(s1: Dims.Dims, s2: Dims.Dims, encodedTitle: string)
    ensures PlaceholderUrl(s1, encodedTitle) == PlaceholderUrl(s2, encodedTitle) ==> s1 == s2
  {
    if PlaceholderUrl(s1, encodedTitle) == PlaceholderUrl(s2, encodedTitle) {
      Providers.DigitPairInjective(PlaceholderHead, "x", PlaceholderTail + encodedTitle,
                                   NatToString(s1.width), NatToString(s1.height), NatToString(s2.width), NatToString(s2.height));
      NatToStringInjective(s1.width, s2.width);
      NatToStringInjective(s1.height, s2.height);
    }
  }

}
