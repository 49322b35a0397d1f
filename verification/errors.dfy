/**
 * How each generation handler turns the message of the error it caught into
 * its JSON answer: a fixed list of substring tests, the first that matches
 * deciding the status and error code, else a generic answer carrying the
 * message itself.
 */
module Errors {
  import opened Wrappers
  import opened Strs
  import Chains
  import Outcomes
  import Providers

  /** The answer: HTTP status, `message`, and `error` (a code, or the caught message for the generic answer). */
  datatype ErrorReply = ErrorReply(status: nat, message: string, error: string)

  /** One `if (error.message?.includes(a) || error.message?.includes(b))` branch and the answer it returns. */
  datatype Rule = Rule(needles: seq<string>, status: nat, message: string, code: string)

  /** Some needle of the list occurs in `msg`. */
  predicate AnyOf(msg: string, needles: seq<string>)
  {
    exists i :: 0 <= i < |needles| && Contains(msg, needles[i])
  }

  /** The answer of `rule` when it fires on `msg`. */
  function Fire(msg: string, rule: Rule): (r: Option<ErrorReply>)
    ensures r.Some? <==> AnyOf(msg, rule.needles)
    ensures r.Some? ==> r.value == ErrorReply(rule.status, rule.message, rule.code)
  {
    if AnyOf(msg, rule.needles) then Some(ErrorReply(rule.status, rule.message, rule.code)) else None
  }

  /** Rule `i` is the first whose needles occur in `msg`. */
  ghost predicate FirstFiring(rules: seq<Rule>, msg: string, i: int)
  {
    0 <= i < |rules| && AnyOf(msg, rules[i].needles) && forall j :: 0 <= j < i ==> !AnyOf(msg, rules[j].needles)
  }

  /**
   * The classification: the first rule that fires answers; when none fires
   * the answer is a 500 with the handler's generic message and the caught
   * message as `error`.
   */
  function Classify(rules: seq<Rule>, generic: string, msg: string): (r: ErrorReply)
    ensures forall i :: FirstFiring(rules, msg, i) ==> r == ErrorReply(rules[i].status, rules[i].message, rules[i].code)
    ensures (forall i :: 0 <= i < |rules| ==> !AnyOf(msg, rules[i].needles)) ==> r == ErrorReply(500, generic, msg)
  {
    var f := (rule: Rule) => Fire(msg, rule);
    match Chains.FirstSome(rules, f)
    case None => ErrorReply(500, generic, msg)
    case Some(reply) =>
      assert forall i :: FirstFiring(rules, msg, i) ==> reply == ErrorReply(rules[i].status, rules[i].message, rules[i].code) by {
        forall i | FirstFiring(rules, msg, i)
          ensures reply == ErrorReply(rules[i].status, rules[i].message, rules[i].code)
        {
          var k :| 0 <= k < |rules| && f(rules[k]) == Some(reply) && Chains.IsFirst(rules, f, k);
          assert f(rules[i]).Some?;
          assert k == i;
        }
      }
      reply
  }

  const Generic: string := "Thumbnail generation failed. Please try again."

  const QuotaRule: Rule := Rule(["quota", "429"], 429, "API quota exceeded. Please try again later.", "QUOTA_EXCEEDED")

  /** Imagen 3.5 (server/controllers/ImagenThumbnailController.ts). */
  const ImagenRules: seq<Rule> := [
    Rule([Providers.ImagenWord, "provider"], 500, "Imagen 3.5 API failed. Please try again.", "IMAGEN_API_FAILED"),
    QuotaRule,
    Rule(["billing", "limit"], 429, "API billing limit reached. Please check your account.", "BILLING_LIMIT")
  ]

  /** The Gemini provider (server/dist/controllers/GeminiProviderThumbnailController.js). */
  const ProviderRules: seq<Rule> := [
    Rule(["Provider API failed", "provider"], 500, "Gemini Provider API failed. Please try again.", "PROVIDER_API_FAILED"),
    QuotaRule
  ]

  const ImageGenerationWord: string := "Image generation"

  /** Claude enhancement (server/dist/controllers/ClaudeEnhancedThumbnailController.js). */
  const ClaudeRules: seq<Rule> := [
    Rule(["Claude", "Anthropic"], 500, "Failed to enhance prompt with Claude. Please try again.", "CLAUDE_ENHANCEMENT_FAILED"),
    Rule([ImageGenerationWord], 500, "Failed to generate image. Please try again.", "IMAGE_GENERATION_FAILED")
  ]

  /** OpenAI (server/controllers/ThumbnailController.ts). */
  const OpenAiRules: seq<Rule> := [
    Rule(["billing", "quota"], 429, "OpenAI API billing limit reached. Please check your OpenAI account and add credits.", "OPENAI_BILLING_LIMIT"),
    Rule(["OpenAI", "images"], 500, "Failed to generate image with OpenAI. Please try again.", "OPENAI_GENERATION_FAILED")
  ]

  /** The handlers without substring tests answer 500 with their own message and the caught message. */
  const QwenFailed: string := "Qwen thumbnail generation failed. Please try again."
  const GptFailed: string := "GPT Image thumbnail generation failed. Please try again."
  const InfipFailed: string := "Infip thumbnail generation failed. Please try again."
  const Imagen4Failed: string := "Premium thumbnail generation failed. Please try again."
  const FlashFailed: string := "Gemini Flash thumbnail generation failed. Please try again."

  /** A handler with no rules answers 500, its message, and the caught message as `error`. */
  lemma NoRulesIsGeneric(generic: string, msg: string)
    ensures Classify([], generic, msg) == ErrorReply(500, generic, msg)
  {
  }

  /** The Imagen rules in precedence order: a message naming Imagen is an API failure whatever else it says. */
  lemma ImagenPrecedence(msg: string)
    ensures Contains(msg, Providers.ImagenWord) ==> Classify(ImagenRules, Generic, msg).error == "IMAGEN_API_FAILED"
    ensures !AnyOf(msg, ImagenRules[0].needles) && Contains(msg, "quota") ==>
              Classify(ImagenRules, Generic, msg) == ErrorReply(429, QuotaRule.message, "QUOTA_EXCEEDED")
    ensures !AnyOf(msg, ImagenRules[0].needles) && !AnyOf(msg, QuotaRule.needles) && Contains(msg, "limit") ==>
              Classify(ImagenRules, Generic, msg).error == "BILLING_LIMIT"
  {
    if Contains(msg, Providers.ImagenWord) {
      assert ImagenRules[0].needles[0] == Providers.ImagenWord;
      assert FirstFiring(ImagenRules, msg, 0);
    }
    if !AnyOf(msg, ImagenRules[0].needles) && Contains(msg, "quota") {
      assert ImagenRules[1].needles[0] == "quota";
      assert FirstFiring(ImagenRules, msg, 1);
    }
    if !AnyOf(msg, ImagenRules[0].needles) && !AnyOf(msg, QuotaRule.needles) && Contains(msg, "limit") {
      assert ImagenRules[2].needles[1] == "limit";
      assert FirstFiring(ImagenRules, msg, 2);
    }
  }

  /**
   * Every failure of Imagen generation names Imagen, so the handler always
   * answers IMAGEN_API_FAILED and never reaches the quota, billing or
   * generic branches.
   */
  lemma ImagenFailuresAreApiFailures(replies: seq<Outcomes.ApiReply>, download: Outcomes.Fetch, vertex: Outcomes.ApiReply)
    requires |replies| == 3
    ensures var r := Providers.ImagenGenerate(replies, download, vertex);
            r.Err? ==> Classify(ImagenRules, Generic, r.error) ==
                       ErrorReply(500, "Imagen 3.5 API failed. Please try again.", "IMAGEN_API_FAILED")
  {
    var r := Providers.ImagenGenerate(replies, download, vertex);
    if r.Err? {
      assert ImagenRules[0].needles[0] == Providers.ImagenWord;
      assert FirstFiring(ImagenRules, r.error, 0);
    }
  }

  /**
   * Every failure of the Claude handler's image step carries the
   * "Image generation failed: " prefix, so it is answered as a Claude
   * failure or an image failure, never with the generic answer.
   */
  lemma ClaudeFailuresAreClassified(enhanced: string, ar: Option<string>, enc: string -> string, net: string -> Outcomes.Fetch)
    ensures var r := Providers.ClaudeGenerate(enhanced, ar, enc, net);
            r.Err? ==> Classify(ClaudeRules, Generic, r.error).error in {"CLAUDE_ENHANCEMENT_FAILED", "IMAGE_GENERATION_FAILED"}
  {
    var r := Providers.ClaudeGenerate(enhanced, ar, enc, net);
    if r.Err? {
      var e := r.error;
      var w := Providers.ClaudePoll.wrap;
      assert w[..|ImageGenerationWord|] == ImageGenerationWord;
      assert e[..|ImageGenerationWord|] == w[..|ImageGenerationWord|];
      assert IsPrefix(ImageGenerationWord, e);
      assert ClaudeRules[1].needles[0] == ImageGenerationWord;
      if AnyOf(e, ClaudeRules[0].needles) {
        assert FirstFiring(ClaudeRules, e, 0);
      } else {
        assert FirstFiring(ClaudeRules, e, 1);
      }
    }
  }

  const NoOpenAiUrl: string := "No image URL received from OpenAI"

  /** A message naming OpenAI and neither billing nor quota is an OpenAI generation failure. */
  lemma OpenAiNamedClassified(msg: string)
    requires !Contains(msg, "billing") && !Contains(msg, "quota") && Contains(msg, "OpenAI")
    ensures Classify(OpenAiRules, Generic, msg) ==
              ErrorReply(500, "Failed to generate image with OpenAI. Please try again.", "OPENAI_GENERATION_FAILED")
  {
    assert OpenAiRules[0].needles == ["billing", "quota"];
    assert OpenAiRules[1].needles[0] == "OpenAI";
    assert FirstFiring(OpenAiRules, msg, 1);
  }

  /** A response without an image URL is answered as an OpenAI generation failure. */
  lemma MissingOpenAiUrlClassified()
    ensures Classify(OpenAiRules, Generic, NoOpenAiUrl).error == "OPENAI_GENERATION_FAILED"
  {
    assert 'b' !in NoOpenAiUrl && 'q' !in NoOpenAiUrl;
    ContainsInfix("No image URL received from ", "OpenAI", "");
    assert "No image URL received from " + "OpenAI" + "" == NoOpenAiUrl;
    LacksCharsClassified(NoOpenAiUrl);
  }

  /** A message naming OpenAI without the letters of `billing` or `quota` is an OpenAI generation failure. */
  lemma LacksCharsClassified(msg: string)
    requires 'b' !in msg && 'q' !in msg && Contains(msg, "OpenAI")
    ensures Classify(OpenAiRules, Generic, msg).error == "OPENAI_GENERATION_FAILED"
  {
    CharOfContained(msg, "billing", 0);
    CharOfContained(msg, "quota", 0);
    OpenAiNamedClassified(msg);
  }

}
