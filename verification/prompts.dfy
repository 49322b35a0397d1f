/**
 * Prompt composition. Every generation handler builds its prompt the same
 * way: an opening sentence with the style description and the title, an
 * optional colour clause (only when `color_scheme` is truthy), an optional
 * details clause (only when the user prompt is truthy), and a closing that
 * names the aspect ratio.
 */
module Prompts {
  import opened Wrappers
  import opened Strs
  import opened Requests

  // ---------------------------------------------------------------------------
  // Description tables

  /** `stylePrompts[style]` of the controllers; an unknown style is `undefined`. */
  function StyleText(style: string): Option<string>
  {
    match style
    case "Bold & Graphic" => Some("eye-catching thumbnail, bold typography, vibrant colors, expressive facial reaction, dramatic lighting, high contrast, click-worthy composition, professional style")
    case "Tech/Futuristic" => Some("futuristic thumbnail, sleek modern design, digital UI elements, glowing accents, holographic effects, cyber-tech aesthetic, sharp lighting, high-tech atmosphere")
    case "Minimalist" => Some("minimalist thumbnail, clean layout, simple shapes, limited color palette, plenty of negative space, modern flat design, clear focal point")
    case "Photorealistic" => Some("photorealistic thumbnail, ultra-realistic lighting, natural skin tones, candid moment, DSLR-style photography, lifestyle realism, shallow depth of field")
    case "Illustrated" => Some("illustrated thumbnail, custom digital illustration, stylized characters, bold outlines, vibrant colors, creative cartoon or vector art style")
    case _ => None
  }

  /** `colorSchemeDescriptions[color_scheme]` of the controllers. */
  function ColourText(scheme: string): Option<string>
  {
    match scheme
    case "vibrant" => Some("vibrant and energetic colors, high saturation, bold contrasts, eye-catching palette")
    case "sunset" => Some("warm sunset tones, orange pink and purple hues, soft gradients, cinematic glow")
    case "forest" => Some("natural green tones, earthy colors, calm and organic palette, fresh atmosphere")
    case "neon" => Some("neon glow effects, electric blues and pinks, cyberpunk lighting, high contrast glow")
    case "purple" => Some("purple-dominant color palette, magenta and violet tones, modern and stylish mood")
    case "monochrome" => Some("black and white color scheme, high contrast, dramatic lighting, timeless aesthetic")
    case "ocean" => Some("cool blue and teal tones, aquatic color palette, fresh and clean atmosphere")
    case "pastel" => Some("soft pastel colors, low saturation, gentle tones, calm and friendly aesthetic")
    case _ => None
  }

  /** The style table of the two servers' own generate routes. */
  function ServerStyleText(style: string): Option<string>
  {
    match style
    case "Bold & Graphic" => Some("bold eye-catching YouTube thumbnail, dramatic typography, vibrant neon colors, excited facial expression, high contrast lighting, professional graphic design, click-worthy composition")
    case "Tech/Futuristic" => Some("futuristic tech YouTube thumbnail, sleek holographic UI, glowing digital elements, cyberpunk aesthetic, neon blue and purple lighting, high-tech atmosphere, modern design")
    case "Minimalist" => Some("clean minimalist YouTube thumbnail, simple elegant layout, limited color palette, plenty of white space, modern flat design, clear focal point, professional simplicity")
    case "Photorealistic" => Some("photorealistic YouTube thumbnail, studio lighting, natural expressions, DSLR photography style, professional portrait, realistic skin tones, shallow depth of field")
    case "Illustrated" => Some("custom illustrated YouTube thumbnail, cartoon character art, bold outlines, vibrant colors, digital illustration style, creative vector graphics, animated look")
    case _ => None
  }

  /** The colour table of the two servers' own generate routes. */
  function ServerColourText(scheme: string): Option<string>
  {
    match scheme
    case "vibrant" => Some("bright vibrant colors, high saturation, rainbow palette, energetic and bold, eye-catching contrast")
    case "sunset" => Some("warm sunset colors, orange pink purple gradient, golden hour lighting, cinematic glow, romantic atmosphere")
    case "forest" => Some("natural green forest colors, earthy brown tones, organic palette, fresh outdoor atmosphere, nature vibes")
    case "neon" => Some("electric neon glow, bright pink blue cyan, cyberpunk lighting, glowing effects, high contrast neon")
    case "purple" => Some("purple magenta violet theme, royal colors, elegant mood, luxury aesthetic, deep purple tones")
    case "monochrome" => Some("black and white only, high contrast, dramatic shadows, timeless classic, no color")
    case "ocean" => Some("ocean blue teal colors, aquatic theme, fresh water vibes, calm blue atmosphere, sea colors")
    case "pastel" => Some("soft pastel colors, gentle tones, cute aesthetic, low saturation, calm friendly mood")
    case _ => None
  }

  // ---------------------------------------------------------------------------
  // Composition

  /** An optional clause `pre + value + post`, appended only when its guard was truthy. */
  datatype Clause = Clause(pre: string, post: string)

  function Optional(c: Clause, v: Option<string>): string
  {
    match v
    case Some(x) => c.pre + x + c.post
    case None => ""
  }

  function ClauseLength(c: Clause, v: Option<string>): nat
  {
    if v.Some? then |c.pre| + |v.value| + |c.post| else 0
  }

  /**
   * `opening`, then the first and second optional clauses in that order, then
   * `closing`: the prompt starts with the opening, ends with the closing, and
   * each clause contributes its length exactly when it is present.
   */
  function Compose(opening: string, first: Clause, firstValue: Option<string>,
                   second: Clause, secondValue: Option<string>, closing: string): (r: string)
    ensures IsPrefix(opening, r) && IsSuffix(closing, r)
    ensures |r| == |opening| + ClauseLength(first, firstValue) + ClauseLength(second, secondValue) + |closing|
    ensures firstValue.None? && secondValue.None? ==> r == opening + closing
  {
    var r := opening + Optional(first, firstValue) + Optional(second, secondValue) + closing;
    assert r[..|opening|] == opening;
    assert r[|r| - |closing|..] == closing;
    r
  }

  /** The rendered clause value: present exactly when the request field is truthy. */
  function Guarded(field: Option<string>, render: string -> string): (r: Option<string>)
    ensures r.Some? <==> Truthy(field)
  {
    if Truthy(field) then Some(render(field.value)) else None
  }

  /** The composed text, spelled out: each clause's text appears, in order, exactly when it is present. */
  lemma ComposeText(opening: string, first: Clause, firstValue: Option<string>,
                    second: Clause, secondValue: Option<string>, closing: string)
    ensures Compose(opening, first, firstValue, second, secondValue, closing)
            == opening
               + (if firstValue.Some? then first.pre + firstValue.value + first.post else "")
               + (if secondValue.Some? then second.pre + secondValue.value + second.post else "")
               + closing
  {
  }

  /** A guarded clause is present in the prompt exactly when its field is truthy. */
  lemma GuardedLength(c: Clause, field: Option<string>, render: string -> string)
    requires |c.pre| > 0
    ensures ClauseLength(c, Guarded(field, render)) > 0 <==> Truthy(field)
  {
  }

  // ---------------------------------------------------------------------------
  // The templates

  const ServerColour: Clause := Clause(" Color scheme: ", ".")
  const ServerDetails: Clause := Clause(" Additional details: ", ".")
  const DetailColour: Clause := Clause(" ", ".")
  const DetailDetails: Clause := Clause(" ", ".")
  const CreateColour: Clause := Clause(" Use a ", " color scheme.")
  const CreateDetails: Clause := Clause(" Additional details: ", ".")

  /** `${aspect_ratio || '16:9'}`. */
  function AspectOrDefault(req: Request): string
  {
    OrDefault(req.aspectRatio, "16:9")
  }

  /** server/server-simple.ts and its compiled twin: "YouTube thumbnail: … for video titled "…"." */
  function ServerOpening(req: Request): string
    requires Valid(req)
  {
    "YouTube thumbnail: " + Interp(ServerStyleText(req.style.value)) + " for video titled \"" + req.title.value + "\"."
  }

  function ServerClosing(req: Request): string
  {
    " Professional YouTube thumbnail format, " + AspectOrDefault(req) + ServerClosingTail
  }

  const ServerClosingTail: string :=
    " aspect ratio, ultra high quality, trending design, viral thumbnail style, professional composition, sharp details, perfect for YouTube."

  function ServerPrompt(req: Request): (r: string)
    requires Valid(req)
    ensures IsPrefix(ServerOpening(req), r) && IsSuffix(ServerClosing(req), r)
    ensures |r| == |ServerOpening(req)| + |ServerClosing(req)|
                   + (if Truthy(req.colorScheme) then |ServerColour.pre + ServerColour.post| + |Interp(ServerColourText(req.colorScheme.value))| else 0)
                   + (if Truthy(req.userPrompt) then |ServerDetails.pre + ServerDetails.post| + |req.userPrompt.value| else 0)
    ensures r == ServerOpening(req)
                 + (if Truthy(req.colorScheme) then " Color scheme: " + Interp(ServerColourText(req.colorScheme.value)) + "." else "")
                 + (if Truthy(req.userPrompt) then " Additional details: " + req.userPrompt.value + "." else "")
                 + ServerClosing(req)
  {
    var colour := Guarded(req.colorScheme, (c: string) => Interp(ServerColourText(c)));
    var details := Guarded(req.userPrompt, (u: string) => u);
    ComposeText(ServerOpening(req), ServerColour, colour, ServerDetails, details, ServerClosing(req));
    Compose(ServerOpening(req), ServerColour, colour, ServerDetails, details, ServerClosing(req))
  }

  /**
   * The detailed template of the provider controllers: `head` + style + ` for "title".`,
   * then ` colour.` and ` details.`, then ` Aspect ratio AR.` and the controller's suffix.
   */
  function DetailOpening(head: string, req: Request): string
    requires Valid(req)
  {
    head + Interp(StyleText(req.style.value)) + " for \"" + req.title.value + "\"."
  }

  function DetailClosing(suffix: string, req: Request): string
  {
    " Aspect ratio " + AspectOrDefault(req) + "." + suffix
  }

  function DetailPrompt(head: string, suffix: string, req: Request): (r: string)
    requires Valid(req)
    ensures IsPrefix(DetailOpening(head, req), r) && IsSuffix(DetailClosing(suffix, req), r)
    ensures |r| == |DetailOpening(head, req)| + |DetailClosing(suffix, req)|
                   + (if Truthy(req.colorScheme) then 2 + |Interp(ColourText(req.colorScheme.value))| else 0)
                   + (if Truthy(req.userPrompt) then 2 + |req.userPrompt.value| else 0)
    ensures r == DetailOpening(head, req)
                 + (if Truthy(req.colorScheme) then " " + Interp(ColourText(req.colorScheme.value)) + "." else "")
                 + (if Truthy(req.userPrompt) then " " + req.userPrompt.value + "." else "")
                 + DetailClosing(suffix, req)
  {
    var colour := Guarded(req.colorScheme, (c: string) => Interp(ColourText(c)));
    var details := Guarded(req.userPrompt, (u: string) => u);
    ComposeText(DetailOpening(head, req), DetailColour, colour, DetailDetails, details, DetailClosing(suffix, req));
    Compose(DetailOpening(head, req),
      DetailColour, Guarded(req.colorScheme, (c: string) => Interp(ColourText(c))),
      DetailDetails, Guarded(req.userPrompt, (u: string) => u),
      DetailClosing(suffix, req))
  }

  const MasterpieceHead: string := "Professional YouTube thumbnail masterpiece: "
  const ProfessionalHead: string := "Professional YouTube thumbnail: "

  const QwenSuffix: string := " Ultra-high quality, professional design, click-worthy, viral thumbnail, trending on YouTube, award-winning composition."
  const GptSuffix: string := " Ultra-high quality, professional design, click-worthy, viral thumbnail, trending on YouTube, award-winning composition, photorealistic quality."
  const Imagen4Suffix: string := " Ultra-premium quality, award-winning design, viral thumbnail, maximum engagement, trending on YouTube, professional studio quality."
  const ImagenSuffix: string := " Ultra-high quality, professional photography, perfect composition, trending design, maximum click-through appeal."
  const FlashSuffix: string := " High-quality, professional design, click-worthy, trending on YouTube."
  const UniversalSuffix: string := " Ultra-high quality, professional, click-worthy design, trending on YouTube."

  /** "Create a … for: "title"" of the Gemini provider and OpenAI controllers, with the ratio printed raw. */
  function CreateOpening(req: Request): string
    requires Valid(req)
  {
    "Create a " + Interp(StyleText(req.style.value)) + " for: \"" + req.title.value + "\""
  }

  const CreateClosingTail: string :=
    ", visually stunning, and designed to maximize click-through rate. Make it bold, professional, and impossible to ignore."

  function CreateClosing(req: Request): string
  {
    " The thumbnail should be " + Interp(req.aspectRatio) + CreateClosingTail
  }

  function CreatePrompt(req: Request): (r: string)
    requires Valid(req)
    ensures IsPrefix(CreateOpening(req), r) && IsSuffix(CreateClosing(req), r)
    ensures |r| == |CreateOpening(req)| + |CreateClosing(req)|
                   + (if Truthy(req.colorScheme) then |CreateColour.pre + CreateColour.post| + |Interp(ColourText(req.colorScheme.value))| else 0)
                   + (if Truthy(req.userPrompt) then |CreateDetails.pre + CreateDetails.post| + |req.userPrompt.value| else 0)
    ensures r == CreateOpening(req)
                 + (if Truthy(req.colorScheme) then " Use a " + Interp(ColourText(req.colorScheme.value)) + " color scheme." else "")
                 + (if Truthy(req.userPrompt) then " Additional details: " + req.userPrompt.value + "." else "")
                 + CreateClosing(req)
  {
    var colour := Guarded(req.colorScheme, (c: string) => Interp(ColourText(c)));
    var details := Guarded(req.userPrompt, (u: string) => u);
    ComposeText(CreateOpening(req), CreateColour, colour, CreateDetails, details, CreateClosing(req));
    Compose(CreateOpening(req), CreateColour, colour, CreateDetails, details, CreateClosing(req))
  }

  /**
   * With no ratio in the request, the "Create a" template prints the word
   * `undefined` where the ratio belongs; the other templates print `16:9`.
   */
  lemma MissingRatioPrinted(req: Request)
    requires Valid(req) && req.aspectRatio.None?
    ensures Contains(CreatePrompt(req), " The thumbnail should be " + "undefined")
    ensures Contains(DetailPrompt(ProfessionalHead, FlashSuffix, req), " Aspect ratio " + "16:9")
  {
    CreateShowsUndefined(req);
    DetailShowsDefault(req);
  }

  lemma CreateShowsUndefined(req: Request)
    requires Valid(req) && req.aspectRatio.None?
    ensures Contains(CreatePrompt(req), " The thumbnail should be " + "undefined")
  {
    var r := CreatePrompt(req);
    assert CreateClosing(req) == (" The thumbnail should be " + "undefined") + CreateClosingTail;
    EndsWithInfix(r, " The thumbnail should be " + "undefined", CreateClosingTail);
  }

  lemma DetailShowsDefault(req: Request)
    requires Valid(req) && req.aspectRatio.None?
    ensures Contains(DetailPrompt(ProfessionalHead, FlashSuffix, req), " Aspect ratio " + "16:9")
  {
    DetailShowsRatio(ProfessionalHead, FlashSuffix, req);
  }

  /** Every detailed prompt names its ratio, defaulted, after ` Aspect ratio `. */
  lemma DetailShowsRatio(head: string, suffix: string, req: Request)
    requires Valid(req)
    ensures Contains(DetailPrompt(head, suffix, req), " Aspect ratio " + AspectOrDefault(req))
  {
    EndsWithFourParts(DetailPrompt(head, suffix, req), " Aspect ratio ", AspectOrDefault(req), ".", suffix);
  }

  /** A string that ends with `a + b + c + d` contains `a + b`. */
  lemma EndsWithFourParts(r: string, a: string, b: string, c: string, d: string)
    requires IsSuffix(a + b + c + d, r)
    ensures Contains(r, a + b)
  {
    assert a + b + c + d == (a + b) + (c + d);
    EndsWithInfix(r, a + b, c + d);
  }

  /** A string that ends with `a + b` contains `a`. */
  lemma EndsWithInfix(r: string, a: string, b: string)
    requires IsSuffix(a + b, r)
    ensures Contains(r, a)
  {
    var k := |r| - |a + b|;
    assert r == r[..k] + a + b by {
      assert r[k..] == a + b;
    }
    ContainsInfix(r[..k], a, b);
  }

  /** HuggingFaceImageController: the title and the raw style name. */
  function HfOpening(req: Request): string
    requires Valid(req)
  {
    "YouTube thumbnail for \"" + req.title.value + "\", style: " + req.style.value
  }

  const HfTail: string := ", high quality, professional, 8k resolution"

  /**
   * HuggingFaceImageController: the raw user prompt and colour name, the
   * user prompt first, each appended only when truthy.
   */
  function HfPrompt(req: Request): (r: string)
    requires Valid(req)
    ensures IsPrefix(HfOpening(req), r) && IsSuffix(HfTail, r)
    ensures Truthy(req.userPrompt) && Truthy(req.colorScheme) ==>
              r == HfOpening(req) + ", " + req.userPrompt.value + ", color scheme: " + req.colorScheme.value + HfTail
    ensures Truthy(req.userPrompt) && !Truthy(req.colorScheme) ==>
              r == HfOpening(req) + ", " + req.userPrompt.value + HfTail
    ensures !Truthy(req.userPrompt) && Truthy(req.colorScheme) ==>
              r == HfOpening(req) + ", color scheme: " + req.colorScheme.value + HfTail
    ensures !Truthy(req.userPrompt) && !Truthy(req.colorScheme) ==> r == HfOpening(req) + HfTail
    ensures |r| == |HfOpening(req)| + |HfTail|
                   + (if Truthy(req.userPrompt) then 2 + |req.userPrompt.value| else 0)
                   + (if Truthy(req.colorScheme) then 16 + |req.colorScheme.value| else 0)
  {
    var first := Guarded(req.userPrompt, (u: string) => u);
    var second := Guarded(req.colorScheme, (c: string) => c);
    ComposeBare(HfOpening(req), ", ", first, ", color scheme: ", second, HfTail);
    Compose(HfOpening(req), Clause(", ", ""), first, Clause(", color scheme: ", ""), second, HfTail)
  }

  /** Composing two clauses that have nothing after their value, case by case. */
  lemma ComposeBare(opening: string, pre1: string, v1: Option<string>, pre2: string, v2: Option<string>, closing: string)
    ensures var r := Compose(opening, Clause(pre1, ""), v1, Clause(pre2, ""), v2, closing);
            && (v1.Some? && v2.Some? ==> r == opening + pre1 + v1.value + pre2 + v2.value + closing)
            && (v1.Some? && v2.None? ==> r == opening + pre1 + v1.value + closing)
            && (v1.None? && v2.Some? ==> r == opening + pre2 + v2.value + closing)
            && (v1.None? && v2.None? ==> r == opening + closing)
  {
    var o1 := Optional(Clause(pre1, ""), v1);
    var o2 := Optional(Clause(pre2, ""), v2);
    if v1.Some? { assert o1 == pre1 + v1.value; }
    if v2.Some? { assert o2 == pre2 + v2.value; }
    if v1.Some? && v2.Some? {
      assert opening + o1 + o2 + closing == opening + pre1 + v1.value + pre2 + v2.value + closing;
    }
    if v1.Some? && v2.None? {
      assert opening + o1 + o2 + closing == opening + pre1 + v1.value + closing;
    }
    if v1.None? && v2.Some? {
      assert opening + o1 + o2 + closing == opening + pre2 + v2.value + closing;
    }
  }

  const ClaudeOpening: string := "Create a "
  const ForQuote: string := " for \""
  const QuoteWith: string := "\" with "
  const ClaudeFallbackClosing: string := " color scheme. Make it professional and click-worthy."

  /** `Create a ${style} for "${title}" with ${colour} color scheme. Make it professional and click-worthy.` */
  function ClaudeFallbackText(style: string, title: string, colour: string): (r: string)
    ensures r == ClaudeOpening + style + ForQuote + title + QuoteWith + colour + ClaudeFallbackClosing
    ensures IsPrefix(ClaudeOpening + style, r)
    ensures IsSuffix(ClaudeFallbackClosing, r)
    ensures Contains(r, ForQuote + title + QuoteWith + colour)
  {
    var head := ClaudeOpening + style;
    var middle := ForQuote + title + QuoteWith + colour;
    ContainsInfix(head, middle, ClaudeFallbackClosing);
    head + middle + ClaudeFallbackClosing
  }

  /** With the style and colour fixed, the fallback prompt determines the title it was built for. */
  lemma ClaudeFallbackDeterminesTitle(style: string, colour: string, t1: string, t2: string)
    ensures ClaudeFallbackText(style, t1, colour) == ClaudeFallbackText(style, t2, colour) <==> t1 == t2
  {
    var head := ClaudeOpening + style + ForQuote;
    var tail := QuoteWith + colour + ClaudeFallbackClosing;
    assert ClaudeFallbackText(style, t1, colour) == head + t1 + tail;
    assert ClaudeFallbackText(style, t2, colour) == head + t2 + tail;
    FrameCancels(head, t1, t2, tail);
  }

  /**
   * ClaudeEnhancedThumbnailController's fixed prompt when the enhancement call
   * fails; the colour defaults to `vibrant` when the request has none.
   */
  function ClaudeFallbackPrompt(req: Request): (r: string)
    requires Valid(req)
    ensures IsPrefix(ClaudeOpening + Interp(StyleText(req.style.value)), r)
    ensures IsSuffix(ClaudeFallbackClosing, r)
    ensures Contains(r, ForQuote + req.title.value + QuoteWith + Interp(ColourText(OrDefault(req.colorScheme, "vibrant"))))
    ensures Truthy(req.colorScheme) ==>
              r == ClaudeFallbackText(Interp(StyleText(req.style.value)), req.title.value, Interp(ColourText(req.colorScheme.value)))
    ensures !Truthy(req.colorScheme) ==>
              r == ClaudeFallbackText(Interp(StyleText(req.style.value)), req.title.value, Interp(ColourText("vibrant")))
  {
    ClaudeFallbackText(Interp(StyleText(req.style.value)), req.title.value,
      Interp(ColourText(OrDefault(req.colorScheme, "vibrant"))))
  }

}
