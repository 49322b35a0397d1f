/**
 * Aspect ratio → pixel size tables. Every controller carries its own table
 * written as `let width = …, height = …` followed by an `if / else if` chain
 * on the exact strings `'1:1'`, `'9:16'` and `'4:3'`.
 */
module Dims {
  import opened Wrappers

  datatype Dims = Dims(width: nat, height: nat)

  /** A table: the default (landscape) size and the sizes for the three recognised ratios. */
  datatype Table = Table(wide: Dims, square: Dims, tall: Dims, classic: Dims)

  /**
   * The chain `if (ar === '1:1') … else if (ar === '9:16') … else if (ar === '4:3') …`
   * starting from the default; an absent ratio and every other string keep the default.
   */
  function Pick(t: Table, ar: Option<string>): (d: Dims)
    ensures ar == Some("1:1") ==> d == t.square
    ensures ar == Some("9:16") ==> d == t.tall
    ensures ar == Some("4:3") ==> d == t.classic
    ensures ar !in {Some("1:1"), Some("9:16"), Some("4:3")} ==> d == t.wide
  {
    if ar == Some("1:1") then t.square
    else if ar == Some("9:16") then t.tall
    else if ar == Some("4:3") then t.classic
    else t.wide
  }

  /** The shape every table has: landscape default, square, portrait, and landscape 4:3. */
  predicate WellShaped(t: Table)
  {
    && t.wide.width > t.wide.height
    && t.square.width == t.square.height
    && t.tall.width < t.tall.height
    && t.classic.width >= t.classic.height
  }

  // server/server-simple.ts: the width and height expressions of the request body.
  const SimpleServerTs := Table(Dims(1792, 1024), Dims(1024, 1024), Dims(1024, 1792), Dims(1792, 1024))
  // server/dist/server-simple.js, GPT Image and Infip controllers.
  const Landscape1792 := Table(Dims(1792, 1024), Dims(1024, 1024), Dims(1024, 1792), Dims(1152, 896))
  const Qwen := Table(Dims(1344, 768), Dims(1024, 1024), Dims(768, 1344), Dims(1024, 768))
  const Imagen4 := Table(Dims(1536, 864), Dims(1536, 1536), Dims(864, 1536), Dims(1536, 1152))
  // Imagen 3.5, Gemini Flash's Pollinations fallback and the Universal provider.
  const Hd720 := Table(Dims(1280, 720), Dims(1024, 1024), Dims(720, 1280), Dims(1024, 768))
  const Claude := Table(Dims(1024, 576), Dims(1024, 1024), Dims(576, 1024), Dims(1024, 768))

  /** Every table orients its sizes as the ratio names say. */
  lemma TablesWellShaped()
    ensures WellShaped(SimpleServerTs) && WellShaped(Landscape1792) && WellShaped(Qwen)
    ensures WellShaped(Imagen4) && WellShaped(Hd720) && WellShaped(Claude)
  {
  }

  /** A well-shaped table hands out portrait sizes for 9:16, square ones for 1:1 and landscape ones for everything else. */
  lemma PickOrientation(t: Table, ar: Option<string>)
    requires WellShaped(t)
    ensures ar == Some("9:16") ==> Pick(t, ar).width < Pick(t, ar).height
    ensures ar == Some("1:1") ==> Pick(t, ar).width == Pick(t, ar).height
    ensures ar != Some("9:16") && ar != Some("1:1") ==> Pick(t, ar).width >= Pick(t, ar).height
  {
  }

  /**
   * server/server-simple.ts has no `4:3` case: there `4:3` gets the 16:9 default,
   * while the compiled server answers 1152×896.
   */
  lemma ClassicDiffersBetweenServers()
    ensures Pick(SimpleServerTs, Some("4:3")) == Dims(1792, 1024)
    ensures Pick(Landscape1792, Some("4:3")) == Dims(1152, 896)
  {
  }

  /** The OpenAI size string `"WxH"` of ThumbnailController. */
  datatype OpenAiSize = Size1792x1024 | Size1024x1792 | Size1024x1024

  /** `'16:9'` → 1792x1024, `'9:16'` → 1024x1792, everything else (absent included) → 1024x1024. */
  function OpenAiSizeFor(ar: Option<string>): (s: OpenAiSize)
    ensures s == Size1792x1024 <==> ar == Some("16:9")
    ensures s == Size1024x1792 <==> ar == Some("9:16")
  {
    if ar == Some("16:9") then Size1792x1024
    else if ar == Some("9:16") then Size1024x1792
    else Size1024x1024
  }

  /** The aspect ratio the Gemini provider request carries: the three known ratios, otherwise `'16:9'`. */
  function GeminiAspect(ar: Option<string>): (r: string)
    ensures r in {"16:9", "1:1", "9:16", "4:3"}
    ensures ar.Some? && ar.value in {"1:1", "9:16", "4:3"} ==> r == ar.value
    ensures ar.None? || ar.value !in {"1:1", "9:16", "4:3"} ==> r == "16:9"
  {
    if ar == Some("1:1") then "1:1"
    else if ar == Some("9:16") then "9:16"
    else if ar == Some("4:3") then "4:3"
    else "16:9"
  }

  /** Normalising twice is normalising once. */
  lemma GeminiAspectIdempotent(ar: Option<string>)
    ensures GeminiAspect(Some(GeminiAspect(ar))) == GeminiAspect(ar)
  {
  }

}
