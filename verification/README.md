# Thumbnail generator: decision core in Dafny

This project models the decision logic of a YouTube-thumbnail generator. The
system is an Express/TypeScript server with a React client. Every generation
handler follows the same steps:

- It validates the request (`title` and `style`).
- It creates a thumbnail record with `isGenerating` set.
- It builds a prompt from fixed style and colour tables.
- It asks one or more image services in a fixed order.
- It extracts an image URL or a base64 payload from the JSON answer.
- It uploads the bytes and ends the record with one terminal update.
- On failure it classifies the error message into an HTTP answer.

Around the handlers sit the following:

- a per-user rate limiter and an in-memory queue;
- owner-scoped list, poll and delete routes;
- the CORS origin check;
- the pure helpers of the client's "My Generations" page.

All network, SDK, storage and clock effects are replaced by the outcomes they
produced, passed in as data:

- `Outcomes.ApiReply` and `Outcomes.Fetch` for HTTP calls;
- `Outcomes.SdkReply` for SDK calls;
- `Outcomes.Upload` for the Cloudinary upload;
- `Providers.ClaudeReply` for the Anthropic call;
- `HfStages.HttpReply` and `HfController.Call` for the Hugging Face calls;
- `PollChain.Ping` for HEAD and GET checks.

An outcome records what the server answered. axios rejects any answer outside
2xx before the caller's own status test runs, with `Request failed with status
code N`. `Outcomes.Got` and `Outcomes.Posted` apply that rule wherever a
controller calls axios. The `fetch` calls of the development servers keep every
status.

With those inputs, every handler is a pure function of its inputs. The
record collection is a sequence of `Jobs.Thumbnail` records. Parsed JSON
bodies are the abstract `JsonData.Json` value, and property paths are read
with JavaScript's optional chaining and truthiness.

Modules, in dependency order:

- `Wrappers`, `Strs`, `Chains`: `Option`/`Result`, substring and digit helpers, and the "first success wins" fold.
- `Requests`, `JsonData`, `Outcomes`: the request body, JSON paths, and the outcome types.
- `Extraction`, `Dims`, `Prompts`: where each controller looks for the image, its size tables, and its prompt templates.
- `Providers`, `HfStages`, `PollChain`: the provider chains of every controller and of the two development servers.
- `Errors`, `Jobs`, `Handlers`: error classification, the record store and routes, and the generation handlers.
- `HfController`, `RateLimiter`, `Queue`, `Cors`, `Gallery`: the remaining pieces.

## Model

| member | source | states |
|---|---|---|
| Chains.FirstSome | server/controllers/QwenImageController.ts:168-250 | An ordered loop that returns at its first success gives nothing exactly when every try fails. Otherwise it gives the result of a try that succeeds and before which every try failed. |
| Chains.FirstSomeAppend | server/server-simple.ts:530-539 | Trying one list and then a second, only when the first produced nothing, equals trying the two lists as one. |
| Chains.FirstSomeNested | server/dist/controllers/UniversalProviderController.js:53-127 | Nested loops that return from the innermost body behave as one loop over the flattened order. |
| JsonData.Step | server/controllers/QwenImageController.ts:192-196 | One optional-chaining access is defined on an object exactly when the key exists, and on an array exactly when the index is in range. On `null`, booleans and numbers it is `undefined`. |
| JsonData.LookupAppend | server/controllers/QwenImageController.ts:192-196 | Reading a path `p + q` is reading `p` and then reading `q` from where `p` ended. |
| JsonData.LookupUndefinedPrefix | server/controllers/QwenImageController.ts:192-196 | Once a path is undefined, every longer path through it is undefined. |
| JsonData.TruthyAt | server/controllers/QwenImageController.ts:200-205 | Gives a value exactly when the path is present and its value is truthy. |
| JsonData.FirstTruthy | server/controllers/QwenImageController.ts:200-205 | An `a \|\| b \|\| …` chain of paths gives nothing exactly when every path is absent or falsy. Otherwise it gives a truthy value found at some path, and every earlier path is absent or falsy. |
| JsonData.FirstTruthyAppend | server/controllers/QwenImageController.ts:199-214 | Splitting one `\|\|` chain into two chains joined by `\|\|` gives the same value. |
| Outcomes.Decode | server/controllers/QwenImageController.ts:231-233 | A base64 payload gives bytes exactly when it is a string. |
| Outcomes.Downloaded | server/controllers/QwenImageController.ts:218-230 | A download gives bytes exactly when it answered 200, and they are the body. |
| Outcomes.Got | server/controllers/ThumbnailController.ts:120-127 | `await axios.get` delivers a 2xx answer unchanged. An answer outside 2xx arrives as the raise `Request failed with status code N`, and a network failure is unchanged. |
| Outcomes.Posted | server/controllers/ImagenThumbnailController.ts:77-95 | `await axios.post` follows the same rule, so an endpoint answering outside 2xx raises into the loop's `catch`. |
| Outcomes.RejectionNamesStatus | server/controllers/ThumbnailController.ts:120-127 | Two rejection messages are equal exactly when they were raised for the same status. |
| Outcomes.DownloadedThroughAxios | server/controllers/QwenImageController.ts:219-230 | A caller that keeps a download only on 200 gets the same result with or without axios's rejection. Applying the rule twice changes nothing. |
| Outcomes.UseFound | server/controllers/QwenImageController.ts:216-234 | A URL is used only through its download, and base64 only through decoding. Finding nothing gives nothing. A failed download never falls back to base64. |
| Extraction.UrlThenBase64 | server/controllers/QwenImageController.ts:199-234 | A URL is chosen exactly when some URL path is truthy, and it is the first truthy one. Base64 is read only when every URL path is falsy. Nothing is found exactly when every path is falsy. |
| Extraction.QwenFound | server/controllers/QwenImageController.ts:191-214 | The Qwen extraction as written: the DashScope `if/else` pair, then the standard chain, then base64. Its order is stated by Extraction.QwenPrecedence. |
| Extraction.QwenPrecedence | server/controllers/QwenImageController.ts:191-214 | The DashScope `if/else` pair followed by the standard chain is one precedence list of eight URL paths, DashScope first. |
| Extraction.OpenAiStyleFound | server/controllers/GPTImageController.ts:189-227 | The GPT and Infip extraction as written. Its order is stated by Extraction.OpenAiStylePrecedence and Extraction.InfipExtendsGpt. |
| Extraction.OpenAiStylePrecedence | server/controllers/GPTImageController.ts:189-227 | `data[0].url` wins, then `data[0].b64_json`. The alternative paths are read only when both are falsy, URL before base64. Nothing is found exactly when all paths are falsy. |
| Extraction.InfipExtendsGpt | server/controllers/InfipImageController.ts:175-195 | Whenever GPT's chain finds a URL, Infip's longer chain finds the same one. Where GPT finds nothing, Infip finds something only through its extra `image` or `b64_json` path. |
| Extraction.IfElseChainIsFirstTruthy | server/controllers/Imagen4ThumbnailController.ts:160-182 | An `if / else if` chain over paths picks the same value as the `\|\|` chain over them. |
| Extraction.Imagen4Found | server/controllers/Imagen4ThumbnailController.ts:160-203 | The Imagen 4 extraction as written, with both `if/else` chains computed. Its order is stated by Extraction.Imagen4Precedence and Extraction.IfElseChainIsFirstTruthy. |
| Extraction.Imagen4Precedence | server/controllers/Imagen4ThumbnailController.ts:160-203 | Imagen 4 takes the first of its six URL paths, and only then the first of its three base64 paths. |
| Extraction.ScanItems | server/dist/controllers/GeminiFlashImageController.js:153-162 | The parts loop finds the first part with truthy `inlineData`, with no `null` part before it. It finds nothing exactly when no part is `null` and none carries `inlineData`. |
| Extraction.ScanParts | server/dist/controllers/GeminiFlashImageController.js:154-155 | Iterating `parts`: an array is scanned, a string yields nothing, and other values raise. |
| Extraction.FlashFound | server/dist/controllers/GeminiFlashImageController.js:153-191 | A part scan that raises gives nothing. Truthy inline data wins. Without it, the first truthy URL path is used, and base64 is read only when every URL path is falsy. Nothing is found exactly when the scan raises or no inline data, URL or base64 path is truthy. |
| Extraction.UniversalFound | server/dist/controllers/UniversalProviderController.js:102-119 | When the mixed chain's first truthy value is a string, it is the URL found. When it is another value with a truthy `.data`, that `.data` is the base64 payload. Nothing is found exactly when the chain is empty or ends on a non-string without a truthy `.data`. |
| Dims.Pick | server/controllers/QwenImageController.ts:38-48 | `1:1`, `9:16` and `4:3` get their table entries. Every other ratio, and a missing one, gets the default. |
| Dims.PickOrientation | server/controllers/GPTImageController.ts:38-48 | A table with the shape of every controller's gives portrait for `9:16`, square for `1:1`, and landscape otherwise. |
| Dims.TablesWellShaped | server/controllers/Imagen4ThumbnailController.ts:33-43 | Each controller's table has that shape. |
| Dims.ClassicDiffersBetweenServers | server/server-simple.ts:344-345 | The TypeScript server gives `4:3` the 1792×1024 default, while the compiled server gives 1152×896. |
| Dims.OpenAiSizeFor | server/controllers/ThumbnailController.ts:89-97 | 1792x1024 exactly for `16:9`, 1024x1792 exactly for `9:16`, and 1024x1024 otherwise. |
| Dims.GeminiAspect | server/dist/controllers/GeminiProviderThumbnailController.js:28-37 | The three known ratios map to themselves, and everything else maps to `16:9`. |
| Dims.GeminiAspectIdempotent | server/dist/controllers/GeminiProviderThumbnailController.js:28-37 | Normalising twice is normalising once. |
| Prompts.Compose | server/controllers/QwenImageController.ts:335-344 | A prompt starts with its opening and ends with its closing. Each optional clause adds its length exactly when present. |
| Prompts.Guarded | server/controllers/QwenImageController.ts:337-342 | A clause is present exactly when its request field is truthy. |
| Prompts.ServerPrompt | server/server-simple.ts:300-311 | The development servers' prompt is exactly: the style-and-title sentence, then ` Color scheme: ` and the colour description when `color_scheme` is truthy, then ` Additional details: ` and the user prompt when it is truthy, then the format sentence naming the ratio (default `16:9`). Its length follows. |
| Prompts.DetailPrompt | server/controllers/QwenImageController.ts:335-344 | The same for the provider controllers' template. The opening has the style and title. Then come the colour description and the user prompt, each after a space, ended by `.`, and each only when truthy. Then ` Aspect ratio ` with the default `16:9`, and the controller's suffix. |
| Prompts.CreatePrompt | server/controllers/ThumbnailController.ts:75-84 | The same for the "Create a …" template: ` Use a … color scheme.` and ` Additional details: ….` when truthy, then the closing that prints the ratio with no default. |
| Prompts.MissingRatioPrinted | server/controllers/ThumbnailController.ts:84 | With no ratio, the "Create a" template contains the word `undefined` where the ratio belongs, while the detailed template contains `16:9`. |
| Prompts.DetailShowsRatio | server/controllers/QwenImageController.ts:343 | Every detailed prompt names the request's ratio, or `16:9` when it is falsy, right after ` Aspect ratio `. |
| Prompts.HfPrompt | server/controllers/HuggingFaceImageController.ts:47-50 | The prompt is the title-and-style opening, then `, ` and the user prompt when truthy, then `, color scheme: ` and the colour name when truthy, then the quality suffix. This is stated exactly for each of the four cases. |
| Prompts.ClaudeFallbackText | server/dist/controllers/ClaudeEnhancedThumbnailController.js:69 | The fixed prompt is exactly `Create a <style> for "<title>" with <colour> color scheme. Make it professional and click-worthy.` |
| Prompts.ClaudeFallbackDeterminesTitle | server/dist/controllers/ClaudeEnhancedThumbnailController.js:69 | For a fixed style and colour, two fallback prompts are equal exactly when their titles are. The title is carried into the text intact. |
| Prompts.ClaudeFallbackPrompt | server/dist/controllers/ClaudeEnhancedThumbnailController.js:66-70 | When enhancement fails, the prompt is the fixed text for the style description, the request's title and the colour description, with the colour defaulting to `vibrant`. |
| Providers.Wrap | server/controllers/QwenImageController.ts:252-255 | A rethrow under a prefix keeps success unchanged and prefixes the message of a failure. |
| Providers.ConfigAttempt | server/controllers/QwenImageController.ts:183-236 | A configuration yields bytes only after a 200/201 answer with a finding. After such an answer, the result is the finding turned into bytes. |
| Providers.ConfigLoop | server/controllers/QwenImageController.ts:168-250 | The loop fails, with its own message, exactly when every configuration fails. Otherwise it gives the bytes of the first configuration that succeeds. |
| Providers.ConfigLoopFirstDecides | server/controllers/QwenImageController.ts:168-247 | A failed configuration in front changes nothing, and a successful one decides. |
| Providers.Primary | server/controllers/QwenImageController.ts:250-254 | A configuration-loop provider fails exactly when every configuration fails, with the message `prefix + "All … configurations failed"`. |
| Providers.PollinationsUrlFixesSize | server/controllers/QwenImageController.ts:276 | Equal Pollinations URLs for the same prompt and parameters were built for the same size. |
| Providers.Pollinations | server/controllers/QwenImageController.ts:259-292 | A fallback succeeds exactly when its download answers 200, with the body. A raise keeps its message, and an answer outside 2xx gives axios's `Request failed with status code N`. Only a 2xx other than 200 gives the controller's own `failed` message. Every error carries the fallback's prefix. |
| Providers.WithFallback | server/controllers/QwenImageController.ts:349-360 | `try primary catch fallback` succeeds exactly when either succeeds. The primary wins and is reported under its own name. Only the fallback's error propagates. |
| Providers.ConfigThenPollinations | server/controllers/QwenImageController.ts:349-360 | A configuration-loop controller's chain: the primary's bytes when it succeeds, else the Pollinations outcome under the fallback name. |
| Providers.QwenGenerate | server/controllers/QwenImageController.ts:349-360 | A successful configuration gives its bytes under `Qwen Image`. When all six configurations fail, the Pollinations fallback decides. Its bytes come under `Enhanced Pollinations (Qwen Fallback)`, and that label appears exactly in this case. The result is an error exactly when the configurations and the fallback all fail, and the error is the fallback's prefixed error. |
| Providers.GptGenerate | server/controllers/GPTImageController.ts:342-353 | The same for GPT Image: a configuration's bytes under `GPT Image 1.5`, otherwise the fallback's bytes under `Enhanced Pollinations (GPT Image Fallback)`. The result is an error exactly when both fail, and the error is the fallback's. |
| Providers.InfipGenerate | server/controllers/InfipImageController.ts:330-341 | The same for Infip: a configuration's bytes under `Infip`, otherwise the fallback's bytes under `Enhanced Pollinations (Infip Fallback)`. The result is an error exactly when both fail, and the error is the fallback's. |
| Providers.Imagen4Generate | server/controllers/Imagen4ThumbnailController.ts:316-327 | The same for Imagen 4's four configurations: a configuration's bytes under `Google Imagen 4`, otherwise the fallback's bytes under `Enhanced Pollinations (Imagen 4 Fallback)`. The result is an error exactly when both fail, and the error is the fallback's. |
| Providers.DirectGemini | server/dist/controllers/GeminiProviderThumbnailController.js:83-118 | Direct Gemini succeeds exactly with the decoded data of the first part carrying `inlineData`. Whenever that part's data decodes, the result is those bytes. Missing parts and a parts list without inline data give their own messages. An SDK error is rethrown under the prefix, and every error carries it. |
| Providers.ProviderAttempt | server/dist/controllers/GeminiProviderThumbnailController.js:56-74 | The provider call yields bytes exactly when it answered 200, named a URL at `data[0].url` or `url`, and the download answered 200. The bytes are then the download's body. |
| Providers.GeminiProviderGenerate | server/dist/controllers/GeminiProviderThumbnailController.js:75-80 | Any provider failure goes to direct Gemini, and every error is prefixed `All image generation methods failed: `. |
| Providers.FlashDirect | server/dist/controllers/GeminiFlashImageController.js:212-248 | Gemini Flash's direct tier yields the first inline part's bytes whenever they decode. Every error carries `Direct Gemini failed: `, and an SDK error is kept after it. |
| Providers.FlashGenerate | server/dist/controllers/GeminiFlashImageController.js:318-336 | Each tier runs only when the one before it failed, and each success gives that tier's bytes under its label: configurations, then direct Gemini, then Pollinations. The result is an error exactly when all three tiers fail, and the error is the Pollinations tier's. |
| Providers.StopIndex | server/controllers/ImagenThumbnailController.ts:75-97 | The endpoint loop stops at the first answer of exactly 200. |
| Providers.LastThrown | server/controllers/ImagenThumbnailController.ts:77-95 | `lastError` is present exactly when some endpoint raised, counting axios's rejection of an answer outside 2xx. When the last endpoint raised, it holds that message. |
| Providers.EndpointLoop | server/controllers/ImagenThumbnailController.ts:75-101 | The loop ends holding a 200 response exactly when some endpoint answered 200, and then it holds the first such answer. Any response it holds resolved. `lastError` is the last raise before the stop. |
| Providers.ImagenPrimary | server/controllers/ImagenThumbnailController.ts:99-131 | The provider path yields bytes exactly when the first 200 answer has a URL at one of the four paths and its download answers 200. Whenever the first 200 answer has a URL, the result is that download's bytes or nothing. |
| Providers.Vertex | server/controllers/ImagenThumbnailController.ts:143-189 | Vertex succeeds exactly when the call resolves and `predictions[0].bytesBase64Encoded` is truthy and decodes. A raise keeps its message, an answer outside 2xx gives axios's rejection, and every error is prefixed `All Imagen generation methods failed: `. |
| Providers.ImagenGenerate | server/controllers/ImagenThumbnailController.ts:133-139 | Any provider-path failure goes to Vertex, and every resulting error names Imagen. |
| Providers.PrefixNamesImagen | server/controllers/ImagenThumbnailController.ts:187 | Every message under the Vertex prefix contains `Imagen`. |
| Providers.UniversalAttempt | server/dist/controllers/UniversalProviderController.js:99-125 | Only a 200 answer with a finding yields bytes. A string finding yields exactly the downloaded body when its download answers 2xx, and nothing when the download raises or axios rejects it. A `.data` finding yields its decoding. |
| Providers.ProviderLoop | server/dist/controllers/UniversalProviderController.js:53-127 | A provider without a key yields nothing. A keyed provider's endpoint loop around its format loop is one loop over the flattened (endpoint, format) pairs. |
| Providers.UniversalLoop | server/dist/controllers/UniversalProviderController.js:53-127 | The provider loop finds nothing exactly when every provider finds nothing, and nothing when no provider has a key. Whatever it finds comes from a keyed provider. |
| Providers.UniversalLoopOrder | server/dist/controllers/UniversalProviderController.js:53-57 | A provider without a key is skipped. A keyed provider tries its endpoint × format pairs in row order before the next provider. |
| Providers.UniversalGenerate | server/dist/controllers/UniversalProviderController.js:24-142 | The first successful pair wins when the key is set. Otherwise Pollinations decides, and its errors are wrapped twice. |
| Providers.OpenAiGenerate | server/controllers/ThumbnailController.ts:102-129 | DALL-E yields bytes exactly when `data[0]` exists, is not null, has a truthy `url`, and the download answers 200. An SDK error and a download's raise propagate unchanged. A falsy `url` gives `No image URL received from OpenAI`. A download outside 2xx gives axios's rejection, and only a 2xx other than 200 gives `Failed to download image: N`. |
| Providers.Enhance | server/dist/controllers/ClaudeEnhancedThumbnailController.js:62-70 | The enhanced prompt is the first block's text for a text block and `''` for any other block. It is the fixed fallback prompt when the call raised or gave no block. It never fails. |
| Providers.ClaudeGenerate | server/dist/controllers/ClaudeEnhancedThumbnailController.js:73-110 | The Claude image is exactly the body of the unseeded Pollinations URL at the Claude sizes when it answers 200. A raise keeps its message, an answer outside 2xx gives axios's rejection, and a 2xx other than 200 gives `Failed to generate image: N`. Every error is prefixed `Image generation failed: `. |
| HfStages.SecondSegmentOfId | server/server-simple.ts:382 | `model.split('/')[1]` of an `owner/name` id is the name. |
| HfStages.Uploading | server/server-simple.ts:374-382 | A kept image yields a URL exactly when the upload succeeded. |
| HfStages.ModelAttempt | server/server-simple.ts:355-528 | A usable answer (ok and over 1000 bytes) is uploaded. A 410 with the deprecation message tries the router, and a 503 mentioning `loading` tries once more. A hit needs exactly one of these three paths with a usable answer, and a successful upload. Every other outcome gives nothing: a raise, a short 2xx body, any other status, or a 410 or 503 without its marker. |
| HfStages.T2iAttempt | server/server-simple.ts:539-601 | A text-to-image model yields a hit exactly when its answer is usable and the upload succeeded. |
| HfStages.Generate | server/server-simple.ts:530-607 | The first stage's hit is used when it has a URL. Otherwise the second stage's hit is used when it has one. The handler raises `All image generation services failed …` exactly when neither stage produced a URL. |
| HfStages.SecondStageOnlyAfterFirstFails | server/server-simple.ts:530 | Once the first stage produced a URL, the second stage's outcomes are irrelevant. |
| HfStages.StagesAreOneChain | server/server-simple.ts:331-601 | With non-empty upload URLs, the two stages are one ordered chain of eight tries. |
| PollChain.Validated | server/dist/server-simple.js:283-300 | A candidate is kept exactly when its HEAD serves an image and its GET is ok. |
| PollChain.Loop | server/dist/server-simple.js:276-311 | The corrected model loop: nothing exactly when no model passed both checks; otherwise the first model that did. |
| PollChain.AsWrittenAgreesWithoutRaisedGet | server/dist/server-simple.js:276-311 | The loop as written equals the corrected loop whenever no GET raises after an image HEAD. |
| PollChain.AsWrittenKeepsUnvalidatedUrl | server/dist/server-simple.js:296-305 | A GET that raises after an image HEAD leaves the unvalidated URL in place in the loop as written. |
| PollChain.LoopShape | server/dist/server-simple.js:276-311 | A model candidate is a non-empty Pollinations URL, never the placeholder. |
| PollChain.Fallbacks | server/dist/server-simple.js:312-381 | After the model loop: its hit wins. Otherwise the basic URL when its HEAD is ok, then Picsum when its HEAD is ok, then the placeholder. The result always has a non-empty URL, and the placeholder is used exactly when the loop, the basic URL and Picsum all failed. |
| PollChain.LoopAsWritten | server/dist/server-simple.js:276-311 | The loop as written keeps its starting state when no HEAD serves an image. Any other hit it ends with is the candidate of a model whose HEAD served an image, whatever its GET did. |
| PollChain.LoopAsWrittenShape | server/dist/server-simple.js:276-311 | Whatever the loop as written keeps is a non-empty model URL, never the placeholder. |
| PollChain.ChainAsWritten | server/dist/server-simple.js:257-381 | The chain as written always ends with a non-empty URL, so its final throw cannot be reached. A candidate kept by the loop as written wins, even one whose GET raised. The placeholder is used exactly when that loop kept nothing and the basic URL and Picsum failed, and it embeds the chosen size and the encoded title. |
| PollChain.Chain | server/dist/server-simple.js:257-381 | The corrected chain: the same guarantees, with the corrected loop, so a model hit always passed both its HEAD and its GET. |
| PollChain.ChainAgreesWithoutRaisedGet | server/dist/server-simple.js:276-311 | The chain as written equals the corrected chain whenever no GET raises after an image HEAD. |
| PollChain.PlaceholderFixesSize | server/dist/server-simple.js:375 | Equal placeholder URLs were made for the same size. |
| Errors.Fire | server/controllers/ImagenThumbnailController.ts:315 | A rule answers exactly when one of its needles occurs in the message. |
| Errors.Classify | server/controllers/ImagenThumbnailController.ts:315-340 | The first rule that fires decides the status, message and code. With none firing, the answer is 500 with the generic message and the caught message. |
| Errors.NoRulesIsGeneric | server/controllers/QwenImageController.ts:420-424 | A handler without rules answers 500 with its message. |
| Errors.ImagenPrecedence | server/controllers/ImagenThumbnailController.ts:315-340 | `Imagen`/`provider` beats `quota`/`429`, which beats `billing`/`limit`. |
| Errors.ImagenFailuresAreApiFailures | server/controllers/ImagenThumbnailController.ts:187 | Every Imagen generation failure is answered 500 IMAGEN_API_FAILED. |
| Errors.ClaudeFailuresAreClassified | server/dist/controllers/ClaudeEnhancedThumbnailController.js:195-211 | Every failure of the Claude image step is answered CLAUDE_ENHANCEMENT_FAILED or IMAGE_GENERATION_FAILED, never generically. |
| Errors.OpenAiNamedClassified | server/controllers/ThumbnailController.ts:192-204 | A message naming OpenAI, with neither `billing` nor `quota`, is answered OPENAI_GENERATION_FAILED. |
| Errors.LacksCharsClassified | server/controllers/ThumbnailController.ts:192-204 | The same, for a message lacking the letters `b` and `q`. |
| Errors.MissingOpenAiUrlClassified | server/controllers/ThumbnailController.ts:112-114 | A DALL-E answer without a URL is answered OPENAI_GENERATION_FAILED. |
| Jobs.FirstMatch | server/server-simple.ts:94 | The first record matching the id and, when given, the owner, with no match before it. |
| Jobs.FindOwned | server/server-simple.ts:778 | The owner-scoped lookup finds a record exactly when one with that id and owner exists. |
| Jobs.NewRecord | server/controllers/QwenImageController.ts:320-330 | A created record is generating and has no image. `prompt_used` starts as the user prompt. |
| Jobs.Save | server/controllers/HuggingFaceImageController.ts:111 | Saving appends the record under a fresh id. The owner then finds it, older records are kept, and ids stay unique. |
| Jobs.Create | server/server-simple.ts:265-275 | Creation adds exactly the new generating record, and the owner finds it. |
| Jobs.Apply | server/controllers/QwenImageController.ts:379-381 | The terminal update clears `isGenerating`. Success sets the URL and, when written, the prompt. Failure keeps the prompt and clears or keeps the URL. No other field changes. |
| Jobs.Finish | server/controllers/QwenImageController.ts:382 | Saving the update changes only the record with that id. |
| Jobs.Lifecycle | server/server-simple.ts:265-275 | After creation and one terminal update, the owner finds the new record with that update applied, and older records are unchanged. |
| Jobs.RemoveAt | server/server-simple.ts:94 | Removing one position shifts the later records down by one. |
| Jobs.DeleteOwned | server/server-simple.ts:94-101 | The owner-scoped delete removes a record exactly when the owner has one with that id. Otherwise nothing changes. |
| Jobs.DeleteOwnedLikeMap | server/server-simple.ts:94 | The owner-scoped routes behave like a map keyed by (id, owner). After a delete that pair is gone, and every other pair finds what it found before. |
| Jobs.DeleteRoute | server/server-simple.ts:88-106 | The delete route answers 200 exactly when the session owner had the record, and 404 `Thumbnail not found` otherwise. |
| Jobs.PollRoute | server/server-simple.ts:772-786 | The poll route gives the owner's record, or 404. |
| Jobs.DeleteThumbnailAsWritten | server/controllers/ThumbnailController.ts:220-222 | The controller's delete, as written, removes the first record with the id whoever owns it, and always replies success. |
| Jobs.DeleteAsWrittenIgnoresOwner | server/controllers/ThumbnailController.ts:220 | A delete request from another user removes the record as written, while the owner-scoped delete keeps it. |
| Jobs.DeleteThumbnail | server/controllers/ThumbnailController.ts:215-227 | The corrected delete never removes another user's record and replies as the controller does. |
| Jobs.OwnedBy | server/server.ts:174 | Exactly the owner's records. |
| Jobs.Insert | server/server.ts:174 | Inserting into a newest-first list keeps it newest-first and adds exactly the record. |
| Jobs.SortNewestFirst | server/server.ts:174 | The sort is newest-first and a permutation of its input. |
| Jobs.ListRoute | server/server.ts:169-175 | `my-generations` gives exactly the session user's records, each once, newest first. |
| Handlers.Terminate | server/controllers/QwenImageController.ts:379-414 | Success writes the URL, and the prompt when the handler writes it. Failure writes only the flag, plus `image_url = ''` when the handler clears it. |
| Handlers.EndsAs | server/controllers/QwenImageController.ts:320-424 | The reference every handler contract is stated against. The store gains one record and keeps the older ones, and the owner's record ends with the URL, prompt and answer the outcome and the policy call for. Handlers.Run proves it. |
| Handlers.Run | server/controllers/QwenImageController.ts:320-414 | An accepted request ends with one record more and older records untouched. The owner's record is finished with the URL, prompt and answer the outcome and the handler's policy call for. |
| Handlers.AfterUpload | server/controllers/QwenImageController.ts:366-379 | The upload's URL exactly when generation and upload succeeded. Otherwise the first error. |
| Handlers.Named | server/controllers/ImagenThumbnailController.ts:292 | A single-provider chain reports its one name. |
| Handlers.ServerTsHandler | server/server-simple.ts:240-645 | An invalid request is answered 400 and creates nothing. A valid one ends as the Hugging Face stages decide, clearing `image_url` on failure. |
| Handlers.ServerJsHandler | server/dist/server-simple.js:201-410 | An invalid request is answered 400. A valid one always ends successfully, with a non-empty URL from the Pollinations chain as written. |
| Handlers.QwenHandler | server/controllers/QwenImageController.ts:295-424 | 400 for invalid requests. Otherwise the Qwen chain decides. Failure leaves `image_url` untouched and answers the Qwen message. |
| Handlers.GptHandler | server/controllers/GPTImageController.ts:288-417 | The same for GPT Image. |
| Handlers.InfipHandler | server/controllers/InfipImageController.ts:276-405 | The same for Infip, with GPT's prompt template and suffix. |
| Handlers.Imagen4Handler | server/controllers/Imagen4ThumbnailController.ts:262-390 | The same for Imagen 4. |
| Handlers.ImagenHandler | server/controllers/ImagenThumbnailController.ts:191-341 | The same for Imagen 3.5. Every generation failure is answered 500 IMAGEN_API_FAILED. |
| Handlers.FlashHandler | server/dist/controllers/GeminiFlashImageController.js:282-391 | The same for the three-tier Gemini Flash chain. |
| Handlers.UniversalHandler | server/dist/controllers/UniversalProviderController.js:177-267 | The same for the Universal provider. |
| Handlers.ProviderHandler | server/dist/controllers/GeminiProviderThumbnailController.js:120-230 | The same for the Gemini provider, with its provider/quota classification. |
| Handlers.ClaudeHandler | server/dist/controllers/ClaudeEnhancedThumbnailController.js:111-213 | The same for Claude. A success stores the enhanced prompt as `prompt_used`. |
| Handlers.OpenAiHandler | server/controllers/ThumbnailController.ts:33-212 | The same for DALL-E. A success leaves `prompt_used` as the user prompt. |
| HfController.Destructured | server/controllers/HuggingFaceImageController.ts:27-30 | A destructuring default (`16:9` for the ratio, `flux-schnell` for the model) replaces only an absent field. |
| HfController.DestructuredKeepsEmpty | server/controllers/HuggingFaceImageController.ts:27 | The destructuring default and the `\|\|` default of the other controllers differ exactly for an empty string and a non-empty default. The destructuring default keeps the empty string. |
| HfController.OverlayOrDefault | server/controllers/HuggingFaceImageController.ts:29 | `text_overlay` is true only when given as true. |
| HfController.KeyIndex | server/controllers/HuggingFaceImageController.ts:11-17 | The key's position in the table, or the table's length exactly when the key is absent. |
| HfController.Endpoint | server/controllers/HuggingFaceImageController.ts:55 | A known key gets its model id, and an unknown key gets FLUX.1-schnell. The result is always a table entry. |
| HfController.DataUrl | server/controllers/HuggingFaceImageController.ts:81-83 | The stored URL is `data:image/png;base64,` followed by exactly the payload. |
| HfController.DataUrlInjective | server/controllers/HuggingFaceImageController.ts:83 | Equal data URLs carry equal payloads. |
| HfController.Failure | server/controllers/HuggingFaceImageController.ts:128-152 | An upstream status is propagated, with specific messages for 401, 429 and 503 and `Hugging Face API error: ` plus the status text otherwise. A timeout and other raises answer 500. A 2xx other than 200 answers 500 with the status in the message. |
| HfController.Handle | server/controllers/HuggingFaceImageController.ts:19-159 | 400 for invalid requests. A failed call saves nothing and answers the failure. Success saves one finished record for the session user (default `anonymous`). The record has the given id, the creation time, the request's title, style, user prompt and colour scheme, the data URL, the Hugging Face prompt and the defaulted ratio and overlay. The answer reports the endpoint. |
| HfController.Undash | server/controllers/HuggingFaceImageController.ts:169 | Every `-` becomes a space, and nothing else changes. |
| HfController.CapitaliseWords | server/controllers/HuggingFaceImageController.ts:169 | Exactly the word-initial characters are upper-cased. |
| HfController.DisplayName | server/controllers/HuggingFaceImageController.ts:169 | A display name keeps the key's length and has no `-`. |
| HfController.DisplayNameIdempotent | server/controllers/HuggingFaceImageController.ts:169 | A display name is already in display form. |
| HfController.DisplayNameKeepsInnerLetters | server/controllers/HuggingFaceImageController.ts:169 | Characters inside a word keep their case. |
| HfController.Models | server/controllers/HuggingFaceImageController.ts:162-171 | The listing has one entry per model, in table order, with its id, name and display name. |
| HfController.ConnectionTest | server/controllers/HuggingFaceImageController.ts:182-235 | `success` exactly for a 2xx upstream answer, which is answered 200 with the token valid and the upstream status in the body. An upstream 503 or 429 still proves the token, while 401 and other statuses do not. A failure answers the upstream status (else 500) and carries it as `status_code`. A raise without a response answers 500. |
| RateLimiter.Check | server/middlewares/rateLimiter.ts:9-33 | No user gives 401 with nothing changed. A missing or expired entry (strictly after its reset time) restarts the window at 1. A full window gives 429 with its reset time and nothing changed. Otherwise the count grows by one and the reset time is kept. Other users are untouched, and counts stay in 1..10. |
| RateLimiter.WindowAllowance | server/middlewares/rateLimiter.ts:18-32 | Inside an open window, at most the remaining allowance is let through, and the window's end does not move. |
| RateLimiter.AtMostLimitPerWindow | server/middlewares/rateLimiter.ts:6-7 | At most 10 requests of one user are allowed in one window. |
| Queue.Add | server/utils/thumbnailQueue.ts:13-16 | An item is appended at the end, and nothing else changes. |
| Queue.LengthCountsAdds | server/utils/thumbnailQueue.ts:30-32 | The length grows by one per added item, and the items sit in the order added. |
| Queue.Position | server/utils/thumbnailQueue.ts:34-36 | 0 exactly when the id is absent. Otherwise one more than the index of its first occurrence. |
| Queue.FindPosition | server/utils/thumbnailQueue.ts:34-36 | The search loop computes that position. |
| Queue.PositionIsFirst | server/utils/thumbnailQueue.ts:35 | The first index holding the id determines the position. |
| Queue.AddKeepsPositions | server/utils/thumbnailQueue.ts:13-16 | First in, first out: adding an item moves no queued id. |
| Queue.AddedFoundLast | server/utils/thumbnailQueue.ts:13-16 | A new id is found at the end. |
| Queue.Process | server/utils/thumbnailQueue.ts:18-28 | Processing leaves the items unchanged. It leaves a queue that was not processing in the same state, and one that was processing still processing. |
| Cors.Check | server/server.ts:33-51 | No origin is allowed. Otherwise an origin is allowed exactly when it contains `localhost`, `127.0.0.1`, `.vercel.app` or `.onrender.com`. A refusal says `Not allowed by CORS`. |
| Cors.AllowedWhateverSurrounds | server/server.ts:38-45 | Matching is by substring: any text around an allowed origin keeps it allowed. |
| Cors.LookalikeHostAllowed | server/server.ts:38 | `https://localhost.example.org` is allowed. |
| Gallery.SafeChar | clint/src/pages/MyGeneration.tsx:54 | Letters and digits are lower-cased, and every other character becomes `_`. |
| Gallery.Stem | clint/src/pages/MyGeneration.tsx:54 | The stem keeps the title's length and uses only `[a-z0-9_]`. A position holds `_` exactly when the title has a non-alphanumeric character there. |
| Gallery.FileName | clint/src/pages/MyGeneration.tsx:54 | The file name is the stem followed by `_thumbnail.jpg`, 14 characters longer than the title. |
| Gallery.StemIdempotent | clint/src/pages/MyGeneration.tsx:54 | Sanitising a stem again changes nothing. |
| Gallery.FileNameForgetsCaseAndPunctuation | clint/src/pages/MyGeneration.tsx:54 | Titles differing only in letter case, or in which non-alphanumeric characters they use, get the same file name. |
| Gallery.AfterDelete | clint/src/pages/MyGeneration.tsx:73 | After a delete, an entry is listed exactly when it was listed before and has another id. |
| Gallery.AfterDeleteSplits | clint/src/pages/MyGeneration.tsx:73 | The filter keeps order and removes exactly the matching entries. |
| Gallery.AfterDeleteAbsent | clint/src/pages/MyGeneration.tsx:73 | Deleting an unlisted id changes nothing. |
| Gallery.AspectClass | clint/src/pages/MyGeneration.tsx:161-163 | `aspect-square` exactly for `1:1` and `aspect-[9/16]` exactly for `9:16`. A missing ratio counts as `16:9`, and unmapped ratios get `aspect-video`. |
| Gallery.CountLabel | clint/src/pages/MyGeneration.tsx:156 | The label is `N thumbnail… generated`, pluralised exactly when N is not 1. |
| Gallery.CardFace | clint/src/pages/MyGeneration.tsx:175-186 | A card shows its image exactly when `image_url` is truthy. Otherwise it reads `Generating…` exactly while generating and `No image` otherwise. |
| Gallery.FinishedRecordFace | clint/src/pages/MyGeneration.tsx:175-186 | After any handler finishes, a failure shows `No image` and a success with a non-empty URL shows that URL. |

## Left out

- Network, SDK, upload, file-system and database calls are not executed. Their outcomes are inputs. Timeouts and `setTimeout` delays are a failed or raised outcome. Logging is omitted.
- `Date.now()` seeds, timestamps and the rate limiter's clock are inputs. The 429 answer's ISO-8601 rendering of the reset time is not modelled.
- Base64 encoding and decoding (RFC 4648 section 4) and `encodeURIComponent` (RFC 3986) are opaque. The model keeps only the fact that a payload was decoded, and takes the encoder as a function parameter.
- `Buffer.from` of a non-string payload is taken to raise. For arrays Node.js copies the elements instead. No controller treats the two cases differently afterwards, except that an array would yield bytes.
- JSON numbers are integers. Fractional and non-finite numbers are not modelled, and neither are prototype properties reached through a key such as `constructor`.
- String lengths count Unicode code points, not UTF-16 code units. The two differ only for characters outside the Basic Multilingual Plane.
- Success answers are not modelled beyond the saved record and the provider name: their message texts, `details`, `model` and `quality` fields.
- Database errors are not represented: every create and save is taken to succeed.
  - In the handlers, the save of the success update is inside the outer `try` (server/controllers/QwenImageController.ts:382). If it fails, the handler saves again with `isGenerating` cleared and answers 500 with the save's message.
  - Only the save on the failure path is swallowed (server/controllers/QwenImageController.ts:406-416).
  - A failing `Thumbnail.create` (server/controllers/QwenImageController.ts:320) is not represented.
  - A failing save in the Hugging Face controller (server/controllers/HuggingFaceImageController.ts:111) is not represented.
  - A malformed id failing its cast in a route (server/server-simple.ts:107-113) is not represented either.
- The Cloudinary upload URL is assumed to be any string. Only the compiled server's chain is proved to end with a non-empty URL.
- Request body fields are strings or absent. Non-string values and headers are not modelled.
- server/models/Thumbnail.ts is not part of this model: schema defaults and validation are not represented, and records carry only the fields the handlers write.
- The Hugging Face handler's `provider` field is not a schema field and is not stored in the record.
- Every record gets its id from the caller, and the model assumes that no stored record already has it. In the system the database picks a fresh id.
- The controller's `deleteThumbnail` reads `req.session.userId` without a default. The model takes the owner as a given string, so a missing session is not represented.
- Concurrency is not modelled: each call runs alone. This covers the queue's `processing` flag and the rate limiter's map under parallel requests.
- The queue item's untyped `config` field is not modelled.
- Authentication routes, the contact-form email, the test routes (`/api/test/image-generation`, `/test-openai`, `/generate-thumbnail`) and the alternative controller are not modelled. They are plumbing outside the decision core.
- The Hugging Face stages of server/server-simple.ts send a size to the service. The size is not observable in the outcome and is not modelled.
- The Gemini provider passes `aspectRatio` on to the SDK call unnormalised. Only the normalised value of `Dims.GeminiAspect` is modelled.
- Dims.OpenAiSizeFor: the size is passed to the SDK and not observed afterwards, so no handler contract refers to it.
- React rendering beyond the pure helpers, static data and route wiring are not modelled.

## Findings

| source | as written | input that shows it | evidently intended | confidence | as-written member | corrected member |
|---|---|---|---|---|---|---|
| server/dist/server-simple.js:276-311 | A model candidate is set after its HEAD serves an image. A failing GET clears it, but a GET that raises is caught with the candidate still set. | The first model's HEAD answers 200 `image/jpeg` and its GET raises. The other two models raise. The unvalidated URL is kept and the basic URL, Picsum and placeholder are skipped. | A candidate is kept only when both checks pass; otherwise the chain moves on. | not executed | PollChain.LoopAsWritten, PollChain.ChainAsWritten (shown by PollChain.AsWrittenKeepsUnvalidatedUrl) | PollChain.Loop, PollChain.Chain (agreement shown by PollChain.AsWrittenAgreesWithoutRaisedGet and PollChain.ChainAgreesWithoutRaisedGet) |
| server/controllers/ThumbnailController.ts:220 | `findByIdAndDelete({ _id: id, userId })` treats the object as the id, so `userId` does not filter. A user can delete another user's thumbnail. | A record with id 1 owned by `owner-a`, and a delete of id 1 requested by `owner-b`. | Delete only the requesting owner's record, as the development server's delete route does. | not executed | Jobs.DeleteThumbnailAsWritten (shown by Jobs.DeleteAsWrittenIgnoresOwner) | Jobs.DeleteThumbnail |
