# XeonzGen thumbnail generator — a Dafny model of its core

XeonzGen takes a text prompt, a style and an aspect ratio, and returns a batch of image
URLs on an external image host, with a quality score per image. This project models
the logic that sits under the web page and the HTTP server:

- **Selector** (`selector.dfy`): the rule-based model selector. It is a first-match-wins
  chain of case-insensitive substring checks that picks `flux`, `sdxl` or
  `stable-diffusion`, with a reasoning text and a confidence. It also models the unused
  fallback selector, whose tiers run in a different order.
- **Composer** (`composer.dfy`): the image descriptor composer. It covers:
  - the aspect-ratio table;
  - the prompt sanitiser (character filter, whitespace collapse, trim, cut at 250,
    style suffix);
  - the URL template, with a parser that reads a URL back;
  - the loop that builds one descriptor per requested image.
- **Storage** (`storage.dfy`): `MemStorage`, a class with two map fields. Thumbnail
  requests are keyed by a fresh id. Daily usage rows are keyed by `<ip>-<date>`.
- **Schema** (`schema.dfy`): the insert schema as an acceptance predicate and parser
  over JSON bodies, plus the record shapes and the two response schemas.
- **Routes** (`routes.dfy`): the five route handlers, as functions and methods over a
  store.
- **Client** (`client.dfy`): the page's list and set state. This covers the results,
  favourites, variations, the set of URLs with a variation in flight, and the
  cache-busting retry of an image that failed to load.

Three files hold JavaScript built-ins that the source relies on:

- `text.dfy`: `toLowerCase`, `includes`, `trim`, the JS whitespace class, and
  `${n}` for naturals;
- `uri.dfy`: `encodeURIComponent` on ASCII, `split` and `join`;
- `wrappers.dfy`: `Option` and `Result`.

Conventions:

- Clock readings, `randomUUID` ids, `Math.random` draws and elapsed times are parameters.
- Confidences are whole hundredths (`0.85` is `85`).
- Quality scores are whole tenths (`8.7` is `87`).
- `Math.round(x)` is `floor(x + 1/2)` on exact rationals.

The model follows the code as written, including three facts its names do not
suggest. The one exception is the two table lookups described under "## Findings": the
generate path is built on their corrected form (see "## Left out").

- The insert schema accepts an empty `prompt` string. `z.string()` has no minimum,
  and only the page refuses a blank prompt.
- `imageCount` need not be an integer. The loop then runs `ceil(imageCount)` times.
- A `generationTime` of 0 is stored as null, because of `|| null`.

## Model

| member | source | states |
|---|---|---|
| Selector.SelectModelByRules | server/services/ai-selector.ts:9-60 | The confidence is one of 0.9, 0.85, 0.8 or 0.75, and each model tag goes with exactly one confidence band (flux ⇔ 0.9, sdxl ⇔ 0.85, stable-diffusion ⇔ at most 0.8). The reasoning is one of the four branch texts. |
| Selector.RuleTiers | server/services/ai-selector.ts:18-53 | Which branch fires, as if-and-only-if statements over the keyword lists. Flux exactly on an artistic trigger. SDXL exactly on a photo trigger with no artistic trigger. 0.8 exactly on a typography trigger with neither. 0.75 exactly when no trigger matches. |
| Selector.SelectBestModel | server/services/ai-selector.ts:4-7 | The wrapper returns the rules' result. It is Flux iff there is an artistic trigger, and the result satisfies the model-selection schema (known tag, confidence in [0, 1]). |
| Selector.DependsOnlyOnLowercase | server/services/ai-selector.ts:9-11 | Two calls whose prompts and styles lower to the same strings give the same selection, whatever their aspect ratios. |
| Selector.ArtisticOverridesPhoto | server/services/ai-selector.ts:18-37 | First match wins: style "photorealistic" with a prompt containing "smart" (which contains "art") selects Flux. |
| Selector.AbstractStyleFallsThrough | server/services/ai-selector.ts:18-53 | Style "abstract" is no trigger: with a keyword-free prompt it gives stable-diffusion at 0.75. |
| Selector.StableDiffusionRules | server/services/ai-selector.ts:39-53 | The typography and default branches both give stable-diffusion; they differ only in reasoning and confidence (0.8 against 0.75). |
| Selector.FallbackSelection | server/services/ai-selector.ts:62-85 | The fallback always reports confidence 0.8. |
| Selector.FallbackTiers | server/services/ai-selector.ts:69-78 | The fallback's tiers as if-and-only-if statements. SDXL on "photorealistic" style, or "photo" or "real" in the prompt. Otherwise Flux on "artistic" style, or "art" or "creative" in the prompt. Otherwise stable-diffusion. |
| Selector.FallbackOrderDiffers | server/services/ai-selector.ts:18-37 | The fallback checks photo before art, unlike the main rules: the prompt "photo art" gives Flux from the rules and SDXL from the fallback. |
| Composer.Dimensions | server/services/image-generator.ts:76-84 | The size is always one of the three table entries. |
| Composer.DimensionsTable | server/services/image-generator.ts:77-83 | "1:1" gives 1000×1000 and "4:3" gives 1200×900. Every other string, compared case-sensitively, gives 1200×675. |
| Composer.ReplaceSpecial | server/services/image-generator.ts:57 | Each character outside `[\w\s,.-]` becomes one space and every other character stays, so the number of characters is kept. |
| Composer.CollapseSpaces | server/services/image-generator.ts:58 | After `\s+ → ' '` no whitespace other than a plain space remains and no two whitespace characters are adjacent. The result is empty iff the input is, and it starts with a space iff the input does. Its non-whitespace characters are the input's, in order, and it is no longer than the input. |
| Composer.CollapseKeepsWords | server/services/image-generator.ts:58 | Collapsing keeps the words and where they break: the maximal runs of non-whitespace of the result are those of the input, in order. |
| Composer.CollapseEndsLikeInput | server/services/image-generator.ts:58 | The collapsed text ends in whitespace exactly when the input does. |
| Composer.CollapseKeepsClean | server/services/image-generator.ts:57-58 | After the first replace and the collapse, only word characters, plain spaces, commas, periods and hyphens remain. |
| Composer.CollapseFixed | server/services/image-generator.ts:58 | The collapse leaves a single-spaced string unchanged. |
| Composer.NormalizeSpaces | server/services/image-generator.ts:57-59 | After the filter, collapse and trim, the text is single-spaced, made only of word characters, spaces, commas, periods and hyphens, and has no space at either end. |
| Composer.NormalizeKeepsWords | server/services/image-generator.ts:58-59 | Collapse and trim change whitespace only: the result is no longer than the input, keeps its non-whitespace characters in order, and has the same words. |
| Composer.CleanPrompt | server/services/image-generator.ts:56-60 | The cleaned prompt has at most 250 characters, only word characters, spaces, commas, periods and hyphens, no leading space and no two consecutive spaces. It makes no claim about a trailing space. |
| Composer.CleanPromptKeepsWords | server/services/image-generator.ts:56-60 | The cleaned prompt's non-whitespace characters are a prefix of those left after the character filter, and all of them when the prompt has at most 250 characters. Such a short prompt also keeps exactly the words left after the filter. |
| Composer.CleanKeepsCleanPrompt | server/services/image-generator.ts:56-60 | An already clean prompt (clean characters, single spaces, no space at either end) comes back unchanged, apart from the cut at 250. |
| Composer.TruncationMayEndInSpace | server/services/image-generator.ts:59-60 | The cut comes after the trim, so a cleaned prompt can end in a space: 249 letters, a space and a letter give 250 characters ending in a space. |
| Composer.StyleSuffix | server/services/image-generator.ts:63-70 | The style suffix is ASCII. |
| Composer.StyleSuffixTable | server/services/image-generator.ts:63-70 | The suffix is looked up by the lowered style: four entries, and "professional quality" otherwise. |
| Composer.SanitizePrompt | server/services/image-generator.ts:55-74 | The sanitised prompt is pure ASCII, so the URL encoder accepts it. |
| Composer.ParseImageUrlRoundTrip | server/services/image-generator.ts:40 | Every URL built from the template parses back to exactly the prompt, width, height, seed and timestamp it was built from, with the fixed `nologo=true&model=flux&safe=true` parameters in place. |
| Composer.Seed | server/services/image-generator.ts:36 | The seed of image `i` lies in [1234·i, 999999 + 1234·i). |
| Composer.QualityTenths | server/services/image-generator.ts:45 | Each quality score is a one-decimal value in [8.0, 10.0] (80 to 100 tenths). |
| Composer.IterationCount | server/services/image-generator.ts:34 | The loop runs the least whole number of times not below `imageCount`. |
| Composer.LoopBounds | server/services/image-generator.ts:34 | The loop test `i < imageCount` holds exactly while `i` is below the iteration count. |
| Composer.DescriptorUrl | server/services/image-generator.ts:36-44 | Descriptor `i`'s URL carries the shared prompt and size, seed `i`, and the timestamp `baseTime + 150·i`. |
| Composer.DescriptorsDistinct | server/services/image-generator.ts:37-44 | Two descriptors of one batch never share a URL or a label, whatever the random draws. |
| Composer.DescriptorsShareAndAdvance | server/services/image-generator.ts:28-40 | All URLs of one batch carry the same prompt, width and height, and timestamps strictly increase with the index. |
| Composer.SeedsMayCollide | server/services/image-generator.ts:36 | Seeds alone are not unique: image 0 and image 1 can draw the same seed. |
| Composer.BuildBatch | server/services/image-generator.ts:32-52 | The loop returns exactly `ceil(imageCount)` descriptors, in loop order, and descriptor `i` is built from draw `i`. |
| Composer.CreateReliableImages | server/services/image-generator.ts:27-53 | Builds the batch for the sanitised prompt at the ratio's size. Every score lies in [8.0, 10.0]. |
| Composer.RoundedSeconds | server/services/image-generator.ts:17 | The whole seconds of the elapsed time, rounding half up. |
| Composer.GenerateImages | server/services/image-generator.ts:4-25 | Returns the batch and the rounded time, with the model tag and the reasoning unchanged from the arguments. The result satisfies the generation schema. |
| Composer.DimensionsAsWritten | server/services/image-generator.ts:76-84 | The lookup as written, where an inherited `Object.prototype` member counts as a hit. It agrees with the corrected lookup on every other key. |
| Composer.ConstructorRatioHasNoSize | server/services/image-generator.ts:83 | As written, the ratio "constructor" yields an object without width or height. The corrected lookup gives 1200×675. |
| Composer.StyleSuffixAsWritten | server/services/image-generator.ts:70 | The style lookup as written. It agrees with the corrected lookup except on lowered styles that name an `Object.prototype` member. |
| Composer.ConstructorStyleLeaksFunctionText | server/services/image-generator.ts:70-71 | As written, style "Constructor" appends the source text of `Object`. The corrected lookup appends "professional quality". |
| Schema.Field | shared/schema.ts:27-33 | A body property is present exactly when the body is an object with that key. |
| Schema.ParseInsertRequestSound | shared/schema.ts:27-33 | The insert schema accepts exactly the objects whose prompt, style and aspectRatio are strings, with style and aspectRatio within their `varchar` lengths (50 and 20), and whose optional `imageCount` is a number in [1, 20]. It keeps the strings as sent, the empty string included, and defaults the count to 5. A rejection lists at least one issue, each naming a schema field or the body. An accepted style is at most 50 and an accepted ratio at most 20 UTF-16 units long. |
| Schema.OverlongStyleRejected | shared/schema.ts:9 | A body that is otherwise accepted but whose style is longer than the 50-unit column is refused, with a too-big issue on `style`. |
| Schema.OverlongAspectRatioRejected | shared/schema.ts:10 | A body that is otherwise accepted but whose aspect ratio is longer than the 20-unit column is refused, with a too-big issue on `aspectRatio`. |
| Schema.ParseIgnoresOtherKeys | shared/schema.ts:27-33 | Only the four schema keys are read: any other key the client sends is ignored. |
| Storage.NewRecordFields | server/storage.ts:39-50 | The stored row copies the strings. Reasoning is null iff absent or empty, time and score are null iff absent or 0, images default to []. Otherwise the value is kept, a given image list included. |
| Storage.UsageKeyInjective | server/storage.ts:56 | For addresses without a dash, two (address, date) pairs share a usage key only if they are the same pair. |
| Storage.UsageKeysCanCollide | server/storage.ts:56 | With a dash in the address, distinct pairs can share a key: ("a-b", "c") and ("a", "b-c"). |
| Storage.UpsertUsageEffect | server/storage.ts:60-79 | Create-or-update sets the key's count to the given count or 0. An existing row keeps its id, address, date and creation time; a new row is the fresh id, the address, the date, the count and the time. Every other key is unchanged and the key set grows by at most the key. |
| Storage.IncrementUsageEffect | server/storage.ts:81-94 | An increment adds one to the key's count, counting a missing row as 0. An existing row keeps its id, address, date and creation time. A new row is the fresh id, the address, the date, count 1 and the clock. Every other key is left alone and every row stays under its own key. |
| Storage.IncrementTimesCounts | server/storage.ts:81-94 | `n` increments of one key raise its count by exactly `n`; from an absent key the count is `n`. No other key changes. |
| Storage.MemStorage.constructor | server/storage.ts:22-25 | The store starts with both maps empty. |
| Storage.MemStorage.GetThumbnailRequest | server/storage.ts:27-29 | A row is found exactly when the id is a key, and it carries that id. |
| Storage.MemStorage.CreateThumbnailRequest | server/storage.ts:31-53 | Stores the new row under the given id, replacing any row with that id as `Map.set` does, and leaves the usage map unchanged. The new row can then be fetched by its id. |
| Storage.MemStorage.GetDailyUsage | server/storage.ts:55-58 | A row is found exactly when `<ip>-<date>` is a key, and the row's own address and date form that key. |
| Storage.MemStorage.CreateOrUpdateDailyUsage | server/storage.ts:60-79 | The usage map becomes the upsert of the old one, the request map is unchanged, and the returned row is the stored one with the requested count. |
| Storage.MemStorage.IncrementDailyUsage | server/storage.ts:81-94 | The usage map becomes the increment of the old one. The returned row is the stored one and holds the old count (or 0) plus one. |
| Routes.ClientAddress | server/routes.ts:18 | The first non-empty of the request address, the socket address and "unknown". |
| Routes.UsageHandler | server/routes.ts:15-27 | Always 200 with 999 generations left, and the stored count for the client's address and the date, or 0 when there is no row. Nothing is modified. |
| Routes.AnalyzePrompt | server/routes.ts:30-44 | 400 iff one of prompt, style or aspectRatio is falsy. 500 iff all are truthy but the prompt or style is not a string, because lowering it throws. Otherwise 200 with the selection for the two strings. |
| Routes.MeanQualityScore | server/routes.ts:89 | The stored score is the rounded mean: with sum S of `n` scores in tenths, 10n·r − 5n ≤ S < 10n·r + 5n. It is null for an empty batch. |
| Routes.SumTenthsBounds | server/routes.ts:89 | Scores in [lo, hi] sum to between lo·n and hi·n. |
| Routes.MeanOfComposedScores | server/routes.ts:89 | With scores in [8.0, 10.0] the stored mean is 8, 9 or 10. |
| Routes.AtMostTwentyIterations | server/services/image-generator.ts:34 | A count the schema accepts (at most 20) runs the loop at most 20 times. |
| Routes.AtLeastOneIteration | server/services/image-generator.ts:34 | A count the schema accepts (at least 1) runs the loop at least once, so the stored mean is never null for a valid request. |
| Routes.ParsedCountInRange | server/routes.ts:50-59 | A validated request asks for between 1 and 20 images. |
| Routes.StoredRecordMatches | server/routes.ts:80-90 | The row stored for a non-empty batch repeats the request's strings and the selection, holds the batch's images, and has a mean score of 8, 9 or 10. The reasoning is never empty, so it is never nulled. |
| Routes.GenerateAccepted | server/routes.ts:59-98 | On a valid request: one record stored under the fresh id, one usage increment for (ip, today), and a reply of the id and the unchanged generation result. The clock is read once for the record and once for the usage row. |
| Routes.GenerateThumbnail | server/routes.ts:47-103 | An invalid body, including a style or ratio longer than its column, gets 400 with the schema's issues and changes neither map. A valid one takes the success path with the count defaulted to 5, counted against the client's address. |
| Routes.ThumbnailHandler | server/routes.ts:106-119 | 404 iff the id is not stored; otherwise 200 with the stored row. |
| Routes.GenerateThenFetch | server/routes.ts:80-115 | After a generation, the lookup route returns the stored row: same prompt, style, ratio, model tag and reasoning as the reply, the same images, and a score of 8, 9 or 10. The usage route reports one more generation for the same client address. |
| Routes.CreateVariation | server/routes.ts:124-147 | 400 iff `imageUrl` is falsy. Otherwise the variation URL equals the original URL. The type is "style" only when the key is absent. The model is "pollinations-variation", the time is 0.5, and the id is "variation-" followed by the clock value. |
| Routes.NullVariationTypeKept | server/routes.ts:126 | A `null` variation type is echoed: the default replaces only a missing key. |
| Client.FindIndex | client/src/components/image-generator.tsx:253-254 | The lookup returns the first result with the id, and nothing exactly when no result has it. |
| Client.FindIndexByIds | client/src/components/image-generator.tsx:253 | The lookup reads only the ids: two lists with the same ids in the same order give the same answer. |
| Client.SetFavoriteFlag | client/src/components/image-generator.tsx:257-259 | Every result with the id gets the flag. Every other result, and every other field, is unchanged. |
| Client.WithoutId | client/src/components/image-generator.tsx:256 | The filter keeps exactly the entries whose id differs. |
| Client.ToggleEffect | client/src/components/image-generator.tsx:252-276 | An id missing from the results changes nothing. Unfavouriting removes every gallery entry with the id and unflags the matching results. Favouriting appends one flagged copy to the gallery and flags the matching results. Nothing else changes. |
| Client.StaleFavoriteStays | client/src/components/image-generator.tsx:252-254 | A gallery entry whose image has left the results cannot be removed by toggling. |
| Client.ToggleTwiceRestores | client/src/components/image-generator.tsx:252-276 | Toggling an unflagged result twice restores both lists, provided the gallery did not hold its id. |
| Client.SetFlagTwice | client/src/components/image-generator.tsx:257-269 | Setting and then clearing the flag of results that were unflagged restores the list. |
| Client.SetFlagKeepsIds | client/src/components/image-generator.tsx:257-259 | Flag updates never move a result: the first index of every id is unchanged. |
| Client.WithoutAbsentId | client/src/components/image-generator.tsx:256 | Filtering out an id the gallery does not hold leaves it unchanged. |
| Client.WithoutIdAppend | client/src/components/image-generator.tsx:256 | Filtering distributes over concatenation. |
| Client.ResultIdsDistinct | client/src/components/image-generator.tsx:135 | Two ids `${Date.now()}-${index}` with different indices differ, whatever the two clock readings were. |
| Client.TaggedCards | client/src/components/image-generator.tsx:133-138 | A batch's cards keep the server's order, URL and label, carry the prompt, are unflagged and have distinct ids. |
| Client.CacheBust | client/src/components/image-generator.tsx:66-68 | The rewrite keeps the source as a prefix and appends to it. |
| Client.CacheBustQueryMarks | client/src/components/image-generator.tsx:66-68 | A URL without `?` gains exactly one; a URL with a query keeps its count of `?`. |
| Client.FallbackImage.constructor | client/src/components/image-generator.tsx:51-52 | A new image is loading and shows the source it was given. |
| Client.FallbackImage.HandleImageError | client/src/components/image-generator.tsx:64-70 | The retry source is the cache-busted ORIGINAL source, so repeated failures never stack bust parameters. |
| Client.FallbackImage.HandleImageLoad | client/src/components/image-generator.tsx:60-62 | A load marks the image loaded and keeps its source. |
| Client.GeneratorPage.constructor | client/src/components/image-generator.tsx:106-118 | The page starts with an empty prompt, photorealistic 16:9, five images and empty lists. |
| Client.GeneratorPage.ToggleFavorite | client/src/components/image-generator.tsx:252-276 | The two lists become the toggle of the old ones. The variations, the in-flight set and the form fields (prompt, style, ratio, count) are unchanged. |
| Client.GeneratorPage.HandleGenerate | client/src/components/image-generator.tsx:197-224 | A blank prompt changes nothing and sends nothing. Otherwise results and variations are cleared, the favourites kept, and the form sent. |
| Client.GeneratorPage.HandleGenerateMore | client/src/components/image-generator.tsx:226-250 | A request is sent iff the prompt is not blank. No list changes. |
| Client.GeneratorPage.OnGenerateSuccess | client/src/components/image-generator.tsx:132-146 | The batch's cards, each tagged with its own clock reading, are appended after the existing results. The other lists, the in-flight set and the form fields are unchanged. |
| Client.GeneratorPage.HandleCreateVariation | client/src/components/image-generator.tsx:307-310 | The URL joins the in-flight set and the request is sent. The lists and the form fields are unchanged. |
| Client.GeneratorPage.OnVariationSuccess | client/src/components/image-generator.tsx:167-181 | The variation is appended under a fresh id and its URL leaves the in-flight set. The results, favourites and form fields are unchanged. |
| Client.GeneratorPage.OnVariationError | client/src/components/image-generator.tsx:183-195 | Only the URL leaves the in-flight set. The three lists and the form fields are unchanged. |
| Client.InFlightSetForgetsDuplicates | client/src/components/image-generator.tsx:173-193 | The in-flight marker is a set. If the handlers start two variations of one URL and the first succeeds or fails, the URL is unmarked although the second would still be running. Every other URL keeps its mark. The page's own button is disabled while its URL is marked, so the page never starts the second request. |
| Text.ContainsAt | server/services/ai-selector.ts:18-23 | `includes` holds iff the needle occurs at some index. |
| Text.ToLower | server/services/ai-selector.ts:10-11 | Lowering keeps the length and maps each character by itself: A–Z to a–z, everything else unchanged. |
| Text.Trim | server/services/image-generator.ts:59 | The trimmed string has no JS whitespace at either end and is the infix after the leading whitespace. |
| Text.TrimStartDropsBlanks | server/services/image-generator.ts:59 | Everything the start of `trim()` drops is JS whitespace. |
| Text.TrimEndDropsBlanks | server/services/image-generator.ts:59 | Everything the end of `trim()` drops is JS whitespace. |
| Text.WordsTrim | server/services/image-generator.ts:59 | `trim()` keeps the words, the maximal runs of non-whitespace, in order. |
| Text.NonSpaceTrim | server/services/image-generator.ts:59 | `trim()` removes whitespace only: the non-whitespace characters survive in order. |
| Text.Utf16LengthBmp | shared/schema.ts:9-10 | JavaScript's length, in UTF-16 units, equals the character count exactly when every character is in the Basic Multilingual Plane. |
| Text.TrimEmptyIffBlank | client/src/components/image-generator.tsx:198 | `trim()` is empty iff every character is JS whitespace. |
| Text.DecimalRoundTrip | server/services/image-generator.ts:40 | A rendered natural parses back to itself. |
| Text.DecimalInjective | client/src/components/image-generator.tsx:135 | Distinct naturals render as distinct decimal strings. |
| Uri.DecodeEncode | server/services/image-generator.ts:40 | Decoding the `encodeURIComponent` output of an ASCII string gives the string back. |
| Uri.EncodeInjective | server/services/image-generator.ts:40 | Distinct ASCII prompts give distinct encoded path segments. |
| Uri.SplitJoin | server/services/image-generator.ts:40 | Splitting a join of separator-free pieces gives the pieces back. |

## Left out

- HTTP wiring is not modelled: Express, `createServer`, JSON serialisation and logging. A handler is a function or method from a parsed body and the request's values to a reply. A body that is not a JSON object is read as having no properties.
- The clock, `randomUUID`, `Math.random` and elapsed time are parameters. So is today's date, which is the date part of the ISO clock reading, and the random text the page puts in a variation's id.
- `setTimeout` pacing (the 75 ms delay per image, the 3 s fallback timer), `AbortController` cancellation, toasts and react-query cache invalidation are left out.
- The generate mutation's `onError` only toasts, so it is not modelled.
- Routes.AnalyzePrompt: passes an empty aspect ratio to the selector instead of the body's value. The selector never reads the ratio (Selector.DependsOnlyOnLowercase), so the reply is the same.
- The variation route's `prompt` default is never used in the reply, so it is not modelled.
- Floating point is not modelled. Confidences are hundredths and scores are tenths, and rounding follows exact arithmetic.
- Text.ToLower: lowers only A–Z. JavaScript's `toLowerCase` also lowers non-ASCII letters. The only non-ASCII characters that lower to an ASCII letter are U+212A (to `k`) and U+0130 (to `i` followed by U+0307). No selector keyword or style key contains `k` or ends in `i`. So the selection and the style suffix are the same as the source's on every input. Only the premise of Selector.DependsOnlyOnLowercase (equal A–Z lowerings) is narrower than equal `toLowerCase` results.
- `\w` is the ASCII word class, as in JavaScript without the `u` flag. `\s` is JavaScript's whitespace set, Unicode spaces included.
- Composer.SanitizePrompt, Composer.CreateReliableImages, Composer.GenerateImages, Routes.GenerateAccepted, Routes.GenerateThumbnail: built on the corrected lookups Composer.StyleSuffix and Composer.Dimensions, not on Composer.StyleSuffixAsWritten and Composer.DimensionsAsWritten. For a style or ratio that names an `Object.prototype` member (for example "Constructor", "__proto__", "constructor", "toString"), the source's prompt suffix and URL size differ from the model's, as the two "## Findings" rows show.
- Composer.ReplaceSpecial: replaces one character with one space. JavaScript's regex without the `u` flag works on UTF-16 units, so a character outside the Basic Multilingual Plane becomes two spaces in the source. The whitespace collapse that follows merges them, so the cleaned prompt is the same, but the length kept by Composer.ReplaceSpecial is a character count.
- Client.InFlightSetForgetsDuplicates: composes the handlers directly. On the page a card's variation button is disabled while its URL is in flight (client/src/components/image-generator.tsx:636), so the doubled request it describes cannot be started from the UI; that gating is not modelled.
- Uri.EncodeUriComponent: defined only on ASCII input. The sanitiser only produces ASCII, so this is all the model needs.
- Storage keeps usage rows as values: an update stores a changed copy. The source mutates the object held in the map and returns that same object. The model returns the new value, so the aliasing is not captured.
- `incrementDailyUsage` awaits `getDailyUsage`. Each storage call is treated as atomic, with no interleaving.
- The unused `getDailyUsage` read in the generate handler is left out, because its result is never used.
- The `try`/`catch` 500 replies are modelled only where the modelled code can throw, which is `toLowerCase` on a non-string in prompt analysis.
- Downloads, fullscreen view, JSX rendering and the presentational components are not part of this model.

## Findings

| source | as written | input that shows it | evidently intended | confidence | as-written member | corrected member |
|---|---|---|---|---|---|---|
| server/services/image-generator.ts:76-84 | `ratioMap[aspectRatio] \|\| ratioMap["16:9"]` on a plain object literal: a key naming an `Object.prototype` member finds the inherited member, which is truthy and has no width or height | aspectRatio "constructor" passes the insert schema and reaches the lookup; the URL then carries no numeric size | every ratio outside the table falls back to 1200×675 | medium, not executed | Composer.ConstructorRatioHasNoSize | Composer.Dimensions |
| server/services/image-generator.ts:63-71 | `styleMap[style.toLowerCase()] \|\| 'professional quality'` on a plain object literal: a lowered style naming an inherited member returns that member | style "Constructor" lowers to "constructor", and the suffix becomes "function Object() { [native code] }" | every style outside the table uses "professional quality" | medium, not executed | Composer.ConstructorStyleLeaksFunctionText | Composer.StyleSuffixTable |
