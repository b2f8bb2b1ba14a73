# ChronoGen AI watch-face designer — a Dafny model of its core

ChronoGen AI is a browser client that turns a text prompt into a smart-watch
face design with a hosted generative model. The client works in two steps: a
JSON specification first, then a rendered image. This project models the pure
logic around those calls and proves properties of it.

The model covers:

- **Types** (`types.dfy`): the brand table with screen shapes, the design-style
  values, the fifteen complication keys, the design record and the generation
  state. It also covers the brand lookups by id and by name, with their
  fallback to the first brand, and the `brandId:style` cache key.
- **Gemini** (`gemini.dfy`): the service's pure fragments:
  - the language-name table and its English fallback;
  - the "mandatory features" line and the "required complications" line;
  - the merge of the parsed specification with the target device;
  - the scan of the first candidate's parts for inline image data, and the
    `data:image/png;base64,` URL built from it.

  Replies of the two remote calls are inputs, and a failure is passed to the
  caller unchanged.
- **SpecsPanel** (`specs_panel.dfy`): the download file name
  `watch-face-<slug>-<idPrefix>.json`, and the exported object
  `{...design, exportedAt, tool}`.
- **History** (`history.dfy`): the history update after a generation. The new
  design is prepended. Later entries with the same image URL are dropped, so
  the first occurrence wins. The list is then cut to ten entries.
- **Selection** (`selection.dfy`): toggling one complication, and toggling all.
- **App** (`app.dfy`): the application state and its handlers:
  - recipe phrases;
  - the generation run, which is refused for a blank prompt or while a run is
    going. Otherwise it starts analyzing and sends the specification request.
    A failed specification call goes straight to error. Once the specification
    arrives, the run goes to rendering, then to complete or error. A `finally`
    clears the busy flag;
  - the brand and style pickers and their per-brand-and-style cache;
  - loading a design from the history.

  Each handler returns the run of states the user sees after one event. The
  module also states an invariant that every event the interface offers keeps.

`base.dfy` holds `Option`, and `text.dfy` holds white-space trimming, ASCII
lower-casing and list joining.

The two remote replies, the fresh design id (`crypto.randomUUID`) and the clock
(`Date.now`) are the fields of `App.Env`. The specification reply is a function
of the request the run sends, which `App.Ask` builds. A design's `imageUrl` is an `Option`.

## Model

| member | source | states |
|---|---|---|
| Types.Find | App.tsx:43 | the found brand is in the table and has the id (or name) looked for; none is found exactly when no brand has it |
| Types.BrandById | App.tsx:42-44 | the current brand is always a supported brand: the one with the selected id, or the first brand when no brand has it |
| Types.BrandByName | App.tsx:175 | the brand matched by device name is supported: the one with that name, or the first brand when none has it |
| Types.BrandsDistinct | types.ts:38-51 | brand ids are pairwise distinct, and so are brand names |
| Types.BrandIdsColonFree | types.ts:38-51 | no brand id contains ':' |
| Types.BrandShapes | types.ts:39-50 | the fallback brand is apple and square; a brand is square exactly when it is apple, fitbit or oppo |
| Types.TablesDistinct | types.ts:29-69 | there are 15 pairwise-distinct complication keys and 6 pairwise-distinct style values |
| Types.ComplicationKeysShape | types.ts:53-69 | every complication key is non-empty, comma-free and starts with a lower-case letter |
| Types.LookupOwn | App.tsx:42-44 | a supported brand is found back both by its own id and by its own name |
| Types.CacheKeyInjective | App.tsx:113 | for colon-free brand ids, two cache keys are equal exactly when the ids and the styles are equal |
| Types.CacheKeyDeterminesBrand | App.tsx:142 | among supported brands, a cache key determines the brand and the style, in both directions |
| Gemini.LangName | services/geminiService.ts:49-59 | a code in the table gives its table name, and any other code gives "English" |
| Gemini.LangNameEnglish | services/geminiService.ts:59 | the name is "English" exactly for "en" or an unknown code; "zh" gives the Simplified Chinese name |
| Gemini.LangNameInjective | services/geminiService.ts:49-57 | distinct known codes give distinct names |
| Gemini.FeaturesRequest | services/geminiService.ts:62-64 | the feature line is the fallback sentence exactly when nothing is selected |
| Gemini.FeaturesRoundTrip | services/geminiService.ts:62-64 | a non-empty valid selection can be parsed back from the mandatory-features line, in order; the fallback sentence parses to nothing |
| Gemini.RequiredComplicationsSplit | services/geminiService.ts:91 | the required line is the fallback text exactly when nothing is selected; otherwise it splits back into the selection |
| Gemini.GenerateSpecs | services/geminiService.ts:108-118 | a failed call is passed on with its message, and a missing or empty text is an error; success happens exactly with a non-empty text that parsed, and then carries the argument device and the parsed fields |
| Gemini.TargetDeviceOverrides | services/geminiService.ts:111-114 | a `targetDevice` in the model's JSON is replaced by the argument |
| Gemini.FirstInline | services/geminiService.ts:140-145 | it gives the first part with inline data, or -1 when there is none; every earlier part has none |
| Gemini.GenerateImage | services/geminiService.ts:139-155 | a failed call is passed on; otherwise success happens exactly when the first inline part has non-empty data, and any failure is "no image data"; a success is a PNG data URL |
| Gemini.ImagePayloadRoundTrip | services/geminiService.ts:151 | the payload of a successful URL is exactly the data of the first inline part |
| Gemini.FirstInlinePartDecides | services/geminiService.ts:140-149 | an empty first inline part fails the call even when a later part carries data |
| SpecsPanel.CollapseSpaces | components/SpecsPanel.tsx:26 | the result of replacing white-space runs has no white space and is no longer than the input |
| SpecsPanel.CollapseNoSpace | components/SpecsPanel.tsx:26 | text without white space is left unchanged |
| SpecsPanel.CollapseRun | components/SpecsPanel.tsx:26 | a non-empty run of white space becomes a single '-' |
| SpecsPanel.CollapseSplit | components/SpecsPanel.tsx:26 | the replacement works piece by piece when the cut is not inside a white-space run |
| SpecsPanel.Slug | components/SpecsPanel.tsx:26 | the slug has no white space and no upper-case ASCII letter, and is no longer than the name |
| SpecsPanel.SlugIdempotent | components/SpecsPanel.tsx:26 | slugging a slug changes nothing |
| SpecsPanel.FileNameShape | components/SpecsPanel.tsx:26 | the file name is "watch-face-", then the slug, then '-', then the id prefix, then ".json", at the stated positions |
| SpecsPanel.FileNameNoSpace | components/SpecsPanel.tsx:26 | the file name has no white space when the id has none |
| SpecsPanel.KeyNamesDistinct | components/SpecsPanel.tsx:16-20 | distinct export keys have distinct property names |
| SpecsPanel.ArrayRoundTrip | components/SpecsPanel.tsx:16-20 | a string list exported as a JSON array reads back unchanged |
| SpecsPanel.ExportKeepsFields | components/SpecsPanel.tsx:16-20 | the export has exactly the design's properties plus `exportedAt` and `tool`, keeps every design value, and sets tool to "ChronoGen AI" |
| SpecsPanel.ExportStrings | components/SpecsPanel.tsx:16-20 | id, name, description, style and target device are exported as their strings |
| SpecsPanel.ExportOthers | components/SpecsPanel.tsx:16-20 | the prompts and the language are exported as strings; the image URL is present exactly when the design has one |
| SpecsPanel.ExportArrays | components/SpecsPanel.tsx:16-20 | the creation time is exported as a number, and the palette and the complications as string arrays |
| SpecsPanel.ExportRoundTrip | components/SpecsPanel.tsx:16-20 | the design can be read back from its export unchanged |
| History.FindIndex | App.tsx:120 | it gives the first position with the URL, or -1 when no entry has it |
| History.FilterFirstSound | App.tsx:120 | every kept entry is the first entry with its URL |
| History.FilterFirstOrdered | App.tsx:120 | kept entries appear in increasing position of their first occurrence |
| History.FilterFirstComplete | App.tsx:120 | every entry that is the first with its URL is kept |
| Base.Take | App.tsx:120 | `slice(0, n)` gives the first min(n, length) entries |
| History.DedupUnique | App.tsx:120 | the de-duplicated list has pairwise distinct URLs |
| History.DedupHead | App.tsx:120 | the head of a non-empty list is kept, and stays first |
| History.UpdateSpec | App.tsx:120 | the new design heads the history; there are at most ten entries with distinct URLs; no later entry shares the new URL; every entry comes from the new design or the previous history |
| History.UpdateKeepsOrder | App.tsx:120 | survivors keep their relative order from `[new, ...prev]` |
| History.UpdateKeepsAllWhenShort | App.tsx:120 | when at most ten distinct URLs are in play, every URL of `[new, ...prev]` is still in the history |
| History.FilterFirstUnique | App.tsx:120 | a list that already has unique URLs is kept whole |
| History.UpdateFresh | App.tsx:120 | a new URL on a duplicate-free history is simply prepended and cut to ten |
| Selection.Remove | App.tsx:58 | the filter drops every copy of the key and keeps every other key |
| Selection.RemoveNoDup | App.tsx:58 | filtering keeps a list duplicate-free |
| Selection.Toggle | App.tsx:56-60 | the key is selected afterwards exactly when it was not before; other keys keep their membership; a new key goes to the end |
| Selection.ToggleKeepsOthers | App.tsx:56-60 | with the toggled key filtered out, the selection is the same before and after, order included |
| Selection.ToggleValid | App.tsx:56-60 | toggling an offered key keeps the selection duplicate-free and within the complication keys |
| Selection.ToggleAllValid | App.tsx:62-65 | toggle-all always leaves a duplicate-free selection of complication keys |
| Selection.ToggleAllClearsExactlyFull | App.tsx:62-65 | for a valid selection, the length test holds exactly when every key is selected; toggle-all clears exactly a full selection, and gives every key in declared order exactly when some key is missing |
| App.RecipeFirstClick | App.tsx:67-69 | an empty prompt becomes exactly the phrase; any other prompt becomes its trimmed text, one space and the phrase, and the trimmed text is empty exactly for an all-blank prompt |
| App.RecipeOnBlankPrompt | App.tsx:67-69 | a non-empty prompt made only of white space becomes `" " + phrase` |
| App.RecipesAccumulate | App.tsx:67-69 | once the prompt has a non-blank character, a second phrase is appended after the first with one space, and nothing of the first is lost |
| App.OutcomeOfSpec | App.tsx:88-100 | a run fails at the first call that fails and is done exactly when both succeed, the first call being answered for the run's request; when done, the device is the requested device and the URL carries a payload |
| App.RunShape | App.tsx:81-135 | a run opens with analyzing and no design shown; it is generating until its last state, which is not; its steps are analyzing-error, analyzing-rendering-error or analyzing-rendering-complete, as the calls went |
| App.RunEndFailed | App.tsx:130-135 | a run ends in error exactly when a call failed; the error shows the localized message and no design, and keeps the history and the (possibly cleared) cache; prompt, selection, language, brand and style are never touched |
| App.RunEndDone | App.tsx:102-129 | a complete run shows a design whose name, description, style, device, palette, complications and visual prompt are the specification's, with the prompt, language, id, time and image URL; it is cached under the brand and style used, in a fresh cache when clearing was asked for, and heads the updated history |
| App.GenerateGuard | App.tsx:76-79 | generation does nothing exactly for a blank prompt or while a run is going; otherwise it ends as its run ends, for the override or selected brand and style |
| App.GenerateOutcome | App.tsx:81-135 | the steps of an accepted generation, in terms of the two service results |
| App.GenerateAsks | App.tsx:71-98 | an accepted generation asks for the prompt, the style used, the used brand's name and shape, the language's name and the selection's lines, and ends on the answer to that request; the features line parses back to a valid selection |
| App.AskDetermines | App.tsx:89-96 | among supported brands and valid selections, equal requests come only from the same brand, style, prompt and selection |
| App.GenerateSuccess | App.tsx:102-117 | a complete generation shows a design for the brand used, with the returned image; it is cached under that brand and style, alone when the cache was cleared, and heads the history |
| App.PickRegenerates | App.tsx:148-150 | on a miss, with a design shown and a prompt, the picker starts a run that keeps the cache |
| App.PickStarts | App.tsx:142-150 | a hit shows the cached design and starts nothing; on a miss a run starts exactly when a design is shown and the prompt is not blank |
| App.PickEnd | App.tsx:138-166 | a picker ends idle with the picked brand and style, keeps every cache entry, and a complete run adds its design for the brand used under the looked-up key |
| App.RunEndKeepsCache | App.tsx:113-117 | a run that does not clear the cache ends idle and keeps every other entry; a complete one adds its design under its key |
| App.BrandPick | App.tsx:138-151 | picking a brand shows a cached design on a hit; on a miss it regenerates exactly when a design is shown and the prompt is not blank; a complete regeneration is for that brand and is cached under the looked-up key |
| App.BrandPickAsks | App.tsx:138-151 | a regenerating brand pick asks for the picked brand's name and shape, the selected style, the prompt and the selection's features line, and ends on the answer |
| App.StylePickAsks | App.tsx:153-166 | a regenerating style pick asks for the current brand's name and shape with the picked style, and ends on the answer |
| App.StylePick | App.tsx:153-166 | the same for picking a style, when the selected brand is a supported one |
| App.BrandRevisitIsCached | App.tsx:138-151 | when picking a brand misses the cache and both calls succeed, coming back to that brand later from any other brand shows the same design from the cache, without a request |
| App.FindStyle | App.tsx:176 | it finds the style value exactly when the string is one of the style values |
| App.MatchStyleIsStored | App.tsx:176 | the matched style is always the stored style string, whether or not it is an enumeration value |
| App.LoadSpec | App.tsx:168-184 | loading shows the design and restores its prompt and style; it selects the brand with the design's device name, or apple when none has it; the cache becomes exactly that design under that brand and style; nothing else changes |
| App.LoadThenSameStyleHits | App.tsx:153-184 | right after a load, picking the loaded style again is a cache hit on the loaded design |
| App.GeneratedLoadsBack | App.tsx:175-178 | a design generated for a supported brand loads back with that brand selected |
| App.InitialInv | App.tsx:16-29 | the start-up state satisfies the invariant |
| App.RunEndKeepsInv | App.tsx:81-135 | the end of every run keeps the invariant |
| App.GenerateKeepsInv | App.tsx:71-136 | generation keeps the invariant |
| App.PickKeepsInv | App.tsx:138-166 | a picker always shows at least one state and keeps the invariant |
| App.OnBrandKeepsInv | App.tsx:138-151 | picking a supported brand keeps the invariant |
| App.OnStyleKeepsInv | App.tsx:153-166 | picking a style keeps the invariant |
| App.HandleKeepsInv | App.tsx:56-184 | every offered event keeps the invariant: a valid selection, a duplicate-free history of at most ten designs, a supported brand, no run going, and an error message exactly in the error step |
| App.BusyIgnoresPickers | App.tsx:139-169 | while a run is going, generation, both pickers and loading change nothing |

## Left out

- The SDK calls themselves, the model names, temperatures and response schema are not modelled. The replies are inputs (`SpecsReply`, `ImageReply`), and a thrown error is a `RequestFailed` reply.
- The prose of the system and user prompts is not modelled. Only the parts that depend on input are: the prompt, the style hint, the device name, the language name, the screen shape, the features line and the required line. `BuildSpecsRequest` collects them, and `App.Ask` fills them in for a run.
- How the model service answers a request is not modelled: `App.Env.specs` is an arbitrary function from request to reply.
- JSON parsing and `JSON.stringify` are not modelled. A reply's parse result is an input. Extra JSON keys from the model are not part of `ParsedSpecs`, so they are dropped where the source would spread them into the design. The export is an abstract map from property to JSON value.
- `localStorage` loading and saving of the history, and its quota failure, are not modelled. The initial history is empty.
- The Blob, URL and anchor download plumbing is not modelled, nor is `new Date().toISOString()`, which is a parameter.
- React rendering, hooks and state batching are not modelled. Each handler is one atomic transition. The UI disables its inputs while generating, so there is no concurrency. `showHistory`, `showWrist` and the wrist mockup component are presentation only.
- White space follows the JavaScript `trim` and `\s` set, listed by code point. Lower-casing is ASCII only; non-ASCII letters are left as they are.
- App.RecipeClick: the handler has no contract of its own. Its behaviour is stated by RecipeFirstClick, RecipeOnBlankPrompt and RecipesAccumulate.
- Gemini.LangName: the JavaScript prototype keys of `langMap` (such as "constructor") are not modelled. For such a code the source would return a function object rather than "English".
- The `designing` step is in the domain of `Step` but is never entered, as in the source.
- The image request's use of `visualPrompt` is not modelled: the image reply is an input.
- `design.originalPrompt || ''` in `loadFromHistory` is modelled as the stored prompt, because a design's prompt is always a string here.

Notes on the code as written:

- After a failed generation no design is shown. The run cleared the current design when it began, and neither error branch sets it back.
- A loaded design's style need not be a style value; it is used, unchanged, as the selected style and in the cache key.
- The style picker looks the cache up under the selected brand id, but a regeneration caches under the current brand's id. The two agree for supported ids, which are the only ones the interface produces (`App.StylePick` requires one).
- `styleOverride || selectedStyle` reads `selectedStyle` from the render before the click, so an empty picked style would fall back to the previous style in the source, where the model uses the new state's style. The picker only offers the six style values (App.tsx:246-250), none of them empty, and `App.Offered` admits only those, so the two agree on every offered event.
- The error text is the one of the current language's translation table, with English as the fallback. The table exists for "en" and "zh" only (localization.ts:40 and localization.ts:105).
