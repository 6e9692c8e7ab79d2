# Roughan brooch generator — a Dafny model of its core

Roughan sells handmade beaded brooches. Its generator lets a visitor describe a
custom brooch and get an image of it. The visitor picks a size, a shape, up to four
colours and a free-text description. The server validates the request and builds an
image prompt from it. It asks an image provider for a picture and keeps the result
in an in-memory store. A browser hook provides a daily quota of three
generations and a local gallery of saved designs. The UI is bilingual (English and German) and fills
`{key}` placeholders in the order e-mails.

This project models that core as pure Dafny functions and proves properties of it.
There is one module per source file:

| module | source | what it holds |
|---|---|---|
| `Schema` (schema.dfy) | shared/schema.ts | sizes, the shape catalogue, the colour table, the request validator as zod runs it (all issues collected), the sample catalog |
| `Storage` (storage.dfy) | server/storage.ts | `MemStorage`: the catalog map built from the samples, and the generated-brooch map |
| `Routes` (routes.dfy) | server/routes.ts | the `POST /api/generate` handler, the colour and size phrases, the prompt template, the two `GET /api/generated/:id` handlers |
| `LocalStorage` (local_storage.dfy) | client/src/hooks/use-local-storage.ts | the daily generation quota and the local gallery |
| `Generator` (generator.dfy) | client/src/pages/Generator.tsx | colour toggling, the pre-submit guards, the colour names of the order e-mail |
| `I18n` (i18n.dfy) | client/src/lib/i18n.ts | both translation tables, `getTranslation`, `formatTemplate`, and the keys the gallery page (client/src/pages/MyBrooches.tsx) asks for |
| `ColorPalette` (color_palette.dfy) | client/src/components/ColorPalette.tsx | the twelve palettes, the selection markers, the palette-click payload |

Four supporting modules sit under them:

- `Wrappers` holds `Option` and `Result`.
- `Seqs` holds distinctness and `Array.prototype.filter`, used by the colour toggle and the gallery.
- `Text` holds the JavaScript string operations used: `startsWith`, `join`, ASCII `toLowerCase`, and a global literal `replace`.
- `OrderedMaps` models a JavaScript `Map`. A `Map` keeps insertion order. `set` on an existing key replaces the value in place. `set` on a new key appends.

The outside world enters as parameters:

- The image provider is a function from prompt to `Option<string>` (the base64 payload or nothing).
- `randomUUID` becomes a fresh id, required to be absent from the store.
- The clock becomes a `now` or `today` string.
- `localStorage` becomes a stored value that is absent, unparseable or parsed.

## Model

| member | source | states |
|---|---|---|
| Schema.ParseSize | shared/schema.ts:18-19 | a size string is accepted exactly when it is one of "S", "M", "L", "XL" |
| Schema.SizeRoundTrip | shared/schema.ts:18-19 | parsing the name of a size gives that size back, and a string that parses to a size is that size's name |
| Schema.ShapeCatalogue | shared/schema.ts:21-26 | there are four categories of five shapes each, twenty shapes in all |
| Schema.AllShapesListed | shared/schema.ts:21-26 | flattening the categories in order gives the twenty shape tags in source order |
| Schema.FindColor | shared/schema.ts:30-41 | a found option is in the colour table and carries the id asked for, and nothing is found exactly when no option has that id |
| Schema.ColorLookupUnambiguous | shared/schema.ts:30-41 | the ten colour ids are pairwise distinct, so looking up an option's id finds that very option |
| Schema.ColorNamesLowerToIds | shared/schema.ts:30-41 | every colour's English name, lower-cased, is its own id |
| Schema.Validate | shared/schema.ts:46-51 | a body is accepted exactly when it is an object with a size in {S, M, L, XL}, a string shape (even empty), 1 to 4 string colours and a 10 to 500 character description, with both bounds inclusive. An accepted request carries the body's own fields. A rejected body gets a non-empty issue list with an issue at a field exactly when that field is violated, so every violation is reported |
| Schema.SampleIdsDistinct | shared/schema.ts:69-150 | the eight sample brooches have pairwise distinct ids |
| OrderedMaps.Get | server/storage.ts:28-30 | `get` gives nothing exactly when the key is absent, and otherwise a value stored under that key |
| OrderedMaps.Values | server/storage.ts:25 | `map.values()`: the values in insertion order, one per entry; `Storage.CatalogLookup` states what it gives for the catalog |
| OrderedMaps.Set | server/storage.ts:20 | `map.set`: grows by one exactly when the key is new; `GetSetSame`, `GetSetOther` and `SetNewKeyAppends` state what it stores and where |
| OrderedMaps.GetSetSame | server/storage.ts:39-45 | after `set(k, v)`, `get(k)` is `v` |
| OrderedMaps.GetSetOther | server/storage.ts:39-45 | `set(k, v)` leaves `get` of every other key unchanged |
| OrderedMaps.SetNewKeyAppends | server/storage.ts:19-21 | setting a new key appends the entry at the end, so insertion order is kept |
| OrderedMaps.SetKeepsDistinct | server/storage.ts:19-21 | `set` never creates a second entry for a key |
| Storage.NewMemStorage | server/storage.ts:15-22 | builds the store from the samples with nothing generated; `CatalogFromSamples` and `NothingGeneratedInitially` state its contents |
| Storage.GetAllBrooches | server/storage.ts:24-26 | the catalog values in insertion order; `CatalogLookup` states that these are the samples in order |
| Storage.GetBroochById | server/storage.ts:28-30 | the catalog entry for an id; `CatalogLookup` states that each sample is found by its id |
| Storage.LoadCatalog | server/storage.ts:19-21 | the constructor's loop of `set` calls; `LoadCatalogLists` states the map it builds |
| Storage.LoadCatalogLists | server/storage.ts:15-22 | filling the catalog from samples with distinct ids lists each sample under its id, in sample order |
| Storage.CatalogLookup | server/storage.ts:24-30 | for distinct-id samples, `getAllBrooches` returns the samples in order and `getBroochById` finds each sample by its id |
| Storage.CatalogFromSamples | server/storage.ts:15-30 | a new store lists the eight samples in order and finds each by its id |
| Storage.SaveGeneratedBrooch | server/storage.ts:32-41 | the record returned is the input plus the id and `createdAt`. The catalog is unchanged, and the record is appended under its id |
| Storage.GetGeneratedBrooch | server/storage.ts:43-45 | the lookup gives nothing exactly when no record has that id |
| Storage.SaveThenGet | server/storage.ts:32-45 | after saving under a fresh id, reading that id gives the record saved. Every other id reads as before, and the catalog reads as before |
| Storage.SaveKeepsIdsDistinct | server/storage.ts:33-39 | saving under a fresh id keeps the generated ids distinct |
| Storage.NothingGeneratedInitially | server/storage.ts:15-17 | a new store has no generated record under any id |
| Routes.DescribeColor | server/routes.ts:57-65 | computes the phrase for one colour token; `DescribeColorMeaning` states what it is |
| Routes.DescribeColorMeaning | server/routes.ts:56-65 | a token starting with `#` becomes "color " + token. Every other token comes out as itself: a known id becomes its name lower-cased, which is the id again, and an unknown token passes through |
| Routes.DescribeColors | server/routes.ts:56-65 | the phrases correspond one-to-one with the tokens, in request order |
| Routes.ColorDescriptions | server/routes.ts:56-66 | the colour phrases joined with ", "; `ColorDescriptionsInOrder` states that they follow request order |
| Routes.ColorDescriptionsInOrder | server/routes.ts:56-66 | adding a token at the end adds its phrase at the end, after ", " when there were phrases before |
| Routes.SizeDescription | server/routes.ts:69-74 | the closed size table, entry for entry; `SizeDescriptionInjective` states that it tells the sizes apart |
| Routes.SizeDescriptionInjective | server/routes.ts:69-74 | the size phrase table gives different phrases for different sizes |
| Routes.BuildPrompt | server/routes.ts:77-83 | computes the prompt; `PromptContainsFields` and `PromptLabels` state where each field and label stands in it |
| Routes.PromptContainsFields | server/routes.ts:77-83 | the prompt starts with the fixed lead. The shape, size phrase, colour phrases and description then stand verbatim at fixed offsets, followed by the fixed tail, and nothing else |
| Routes.PromptLabels | server/routes.ts:77-80 | the size label stands right after the shape, the colours label right after the size phrase, and the style label right after the colour phrases |
| Routes.BeePromptExample | server/routes.ts:77-83 | for size M, shape "bee", colours ["#D4AF37"] and description "A shimmering golden bee.", the prompt contains "bee", "medium, 5cm", "color #D4AF37" and the description |
| Routes.HasImageData | server/routes.ts:96-98 | the provider's payload counts as image data only when present and non-empty; `HandleGenerate` states the answer in each case |
| Routes.HandleGenerate | server/routes.ts:41-127 | an invalid body is answered with its issues, with no prompt sent and the store unchanged. A valid body sends exactly one prompt, the prompt built from the request. A valid body whose provider result has no image data is answered with the generation failure (the 500 answer). A record is produced exactly when the body is valid and the provider returns non-empty data. Only then is the store changed: one record with `imageUrl` = "data:image/png;base64," + data is appended, and the catalog is untouched |
| Routes.HandleGetGenerated | server/routes.ts:130-141 | the answer is "not found" exactly when no record has that id, and a found answer carries the stored record |
| Routes.StripDataUrlPrefix | server/routes.ts:152 | removes the anchored data-URL prefix once; `StripUndoesPrefix` states that this undoes line 103 |
| Routes.StripUndoesPrefix | server/routes.ts:146-152 | removing the leading data-URL prefix recovers the payload that line 103 put behind it. A URL without the prefix is left as it is |
| Routes.HandleGetImage | server/routes.ts:144-152 | the answer is "not found" exactly when no record has that id, and otherwise it is the stored record's `imageUrl` with the data-URL prefix stripped |
| Routes.GenerateThenRead | server/routes.ts:103-152 | after a successful generation, reading the id returns the record just made, and reading its image returns the provider's payload |
| LocalStorage.LoadGenerationLimit | client/src/hooks/use-local-storage.ts:39-62 | computes the loaded limit and what is written back; `LoadMeaning` states what they are |
| LocalStorage.LoadMeaning | client/src/hooks/use-local-storage.ts:39-62 | a stored limit dated today is kept. A missing, unparseable or stale one becomes {today, 0} and is written back. Loading what was written gives the same limit again |
| LocalStorage.RemainingGenerations | client/src/hooks/use-local-storage.ts:89-95 | the remaining count is never negative. It is at most 3 when the count is not negative, and it is 3 on a new day |
| LocalStorage.CanGenerate | client/src/hooks/use-local-storage.ts:81-87 | `canGenerate`; `CanGenerateIffRemaining` and `IncrementsFromFresh` state when it holds |
| LocalStorage.CanGenerateIffRemaining | client/src/hooks/use-local-storage.ts:81-95 | `canGenerate` holds exactly when the remaining count is positive |
| LocalStorage.IncrementGenerationCount | client/src/hooks/use-local-storage.ts:97-106 | the result is always dated today; `IncrementConsumesOne` and `DailyAllowance` state what it does to the allowance |
| LocalStorage.IncrementConsumesOne | client/src/hooks/use-local-storage.ts:97-106 | for any integer count, an increment uses up exactly one remaining generation while any are left, and leaves zero at zero |
| LocalStorage.IncrementsFromFresh | client/src/hooks/use-local-storage.ts:81-106 | n increments from {today, 0} give {today, n}. Remaining is then max(0, 3 − n), and `canGenerate` holds exactly when n < 3 |
| LocalStorage.DailyAllowance | client/src/hooks/use-local-storage.ts:23-106 | after three generations today nothing remains today, but three remain on another day, and the next increment there starts at {that day, 1} |
| LocalStorage.LoadGallery | client/src/hooks/use-local-storage.ts:29-36 | the parsed gallery, or the empty start value when the slot is missing or unparseable |
| LocalStorage.SaveBrooch | client/src/hooks/use-local-storage.ts:65-71 | saving puts the brooch first, in front of the unchanged gallery |
| LocalStorage.RemoveBrooch | client/src/hooks/use-local-storage.ts:73-79 | a brooch remains exactly when it was in the gallery and has another id, and the gallery never grows |
| LocalStorage.RemoveDistributes | client/src/hooks/use-local-storage.ts:75 | removing from a concatenation removes from each part, so the survivors keep their order |
| LocalStorage.RemoveAbsentAndIdempotent | client/src/hooks/use-local-storage.ts:73-79 | removing an absent id changes nothing, and removing twice equals removing once |
| LocalStorage.SaveThenRemove | client/src/hooks/use-local-storage.ts:65-79 | saving a brooch and then removing its id equals removing the id from the old gallery |
| LocalStorage.SaveKeepsDuplicates | client/src/hooks/use-local-storage.ts:65-71 | saving the same brooch twice leaves two more entries with its id, because nothing is deduplicated |
| Generator.RemoveAll | client/src/pages/Generator.tsx:55 | filtering keeps exactly the other ids and never grows the list |
| Generator.RemoveAllKeepsOrder | client/src/pages/Generator.tsx:55 | the filter works part by part, and a single id stays exactly when it is another id, so the remaining ids keep their order and multiplicity. A duplicate-free list stays duplicate-free |
| Generator.ToggleColor | client/src/pages/Generator.tsx:52-62 | `handleColorToggle`; `ToggleMeaning` and `ToggleRemovesInPlace` state what a click does |
| Generator.ToggleMeaning | client/src/pages/Generator.tsx:52-62 | toggling a selected id removes it and keeps the rest. Toggling an absent id with four selected changes nothing. Toggling an absent id with fewer than four selected appends it at the end |
| Generator.ToggleRemovesInPlace | client/src/pages/Generator.tsx:54-56 | removing a selected id that occurs once leaves the ids before it and after it in their order, closing the gap |
| Generator.ToggleKeepsSelectionValid | client/src/pages/Generator.tsx:52-62 | a toggle keeps at most four selections and no duplicates |
| Generator.ToggleAll | client/src/pages/Generator.tsx:52-62 | the selection after a series of clicks; `ClicksKeepSelectionValid` states that it stays valid |
| Generator.ClicksKeepSelectionValid | client/src/pages/Generator.tsx:52-62 | any sequence of toggles keeps at most four selections and no duplicates |
| Generator.ToggleTwiceRestores | client/src/pages/Generator.tsx:54-60 | with room left, toggling an absent id twice gives back the original selection |
| Generator.CheckBeforeGenerate | client/src/pages/Generator.tsx:64-87 | the three checks of `handleGenerate`; `GuardOrder` states their order and when the request is sent |
| Generator.GuardOrder | client/src/pages/Generator.tsx:64-87 | an empty shape is reported first, then an empty colour selection, then a description under 10 characters. The request is sent exactly when all three checks pass |
| Generator.RequestBody | client/src/pages/Generator.tsx:32-37 | the body the page posts; `SentRequestsValidate` states that the server accepts it unchanged |
| Generator.SentRequestsValidate | client/src/pages/Generator.tsx:30-37 | a request the page sends, with at most four colours and at most 500 characters, passes the server's validation unchanged |
| Generator.LongDescriptionPassesPageChecks | client/src/pages/Generator.tsx:79-86 | the page's own checks have no upper bound: a 501-character description passes them, and the server then rejects the request |
| Generator.ColorName | client/src/pages/Generator.tsx:93-96 | the name shown for one id; `ColorNameMeaning` states what it is |
| Generator.ColorNameMeaning | client/src/pages/Generator.tsx:92-96 | a known id becomes its German name when the language is German and its English name otherwise. An unknown id stays as it is |
| Generator.ColorNames | client/src/pages/Generator.tsx:92-97 | the names joined with ", "; `ColorNamesInOrder` states that they follow selection order |
| Generator.ColorNamesInOrder | client/src/pages/Generator.tsx:92-97 | adding an id at the end adds its name at the end, after ", " when there were names before |
| I18n.Lookup | client/src/lib/i18n.ts:220-222 | a key has no entry exactly when it is not among the table's keys. Otherwise the text found is the one stored under the last entry with that key |
| I18n.TablesAgree | client/src/lib/i18n.ts:11-207 | the English and German tables list the same keys in the same order, and no text in either is empty |
| I18n.GetTranslation | client/src/lib/i18n.ts:220-223 | the table text, or the key when there is none or it is empty; `TranslationFallback` states its result for the shipped tables |
| I18n.Translate | client/src/lib/i18n.ts:222 | the table text, or the key when there is none or it is empty; `MyBroochesSectionTranslates` states its result for tables extended by a gallery section |
| I18n.MyBroochesKeysUntranslated | client/src/pages/MyBrooches.tsx:26-129 | as written, none of the gallery page's keys is in either table, so both languages show the raw key |
| I18n.MyBroochesSectionTranslates | client/src/lib/i18n.ts:220-223 | with a gallery section of the same keys in both languages and no empty text appended to the tables, each of the page's keys translates to that section's text, which is not empty |
| I18n.AgreeingTablesTranslate | client/src/lib/i18n.ts:220-223 | for any two tables that agree this way, a key is defined in one exactly when it is in the other. A defined key has a non-empty text, and an undefined key has no entry in either |
| I18n.TranslationFallback | client/src/lib/i18n.ts:220-223 | for both languages, a key in the table is translated to its own non-empty text, and any other key comes back unchanged |
| I18n.FormatTemplate | client/src/lib/i18n.ts:225-231 | applies the entries in order; `FormatSequential`, `FormatWithoutPlaceholders`, `FormatKeepsUnsuppliedPlaceholder` and `FillOnePlaceholder` state its effect |
| I18n.FormatSequential | client/src/lib/i18n.ts:225-231 | with no entries the template is returned unchanged. Adding an entry at the end applies its replacement to the result of the earlier entries |
| I18n.FormatWithoutPlaceholders | client/src/lib/i18n.ts:225-231 | a template containing none of the entries' placeholders is returned unchanged |
| I18n.FormatKeepsUnsuppliedPlaceholder | client/src/lib/i18n.ts:225-231 | in any template, a placeholder whose key has no entry is kept where it stands, and the text before it and after it is filled as if on its own |
| I18n.ReplaceKeepsOtherPlaceholder | client/src/lib/i18n.ts:228 | one key's global replace leaves the placeholder of every other brace-free key intact and fills the text on both sides of it separately |
| Text.ReplaceAllSplit | client/src/lib/i18n.ts:228 | when no occurrence crosses the boundary, the global replace of a concatenation is the concatenation of the replaces of its parts |
| I18n.FillOnePlaceholder | client/src/lib/i18n.ts:227-229 | a `{key}` standing between brace-free text is replaced by the value, and the surrounding text is kept |
| Text.ReplaceAll | client/src/lib/i18n.ts:228 | the global literal replace; `ReplaceAllLeftmost` and `ReplaceAllAbsent` state what it rewrites |
| Text.ReplaceAllLeftmost | client/src/lib/i18n.ts:228 | the global replace rewrites the leftmost occurrence and resumes scanning right after it, so no occurrence the scan meets is skipped |
| Text.ReplaceAllAbsent | client/src/lib/i18n.ts:228 | text without the pattern is returned unchanged |
| Text.JoinSnoc | server/routes.ts:66 | joining parts with one more part at the end appends the separator and that part |
| Seqs.Filter | client/src/hooks/use-local-storage.ts:75 | an element is kept exactly when it was there and passes the test, and the list never grows |
| Seqs.FilterDistributes | client/src/hooks/use-local-storage.ts:75 | filtering a concatenation filters each part, so what stays keeps its order |
| Seqs.FilterKeepsAllAndIdempotent | client/src/hooks/use-local-storage.ts:75 | a list whose elements all pass is kept whole, and filtering twice equals filtering once |
| ColorPalette.IsColorSelected | client/src/components/ColorPalette.tsx:167 | `isColorSelected`: the hex is in the selection |
| ColorPalette.IsPaletteSelected | client/src/components/ColorPalette.tsx:168-169 | `isPaletteSelected`: every hex of the palette is in the selection; `NoSendableSelectionMarksPalette` and `PaletteClickMarksPalette` state its consequences |
| ColorPalette.PaletteSelection | client/src/components/ColorPalette.tsx:177 | a palette click sends the first min(4, number of colours) hexes of the palette, in palette order |
| ColorPalette.PalettesWellFormed | client/src/components/ColorPalette.tsx:17-162 | there are twelve palettes, each with five colours of distinct hexes, and the palette ids are pairwise distinct |
| ColorPalette.PaletteSelectionFitsRequest | client/src/components/ColorPalette.tsx:177 | a click on any palette sends exactly four hexes, within the one-to-four bound at shared/schema.ts:49 |
| ColorPalette.PaletteClickNeverMarksPalette | client/src/components/ColorPalette.tsx:168-169 | as written, when the selection is exactly a palette click's payload, that palette is not marked: the fifth hex is not sent, and the marker requires every hex |
| ColorPalette.NoSendableSelectionMarksPalette | client/src/components/ColorPalette.tsx:168-169 | as written, no selection of at most four colours marks a five-colour palette, whatever the page does with a click's payload |
| ColorPalette.PaletteClickMarksPalette | client/src/components/ColorPalette.tsx:168-169 | the corrected marker (every hex that a click sends is selected) holds after the palette's own click. It accepts every selection the original marker accepts, and it agrees with the original on palettes of up to four colours |

Rows that name a function without a contract of its own point to the lemma that
states its meaning.

## Left out

- The OpenAI call is left out: it is I/O. The provider is a function parameter. The model's failure case covers three things: no data at all, an empty string (JavaScript treats "" as false), and a thrown API error. The two 500 messages (`APIError` and any other error) are merged into one `GenerationFailed` answer.
- Express and React plumbing is left out: status codes, JSON encoding, headers, `Cache-Control`, the `console.log` of the prompt and the `console.error` calls of the route error handlers, React state hooks, toasts and `mailto:` URL encoding.
- The catalog routes `GET /api/brooches` and `GET /api/brooches/:id` are left out: they only forward to `getAllBrooches` and `getBroochById`, which are modelled.
- Base64 decoding in the image route is left out: the model returns the base64 text that would be decoded.
- `localStorage` and `JSON.parse` are left out. A stored value is `Absent`, `Unparseable` or `Parsed`. A parsed value whose fields have the wrong types is not modelled.
- The JSON text of the gallery is not modelled. `LoadGallery` keeps a parsed gallery and otherwise keeps the empty start value, as the hook does.
- Clocks are left out: `new Date().toISOString()` and the day string are parameters.
- `randomUUID` is left out: freshness of the id is a precondition.
- The palette picker's caller is not part of this model: no page among the modelled files renders `ColorPalette`, and the `onPaletteSelect` handler that receives a click's payload is not shown. The lemmas about the marker therefore either take the payload as the selection or hold for every selection of at most four colours.
- No page among the modelled files calls `incrementGenerationCount` or `saveBrooch`. Generator.tsx does not use the hook at all, and MyBrooches.tsx (line 66) takes only `removeBrooch` and `getRemainingGenerations`. The model therefore states the hook's operations on their own and does not wire the quota to the page's generate button.
- The textarea's `maxLength={500}` (Generator.tsx:348) is a browser input limit, not part of `handleGenerate`'s checks, and is not modelled.
- `toLowerCase` is modelled for ASCII letters only. Every string it is applied to (the colour names) is ASCII.
- String lengths are counted in characters, not UTF-16 code units. All length checks apply to the user's own text, so the difference only shows for characters outside the Basic Multilingual Plane.
- `formatTemplate` is modelled for keys made of word characters and values without `$`. Only then does the `RegExp` match the placeholder literally and `replace` insert the value literally. Values are strings: a number value, such as the price Product.tsx passes, enters the model already converted by `String(value)`. The entry list stands for `Object.entries(values)`, not for the object literal as written: JavaScript lists integer-like keys (all digits) first, in ascending order. Every key the program passes is non-numeric, so there the two orders agree.
- `getTranslation` on keys inherited from `Object.prototype`, such as "constructor", is not modelled. Such lookups would return a function.
- zod's per-element issues are not modelled. A `colors` array holding a non-string is treated like a missing field: one issue at the `colors` path.
- Shape tag distinctness is not stated: the shapes are only counted.
- LocalStorage.IncrementConsumesOne: counts are integers. A stored count parsed from JSON may be fractional: with 2.5 the hook reports 0.5 remaining and still allows a generation, and after the increment it reports 0. The model does not cover such counts.
- LocalStorage.RemainingGenerations: the upper bound 3 is stated only for a non-negative stored count. A parsed record dated today with a negative count is kept as it is by the load, and then gives 3 − count > 3 remaining.
- The validator checks neither the shape nor the colour tokens: there is no hex format check and no known-id check.
- The validator reports every violated field, not only the first.
- `saveBrooch` does not deduplicate by id.

## Findings

| source | as written | input that shows it | evidently intended | confidence | as-written member | corrected member |
|---|---|---|---|---|---|---|
| client/src/components/ColorPalette.tsx:168-169 | `isPaletteSelected` asks for all five hexes of a palette, but a palette click (line 177) sends only the first four, and the page and the request allow at most four colours | clicking "ocean-breeze" sends `["#1a5f7a", "#57c5b6", "#159895", "#002b5b"]` and leaves out "#8fe3cf". If the page takes the payload as its selection, the palette is not marked. Whatever it does, no selection of four or fewer colours marks a five-colour palette | a palette shows as selected after its own click: test the hexes a click sends | medium, not executed | ColorPalette.NoSendableSelectionMarksPalette | ColorPalette.PaletteClickMarksPalette |
| client/src/pages/MyBrooches.tsx:26-129 | the gallery page asks for `myBrooches.*` keys, but client/src/lib/i18n.ts defines no such key in either language, and `getTranslation` falls back to the key | `t("myBrooches.title")` shows "myBrooches.title" as the page heading, in English and in German; so do the subtitle, the remaining-count line and the other gallery texts | a gallery section in both tables, so that each of the page's keys has a text | high, not executed | I18n.MyBroochesKeysUntranslated | I18n.MyBroochesSectionTranslates |
