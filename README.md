# Social post studio: a Dafny model of its deterministic core

The application turns a spoken, typed or photographed idea into a social
media post. The flow has five steps:

1. A keyword resolver picks a stock picture collection for the idea.
2. A generation service asks a language model for an intent and captions, falling back to a fixed demo envelope when that fails or is slow.
3. An editor ("the mixer") lets the user combine a picture, a caption, a filter, overlay text, a frame and an aspect ratio.
4. A preview draws the result inside a mock of the chosen platform's feed.
5. An application shell moves between these screens.

Each of these parts is one Dafny module:

- `Wrappers` (Wrappers.dfy): `Option`, JavaScript's `null`/`undefined`
- `Text` (Text.dfy): the string built-ins the core uses: `toLowerCase`, `includes`, `split(',')`, `trim`, `slice`, `replace(/\s+/g, …)`, `toString`
- `Types` (Types.dfy): `types.ts`
- `StockData` (StockData.dfy): `src/data/stockData.ts`
- `StockExamples` (StockExamples.dfy): worked inputs of the resolver
- `GeminiService` (Gemini.dfy): `services/geminiService.ts`
- `Canvas` (Canvas.dfy): the three-layer canvas both the editor and the preview draw
- `CreativeMixer` (Mixer.dfy): `src/components/Mixer.tsx`
- `Feed` (FeedPreview.dfy): `src/components/FeedPreview.tsx`
- `AppShell` (App.dfy): `App.tsx`
- `Navbar` (Navbar.dfy): `components/Navbar.tsx`

Some parts take inputs the model does not compute. They are parameters:
- **The model SDK.** An image call is one of the following:
  - an SDK error;
  - the list of response parts.

  A text call is one of the following:
  - an SDK error;
  - the reply text.

  The empty text also stands for an absent text.
- **`JSON.parse`.** It gives one of three outcomes: a throw, a value that is not an object, or an object with an optional string `intent` and optional captions.
- **The 15-second timer race.** The parameter says which promise settles first. Without a client the generation settles at once, so no timer can win.
- **Clock readings and random urls.** They are opaque strings.

Stateful parts follow the source's own form:
- The editor, the preview's publish controls and the application shell are classes.
- Each user action is a method whose `modifies` clause names the fields that handler sets.
- The editor holds its eight design slots as one `DesignState` field.
- The editor's frame table and the preview's frame table are two constants. A lemma proves they are equal.

Three behaviours of the code are easy to misread:
- **The upload split.** When the data-URL expression does not match, the payload is `split(',')[1]`: the field between the first and the second comma (or the end of the text). When that field is missing or empty, the payload is the whole text.
- **The aspect-ratio default.** In a session without a saved design, the format's ratio is applied again whenever the sync effect re-runs. The effect depends on the length of the local list, so it runs at mount, on every new envelope, and again after any run or handler that changes that length. A single run sets the ratio only when visuals were present before it (`CreativeMixer.Mixer.Sync`). Once the effect settles, a fresh session that is not loading has its format's ratio whenever its list is non-empty (`CreativeMixer.Mixer.RunEffect`). An upload or a generated image therefore resets a ratio the user picked in a fresh session (`CreativeMixer.Mixer.FileUpload`).
- **Restore round trip.** Restoring a saved design gives it back unchanged only when its `||`-defaulted fields are truthy (`CreativeMixer.RestoreFixedPointIff`). Every design the editor produces is such a design (`CreativeMixer.Mixer.Valid` is kept by every action), so Next, restore and Next reproduce the design (`CreativeMixer.Mixer.Next`). Only the design comes back: the remounted editor starts again from the envelope, with the Instagram platform, the envelope's list and its first picture, and the caption text of the mount rule, so an upload, a generated picture, a picked platform and an edited caption are lost (`CreativeMixer.RemountAfterPreview`).

## Model

| member | source | states |
|---|---|---|
| `Types.PlatformName` | types.ts:17-21 | every platform has a non-empty display name |
| `Types.EnumerationsComplete` | types.ts:4-21 | there are exactly ten screens and three platforms, listed without repetition; the platform names are pairwise different |
| `Types.LoadingFlagReading` | types.ts:37 | an absent loading flag reads as false, like an explicit false; only an explicit true means loading |
| `Types.MixerData.Loading` | src/components/Mixer.tsx:15 | loading needs a present flag, and an explicit false is not loading |
| `Text.ToLowerIdempotent` | src/data/stockData.ts:72 | lower-casing twice is lower-casing once |
| `Text.ToLower` | src/data/stockData.ts:72 | `toLowerCase` keeps the length and lower-cases each character on its own |
| `Text.IncludesIffOccurs` | src/data/stockData.ts:74 | the scanning `includes` is true exactly when the keyword occurs as a slice of the text |
| `Text.Includes` | src/data/stockData.ts:74 | `includes` can hold only when the keyword is no longer than the text |
| `Text.BeforeComma` | services/geminiService.ts:257 | the first comma field has no comma, is a prefix of the text, and is followed by a comma unless it is the whole text |
| `Text.SecondCommaField` | services/geminiService.ts:80 | the second comma field is absent exactly when the text has no comma; otherwise it is the comma-free text right after the first comma, ending at the next comma or at the end |
| `Text.BeforeCommaUnique` | services/geminiService.ts:80 | a comma-free prefix followed by a comma or the end is the first comma field |
| `Text.SecondCommaFieldOf` | services/geminiService.ts:80 | the second field of `a,b` with comma-free parts is `b` |
| `Text.Trim` | services/geminiService.ts:257 | the trimmed text is a slice of the text that neither starts nor ends with whitespace, and everything before and after that slice is whitespace |
| `Text.Prefix` | services/geminiService.ts:244 | `slice(0, n)` keeps a prefix of length min(n, length) |
| `Text.ReplaceWhitespaceRunsSplit` | src/components/FeedPreview.tsx:198 | a word, a maximal whitespace run and the rest become the word, one `_`, and the rest replaced on its own |
| `Text.ReplaceWhitespaceRunsFacts` | src/components/FeedPreview.tsx:198 | replacing whitespace runs leaves no whitespace, never lengthens the text, and leaves a text without whitespace unchanged |
| `Text.ReplaceWhitespaceRuns` | src/components/FeedPreview.tsx:198 | the result starts with the text's first character, or with `_` when the text starts with whitespace |
| `Text.NatToString` | services/geminiService.ts:281 | an index's decimal text is non-empty, all digits, and has no leading zero |
| `Text.ParseNatToString` | services/geminiService.ts:281 | reading the decimal text back gives the index |
| `Text.NatToStringInjective` | services/geminiService.ts:281 | different indices have different decimal texts |
| `StockData.Library` | src/data/stockData.ts:13-69 | every collection is non-empty |
| `StockData.SmartImages` | src/data/stockData.ts:71-95 | the resolver always returns one of the seven collections, which is never empty |
| `StockData.NailsTestIsKeywordList` | src/data/stockData.ts:74 | the NAILS test holds exactly when some NAILS keyword is a substring |
| `StockData.BarberTestIsKeywordList` | src/data/stockData.ts:77 | the same for BARBER |
| `StockData.HairTestIsKeywordList` | src/data/stockData.ts:80 | the same for HAIR |
| `StockData.SpaTestIsKeywordList` | src/data/stockData.ts:83 | the same for SPA |
| `StockData.TutorialTestIsKeywordList` | src/data/stockData.ts:86 | the same for TUTORIAL |
| `StockData.ProductTestIsKeywordList` | src/data/stockData.ts:89 | the same for PRODUCT |
| `StockData.LastThreeAreFirstMatching` | src/data/stockData.ts:83-94 | the last three tests and the fallback agree with the reference resolver on SPA, TUTORIAL, PRODUCT |
| `StockData.CategorizeIsFirstMatching` | src/data/stockData.ts:74-94 | the if-chain equals the reference resolver that tries the keyword lists in the order NAILS, BARBER, HAIR, SPA, TUTORIAL, PRODUCT |
| `StockData.Categorize` | src/data/stockData.ts:74-94 | NAILS exactly when a NAILS keyword test holds; GENERAL only when none of the six tests holds |
| `StockData.FirstMatchingSpec` | src/data/stockData.ts:74-94 | the reference resolver picks a category exactly when that category is the first one in the order with a keyword hit, or GENERAL exactly when no list has a hit |
| `StockData.CategorizeIsFirstHit` | src/data/stockData.ts:74-94 | the chain picks the first category in priority order with a hit, and GENERAL exactly when none has one |
| `StockData.GeneralIffNoKeyword` | src/data/stockData.ts:93-94 | GENERAL is picked exactly when no keyword of the six lists occurs |
| `StockData.NailsWins` | src/data/stockData.ts:74-75 | any NAILS keyword wins over all other lists |
| `StockData.PickedCategoryHasKeyword` | src/data/stockData.ts:74-91 | a specific category is picked only when one of its own keywords occurs |
| `StockData.SmartImagesCaseInsensitive` | src/data/stockData.ts:72 | texts equal up to case get the same collection, and lower-casing first changes nothing |
| `StockData.NumberedIdsStartWith` | src/data/stockData.ts:13-68 | every id of a numbered collection starts with the collection's letter |
| `StockData.NailsNumbered` | src/data/stockData.ts:14-21 | NAILS is n1 to n6 in authored order |
| `StockData.BarberNumbered` | src/data/stockData.ts:22-30 | BARBER is b1 to b7 in authored order |
| `StockData.HairNumbered` | src/data/stockData.ts:31-39 | HAIR is h1 to h7 in authored order |
| `StockData.SpaNumbered` | src/data/stockData.ts:40-46 | SPA is s1 to s5 in authored order |
| `StockData.TutorialNumbered` | src/data/stockData.ts:47-52 | TUTORIAL is t1 to t4 in authored order |
| `StockData.ProductNumbered` | src/data/stockData.ts:53-62 | PRODUCT is p1 to p8 in authored order |
| `StockData.GeneralNumbered` | src/data/stockData.ts:63-68 | GENERAL is g1 to g4 in authored order |
| `StockData.LibraryIdsNumbered` | src/data/stockData.ts:14-68 | every collection's ids are its letter followed by 1, 2, 3, … in authored order |
| `StockData.GenericExactlyGeneral` | src/data/stockData.ts:13-68 | a collection's first id starts with 'g' exactly for GENERAL; no id of another collection starts with 'g' |
| `StockData.SmartImagesGenericIffGeneral` | src/data/stockData.ts:71-95 | the resolver's first id starts with 'g' exactly when the text resolves to GENERAL |
| `StockData.LibraryInjective` | src/data/stockData.ts:13-68 | different categories have different collections |
| `StockExamples.EmptyIsGeneral` | src/data/stockData.ts:94 | the empty text resolves to GENERAL |
| `StockExamples.HaircutForMenIsBarber` | src/data/stockData.ts:77-80 | "haircut for men" resolves to BARBER because "men" is tested before "hair" |
| `StockExamples.SubstringMenIsBarber` | src/data/stockData.ts:77 | "women" and "comment" resolve to BARBER: matching is on substrings |
| `StockExamples.BalayageIsHair` | src/data/stockData.ts:74-80 | "fresh balayage and blowout" resolves to HAIR; it holds no NAILS or BARBER keyword |
| `StockExamples.SpaIsSpa` | src/data/stockData.ts:83-84 | "spa" resolves to SPA |
| `StockExamples.NoKeywordIsGeneral` | src/data/stockData.ts:93-94 | a text with no keyword resolves to GENERAL |
| `StockExamples.NoHeadCharIsGeneral` | src/data/stockData.ts:74-94 | a lower-case text without any keyword's first letter resolves to GENERAL |
| `GeminiService.FallbackMixerData` | services/geminiService.ts:28-40 | the demo envelope has the given format, the SPA collection, three captions with ids "1", "2", "3", the demo intent and no loading flag |
| `GeminiService.Reid` | services/geminiService.ts:281 | re-numbering keeps the count, every text and tone in order, and gives caption i the id "i" |
| `GeminiService.ReidIdsDistinct` | services/geminiService.ts:138 | re-numbered ids are pairwise different, and re-numbering again changes nothing |
| `GeminiService.ReidForgetsIds` | services/geminiService.ts:281 | lists that differ only in ids re-number to the same list |
| `GeminiService.LastMarkerAtOrBelow` | services/geminiService.ts:71 | finds the last `;base64,` that leaves a non-empty group on both sides, as the greedy regular expression does, or reports that there is none |
| `GeminiService.ParseDataUrl` | services/geminiService.ts:71-81 | on a match the upload is exactly `data:` + media type + `;base64,` + payload, both non-empty; otherwise the media type is "image/jpeg" and the payload is the second comma field when it is non-empty, the whole text otherwise |
| `GeminiService.DataUrlMatches` | services/geminiService.ts:71 | a text the expression accepts starts with `data:` and has at least 15 characters, the length of `data:x;base64,y` |
| `GeminiService.DataUrlRoundTrip` | services/geminiService.ts:71-77 | a data URL built from a media type and a base64 payload splits back into exactly that media type and payload |
| `GeminiService.NonDataUrlIsJpeg` | services/geminiService.ts:78-81 | a text the regular expression rejects is sent as "image/jpeg", with the second comma field as payload when that field is non-empty and the whole text otherwise |
| `GeminiService.EmptyMediaTypeFallsBack` | services/geminiService.ts:71-81 | "data:;base64,AAAA" is rejected (empty media type) and sends "AAAA" as "image/jpeg" |
| `GeminiService.PlainDataUrlFallsBack` | services/geminiService.ts:71-81 | "data:text/plain,hi" is rejected (not base64) and sends "hi" as "image/jpeg" |
| `GeminiService.FirstImagePart` | services/geminiService.ts:52-56 | finds the first response part carrying non-empty image data, or reports that none does |
| `GeminiService.GenerateImage` | services/geminiService.ts:42-62 | without a client, on an SDK error, or with no image part, the fallback url; otherwise the data URL of the first image part |
| `GeminiService.MimeText` | services/geminiService.ts:54 | a present media type is printed as itself |
| `GeminiService.InlineDataUrl` | services/geminiService.ts:54 | the image part's url is a `data:` url |
| `GeminiService.FirstImageIsFirst` | services/geminiService.ts:52-56 | the part the loop stops at is the first image part |
| `GeminiService.GeneratedImageSplitsBack` | services/geminiService.ts:54 | a generated image's data URL splits back into its media type and payload |
| `GeminiService.IntentOrDefault` | services/geminiService.ts:278 | a non-empty reply intent is kept; an absent or empty one gives "Content Creation" |
| `GeminiService.AiVisual` | services/geminiService.ts:257-262 | the dynamic visual of a reply has the id "dyn-ai-1", the given url, and as prompt the trimmed first comma field of the query followed by " high quality photography" |
| `GeminiService.SelectVisuals` | services/geminiService.ts:252-275 | the visuals equal the category-level selection: the text's collection plus the dynamic visual, or the caption's collection when the text is GENERAL and the caption is not |
| `GeminiService.VisualSelectionFacts` | services/geminiService.ts:266-275 | the selection is non-empty; it is generic exactly when both the query and the caption (if any) are GENERAL; a specific query keeps its collection and the dynamic visual |
| `GeminiService.SafeFallback` | services/geminiService.ts:286-290 | the error fallback is the demo envelope with the text's own collection for text input and the SPA collection for audio |
| `GeminiService.TextVisuals` | services/geminiService.ts:160-176 | a text input's collection, followed by exactly two dynamic visuals when the text is longer than two characters, whose prompts start with the text and whose urls are the two given ones |
| `GeminiService.UseReply` | services/geminiService.ts:235-291 | empty text gives the demo envelope; an unusable parse gives the error fallback; a parse failure gives the salvage envelope; a usable object gives its intent, re-numbered captions and the selected visuals |
| `GeminiService.FirstCaptionText` | services/geminiService.ts:267 | a non-empty result is the text of the first caption of a present, non-empty list |
| `GeminiService.GeneratePostIngredients` | services/geminiService.ts:153-305 | a timer win or SDK error gives the error fallback; no client gives the demo envelope (with the input's visuals and intent for text); a reply in time is handled as `UseReply` states |
| `GeminiService.SafeFallbackShape` | services/geminiService.ts:294-302 | the timeout envelope equals the catch envelope; for audio it is the plain demo envelope |
| `GeminiService.SalvageFacts` | services/geminiService.ts:244-248 | the salvage intent is at most 100 characters of the reply and is kept as the intent; its one caption is re-numbered "0" |
| `GeminiService.UserVisual` | services/geminiService.ts:84-88 | the upload's visual points at the upload and has a "user-" id |
| `GeminiService.GenerateCaptionsFromImage` | services/geminiService.ts:65-151 | the upload is the only visual; no client or any failure gives the demo captions; a usable reply gives its re-numbered captions and its intent |
| `Canvas.DrawFrame` | src/components/FeedPreview.tsx:49-60 | a frame layer carries its class (or the empty class), overlay and badge, and shows the quote icon exactly for the quote frame |
| `Canvas.ShadowClassRule` | src/components/FeedPreview.tsx:83 | the text has a drop shadow exactly for white text on a transparent background, a box shadow otherwise |
| `Canvas.ShadowClass` | src/components/FeedPreview.tsx:83 | the text shadow is one of two classes, `drop-shadow-lg` or `shadow-lg` |
| `Canvas.DrawText` | src/components/FeedPreview.tsx:71-88 | a text layer is drawn exactly when the overlay text is non-empty, centred at the position, scaled by size/100, in the overlay's colour and background |
| `Canvas.Stack` | src/components/FeedPreview.tsx:66-89 | the base image comes first, the frame second when present, and the text last when present |
| `CreativeMixer.RestoredDesign` | src/components/Mixer.tsx:42-52 | a fresh session gets the defaults; a saved design keeps its text and position; the restored design is always restorable |
| `CreativeMixer.RestoreFixedPointIff` | src/components/Mixer.tsx:42-52 | restore returns a saved design unchanged exactly when its defaulted fields are truthy; each of the six defaulted fields goes back to its default when falsy and is kept when truthy, whatever the other fields hold |
| `CreativeMixer.RestoreIdempotent` | src/components/Mixer.tsx:42-52 | restoring twice is restoring once |
| `CreativeMixer.Clamp` | src/components/Mixer.tsx:150-151 | the result lies in [0, 100], equals an in-range input, and saturates at either end |
| `CreativeMixer.ClampIdempotentMonotone` | src/components/Mixer.tsx:150-151 | clamping is idempotent and keeps the order |
| `CreativeMixer.FormatRatio` | src/components/Mixer.tsx:86-90 | the format's default ratio is one the ratio buttons offer |
| `CreativeMixer.FormatRatioVertical` | src/components/Mixer.tsx:242 | stories and reels get a vertical ratio and posts a square one; the fresh default is not vertical |
| `CreativeMixer.IsVertical` | src/components/Mixer.tsx:242 | a vertical ratio is one of the three ratio buttons, and not the square default |
| `CreativeMixer.EditorFrame` | src/components/Mixer.tsx:222-240 | no frame for null or the empty name, the table's frame for a known name, and a failure for an unknown name |
| `CreativeMixer.EditorLayers` | src/components/Mixer.tsx:289-317 | the editor fails exactly on an unknown frame; otherwise the base image with the filter comes first and the text layer is last exactly when there is overlay text |
| `CreativeMixer.ValidEditorDraws` | src/components/Mixer.tsx:222-226 | a drawable design (no frame or a known frame, text position inside the 0-100 canvas) always draws a preview |
| `CreativeMixer.FreshSessionTakesFormatRatio` | src/components/Mixer.tsx:64-92 | mounting on a loading placeholder and then receiving a loaded envelope gives a fresh session its format's ratio: tall for stories and reels |
| `CreativeMixer.RemountAfterPreview` | src/components/Mixer.tsx:30-57 | back from the preview, the editor remounted on the handed-on design hands on the same design again, but its platform is Instagram, its list is the envelope's, its picture the envelope's first, and its caption text follows the mount rule, not the user's edit |
| `CreativeMixer.Mixer.constructor` | src/components/Mixer.tsx:30-92 | mounting takes the envelope's visuals, selects its first visual and caption or the placeholders, restores the saved design, and runs the sync effect once (which gives a loaded fresh session its format's ratio); a drawable saved design stays drawable |
| `CreativeMixer.Mixer.Next` | src/components/Mixer.tsx:111-129 | the bundle holds the platform, the selected picture's url, the caption text and exactly the eight design slots; a valid design survives restore unchanged |
| `CreativeMixer.Mixer.Sync` | src/components/Mixer.tsx:64-92 | a longer incoming list replaces the local list, and the first visual is selected only if the list was empty; the first caption replaces only the placeholder and fills only an empty caption; a restored ratio is never changed; nothing else changes |
| `CreativeMixer.Mixer.RunEffect` | src/components/Mixer.tsx:64-92 | the sync effect run until it settles: a second run follows a run that changed the list's length; the selection and captions change as one run says; a fresh session that is not loading takes its format's ratio exactly when its list is then non-empty |
| `CreativeMixer.Mixer.Receive` | src/components/Mixer.tsx:63-92 | a new envelope arrives and the effect settles over it: the list, the selection, the caption and its text, and the ratio change as `RunEffect` says; a caption the user typed is kept; nothing else changes |
| `CreativeMixer.Mixer.PointerDown` | src/components/Mixer.tsx:132-140 | a drag starts |
| `CreativeMixer.Mixer.PointerUp` | src/components/Mixer.tsx:156-162 | the drag ends |
| `CreativeMixer.Mixer.PointerMove` | src/components/Mixer.tsx:142-154 | while dragging the position becomes the clamped pointer position within [0, 100]; otherwise nothing changes |
| `CreativeMixer.Mixer.FileUpload` | src/components/Mixer.tsx:165-182 | the upload is put first and selected, the rest keep their order, unless the effect that follows replaces the list with a longer envelope list; a fresh session that is not loading takes its format's ratio again; an empty result changes nothing |
| `CreativeMixer.Mixer.BeginGenerateImage` | src/components/Mixer.tsx:184-188 | a generation starts only when none is in flight, with the selected prompt or the stock prompt |
| `CreativeMixer.Mixer.FinishGenerateImage` | src/components/Mixer.tsx:189-203 | the generated picture is put first and selected, the rest keep their order (with the same effect run as after an upload), and the flag clears |
| `CreativeMixer.Mixer.CaptionSelect` | src/components/Mixer.tsx:217-220 | the suggestion is selected and its text becomes the caption |
| `CreativeMixer.Mixer.EditCaption` | src/components/Mixer.tsx:444-446 | typing replaces the caption text |
| `CreativeMixer.Mixer.SelectVisual` | src/components/Mixer.tsx:408 | tapping a visual selects it |
| `CreativeMixer.Mixer.SelectPlatform` | src/components/Mixer.tsx:595 | tapping a platform selects it |
| `CreativeMixer.Mixer.ChooseFilter` | src/components/Mixer.tsx:495 | a preset sets the filter to its class; nothing else changes |
| `CreativeMixer.Mixer.SetOverlayText` | src/components/Mixer.tsx:513 | typing sets the overlay text |
| `CreativeMixer.Mixer.RemoveText` | src/components/Mixer.tsx:558 | the overlay text is emptied, so no text layer is drawn |
| `CreativeMixer.Mixer.SetTextSize` | src/components/Mixer.tsx:524-528 | the slider sets a size between 50 and 250 |
| `CreativeMixer.Mixer.SetOverlayColor` | src/components/Mixer.tsx:537 | a swatch sets the text colour |
| `CreativeMixer.Mixer.SetOverlayBg` | src/components/Mixer.tsx:545-547 | a button sets the text background |
| `CreativeMixer.Mixer.SetFrame` | src/components/Mixer.tsx:569-577 | "None" or a table name sets the frame, which then always draws |
| `CreativeMixer.Mixer.SetAspectRatio` | src/components/Mixer.tsx:372-380 | a ratio button sets the ratio |
| `CreativeMixer.Mixer.Preview` | src/components/Mixer.tsx:274-326 | the skeleton shows exactly when Next is disabled (loading with no visuals); otherwise the editor's layers with the ratio and its vertical flag; a drawable editor never fails to render |
| `CreativeMixer.Mixer.NextDisabled` | src/components/Mixer.tsx:23 | Next is enabled whenever the envelope is not loading or already has visuals |
| `Feed.FrameTablesAgree` | src/components/FeedPreview.tsx:34-41 | the preview's frame table equals the editor's |
| `Feed.PreviewFrame` | src/components/FeedPreview.tsx:43-63 | a frame is drawn exactly for a name of the table, as the table says |
| `Feed.Layers` | src/components/FeedPreview.tsx:65-90 | the picture under the filter comes first, a frame appears exactly for a known name, and the text layer is last exactly when there is overlay text |
| `Feed.EditorAndPreviewAgree` | src/components/FeedPreview.tsx:43-90 | for a null or known frame the editor and the preview draw the same layers; for an unknown one the editor fails and the preview omits the frame |
| `Feed.TikTokHandle` | src/components/FeedPreview.tsx:198 | the handle starts with '@' and is at most one character longer than the name |
| `Feed.TikTokHandleSplit` | src/components/FeedPreview.tsx:198 | a name made of a word, a whitespace run and a rest has the handle "@", the lower-cased word, "_", then the rest's handle |
| `Feed.TikTokHandleFacts` | src/components/FeedPreview.tsx:198 | the handle has no whitespace and no upper-case letter; a lower-case name without whitespace is kept after the '@' |
| `Feed.ExactlyOneLayout` | src/components/FeedPreview.tsx:320-322 | exactly one feed mock is rendered, the platform's own |
| `Feed.RenderedLayouts` | src/components/FeedPreview.tsx:320-322 | the three platform tests render exactly one layout |
| `Feed.CanvasStyleClass` | src/components/FeedPreview.tsx:181 | an extra canvas class is used exactly for a 9:16 design on TikTok |
| `Feed.FeedPreview.constructor` | src/components/FeedPreview.tsx:14-18 | the controls start idle, with empty date and time and publication "now" |
| `Feed.FeedPreview.Publish` | src/components/FeedPreview.tsx:20-24 | publishing now starts, and the overlay shows "Posting to <platform>..." with no schedule line |
| `Feed.FeedPreview.OpenSchedule` | src/components/FeedPreview.tsx:305 | the schedule dialog opens |
| `Feed.FeedPreview.CancelSchedule` | src/components/FeedPreview.tsx:272 | the schedule dialog closes |
| `Feed.FeedPreview.SetScheduleDate` | src/components/FeedPreview.tsx:252 | the date is stored |
| `Feed.FeedPreview.SetScheduleTime` | src/components/FeedPreview.tsx:262 | the time is stored |
| `Feed.FeedPreview.ScheduleConfirm` | src/components/FeedPreview.tsx:26-32 | nothing happens unless both date and time are filled in; then the dialog closes and a later publication starts, with "Scheduling..." above "<date> at <time>" |
| `Feed.FeedPreview.Status` | src/components/FeedPreview.tsx:211-217 | the overlay shows only while publishing, with "Posting to <platform>..." or "Scheduling..." |
| `Feed.FeedPreview.ScheduleLine` | src/components/FeedPreview.tsx:217-219 | under a later publication's heading, the overlay shows "<date> at <time>"; nothing otherwise |
| `Navbar.Rendered` | components/Navbar.tsx:12-36 | nothing on a hiding screen; otherwise the four items in order, each highlighted exactly when it is the current screen |
| `Navbar.ShownExactly` | components/Navbar.tsx:12-14 | the bar shows exactly on the home, creation, promotion, management and preview screens |
| `Navbar.IsHidden` | components/Navbar.tsx:12 | the bar is never hidden on the home screen or the preview |
| `Navbar.ActiveIsEquality` | components/Navbar.tsx:17 | the second disjunct of the active test is redundant: an item is active exactly when it is the current screen |
| `Navbar.IsActive` | components/Navbar.tsx:17 | an active item is the current screen |
| `Navbar.HighlightFacts` | components/Navbar.tsx:17-35 | every item opens a screen that shows the bar; items open different screens; some item is highlighted exactly on the four item screens, none on the preview |
| `AppShell.DraftPlaceholder` | App.tsx:34-40 | the draft placeholder is loading, with no visuals and no captions |
| `AppShell.PhotoPlaceholder` | App.tsx:57-63 | the photo placeholder is loading, with exactly the photo as visual ("user-upload") and no captions |
| `AppShell.App.constructor` | App.tsx:18-22 | the app starts at home with all four data slots empty |
| `AppShell.App.Content` | App.tsx:104-163 | the editor shows exactly on the mixer view with data, with the saved design as initial design; the preview exactly on the preview view with data; otherwise those views are blank |
| `AppShell.App.InputCaptured` | App.tsx:25-28 | the input is stored and the format picker opens |
| `AppShell.App.RunMixerFlow` | App.tsx:31-45 | the saved design is dropped, the editor opens on the draft placeholder with no initial design, and the generation is requested with the flow's inputs |
| `AppShell.App.ReceiveMixerData` | App.tsx:45-46 | the generation's envelope replaces the placeholder |
| `AppShell.App.PhotoInput` | App.tsx:53-69 | the saved design is dropped, the editor opens on the photo placeholder, and captions are requested for the photo |
| `AppShell.App.FormatSelected` | App.tsx:77-80 | without a stored input nothing changes; otherwise the stored input runs the mixer flow |
| `AppShell.App.GuidedSubmit` | App.tsx:83-85 | a typed brief runs the mixer flow as text input |
| `AppShell.App.MixerNext` | App.tsx:87-91 | the bundle is kept for the preview, its design is saved, and the preview shows it |
| `AppShell.App.MixerBack` | App.tsx:125 | the editor's back goes home and keeps every slot |
| `AppShell.App.PreviewBack` | App.tsx:134 | the preview's back always shows the editor again, since a previewed bundle keeps its envelope, mounted on the saved design, which is the previewed design |
| `AppShell.App.PostComplete` | App.tsx:93-94 | a completed post shows the success screen, whichever screen is showing when the preview's timer fires |
| `AppShell.App.PostCompleteTimer` | App.tsx:95-101 | after the success screen the app is home with all four data slots empty |
| `AppShell.App.Navigate` | App.tsx:170 | setting a view shows it |
| `AppShell.App.NavbarClick` | components/Navbar.tsx:20 | a bar item opens its screen, which shows the bar too |

## Left out

- Lower-casing covers the ASCII letters only. JavaScript's `toLowerCase` also folds non-ASCII letters. Lengths are counted in characters, while JavaScript's `length` and `slice` count UTF-16 code units.
- The SDK calls, the API-key lookup, the request prompt texts and the response schemas are left out, because they are foreign calls. So are `JSON.parse` itself and the 15-second `Promise.race`, which are concurrency. Their outcomes are parameters.
- `Date.now()`, `Math.random()` and the `encodeURIComponent` pollinations urls are left out because they are non-deterministic or opaque. They enter as opaque strings.
- A reply field of the wrong JSON type is not modelled: a non-string intent or caption text, or captions that are not an array. Only absence is modelled.
- GeminiService.GenerateCaptionsFromImage: an absent intent in a vision reply is modelled as the empty string. The source stores `undefined`, which a string model cannot hold.
- The audio input's media type and the vision request's parts are not modelled: they only reach the SDK. The split that produces them is `GeminiService.ParseDataUrl`.
- Pointer normalisation is not modelled, because it is floating-point division over the canvas rectangle. `CreativeMixer.Mixer.PointerMove` takes the percentage. NaN is not modelled.
- Pointer capture, `useRef` and React's batching of state updates are left out. Each handler runs over the state before it. The model does not capture stale closures: the generation handler's `[newVisual, ...visuals]` uses the list captured before its `await`, while `CreativeMixer.Mixer.FinishGenerateImage` extends the current list. The dragged item and the dragging flag are held as one field.
- CSS meanings, icons, tabs and design-mode switches are left out, because they display only.
- The editor's frame lookup by a name inherited from `Object.prototype` (such as "toString") is not modelled.
- The shell renders the preview without its required `businessName` (App.tsx:132-136). Every feed mock dereferences that name, at FeedPreview.tsx:110 (Instagram), :148 (Facebook) and :198 (TikTok). As written, showing the preview therefore throws a TypeError on every platform, and Publish, Schedule and `PostComplete` cannot be reached from the shell. The model shows the preview as it would render with a name: `Feed.TikTokHandle` takes the name as a parameter, and `AppShell.App.Content` reports the preview screen as shown.
- The two-second timer before the preview calls back is not modelled: `AppShell.App.PostComplete` is that callback.
- The other screens are not part of this model, because they hold no behaviour to state beyond handing inputs on. They are voice capture, guided creation, processing, format picker, management, ads, profile, template selector and the legacy editor.
