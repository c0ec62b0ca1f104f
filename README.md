# Poster Design: a Dafny model of the generation front end

The modelled system is a browser front end. The user:

- picks one or more of ten poster "styles";
- writes a prompt;
- optionally supplies a reference image, through the file picker, drag and drop, or paste.

The front end then asks an image-generation model for one picture per selected style.

This project models the parts of the front end that decide things:

- the style selection list and the language and theme switches;
- the batch run by `handleGenerate`:
  - one call per selected style;
  - a failure in one style leaves the others untouched;
  - successes keep selection order and are prepended to the earlier results;
  - an error message appears when every style fails;
- the generation service:
  - the lazily created API client;
  - the encoding of the reference image as a request part;
  - the composed prompt;
  - the ordered request parts;
  - the scan of the reply for the first inline image;
- the input panel:
  - which file, drop or paste becomes the reference image;
  - the drag highlight;
  - when the generate button is disabled, what it says, and which hint is shown;
- the result gallery:
  - one card per result, with its style badge, its download name and its animation delay;
  - the preview modal and the scroll lock it holds;
- the constant tables: the style catalog, the two translation tables and the model name.

Layout, one module per source file:

| file | module | models |
|---|---|---|
| `types.dfy` | `Types` | the shared records (`StyleProfile`, `GenerationResult`, `Language`, `Theme`) and `File` |
| `text.dfy` | `Text` | the string built-ins the source relies on: `trim`, `startsWith`, `indexOf`, `split`, number printing |
| `constants.dfy` | `Constants` | `constants.ts` |
| `gemini_service.dfy` | `GeminiService` | `services/geminiService.ts` |
| `app.dfy` | `App` | `App.tsx` |
| `input_section.dfy` | `InputSection` | `components/InputSection.tsx` |
| `result_gallery.dfy` | `ResultGallery` | `components/ResultGallery.tsx` |

### How state is modelled

- State the source changes in place is held in classes:
  - `App.AppState` holds the `useState` hooks of `App`;
  - `GeminiService.ServiceState` holds the module-level `aiClient`;
  - `InputSection.InputState` holds the drag flag and a reference to its parent `App.AppState`. Its handlers write the parent's `baseImage` through that reference, as `setBaseImage` does, so the image a handler installs is the one the next batch sends;
  - `ResultGallery.Gallery` holds the selected result and `document.body.style.overflow`.
- `App.AppState.textsEn` and `App.AppState.textsZh` are constant fields equal to the two tables of `TRANSLATIONS` (stated by the constructor). `App.AppState.Texts` picks one by language.
- Their methods are proved against pure functions of the old state. Those functions' properties are proved as lemmas.

### What is a parameter

What the browser or the network supplies is a parameter:

- `process.env.API_KEY`. A missing key and the empty string both count as absent, since JavaScript treats both as falsy.
- For each selected style, an `App.Attempt`, which holds:
  - the API's reply to that style's request (a response or a transport failure);
  - the `Date.now().toString() + Math.random().toString()` id;
  - the timestamp.
- A file's data URL as `FileReader` would produce it. `None` means the reader failed.
- The clipboard items, the dropped or picked file list, and the drag event types.

### Concurrency

`handleGenerate` starts all calls at once and waits with `Promise.all`. The model runs them one after the other, in selection order (`App.RunBatch`, `App.AppState.RunSelected`).

`App.SequentialIsIndependent` proves that this order does not matter. The sequential run equals the independent definition (`App.Outcomes`, `App.Requests`, `App.ClientAfterBatch`), in which:

- every style's outcome is computed from the handle as it was before the batch;
- the handle ends as one `getAiClient` call leaves it, if any selected id is in the catalog, and unchanged otherwise.

This rests on a fact about the shared client handle: it is written at most once and is not changed after that (`GeminiService.ClientLifecycle`, `GeminiService.ClientWrittenOnce`). So any interleaving of the calls' `getAiClient` steps gives every call the same client.

### Edge cases of the code

- **Only inline images.** The response scan reads only inline image data. A reply with no inline-data part fails with `NoImageData`. This is `GeminiService.ParseResponse`.
- **Batch-level failure.** A rejection of the batch-level `Promise.all` would show `errorGeneric`. That branch cannot be reached, because every per-style promise catches its own error.
- **Encoded image payload.** The encoder takes `split(',')[1]`, which is `undefined` when the data URL has no comma. This is `GeminiService.PayloadOf`.

## Model

| member | source | states |
|---|---|---|
| Constants.STYLES | constants.ts:46-194 | The catalog, entry for entry. Defined by its value; `CatalogSize`, `CatalogIdsDistinct`, `CatalogInstructionsNonEmpty` and `CatalogNamesNotFallback` state its properties. |
| Constants.Translations | constants.ts:3-44 | `TRANSLATIONS[lang]`, the English or the Chinese table. Defined by its body; `SubtitleCountsCatalog` states what the subtitles quote. |
| Constants.MODEL_NAME | constants.ts:196 | The model every request names. Defined by its value; `ServiceCallMeaning` states that every sent request goes to it. |
| Constants.FindById | App.tsx:46 | `STYLES.find(s => s.id === id)`, used here and by the gallery (`ResultGallery.tsx:36`). A found profile is a catalog member and has that id. Nothing is found exactly when no entry has that id. |
| Constants.CatalogSize | constants.ts:46-194 | The catalog holds ten styles. |
| Constants.CatalogIdsDistinct | constants.ts:46-194 | No two catalog entries share an id. |
| Constants.CatalogInstructionsNonEmpty | constants.ts:46-194 | Every style has a non-empty prompt instruction. |
| Constants.CatalogNamesNotFallback | constants.ts:46-194 | No style's English or Chinese name is the gallery's fallback label "Unknown Style". |
| Constants.FindStyleOfEntry | constants.ts:46-194 | Looking up any catalog entry's id finds that very entry. |
| Constants.FindFirstWithDistinctIds | constants.ts:46-194 | In any catalog with distinct ids, looking up an entry's id finds that entry. |
| Constants.SubtitleCountsCatalog | constants.ts:6 | Both the English and the Chinese subtitle quote the catalog size ("10"). |
| GeminiService.ClientFor | services/geminiService.ts:6-14 | What `getAiClient` returns or throws. Defined by its body; `ClientLifecycle` states it. |
| GeminiService.ClientAfter | services/geminiService.ts:6-14 | The handle `getAiClient` leaves. Defined by its body; `ClientLifecycle` and `ClientWrittenOnce` state it. |
| GeminiService.ClientLifecycle | services/geminiService.ts:6-14 | `getAiClient` with no handle and no key throws and leaves the handle unset. With a key and no handle, it builds a client from the key. It succeeds exactly when it leaves a handle, and it returns the handle it leaves. Once set, the handle is returned unchanged whatever the key is later. |
| GeminiService.ClientWrittenOnce | services/geminiService.ts:4-14 | After the handle is set, no series of later calls changes it. |
| GeminiService.ServiceState.constructor | services/geminiService.ts:4 | The module starts with no client. |
| GeminiService.ServiceState.GetAiClient | services/geminiService.ts:6-14 | The method's result and new handle are those given by `ClientFor` and `ClientAfter`, whose properties `ClientLifecycle` proves. |
| GeminiService.PayloadOf | services/geminiService.ts:20-21 | `split(',')[1]`. The result holds no comma. It is absent exactly when the data URL has no comma. |
| GeminiService.PayloadOfDataUrl | services/geminiService.ts:20-21 | For `prefix,payload` with no other comma, the encoder extracts exactly `payload`. |
| GeminiService.FileToGenerativePart | services/geminiService.ts:16-32 | It fails, with the reader's error, exactly when the file cannot be read. Otherwise it returns an image part with the file's MIME type and the payload of its data URL. |
| GeminiService.FullPrompt | services/geminiService.ts:42-53 | The `fullPrompt` template. Defined by its body; `FullPromptMeaning` and `FullPromptContains` state it. |
| GeminiService.FullPromptMeaning | services/geminiService.ts:42-53 | The `Task:` line asks for an edit exactly when there is a reference image, and for a new image exactly when there is none. The user prompt and the style instruction appear verbatim, in that order, at fixed offsets. |
| GeminiService.FullPromptContains | services/geminiService.ts:42-53 | The composed prompt contains the user prompt and the style instruction. |
| GeminiService.RequestParts | services/geminiService.ts:56-65 | Two parts with an image, one without. The image part comes first and the text part is always last. |
| GeminiService.DataUri | services/geminiService.ts:90 | The returned reference starts with `data:`. |
| GeminiService.DataUriPayloadRoundTrip | services/geminiService.ts:90 | When neither the MIME type nor the payload holds a comma, the encoder's comma split recovers the payload from a data URI built by the response scan. |
| GeminiService.FirstInline | services/geminiService.ts:88-92 | Nothing is found exactly when no part has inline data. Otherwise the result is the inline data of the first part that has some. |
| GeminiService.ParseResponse | services/geminiService.ts:80-94 | The scan of the reply. Defined by its body; `ParseResponseMeaning` states it and `ExtractImage` is proved to compute it. |
| GeminiService.ParseResponseMeaning | services/geminiService.ts:80-94 | A missing or empty candidate list is `NoCandidates`. A success is the data URI of the first inline-data part of the first candidate. When the first candidate has parts, `NoImageData` happens exactly when none of them has inline data. Every success starts with `data:`. |
| GeminiService.ParseResponseIgnoresLaterCandidates | services/geminiService.ts:85 | Only the first candidate is read. |
| GeminiService.FirstInlineIgnoresLaterParts | services/geminiService.ts:88-92 | Parts after the first inline-data part do not change the result. |
| GeminiService.ExtractImage | services/geminiService.ts:80-94 | The loop with its early return computes `ParseResponse`, whose meaning `ParseResponseMeaning` states. |
| GeminiService.ServiceCall | services/geminiService.ts:34-100 | `generateStyledImage` as a function of the handle, the key, its arguments and the reply. Defined by its body; `ServiceCallMeaning` states it. |
| GeminiService.ServiceCallMeaning | services/geminiService.ts:34-100 | See the note after this table. |
| GeminiService.ServiceState.GenerateStyledImage | services/geminiService.ts:34-100 | The method's result, the request it sends and the new handle are those of `ServiceCall`, whose properties `ServiceCallMeaning` proves. |
| App.Toggle | App.tsx:32-36 | The `setSelectedStyles` updater. Defined by its body; `ToggleMeaning` states it. |
| App.Without | App.tsx:34 | `prev.filter(s => s !== id)`. The id no longer occurs, every other id keeps its count, and the rest keep their order. |
| App.ToggleMeaning | App.tsx:31-37 | An absent id is appended. A present id is removed, and the others keep their order. Afterwards the id is present exactly when it was absent before. No other id's count changes. |
| App.ToggleTwiceAbsent | App.tsx:31-37 | Toggling an absent id twice restores the selection. |
| App.ToggleTwicePresent | App.tsx:31-37 | Toggling a present id twice moves it to the end. |
| App.WithoutAbsent | App.tsx:34 | Filtering out an id that does not occur changes nothing. |
| App.WithoutConcat | App.tsx:34 | Filtering distributes over concatenation. |
| App.ToggleKeepsNoDuplicates | App.tsx:31-37 | Toggling keeps a duplicate-free selection duplicate-free. |
| App.ReachableSelectionsHaveNoDuplicates | App.tsx:31-37 | No sequence of clicks starting from a duplicate-free selection produces a duplicate. |
| App.NextLanguage | App.tsx:100 | The language switch always changes the language. |
| App.NextTheme | App.tsx:108 | The theme switch always changes the theme. |
| App.StyleOutcome | App.tsx:45-64 | A known style affects the handle as one `getAiClient` call does. An unknown style leaves the handle alone. Any request sent has at least one part. |
| App.RunBatch | App.tsx:45-67 | The sequential batch has one outcome and one request slot per selected id. |
| App.Outcomes | App.tsx:45-67 | One outcome per selected id. |
| App.Requests | App.tsx:45-67 | One possible request per selected id. |
| App.SequentialIsIndependent | App.tsx:45-67 | Running the styles one after the other gives the same outcomes, requests and final handle as the independent definition. So the concurrent `Promise.all` may run the calls in any order. |
| App.BatchMeaning | App.tsx:45-64 | See the note after this table. |
| App.FailureIsolated | App.tsx:60-63 | Changing what happens to one selected id changes no other id's outcome, and it does not change the final handle. |
| App.StepClient | App.tsx:45-64 | A style's effect on the handle does not depend on the API's reply. |
| App.NoKeyNoResults | App.tsx:45-72 | With no key and no client, the batch yields no result, so the all-failed message follows. The handle stays unset. |
| App.Successes | App.tsx:68 | The `r !== null` filter. Defined by its body; `SuccessesCount`, `SuccessesEmptyIff` and `SuccessesConcat` state it. |
| App.SuccessesConcat | App.tsx:68 | The null filter distributes over concatenation. |
| App.SuccessesCount | App.tsx:68 | The filter keeps every success as often as it occurs. Its length is the number of non-null outcomes. |
| App.SuccessesEmptyIff | App.tsx:68-71 | Nothing survives the filter exactly when every outcome is null. |
| App.SuccessesFollowSelection | App.tsx:45-68 | The style ids of the surviving results form a subsequence of the selection. So the results keep selection order, not completion order. |
| App.TaggedSuccessesFollow | App.tsx:67-68 | The results taken from outcomes tagged by position keep the order of the tags. |
| App.BlocksGenerate | App.tsx:40 | `handleGenerate`'s early return. Defined by its body; `InputSection.DisabledMatchesGuard` relates it to the disabled button, and `App.AppState.HandleGenerate` states that it changes nothing. |
| App.AppState.constructor | App.tsx:10-19 | Initial state: nothing selected, an empty prompt, no image, idle, no results, no error, English, dark theme. The catalog is `STYLES`, `Texts` gives each language's table of `TRANSLATIONS`, and the selection has no duplicates. |
| App.AppState.ToggleStyle | App.tsx:31-37 | The new selection is `Toggle` of the old one, whose properties `ToggleMeaning` and its companions prove. A duplicate-free selection stays duplicate-free. |
| App.AppState.SetPrompt | App.tsx:11 | The prompt becomes the typed text. |
| App.AppState.ToggleLanguage | App.tsx:100 | The language becomes the other one. |
| App.AppState.ToggleTheme | App.tsx:108 | The theme becomes the other one. |
| App.AppState.GenerateOne | App.tsx:45-64 | One callback run produces exactly the outcome, request and handle of `StyleOutcome`. |
| App.AppState.RunSelected | App.tsx:45-67 | The whole batch, run in a loop, produces the independent outcomes, requests and final handle. |
| App.AppState.HandleGenerate | App.tsx:39-82 | See the note after this table. |
| App.AppState.Generate | App.tsx:42-81 | Past the guard: the surviving outcomes of the independent batch are prepended to the earlier results, or, when none survives, the results stay and the error is the language's `errorApiKey` text. `isGenerating` ends false and the handle ends as the batch leaves it. |
| App.AppState.Settle | App.tsx:67-81 | The successes of the settled outcomes are prepended to the results. When there are none, the error is the language's `errorApiKey` text and the results stay. `isGenerating` ends false. |
| InputSection.AcceptFile | components/InputSection.tsx:82-86 | The image becomes the file or stays as it was. It becomes the file exactly when the MIME type starts with `image/`. |
| InputSection.FirstFile | components/InputSection.tsx:77 | `files && files[0]`. A file is found exactly when the list is present and non-empty, and it is the first one. |
| InputSection.ImageFromFiles | components/InputSection.tsx:66-80 | The image after a drop or a pick. Defined by its body; `FirstFileOnly`, `NoFilesNoChange` and `ImageFromFilesKeepsImageOk` state it. |
| InputSection.FirstFileOnly | components/InputSection.tsx:66-86 | Only the first file counts. A non-image first file keeps the old image even when later files are images. |
| InputSection.NoFilesNoChange | components/InputSection.tsx:66-80 | An absent or empty file list changes nothing. |
| InputSection.ImageFromFilesKeepsImageOk | components/InputSection.tsx:66-86 | The picker and drop paths never install a non-image file. |
| InputSection.FirstImageItem | components/InputSection.tsx:39-40 | The first item whose type contains "image". It is found exactly when such an item exists, and no earlier item qualifies. |
| InputSection.PastedImage | components/InputSection.tsx:32-50 | The image after a paste. Defined by its body; `PasteTakesFirstImage` and `PasteSkipsMimeFilter` state it. |
| InputSection.PasteTakesFirstImage | components/InputSection.tsx:39-48 | Paste installs the blob of the first image item and ignores the later items. A first image item without a blob leaves the image unchanged. |
| InputSection.PasteSkipsMimeFilter | components/InputSection.tsx:40-44 | Paste has no `image/` check on the blob. An item typed `image/png` whose blob is `text/plain` is installed, which the picker and drop never do. |
| InputSection.DragAfter | components/InputSection.tsx:56-64 | The highlight after one drag event. Defined by its body; `DragFollowsLastEdge` states it. |
| InputSection.DragFollowsLastEdge | components/InputSection.tsx:56-64 | After any series of drag events, the highlight is on exactly when the last enter, over or leave event was an enter or an over. With no such event the highlight is unchanged. |
| InputSection.GenerateDisabled | components/InputSection.tsx:170 | The button's `disabled` expression. Defined by its body; `DisabledMatchesGuard` states it. |
| InputSection.ShowNoPromptHint | components/InputSection.tsx:194-195 | When the missing-prompt hint shows. Defined by its body; `HintsExplainDisabled` states it. |
| InputSection.ShowNoStyleHint | components/InputSection.tsx:197-198 | When the missing-style hint shows. Defined by its body; `HintsExplainDisabled` states it. |
| InputSection.DisabledMatchesGuard | components/InputSection.tsx:170 | The button is disabled exactly while a batch runs or while `handleGenerate`'s own guard would return early. A blank prompt is one made only of whitespace. |
| InputSection.HintsExplainDisabled | components/InputSection.tsx:194-199 | At most one hint is shown. An idle disabled button always shows a hint, and an enabled one shows none. |
| InputSection.CountBadge | components/InputSection.tsx:189 | The badge is empty exactly when no style is selected. |
| InputSection.ButtonLabel | components/InputSection.tsx:179-190 | The button's text. Defined by its body; `ButtonLabelShowsCount` and `ButtonLabelWhileGenerating` state it. |
| InputSection.ButtonLabelShowsCount | components/InputSection.tsx:188-190 | The idle text is the `generate` text and a space, then `(n)` exactly when n > 0, and the number inside reads back as n. |
| InputSection.ButtonLabelWhileGenerating | components/InputSection.tsx:179-186 | While busy, the button shows the `generating` text whatever the count. |
| InputSection.InputState.constructor | components/InputSection.tsx:16-27 | It is bound to the parent whose `baseImage` it writes, and starts with no highlight. |
| InputSection.InputState.HandleFile | components/InputSection.tsx:82-86 | The parent's new image is `AcceptFile` of the old one. |
| InputSection.InputState.HandleChange | components/InputSection.tsx:75-80 | The parent's new image is `ImageFromFiles` of the old one, whose properties `FirstFileOnly` and `NoFilesNoChange` prove. |
| InputSection.InputState.HandleDrop | components/InputSection.tsx:66-73 | The highlight goes off, and the parent's image follows `ImageFromFiles`. |
| InputSection.InputState.HandleDrag | components/InputSection.tsx:56-64 | The highlight follows `DragAfter`, which `DragFollowsLastEdge` characterizes. |
| InputSection.InputState.RemoveImage | components/InputSection.tsx:88-91 | The parent's image is cleared. |
| InputSection.InputState.HandlePaste | components/InputSection.tsx:32-50 | The loop installs `PastedImage` as the parent's image. The default is prevented exactly when some item is an image item. |
| ResultGallery.StyleName | components/ResultGallery.tsx:36-37 | A known style shows its name in the current language. |
| ResultGallery.FallbackIffUnknown | components/ResultGallery.tsx:36-37 | With the catalog, "Unknown Style" is shown exactly for ids that no style has. |
| ResultGallery.CatalogStyleNames | components/ResultGallery.tsx:36-37 | Each catalog style is labelled with its own name. |
| ResultGallery.DownloadFilename | components/ResultGallery.tsx:67 | The download name starts with `nano-banana-` and has the expected length. |
| ResultGallery.FilenameId | components/ResultGallery.tsx:67 | A name of the right shape gives an id of the matching length. |
| ResultGallery.FilenameRoundTrip | components/ResultGallery.tsx:67 | The result id can be read back from its download name. |
| ResultGallery.FilenameInjective | components/ResultGallery.tsx:67 | Distinct result ids give distinct download names. |
| ResultGallery.AnimationDelay | components/ResultGallery.tsx:43 | The card's `animationDelay`. Defined by its body; `AnimationDelayMeaning` states it. |
| ResultGallery.AnimationDelayMeaning | components/ResultGallery.tsx:43 | The delay is digits followed by `ms`, and the digits read back as 150 times the position. |
| ResultGallery.Cards | components/ResultGallery.tsx:24-35 | An empty result list renders nothing. Otherwise there is one card per result. |
| ResultGallery.CardFor | components/ResultGallery.tsx:35-90 | The card rendered for one result. Defined by its body; `CardsFollowResults` states it. |
| ResultGallery.CardsFollowResults | components/ResultGallery.tsx:35-90 | Card i shows result i: its key, picture, caption, style label, download name and delay. |
| ResultGallery.PrependShiftsCards | components/ResultGallery.tsx:35-43 | Prepending new results shifts each earlier card back. The card shows the same content, and only its animation delay changes. |
| ResultGallery.BodyOverflowHiddenIffSelected | components/ResultGallery.tsx:15-20 | Page scrolling is locked exactly while a result is selected. |
| ResultGallery.ModalNameMatchesCard | components/ResultGallery.tsx:128 | The modal offers the same download name as the card it was opened from. |
| ResultGallery.Gallery.constructor | components/ResultGallery.tsx:11-22 | It mounts with nothing selected and scrolling unlocked. |
| ResultGallery.Gallery.OpenResult | components/ResultGallery.tsx:47 | A card click selects that result and locks scrolling. |
| ResultGallery.Gallery.Close | components/ResultGallery.tsx:100-105 | The backdrop or the close button deselects and unlocks scrolling. |
| ResultGallery.Gallery.Unmount | components/ResultGallery.tsx:21 | Unmounting unlocks scrolling. |
| Text.BlankIffAllWhitespace | App.tsx:40 | `!s.trim()` holds exactly when every character is whitespace. |
| Text.ContainsIff | components/InputSection.tsx:40 | `indexOf(sub) !== -1` holds exactly when `sub` occurs at some position. |
| Text.JoinSplit | services/geminiService.ts:21 | Joining the fields of a split with the separator gives back the string. |
| Text.SplitJoin | services/geminiService.ts:21 | Splitting a join of separator-free fields gives back the fields. |
| Text.ParseNatToString | components/InputSection.tsx:189 | Printing a number gives digits that read back as the number. |
| Text.NatToStringInjective | components/ResultGallery.tsx:43 | Distinct numbers print differently. |

Notes on the longer rows:

- **GeminiService.ServiceCallMeaning**
  - The handle afterwards is `getAiClient`'s.
  - With no key and no client, the call fails with `MissingApiKey` before sending anything.
  - Any request sent goes to `MODEL_NAME`. It has two parts with an image and one without. The text part is the composed prompt and comes last. The image part is the encoded file and comes first.
  - A result is only ever the parsed reply to a sent request.
  - With a client, an unreadable reference image fails with `ReadFailed` before anything is sent.
  - When a request was sent and the transport failed, the result is `RemoteFailed` with the transport's cause, unchanged.
  - With a client and a readable image, a request is always sent.
- **App.BatchMeaning**
  - An unknown id yields no result and sends nothing.
  - A result carries that id's style, the prompt, the supplied id and timestamp, and the image parsed from a successful reply.
  - A sent request goes to `MODEL_NAME` and ends with the composed prompt for that style's instruction.
  - A known style with a client, a readable image and a parseable reply always yields a result.
- **App.AppState.HandleGenerate**
  - A blank prompt or an empty selection changes nothing.
  - Otherwise, the batch's surviving results are prepended to the earlier results, in selection order.
  - If none survives, the results stay as they were and the error is the language's `errorApiKey` text.
  - `isGenerating` ends false.
  - The client handle ends as the batch leaves it.

## Left out

- The network call to the generation API, and the SDK behind it. The reply to each request is a parameter: a response or a transport failure.
- `Promise.all` concurrency. The calls run sequentially, and `App.SequentialIsIndependent` shows that their order does not matter. JavaScript can start a second batch while one is running, since the guard does not check `isGenerating`. That interleaving is not modelled. Only the disabled button (`InputSection.DisabledMatchesGuard`) prevents it.
- The `errorGeneric` branch of `handleGenerate` (`App.tsx:77-78`). `Promise.all` cannot reject there, because every per-style promise catches its own error, so the branch cannot be reached.
- `FileReader`. A file's data URL is part of `Types.File`, and `None` stands for a read error.
- `Date.now()` and `Math.random()`. The result id and the timestamp come from each `App.Attempt`.
- `console.error` logging, `window.scrollTo`, the `dark` class on the document root, `URL.createObjectURL`, and all JSX markup and CSS.
- `InputSection.InputState.RemoveImage`: does not model the reset of the file input's value (`fileInputRef`), which is DOM state.
- The prompt text area's markup. Its `setPrompt` is `App.AppState.SetPrompt`, which stores the typed text.
- `components/StyleCard.tsx` and the unused `GenerationState` and `UserInput` types of `types.ts`. These are not part of this model.
- The key sets of the translation tables. The record type `Constants.UiStrings` gives both languages the same keys by construction, so no lemma is needed.
- `App.AppState.styles`, `App.AppState.textsEn`, `App.AppState.textsZh`: the module-level `STYLES` and `TRANSLATIONS` are constant fields, equal to `Constants.STYLES` and `Constants.Translations` as the constructor states, so the batch functions take the catalog as an argument and the all-failed message is read from the state.
- `GeminiService.ServiceState.GenerateStyledImage`: the error is rethrown unchanged, so only the thrown error, returned as a `Failure`, is modelled. The console log of the `catch` is left out.
- Image references other than inline data in the reply. The code reads none, so a reply without an inline-data part is the `NoImageData` failure.
