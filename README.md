# Gemini Object Counter — a Dafny model

Gemini Object Counter is a single-page web application. The user picks a
preset image or uploads one and types a comma-separated list of object
labels. The application asks a Gemini model how often each label occurs in
the image and shows the counts. This project models the application's logic.
The pieces modelled are:

- the coordinating component (`App.tsx`): its state, its event handlers, the
  label parse, the URL-to-data-URL conversion and the fold of the answer into a
  dictionary;
- the service client (`services/geminiService.ts`): the data-URI split, the MIME
  check, the prompt, the shape test of the reply and the error wrapping;
- the result panel's choice of what to show (`components/ResultDisplay.tsx`);
- the declarations and fixed tables (`types.ts`, `constants.ts`).

Modules, one per source file or concern:

| file | module | models |
|---|---|---|
| `wrappers.dfy` | `Wrappers` | `Option` and `Result` |
| `js_string.dfy` | `JsString` | the JavaScript string built-ins the code uses: `indexOf`, `substring`, `startsWith`, `trim`, `split` and `join` on one separator, with their exact edge-case behaviour |
| `types.dfy` | `Types` | `types.ts` and `constants.ts`. An `ObjectCounts` object is an insertion-ordered list of properties, the order `Object.entries` reports. `o[k] = v` is `Assign`, which ignores the key `__proto__` and writes every other key with `Put`. |
| `gemini_service.dfy` | `GeminiService` | `countObjectsInImage` as a function of the image URI, the labels, the model and the settled reply of the remote call |
| `result_display.dfy` | `ResultDisplay` | `renderContent` as a function of its four props |
| `app.dfy` | `App` | `App.tsx`. The component's state is the class `App.App` and each handler is a method on it. The pure helpers and the `reduce` loop sit beside the class. |

Asynchronous browser work and the remote model call are not executed: the
file read, the image loads, `fetch`, the call to the Gemini model and
`JSON.parse` of its text. Each handler takes how that work settles as a
parameter. The submit handler takes the settled reply of the remote call, and
the project's own model of `countObjectsInImage` turns that reply into the
records or the error. Every contract states the resulting state for every
outcome.

## Model

| member | source | states |
|---|---|---|
| `JsString.IndexOf` | services/geminiService.ts:16 | `indexOf` gives -1 exactly when the character is absent, otherwise the position of its first occurrence |
| `JsString.Substring` | services/geminiService.ts:33 | `substring` clamps both arguments into the string and swaps them when the start exceeds the end |
| `JsString.Clamp` | services/geminiService.ts:33 | an index argument of `substring` is clamped into `[0, length]`; an index already in range is kept |
| `JsString.SubstringSymmetric` | services/geminiService.ts:33 | `substring(a, b)` and `substring(b, a)` are the same string |
| `JsString.SubstringClampsNegative` | services/geminiService.ts:33 | a negative index acts as 0 |
| `JsString.StartsWith` | services/geminiService.ts:35 | no contract: the predicate is the prefix test itself; `App.ImageForApi` and `GeminiService.NoSemicolonIsRejected` state what the two `startsWith` checks decide |
| `JsString.SubstringFrom` | services/geminiService.ts:16 | `substring(start)` is the suffix from the clamped start, the whole string for a negative start |
| `JsString.TrimStart` | App.tsx:87 | no contract; `JsString.TrimStartSpec` states what it removes |
| `JsString.TrimEnd` | App.tsx:87 | no contract; `JsString.TrimEndSpec` states what it removes |
| `JsString.Trim` | App.tsx:87 | no contract; `JsString.TrimIsTrimmed`, `JsString.TrimAddsNothing` and `JsString.TrimEmpty` state its result |
| `JsString.TrimStartSpec` | App.tsx:87 | the leading trim removes exactly the longest white-space prefix |
| `JsString.TrimEndSpec` | App.tsx:87 | the trailing trim removes exactly the longest white-space suffix |
| `JsString.TrimIsTrimmed` | App.tsx:87 | `trim` leaves no white space at either end and never lengthens the string |
| `JsString.TrimAddsNothing` | App.tsx:87 | a character absent from a token is absent from the trimmed token |
| `JsString.TrimEmpty` | App.tsx:87 | `trim` gives `""` if and only if the token is all white space |
| `JsString.TrimAfterWhitespace` | App.tsx:87 | white space in front of a trimmed token disappears under `trim` |
| `JsString.Split` | App.tsx:87 | `split` always gives at least one piece; `JsString.JoinSplit`, `JsString.SplitJoin` and `JsString.SplitPiecesLackSeparator` state the pieces |
| `JsString.Join` | services/geminiService.ts:48 | no contract; `JsString.JoinSplit`, `JsString.SplitJoin` and `JsString.JoinAppend` relate it to `split` and to concatenation |
| `JsString.SplitPiecesLackSeparator` | App.tsx:87 | no piece of `split(',')` contains a comma |
| `JsString.JoinSplit` | App.tsx:87 | joining the pieces of `split` with the separator gives back the input |
| `JsString.SplitJoin` | App.tsx:87 | splitting a separator-joined list of separator-free pieces gives back the pieces |
| `JsString.SplitConcat` | App.tsx:87 | splitting `a + sep + b` gives the pieces of `a` followed by the pieces of `b` |
| `JsString.JoinAppend` | services/geminiService.ts:48 | joining a concatenation of two lists joins the two joins with one separator |
| `Types.Lookup` | types.ts:19-21 | a property read is defined exactly for the object's own keys |
| `Types.Assign` | App.tsx:102 | `acc[k] = n` with a number `n` stores nothing for the key `__proto__`; for any other key the keys become the old keys plus `k` and `k` reads `n`; every other key reads as before |
| `Types.Put` | App.tsx:102 | for an ordinary key, after the write the keys are the old keys plus `k`, `k` reads `v` and every other key reads as before |
| `Types.PutOrder` | App.tsx:102 | a new key is appended; an existing key keeps its place and the length |
| `Types.PutKeepsKeysDistinct` | App.tsx:102 | property writes never duplicate a key |
| `Types.KeysAt` | types.ts:19-21 | a key is an own property if and only if some entry carries it |
| `GeminiService.JsonTruthy` | services/geminiService.ts:88 | no contract: JavaScript truthiness of a parsed value; `GeminiService.CheckResponse` states the whole test |
| `GeminiService.CountsProperty` | services/geminiService.ts:88 | no contract: the property read `result.counts`; `GeminiService.CheckResponse` states the whole test |
| `GeminiService.IsArray` | services/geminiService.ts:88 | no contract: `Array.isArray` of the read; `GeminiService.CheckResponse` states the whole test |
| `GeminiService.IsImageMimeType` | services/geminiService.ts:35 | no contract; `GeminiService.NoSemicolonIsRejected` and `GeminiService.CountObjectsInImage` state when it refuses |
| `GeminiService.StripBase64Prefix` | services/geminiService.ts:15-17 | the result is the suffix after the first comma, or the whole string when there is no comma |
| `GeminiService.MimeTypeOf` | services/geminiService.ts:33 | without a `;` the "MIME type" is the first (at most) five characters |
| `GeminiService.PromptFor` | services/geminiService.ts:46-51 | with labels the prompt is the counting prefix, the labels joined by `", "` and a period; without labels, the auto-detect prompt |
| `GeminiService.CheckResponse` | services/geminiService.ts:88-92 | the reply is accepted if and only if it is an object whose `counts` is an array, and that array is returned as it is; otherwise the format error is thrown |
| `GeminiService.WrapFailure` | services/geminiService.ts:93-99 | an `Error` comes back as the fixed prefix followed by its own message; anything else gives the unknown-failure message |
| `GeminiService.Settle` | services/geminiService.ts:85-99 | only a parsed reply of the right shape succeeds; a parsed reply of the wrong shape fails with exactly "Failed to analyze image: Invalid response format from API."; every failure message carries the prefix or is the unknown-failure message |
| `GeminiService.CountObjectsInImage` | services/geminiService.ts:26-100 | no request is sent exactly when the MIME type is not `image/`; a sent request carries the payload, the MIME type and the prompt; the outcome is the settled reply |
| `GeminiService.DataUriRoundTrip` | services/geminiService.ts:11-17 | a `data:<type>;base64,<payload>` URI yields back its type and payload |
| `GeminiService.DataUriMimeType` | services/geminiService.ts:33 | the MIME type read from such a URI is the type it was built with |
| `GeminiService.DataUriPayload` | services/geminiService.ts:32 | the payload read from such a URI is the payload it was built with |
| `GeminiService.NoSemicolonIsRejected` | services/geminiService.ts:33-37 | a URI without `;` is always refused before any request |
| `GeminiService.InvalidMimeIgnoresReply` | services/geminiService.ts:35-37 | a refused MIME type fails the same way whatever the model would have answered |
| `GeminiService.SendsPayloadReturnsCounts` | services/geminiService.ts:39-44 | a well-formed image data URI is sent as its payload and MIME type, and an accepted reply returns its `counts` array |
| `GeminiService.CountsArrayAccepted` | services/geminiService.ts:88-89 | an object with a `counts` array is accepted whatever its other properties |
| `GeminiService.EmptyObjectRejected` | services/geminiService.ts:88-91 | `{}` is truthy but is refused with the format error |
| `GeminiService.ZebraTreeExample` | services/geminiService.ts:85-89 | the two-record example reply comes back unchanged |
| `ResultDisplay.StringTruthy` | components/ResultDisplay.tsx:24 | no contract: `null` and `""` are falsy; `ResultDisplay.EmptyErrorIsIgnored` states the consequence |
| `ResultDisplay.ItemsOf` | components/ResultDisplay.tsx:29-42 | no contract; `ResultDisplay.RenderContent` states one item per property, in order |
| `ResultDisplay.RenderContent` | components/ResultDisplay.tsx:14-53 | each of the six views is chosen exactly under its guard; an error view shows the message, and a list view has one item per property with its label and count, in order |
| `ResultDisplay.SettledSubmitShowsOutcome` | components/ResultDisplay.tsx:48-52 | once submitted and not loading, the panel shows neither the spinner nor the placeholder |
| `ResultDisplay.LoadingHidesEverything` | components/ResultDisplay.tsx:15-22 | while loading, the other props make no difference |
| `ResultDisplay.EmptyErrorIsIgnored` | components/ResultDisplay.tsx:24-26 | an empty error string is falsy and behaves like no error |
| `ResultDisplay.ListedLabelsAreTheKeys` | components/ResultDisplay.tsx:28-43 | a non-empty result lists a label if and only if it is a key of the results |
| `App.AllLabelsConcat` | App.tsx:87 | two lists of labels concatenate to a list of labels |
| `App.CleanConcat` | App.tsx:87 | trimming and filtering distribute over concatenation of token lists |
| `App.CleanTokenIsLabel` | App.tsx:87 | a comma-free token yields one label or nothing |
| `App.CleanTokensAreLabels` | App.tsx:87 | trimming and filtering comma-free tokens leaves only labels |
| `App.CleanToken` | App.tsx:87 | no contract; `App.CleanTokenIsLabel` states its result |
| `App.Clean` | App.tsx:87 | no contract; `App.CleanConcat` and `App.CleanTokensAreLabels` state its result |
| `App.ParseLabels` | App.tsx:87 | no contract; `App.ParseLabelsAreLabels`, `App.ParseLabelsConcat` and `App.ParseLabelsJoin` state its result |
| `App.ParseLabelsAreLabels` | App.tsx:87 | every parsed label is non-empty, comma-free and trimmed |
| `App.ParseLabelsConcat` | App.tsx:87 | cutting the text at a comma cuts the label list at the same place |
| `App.ParseLabelsToken` | App.tsx:87 | comma-free text parses to its trimmed self, or to nothing when that is empty |
| `App.BlankEntriesVanish` | App.tsx:87 | for any two labels `x` and `y`, `x + ", , " + y + ","` parses to `[x, y]`: the blank entry and the trailing comma vanish |
| `App.ParseLabelsSingle` | App.tsx:87 | a label behind white space parses to itself |
| `App.ParseLabelsBlank` | App.tsx:87 | text made only of white space gives no labels |
| `App.ParseLabelsAfterWhitespace` | App.tsx:87 | labels joined by `", "` after white space parse back to the same list |
| `App.ParseLabelsJoin` | App.tsx:87 | parsing undoes `join(', ')` on any list of labels |
| `App.PromptCarriesLabels` | services/geminiService.ts:46-51 | the prompt built from the parsed labels starts with the counting prefix, ends with a period, and the text between them parses back to the same labels |
| `App.Reduce` | App.tsx:101-104 | no contract; `App.ReduceKeys` and `App.ReduceLastWins` state its result and `App.ReduceResults` computes it |
| `App.ReduceKeys` | App.tsx:101-104 | the dictionary's keys are exactly the labels of the records other than `__proto__`, each stored once |
| `App.ReduceLastWins` | App.tsx:101-104 | a label other than `__proto__` maps to the count of the last record that carries it |
| `App.ProtoRecordIsDropped` | App.tsx:101-104 | a lone `__proto__` record leaves `{}`, so the panel shows that no results were found |
| `App.ReduceExample` | App.tsx:101-104 | zebra 3 and tree 0 become `{zebra: 3, tree: 0}` in that order |
| `App.ReduceResults` | App.tsx:101-104 | the loop builds the dictionary that writing the records one by one from `{}` gives |
| `App.RecordOf` | App.tsx:101-102 | no contract: `item.label` and `item.count` of an element of the `CountResult` shape; `App.RecordsRoundTrip` states the reading |
| `App.WellTyped` | App.tsx:100-101 | no contract: every element of the array has the `CountResult` shape |
| `App.Records` | App.tsx:100-101 | the array read as `CountResult[]` has one record per element, each the reading of its element |
| `App.RecordJson` | types.ts:14-17 | no contract: the JSON object of a `CountResult` |
| `App.RecordsRoundTrip` | App.tsx:100-102 | records written as `{label, count}` objects are well-shaped and read back as the same records |
| `App.ImageUrlToDataUrl` | App.tsx:68-80 | only a completed read succeeds, with its data URL; a non-OK response fails with the URL and status text; a reader error rejects with a non-Error value |
| `App.ImageForApi` | App.tsx:95-98 | a `data:image` string is used as it is; anything else is converted first |
| `App.MessageOf` | App.tsx:107 | an `Error` shows its message; anything else the fixed fallback message |
| `App.RefreshUrl` | App.tsx:48 | no contract; `App.Refreshed` states that each new source is the picsum URL seeded with the preset's id |
| `App.Refreshed` | App.tsx:46-54 | every preset keeps its id and description, and its new source is the picsum URL seeded with its id |
| `App.ServiceFailuresAreShown` | components/ResultDisplay.tsx:24-26 | every failure message of the counting call is truthy, so the panel shows it |
| `App.Analysis` | App.tsx:94-110 | no contract; `App.AnalysisSettles`, `App.AnalysisFollowsService` and `App.SubmitOutcomeIsShown` state its outcome and `App.Analyze` computes it |
| `App.AnalysisSettles` | App.tsx:94-110 | only non-data URLs are converted; the service is called exactly when an image for it is available, with the parsed labels and the selected model; afterwards either results or exactly one error message is set |
| `App.AnalysisFollowsService` | App.tsx:100-107 | once called, a failed `countObjectsInImage` sets its own message as the error and no results; well-shaped records are folded into the results |
| `App.BadDataUriFails` | App.tsx:95-100 | a `data:image` string whose MIME type is not `image/...` is sent unconverted and fails with "Failed to analyze image: Invalid image MIME type", whatever the model would answer |
| `App.SubmitOutcomeIsShown` | App.tsx:105-107 | every error a submit sets is shown by the panel (given non-empty browser rejection messages), and results show as a list or as "no results" |
| `App.ZebraTreeSubmit` | App.tsx:94-105 | a PNG data URL answered with zebra 3 and tree 0 leaves `{zebra: 3, tree: 0}` as the results and no error |
| `App.DataUrlSkipsConversion` | App.tsx:96-100 | a data URL goes to the service unchanged, whatever the fetch would have done |
| `App.ConversionFailureStopsSubmit` | App.tsx:70-72 | a non-OK fetch reports its own message and the service is never called |
| `App.Analyze` | App.tsx:94-110 | the body of the submit computes the settled outcome `Analysis` describes |
| `App.App.constructor` | App.tsx:12-20 | the initial state: the preset catalogue, its first image selected, the default labels and the first model |
| `App.App.Valid` | App.tsx:12 | no contract: the catalogue keeps the four presets' ids and descriptions in order; the constructor establishes it and every handler requires and preserves it |
| `App.App.HasImage` | App.tsx:83 | no contract: `selectedImage` is truthy; `App.App.IsButtonDisabled` and `App.App.HandleSubmit` state its use |
| `App.App.View` | App.tsx:160-176 | no contract: the panel is rendered over the selected image only; `App.App.HandlePresetSelect` states its value after a selection |
| `App.App.IsButtonDisabled` | App.tsx:113 | the button is disabled exactly while loading or when no (non-empty) image is selected |
| `App.App.HandlePresetSelect` | App.tsx:36-41 | selects the image and clears the results, the error and the submitted flag; nothing else changes; the panel then shows its placeholder, or is not rendered for an empty source |
| `App.App.HandleFileUpload` | App.tsx:22-34 | without a file nothing changes; a finished read selects its result (`null` on a failed read) and clears the rest |
| `App.App.HandleRefreshPresets` | App.tsx:43-66 | if every image loads, the refreshed catalogue is committed and its first image selected (the catalogue invariant keeps `newPresets[0]` defined); otherwise the catalogue stays and the refresh error is set; the catalogue's ids and descriptions are kept either way |
| `App.App.HandleLabelsChange` | App.tsx:139 | stores the typed text and changes nothing else |
| `App.App.HandleModelChange` | App.tsx:146 | stores the chosen model and changes nothing else |
| `App.App.HandleSubmit` | App.tsx:82-111 | without an image only the no-image error is set; with one the submit settles to `Analysis` of the selected image, the parsed labels, the model and the reply of the remote call, not loading and marked submitted |

## Left out

- The Gemini client, its construction and the `API_KEY` check at module load are not modelled: they are external code. The request the service would send is returned as a `Request` value instead.
- The `responseSchema` configuration is not modelled. The model does not rely on the service obeying it: any parsed JSON is possible.
- `response.text.trim()` and `JSON.parse` are not modelled. Their combined outcome is the `Reply` parameter: a rejected call, a syntax error, or a parsed value.
- Reading the body as a blob, `FileReader` and `Image` loads are left out as browser I/O. Their outcomes are the `FetchOutcome`, `Upload` and `PresetLoad` parameters.
- `Math.random()` in the refresh URL is not modelled: it is randomness. Its text is the `nonce` of each `PresetLoad`.
- `console.error` calls are left out: they are logging only.
- Interleaving of asynchronous handlers is left out. Each handler runs to completion, so the in-flight state of a submit (loading, with error and results cleared) is not observable in the model.
- App.App.HandleSubmit: the fold of an array whose elements are not all `{label: string, count: number}` objects is not computed. JavaScript would then read `undefined` or throw a `TypeError`. That outcome is the `untypedFold` parameter, used only for such arrays.
- Types.Lookup: a read of `__proto__` gives `undefined` in the model, where JavaScript returns `Object.prototype`. The application never reads that key.
- JavaScript numbers are modelled as integers, so counts with fractions are not represented.
- Strings are sequences of Unicode scalar values rather than UTF-16 code units. The two agree for the characters the code inspects (`,`, `;`, white space).
- `Object.entries` lists integer-like keys first in ascending order. The model keeps insertion order for every key, so labels such as `"2"` would be listed in a different order than the browser lists them.
- The JSX markup, the presentational components (`ImageSelector`, `LabelInput`, `ModelSelector`, `Spinner`, the icons) and styling are not modelled. Only the view choice of the result panel is.
