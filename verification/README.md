# PPT generator front end: request lifecycle and delivery, in Dafny

This project models the two React components of the slide-deck generator
that hold rules rather than layout:

- the **generator form** (`src/components/PPTGenerator.tsx`) — a topic
  field, a slide-count field and a button. Its rules are topic validation
  with JavaScript `trim`, the slide-count clamp, the two ways of naming the
  downloaded deck, the error classification and the submit/settle state
  machine. It saves the file through a temporary object URL
  (`downloadFile`).
- the **deferred download page** (`src/pages/Download.tsx`) — it reads a
  hand-off record `{fileUrl, filename, topic, slides}` from the navigation
  state. When `fileUrl` or `filename` is missing it redirects home and
  renders nothing. Otherwise its button saves the carried URL under the
  carried name.

Everything is pure functions over immutable records:

| file | module | what it holds |
|---|---|---|
| `wrappers.dfy` | `Wrappers` | `Option` (`None` is `undefined` or NaN) |
| `js_text.dfy` | `JsText` | strings as UTF-16 code units, the whitespace and line-terminator sets of ECMA-262 sections 12.2 and 12.3, `Trim`, `IsBlank` |
| `slide_count.dfy` | `SlideCount` | the clamp `Math.max(3, Math.min(20, parseInt(v) \|\| 5))` |
| `filename.dfy` | `Filename` | the sanitised default name and the regular expression `/filename="?(.+)"?/` |
| `filename_examples.dfy` | `FilenameExamples` | the naming rules on concrete inputs |
| `messages.dfy` | `Messages` | the toast literals and the error priority chain |
| `delivery.dfy` | `Delivery` | object URLs, the temporary link, `downloadFile` |
| `generator.dfy` | `Generator` | the form state, `handleGeneratePPT` split at its `await`, the input guards, the invariant |
| `generator_examples.dfy` | `GeneratorExamples` | end-to-end runs |
| `download_page.dfy` | `DownloadPage` | the hand-off guard, the render, `handleDownload` |

How the outside world appears in the model:

- **Strings.** User text is a sequence of 16-bit code units (`JsText.CodeUnit`), so a character outside the Basic Multilingual Plane is two units, as in JavaScript. Message literals and axios error codes are plain Dafny strings.
- **The request.** It is a `Generator.Request` value appended to a list. Its settlement is a `Generator.Response` given as input: a body plus an optional `content-disposition` header, or an error with an optional `code` and an optional response status.
- **Toasts and `console.error`.** These are lists in the `Generator.Machine` record.
- **The browser.** This is a `Delivery.Browser` record. It holds a map from live object-URL handles to blobs, the next handle to mint, counters of created and revoked URLs, the number of body children, and the list of saves performed.
- **Navigation.** It is the `navigatesHome` flag of `DownloadPage.Mounted`.
- **The async handler.** It is split at its `await`. `HandleGenerate` runs on submit. `Complete` runs when the response settles, reached through the `Settle` event of `Step`.

Behaviour of the code worth knowing:

- **Quoted header.** With the header `filename="deck.pptx"` the code's regular expression yields `deck.pptx"`, with the closing quote. The greedy `(.+)` runs to the end of the line, so the trailing `"?` matches nothing. `FilenameExamples.QuotedHeaderKeepsClosingQuote` proves this.
- **Sanitising.** The default name replaces every non-alphanumeric code unit with `_`. It does not strip them.
- **Server errors.** Only a status of exactly 500 is reported as a server error. 502, 503 and other 5xx statuses get the generic message.
- **Revoking on the download page.** The page never revokes the object URL it was handed, whether the user saves or leaves.
- **UI states.** The form's status is the single boolean `isGenerating`. There is no separate Done state.

## Model

| member | source | states |
|---|---|---|
| JsText.Trim | src/components/PPTGenerator.tsx:27 | `topic.trim()` is the slice of the topic left after removing ECMA-262 white space and line terminators from both ends; a non-empty result starts and ends with a non-whitespace unit |
| JsText.StripBounds | src/components/PPTGenerator.tsx:27 | removing the leading run of white space and line terminators, then the trailing run of what is left, gives bounds with only trimmable units outside and non-trimmable units at both ends |
| JsText.TrimUnique | src/components/PPTGenerator.tsx:37 | any slice whose outside is all whitespace and whose ends are not is exactly what `trim` returns (the reference characterisation of `trim`) |
| JsText.IsBlank | src/components/PPTGenerator.tsx:27-30 | `!topic.trim()` holds exactly when every code unit of the topic is whitespace or a line terminator, the empty topic included |
| JsText.TrimIdempotent | src/components/PPTGenerator.tsx:37 | trimming the already trimmed topic changes nothing |
| JsText.TrimmedIsNotBlank | src/components/PPTGenerator.tsx:37 | the trimmed topic sent with an accepted request is non-empty and itself not blank |
| SlideCount.Clamp | src/components/PPTGenerator.tsx:130 | the stored count is always in [3,20]; NaN and 0 give 5; other values below 3 give 3, above 20 give 20, and values in range are kept |
| SlideCount.ClampIdempotent | src/components/PPTGenerator.tsx:129-130 | re-entering the value the field shows leaves it unchanged |
| SlideCount.ClampDefaultOnlyFrom | src/components/PPTGenerator.tsx:130 | the clamp yields 5 exactly for NaN, 0 and 5 |
| Filename.Sanitize | src/components/PPTGenerator.tsx:46 | `replace(/[^a-z0-9]/gi, '_')` keeps the length and maps each code unit to itself when it is an ASCII letter or digit and to `_` otherwise |
| Filename.SanitizeIdempotent | src/components/PPTGenerator.tsx:46 | sanitising an already sanitised stem changes nothing |
| Filename.SanitizeFixpoints | src/components/PPTGenerator.tsx:46 | the output consists of ASCII letters, digits and `_` only, and a topic is left unchanged exactly when it already consists of those |
| Filename.DefaultFilename | src/components/PPTGenerator.tsx:46 | the default name is the untrimmed topic, unit for unit sanitised, followed by `_presentation.pptx` |
| Filename.RunEnd | src/components/PPTGenerator.tsx:49 | a greedy `.+` stops at the first line terminator or at the end of the header |
| Filename.MatchAt | src/components/PPTGenerator.tsx:49 | the expression matches at a position exactly when `filename=` starts there and is followed by a non-line-terminator; capture 1 is then non-empty, free of line terminators, starts after the opening quote when the quote is consumed, and runs to the end of the line |
| Filename.FindFrom | src/components/PPTGenerator.tsx:49 | `match` finds nothing exactly when no position matches, and otherwise returns capture 1 of the leftmost matching position |
| Filename.FindFromLeftmost | src/components/PPTGenerator.tsx:49-51 | whichever position matches first determines the capture that becomes the filename |
| Filename.ResponseFilename | src/components/PPTGenerator.tsx:45-53 | with a truthy header that matches, the name is the non-empty leftmost capture; with a missing, empty or non-matching header it is the default name |
| FilenameExamples.DefaultFilenameAiBasics | src/components/PPTGenerator.tsx:46 | "AI Basics" is saved as `AI_Basics_presentation.pptx` |
| FilenameExamples.DefaultFilenameMachineLearning | src/components/PPTGenerator.tsx:46 | "Machine Learning!" is saved as `Machine_Learning__presentation.pptx` |
| FilenameExamples.QuotedHeaderKeepsClosingQuote | src/components/PPTGenerator.tsx:48-52 | the header `attachment; filename="deck.pptx"` names the file `deck.pptx"`, closing quote included, whatever the topic |
| Messages.ErrorMessage | src/components/PPTGenerator.tsx:66-73 | every failure message is the cross mark and a space followed by the kind's own text |
| Messages.Classify | src/components/PPTGenerator.tsx:66-74 | the four failure messages are chosen by an exclusive priority chain: code `ECONNABORTED` first, then status exactly 500, then code `ERR_NETWORK`, then the generic message |
| Messages.StatusPriority | src/components/PPTGenerator.tsx:68-70 | a timeout code wins over any status, and a status other than 500 (502, say) is never a server error |
| Messages.MessagesDistinct | src/components/PPTGenerator.tsx:66-76 | the validation, success and four error messages are pairwise different |
| Delivery.CreateObjectUrl | src/components/PPTGenerator.tsx:16 | `createObjectURL` mints a handle that was not live before and now resolves to the blob; every other URL resolves as before, and the saves, body children and revoked count are untouched |
| Delivery.RevokeObjectUrl | src/components/PPTGenerator.tsx:23 | after `revokeObjectURL` the URL no longer resolves and every other URL resolves as before; the revoked count rises only when a live handle was released, and revoking a dead URL changes nothing |
| Delivery.SaveThroughLink | src/components/PPTGenerator.tsx:17-22 | appending, clicking and removing the link records one save of whatever the `href` designates under the `download` name and leaves the body's children and the live URLs as they were |
| Delivery.DownloadFile | src/components/PPTGenerator.tsx:15-24 | `downloadFile` saves exactly the given blob under exactly the given name through one fresh object URL, revokes that URL before returning, advances the next handle by one, and leaves live URLs and body children unchanged |
| Delivery.DownloadFileBalanced | src/components/PPTGenerator.tsx:15-24 | one URL is created and one revoked, so the number of live handles is the same after the call |
| Generator.Init | src/components/PPTGenerator.tsx:11-13 | the form starts idle with an empty topic and the default count 5, with no request pending or sent, no toast, nothing logged, the given browser untouched and the handler not yet run |
| Generator.InputsDisabled | src/components/PPTGenerator.tsx:111-132 | both inputs are disabled exactly while a request is in flight, and whenever they are the button is disabled too |
| Generator.ButtonDisabled | src/components/PPTGenerator.tsx:141 | the button is enabled exactly when the form is idle and the topic holds a unit that is neither white space nor a line terminator; an empty topic always disables it |
| Generator.HandleGenerate | src/components/PPTGenerator.tsx:26-42 | a blank topic yields one validation toast and nothing else; otherwise the busy flag rises and exactly one request goes out with the trimmed topic, the current count and a 60000 ms timeout, with no toast and nothing written to the console; either way exactly one toast or one request results |
| Generator.Complete | src/components/PPTGenerator.tsx:44-79 | settling lowers the busy flag and adds exactly one toast, a success toast exactly when the response succeeded, without sending a request or leaking a handle or body child; the console gets the error exactly on failure and nothing on success |
| Generator.Step | src/components/PPTGenerator.tsx:109-141 | while busy every user event is ignored (inputs disabled, Enter and the button guarded); an event sends at most one request and never leaks a handle or body child |
| Generator.IdleEventEffects | src/components/PPTGenerator.tsx:109-141 | on an idle form a topic edit stores exactly the new text (:109), a count edit stores exactly the clamped count (:130), Enter runs the handler while other keys do nothing (:113), and the button runs the handler unless the topic is blank (:140-141); nothing else changes |
| Generator.InitValid | src/components/PPTGenerator.tsx:11-13 | the initial form satisfies the invariant |
| Generator.SentRequestWellFormed | src/components/PPTGenerator.tsx:35-42 | the request for a non-blank topic carries a non-empty topic with no leading or trailing whitespace, an in-range count and the 60 s timeout |
| Generator.StepValid | src/components/PPTGenerator.tsx:26-79 | every event preserves the invariant: count in [3,20], busy exactly while an attempt is pending, every request well formed, exactly one toast per completed handler run |
| Generator.RunValid | src/components/PPTGenerator.tsx:12 | after any sequence of events the invariant holds, in particular `slides` is in [3,20] |
| Generator.AttemptLifecycle | src/components/PPTGenerator.tsx:32-79 | an accepted attempt raises the busy flag with one request and lowers it with one toast; nothing is logged on submit or on success, where the body is saved once under the derived name and the form resets to ("", 5); failure logs the error and keeps the inputs |
| Generator.BlankTopicRejected | src/components/PPTGenerator.tsx:27-30 | with a blank topic Enter only shows the validation toast, with no request and the busy flag down, and the disabled button does nothing |
| Generator.BusyIgnoresUserEvents | src/components/PPTGenerator.tsx:111-116 | while a request is in flight no sequence of edits, key presses or clicks changes anything, so no second request is sent |
| Generator.RunKeepsHandlesAndDom | src/components/PPTGenerator.tsx:15-24 | after any sequence of events the live object URLs and the body's children are what they were |
| GeneratorExamples.SubmitAiBasics | src/components/PPTGenerator.tsx:26-61 | typing "AI Basics", clicking and receiving a body without a filename header sends ("AI Basics", 5), shows one success toast, saves `AI_Basics_presentation.pptx` and resets the form to ("", 5) |
| GeneratorExamples.DoubleClickSendsOnce | src/components/PPTGenerator.tsx:139-141 | two clicks before the response arrive send one request |
| DownloadPage.Fields | src/pages/Download.tsx:10 | a missing `location.state` reads as an empty record, every field undefined |
| DownloadPage.UrlTruthy | src/pages/Download.tsx:13 | a file URL is falsy exactly when it is undefined or the empty string; a minted object URL is truthy |
| DownloadPage.NameTruthy | src/pages/Download.tsx:13 | a filename is falsy exactly when it is undefined or the empty string |
| DownloadPage.Ready | src/pages/Download.tsx:13-29 | `fileUrl && filename` holds exactly when both are present, the URL is not the empty string and the filename is non-empty |
| DownloadPage.Mount | src/pages/Download.tsx:12-31 | the page navigates to `/` exactly when `fileUrl` or `filename` is falsy, renders nothing exactly then, and otherwise shows the carried filename, topic and count |
| DownloadPage.HandleDownload | src/pages/Download.tsx:18-27 | with a falsy `fileUrl` or `filename` nothing happens; otherwise one save of exactly the carried URL under exactly the carried name, with the body's children restored and no URL revoked |
| DownloadPage.RedirectIgnoresMetadata | src/pages/Download.tsx:12-16 | topic and slide count play no part in the redirect |
| DownloadPage.EmptyHandOffRedirects | src/pages/Download.tsx:10-16 | an absent or empty hand-off redirects home and shows no download controls |
| DownloadPage.RepeatedDownloadIsIdentical | src/pages/Download.tsx:18-27 | two clicks produce two identical saves and leave the URL resolving as before |

## Left out

- The HTTP call, the backend and axios internals. A settled request is an input value (`Generator.Response`), and the 60000 ms timeout appears only as the request's parameter.
- `parseInt` on the field's text. The clamp takes the parsed value, with `None` for NaN, so how a string such as `"1e3"` or `" 7"` parses is not modelled.
- `SlideCount.Clamp`: JavaScript numbers are modelled as unbounded integers. A value that `parseInt` returns beyond 2^53 or as ±Infinity is not represented; the clamp would send each of them to 20 or 3 anyway.
- Toast rendering (sonner) and the text `console.error` prints. Both are recorded as list entries.
- react-router. Navigation is a flag, and the code that would create the hand-off record is not part of this model (nothing in the generator navigates to the download page).
- Hand-off fields that are not strings or numbers (objects, booleans). Each field is either undefined or a value of its declared kind.
- `DownloadPage.HandleDownload`: a non-object-URL `fileUrl` is saved with unknown content (`None`). Fetching an ordinary URL is outside the model.
- Blob contents and the object-URL string format. Both are opaque.
- JSX layout, styling, icons and the UI library components.
- React render batching and the asynchronous `setIsGenerating`. The guards are modelled as written, evaluated on the state each event sees. The brief window before a re-render in which two events could both see `isGenerating == false` is not modelled.
- Exceptions thrown by the browser inside `downloadFile` (for example by `createObjectURL`). The model assumes the DOM calls succeed.
- Full RFC 6266 `Content-Disposition` parsing, which the code does not perform. Only its single regular expression is modelled.
