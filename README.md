# Virtual try-on front end: client-side state logic in Dafny

This project models the state logic of the three React components of the
virtual-try-on front end. All three are sequential state updates driven by
events. The model covers:

- **The try-on wizard** (`TryOnApp.js`) is the class `TryOnApp.TryOnWizard`. It has the component's seven
  `useState` fields: `step`, `dressUrl`, `userImage`, `isProcessing`,
  `processingStep`, `result` and `progress`. `State()` gives them as one value.
  The asynchronous `handleSubmit` is split into the events that resume it:
  `Submit`, then `JobFailed` or `JobAccepted`, then `ImagesArrived` or
  `ImagesFailed`. Each firing of a progress interval is a `ProgressTick(k)`
  event. Each completed file read is a `PreviewLoaded` event. Three extra
  fields track the closures and pending continuations of the source:
  - `intervals` holds every progress interval started, with its counter and whether it was cleared.
  - `submission` records where `handleSubmit` stands.
  - `pendingPreviews` counts file reads not yet completed.
- **The gallery** (`Gallery.js`) has two parts. `Gallery.Enrich` is a pure function for the
  per-entry image enrichment; `bodies[i]` is the outcome of entry `i`'s image request.
  The class `Gallery.GalleryView` holds `tryons`, `loading`, `selectedTryon` and
  `feedback`. The star rating and the feedback post are functions with lemmas.
- **The hero carousel** (`LandingPage.js`) has pure functions `LandingPage.NextIndex` and
  `LandingPage.PrevIndex`, written with JavaScript's truncating `%`
  (`JsRemainder`). The class `LandingPage.HeroCarousel` holds `currentSlide`.

Shared pieces:
- `JsObjects` models JSON records as maps from field name to text. It also models object spread and
  the rendering of `${obj.key}`. A missing field renders as `undefined`.
- `Images` builds the `data:image/png;base64,` URIs (RFC 2397, section 3) that both the wizard and the gallery
  spread into job records.

Every network response, timer firing and file-read completion is an input
event. A button that is only rendered in some step is modelled as a
precondition on that step:
- Continue needs step 1.
- Edit Details needs step 2.
- Create Virtual Try-On needs step 2 and `!isProcessing`.
- Try Another Dress needs step 3.

The model follows four things the code does that a reader might not expect:
- Only the success path clears the progress interval. After a failure, the interval keeps firing and overwrites `progress` and `processingStep` until its table runs out (`JobFailed`, `ProgressTick`).
- The image response's status is never checked. An error body still produces a result, with the data URI of `undefined` (`ImagesArrived`, `Gallery.ErrorBodyStillEnriches`).
- `progress` 100 and 'Complete!' last only while the image request is in flight. The `finally` block resets them to 0 and '' at once (`JobAccepted`, `ImagesArrived`).
- A non-ok job response throws (`JobFailed`).

Selecting another gallery entry does not clear the feedback form.

## Model

| member | source | states |
|---|---|---|
| `JsObjects.Field` | frontend/src/components/TryOnApp.js:136 | `${obj.key}` renders the field's text, or `undefined` when the field is absent |
| `JsObjects.Spread` | frontend/src/components/TryOnApp.js:112-116 | an object spread has the fields of both objects, the later one winning on a clash |
| `Images.PngDataUri` | frontend/src/components/TryOnApp.js:114-115 | an image URI is the PNG base64 data prefix followed by exactly the payload |
| `Images.PayloadOfDataUri` | frontend/src/components/TryOnApp.js:114-115 | stripping the prefix from a built URI gives back the payload |
| `Images.DataUriOfPayload` | frontend/src/components/TryOnApp.js:114-115 | any text the prefix-stripping accepts is the URI of its payload |
| `Images.WithImages` | frontend/src/components/TryOnApp.js:112-116 | the result record keeps every job field, adds both image fields, and their URIs decode to the body's two payloads |
| `TryOnApp.ProgressStepsIncrease` | frontend/src/components/TryOnApp.js:70-76 | the table's percentages strictly increase and lie strictly between 0 and 100 |
| `TryOnApp.Fire` | frontend/src/components/TryOnApp.js:79-85 | a firing shows table entry `currentStep` and advances the counter by one exactly when the interval is uncleared and the counter is below 5; otherwise the interval is unchanged and nothing is shown |
| `TryOnApp.ShownByWalksTable` | frontend/src/components/TryOnApp.js:78-85 | an uncleared interval at counter c shows table entries c, c+1, ... in order, one per firing, and nothing after the fifth |
| `TryOnApp.FreshIntervalShowsTable` | frontend/src/components/TryOnApp.js:70-85 | n firings of a new interval show exactly the first min(n, 5) table entries |
| `TryOnApp.ClearedShowsNothing` | frontend/src/components/TryOnApp.js:104 | in this encoding a cleared interval contributes no entries, however often it is fired (in the source it never fires again) |
| `TryOnApp.FireKeepsCounterInTable` | frontend/src/components/TryOnApp.js:80-83 | the counter never passes 5, and a firing at 5 or of a cleared interval changes nothing |
| `TryOnApp.AttachPreviewAsWritten` | frontend/src/components/TryOnApp.js:40-45 | as written, the preview update yields a plain object whose fields are exactly the copied own fields plus the preview |
| `TryOnApp.AttachPreview` | frontend/src/components/TryOnApp.js:40-45 | the intended preview update: the preview is readable, and a dropped file keeps its name and size |
| `TryOnApp.PreviewAsWrittenSendsText` | frontend/src/components/TryOnApp.js:88-90 | as written, after the preview arrives the form's `user_image` part is the text "[object Object]", not the file |
| `TryOnApp.UserImagePart` | frontend/src/components/TryOnApp.js:90 | the `user_image` part is a file part carrying the name and size exactly when `userImage` is a File; any other object goes as the text "[object Object]" |
| `TryOnApp.PreviewKeepsDroppedFile` | frontend/src/components/TryOnApp.js:88-90 | with the intended update, the `user_image` part is still the dropped file |
| `TryOnApp.DownloadFileName` | frontend/src/components/TryOnApp.js:136 | the name is `virtual-tryon-`, then exactly the job id, then `.png` |
| `TryOnApp.DownloadNameRoundTrip` | frontend/src/components/TryOnApp.js:136 | the job id can be read back from `virtual-tryon-<id>.png` |
| `TryOnApp.DownloadNameInjective` | frontend/src/components/TryOnApp.js:136 | different job ids give different download names |
| `TryOnApp.TryOnWizard.constructor` | frontend/src/components/TryOnApp.js:20-26 | the initial state is step 1, empty URL, no photo, not processing, empty label, no result, progress 0 |
| `TryOnApp.TryOnWizard.SetDressUrl` | frontend/src/components/TryOnApp.js:249 | typing changes only `dressUrl` |
| `TryOnApp.TryOnWizard.Drop` | frontend/src/components/TryOnApp.js:28-47 | only the first file counts. An empty drop, or a first file over 10 MiB, changes nothing. Otherwise `userImage` becomes that file and a read starts |
| `TryOnApp.TryOnWizard.PreviewLoaded` | frontend/src/components/TryOnApp.js:40-45 | a completed read changes only `userImage`, attaching the preview to whatever it now holds. It applies the corrected update (see "## Left out" and "## Findings") |
| `TryOnApp.TryOnWizard.Continue` | frontend/src/components/TryOnApp.js:298-304 | moves 1 to 2 exactly when the URL is non-empty and a photo is present; otherwise nothing changes |
| `TryOnApp.TryOnWizard.EditDetails` | frontend/src/components/TryOnApp.js:361-366 | moves 2 to 1 and changes nothing else |
| `TryOnApp.TryOnWizard.Submit` | frontend/src/components/TryOnApp.js:58-96 | without URL or photo: no request, no change. Otherwise: sends the URL and the form part of `userImage` (after a preview, as written, that is the text "[object Object]"; see "## Findings"), sets processing, 0% and 'Preparing your images...', and starts a new interval |
| `TryOnApp.TryOnWizard.ProgressTick` | frontend/src/components/TryOnApp.js:79-85 | a firing shows the interval's next table entry and advances its counter, or changes nothing when cleared or done |
| `TryOnApp.TryOnWizard.JobFailed` | frontend/src/components/TryOnApp.js:98-100 | a thrown job request settles: not processing, '' and 0. Step and result are unchanged and the interval is not cleared |
| `TryOnApp.TryOnWizard.JobAccepted` | frontend/src/components/TryOnApp.js:102-109 | clears this submission's interval, shows 100% 'Complete!', and requests the images of the job's own id |
| `TryOnApp.TryOnWizard.ImagesArrived` | frontend/src/components/TryOnApp.js:109-128 | result is the job record with both images, step becomes 3, then not processing, '' and 0; the status is not checked |
| `TryOnApp.TryOnWizard.ImagesFailed` | frontend/src/components/TryOnApp.js:121-128 | a thrown image request settles: not processing, '' and 0. Step and result are unchanged |
| `TryOnApp.TryOnWizard.DownloadImage` | frontend/src/components/TryOnApp.js:131-136 | nothing without a result; otherwise the generated image under a name that encodes the result's id |
| `TryOnApp.TryOnWizard.Reset` | frontend/src/components/TryOnApp.js:164-172 | every state field returns to its initial value; running intervals are untouched |
| `Gallery.EnrichEntry` | frontend/src/components/Gallery.js:36-47 | a failed entry is returned unchanged. An answered one keeps its fields and gains both images, decoding to the body's payloads |
| `Gallery.Enrich` | frontend/src/components/Gallery.js:34-49 | the enriched list has the fetched list's length |
| `Gallery.EnrichAt` | frontend/src/components/Gallery.js:34-49 | entry i of the result is entry i of the input enriched by its own outcome (order preserved) |
| `Gallery.EnrichKeepsEntries` | frontend/src/components/Gallery.js:39-43 | same length, and every entry keeps every original field and value apart from the two image fields |
| `Gallery.EnrichSkipsFailed` | frontend/src/components/Gallery.js:44-47 | an entry whose image request threw is returned unchanged |
| `Gallery.EnrichAttachesImages` | frontend/src/components/Gallery.js:37-43 | an entry whose image request answered gets both images |
| `Gallery.EnrichEntriesIndependent` | frontend/src/components/Gallery.js:35-48 | one entry's outcome does not affect any other entry |
| `Gallery.ErrorBodyStillEnriches` | frontend/src/components/Gallery.js:37-43 | a non-ok image response is not a failure: the entry gets the data URI of `undefined` |
| `Gallery.FeedbackRequest` | frontend/src/components/Gallery.js:60-77 | rating 0 sends nothing. Any other rating sends exactly the given id with the current rating and comment |
| `Gallery.StarFilled` | frontend/src/components/Gallery.js:273 | star s is drawn filled exactly when s is at most the rating |
| `Gallery.FilledStarsArePrefix` | frontend/src/components/Gallery.js:269-273 | with rating r in 0..5, the filled stars are exactly stars 1..r, so r of them |
| `Gallery.GalleryView.constructor` | frontend/src/components/Gallery.js:17-20 | no entries, loading, nothing selected, empty feedback |
| `Gallery.GalleryView.ListLoaded` | frontend/src/components/Gallery.js:31-56 | `tryons` becomes the enrichment of the fetched list and loading ends |
| `Gallery.GalleryView.ListFailed` | frontend/src/components/Gallery.js:28-29 | `tryons` keeps its previous value and loading ends |
| `Gallery.GalleryView.SelectTryon` | frontend/src/components/Gallery.js:175 | selects the entry and leaves the feedback form as it is |
| `Gallery.GalleryView.CloseDetails` | frontend/src/components/Gallery.js:207-209 | closes the modal and leaves the feedback form as it is |
| `Gallery.GalleryView.ClickStar` | frontend/src/components/Gallery.js:272-273 | rating becomes the star, comment kept, star s filled exactly when s is at most the clicked star, so the clicked number of stars is filled |
| `Gallery.GalleryView.EditComment` | frontend/src/components/Gallery.js:283 | only the comment changes |
| `Gallery.GalleryView.SubmitFeedback` | frontend/src/components/Gallery.js:60-77 | called from the open modal: sends the feedback request of the current form for the selected entry's id, changing neither the form nor the selection |
| `Gallery.GalleryView.FeedbackSettled` | frontend/src/components/Gallery.js:79-87 | success resets the form (no star filled) and closes the modal; failure leaves both unchanged |
| `LandingPage.JsRemainder` | frontend/src/components/LandingPage.js:80 | JavaScript `%` lies in [0, n) for non-negative and in (-n, 0] for negative dividends |
| `LandingPage.NextIndex` | frontend/src/components/LandingPage.js:80 | the next index stays in [0, count) |
| `LandingPage.PrevIndex` | frontend/src/components/LandingPage.js:84 | the previous index stays in [0, count); the added length keeps the dividend non-negative |
| `LandingPage.NextIndexSteps` | frontend/src/components/LandingPage.js:79-81 | next is current + 1, or 0 after the last slide |
| `LandingPage.PrevIndexSteps` | frontend/src/components/LandingPage.js:83-85 | prev is current - 1, or the last slide from 0 |
| `LandingPage.PrevFromFirst` | frontend/src/components/LandingPage.js:84 | prev from 0 is count - 1 |
| `LandingPage.NextThenPrev` | frontend/src/components/LandingPage.js:79-85 | prev undoes next |
| `LandingPage.PrevThenNext` | frontend/src/components/LandingPage.js:79-85 | next undoes prev |
| `LandingPage.NextTimesAdvances` | frontend/src/components/LandingPage.js:80 | k nexts, k at most count, advance by k modulo count |
| `LandingPage.NextCycle` | frontend/src/components/LandingPage.js:80 | count nexts return to the start |
| `LandingPage.SlideActive` | frontend/src/components/LandingPage.js:147-151 | slide (and dot) `index` is drawn active exactly when it equals `currentSlide` |
| `LandingPage.ExactlyOneActive` | frontend/src/components/LandingPage.js:147-151 | exactly one slide (and one dot) is active, the current one |
| `LandingPage.HeroCarousel.constructor` | frontend/src/components/LandingPage.js:8 | the carousel starts at slide 0 |
| `LandingPage.HeroCarousel.NextSlide` | frontend/src/components/LandingPage.js:79-81 | the right arrow applies next and keeps the index in range |
| `LandingPage.HeroCarousel.PrevSlide` | frontend/src/components/LandingPage.js:83-85 | the left arrow applies prev and keeps the index in range |
| `LandingPage.HeroCarousel.TimerTick` | frontend/src/components/LandingPage.js:72-75 | the timer applies exactly the same update as the right arrow |
| `LandingPage.HeroCarousel.GoToSlide` | frontend/src/components/LandingPage.js:183-190 | a dot click selects that dot's slide, which is in range |
| `LandingPage.HeroCarousel.ActiveIndices` | frontend/src/components/LandingPage.js:183-188 | the set of active dots is exactly the current slide |

## Left out

- TryOnApp.TryOnWizard.PreviewLoaded: applies the corrected `AttachPreview`, so in the class a dropped File stays a File after its preview arrives. As written, the source leaves a plain object without name or size (`AttachPreviewAsWritten`), and a later `Submit` would send the text "[object Object]" as `user_image` (`PreviewAsWrittenSendsText`). The class does not model that failing upload.

- Rendering, animations, CSS classes, icons, the step indicator and routing (`App.js`) are presentation only.
- HTTP, `FormData` encoding and JSON parsing are not modelled. Each response is an input: a record, or a failure event. The job request is reduced to a `TryOnRequest` value.
- JSON values other than text (numbers, nested objects) are not modelled. Records map field names to text.
- Real time is not modelled: the 2000 ms and 5000 ms periods, and the carousel's `clearInterval` on unmount. Firings are explicit events.
- Toasts, console logging, the share button (`navigator.share` and the clipboard fallback) and the anchor click are not modelled. Of the download, only its target and file name are kept.
- The drop zone's MIME filtering and `maxFiles` are not modelled. `Drop` receives the accepted files as given.
- A file read that fails never completes, so it never fires `PreviewLoaded`.
- `formatDate` depends on `Date` and locale formatting.
- The backend (`backend/server.py`) and the scripts that call a live deployment are not part of this model.
- `Gallery.Enrich` takes each entry's outcome as given. The request URLs built from entry ids are not modelled.

## Findings

| source | as written | input that shows it | evidently intended | confidence | as-written member | corrected member |
|---|---|---|---|---|---|---|
| frontend/src/components/TryOnApp.js:40-45 | `{...prev, preview}` copies only the File's own enumerable fields. A File's `name`, `size` and bytes are not own enumerable fields, so `userImage` becomes a plain object. Line 90 then appends it to the form as the text "[object Object]" (`PreviewAsWrittenSendsText`). The server requires a file there (backend/server.py:139), so the job request would fail | drop any photo of at most 10 MiB, let its read complete, continue, submit | the dropped file stays the upload and gains a `preview` field; lines 273 and 348 read `userImage.name` afterwards (`PreviewKeepsDroppedFile`) | not executed; rests on JavaScript's object-spread rules for host objects | `TryOnApp.AttachPreviewAsWritten` | `TryOnApp.AttachPreview` |

`TryOnWizard.PreviewLoaded` uses the corrected `AttachPreview`. A read that
completes when no file is held (after a reset) behaves as written in both
versions: `userImage` becomes a plain object holding only the preview.
