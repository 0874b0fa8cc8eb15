# WonderTourKids landmark scanner: a Dafny model of the scan pipeline

WonderTourKids lets a child photograph a landmark and read a kid-friendly
description of it. This project models the part of the app that does the
work:

- the capture component. It opens the rear camera and snaps one JPEG frame,
  or takes a file picked from the gallery. It owns the camera stream and
  stops its tracks when the camera view closes.
- the on-device classifier service. A Teachable Machine model is loaded
  into a module-level slot; once a load has succeeded, further loads do
  nothing, and a failed load is retried by the next call. `predictImage` loads it on demand and sorts the predictions by
  descending probability in place, keeping equally probable predictions in
  the model's order.
  `getTopPrediction` takes the first one.
- the enrichment service. It asks a generative-text model for a JSON
  description with a fixed schema. On any failure it returns a fixed
  fallback record, so it never throws.
- the app's state machine. Screens are HOME, ANALYZING_IMAGE,
  FETCHING_INFO, RESULT and ERROR. `handleImageSelected` shows the image,
  classifies it, gates the best prediction at probability 0.6, fetches the
  description and shows it. Any thrown error lands on ERROR.
  `handleReset` returns to HOME.

Layout:

- `wrappers.dfy`: `Option` and `Result`. A `Failure(error)` stands for a
  thrown `Error` with that `message`.
- `types.dfy`: the records and the screen enumeration of `types.ts`.
- `classifier.dfy`: the classifier service.
  - The module-level `model` variable is the field of the
    `ClassifierService` class.
  - The sort is an in-place insertion sort on an `array`. It is proved
    equal to a functional insertion sort, `SortByProbability`.
  - Lemmas prove that `SortByProbability` orders by non-increasing
    probability, is a permutation, is stable (equally probable predictions
    keep their order), is the identity on ranked input, and puts first the
    earliest of the most probable predictions.
- `gemini.dfy`: the request (model id, JSON mime type, schema, prompt), the
  fallback record and `fetchLandmarkDetails`. The SDK call and `JSON.parse`
  are function parameters.
- `uploader.dfy`: the `ImageUploader` component as a class with its three
  state variables and the gallery input's value. Camera tracks are objects
  whose `Stop` ends them.
- `app.dfy`: the `App` component as a class with its four state variables.
  - A ghost `visited` trace records every screen shown. `Valid()` keeps the
    trace legal under the transition relation `Step`. It also keeps the
    RESULT screen renderable and the ERROR screen's message non-empty.
  - One run of `handleImageSelected` is specified by the function
    `Pipeline`. The method is proved to end in exactly the state `Pipeline`
    gives. Lemmas about `Pipeline` state the behaviour of a run.

The foreign calls a run makes are fields of an `Environment` value:
- `URL.createObjectURL`;
- whether the image element ever fires `onload`;
- whether the `tmImage` library is present and whether `tmImage.load`
  resolves;
- what the model's `predict` yields;
- the generative-text call;
- `JSON.parse`.

The camera's `getUserMedia` and the canvas (`getContext`, `toBlob`) are
parameters of the capture methods.

Three behaviours of the code shape the model:

- The code waits only for the image's `onload` and installs no `onerror`.
  An image that never decodes therefore leaves the app on ANALYZING_IMAGE
  for good; no decode error reaches ERROR. `Pipeline` models this as a run
  suspended on ANALYZING_IMAGE.
- `URL.createObjectURL` sits inside the `try`, so if it throws, the app
  goes from HOME straight to ERROR. `Step` therefore allows HOME to ERROR.
  An error with an empty message shows "Something went wrong!".
- Object URLs are never revoked, and no run id guards against stale
  results. The model has neither.

## Model

| member | source | states |
|---|---|---|
| Classifier.ModelAfterLoad | services/classifierService.ts:11-29 | A held model is kept. Otherwise a model is held afterwards exactly when the `tmImage` library is present and the load succeeds. The model then comes from the model URL plus `model.json` and `metadata.json`. |
| Classifier.LoadResult | services/classifierService.ts:11-29 | A load reports success exactly when a model is held afterwards. A missing library throws "Teachable Machine library not loaded". A failed load throws the check-your-connection message. |
| Classifier.LoadIsAtMostOnce | services/classifierService.ts:12 | Once a model is held, loading again succeeds and keeps that model. |
| Classifier.FailedLoadIsRetried | services/classifierService.ts:22-28 | A failed load leaves the slot empty, so the next call starts from scratch. |
| Classifier.InsertIsPermutation | services/classifierService.ts:40 | Inserting gives the same elements plus the new one. |
| Classifier.InsertKeepsOrder | services/classifierService.ts:40 | Inserting into a ranked list gives a ranked list. |
| Classifier.SortByProbability | services/classifierService.ts:40 | The sort of the predictions by descending probability, built by inserting each prediction after every one at least as probable. The lemmas below state its properties. |
| Classifier.SortIsOrderedPermutation | services/classifierService.ts:40 | The ranking is in non-increasing probability and is a permutation of its input. |
| Classifier.SortKeepsRankedList | services/classifierService.ts:40 | Ranking an already ranked list changes nothing, ties included. |
| Classifier.SortIsStable | services/classifierService.ts:40 | For every probability, the predictions with that probability appear in the ranking in the order the model gave them. |
| Classifier.SortedHeadIsFirstOfTies | services/classifierService.ts:40-50 | The first ranked prediction is the earliest, in the model's order, of the predictions with its probability. |
| Classifier.SortIsIdempotent | services/classifierService.ts:40 | Ranking twice is ranking once. |
| Classifier.SortedHeadIsMaximum | services/classifierService.ts:40 | The first ranked prediction is one of the inputs, and no input is more probable. |
| Classifier.InsertInPlace | services/classifierService.ts:40 | One pass of the in-place sort turns `a[..i+1]` into the insertion of the old `a[i]` into the old `a[..i]`. Later cells are unchanged. |
| Classifier.SortInPlace | services/classifierService.ts:40 | The array ends as `SortByProbability` of its old contents, which the lemmas above show is ordered, a permutation and stable. |
| Classifier.GetTopPrediction | services/classifierService.ts:47-50 | Gives nothing exactly for an empty list. Otherwise it gives the first prediction, so on a ranked list a most probable one. |
| Classifier.PredictOutcome | services/classifierService.ts:31-45 | A load error propagates unchanged. A throwing `predict` gives "Oops! Couldn't recognize that image.". Success happens exactly when the load succeeds and `predict` answers. |
| Classifier.PredictionsAreRanked | services/classifierService.ts:37-40 | A successful prediction returns the model's predictions reordered by non-increasing probability. |
| Classifier.ClassifierService.constructor | services/classifierService.ts:6 | The model slot starts empty. |
| Classifier.ClassifierService.LoadModel | services/classifierService.ts:11-29 | The new slot is `ModelAfterLoad` of the old one, and the outcome is `LoadResult`. |
| Classifier.ClassifierService.PredictImage | services/classifierService.ts:31-45 | It loads on demand, leaving the slot as `ModelAfterLoad` says. It returns `PredictOutcome`, with the predictions sorted in place in an array. |
| Gemini.Prompt | services/geminiService.ts:8-21 | The prompt contains the landmark's label. |
| Gemini.BuildRequest | services/geminiService.ts:23-43 | The request names model "gemini-3-flash-preview", JSON output, the fixed schema and the label it was built for. |
| Gemini.RequestMentionsLandmark | services/geminiService.ts:8-25 | The contents sent for a landmark mention that landmark. |
| Gemini.SchemaRequiresExactlyLandmarkFields | services/geminiService.ts:28-41 | The schema describes exactly the five `LandmarkData` fields and no other property, and requires every one of them, each once. `funFacts` is an array of strings and the rest are strings. |
| Gemini.Fallback | services/geminiService.ts:55-61 | The fallback record echoes the label as its name. It has three non-empty fun facts and non-empty history, architecture and visit info. |
| Gemini.FetchLandmarkDetails | services/geminiService.ts:4-63 | The call throwing or answering with no or empty text gives the fallback. Otherwise the result is the parsed answer, or the fallback when parsing fails. It never fails. |
| Gemini.ForeignNameComesFromParsedAnswer | services/geminiService.ts:45-61 | A result whose name differs from the label came from a non-empty answer that parsed to exactly that record. |
| Uploader.MediaStreamTrack.Stop | components/ImageUploader.tsx:48 | Stopping a track ends it. |
| Uploader.StopTracks | components/ImageUploader.tsx:20 | Every track of the stream is ended. |
| Uploader.Stopped | components/ImageUploader.tsx:46-52 | The view `stopCamera` leaves: no stream and the camera closed, with the error unchanged. |
| Uploader.StopIsIdempotent | components/ImageUploader.tsx:46-52 | Stopping twice is stopping once. It drops the stream, closes the view and keeps the error. |
| Uploader.ImageUploader.constructor | components/ImageUploader.tsx:12-14 | The camera starts closed, with no stream and no error. |
| Uploader.ImageUploader.StartCamera | components/ImageUploader.tsx:32-44 | The error is cleared. A granted stream opens the camera view with it. A refusal leaves the view closed with the camera-permission message. |
| Uploader.ImageUploader.StopCamera | components/ImageUploader.tsx:46-52 | Every track of the old stream is ended, the stream is dropped and the view closed. The error and the input are kept. |
| Uploader.ImageUploader.Unmount | components/ImageUploader.tsx:17-23 | On unmount every track of the held stream is ended. |
| Uploader.ImageUploader.CapturePhoto | components/ImageUploader.tsx:54-78 | With video, canvas, 2-D context and blob all present, it emits one file "captured_photo.jpg" of type "image/jpeg" holding the blob and stops the camera. Otherwise it emits nothing and changes nothing. |
| Uploader.ImageUploader.HandleFileChange | components/ImageUploader.tsx:80-86 | It emits a file exactly when the list is non-empty, and then the first file. The input is always cleared. |
| App.ErrorText | App.tsx:56 | The shown message is never empty. It is the error's message, or "Something went wrong!" when that is empty. |
| App.ConfidenceGate | App.tsx:39-44 | A prediction is accepted exactly when it exists with probability at least 0.6, and it is then returned. A rejection carries the get-closer message. |
| App.GateBoundary | App.tsx:41 | Probability 0.6 passes, anything below fails, and no prediction fails. |
| App.Step | App.tsx:21-66 | The screen changes the `setAppState` calls make: HOME to ANALYZING_IMAGE or ERROR, ANALYZING_IMAGE to FETCHING_INFO or ERROR, FETCHING_INFO only to RESULT, and RESULT or ERROR back to HOME. |
| App.LegalTraceAppend | App.tsx:21-66 | Joining legal screen traces at a shared screen gives a legal trace. |
| App.Pipeline | App.tsx:21-59 | One run of `handleImageSelected` from HOME: the final screen, the screens visited and the model slot left behind. The lemmas below state what a run does. |
| App.PipelineIsLegal | App.tsx:21-59 | Every run moves from HOME through legal steps and ends on its last screen. RESULT always has the image and a record to show. ERROR always has a non-empty message. |
| App.ImageShownBeforeClassifying | App.tsx:23-26 | Once the object URL exists, the run shows ANALYZING_IMAGE first and keeps that URL on screen. |
| App.AcceptedRunReachesResult | App.tsx:48-52 | A run that reaches FETCHING_INFO ends on RESULT, never on ERROR, with the enrichment's record. |
| App.ClassifierErrorsAreShown | App.tsx:37-58 | A classifier failure ends on ERROR showing the classifier's own message, one of its three messages. |
| App.ResultIffConfident | App.tsx:37-52 | When the classifier answers, the run reaches RESULT exactly when some prediction has probability at least 0.6. The record shown is then the enrichment of a most probable label, the earliest such in the model's order. Otherwise the run ends on ERROR with the get-closer message. |
| App.Reset | App.tsx:61-66 | A reset lands on HOME with no image, record or message. |
| App.ResetIsIdempotent | App.tsx:61-66 | Resetting twice is resetting once. |
| App.App.constructor | App.tsx:11-14 | The app starts on the empty HOME screen with an empty model slot. |
| App.App.SetAppState | App.tsx:26 | A legal screen change is appended to the trace, which stays legal. |
| App.App.ShowError | App.tsx:54-58 | The catch block shows the error's text (`ErrorText`) on ERROR and keeps the app valid. |
| App.App.PreloadModel | App.tsx:17-19 | The mount-time preload leaves the model slot as one `loadModel` does, and no screen changes. |
| App.App.HandleImageSelected | App.tsx:21-59 | From HOME, the new screen, the screens appended to the trace and the model slot are exactly those `Pipeline` gives, and the app stays valid. |
| App.App.Enrich | App.tsx:48-52 | Shows FETCHING_INFO, then RESULT with `fetchLandmarkDetails` of the accepted label. |
| App.App.HandleReset | App.tsx:61-66 | From RESULT or ERROR, the screen becomes `Reset` of the old one, HOME is appended to the trace, and the app stays valid. |
| App.ScenarioConfidentAnswer | App.tsx:21-59 | A 0.92 "Eiffel Tower" prediction and a parsable answer reach RESULT with the parsed record. |
| App.ScenarioLowConfidence | App.tsx:39-44 | A 0.31 prediction ends on ERROR with the get-closer message. |
| App.ScenarioEnrichmentFails | App.tsx:48-52 | A throwing enrichment call still reaches RESULT with the fallback record for the label. |

## Left out

- Rendering: the JSX, the loading screens, the header and the tabbed details view.
  The `RESULT && landmarkData && selectedImageSrc` render guard appears only as `ShowsDetails`, which `Valid()` keeps.
- Asynchrony: each handler runs as a sequence of steps, and the model assumes that no other event runs while a handler waits at an `await`.
  So two overlapping runs are not modelled. Neither is a stale result applied after a reset, which the code does not guard against.
- Classifier.ClassifierService.LoadModel: overlapping calls each load. The slot is checked only when a call starts, so a `predictImage` that starts while the mount-time preload still waits on `tmImage.load` starts a second load, and the later load overwrites the first. The model runs each load to completion before the next call starts.
- The image decode: `onload` is the boolean `imageLoads`. The code has no `onerror`, so a decode failure is a run that stays on ANALYZING_IMAGE.
- Revocation of object URLs: the code never revokes them.
- Numbers: probabilities are reals, not IEEE doubles. NaN probabilities and the rounding of the logged percentage are not modelled.
- Logging: `console.log` and `console.error` calls are left out.
- The API key: reading it from the environment is left out.
- `getTopPrediction`'s check for a null list: the model always passes a sequence.
- Gemini.FetchLandmarkDetails: `JSON.parse(text) as LandmarkData` is an unchecked cast. `parse` returns a whole `LandmarkData` or `None`, so JSON that parses to another shape is not modelled.
  That costs a case: the text `null` parses to `null` without throwing. In the code, the run would then reach RESULT with `landmarkData` null. The render guard at App.tsx:93 would show nothing, and RESULT hides the header (App.tsx:78), so no reset button would appear.
  `ShowsDetails` on RESULT, kept by `Valid()` and stated by `PipelineIsLegal`, holds only because of this assumption. The assumption is reasonable because the request's response schema asks for an OBJECT.
- Gemini.Request: a request records the label, and its `contents` is `Contents(request)`, the prompt for that label. The prompt text itself is kept exactly.
- Uploader.ImageUploader.CapturePhoto: the file is returned to the caller rather than passed to `onImageSelected` before `stopCamera`.
  The canvas sizing and `drawImage` are left out.
  The asynchronous `toBlob` callback is taken to run before any other event.
- Uploader.ImageUploader.Unmount: the effect that attaches the stream to the video element is left out.
  So is the stream effect's clean-up on every stream change, which stops an already dropped stream's tracks once more; `Stop` is idempotent.
- Uploader.ImageUploader.StartCamera: the `facingMode` constraint of `getUserMedia` is left out.
  Its precondition, a closed camera view, is where the UI offers the "Open Camera" button. Likewise `CapturePhoto` requires an open view, `HandleImageSelected` requires HOME and `HandleReset` requires RESULT or ERROR.
- Classifier.SortInPlace: the JavaScript engine's sort algorithm is not modelled. The model uses an insertion sort, proved stable by `SortIsStable`; `Array.prototype.sort` is stable as well.
