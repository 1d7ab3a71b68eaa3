# Live Turkish Sign Language recognition: a Dafny model

The system is a browser client and a small HTTP server. The client opens the webcam and
is meant to encode a frame as a JPEG data URL and post it to the server once a second; as
written, its timer ticks return before posting (see "Left out"). It shows the
prediction that comes back and keeps a short history of the recognised signs. The server
strips the data-URL prefix and decodes the base64 payload. It checks that the bytes form an
image, then answers with a mock classification: a gloss from the Turkish Sign Language (TID)
word list or the `no_sign_detected` sentinel, a confidence and a ten-digit timestamp.

The model has these modules:

- `Envelope`: the prediction response body and the sentinel gloss.
- `History`: the client's history update, `[prediction, ...prev].slice(0, 10)`, guarded by
  "present and not the sentinel". It holds the lemmas about long runs of predictions: the
  invariant, the newest-first reference description and the twelve-prediction scenario.
- `AppState`: the top-level component as a class. Its fields are the current prediction, the
  history and the connected flag. It has the health probe and the prediction handler.
- `Webcam`: the capture component as a class. It holds the camera stream, the capturing flag,
  the error text and the interval reference. It models the browser's interval table and the
  stream's tracks, which are stopped one by one. It has start, stop, one timer tick, the
  unmount cleanup and the button that is rendered.
- `PyText`: the pieces of Python the server relies on, with their inverses. These are
  substring `in`, `str.split(",")` with `join`, and `str(int)` with its parse.
- `Backend`: the server's endpoints as functions. They cover `mock_predict`, both
  prediction endpoints with the exceptions they raise and the status codes these become,
  `/health` and `/glosses`. The random draws, the base64 decoder and the image check are
  parameters.
- `Pipeline`: how client and server fit together. It covers what the client sees of a server
  answer, the payload of a JPEG data URL and the glosses that can reach the history.

Python's `str()` of an `HTTPException` is taken to be `"<status>: <detail>"`, the form the
web framework gives it. The framework is not part of this model.

## Model

| member | source | states |
|---|---|---|
| History.Take | frontend/src/App.jsx:35 | `slice(0, n)` keeps the first `min(n, length)` elements, in order |
| History.Record | frontend/src/App.jsx:33-37 | a present, non-sentinel prediction goes in front of the previous first nine entries; null or the sentinel leaves the history as it was |
| History.Push | frontend/src/App.jsx:34-37 | the new prediction is first, the previous entries follow shifted by one, and the length is one more, capped at ten |
| History.RecordPreservesInvariant | frontend/src/App.jsx:32-38 | one handled prediction keeps the history at most ten long and free of the sentinel; a null or sentinel prediction leaves it unchanged |
| History.ReplayPreservesInvariant | frontend/src/App.jsx:29-39 | any sequence of handled predictions keeps the bound of ten and the absence of the sentinel |
| History.ReplayIsNewestFirst | frontend/src/App.jsx:29-39 | after any sequence of predictions the history equals the recordable ones, newest first, followed by the old history, cut to ten |
| History.NewestTenKept | frontend/src/App.jsx:33-37 | recording only valid predictions from empty keeps the newest ten, newest first; the oldest are dropped |
| History.TwelveLeaveNewestTen | frontend/src/App.jsx:35 | twelve valid predictions P1..P12 leave exactly P12 down to P3 |
| History.SentinelIsNotRecorded | frontend/src/App.jsx:33 | a recognised sign followed by a "no sign" frame leaves only the recognised sign in the history |
| AppState.App.constructor | frontend/src/App.jsx:7-9 | the store starts with no current prediction, an empty history and the disconnected flag |
| AppState.IsOk | frontend/src/App.jsx:19 | `response.ok` holds exactly when the probe got an answer whose status is in the 2xx class |
| AppState.App.CheckBackendConnection | frontend/src/App.jsx:16-27 | the connected flag becomes true exactly when the health probe resolved with a 2xx status; a bad status or a thrown request clears it |
| AppState.App.HandlePrediction | frontend/src/App.jsx:29-39 | every prediction becomes current; only a present, non-sentinel one is put first in the history, which keeps its previous first nine entries after it; the store invariant is preserved |
| Webcam.StopAllTracks | frontend/src/components/WebcamCapture.jsx:48 | every track of the stream is stopped |
| Webcam.IntervalTable.SetInterval | frontend/src/components/WebcamCapture.jsx:104 | a fresh, truthy id is returned and its interval joins the running ones |
| Webcam.IntervalTable.ClearInterval | frontend/src/components/WebcamCapture.jsx:100 | the interval with that id no longer runs and the others are untouched |
| Webcam.AtMostOneInterval | frontend/src/components/WebcamCapture.jsx:98-105 | when every running interval is the referenced one, at most one interval runs |
| Webcam.OneIntervalRuns | frontend/src/components/WebcamCapture.jsx:98-105 | while the component's invariant holds, at most one polling interval runs, and none while the component is idle |
| Webcam.WebcamCapture.constructor | frontend/src/components/WebcamCapture.jsx:7-10 | a mounted component is idle, has no error, stream or interval, and has emitted nothing |
| Webcam.WebcamCapture.Shown | frontend/src/components/WebcamCapture.jsx:134-151 | the stop button is shown exactly while capturing; the start button is enabled exactly when the backend is connected |
| Webcam.WebcamCapture.StartPrediction | frontend/src/components/WebcamCapture.jsx:98-105 | the referenced interval is cleared and a new one installed, so exactly one interval, the new one, runs afterwards |
| Webcam.WebcamCapture.StartWebcam | frontend/src/components/WebcamCapture.jsx:24-44 | a granted camera is stored, capturing starts, the error is cleared and one fresh interval runs; a refused camera sets the fixed message and changes nothing else |
| Webcam.WebcamCapture.StopWebcam | frontend/src/components/WebcamCapture.jsx:46-56 | all tracks are stopped, the stream is dropped, no interval runs, capturing stops and `null` is passed to the store once, which clears the current prediction and keeps the history |
| Webcam.WebcamCapture.SendFrameForPrediction | frontend/src/components/WebcamCapture.jsx:73-96 | a frame is posted only when the tick sees connected and capturing and the frame is a non-empty string; only a successful reply reaches the store, and a failed request changes nothing |
| Webcam.WebcamCapture.Unmount | frontend/src/components/WebcamCapture.jsx:12-22 | the cleanup stops every track of a held stream and leaves no interval running |
| Webcam.WebcamCapture.PressButton | frontend/src/components/WebcamCapture.jsx:133-151 | a disabled start button changes nothing; an enabled one behaves as `startWebcam` (emits nothing; a granted camera runs one fresh interval, a refused one keeps the reference and the running intervals); the stop button behaves as `stopWebcam` (keeps the error, the reference and the connected flag); with the camera request taken as one step, starting while capturing or while disconnected is impossible |
| PyText.ContainsIsSubstring | backend/main.py:102 | the modelled `in` holds exactly when the pattern occurs at some position |
| PyText.Split | backend/main.py:103 | the first piece runs up to the first separator, and a second piece exists exactly when a separator does |
| PyText.SplitPiecesLackSeparator | backend/main.py:103 | no piece of a split contains the separator |
| PyText.JoinSplit | backend/main.py:103 | joining the pieces of a split with the separator gives back the string |
| PyText.SplitJoin | backend/main.py:103 | splitting the join of separator-free pieces gives back the pieces |
| PyText.Decimal | backend/main.py:119 | `str(n)` is a non-empty digit string with no leading zero unless `n` is zero |
| PyText.DecimalRoundTrip | backend/main.py:119 | parsing `str(n)` gives back `n` |
| PyText.DecimalLength | backend/main.py:119 | a number in `[10^(k-1), 10^k)` prints with exactly `k` digits |
| Backend.SentinelIsNotAGloss | backend/main.py:23-28 | the gloss list has 29 entries and does not contain the sentinel |
| Backend.MockPredict | backend/main.py:30-40 | the sentinel with confidence 0.1 exactly when the roll is below 0.3, otherwise a listed gloss with a confidence in [0.4, 0.95] |
| Backend.TimestampText | backend/main.py:119 | the timestamp is ten digits that read back as the drawn number |
| Backend.Recognize | backend/main.py:108-120 | success exactly when the image check passes; a refused image raises 400 "Invalid image data"; a success is a well-formed body |
| Backend.Truthy | backend/main.py:98 | a JSON value is falsy exactly when it is null, false, 0, 0.0, "", [] or {} |
| Backend.ImageField | backend/main.py:97 | the `image` field when the request has one, otherwise the falsy empty string |
| Backend.Describe | backend/main.py:123 | `str(e)`: an HTTP exception prints as its status in decimal (which reads back as the status), ": " and its detail; an index error as "list index out of range"; any other exception as its message |
| Backend.NonTextFailure | backend/main.py:102-106 | a truthy non-string image raises a TypeError or AttributeError: a list or dict holding "data:image" has no `split`; any other list or dict is refused by the decoder; a scalar is "argument of type '<t>' is not iterable" |
| Backend.NonTextMessages | backend/main.py:102-123 | `{"image": ["data:image"]}` is answered 500 "Prediction error: 'list' object has no attribute 'split'" and `{"image": 5}` 500 "Prediction error: argument of type 'int' is not iterable" |
| Backend.StripDataUrl | backend/main.py:101-103 | a string without "data:image" is kept; with it, the text between the first and second comma is taken, and no comma raises an index error |
| Backend.HandleBase64 | backend/main.py:96-120 | a missing or falsy image raises 400 "No image data provided"; whatever is returned is a well-formed body |
| Backend.ToResponse | backend/main.py:122-123 | as written, every raised exception, a 400 included, becomes a 500 whose detail is the error prefix and the exception's text |
| Backend.ToResponseIntended | backend/main.py:122-123 | the corrected mapping keeps the status and detail of an HTTP exception and turns only other exceptions into a 500 |
| Backend.PredictBase64 | backend/main.py:92-123 | as written: every error is a 500 with the prefix; success exactly when the image is a non-empty string whose payload strips, decodes and passes the image check; success is well-formed |
| Backend.PredictBase64Intended | backend/main.py:97-99 | with the corrected mapping a missing image is answered 400 "No image data provided", and every successful answer is the same as the written handler's |
| Backend.PredictUpload | backend/main.py:68-90 | success exactly when the uploaded bytes pass the image check; a refused image is answered 500 "Prediction error: 400: Invalid image data" |
| Backend.BadRequestText | backend/main.py:123 | the text of a 400 exception is "400: " followed by its detail |
| Backend.MissingImageIs500 | backend/main.py:97-123 | a request without an image, or with a null one, is answered 500 "Prediction error: 400: No image data provided" |
| Backend.MissingImageIs400Intended | backend/main.py:97-99 | with the corrected mapping the same requests are answered 400 "No image data provided" |
| Backend.HealthCheck | backend/main.py:64-66 | the health endpoint always reports healthy with the model loaded |
| Backend.AvailableGlosses | backend/main.py:125-128 | the glosses endpoint returns a body whose `glosses` field is the classifier's gloss list itself, in order: 29 glosses, not the sentinel, and every non-sentinel classification is among them |
| Pipeline.ClientView | frontend/src/components/WebcamCapture.jsx:80-95 | the client gets a body exactly when the server answered 2xx, and the body is the server's |
| Pipeline.CorrectionIsInvisibleToClient | frontend/src/components/WebcamCapture.jsx:92-95 | the client cannot tell the written error mapping from the corrected one, because every error status makes the request throw |
| Pipeline.FramePayload | backend/main.py:101-103 | for a JPEG data URL whose base64 text has no comma, the payload handed to the decoder is exactly that text |
| Pipeline.ServedPredictionsKeepHistoryListed | frontend/src/components/WebcamCapture.jsx:89-91 | a successful server answer passed to the store keeps every history entry a listed gloss |

## Left out

- HTTP transport, CORS and JSON encoding are not modelled. A request is a map from field
  names to JSON values, and a response is a `Result` of a body or a status and detail.
- Camera access is a parameter, and so are the canvas encoding of a frame and the
  frame-capture refs. `captureFrame` is the optional frame passed to a tick. A frame taken
  before the video has dimensions is still a data URL: the code returns no frame only when
  a ref is missing, and the model follows the code.
- Timing is not modelled: the one-second period, the five-second request timeout and the
  order in which replies arrive. A tick is one atomic step. A reply that arrives after stop
  is a tick whose flags say capturing, and its effect on the store is what the contract of
  `SendFrameForPrediction` states.
- React closures and re-rendering are not modelled. The flags a tick reads are explicit
  parameters. The interval installed by `startWebcam` holds the render in which capturing
  was still false, so its ticks post nothing. The model does not claim that frames flow
  after start. The `[stream]` effect's cleanup, which also runs on re-render, is modelled
  only as `Unmount`. That cleanup reads the interval reference, so on the re-render after a
  granted start it can clear the interval just installed. `StartWebcam`'s "one fresh
  interval runs" describes the state at the end of the call.
- Webcam.WebcamCapture.PressButton: the await on the camera request in `startWebcam` is
  modelled as atomic. The start button stays enabled while that request is pending, and a
  second click then issues a second camera request. The model does not capture that case.
- `stopWebcam` does not reset the interval reference. The model keeps the cleared id, as
  the code does.
- The root endpoint `/` returns a fixed message and nothing reads it.
- `round(confidence, 3)` and floating point are not modelled: confidences are exact reals.
- The base64 decoder and the PIL image check are opaque function parameters. Only how
  their outcomes are mapped to responses is modelled.
- The random draws of `mock_predict` and the timestamp are a `Draws` value whose ranges are
  those of `randint`, `uniform` and `random`. Their distribution is not modelled.
- The text of a decoder exception is a parameter, not Python's message.
- The display components `PredictionDisplay` and `Header` only render the store and call
  `checkBackendConnection`. They are not part of this model.
- Console logging and printing are not modelled.

## Findings

| source | as written | input that shows it | evidently intended | confidence | as-written member | corrected member |
|---|---|---|---|---|---|---|
| backend/main.py:122-123 | the blanket `except Exception` also catches the `HTTPException(400, ...)` raised inside the `try`, so every rejection is answered 500 with detail "Prediction error: 400: ..." | a request body `{}` to `/predict-base64` | answer 400 "No image data provided", as raised at line 99 | not executed | Backend.MissingImageIs500 | Backend.MissingImageIs400Intended |
