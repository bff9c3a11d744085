# Biodiversity upload client: stage classification, file picking, upload and status polling

This project models the logic inside a single-page web client. The client uploads
ecological observation datasets, polls an analysis backend for the job's status and
moves on to a report. The model has four parts:

- **Processing steps** (`processing_steps.dfy`). This is the four-stage progress
  indicator. Each stage (uploading, processing, analyzing, completed) is classified as
  completed, current, error or upcoming. The classification compares the stage's
  position in a fixed list with the position of the job's status tag, and both
  positions come from a `findIndex` lookup. The module also has the two
  conditions that show the percentage and the step text.
- **File picker** (`file_uploader.dfy`). A class holds the selected file and the
  drag-hover flag. A file is accepted when its size is at most `maxSize` MiB; the
  default is 50. An accepted file is stored and reported to the owner through its
  `onFileSelect` callback. A refused file changes nothing.
- **Upload page** (`upload_page.dfy`). A class holds the selected file, the loading
  flag, the error message, the analysis options, the route navigated to, and a log
  of upload calls. The submit handler is split at its `await`: `StartUpload` runs
  before the call, and `FinishUpload` runs after it returns or throws.
- **Processing page** (`processing_page.dfy`). A class holds the stored status, the
  error, the route, the status requests issued and the repeating timer. Each answer
  is applied by `Resolve`. Its effect is the pure function `React`. `Replay` folds
  `React` over a sequence of answers. `SelectView` chooses between the error screen,
  the loading screen and the progress screen.

`types.dfy` holds the records exchanged with the backend: `Status`,
`ProcessingStatus`, `UploadResponse` and the chosen file, which is a name and a byte
size. `wrappers.dfy` holds `Option`.

Choices made by the model:

- Navigation is a `route` field. The backend calls are logs: `sent` on the upload
  page, `fetches` with a `pending` count on the processing page. Call results are
  parameters (`UploadOutcome`, `PollOutcome`).
- The confidence threshold is counted in tenths (5..10). The slider has min 0.5,
  max 1 and step 0.1.
- The timer is cleared only in the effect's cleanup (src/pages/Processing.tsx:39).
  A `completed` answer navigates to `/report/{jobId}`. That route shows a different
  page (src/App.tsx:19-20), so the processing page goes away and its cleanup clears
  the timer. `Resolve` therefore turns the timer off on `completed`. An `error`
  answer or a failed request does not clear the timer, so `Tick` stays enabled after
  them and polling goes on.
- The `'error'` branch at src/components/Processingsteps.tsx:22 never fires for a
  drawn stage. `findIndex` finds no stage keyed `error` and returns -1, so under an
  `error` status every stage is drawn upcoming (`ProcessingSteps.FailedJob`,
  `ProcessingSteps.ErrorNeverDrawn`).
- Navigation after a completed status goes to the report of the route's job id, not
  to the `jobId` field of the answer.
- Once an error is shown on the processing page it is never cleared. Later successful
  answers still update the stored status, but the error screen stays.

## Model

| member | source | states |
|---|---|---|
| ProcessingSteps.StageOrder | src/components/Processingsteps.tsx:10-15 | there are exactly four stages, keyed uploading, processing, analyzing, completed in that order; the keys are distinct and none is "error" |
| ProcessingSteps.FindIndex | src/components/Processingsteps.tsx:18-19 | the lookup returns the first position holding the key, and -1 exactly when no stage has it |
| ProcessingSteps.GetStepStatus | src/components/Processingsteps.tsx:17-24 | the `error` classification needs an `error` status and a key that is no stage's key |
| ProcessingSteps.StageKeyPosition | src/components/Processingsteps.tsx:18 | looking up stage i's own key gives i |
| ProcessingSteps.StatusKeyPosition | src/components/Processingsteps.tsx:19 | looking up a status tag gives its stage position, and -1 for `error` |
| ProcessingSteps.Classification | src/components/Processingsteps.tsx:17-24 | each drawn stage is classified as the reference says: earlier stages completed, the status's stage current, later stages upcoming, and every stage upcoming under `error` |
| ProcessingSteps.RenderMatchesExpected | src/components/Processingsteps.tsx:29-30 | the drawn indicator has four entries, each matching the reference classification |
| ProcessingSteps.CompletedIffStatusLater | src/components/Processingsteps.tsx:18-21 | a stage is completed exactly when the status tag is the key of a later stage |
| ProcessingSteps.ExactlyOneCurrent | src/components/Processingsteps.tsx:22 | for a non-error status, a stage is current exactly when its key is the status tag; some stage is current and no two are |
| ProcessingSteps.PrefixAndSuffix | src/components/Processingsteps.tsx:21-23 | completed stages form a prefix, upcoming stages form a suffix, and every stage after the current one is upcoming |
| ProcessingSteps.CompletedJob | src/components/Processingsteps.tsx:14-22 | a completed job draws completed, completed, completed, current |
| ProcessingSteps.FailedJob | src/components/Processingsteps.tsx:19-23 | an error job draws four upcoming stages and never the `error` classification |
| ProcessingSteps.ErrorNeverDrawn | src/components/Processingsteps.tsx:22 | under any status no drawn stage is classified `error` |
| ProcessingSteps.PercentageShownAtCurrentOnly | src/components/Processingsteps.tsx:74 | the percentage is shown at stage i exactly when the status is not `error`, progress is positive and i is the status's stage |
| ProcessingSteps.StepTextShownAtCurrentOnly | src/components/Processingsteps.tsx:83 | the step text is shown at stage i exactly when the status is not `error`, the text is non-empty and i is the status's stage |
| FileUploader.AcceptanceMonotone | src/components/FileUploader.tsx:19 | the size test `WithinLimit` is monotone: a file no larger than an accepted one is accepted, a file accepted under one ceiling is accepted under any higher one, and every file the default 50 MB ceiling accepts the 100 MB ceiling accepts too |
| FileUploader.AcceptanceBoundary | src/components/FileUploader.tsx:19 | a zero-byte file and a file exactly at the ceiling are accepted, and one byte more is refused (the test is a strict `>`) |
| FileUploader.Uploader.constructor | src/components/FileUploader.tsx:10-16 | the ceiling defaults to 50 MB; the picker starts with no file, no hover and nothing reported |
| FileUploader.Uploader.HandleFile | src/components/FileUploader.tsx:18-25 | a file within the ceiling (`WithinLimit`: at most `maxSize` × 1048576 bytes, line 19) is stored and reported exactly once; a larger one leaves the file and the reports unchanged; the stored file stays the last one reported |
| FileUploader.Uploader.HandleDrop | src/components/FileUploader.tsx:27-35 | a drop clears the hover flag; only the first dropped file is handled; an empty drop changes nothing else |
| FileUploader.Uploader.HandleDragOver | src/components/FileUploader.tsx:37-40 | drag-over sets the hover flag, touches nothing else and keeps the picker's invariant |
| FileUploader.Uploader.HandleDragLeave | src/components/FileUploader.tsx:42-45 | drag-leave clears the hover flag, touches nothing else and keeps the picker's invariant |
| FileUploader.Uploader.HandleInputChange | src/components/FileUploader.tsx:47-52 | an absent or empty file list changes nothing; otherwise only the first file is handled |
| FileUploader.Uploader.RemoveFile | src/components/FileUploader.tsx:54-56 | the selection is cleared and nothing is reported to the owner |
| UploadPage.ChangeConfig | src/pages/Upload.tsx:26-31 | the changed option takes the new value, every other option keeps its value, and the threshold stays within the slider's range |
| UploadPage.ChangeConfigLastWins | src/pages/Upload.tsx:26-31 | changing one option twice keeps only the second value |
| UploadPage.ChangeConfigCommutes | src/pages/Upload.tsx:26-31 | changes to two different options give the same result in either order |
| UploadPage.DefaultConfigValues | src/pages/Upload.tsx:14-19 | by default all three flags are on and the threshold is 0.8, inside the slider's range 0.5..1 |
| UploadPage.Page.constructor | src/pages/Upload.tsx:11-19 | the page starts with no file, not loading, no error, the default options and no navigation or upload call; its picker is new, has the 100 MB ceiling of line 70, and holds no file |
| UploadPage.Page.HandleFileSelect | src/pages/Upload.tsx:21-24 | the reported file is stored and the error is cleared |
| UploadPage.Page.HandleConfigChange | src/pages/Upload.tsx:26-31 | the options become `ChangeConfig` of the old options, and the threshold stays in range |
| UploadPage.Page.StartUpload | src/pages/Upload.tsx:33-43 | with no file, the error becomes "Please select a file to upload" and no call is made; otherwise loading is on, the error is cleared, the submit button is disabled (`ButtonDisabled`, line 167) and exactly one call is made with the current file and options |
| UploadPage.Page.FinishUpload | src/pages/Upload.tsx:43-49 | success navigates to /processing/{jobId} of the response; failure keeps the route and shows `FailureMessage` of the thrown value (line 46: an `Error`'s own message, otherwise "Upload failed"); loading ends either way, and the submit button (`ButtonDisabled`, line 167) is then disabled exactly when there is no file |
| UploadPage.Page.HandleUpload | src/pages/Upload.tsx:33-50 | the whole handler: no file means an error and no call or navigation; otherwise one call with the file and options, then navigation or the failure message, then loading off |
| ProcessingPage.React | src/pages/Processing.tsx:17-31 | a fetched status is always stored; a failed request keeps the old status, sets the error to "Failed to fetch status updates" and keeps the route; an `error` answer sets the error to "Analysis failed. Please try again." and keeps the route; a `completed` answer navigates to /report/{jobId} of the route and keeps the error; nothing else navigates; an error is never cleared; a job still under way changes only the status |
| ProcessingPage.ReplayErrorIsLastFailure | src/pages/Processing.tsx:24-28 | after a run of answers, the error shown is the message of the last failing answer, or the starting error if no answer failed |
| ProcessingPage.ReplayKeepsLastStatus | src/pages/Processing.tsx:19-20 | after a run of answers, the stored status is the one carried by the last successful answer, or the starting one if there was none |
| ProcessingPage.ReplayErrorIffSomeFailure | src/pages/Processing.tsx:24-28 | after a run of answers, an error is shown exactly when one was shown at the start or some answer failed |
| ProcessingPage.ReplayRoute | src/pages/Processing.tsx:22-23 | after a run of answers, the page is on /report/{jobId} if some answer was `completed`; with no `completed` answer the route is unchanged |
| ProcessingPage.ReplayRouteStays | src/pages/Processing.tsx:22-23 | once on the job's report route, later answers keep it there |
| ProcessingPage.JobIdLabel | src/pages/Processing.tsx:105 | the label is a prefix of the job id, with exactly eight characters for longer ids and the whole id for shorter ones |
| ProcessingPage.SelectView | src/pages/Processing.tsx:42-107 | the error screen shows exactly when the error is non-empty, with that error; otherwise the loading screen shows exactly when there is no status; otherwise the progress screen shows that status's stage indicator, its progress and `JobIdLabel` of its job id |
| ProcessingPage.FailureShowsErrorScreen | src/pages/Processing.tsx:24-28 | after any run of answers that includes a failure, the error screen is drawn |
| ProcessingPage.RunningJobShowsProgress | src/pages/Processing.tsx:20-26 | from a fresh page, answers that all report a job under way leave no error and no navigation, and they show the progress screen for the last answer |
| ProcessingPage.Page.constructor | src/pages/Processing.tsx:9-12 | the page starts with no status, no error, no navigation, no request and no timer |
| ProcessingPage.Page.Mount | src/pages/Processing.tsx:14-40 | without a usable job id (`HasJobId`, line 15: present and non-empty), no request is made and no timer is set up; otherwise exactly one immediate request for that id is made and the timer is set up |
| ProcessingPage.Page.Tick | src/pages/Processing.tsx:37 | each timer tick issues one more request for the route's job id, and the timer stays active |
| ProcessingPage.Page.Resolve | src/pages/Processing.tsx:17-31 | an answer to an outstanding request changes the page state as `React` says; a `completed` answer leaves the page, so its cleanup clears the timer; any other answer leaves the timer as it was; a failing answer makes the page draw the error screen with that answer's message |
| ProcessingPage.Page.Teardown | src/pages/Processing.tsx:39 | cleanup clears the timer, so no tick can happen afterwards |

## Left out

- The HTTP client (src/services/api.ts) is not part of this model. It does multipart
  encoding, JSON encoding of the options and error normalisation. Upload and status
  calls appear only as their outcomes. Because of this the model cannot state that
  the options are sent byte-identical after JSON encoding. It states only that the
  call receives the current options record (`UploadPage.Page.StartUpload`).
- The mock backend (src/services/mockApi.ts) is not part of this model. It uses
  randomness, the clock and timers.
- Timer timing is not modelled. The 2000 ms period is not modelled, and ticks are
  not ordered against answers. `Tick` may happen whenever the timer is active. Answers
  may arrive in any order after their requests, including after teardown.
- `alert` on a refused file and `console.error` on a failed request are not modelled.
  A refusal is modelled as no state change.
- Floating point is not modelled. The megabyte display `toFixed(2)` is left out, and
  the `parseFloat` of the slider value is replaced by integer tenths. `maxSize` is a
  whole number of megabytes. `progress` and `estimatedTime` are exact `real`s, so
  rounding in JavaScript number arithmetic is not modelled.
- ProcessingPage.JobIdLabel: it takes the first eight Dafny characters, which are
  Unicode scalar values. `String.prototype.slice` counts UTF-16 code units, so for
  an id containing characters outside the Basic Multilingual Plane the source cuts
  at a different place, and it may split a surrogate pair.
- After a `completed` answer the model clears the timer, but it still lets answers
  to requests already in flight arrive through `Resolve`. React ignores state updates
  on a page that is gone, and the model does not distinguish that case.
- FileUploader.Uploader.HandleFile: the size test (src/components/FileUploader.tsx:19)
  compares integer byte sizes. A
  fractional `maxSize`, or a size that is not a whole number, is not covered.
- The picker and the page are separate objects. The picker's `reported` log stands
  for calls to the page's `HandleFileSelect`. The page passes a 100 MB ceiling to the
  picker (src/pages/Upload.tsx:70, `UploadPage.PickerMaxSize`).
- The markup, styling, icons, the home page, the navigation bar, the card component,
  routing and the report page (src/pages/Home.tsx, src/components/Navbar.tsx,
  src/components/Card.tsx, src/App.tsx, src/pages/Report.tsx) have no logic to model.
- A status tag outside the five values in src/types.d.ts:38 is excluded by the
  `Status` type.
