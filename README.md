# Avatar Virtual Try-On Studio — a verified model of its client-side core

The application lets a user upload a photo, have a hosted image model turn it into a
full-body avatar in one of five styles, dress that avatar in up to four clothing images,
and keep the results they like in a gallery, newest first. This project models, in Dafny,
the part of it that is logic rather than presentation:

- **the data-URI codec** (`DataUri`): `fileToGenerativePart` accepts only
  `data:image/<letters>;base64,<payload>` (a narrow subset of the `data:` scheme of
  section 3 of RFC 2397) and splits it into media type and payload; `Format` is the
  `data:${mimeType};base64,${data}` string the service builds from a reply;
- **the generation client** (`GeminiService`): the style-to-template choice, the
  measurement summary, the order of the request parts, the scan of the reply for its first
  inline image, and the two exported operations. The hosted model is an opaque
  `Oracle`, a function from a request to a reply or a thrown exception;
- **the workflow controller** (`Workflow.App`): the page (`landing`, `avatar-generator`,
  `studio`), the studio tab, the active avatar and original photo, the gallery, and the
  self-healing guard that starts over when the studio is shown without both images;
- **the two forms** (`TryOnStudioForm.TryOnStudio`, `AvatarGeneratorForm.AvatarGenerator`):
  the clothing-image list capped at four, the try-on guard and outcome handling, save and
  clear, the stored-measurements initialiser, and the avatar form's submit guard and
  outcome handling.

Each React component is a class whose fields are its `useState` variables and whose
methods are its handlers. An `async` handler is split where it awaits: `BeginTryOn` /
`BeginSubmit` run the guard and switch loading on, the service call runs, and
`FinishTryOn` / `FinishSubmit` record the outcome and switch loading off; `TryOn` and
`Submit` are the whole handler. Thrown values are `Outcomes.Result` errors, and a form
shows `DisplayMessage` of them (`err.message`, or 'An unknown error occurred.').

Main results:

- `DataUri.ParseFormat` and `DataUri.ParseSound`: parsing and formatting are inverse on
  well-formed pairs, and `ParseRejectsOnlyMalformed` states that a string is rejected
  exactly when it is the data URI of no such pair.
- `GeminiService.ExtractImageIsFirst`: the first part carrying inline data wins, and only
  a reply without one fails with "AI did not return an image. Please try again.";
  `FirstInlineImage` is the source's early-return loop proved to compute it.
- `GeminiService.TryOnRequest`: avatar first, clothing in order, prompt last;
  `TryOnOutcome`: an unparsable image fails whatever the oracle would answer.
- `GeminiService.MeasurementTextInjective`: for values a number input can hold, the
  summary determines the form, so an empty field (shown as `not provided`) is never
  confused with an entered value.
- `Workflow.App`: every handler, as the application calls it, keeps `StudioReady` (the
  studio is shown only with both images), so in every state the handlers reach, `Render`
  never needs its guard. `AvatarGenerated` keeps it for the non-empty images the avatar
  form hands off, which `SubmitAvatarForm` relies on.
- `Workflow.App.SubmitAvatarForm`: end to end, a photo whose generation succeeds puts the
  application in the studio with the generated avatar and the original photo.

The code is followed where it and its design description differ: the avatar returned by
`generateAvatar` carries whatever media type the reply gives; the code does not check that
it is an image type (`SuccessIsFirstReplyImage` shows it re-parses when it is).

## Model

| member | source | states |
|---|---|---|
| `Outcomes.DisplayMessage` | components/TryOnStudio.tsx:118 | an `Error` shows its message; any other thrown value shows 'An unknown error occurred.' |
| `Types.StylesListedOnceWithDistinctNames` | types.ts:4-5 | each of the five styles is listed exactly once and no two styles share a name |
| `DataUri.LetterRun` | services/geminiService.ts:12 | the `[a-zA-Z]+` group: the longest prefix of letters, which is followed by a non-letter or the end |
| `DataUri.Format` | services/geminiService.ts:51 | the data URI is `data:`, then the media type, then `;base64,`, then the payload, each at its own position and nothing else |
| `DataUri.Parse` | services/geminiService.ts:11-24 | a string not of the accepted form throws "Invalid base64 string for image" |
| `DataUri.ParseSound` | services/geminiService.ts:16-23 | an accepted string is exactly `data:` + media type + `;base64,` + payload, the media type is `image/<letters>` and the payload has no line break |
| `DataUri.ParseFormat` | services/geminiService.ts:12 | round trip: formatting a pair with an `image/<letters>` type and a single-line payload, then parsing, gives the pair back |
| `DataUri.ParseRejectsOnlyMalformed` | services/geminiService.ts:12-15 | a string is rejected if and only if it is the data URI of no well-formed pair |
| `GeminiService.AvatarPrompt` | services/geminiService.ts:28-32 | the photoshoot template exactly for Hyperrealistic; every other style gets the stylized template naming that style |
| `GeminiService.AvatarPromptInjective` | services/geminiService.ts:28-32 | different styles give different prompts |
| `GeminiService.MeasurementText` | services/geminiService.ts:64 | height, weight, chest, waist and hips in that order, each after its caption and before its unit (kg for weight, cm otherwise), with `not provided` for an empty field |
| `GeminiService.MeasurementTextInjective` | services/geminiService.ts:64 | the summary of height, weight, chest, waist and hips with `not provided` for empty fields determines every field of the form, for field values a number input can hold |
| `GeminiService.AvatarRequest` | services/geminiService.ts:34-45 | the avatar request has the fixed model and modalities, and its parts are the photo then the prompt |
| `GeminiService.TryOnRequest` | services/geminiService.ts:90-102 | the try-on request has the avatar first, each clothing image at its own position after it, and the prompt with the measurement summary last |
| `GeminiService.ParseAll` | services/geminiService.ts:88 | all clothing images parsed in order, one part per image, or the invalid-image error if any fails |
| `GeminiService.ResponseParts` | services/geminiService.ts:104 | the parts list of the first candidate's content when the candidate, content and parts are all present; a non-empty result only then |
| `GeminiService.ExtractImage` | services/geminiService.ts:47-55 | a success is a `data:` URI; a failure is the no-image error |
| `GeminiService.ExtractImageIsFirst` | services/geminiService.ts:47-55 | the result is the data URI of the first part with inline data; with no such part it is the no-image error |
| `GeminiService.ExtractImageIgnoresLaterParts` | services/geminiService.ts:104-110 | parts after the first image do not change the result |
| `GeminiService.FirstInlineImage` | services/geminiService.ts:104-112 | the early-return loop over the parts computes `ExtractImage` |
| `GeminiService.HandleReply` | services/geminiService.ts:47 | a thrown remote call propagates unchanged; a success is a `data:` URI |
| `GeminiService.MissingPartsMeanNoImage` | services/geminiService.ts:104 | a reply without a first candidate, content or parts list fails with the no-image error |
| `GeminiService.AvatarOutcome` | services/geminiService.ts:26-56 | an unparsable photo fails with the invalid-image error whatever the oracle; otherwise the outcome is the reply to the photo-then-prompt request |
| `GeminiService.TryOnOutcome` | services/geminiService.ts:58-113 | an unparsable avatar or clothing image fails with the invalid-image error whatever the oracle; otherwise the outcome is the reply to the ordered try-on request |
| `GeminiService.SuccessIsFirstReplyImage` | services/geminiService.ts:104-110 | a success is the first inline image of the reply and parses back to it when its type is `image/<letters>` |
| `GeminiService.GenerateAvatar` | services/geminiService.ts:26-56 | the exported operation computes `AvatarOutcome` |
| `GeminiService.PerformTryOn` | services/geminiService.ts:58-113 | the exported operation computes `TryOnOutcome` |
| `Workflow.LoadedGallery` | App.tsx:20-28 | the stored gallery, or the empty list when none could be read |
| `Workflow.App.constructor` | App.tsx:15-28 | step landing, tab try-on, both images null, gallery as loaded |
| `Workflow.App.Start` | App.tsx:46-48 | the step becomes avatar-generator and nothing else changes |
| `Workflow.App.AvatarGenerated` | App.tsx:39-44 | both images stored, step studio, tab reset to try-on, gallery unchanged |
| `Workflow.App.StartOver` | App.tsx:50-55 | both images null, step landing, gallery unchanged |
| `Workflow.App.SaveToGallery` | App.tsx:57-61 | the new gallery is the result followed by the old one; its length grows by one |
| `Workflow.App.CreateNewAvatar` | App.tsx:86 | back to avatar-generator with the images kept |
| `Workflow.App.SwitchTab` | App.tsx:93-96 | only the tab changes (also the gallery's back action, App.tsx:108) |
| `Workflow.App.Render` | App.tsx:63-67 | landing for landing and every other step value, the avatar form, or the studio; the studio without both images starts over and shows nothing; never needed in a state the handlers reach (App.tsx:116-127) |
| `Workflow.App.SubmitAvatarForm` | App.tsx:121 | without a photo the form shows its error and nothing changes in the application; otherwise, when `generateAvatar` of the photo and style succeeds, the avatar and original are handed off and the application enters the studio on the try-on tab with both images present, and on failure the form shows the error; loading ends and the photo and style are kept |
| `Workflow.App.SaveFromStudio` | App.tsx:102-105 | the gallery gains the studio's current result at its head, or is unchanged without one; `StudioReady` is kept |
| `TryOnStudioForm.InitialMeasurements` | components/TryOnStudio.tsx:24-37 | a stored object with a `height` key is taken; anything else gives five empty fields |
| `TryOnStudioForm.WithoutIndex` | components/TryOnStudio.tsx:103 | filtering out index k shortens the list by one exactly when k is in range and keeps its length otherwise (what is removed is stated by `WithoutIndexRemovesOne`) |
| `TryOnStudioForm.WithoutIndexRemovesOne` | components/TryOnStudio.tsx:103 | filtering out index k deletes exactly that element, keeps the rest in order, and changes nothing for an index out of range |
| `TryOnStudioForm.TryOnStudio.constructor` | components/TryOnStudio.tsx:19-50 | no images, empty details, initial measurements, not loading, no error, no result |
| `TryOnStudioForm.TryOnStudio.SetMeasurement` | components/TryOnStudio.tsx:52-55 | only the named measurement changes |
| `TryOnStudioForm.TryOnStudio.SetDetail` | components/TryOnStudio.tsx:57-60 | only the named clothing detail changes |
| `TryOnStudioForm.TryOnStudio.AddFiles` | components/TryOnStudio.tsx:62-100 | full list: maximum message, list unchanged; otherwise the first free-slots files in order, limit message or cleared error, whole batch appended or none with the read-failure message; the list stays within four |
| `TryOnStudioForm.TryOnStudio.RemoveClothingImage` | components/TryOnStudio.tsx:102-104 | the element at the index is removed, the rest kept in order; out of range changes nothing |
| `TryOnStudioForm.TryOnStudio.BeginTryOn` | components/TryOnStudio.tsx:106-113 | without an image, height, weight, item type, fit or material the error is set and no call starts; otherwise loading on, error and result cleared |
| `TryOnStudioForm.TryOnStudio.FinishTryOn` | components/TryOnStudio.tsx:114-121 | the result or the displayed error is recorded; loading off in every case |
| `TryOnStudioForm.TryOnStudio.TryOn` | components/TryOnStudio.tsx:106-122 | the whole handler: the guard, or the outcome of `performTryOn` on the current form, sent with between one and four clothing images |
| `TryOnStudioForm.TryOnStudio.Save` | components/TryOnStudio.tsx:124-137 | nothing without a result; otherwise the record of the result, avatar, images, details and measurements |
| `TryOnStudioForm.TryOnStudio.Clear` | components/TryOnStudio.tsx:139-144 | images, details, result and error reset; measurements kept |
| `AvatarGeneratorForm.AvatarGenerator.constructor` | components/AvatarGenerator.tsx:14-18 | the style starts as the first avatar style, Hyperrealistic |
| `AvatarGeneratorForm.AvatarGenerator.SelectFile` | components/AvatarGenerator.tsx:20-30 | a chosen file is recorded and its data URL stored, or null after a read error |
| `AvatarGeneratorForm.AvatarGenerator.ChooseStyle` | components/AvatarGenerator.tsx:113 | only the style changes |
| `AvatarGeneratorForm.AvatarGenerator.BeginSubmit` | components/AvatarGenerator.tsx:33-38 | without a photo the error is "Please upload an image first." and nothing is sent; otherwise loading on and error cleared |
| `AvatarGeneratorForm.AvatarGenerator.FinishSubmit` | components/AvatarGenerator.tsx:39-46 | success hands off the avatar first and the original photo second; failure shows the error and hands off nothing; loading off either way |
| `AvatarGeneratorForm.AvatarGenerator.Submit` | components/AvatarGenerator.tsx:32-47 | the whole handler: the guard, or the outcome of `generateAvatar` on the photo and style |

## Left out

- The hosted model call and the API-key check at module load: the remote call is the
  `Oracle` parameter; the key check is configuration.
- The prompt prose: a prompt is modelled by its template and what it embeds (style name,
  measurement summary, clothing details).
- `FileReader` and promise plumbing: a batch of reads is given as its completed outcomes.
  Batches that overlap in time could take the list past four; the model completes one batch
  per call, as the disabled file input intends.
- `localStorage` and JSON: only the accept-or-default decisions are modelled
  (`LoadedGallery`, `InitialMeasurements`); writing back on every change is not. A stored
  gallery that parses to something other than a list, and measurement members that are not
  strings, are outside the model.
- `alert`, the download anchor, and the clock: `id` and `timestamp` are parameters of `Save`.
- Rendering details: the spinner, the disabled states of buttons and inputs, and the
  presentation-only components (landing page, header, gallery view, inputs, selects).
- The try-on form's lifetime: App mounts `TryOnStudio` only while the try-on tab is shown
  (App.tsx:101-106), so switching to the gallery or leaving the studio discards its images,
  details and result, and the next mount re-reads the stored measurements. The model keeps
  `TryOnStudio` as an object independent of `App.SwitchTab` and does not capture this.
- Workflow.App.SubmitAvatarForm: takes any form object and runs the remote call with no
  event in between. App mounts `AvatarGenerator` only on the avatar-generator step
  (App.tsx:120-121), so each Start or "Create a New Avatar" gets a fresh form (no photo,
  Hyperrealistic); and the footer's Start Over (App.tsx:137) stays clickable while a
  generation is pending, after which the pending submit still hands off and enters the
  studio. Neither the fresh mount nor that interleaving is captured.
- server.js is not part of this model: it is static hosting and key injection.
- GeminiService.TryOnOutcome: "no remote call is made" for an unparsable image is stated as
  the outcome not depending on the oracle; the model has no record of calls.
- DataUri.Parse: the source matches UTF-16 code units and the model matches Unicode
  characters; the two agree because only ASCII letters and line terminators are tested.
