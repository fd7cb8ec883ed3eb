# Mestres AI Studio: a verified model of the session core

The application is a single-page React front end ("Mestres AI Studio") that sends a text
prompt, and optionally an uploaded image, to a hosted image model and shows the image
that comes back. This project models its three logical parts in Dafny:

- **The session state machine of `App.tsx`.** The `App` component keeps ten state
  variables: mode, prompt, the active create and edit functions, two image slots, the
  generated image URL, the loading flag, the error message and the dual-image layout
  flag. Its handlers change them. `Session.App` is a class with those ten fields. Each
  handler is a method on it. Each method is proved to perform one transition of
  `SessionSpec`, which describes the same record as a value and each handler as a
  function on it. `generateImage` is split at its `await`:
  - `BeginGenerateImage` covers what happens before the service call and returns the
    call to make;
  - `CompleteGenerateImage` takes the service's outcome;
  - `GenerateImage` runs both against the service model.
- **The prompt composer `getSystemPrompt`** (`PromptComposer.SystemPrompt`). It puts
  one of three fixed template prefixes before the user's prompt, or passes the prompt
  through unchanged.
- **The generation client of `services/geminiService.ts`** (`GeminiService`). It
  covers:
  - the data-URL payload split of `fileToBase64`;
  - the request records;
  - the first-image selection of `generateImage`;
  - the first-inline-part scan of `editImage`, written as a loop;
  - the data URIs both operations build;
  - the `catch` blocks that replace every failure with one fixed message.

`Types` holds the enumerations and the `UploadedImage` record of `types.ts`. `JsStrings`
models the JavaScript built-ins the core depends on:
- `trim`, with the ECMAScript whitespace set written out;
- `split` on one character, proved lossless against `join`;
- the decimal rendering of `Date.now()`, proved injective.

`Scenarios` states and proves four end-to-end sessions against chosen service answers.

The opaque service calls (`ai.models.generateImages`, `ai.models.generateContent`) are
parameters. Each is a total function from the request this client builds to the way the
SDK's promise settles. A property proved for every such function therefore holds
whatever the hosted model answers. The `FileReader` result is a parameter too
(`ReadOutcome`), and so is the value of `Date.now()`.

Literal behaviours of the code that the model keeps:
- Validation in `generateImage` runs after the previous result and error have been
  cleared and loading has been set (App.tsx:65-67). A blank prompt therefore also
  erases the previous image. `SessionSpec.Begin` keeps this order.
- In Edit mode, a response without an inline image part does not surface "no image was
  returned". It surfaces "Failed to edit image.", because the inner error is thrown
  inside the same `try` and replaced (services/geminiService.ts:71-76).
- The dual-image flag equals "the edit function is Compose" only right after
  `handleEditFunctionClick`. The back button clears the flag and keeps Compose
  (`SessionSpec.LayoutFlagNotInvariant`).
- A result and an error are exclusive after one uninterrupted round
  (`SessionSpec.SubmitSettles`), but not in every state. Success sets only the URL, so
  an upload error raised while the call is pending stays visible next to the result
  (`SessionSpec.ResultAndErrorCanCoexist`).
- A failed file read only sets the error message; there is no separate failed status.
- `result.split(',')[1]` is `undefined` for a data URL without a comma, so the payload
  of an `UploadedImage` is an `Option` (`None` for `undefined`).
- Response fields the SDK types as optional are `Option`s. An absent `image`, candidate
  list, `content` or `parts` makes the code throw a `TypeError`, which the `catch` replaces
  with the fixed message. An absent `imageBytes`, or an absent `data` or `mimeType` of an
  inline part, is not an error: the template literal renders it as "undefined" and the
  call succeeds with a URI such as `data:image/jpeg;base64,undefined`.

## Model

| member | source | states |
|---|---|---|
| `Types.ModeMembers` | types.ts:2-5 | `Mode` has exactly the members Create and Edit, and their string tags differ |
| `Types.CreateFunctionMembers` | types.ts:7-12 | `CreateFunction` has exactly four members, with pairwise-distinct tags |
| `Types.EditFunctionMembers` | types.ts:14-19 | `EditFunction` has exactly four members, with pairwise-distinct tags |
| `JsStrings.TrimStart` | App.tsx:74 | the result is a suffix of the input; everything removed is whitespace; the result is empty or starts with a non-whitespace character |
| `JsStrings.TrimEnd` | App.tsx:74 | the result is a prefix of the input; everything removed is whitespace; the result is empty or ends with a non-whitespace character |
| `JsStrings.Trim` | App.tsx:74 | `trim` never lengthens the string, and what it keeps is empty or begins and ends with a non-whitespace character |
| `JsStrings.TrimIsSlice` | App.tsx:74 | what `trim` keeps is a contiguous slice of the input, with only whitespace before it and after it |
| `JsStrings.IsBlank` | App.tsx:74 | `!prompt.trim()` holds exactly when every character of the prompt is whitespace, in both directions |
| `JsStrings.TemplateValue` | services/geminiService.ts:35 | `${x}` is the string itself when present and the nine characters `undefined` when absent |
| `JsStrings.IndexOf` | services/geminiService.ts:14 | when found, the index holds the character and no earlier position does; not found exactly when the character is absent |
| `JsStrings.Split` | services/geminiService.ts:14 | `split` yields at least one piece, and no piece contains the separator |
| `JsStrings.JoinSplit` | services/geminiService.ts:14 | joining the pieces of `split` with the separator gives back the original string |
| `JsStrings.SplitAtFirst` | services/geminiService.ts:14 | text without a separator, then a separator, then the rest, splits into that text followed by the pieces of the rest |
| `JsStrings.SplitNoSeparator` | services/geminiService.ts:14 | a string without the separator splits into itself alone |
| `JsStrings.SplitAt` | services/geminiService.ts:14 | `split(sep)[k]` is defined exactly when there are more than k pieces, and it then contains no separator |
| `JsStrings.DecimalString` | App.tsx:102 | the timestamp renders as a non-empty string of decimal digits with no leading zero |
| `JsStrings.DecimalRoundTrip` | App.tsx:102 | reading the rendered digits back gives the timestamp |
| `GeminiService.Payload` | services/geminiService.ts:14 | the payload exists exactly when the data URL has a comma; it is the text between the first comma and the next comma, or the end, and it contains no comma |
| `GeminiService.FileToBase64` | services/geminiService.ts:8-18 | the promise rejects exactly when the read fails; otherwise it keeps the file, takes `mimeType` from `file.type` unchanged, and takes the payload from the split |
| `GeminiService.PayloadOfHeaderAndPayload` | services/geminiService.ts:14 | for `header,payload` with neither part holding a comma, the split returns exactly `payload` |
| `GeminiService.InlineDataUri` | services/geminiService.ts:68 | the URI is `data:`, the media type, `;base64,` and the data, in that order; with a comma-free media type its first comma is the one that ends the header, where the encoder's split cuts |
| `GeminiService.JpegDataUri` | services/geminiService.ts:35 | the JPEG URI of `generateImage` is the inline-data URI of `editImage` for media type `image/jpeg` |
| `GeminiService.JpegPayloadRoundTrip` | services/geminiService.ts:35 | the payload split applied to a URI built at line 35 recovers the bytes, when they contain no comma |
| `GeminiService.InlinePayloadRoundTrip` | services/geminiService.ts:68 | the payload split applied to a URI built at line 68 recovers the data, when neither the data nor the media type contains a comma |
| `GeminiService.GenerateRequest` | services/geminiService.ts:23-31 | the generate request carries the prompt and asks the Imagen model for 1 image, `image/jpeg`, aspect ratio `1:1` |
| `GeminiService.EditRequest` | services/geminiService.ts:46-62 | the edit request's parts are exactly the image's inline data (payload and media type) followed by the prompt text; it asks for image and text modalities |
| `GeminiService.CatchAndReplace` | services/geminiService.ts:38-41 | the catch keeps every success as it is and turns every failure into the one fixed message |
| `GeminiService.TryGenerate` | services/geminiService.ts:22-37 | a rejection propagates; an absent or empty image list throws "No image generated."; an absent `image` on entry 0 throws a `TypeError`; otherwise the result is the JPEG URI of entry 0's bytes, an absent `imageBytes` rendered as "undefined" |
| `GeminiService.GenerateImage` | services/geminiService.ts:21-42 | succeeds exactly when the service resolves with a non-empty image list whose entry 0 has an `image`; the result is the JPEG URI of its bytes ("undefined" when absent); every failure, the inner "No image generated." included, surfaces as "Failed to generate image." |
| `GeminiService.FirstImageIndex` | services/geminiService.ts:64-70 | the selected part carries inline data and no earlier part does; with no selection, no part carries inline data |
| `GeminiService.FirstCandidateParts` | services/geminiService.ts:64 | `response.candidates[0].content.parts` is readable exactly when the candidate list is present and non-empty and candidate 0 has a content with parts; it is then those parts |
| `GeminiService.BlobUri` | services/geminiService.ts:66-68 | with both fields present the URI is the inline URI of their values; an absent media type or data shows as `undefined` in its place, the rest of `data:${mimeType};base64,${data}` unchanged |
| `GeminiService.FirstImageUri` | services/geminiService.ts:64-68 | there is no URI exactly when no part carries inline data; otherwise it is the URI of a part with inline data that no earlier part has |
| `GeminiService.TryEdit` | services/geminiService.ts:45-71 | a rejection propagates; an unreadable `candidates[0].content.parts` throws a `TypeError`; a part list without inline data throws the no-image error; otherwise the result is the URI of the first inline part |
| `GeminiService.EditImageResult` | services/geminiService.ts:44-77 | succeeds exactly when the service resolves with a readable part list for candidate 0 that includes an inline image; the result is `data:<mimeType>;base64,<data>` of the first such part, an absent field rendered as "undefined"; every failure surfaces as "Failed to edit image." |
| `GeminiService.ScanParts` | services/geminiService.ts:64-71 | the loop returns the URI of the first part with inline data, or throws the no-image error when no part has it |
| `GeminiService.EditImage` | services/geminiService.ts:44-77 | the imperative `editImage` (request, scan loop, catch) has exactly the outcome `EditImageResult` describes |
| `PromptComposer.SystemPrompt` | App.tsx:50-62 | the result is the template prefix for (mode, function) followed by the prompt; it is the prompt itself in Edit mode or for Free; it always ends with the prompt |
| `PromptComposer.TemplatePrefix` | App.tsx:51-59 | the template prefix is empty exactly in Edit mode or for Free; every non-empty prefix ends with `: ` |
| `PromptComposer.PrefixesDistinct` | App.tsx:53-55 | the Sticker, Text and Comic prefixes are non-empty and pairwise distinct |
| `PromptComposer.SystemPromptInjective` | App.tsx:50-62 | for a fixed mode and function, equal composed prompts come from equal user prompts |
| `PromptComposer.SystemPromptDistinguishesFunctions` | App.tsx:51-59 | in Create mode, equal composed prompts for the same user prompt mean the same create function |
| `SessionSpec.SetPrompt` | App.tsx:146 | editing the textarea changes the prompt and nothing else |
| `SessionSpec.SelectCreateFunction` | App.tsx:160-163 | a create-function card changes the active create function and nothing else |
| `SessionSpec.Truthy` | App.tsx:99 | a nullable string is truthy exactly when it is neither `null` nor the empty string |
| `SessionSpec.ModeChange` | App.tsx:33-39 | sets the mode; clears the result, the error and both image slots; keeps the prompt, both functions, the loading flag and the layout flag |
| `SessionSpec.EditFunctionClick` | App.tsx:41-48 | sets the edit function; turns the dual-image layout on exactly for Compose; changes nothing else |
| `SessionSpec.BackToEdit` | App.tsx:189 | the back button turns the dual-image layout off and changes nothing else, the edit function included |
| `SessionSpec.ImageUpload` | App.tsx:20-31 | with no file, nothing changes; a failed read sets only the load error; a successful read writes slot 2 when the slot is 2, and slot 1 otherwise, slot `null` included |
| `SessionSpec.Begin` | App.tsx:64-89 | the result is always cleared; a call is made exactly when loading stays on, and exactly when no validation message is shown |
| `SessionSpec.BeginGenerates` | App.tsx:65-79 | Create mode with a non-blank prompt: loading on, result and error cleared, and the composed prompt is sent |
| `SessionSpec.BeginRejectsBlank` | App.tsx:65-78 | Create mode with a blank prompt: result cleared, "Por favor, insira uma ideia." shown, loading off, no call |
| `SessionSpec.BeginEdits` | App.tsx:65-88 | Edit mode with slot 1 filled: loading on, result and error cleared, and the raw prompt with slot 1 is sent |
| `SessionSpec.BeginRejectsNoImage` | App.tsx:65-85 | Edit mode with slot 1 empty: result cleared, "Por favor, envie uma imagem para editar." shown, loading off, no call |
| `SessionSpec.BeginEffects` | App.tsx:64-89 | result and error are cleared first; a blank Create prompt, or an empty slot 1 in Edit mode, makes no call, shows its fixed message and leaves loading off; otherwise loading is on, and the call is generate with the composed prompt (Create) or edit with the raw prompt and slot 1 (Edit); nothing else changes |
| `SessionSpec.Complete` | App.tsx:90-95 | loading is off in every case; success stores the URL and keeps the error; failure stores the message, or "Ocorreu um erro desconhecido." when there is none, and keeps the URL; nothing else changes |
| `SessionSpec.AsThrown` | services/geminiService.ts:40 | a service failure reaches App.tsx as an `Error` whose message is the service's message |
| `SessionSpec.ServiceOutcome` | App.tsx:79-88 | a service failure always carries a message; a generate call succeeds exactly when `generateImage` does and otherwise carries "Failed to generate image."; an edit call likewise with `editImage` and "Failed to edit image."; a success carries exactly the URI the service operation returned |
| `SessionSpec.EditCurrentImage` | App.tsx:108-113 | without a (truthy) result nothing changes; with one, the effect is exactly `handleModeChange(Edit)` |
| `SessionSpec.DownloadFileName` | App.tsx:102 | the name is `ai-image-`, then decimal digits that denote the timestamp with no leading zero (just `0` for 0), then `.jpg` |
| `SessionSpec.Download` | App.tsx:98-102 | there is no link exactly when the result is absent or empty; otherwise the link points at the result under the timestamped name |
| `SessionSpec.DownloadFileNameInjective` | App.tsx:102 | distinct timestamps give distinct file names |
| `SessionSpec.ServiceOutcomeShape` | App.tsx:79-88 | what the service settles a call with is a `data:` URI or one of its two fixed failure messages |
| `SessionSpec.Submit` | App.tsx:64-96 | after one uninterrupted round loading is off, and only the result and the error may have changed |
| `SessionSpec.SubmitSettles` | App.tsx:64-96 | after one uninterrupted round, loading is off and result and error are not both set; the error is one of the four fixed messages, never the unknown-error fallback; a result is a `data:` URI |
| `SessionSpec.SubmitGenerates` | App.tsx:64-90 | in Create mode with a non-blank prompt, when `generateImage` succeeds on the composed prompt the session stores exactly its URI and shows no error |
| `SessionSpec.SubmitEdits` | App.tsx:64-90 | in Edit mode with slot 1 filled, when `editImage` succeeds on the raw prompt and slot 1 the session stores exactly its URI and shows no error |
| `SessionSpec.BlankPromptMakesNoCall` | App.tsx:74-78 | in Create mode, a whitespace-only prompt makes no call, shows "Por favor, insira uma ideia." and leaves loading off and the result empty |
| `SessionSpec.LayoutFlagNotInvariant` | App.tsx:189 | after Compose and then the back button, Compose is active with the single-image layout, so the layout law is not a state invariant |
| `SessionSpec.ResultAndErrorCanCoexist` | App.tsx:20-31 | in Edit mode with slot 1 filled, an upload into either slot that fails while the edit call is pending, followed by that call's success, shows the result and the load error together and keeps slot 1 |
| `Session.App.constructor` | App.tsx:9-18 | the ten fields start with the `useState` initial values |
| `Session.App.SetPrompt` | App.tsx:146 | performs `SessionSpec.SetPrompt` on the fields |
| `Session.App.SelectCreateFunction` | App.tsx:160-163 | performs `SessionSpec.SelectCreateFunction` on the fields |
| `Session.App.HandleModeChange` | App.tsx:33-39 | performs `SessionSpec.ModeChange` on the fields |
| `Session.App.HandleEditFunctionClick` | App.tsx:41-48 | performs `SessionSpec.EditFunctionClick`; afterwards the layout flag equals "the edit function is Compose" |
| `Session.App.BackToEdit` | App.tsx:189 | performs `SessionSpec.BackToEdit` on the fields |
| `Session.App.HandleImageUpload` | App.tsx:20-31 | performs `SessionSpec.ImageUpload` on the fields |
| `Session.App.BeginGenerateImage` | App.tsx:64-89 | performs `SessionSpec.Begin` and returns its call; callable only while not loading, as the disabled button (App.tsx:198) ensures |
| `Session.App.CompleteGenerateImage` | App.tsx:90-95 | performs `SessionSpec.Complete` with the service outcome |
| `Session.App.GenerateImage` | App.tsx:64-96 | begin, the service call of services/geminiService.ts, and complete together give `SessionSpec.Submit`, whose properties `SubmitSettles` proves |
| `Session.App.EditCurrentImage` | App.tsx:108-113 | performs `SessionSpec.EditCurrentImage` on the fields |
| `Session.App.DownloadImage` | App.tsx:98-102 | returns exactly `SessionSpec.Download` of the current state and `now`, and changes nothing |
| `Scenarios.StickerRequestSucceeds` | App.tsx:64-95 | Create, Sticker, "a red fox", one image returned: the sticker template wraps the prompt and the result is the JPEG URI with no error |
| `Scenarios.OneImageAnswer` | services/geminiService.ts:33-35 | a response holding one image yields `data:image/jpeg;base64,` followed by its bytes |
| `Scenarios.TextOnlyAnswerFails` | services/geminiService.ts:64-76 | a response whose only part is text fails with "Failed to edit image." |
| `Scenarios.EditWithoutImagePartFails` | App.tsx:80-95 | Edit, an uploaded image, no inline part in the answer: the request carries slot 1's payload and then the raw prompt; the session ends with no result, "Failed to edit image." and loading off |
| `Scenarios.FailedUploadKeepsImages` | App.tsx:20-31 | a read failure on slot 1 shows "Falha ao carregar a imagem." and leaves both slots and the result empty |
| `Scenarios.EditCurrentImageDropsResult` | App.tsx:108-113 | for any non-blank prompt, after a result, "edit this image" moves to Edit mode with slot 1 empty and no result |
| `Scenarios.OneImageSubmit` | App.tsx:64-95 | from the initial state with a non-blank prompt, a one-image answer leaves exactly that image's JPEG URI as the result and changes nothing else |

## Left out

- The SDK calls themselves (`ai.models.generateImages`, `ai.models.generateContent`) and the
  API key are foreign network code. Each call is an arbitrary total function from request to
  outcome.
- `FileReader` and its callbacks are browser I/O. The data URL, or the read failure, is an input.
- The DOM work of `downloadImage` (creating, clicking and removing a link) is left out;
  `Date.now()` is a parameter.
- Asynchronous interleaving is concurrency, not sequential logic. The model runs one
  begin/complete pair at a time. Events during a pending call, and the stale-response hazard
  that comes with them, appear only as the counterexample `SessionSpec.ResultAndErrorCanCoexist`.
  The upload handler's own `await` is modelled as one atomic step.
- React semantics (hooks, batching, re-rendering) and all JSX (App.tsx:116-242) are view
  code. So are components/FunctionCard.tsx and components/icons.tsx.
- tailwind.config.js and vite.config.ts are build configuration.
- `console.error` logging has no effect on state.
- JavaScript strings are UTF-16 and Dafny's `char` is a Unicode scalar value. `trim` is
  modelled with the ECMAScript whitespace and line-terminator code points written out.
