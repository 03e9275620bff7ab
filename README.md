# Image captioner: upload form and caption post-processing

This project models the two pieces of the image-captioning application that
have exact behaviour, and proves properties about them with Dafny.

- **The upload form of the web front end** (`frontend/src/App.js`). One
  component holds six pieces of state: the selected file, its preview URL,
  the caption, the detected colours, a loading flag and an error message.
  `Frontend.App` is a class with those fields. Its methods are the file-pick
  handler and the submit handler. The submit handler is split at the request
  into a start (`HandleSubmitStart`) and a completion
  (`HandleSubmitComplete`). The fetch and the read of the response body are
  folded into one `Outcome` value, since the handler changes no state
  between them. Each method is proved against a pure transition
  function (`FileChanged`, `SubmitStarted`, `SubmitCompleted`) over a
  `UiState` value. The properties of the form are lemmas about those
  functions. The network exchange enters as an `Outcome` value: success with
  the reply's fields, an error status with a parsed or unparseable body, or a
  transport failure. The object URL the browser creates for the preview is
  an opaque token. The browser numbers these tokens, which makes their
  freshness provable. The rendering conditions are predicates on the state.
  `RunKeepsInvariant` proves an invariant over any sequence of events: the
  preview is of the selected file, a selected file is an image, and an error
  is never empty text.
- **The string post-processing of the captioning service**
  (`backend/main.py`). `Backend` models:
  - the content-type gate of the upload endpoint;
  - the prompt built from the first three colour names;
  - the caption clean-up: a case-insensitive prefix cut, a strip and a
    capital first letter;
  - the loop that names each dominant colour, with its "Unknown Color"
    fallback;
  - the loop that builds the CSS3 colour table;
  - the nearest-colour lookup in that table.

  `UploadImage` is the whole endpoint. The results of image decoding, colour
  detection and the captioning model are its parameters.
- `Strings` holds the JavaScript and Python string built-ins the two
  programs use: prefix tests, joining with a separator, ASCII case mapping
  and Python's `strip()`. `Unjoin` is the inverse of joining with ", ".

Four behaviours of the code worth stating:

- An error reply whose body is not JSON shows the parser's own message, not
  the generic "Failed to get caption." The generic text is used only when a
  parsed body has no truthy `detail`.
- Submitting without a file leaves `loading` as it was. The code does not
  set it to false.
- Preview URLs are never released. The code never revokes them.
- Picking a file is not blocked while a request is in flight. So an invalid
  pick can set an error while `loading` is still true.

## Model

| member | source | states |
|---|---|---|
| Frontend.App.constructor | frontend/src/App.js:5-11 | the form starts with no file, no preview, no caption, no colours, not loading, no error |
| Frontend.App.HandleFileChange | frontend/src/App.js:13-29 | the new state is FileChanged of the old one; an object URL is created only for an image pick; the invariant Valid is kept |
| Frontend.App.CreateObjectUrl | frontend/src/App.js:18 | the browser returns a new token for the file, numbered after every earlier one |
| Frontend.App.HandleSubmitStart | frontend/src/App.js:31-41 | the state and the request are those of SubmitStarted; no object URL is created; Valid is kept |
| Frontend.App.HandleSubmitComplete | frontend/src/App.js:43-64 | the state is that of SubmitCompleted for the outcome; Valid is kept |
| Frontend.FileChanged | frontend/src/App.js:13-29 | a file is selected, and the error cleared, exactly when the pick is an image; caption and colours are always cleared and loading is kept; a preview carries the new token; the result is always consistent |
| Frontend.SubmitStarted | frontend/src/App.js:31-41 | the request carries exactly the selected file (none without one); loading turns on exactly when a file is selected; the error is set exactly when none is; no other field changes |
| Frontend.SubmitCompleted | frontend/src/App.js:43-64 | loading is off afterwards; only caption, colours, loading and error can change; on success the error is kept; on failure caption and colours are kept and the error begins "Error: " |
| Frontend.PickImage | frontend/src/App.js:14-21 | an image pick selects the file, previews it with the new token, clears caption, colours and error, and leaves loading unchanged |
| Frontend.PickNonImage | frontend/src/App.js:22-28 | a non-image pick, an empty list or no list clears file, preview, caption and colours and sets the fixed invalid-file message; loading unchanged; nothing is previewed and the button is disabled |
| Frontend.PickTwiceSameAsOnce | frontend/src/App.js:16-21 | picking the same image twice gives the state of picking it once, up to the preview token's number |
| Frontend.PreviewUrlIsFresh | frontend/src/App.js:18 | the preview token of a new pick differs from the one already shown |
| Frontend.SubmitWithoutFile | frontend/src/App.js:32-35 | with no file, no request is made and only the error changes, to "Please select an image first." |
| Frontend.SubmitWithFile | frontend/src/App.js:37-41 | with a file, that file is sent; loading becomes true and the error is cleared first; the button is then disabled |
| Frontend.CompletionEndsLoading | frontend/src/App.js:62-64 | loading is false after every outcome; file and preview are untouched |
| Frontend.SuccessShowsReply | frontend/src/App.js:54-57 | on success the caption and colours come from the reply (missing colours become the empty list); the error stays cleared; the result panel shows exactly when the reply has a non-empty caption or colours |
| Frontend.FailureKeepsResult | frontend/src/App.js:49-60 | a failure sets the error to "Error: " and the failure message, and keeps the previous caption and colours |
| Frontend.FailureMessages | frontend/src/App.js:49-51 | an error reply shows "Error: " and its detail when the detail is truthy, and the generic text otherwise; an unparseable body or a transport failure shows "Error: " and the thrown message |
| Frontend.PreviewShown | frontend/src/App.js:102 | in a consistent state the preview shows exactly when a file is selected, and it shows that file |
| Frontend.ErrorBannerShown | frontend/src/App.js:109 | in a consistent state the error banner shows exactly when an error is set |
| Frontend.SubmitDisabled | frontend/src/App.js:118 | the button is disabled whenever a request is in flight; when it is enabled, a click sends a request and turns loading on |
| Frontend.ResultPanelShown | frontend/src/App.js:135 | the result panel shows exactly when its caption line or its colours line does |
| Frontend.CaptionLineShown | frontend/src/App.js:137 | the caption line shows only for a non-empty caption; an empty caption is stored but not shown |
| Frontend.ColorsLine | frontend/src/App.js:143-145 | the colours line exists exactly when there are colours, and reading it back at the ", " separators gives the comma-free colours again, in order |
| Frontend.StepKeepsInvariant | frontend/src/App.js:13-65 | each event keeps the state consistent and keeps every preview token older than the browser's count |
| Frontend.RunKeepsInvariant | frontend/src/App.js:13-65 | after any sequence of picks, submits and completions, the state is still consistent |
| Strings.UnjoinJoin | frontend/src/App.js:145 | Unjoin inverts joining a non-empty list of comma-free names with ", " |
| Strings.Join | frontend/src/App.js:145 | the joined text begins with the first element, ends with the last, and is as long as all elements plus one separator per neighbouring pair; an empty list joins to "" |
| Strings.TrimStart | backend/main.py:123 | the result is a suffix of the input, everything dropped is whitespace, and it does not begin with whitespace |
| Strings.TrimEnd | backend/main.py:123 | the result is a prefix of the input, everything dropped is whitespace, and it does not end with whitespace |
| Strings.Strip | backend/main.py:123-127 | Python's strip(): a slice of the input with only whitespace around it, neither beginning nor ending with whitespace |
| Strings.StripIdempotent | backend/main.py:123-127 | stripping twice gives the same result as stripping once |
| Strings.StripAllSpace | backend/main.py:123-127 | a string made only of whitespace strips to the empty string |
| Strings.Lower | backend/main.py:122-126 | lower-casing keeps the length, leaves no A-Z, and changes only A-Z, each to its own lower-case letter |
| Strings.LowerChar | backend/main.py:122-126 | a character's lower-case form is never A-Z; A-Z move to their own lower-case letter; nothing else changes |
| Strings.UpperChar | backend/main.py:130 | a character's upper-case form is never a-z; a-z move to their own capital; nothing else changes; whitespace stays whitespace |
| Backend.UploadImage | backend/main.py:90-136 | a non-image content type gives exactly 400 "File must be an image."; for an image, a raise in colour detection or in captioning gives exactly 500 with "Error processing image: " and the raised message, every rejection is a 500, and when both steps succeed the reply is a caption; a caption reply carries the detected colours and the cleaned output of the model for the prompt built from them |
| Backend.GateBeforeProcessing | backend/main.py:92-93 | for a non-image upload the reply does not depend on anything the processing would produce |
| Backend.HintedColors | backend/main.py:104 | the prompt uses the first names of the list, all of them when there are at most three and exactly three otherwise |
| Backend.Prompt | backend/main.py:102-106 | with no colours the prompt is "A photo of a scene."; otherwise it begins "A photo of a scene with colors like " and ends with a full stop |
| Backend.PromptNamesFirstThree | backend/main.py:102-106 | reading the names back out of the prompt gives exactly the first (at most) three colours, in order |
| Backend.PromptIgnoresLaterColors | backend/main.py:104 | two lists that agree on their first three names give the same prompt |
| Backend.DropPhotoPrefix | backend/main.py:122-127 | a caption whose lower-cased form does not start with "a photo of" is unchanged; otherwise the result is the original caption stripped after its first 12 characters when the lower-cased form starts with "a photo of, ", and after its first 10 otherwise; it is strip-stable and at least ten characters shorter |
| Backend.SpacePrefixSameAsBare | backend/main.py:124-127 | cutting "a photo of " gives the same result as cutting "a photo of"; only the ", " form needs its own branch |
| Backend.FirstPrefixOnly | backend/main.py:122-127 | after "a photo of " in any case, whatever follows is only stripped, even when it begins with another "a photo of" |
| Backend.CommaPrefixIgnoresCase | backend/main.py:122-123 | "a photo of, " in any mix of cases is cut, and what follows keeps its own case and is stripped |
| Backend.OnlyPrefixBecomesEmpty | backend/main.py:126-130 | a caption that is "a photo of" in any case followed only by whitespace comes out empty, and the empty caption is not capitalised |
| Backend.Capitalize | backend/main.py:129-130 | the length is kept; a non-empty caption gets its first character upper-cased and keeps the rest |
| Backend.CleanCaption | backend/main.py:121-130 | without a prefix the caption is only capitalised; with one it is the capitalised, stripped remainder after the first matching prefix, cut from the original; never longer than the raw caption, and never begins with a lower-case letter |
| Backend.CleanCaptionNoLeadingSpace | backend/main.py:122-130 | after a prefix is cut, the cleaned caption does not begin with whitespace |
| Backend.NameColors | backend/main.py:73-83 | one name per cluster centre, in order; a centre whose naming raises gets "Unknown Color" |
| Backend.ResolvableMembers | backend/main.py:35-41 | a name is in the colour table exactly when it is a CSS3 name whose conversion to RGB succeeds |
| Backend.BuildColorTable | backend/main.py:32-41 | the name list keeps, in order, the names that convert; the RGB list stays aligned with it entry by entry |
| Backend.ClosestColorName | backend/main.py:43-51 | the returned name is at an index whose colour is no farther from the query than any other colour in the table |

## Left out

- JSX markup, CSS classes, SVG icons, the spinner and the click that opens the file picker. These are presentation only.
- `fetch`, `FormData`, the fixed endpoint URL and `console.error`. The request is reduced to the file it carries (`HandleSubmitStart` returns it), and the response to an `Outcome` value.
- Concurrent submits. The model handles events one after another. Only the disabled button keeps a second request from starting. `SubmitWithFile` proves the button is disabled once a request starts.
- Releasing preview URLs. The code never revokes an object URL.
- A `detail` or `caption` that is not a string. FastAPI validation errors carry a list as `detail`, which the browser would turn into text. The model takes `detail` and `caption` to be strings or absent.
- The captioning model, the processor and device selection. These are a nondeterministic foreign library. `UploadImage` takes the decoded output as a function of the prompt.
- Image decoding, resizing, MiniBatchKMeans clustering and the cast of the centres to integers. These are floating-point work in foreign libraries. The centres enter `NameColors` as integer RGB values, and the colour list enters `UploadImage` as a value or a raised error.
- The content of the CSS3 colour table and the KD-tree structure. `BuildColorTable` takes the names and the name-to-RGB conversion as parameters.
- BuildColorTable: `Raised` stands for the `ValueError` the loop catches (backend/main.py:40). Any other exception from the name-to-RGB conversion escapes the module-level loop and stops the service from loading; that is not modelled.
- `ClosestColorName`: when several colours are equally near, the model returns the first. The KD-tree may return any of them, so only the "no farther than any other" property is stated.
- FastAPI routing, the CORS middleware and the `/` health route. These are framework plumbing.
- A missing content type. If the framework gave none, the gate itself would raise. The model takes the content type to be a string.
- CleanCaption: case mapping and whitespace are modelled for ASCII only. Python's `lower()`, `upper()` and `strip()` also act on other characters. For example, `upper()` of "ß" is two characters, so for non-ASCII input the "never longer" property may fail in the source.
- Strings.Lower: only A-Z are lower-cased. Other characters are left as they are.
