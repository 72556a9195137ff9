# Virtual try-on relay and capture page, modelled in Dafny

This project models the decision logic of a virtual try-on web product. A
user uploads a photo or enables the camera, picks a category (makeup, clothes,
style advice) and writes a prompt. The page posts the image, the prompt and
the category to a relay. The relay forwards them to a hosted image-generation
model and hands back the edited image. The repository has two relays: a
serverless function in front of an AI gateway, and an Express route in front
of Vertex AI.

The model has six modules:

- `Common` (common.dfy): `Option`, `Result`, and the string relations used in
  contracts: prefix, suffix, occurrence.
- `Js` (js.dfy): the JavaScript behaviour the handlers depend on.
  - A JSON field is `undefined`, `null` or a string, and each has a
    truthiness.
  - Template literals interpolate a field, and `${status}` renders a number in
    decimal.
  - `String.prototype.trim` is modelled over the ECMAScript white-space set.
- `Relay` (relay.dfy): the serverless function `generate-tryon`.
  - It validates the body and checks that the API key is configured.
  - It selects the instruction template and normalises the image into a data
    URL.
  - It maps a failed gateway status to a response, and extracts the image URL
    from a successful reply.
- `VertexRoute` (vertex_route.dfy): the Express handler `POST /api/generate-tryon`.
  - It strips the data-URL prefix using the exact pattern
    `^data:image\/\w+;base64,`.
  - It builds the two-part request.
  - It picks the first inline-data part of the response. If there is none, it
    answers with the placeholder URL plus the first text.
  - Every error becomes a 500.
- `RoundTrip` (round_trip.dfy): lemmas that link the two relays' image
  conventions. One adds a JPEG prefix, the other strips one.
- `TryOnPage` (tryon_page.dfy): the page as a class.
  - Its fields are `selectedCategory`, `prompt`, `uploadedImage`,
    `generatedImage`, `isCameraActive`, `isGenerating` and the video element
    behind `videoRef`.
  - It has one method per handler. Reset runs a loop that stops every track of
    the held stream.
  - The invariant `Valid()` says two things. An uploaded image and an active
    camera never coexist. The category is always one of the three listed ids.

External calls are parameters. In the relay, the gateway `fetch` is a function
`GatewayRequest -> Result<GatewayReply, string>`, where `Failure(message)` is a
rejected call and its error message. In the route, Vertex AI's `generateContent` is
a function `GenerateRequest -> Option<GenerateResponse>`, where `None` means a
rejected call. "No upstream call happens" is then stated as "the response does
not depend on that function". On the page, every awaited step is one atomic
call whose outcome is an argument of the method: the file read, `getUserMedia`,
the canvas capture and the generation request. The exception is the generation
request, which is split into `StartApply` (the guard, `isGenerating := true`,
the body to post) and `FinishApply` (the `finally` block). This split lets
contracts talk about the in-flight state that disables the button. `ApplyChanges`
chains the two.

Some behaviours of the code are worth stating on their own:

- The Express route has no 400 validation. A missing image makes `.replace`
  throw (backend/server.js:132), so the route answers 500.
- A model response without image or text is still a 200 with the placeholder
  URL (backend/server.js:178-186). The message is then absent.
- In the serverless relay, a failed gateway status other than 429 and 402 leads
  to `AI gateway error: <status>` (supabase/functions/generate-tryon/index.ts:94).
  The gateway's response body is logged, not returned.
- Enabling the camera does not stop a stream held before; the old stream is
  just replaced (src/pages/TryOn.tsx:47).

The page also has a rendering bug, recorded under "## Findings". The `<video>`
element is rendered only in the video pane, that is when `isCameraActive` holds
and there is no generated image (src/pages/TryOn.tsx:208-214). The "Enable
Camera" button is shown only in the start panel, where the camera is inactive
(src/pages/TryOn.tsx:186). So when the stream arrives, `videoRef.current` is
always `null`, and the camera is never enabled. The model has both renderings:
`RenderAsWritten` attaches `videoRef` only in the video pane, as the JSX does;
`RenderWithHiddenVideo` keeps the element mounted, hidden outside that pane,
which is what the handler at src/pages/TryOn.tsx:46-54 evidently expects.

backend/server.js:9 declares `const cors` a second time. That would stop the
module from loading. The model describes the route's logic as written.

## Model

| member | source | states |
|---|---|---|
| `Js.Interpolate` | backend/server.js:141 | `${v}` renders a string as itself, `undefined` as the text "undefined" and `null` as the text "null" |
| `Js.WhitespaceRanges` | src/pages/TryOn.tsx:76 | the characters `trim()` removes are exactly the ECMAScript WhiteSpace and LineTerminator code points: U+0009 to U+000D, space, U+00A0, U+1680, U+2000 to U+200A, U+2028, U+2029, U+202F, U+205F, U+3000 and U+FEFF |
| `Js.Truthy` | supabase/functions/generate-tryon/index.ts:16 | `undefined`, `null` and the empty string are falsy; every non-empty string is truthy |
| `Js.Trim` | src/pages/TryOn.tsx:76 | `prompt.trim()` occurs in the prompt with only white space before and after it, and neither begins nor ends with white space |
| `Relay.SelectTemplate` | supabase/functions/generate-tryon/index.ts:34-42 | the makeup, clothes and style-advise templates are chosen exactly for the categories `"makeup"`, `"clothes"` and `"style-advise"`; every other value, including an absent category, gets the generic "Edit this image" template |
| `Relay.Instructions` | supabase/functions/generate-tryon/index.ts:33-42 | the instruction text starts with the selected template's lead, ends with its tail, and is exactly as long as lead, prompt and tail together |
| `Relay.InstructionsContainPrompt` | supabase/functions/generate-tryon/index.ts:35-41 | every instruction text contains the user's prompt verbatim, right after the selected template's lead |
| `Relay.InstructionsDeterminePrompt` | supabase/functions/generate-tryon/index.ts:33-42 | for a fixed category, equal instruction texts come from equal prompts |
| `Relay.NormaliseImageUrl` | supabase/functions/generate-tryon/index.ts:45-48 | the normalised URL always starts with `data:`; an input that already starts with `data:` is unchanged; a bare input `b` becomes `data:image/jpeg;base64,` + `b` |
| `Relay.NormaliseIdempotent` | supabase/functions/generate-tryon/index.ts:46 | normalising twice equals normalising once |
| `Relay.NormaliseCanonical` | supabase/functions/generate-tryon/index.ts:45-48 | a bare payload and the same payload with the JPEG prefix normalise to the same URL |
| `Relay.ExtractImageUrl` | supabase/functions/generate-tryon/index.ts:98 | when every link `choices[0].message.images[0].image_url` exists the optional chain gives that `url`; when any link is missing or a list is empty it gives `undefined` |
| `Relay.IsOk` | supabase/functions/generate-tryon/index.ts:79 | `response.ok` holds for 200 and never for 402, 429 or 500 |
| `Relay.UpstreamFailure` | supabase/functions/generate-tryon/index.ts:79-95 | a non-ok 429 gives 429 "Rate limit exceeded…"; 402 gives 402 "Usage limit reached…"; any other status gives 500 `AI gateway error: <status in decimal>` through the catch block |
| `Relay.UpstreamFailuresDistinct` | supabase/functions/generate-tryon/index.ts:80-94 | the generic gateway error message differs from the rate-limit and usage-limit messages |
| `Relay.Respond` | supabase/functions/generate-tryon/index.ts:79-113 | the answer is 200 exactly when the status is 2xx and the extracted URL is a non-empty string; a 200 carries the chosen instructions and a non-empty URL |
| `Relay.Prepare` | supabase/functions/generate-tryon/index.ts:14-48 | a missing or empty `imageBase64` or `prompt` gives 400 with the fixed "Missing required fields" error; a missing API key then gives 500; otherwise the request carries a `data:` URL and instructions that contain the prompt |
| `Relay.MissingFieldsRejected` | supabase/functions/generate-tryon/index.ts:16-21 | with a missing field the response is 400 "Missing required fields…" whatever the gateway would answer: the gateway is not called |
| `Relay.ValidBodyForwarded` | supabase/functions/generate-tryon/index.ts:50-120 | for a valid body with a configured key, the gateway receives the selected instructions and the normalised image; a rejected call gives 500 with the error's message; a 200 carries the reply's URL and those instructions; a non-ok status gets the status mapping; an ok reply without a URL gives 500 "No image generated" |
| `Relay.Handle` | supabase/functions/generate-tryon/index.ts:8-122 | a 200 is given only with a configured key and a non-empty image and prompt; it carries instructions containing the prompt and a non-empty URL; a rejected gateway call is answered 500 with the error's message |
| `Relay.ErrorStatuses` | supabase/functions/generate-tryon/index.ts:13-121 | every error response has status 400, 402, 429 or 500; a 400 always carries the missing-fields message, a 402 the usage-limit message and a 429 the rate-limit message |
| `Js.Decimal` | supabase/functions/generate-tryon/index.ts:94 | the rendering of a status is a non-empty string of decimal digits, without a leading zero unless the number is 0 |
| `Js.DecimalRoundTrip` | supabase/functions/generate-tryon/index.ts:94 | reading the decimal rendering back gives the number |
| `Js.DecimalInjective` | supabase/functions/generate-tryon/index.ts:94 | two statuses give the same error message only if they are equal |
| `Js.TrimStart` | src/pages/TryOn.tsx:76 | removes exactly the leading white space: the result is a suffix, every removed character is white space, and the result does not start with white space |
| `Js.TrimEnd` | src/pages/TryOn.tsx:76 | removes exactly the trailing white space: the result is a prefix, every removed character is white space, and the result does not end with white space |
| `Js.TrimEmptyIffBlank` | src/pages/TryOn.tsx:76 | `prompt.trim()` is empty if and only if the prompt consists of white space only |
| `VertexRoute.WordCharClass` | backend/server.js:132 | about `IsWordChar`, the class `\w`: it contains `_` and only ASCII characters, and none of the separators `:`, `/`, `;`, `,`, `+`, `-`, `.` and `=` |
| `VertexRoute.MatchShape` | backend/server.js:132 | about `MatchesPrefix`, the pattern's meaning stated independently of how the strip finds a match: a match is at least 20 characters long, the subtype run is followed by `;` and the match ends with `,` |
| `VertexRoute.WordRun` | backend/server.js:132 | the longest run of `\w` characters at the start of a string: all of them are word characters and the next one, if any, is not |
| `VertexRoute.WordRunOf` | backend/server.js:132 | word characters followed by a non-word character, or by nothing, form the longest run |
| `VertexRoute.MatchCharacterised` | backend/server.js:132 | the anchored pattern matches with subtype length `m` if and only if the input starts with `data:image/`, `m` is the longest word run after it, `m` is at least 1, and `;base64,` follows the run |
| `VertexRoute.StripDataUrlPrefix` | backend/server.js:132 | the result is a suffix of the input; when the pattern matches, exactly the matched prefix is removed; when it does not, the input is returned unchanged |
| `VertexRoute.StripRemovesOnePrefix` | backend/server.js:132 | `data:image/<word chars>;base64,` + `b` is stripped to exactly `b` |
| `VertexRoute.StripKeepsUnprefixed` | backend/server.js:132 | input not starting with `data:image/` is returned unchanged |
| `VertexRoute.StripAppliesOnce` | backend/server.js:132 | with two prefixes in a row only the first is removed |
| `VertexRoute.StripKeepsSvg` | backend/server.js:132 | a `data:image/svg+xml;base64,` URL is not stripped, since `+` is not a word character |
| `VertexRoute.InstructionText` | backend/server.js:141-142 | the text part starts with the fixed lead, has the interpolated category right after it and the interpolated prompt after `. `, and ends with the closing request including the template literal's line break |
| `VertexRoute.BuildRequest` | backend/server.js:136-152 | one `user` content with exactly two parts in order: a text part that is exactly the instruction text of lines 141-142 for the category and the prompt, and so contains both the interpolated category and the interpolated prompt, then an inline-data part with mime type `image/jpeg` and the given data |
| `VertexRoute.FindFirst` | backend/server.js:168-179 | `Array.prototype.find` by index: the result satisfies the predicate and no earlier element does, or no element does and the result is none |
| `VertexRoute.HasInlineData` | backend/server.js:168 | a part is chosen as the image part exactly when its `inlineData` object is present |
| `VertexRoute.HasText` | backend/server.js:179 | a part with an absent or empty text is never chosen as the text part |
| `VertexRoute.MimeTypeOrDefault` | backend/server.js:173 | the mime type is never empty: an absent or empty one becomes `image/png`, any other is kept |
| `VertexRoute.DataUrl` | backend/server.js:174 | the relayed URL starts with `data:`, has the mime type right after it, and ends with `;base64,` and the data |
| `VertexRoute.SelectReply` | backend/server.js:165-187 | the reply is an image reply exactly when some part has inline data; otherwise it is the placeholder URL; it is never an error |
| `VertexRoute.FirstImagePartWins` | backend/server.js:168-176 | the first part with inline data is relayed as `data:<mime>;base64,<data>` |
| `VertexRoute.MissingMimeIsPng` | backend/server.js:173 | a chosen image part without a mime type is relayed as `image/png` |
| `VertexRoute.TextOnlyFallback` | backend/server.js:178-186 | with no inline-data part the reply is the placeholder; it has a message exactly when some part has non-empty text, and the message is the text of the first such part |
| `VertexRoute.Handle` | backend/server.js:124-193 | every error reply is 500 "Failed to process with Vertex AI", and a non-string `imageBase64` always gives that reply |
| `VertexRoute.RequestSent` | backend/server.js:132-165 | the request sent carries the stripped image as JPEG inline data; a rejected model call gives the 500 reply; a resolved one with a first candidate is answered from that candidate's parts |
| `VertexRoute.MissingPartsFail` | backend/server.js:165-191 | a response with no candidate, or whose first candidate has no `content.parts`, makes line 165 throw, and the route answers 500 "Failed to process with Vertex AI" |
| `VertexRoute.MissingImageFails` | backend/server.js:189-191 | with an undefined or null `imageBase64` the `.replace` at line 132 throws; the route answers 500 whatever the model would say |
| `RoundTrip.JpegPrefixMatches` | supabase/functions/generate-tryon/index.ts:47 | the Express pattern matches every string that starts with the prefix the serverless function adds, with the four-character subtype `jpeg`, and the match is exactly that prefix |
| `RoundTrip.StripUndoesNormalise` | backend/server.js:132 | for a bare string `b` not starting with `data:`, stripping its normalised form gives `b` back |
| `RoundTrip.ReturnedImageRoundTrip` | backend/server.js:172-174 | a data URL the route builds for an `image/<word chars>` part is left alone by normalisation and strips back to its data |
| `TryOnPage.AcceptedRequestPassesRelayCheck` | src/pages/TryOn.tsx:76-113 | a body the page lets through is never rejected by the serverless relay's field check when it has an uploaded image or a non-empty captured frame |
| `TryOnPage.Present` | src/pages/TryOn.tsx:76 | a nullable string state variable is truthy exactly when it holds a non-empty string: `null` and `""` are falsy |
| `TryOnPage.CapturedImage` | src/pages/TryOn.tsx:88-100 | the captured frame wins when the camera is active, the element is mounted and a frame was produced; otherwise the uploaded image is posted, and `null` exactly when there is none; the field is never `undefined` |
| `TryOnPage.PostedBodyAtExpressRoute` | src/pages/TryOn.tsx:88-115 | at the Express route the page posts to, the image is a string exactly when a frame was captured or a photo uploaded; without one the route answers 500 whatever the model says; with one the answer depends only on the model's reply to the request built from it |
| `TryOnPage.Track.Stop` | src/pages/TryOn.tsx:70 | a track is stopped once `stop()` is called on it |
| `TryOnPage.TryOn.Valid` | src/pages/TryOn.tsx:32-33 | the page invariant: the category is one of `"makeup"`, `"clothes"` and `"style-advise"`, and while the camera is active there is no uploaded image, so the uploaded pane is not shown; the upload (lines 32-33), the camera (lines 48-49), the reset (lines 65-67) and the category buttons (line 255) keep it |
| `TryOnPage.TryOn.constructor` | src/pages/TryOn.tsx:11-16 | the initial state is category `"makeup"`, an empty prompt, no images, camera and generation off, no video element; the invariant holds |
| `TryOnPage.TryOn.ApplyAccepted` | src/pages/TryOn.tsx:76 | the guard lets a submission through exactly when the prompt is not blank and there is an uploaded image or an active camera |
| `TryOnPage.TryOn.ApplyDisabled` | src/pages/TryOn.tsx:275 | the Apply button is disabled exactly when the guard would reject or a generation is in flight |
| `TryOnPage.TryOn.Preview` | src/pages/TryOn.tsx:172-221 | the generated image is shown whenever there is one; the start panel is shown exactly when there is no image and the camera is inactive; the video exactly when the camera is active and nothing was generated; the uploaded pane only with a non-null uploaded image, so the `uploadedImage!` assertion holds |
| `TryOnPage.TryOn.SelectCategory` | src/pages/TryOn.tsx:251-255 | the category is set to an id from the fixed list; the invariant is kept |
| `TryOnPage.TryOn.SetPrompt` | src/pages/TryOn.tsx:270 | the prompt becomes the text area's value; nothing else changes |
| `TryOnPage.TryOn.HeldTracks` | src/pages/TryOn.tsx:68-70 | the tracks of the stream held by the video element, and none when there is no element or no stream |
| `TryOnPage.TryOn.RenderAsWritten` | src/pages/TryOn.tsx:208-214 | after a render `videoRef.current` is set exactly when the video pane is shown; a mounted element is kept while the pane stays |
| `TryOnPage.TryOn.RenderWithHiddenVideo` | src/pages/TryOn.tsx:208-214 | with the element kept mounted, `videoRef.current` is never null after a render and a mounted element is kept |
| `TryOnPage.TryOn.HandleFileUpload` | src/pages/TryOn.tsx:27-41 | a completed read sets `uploadedImage` to the data URL and turns the camera off; `generatedImage` and `prompt` are unchanged; with no file nothing changes; the invariant is kept |
| `TryOnPage.TryOn.EnableCamera` | src/pages/TryOn.tsx:43-62 | when access is granted and the video element is mounted, the stream becomes the element's source, the camera is active and the uploaded image is cleared; when access is denied or no element is mounted, no state changes; no track of the new stream is stopped; the invariant is kept |
| `TryOnPage.TryOn.EnableCameraAsWritten` | src/pages/TryOn.tsx:43-62 | pressed in the start panel under the page's own rendering, the button leaves the camera off and the start panel shown, and drops a granted stream without stopping its tracks |
| `TryOnPage.TryOn.EnableCameraWithHiddenVideo` | src/pages/TryOn.tsx:43-62 | pressed in the start panel with the element mounted, a granted stream becomes the element's source and the video pane is shown; a denied one leaves the start panel |
| `TryOnPage.TryOn.Reset` | src/pages/TryOn.tsx:64-73 | both images are cleared, the camera is off and the preview is back to the start panel; every track of the held stream is stopped and the element's source is cleared; no other track changes |
| `TryOnPage.TryOn.StartApply` | src/pages/TryOn.tsx:75-115 | a submission the guard rejects makes no request and leaves `isGenerating` alone; an accepted one sets `isGenerating` and posts the captured frame or the uploaded image, the prompt and the selected category |
| `TryOnPage.TryOn.FinishApply` | src/pages/TryOn.tsx:117-138 | `isGenerating` ends false; on success `generatedImage` is the returned URL, on failure it is unchanged |
| `TryOnPage.TryOn.ApplyChanges` | src/pages/TryOn.tsx:75-139 | a rejected submission changes nothing; an accepted one ends with `isGenerating` false and `generatedImage` set from the reply on success and unchanged on failure |

## Left out

- Network and SDK calls: the gateway `fetch`, Vertex AI's `generateContent` and the page's `fetch` to the local server. They are parameters, as described above. A rejected gateway `fetch` carries an arbitrary message; which errors `fetch` raises is not modelled.
- Timing: the model does not cover timeouts or a relay call that is abandoned part-way.
- Deno `serve`, the `OPTIONS` pre-flight answer, CORS headers and console logging. They are transport and diagnostics with no decision logic.
- Unparsable JSON from the client or the gateway (`req.json()`, `response.json()` throwing). The model starts from parsed values.
- JSON fields that are numbers, booleans, arrays or objects. A field is `undefined`, `null` or a string. A numeric `imageBase64`, which would make `startsWith` or `replace` throw, is not modelled.
- `Relay.Prepare`: the environment variable `LOVABLE_API_KEY` is the flag `apiKeyConfigured`. Its value is not modelled.
- Auth routes, todo routes, the database pool, the multer upload route and static serving in backend/server.js. They are library, database and file-system calls outside the try-on handler.
- The Vertex AI client set-up and its safety settings. This is configuration.
- The repeated `const cors` declaration at backend/server.js:9. Module loading is not modelled.
- src/lib/api.ts and the components Features, Hero and Navigation. They are a fetch wrapper over `localStorage` and static markup with animation.
- The DOM and browser work on the page: `FileReader`, `getUserMedia`, canvas drawing and JPEG encoding, toasts, download links and JSX layout outside the preview. The file contents and the captured frame are opaque strings. React's rendering is modelled only for the `<video>` element and its ref, by `RenderAsWritten` and `RenderWithHiddenVideo`; when a render happens is up to the caller.
- React's asynchronous state: stale closures and batched updates are not modelled. Every state update takes effect at once.
- `Js.TrimStart`: the model works on Unicode scalar values, while JavaScript strings are UTF-16 code units. The two differ only for characters outside the Basic Multilingual Plane, and none of those is white space.

## Findings

| source | as written | input that shows it | evidently intended | confidence | as-written member | corrected member |
|---|---|---|---|---|---|---|
| src/pages/TryOn.tsx:46 | `<video ref={videoRef}>` is rendered only in the video pane (lines 208-214), but "Enable Camera" is rendered only in the start panel (line 186), so `videoRef.current` is null when the stream arrives and the camera never turns on | from the initial state, press "Enable Camera" and grant access: the start panel stays and the granted stream is dropped | the granted stream is shown in the video element and the camera becomes active | not executed | `TryOnPage.TryOn.EnableCameraAsWritten` | `TryOnPage.TryOn.EnableCameraWithHiddenVideo` |
