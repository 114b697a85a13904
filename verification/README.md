# BloomBot core, modelled in Dafny

BloomBot is a single-page plant assistant. The user uploads a photo, a generative
model identifies the plant against a fixed JSON response schema, and the
identified plants collect in a short session history. A chat panel streams the
gardening assistant's replies into the transcript chunk by chunk.

The model covers the pure state logic around those calls. Every external effect is
an explicit input: the model's response or failure, the JSON parser, the clock, the
file reader's data URL, and the chunk stream with its optional failure point.

| module | file | models |
|---|---|---|
| `Types` | `types.dfy` | `PlantCare`, `PlantInfo`, `ChatMessage`; difficulty and role as enums; `image` as an `Option` |
| `Json` | `json.dfy` | decoded JSON values; `toString` of the clock value; what `{ ...v }` copies out of a value |
| `Schema` | `schema.dfy` | the response schema, with its enum and required lists, as data; conformance of a value to it |
| `PlantRecord` | `plant_record.dfy` | the typed `PlantInfo` reading of an untyped record, and the record a `PlantInfo` writes out as |
| `GeminiService` | `gemini_service.dfy` | response decoding and record assembly at the end of `analyzePlantImage` |
| `History` | `history.dfy` | `addToHistory`: prepend, keep at most ten |
| `PlantAnalyzer` | `plant_analyzer.dfy` | `handleFileChange`, `processImage` and the clear button |
| `ChatInterface` | `chat_interface.dfy` | greeting, `handleSend` guard, user turn, placeholder, per-chunk rewrite, fallback turn |
| `App` | `app.dfy` | the history's initial state and its `onResult` feed from the scanner |

Behaviour of the code worth knowing:

- `analyzePlantImage` checks no required fields. A response that decodes always
  yields a record. An empty or absent response text yields a record with only `id`
  and `image`. There is therefore no schema-violation error, only a transport
  failure and a parse failure.
- The record's `image` is always a JPEG data URI, whatever the uploaded file's mime
  type was (`PlantAnalyzer.PngUploadIsRelabelledJpeg`).
- The record's `id` is the clock reading written in decimal. It is not guaranteed
  to be unique.
- The chat placeholder is found by timestamp equality, and every turn with that
  timestamp is rewritten. `ChatInterface.RewriteTouchesOnlyPlaceholder` and
  `ChatInterface.SendTranscript` assume the placeholder's timestamp is fresh.
  `ChatInterface.UserTurnSharingPlaceholderIdIsOverwritten` shows what happens
  otherwise.

## Model

| member | source | states |
|---|---|---|
| Types.ParseDifficulty | types.ts:17 | a string names a difficulty exactly when it is one of `Easy`, `Moderate`, `Challenging`, and reading it back gives that spelling |
| Types.DifficultyIsOneOfThree | types.ts:17 | every difficulty round-trips through its spelling; there are exactly three distinct spellings |
| Types.ParseRole | types.ts:22 | a string names a role exactly when it is `user` or `model` |
| Types.RoleIsUserOrModel | types.ts:22 | a chat role is user or model, with distinct spellings that round-trip |
| Json.NatToString | services/geminiService.ts:49 | the clock token is the canonical decimal spelling: a non-empty run of decimal digits, one digit long exactly below ten, with no leading zero |
| Json.ParseNatToString | services/geminiService.ts:49 | reading the decimal token back gives the clock value, so distinct clock values give distinct ids |
| Json.IndexEntriesKeys | services/geminiService.ts:49 | spreading an array yields only index keys, each the canonical decimal spelling (no leading zero) of a position below the array's length |
| Json.IndexEntriesValues | services/geminiService.ts:49 | spreading an array yields a property for every position, named by its decimal spelling and holding that element |
| Json.Spread | services/geminiService.ts:49 | spreading an object copies its fields; spreading anything else yields only index keys |
| Schema.Conforms | services/geminiService.ts:22-44 | a value conforming to a schema has its kind: objects for object schemas, strings for string and enum schemas |
| Schema.UndeclaredKeysAreAllowed | services/geminiService.ts:22-44 | keys the schema does not declare are not checked: adding one keeps an object conforming |
| Schema.RequiredKeyIsNeeded | services/geminiService.ts:43 | an object missing a required key does not conform |
| Schema.TopRequiredExcludesIdAndOrigin | services/geminiService.ts:22-44 | the top-level required set is exactly commonName, scientificName, description, care, difficulty; `id` and `origin` are declared but not required |
| Schema.CareRequiresEveryProperty | services/geminiService.ts:31-40 | within `care` the required list is exactly the list of declared properties |
| PlantRecord.AsPlantInfo | types.ts:10-19 | a record read as a `PlantInfo` carries every field but `image`; `image` is set exactly when the record has one |
| PlantRecord.RecordRoundTrip | types.ts:10-19 | writing a `PlantInfo` (or its care profile) out as a record and reading it back gives it unchanged |
| PlantRecord.DifficultyEnumMatchesType | services/geminiService.ts:30 | the schema's difficulty enum is the type's union of spellings, in order |
| PlantRecord.CareFieldsMatchSchema | types.ts:2-8 | `PlantCare` has exactly the five fields named in the schema's `care.required`, and as a record exactly those keys |
| PlantRecord.PlantInfoConforms | services/geminiService.ts:22-44 | every `PlantInfo`, written out, conforms to the response schema |
| PlantRecord.AsCare | types.ts:2-8 | a value reads as a care profile exactly when it is an object with the five care fields as strings, and the profile holds those strings |
| PlantRecord.CareRoundTrip | types.ts:2-8 | writing a care profile out and reading it back gives it unchanged |
| PlantRecord.ConformingCareIsPlantCare | services/geminiService.ts:31-41 | a value conforming to the care schema reads as a care profile holding the value's own five strings |
| PlantRecord.ConformingTopLevel | services/geminiService.ts:22-44 | a conforming response carries every required key, the three text fields as strings, a conforming care object and a difficulty from the enum |
| PlantRecord.ConformingRecordIsPlantRecord | services/geminiService.ts:22-44 | a conforming record that also has string `id` and `origin` passes every field check of `PlantInfo`, with the care profile read from its own `care` object |
| PlantRecord.ConformingRecordIsPlantInfo | types.ts:10-19 | a conforming record that also has string `id` and `origin` reads as a `PlantInfo` whose fields are the record's own |
| PlantRecord.ConformingWithoutOriginIsNotPlantInfo | types.ts:16 | `origin` is required by the type but not the schema, so a conforming record without it is not a `PlantInfo` |
| PlantRecord.ImageIsTheOnlyOptionalField | types.ts:10-19 | dropping `image` from a plant's record keeps the plant; dropping any other field loses it |
| GeminiService.JpegDataUri | services/geminiService.ts:49 | the image URI is the JPEG base64 header followed by exactly the payload |
| GeminiService.Decode | services/geminiService.ts:48 | absent or empty text reads as the empty object `'{}'`; any other text is whatever the parser makes of it, `None` for a throw |
| GeminiService.Assemble | services/geminiService.ts:49 | the record holds the decoded keys plus `id` and `image`; `id` is the clock token and `image` the JPEG data URI, overriding any response value; every other key is copied unchanged |
| GeminiService.AnalyzePlantImage | services/geminiService.ts:7-50 | a failed request fails; a response succeeds exactly when its text decodes, and the record is then the assembled spread: the clock `id`, the JPEG `image`, and every other key the decoded response's |
| GeminiService.IdIsClockToken | services/geminiService.ts:49 | the returned `id` is a digit string that reads back as the clock value |
| GeminiService.EmptyResponseCarriesOnlyIdAndImage | services/geminiService.ts:48-49 | absent or empty response text yields exactly `{id, image}`, which is not a `PlantInfo` |
| GeminiService.AssembledStillConforms | services/geminiService.ts:22-49 | overriding `id` with the string token and adding `image` keeps a conforming response conforming |
| GeminiService.ConformingResponseIsPlantInfo | services/geminiService.ts:40-49 | a response with every required key plus `origin` becomes a fully populated `PlantInfo`: clock `id`, JPEG `image`, all other fields verbatim |
| GeminiService.ResponseWithoutOriginIsNotPlantInfo | services/geminiService.ts:43-49 | schema conformance alone does not give a `PlantInfo`: without `origin` the assembled record is not one |
| GeminiService.PlantInfoNeedsRequiredKeys | services/geminiService.ts:48-49 | the assembled record is a `PlantInfo` only if the decoded value was an object with every top-level required key and `origin` |
| History.Empty | App.tsx:12 | the history starts empty |
| History.Add | App.tsx:14-16 | the new entry is at index 0, the length is min(old length + 1, 10), and each later entry is the old entry one place earlier |
| History.AddShiftsPrefix | App.tsx:15 | entries 1.. of the new history are the first min(old length, 9) old entries, in order |
| History.AddAtCapacityDropsOldest | App.tsx:15 | at ten entries, an add drops exactly the oldest one and keeps the other nine in order |
| History.AddBelowCapacityKeepsAll | App.tsx:15 | below ten entries, an add drops nothing |
| History.AddDoesNotDeduplicate | App.tsx:15 | there is no de-duplication: the entry's count is one more than among the entries kept, so below ten entries adding a plant already present gives one more copy of it; at ten a copy in the oldest slot is still dropped |
| History.AddAllFromEmpty | App.tsx:12-15 | from empty, any sequence of adds leaves the newest min(n, 10) entries, most recent first |
| History.AddAllBounded | App.tsx:12-15 | from empty, the history never exceeds ten entries |
| PlantAnalyzer.SplitOnComma | components/PlantAnalyzer.tsx:22 | a split yields at least one piece, and no piece contains a comma |
| PlantAnalyzer.JoinSplit | components/PlantAnalyzer.tsx:22 | joining the pieces of a split with commas gives back the data URL |
| PlantAnalyzer.SplitJoin | components/PlantAnalyzer.tsx:22 | splitting a comma-joined list of comma-free pieces gives back the pieces |
| PlantAnalyzer.SplitPayload | components/PlantAnalyzer.tsx:22 | the payload is undefined exactly when the data URL has no comma, and otherwise is comma-free |
| PlantAnalyzer.PayloadIsTheBody | components/PlantAnalyzer.tsx:22 | for a header and body without commas, the payload is exactly the body after the first comma |
| PlantAnalyzer.TemplateText | services/geminiService.ts:49 | the template literal writes a present payload verbatim and an absent one as `undefined` |
| PlantAnalyzer.CommaFreeUploadStoresUndefined | components/PlantAnalyzer.tsx:22 | a data URL without a comma requests no payload, and the stored `image` is the JPEG header followed by `undefined` |
| PlantAnalyzer.Begin | components/PlantAnalyzer.tsx:21-33 | starting an analysis shows the unmodified data URL, raises loading, and clears error and result |
| PlantAnalyzer.Complete | components/PlantAnalyzer.tsx:34-43 | on success the result is the record and it is reported once; on failure the error is the retry message and nothing is reported; loading is false after both |
| PlantAnalyzer.HandleFileChange | components/PlantAnalyzer.tsx:17-44 | with no file nothing changes and nothing is requested; otherwise the payload is requested, loading ends false, and exactly one of a reported result or the retry error is set |
| PlantAnalyzer.Clear | components/PlantAnalyzer.tsx:80 | clearing drops the preview and the result and leaves the error and the loading flag as they were |
| PlantAnalyzer.SuccessReportsStoredRecord | components/PlantAnalyzer.tsx:35-37 | a successful scan reports exactly the stored record, once, with no error; that record is the decoded response assembled with the clock `id` and the payload's JPEG `image` |
| PlantAnalyzer.FailureReportsNothing | components/PlantAnalyzer.tsx:38-43 | a failed scan reports nothing, keeps the result empty, sets the retry message and drops loading |
| PlantAnalyzer.JpegUploadRoundTrips | components/PlantAnalyzer.tsx:21-24 | for a JPEG data URL, the stored record's `image` equals the uploaded data URL |
| PlantAnalyzer.PngUploadIsRelabelledJpeg | services/geminiService.ts:49 | a PNG data URL does not round-trip: its payload is stored under the JPEG header |
| ChatInterface.Open | components/ChatInterface.tsx:18-20 | the transcript starts as exactly one model greeting, with empty input and no loading |
| ChatInterface.TrimStart | components/ChatInterface.tsx:29 | leading `trim` characters are dropped and the rest kept: the result is a suffix, all dropped characters are removable, and it does not start with one |
| ChatInterface.TrimEnd | components/ChatInterface.tsx:29 | trailing `trim` characters are dropped and the rest kept: the result is a prefix, all dropped characters are removable, and it does not end with one |
| ChatInterface.BlankIffTrimEmpty | components/ChatInterface.tsx:29 | `input.trim()` is empty exactly when every character is white space or a line terminator |
| ChatInterface.CanSendIffTrimmedInput | components/ChatInterface.tsx:29 | a send proceeds exactly when the trimmed input is non-empty and no send is in flight |
| ChatInterface.Submit | components/ChatInterface.tsx:31-34 | the user turn carries the untrimmed input and is appended after the existing turns; the input empties and loading rises |
| ChatInterface.OpenPlaceholder | components/ChatInterface.tsx:39-42 | an empty model turn stamped with the placeholder id is appended; input and loading are untouched |
| ChatInterface.RewriteSetsMatchingTurns | components/ChatInterface.tsx:46-48 | every turn whose timestamp is the placeholder id gets the new text and keeps its role and timestamp; every other turn is unchanged |
| ChatInterface.AppendFallback | components/ChatInterface.tsx:50-52 | the fallback reply is appended as a model turn after whatever the transcript holds |
| ChatInterface.Send | components/ChatInterface.tsx:27-56 | whitespace-only input or a send in flight leaves everything unchanged; otherwise input ends empty and loading ends false |
| ChatInterface.HandleSend | components/ChatInterface.tsx:27-56 | the chunk loop, which rewrites the placeholder with the accumulated text each time, ends in the same state as the send described above |
| ChatInterface.RewriteTouchesOnlyPlaceholder | components/ChatInterface.tsx:46-48 | when the placeholder's timestamp is unique, a chunk update rewrites its text, leaves every other turn unchanged and keeps the length |
| ChatInterface.AfterChunksKeepsRolesAndTimes | components/ChatInterface.tsx:44-48 | chunk updates change only texts, never roles or timestamps |
| ChatInterface.AfterChunksIsOneRewrite | components/ChatInterface.tsx:44-48 | after one or more chunks the transcript equals one rewrite with the concatenation of all chunks so far |
| ChatInterface.PlaceholderHoldsPrefixConcat | components/ChatInterface.tsx:39-48 | with a fresh placeholder id, after k chunks the transcript is the old one, the user turn, and a placeholder holding the in-order concatenation of the first k chunks |
| ChatInterface.SendTranscript | components/ChatInterface.tsx:27-56 | with a fresh placeholder id a send appends the untrimmed user turn, then either the fallback or the full reply, plus the fallback when the stream broke, keeping partial text |
| ChatInterface.SendOnlyAppendsOrRewrites | components/ChatInterface.tsx:32-53 | the transcript never shrinks and earlier turns keep their role and timestamp |
| ChatInterface.NoSecondSendWhileStreaming | components/ChatInterface.tsx:29-34 | while a stream is consumed loading is up, so a second send changes nothing |
| ChatInterface.CompletedSendIsOneRewrite | components/ChatInterface.tsx:31-49 | a completed stream leaves the old turns, the user turn and the placeholder, rewritten once with the whole reply |
| ChatInterface.UserTurnSharingPlaceholderIdIsOverwritten | components/ChatInterface.tsx:31-47 | if the user turn has the placeholder's timestamp, the reply text overwrites the user's own turn too |
| App.Deliver | App.tsx:14-16 | no reports leave the history as it was; after reports the history is non-empty, holds at most ten entries, and starts with the last record reported |
| App.Scan | App.tsx:14-23 | a scan feeds the scanner's reports to `addToHistory`: no report leaves the app unchanged, one report is added to the head of the history |
| App.SuccessfulScanHeadsHistory | App.tsx:14-23 | a successful scan puts its record at the head of the history, followed by the first min(n, 9) old entries |
| App.UnsuccessfulScanKeepsHistory | App.tsx:14-23 | a failed scan, or no file, leaves the history unchanged |
| App.HistoryStaysBounded | App.tsx:12-15 | from the initial empty history, no sequence of scans makes it hold more than ten records |
| App.FirstScanFromStartUp | components/PlantAnalyzer.tsx:11-14 | from the mounted scanner and the empty history, a first successful scan leaves a history of exactly its record and the scanner showing the image with no error |

## Left out

- The generative-model SDK calls (`generateContent`, `chats.create`,
  `sendMessageStream`), the model name, the thinking budgets, the prompt and the
  chat's system instruction. These are foreign network calls. Their outcomes are
  inputs: `GeminiService.Response` and `ChatInterface.StreamOutcome`.
- `JSON.parse` on non-empty text is an opaque library. It is a parameter
  `parse: string -> Option<Json>`, where `None` stands for a throw. `JSON.parse('{}')`
  is written out as the empty object.
- `FileReader`, the API key read from `process.env`, and `Date.now()` are I/O and
  the clock. Data URLs and clock readings are parameters.
- React scheduling, the scroll effect, timestamp formatting with
  `toLocaleTimeString`, and all markup and styling are presentation. So is the
  whole of components/Dashboard.tsx.
- Overlapping asynchronous calls are not modelled, for example clearing while a
  scan is in flight, or two scans racing. Each handler runs to completion as one
  step.
- ChatInterface.Send: chunk texts are taken to be strings. A chunk whose `text`
  is `undefined` would append the word "undefined" in the source.
- JSON numbers are kept as reals, not as binary floating point.
  Strings are sequences of Unicode scalar values rather than UTF-16 code units.
  So spreading a string with characters outside the Basic Multilingual Plane
  yields fewer index keys than JavaScript does.
- Json.NatToString: written for non-negative integers. JavaScript switches to
  exponent notation from 10^21, far beyond any clock reading.
- `console.error` logging in the two `catch` blocks is a side effect with no
  effect on state.
