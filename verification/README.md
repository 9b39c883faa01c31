# voice: a verified model of the text-to-speech proxy and its browser client

The repository is a small text-to-speech studio. An Express proxy (`server.ts`) forwards
requests to the ElevenLabs speech service, or answers from built-in mock catalogs and a
sample recording when no usable credential is at hand. A React page (`src/App.tsx`)
charges credits per character, keeps a generation history and a counter in local
storage, and can generate several "scenes" in one go, downloading each result.

The model has these modules:

- `Proxy` holds the decisions of the three routes (`GET /api/voices`, `GET /api/models`,
  `POST /api/tts`). Each is a pure function of the request, the configured default key
  and the abstract outcome of each outbound call: `Ok(data)`, `HttpErr(status, payload,
  message)` or `NetErr(message)`. The result is a JSON answer with a status, or audio
  bytes.
- `Catalog` holds `MOCK_VOICES` (39 entries) and `MOCK_MODELS` (5 entries), and their
  JSON form.
- `Json` and `Text` hold the JavaScript semantics the code relies on: truthiness, `a || b`,
  `v?.key`, `trim`, `toLowerCase`, `includes`, `startsWith`, `padStart` and decimal
  printing.
- `Client` holds the page's bookkeeping as pure functions: cost, history entry, file
  name, scene edits, history deletion, voice search, the error text shown, and `Run` and
  `Generate`. These describe one press of "generate" in scene and single mode.
- `Studio` holds the page as a class `App`. Its fields are the React state and the two
  local-storage entries it writes (`tts_history`, `tts_total_created`), plus the files
  handed to the download link. Its handlers are methods proved against `Client`'s functions.
  The scene loop keeps `currentHistory` and `currentCredits` as the code does. Its loop
  invariant ties the state to `Run` over the scenes still to come.
- `ProxyProperties`, `ClientProperties` and `EndToEnd` hold the properties.

Each synthesis request of the page is abstracted as a `Delivery`. It holds what became of
the request (a reply below status 500, or a thrown request error), the random id, the
clock reading and the object URL the browser would supply. `generateTTS` checks its cost
against the `credits` value the calling handler captured. The model passes that value
as `budget`. In scene mode it is the same value for every scene, so the credits can go
below zero (`ClientProperties.SceneModeCanOverdraw`).

Three facts about the code that the model keeps as written:

- `MOCK_VOICES` has 39 entries (server.ts:26-66).
- After an upstream failure, `GET /api/models` serves the catalog without the `is_mock`
  tag (server.ts:125). Only the no-credential path tags it.
- `POST /api/tts` takes the mock path on `!apiKey` (server.ts:153), while the other two
  routes test `isKeyValid`. So a short non-empty key such as `"short"` goes upstream.

## Model

| member | source | states |
|---|---|---|
| Json.Member | server.ts:193 | `v?.key` is a value exactly when `v` is an object holding the key, and then it is that field |
| Json.OrElse | server.ts:193 | `a \|\| b` is `a` when present and truthy, else `b` |
| Text.TrimEmptyIffBlank | src/App.tsx:129 | `s.trim()` is empty exactly when every character of `s` is whitespace, so the blank tests are `IsBlank` |
| Proxy.ResolveKey | server.ts:84-85 | the header key when present and non-empty, otherwise the configured default |
| Proxy.MockVoicesBody | server.ts:88 | the mock answer has exactly the keys `voices` and `is_mock`: the 39 catalog voices as JSON, in order, and `is_mock: true` |
| Proxy.HandleVoices | server.ts:83-104 | the voices route always answers 200 with an object carrying `is_mock` |
| Proxy.TaggedModelJson | server.ts:111 | a tagged catalog model has exactly the keys `model_id`, `name` and `is_mock` |
| Proxy.TaggedMockModels | server.ts:111 | one tagged entry per catalog model, in catalog order |
| Proxy.HandleModels | server.ts:106-127 | the models route always answers 200 |
| Proxy.IsKeyValid | server.ts:76-80 | true exactly when the key is present, longer than 20 characters and free of `YOUR_API_KEY` |
| Proxy.PlanTts | server.ts:145-177 | rejected with the 400 missing-fields answer exactly when the text or the voice id is missing or empty. An upstream call carries the request's voice id and text and the resolved non-empty key. The model id is the request's when non-empty, else `eleven_multilingual_v2`; the settings are the request's when truthy, else the defaults |
| Proxy.ServeMockAudio | server.ts:129-142 | audio exactly when the sample fetch succeeded, with the sample's bytes; otherwise 500 with the fixed message |
| Proxy.ErrorMessage | server.ts:188-201 | an undecodable or `null` byte-buffer payload gives the error's own message; a decoded byte-buffer document gives its `detail.message`, its `error.message` or the generic text; any other payload gives its truthy `error` field or the error's own message. The order between the choices is `ProxyProperties.ErrorMessagePrecedence` |
| Proxy.ErrorBody | server.ts:202 | an error answer's body has exactly one key, `error`, holding the message |
| Proxy.FailureStatus | server.ts:202 | `status \|\| 500` is never 0 and keeps a non-zero status |
| Proxy.HandleTts | server.ts:144-204 | every JSON answer of the synthesis route has a non-zero status and a body whose only key is `error` |
| ProxyProperties.KeyValidIff | server.ts:76-80 | a key is usable exactly when present, longer than 20 characters and free of `YOUR_API_KEY`; absent and empty keys are not |
| ProxyProperties.PlaceholderAnywhereRejected | server.ts:79 | the placeholder anywhere in a key disqualifies it, whatever its length |
| ProxyProperties.LengthThreshold | server.ts:79 | the length bound is strict: 20 characters are rejected and 21 clean characters accepted |
| ProxyProperties.HeaderTakesPrecedence | server.ts:146-147 | a non-empty header key wins; an empty or missing header falls back to the default |
| ProxyProperties.VoicesMockIff | server.ts:87-103 | `is_mock` is true exactly when the key is unusable or the upstream call failed; then the body is the mock catalog, otherwise the upstream object with `is_mock: false` |
| ProxyProperties.VoicesWithoutCredential | server.ts:87-89 | with no credential the answer is the 39-voice mock catalog with status 200 |
| ProxyProperties.VoicesAuthRejectionIsMock | server.ts:96-103 | an upstream 401 or 403 gives the same answer as a network failure, the mock catalog |
| ProxyProperties.VoicesNoCallWithoutKey | server.ts:87-89 | without a usable key the upstream outcome cannot change the answer |
| ProxyProperties.ModelsWithoutKeyTagged | server.ts:110-112 | without a usable key all 5 catalog models are served in order, each with its id, name and `is_mock: true` |
| ProxyProperties.ModelsAfterUpstream | server.ts:113-126 | on upstream success the payload is passed on unchanged; on failure the catalog is served with no entry tagged |
| ProxyProperties.ModelsFallbackUntagged | server.ts:110-125 | the no-key answer and the failure answer of the models route always differ |
| ProxyProperties.TtsMissingFieldsRejected | server.ts:149-151 | missing or empty text or voice id gives 400 `{error: "Missing text or voiceId"}`, whatever any outbound call would do |
| ProxyProperties.TtsMockPathIff | server.ts:153-155 | the mock path is taken exactly when both fields are present and the key is empty or the voice id starts with `vi_vn_`, and then the answer is the sample, whatever the upstream call would do |
| ProxyProperties.TtsReservedVoiceAlwaysMock | server.ts:153-155 | a `vi_vn_` voice id is always answered from the sample, whatever the key |
| ProxyProperties.TtsShortKeyGoesUpstream | server.ts:153 | the key `"short"` fails the key check yet goes upstream |
| ProxyProperties.TtsUpstreamSuccessAnd404 | server.ts:179-186 | on the upstream path, success passes the audio through and an upstream 404 falls back to the sample |
| ProxyProperties.TtsOtherFailureSurfaced | server.ts:188-202 | any other upstream failure is `{error}` with the upstream status (500 when absent or 0) and the chosen message; the sample is not fetched |
| ProxyProperties.TtsDetailMessageDecoded | server.ts:189-193 | a binary error body with a non-empty `detail.message` becomes `{error: that message}` with the upstream status |
| ProxyProperties.ErrorMessagePrecedence | server.ts:188-201 | `detail.message` before `error.message` before the default; an undecodable body or `null` gives the error's own message; a decoded payload's truthy `error` field is used as it is, otherwise the error's own message |
| ProxyProperties.TtsStatusOrigin | server.ts:149-202 | every JSON answer of the synthesis route has status 400, 500 or the upstream's own status |
| ProxyProperties.ReservedMockVoices | server.ts:26-66 | the catalog has 39 voices, and exactly the last four carry the `vi_vn_` prefix |
| Catalog.VoiceJson | server.ts:26-66 | a voice is served as an object with exactly `voice_id`, `name` and `labels`, carrying its id and name |
| Catalog.ModelJson | server.ts:68-74 | a model is served as an object with exactly `model_id` and `name`, carrying its id and name |
| Catalog.MockVoicesJson | server.ts:26-66 | one JSON voice per catalog voice, in catalog order |
| Catalog.MockModelsJson | server.ts:68-74 | one JSON model per catalog model, in catalog order |
| Client.CostPerChar | src/App.tsx:131 | 2 credits per character exactly for `eleven_v3_alpha`, 1 otherwise |
| Client.TotalCost | src/App.tsx:132 | the cost is the length for ordinary models and exactly twice the length for `eleven_v3_alpha`, and zero only for empty text |
| Client.HistoryText | src/App.tsx:180 | at most 53 characters; the input itself up to 50 characters, otherwise its first 50 followed by `...` |
| Client.IndexOrZero | src/App.tsx:297 | the entry's index when it has one, else 0 |
| Client.PaddedIndex | src/App.tsx:190 | at least three decimal digits that read back as the index, with no leading zero beyond the padding to three |
| Client.DownloadName | src/App.tsx:191 | the file name is the padded digits of the index, then `_`, the voice name and `.mp3` |
| Client.AddScene | src/App.tsx:114 | the scenes followed by one empty scene |
| Client.SpliceStart | src/App.tsx:118 | where `splice` starts: an in-range index itself, a negative index counted from the end |
| Client.RemoveScene | src/App.tsx:115-121 | a single scene is kept; otherwise exactly the element at the index is removed, an index past the end changes nothing, and one scene always remains |
| Client.UpdateScene | src/App.tsx:122-126 | the given index gets the value, every other scene and the length are unchanged |
| Client.ValidScenes | src/App.tsx:225 | the non-blank scenes exactly, in their order, each as often as in the input |
| Client.DeleteHistory | src/App.tsx:289 | exactly the entries with another id remain, in their order, each as often as before |
| Client.MatchesSearch | src/App.tsx:643-644 | the empty query matches every voice |
| Client.FilterVoices | src/App.tsx:643-644 | exactly the voices whose name or description contains the query case-blindly, in catalog order, each as often as in the catalog |
| Client.FoundNameOr | src/App.tsx:174 | the name of the first voice with the selected id when that name is non-empty, otherwise the fallback |
| Client.VoiceNameFor | src/App.tsx:174 | never empty: `Unknown` when no voice has the selected id, otherwise the name of the first voice with that id, or `Unknown` when that name is empty |
| Client.ReplyErrorValue | src/App.tsx:154-163 | an unparsable or `null` reply gives a non-empty string, its raw text when that is non-empty |
| Client.ReplyError | src/App.tsx:154-170 | a 401 always throws the fixed key message; otherwise a string message read from the reply is thrown as is and any other value as its JSON text |
| Client.Entry | src/App.tsx:178-185 | the new entry takes its id, timestamp and audio URL from the delivery, the shortened text `HistoryText(input)`, the voice name and the creation number as index |
| Client.GenerateOutcome | src/App.tsx:128-196 | null exactly for blank input; an entry is charged its cost, within the budget, and numbered with the next counter value |
| Client.Record | src/App.tsx:175-187 | the counter and the history grow by one exactly for a new entry; the error is set exactly when one was already set or the call threw |
| Client.Step | src/App.tsx:128-196 | blank input changes nothing; the counter grows by at most one |
| Client.Run | src/App.tsx:232-243 | a state already in error is left alone; the counter grows by at most the number of scenes, and by exactly as much as the history |
| Client.PreviewText | src/App.tsx:201-203 | the preview sentence is never blank, so a preview always reaches the request |
| Client.Preview | src/App.tsx:198-217 | a preview leaves the history, the stored history, the credits and the downloads unchanged |
| Client.ShownError | src/App.tsx:267-269 | the shown error is never empty, and a non-empty message is shown unchanged |
| Client.Generate | src/App.tsx:219-250 | scene mode with no non-blank scene, and single mode with blank text, only set their error message |
| ClientProperties.DownloadNameInjective | src/App.tsx:189-191 | two different counter values never give the same file name for a voice |
| ClientProperties.FileNamesDiffer | src/App.tsx:189-191 | two files of one voice with different counter values are saved under different names |
| ClientProperties.DownloadNamesDistinct | src/App.tsx:175-191 | the file names downloaded in one scene run are pairwise distinct |
| ClientProperties.HistoryTextIdempotent | src/App.tsx:180 | truncating a history text again changes nothing |
| ClientProperties.RemoveSceneNegativeIndex | src/App.tsx:115-121 | a negative index removes the scene counted from the end, or the first one when it reaches past the start |
| ClientProperties.DeleteAbsentId | src/App.tsx:288-292 | deleting an id no entry has leaves the history as it was |
| ClientProperties.DeleteHistoryIdempotent | src/App.tsx:289 | deleting an id twice is deleting it once |
| ClientProperties.DeleteUndoesPrepend | src/App.tsx:289 | deleting an entry just prepended with a fresh id restores the earlier history |
| ClientProperties.EmptySearchKeepsAll | src/App.tsx:643-644 | the empty search offers every voice, in order |
| ClientProperties.SearchIgnoresQueryCase | src/App.tsx:643-644 | searching the lower-cased query offers the same voices |
| ClientProperties.RejectedKeyMessageFixed | src/App.tsx:164-167 | a 401 reply shows the fixed key message, whatever its body |
| ClientProperties.ReplyMessagePrecedence | src/App.tsx:154-163 | an unparsable or `null` reply gives its text or the generic text; otherwise a truthy `error`, then a truthy `detail.message`, then the document itself when a string, then the generic text |
| ClientProperties.ReplyDocumentShown | src/App.tsx:158-168 | a string document is thrown as it is, an empty one included; a non-string `error` value is thrown as its JSON text |
| ClientProperties.UnparsableReplyShowsText | src/App.tsx:159-163 | an unparsable error reply shows its raw text, or the generic text when empty |
| ClientProperties.ValidScenesNoBlank | src/App.tsx:225 | no kept scene is blank |
| ClientProperties.ValidScenesOfNoBlank | src/App.tsx:225 | filtering scenes that are all non-blank keeps them all |
| ClientProperties.GenerateOutcomeSpec | src/App.tsx:128-196 | `generateTTS` gives null exactly for blank input and throws before any request when the cost exceeds the budget. It gives an entry exactly when the input is affordable and the reply is audio. The entry is paid at its cost, numbered with the next counter value and, when asked, downloaded under its name. The mock-raising case happens exactly on a 401 |
| ClientProperties.RunCount | src/App.tsx:235-243 | the loop gets through a prefix of the scenes, one new entry each, and ends without error exactly when it got through all of them |
| ClientProperties.RunKeepsHistory | src/App.tsx:232-243 | the new entries stand in front of the whole old history, and the stored history follows the shown one |
| ClientProperties.RunEntries | src/App.tsx:235-243 | the new entries are newest first, each made from its scene and reply and numbered on from the counter |
| ClientProperties.RunCharges | src/App.tsx:233-241 | the credits drop by exactly the cost of the scenes got through, each of which cost no more than the captured credits |
| ClientProperties.RunDownloads | src/App.tsx:236-243 | one file is downloaded per scene got through, named with the successive counter values, in order |
| ClientProperties.RunStopsAtFirstFailure | src/App.tsx:235-268 | an error stops the loop at the first scene not got through, and it is that scene's error; only a 401 there raises the mock flag |
| ClientProperties.EachSceneCheckedAgainstCapturedBudget | src/App.tsx:233-241 | with every scene affordable on its own and every reply audio, all scenes are generated and the credits drop by their total cost |
| ClientProperties.SceneModeCanOverdraw | src/App.tsx:233-241 | two 8-character scenes with 10 credits are both generated and leave -6 credits |
| ClientProperties.SceneModeRuns | src/App.tsx:224-243 | with a non-blank scene, scene mode clears the error and runs the loop over the non-blank scenes against the credits at the start |
| ClientProperties.SceneLoopOutcome | src/App.tsx:232-243 | the scene loop's history, entries and credits as in the three lemmas above, together |
| ClientProperties.SingleModePrependsOne | src/App.tsx:251-257 | single mode prepends exactly one entry, charges exactly its cost and stores the new history; a failure changes neither |
| ClientProperties.PreviewConsumesNumber | src/App.tsx:198-217 | a preview that yields audio changes only the stored counter, so the next generation is numbered two past the counter the preview began with |
| ClientProperties.PreviewRejectedKey | src/App.tsx:198-217 | a preview rejected with 401 shows the fixed key message and raises the mock flag, nothing else |
| Studio.App.constructor | src/App.tsx:45-79 | the first render: one empty scene, single mode, 300000 credits, the default model, the mock flag raised, and the saved history read back |
| Studio.App.AddScene | src/App.tsx:114 | the scenes become `Client.AddScene` of the old scenes |
| Studio.App.RemoveScene | src/App.tsx:115-121 | the scenes become `Client.RemoveScene` of the old scenes; at least one scene remains |
| Studio.App.UpdateScene | src/App.tsx:122-126 | the scenes become `Client.UpdateScene` of the old scenes, same length |
| Studio.App.DeleteHistory | src/App.tsx:288-292 | the shown and the stored history become `Client.DeleteHistory` of the old history |
| Studio.App.DownloadAudio | src/App.tsx:294-300 | the entry's file, with a missing index read as 0, is downloaded |
| Studio.App.GenerateTts | src/App.tsx:128-196 | returns what `GenerateOutcome` describes. It raises the mock flag exactly on a 401 and bumps the stored counter exactly on success. It downloads exactly the new entry's file when asked |
| Studio.App.GenerateScene | src/App.tsx:236-243 | one pass of the scene loop (with its catch) takes the state to `Step` of the old state, and keeps the running copies equal to the state |
| Studio.App.RunScenes | src/App.tsx:232-243 | the loop over the non-blank scenes takes the state to `Run` of the old state |
| Studio.App.GenerateText | src/App.tsx:251-257 | single mode (with its catch) takes the state to `Step` of the old state |
| Studio.App.HandlePreview | src/App.tsx:198-217 | `handlePreview` takes the state to `Preview` of the old state with the preview sentence for the selected voice |
| Studio.App.HandleGenerate | src/App.tsx:219-273 | `handleGenerate` takes the state to `Generate` of the old state |
| EndToEnd.ProxyTtsErrorReachesUser | src/App.tsx:154-170 | a JSON answer of the proxy with status 400 to 499, whatever the content type `res.json` gives it, makes `generateTTS` throw: the key message exactly at 401, otherwise the proxy's non-empty `error` text itself. A lower status does so only when typed exactly `application/json` |
| EndToEnd.MissingTextShownToUser | server.ts:149-151 | a synthesis request without text gets the proxy's 400, and the page throws exactly its message |

## Left out

- Rendering is not modelled: JSX, animation, icons and `src/components/Slider.tsx`.
- Server start-up and static serving (server.ts:207-232) depend on Vite, Express and the environment.
- Network calls are abstract outcomes given as parameters: upstream calls, the sample fetch and the page's request to the proxy (`Delivery`).
- The text of the error axios throws for a proxy status of 500 or more, or for no response, is a parameter (`Thrown(message)`).
- The 1.5-second delay before the sample and the 5-second timeouts are left out; a timeout is one kind of `NetErr`.
- `TextDecoder` and `JSON.parse` are left out. The proxy receives an error payload already decoded or parsed, and the page receives a reply's text together with its parsed form.
- Random ids, `Date.now` timestamps and object URLs come in through `Delivery`.
- The download link click is modelled as a `Download` appended to `downloads`. It holds the counter value and the voice name that `Download.FileName` spells the name from.
- Audio playback is not modelled: `togglePlay`, and the part of `handlePreview` that plays the new audio and sets `playingId`. The `previewLoading` guard is not modelled either; `HandlePreview` is the handler once it has passed.
- On the page, fetching the voice and model lists and changing the key (`fetchVoices`, `fetchModels`, `handleApiKeyChange`) are not modelled, nor are the key's local-storage entry and the header it adds.
- The `loading` flag is not modelled.
- React's asynchronous state updates and overlapping handlers are not modelled. A handler runs alone and reads the state as it was when it began, which is where the captured credits come from.
- Voice settings are floating point (`stability / 100` and so on) and are not modelled; requests carry JSON values.
- Request fields that are not strings, and upstream voice lists that are not objects, are left out; the model takes strings and an object map.
- Client.TotalCost counts characters, whereas JavaScript's `length` counts UTF-16 code units, so characters outside the Basic Multilingual Plane cost one credit here and two in the page.
- Client.HistoryText cuts after 50 characters, whereas `substring(0, 50)` cuts after 50 UTF-16 code units and can split a surrogate pair.
- Proxy.IsKeyValid compares the number of characters with 20, whereas `key.length` counts UTF-16 code units.
- Text.Lower lower-cases ASCII letters only, whereas `toLowerCase` maps all of Unicode; `Client.FilterVoices` inherits this.
- Client.UpdateScene requires an existing index. An index at or past the end would make JavaScript extend the array with holes, and the page never passes one.
- Studio.App.constructor takes the stored counter as a natural number; a corrupted `tts_total_created` value, which `parseInt` would read as `NaN`, is not modelled.
- Console logging is not modelled: `console.warn` at server.ts:98, 121 and 184, `console.error` at server.ts:100, 123 and 139, and `console.error("TTS Error:", …)` at src/App.tsx:268. On the voices and models routes the warning is the only thing that tells a 401 or 403 rejection from any other failure; the answers, which the model states, are the same.
- The page's counter, credits and costs are JavaScript numbers, exact only below 2^53, and `toString` switches to exponent notation from 1e21. The model uses unbounded integers, so `ClientProperties.DownloadNameInjective` and `ClientProperties.DownloadNamesDistinct` hold here for every counter value, and in the page only below those bounds.
