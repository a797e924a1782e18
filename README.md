# math-mentor: the chat session and its AI gateway, in Dafny

math-mentor is a browser chat in which a student photographs a handwritten
math solution. The student then asks for a hint and, if that does not help, for
a full error analysis. A remote language model writes both answers. This
project models the two parts of the program that carry logic:

- **The session state machine of `App.tsx`.** It has three fields: the
  transcript `messages`, the `appState` (one of five values) and the uploaded
  `currentImage` data URL, or null. Four handlers change those fields. The two
  asynchronous handlers are split at their `await` into a *dispatch* step and
  a *resolve* step. Dispatch appends the pending "thinking" message and returns
  the payload to send. Resolve receives the gateway's string and the pending id,
  and replaces that message in place. The render code decides which controls
  are on screen, and it is the only thing that gates the handlers.
- **The fallback policy of `services/geminiService.ts`.** `getMathHint` and
  `getFullAnalysis` are each a single try/catch. The model treats each one as
  a function from the outcome of the SDK call to the string it returns. The
  request record each one builds is modelled too.

Files:

- `types.dfy` (module `Types`): the message, role, type and state enums of
  `types.ts`.
- `gemini_service.dfy` (module `GeminiService`): the outcomes, the request
  records and the two reply functions.
- `data_url.dfy` (module `DataUrl`): `currentImage.split(',')[1]`, the strip
  of the data-URL framing.
- `transcript.dfy` (module `Transcript`): the messages the handlers build, the
  spread-append and the replace-by-id `map`.
- `app.dfy` (module `App`) holds:
  - the control-visibility projection;
  - the handlers as one transition function `Step` over a `Snapshot`;
  - the reachable-state invariant and its preservation over admissible runs;
  - the class `Session`, whose methods are the handlers, each proved equal to
    `Step`.

Behaviour of the code that is easy to misread:

- **Upload replaces the transcript.** `setMessages([newMessage])` (App.tsx:41)
  drops any earlier messages.
- **`currentImage` is falsy for null and for `""`.** In both cases
  `!currentImage` holds, and both dispatch steps return without changing
  anything (App.tsx:49, 82).
- **`split(',')[1]` is the field between the first and the second comma.** It
  is not the whole rest of the string after the prefix, and it is `undefined`
  when the string has no comma. `DataUrl.StripsFraming` shows that, for a header and a body
  without commas, this is exactly the body.
- **Only the render code prevents a second dispatch.** The handlers themselves
  check nothing but `currentImage`. `Session`'s methods therefore take any
  state. The state machine's guarantees are proved for runs that use only the
  controls on screen (`App.Enabled`, `App.Admissible`).
- **Roles and the pending flag use the code's names.** The roles are
  USER/TEACHER and the pending flag is `isThinking`.

Clock readings (`Date.now()`) are parameters. An admissible run requires them
to be non-empty digit strings (`Transcript.IsStamp`). That alone keeps plain
ids, `thinking-…` ids and `thinking-full-…` ids apart.

## Model

| member | source | states |
|---|---|---|
| `GeminiService.MathHint` | services/geminiService.ts:16-44 | the hint reply is never empty, and a non-empty model text is returned unchanged |
| `GeminiService.FullAnalysis` | services/geminiService.ts:46-78 | the analysis reply is never empty, and a non-empty model text is returned unchanged |
| `GeminiService.MathHintFallbacks` | services/geminiService.ts:39-43 | an empty or missing text gives the "could not read the photo" apology; any failure of the call gives the hint error text and does not propagate |
| `GeminiService.FullAnalysisFallbacks` | services/geminiService.ts:73-77 | an empty or missing text gives the analysis apology; any failure gives the analysis error text |
| `GeminiService.MathHintIsModelText` | services/geminiService.ts:39 | a hint reply that is neither fallback equals `t` exactly when the model answered with the non-empty text `t` |
| `GeminiService.FullAnalysisIsModelText` | services/geminiService.ts:73 | an analysis reply that is neither fallback equals `t` exactly when the model answered with the non-empty text `t` |
| `GeminiService.FallbacksDistinct` | services/geminiService.ts:39-76 | within each operation the empty-result string and the failure string differ, and the two operations share no fallback |
| `GeminiService.HintRequest` | services/geminiService.ts:18-37 | the hint request carries the payload unmodified as `image/jpeg` inline data, with the hint task and a thinking budget of 1024 |
| `GeminiService.AnalysisRequest` | services/geminiService.ts:48-71 | the analysis request carries the payload unmodified as `image/jpeg` inline data, with the analysis task and a thinking budget of 2048 |
| `GeminiService.RequestsShareConfiguration` | services/geminiService.ts:18-70 | both requests use the same model and persona and differ only in task and budget, the analysis budget being larger; each request determines its payload |
| `DataUrl.IndexOf` | App.tsx:67 | the position of the first comma, absent exactly when the string has none |
| `DataUrl.SecondField` | App.tsx:67 | `split(',')[1]` is undefined exactly when there is no comma; otherwise it is the comma-free text right after the first comma, ending at the next comma or at the end |
| `DataUrl.StripsFraming` | App.tsx:31-32 | for `header + "," + body` with no comma in either part, the payload sent is exactly `body` |
| `Transcript.IdShapesDisjoint` | App.tsx:52-94 | the three id shapes built from stamps (plain, `thinking-`, `thinking-full-`) do not overlap |
| `Transcript.IdsDistinct` | App.tsx:85-94 | with clock stamps, a plain id, a `thinking-` id and a `thinking-full-` id never coincide |
| `Transcript.WithPendingHint` | App.tsx:53-62 | a hint dispatch appends exactly one pending TEACHER/TEXT message with id `thinking-<stamp>` and empty content, and keeps every earlier message |
| `Transcript.WithPendingAnalysis` | App.tsx:86-103 | an analysis dispatch appends the fixed USER/TEXT request with the plain stamp id, then a pending TEACHER/TEXT message with id `thinking-full-<stamp>` and empty content, and keeps every earlier message |
| `Transcript.ReplaceById` | App.tsx:72-76 | the `map` keeps length and order, resolves every message carrying the id to the text with `isThinking` false, and leaves every other message unchanged |
| `Transcript.ReplaceByIdIdempotent` | App.tsx:72-76 | resolving twice with the same text gives the same transcript as resolving once |
| `Transcript.ReplaceByIdAt` | App.tsx:110-114 | when only position `k` has the id, resolving updates exactly that position in place |
| `Transcript.ReplaceByIdAbsent` | App.tsx:72-76 | an id no message carries leaves the transcript unchanged |
| `App.Controls` | App.tsx:133-237 | upload is shown exactly when the transcript is empty, and then alone; nothing is shown exactly while a request is in flight; analysis is shown only in `HINT_GIVEN` and always with reset |
| `App.Step` | App.tsx:25-126 | apart from an upload or a reset the image is unchanged, and the transcript is only appended to or resolved in place (no message dropped, moved or re-identified); a resolve keeps the length; a reset gives the initial state |
| `App.InitialInv` | App.tsx:9-11 | the initial state satisfies the session invariant |
| `App.ResolveLast` | App.tsx:72-78 | in a reachable analysing state, resolving the last message's id updates that message alone |
| `App.StepPreservesInv` | App.tsx:25-122 | every handler step that the screen allows preserves the session invariant |
| `App.RunPreservesInv` | App.tsx:190-237 | every admissible run from an invariant state ends in an invariant state |
| `App.ReachableInv` | App.tsx:9-11 | every state reachable from the initial state satisfies the invariant: empty transcript exactly when there is no image, image first, length 0/1, 2 or 4 by state, and the last message pending exactly while analysing |
| `App.InvConsequences` | App.tsx:41-103 | in a reachable state at most one message is pending, one is pending exactly in `ANALYZING_*`, the first message is USER/IMAGE and no later message is an image |
| `App.ControlsByState` | App.tsx:133-237 | in a reachable state: upload only with an empty transcript, hint only when idle with an image, analysis and reset in `HINT_GIVEN`, reset alone in `FULL_REVIEW_GIVEN`, nothing while analysing |
| `App.AnalysisFollowsResolvedHint` | App.tsx:209-224 | an analysis can be requested only when the transcript holds the image and a teacher hint that is no longer pending |
| `App.ResolveFillsPending` | App.tsx:72-78 | resolving sets the text and clears `isThinking` on the pending message only, with any text moves to `HINT_GIVEN`/`FULL_REVIEW_GIVEN`, keeps the image, and is idempotent |
| `App.ResetFromAnywhere` | App.tsx:119-122 | reset from any state gives an empty transcript, no image and `IDLE` |
| `App.FullSessionScenario` | App.tsx:25-117 | upload, hint and analysis with gateway replies for any outcomes form an admissible run that ends in `FULL_REVIEW_GIVEN` with the four expected messages and non-empty replies; a failed analysis shows the error text |
| `App.Session.constructor` | App.tsx:9-11 | a new session has an empty transcript, `IDLE` and no image |
| `App.Session.FileSelect` | App.tsx:25-46 | no file changes nothing; a file replaces the transcript with one USER/IMAGE message holding the data URL, stores the same string as `currentImage`, and sets `IDLE` |
| `App.Session.DispatchHint` | App.tsx:48-69 | with no (or an empty) image nothing changes; otherwise one pending TEACHER message is appended, the state is `ANALYZING_HINT`, and the stripped payload is returned with the pending id |
| `App.Session.ResolveHint` | App.tsx:71-78 | the transcript becomes the replace-by-id of the old one, the state `HINT_GIVEN`, and the image is kept |
| `App.Session.DispatchAnalysis` | App.tsx:81-107 | with no image nothing changes; otherwise the fixed request and a pending TEACHER message are appended in that order, the state is `ANALYZING_FULL`, and the payload is returned |
| `App.Session.ResolveAnalysis` | App.tsx:109-116 | the transcript becomes the replace-by-id of the old one, the state `FULL_REVIEW_GIVEN`, and the image is kept |
| `App.Session.Reset` | App.tsx:119-126 | the transcript is empty, the image null and the state `IDLE` |

## Left out

- The `GoogleGenAI` client, `generateContent` and the network: a foreign SDK. Its result is the abstract `GeminiService.Outcome`, either an answer whose `text` may be undefined or empty, or a thrown failure.
- The wording of the system instruction and of the two task prompts: the request names them as `Prompt` values instead. Also left out: `console.error` logging and the API-key environment variable.
- `FileReader` / `readAsDataURL` are browser I/O. Upload receives the data URL as a string. A `reader.result` that is not a string is not modelled.
- `Date.now()`: its readings are parameters of the handlers.
- DOM refs, auto-scrolling and the clearing of the file input on reset: presentation only.
- The JSX, the styling and the welcome screen. Only the visibility conditions are kept, as `App.Controls`.
- React's async scheduling: double clicks, stale closures and interleaved requests. Dispatch and resolve are separate atomic steps, and no concurrency is modelled.
- components/MessageBubble.tsx and components/Layout.tsx: pure presentation.
- App.Session.DispatchHint: the payload is `Option<string>`. When the image has no comma, the source passes `undefined` to the gateway. What the SDK does with that is outside the model; it surfaces only as some `Outcome`.
- App.StepPreservesInv: the invariant says nothing about the content of resolved messages, because resolve takes any string. Non-emptiness of the replies is proved where the gateway's functions supply them (`App.FullSessionScenario`).
