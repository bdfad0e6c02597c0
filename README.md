# Lambeck LLM Studio: a Dafny model of its session, settings and backend logic

Lambeck LLM Studio is a browser chat front-end with a small FastAPI backend.
This project models the logic of its three main source files that has a
fixed order of steps, and proves properties of that model:

- **`app.js`, the current front-end: module `Session`, class `ChatSession`.**
  It holds the conversation list mirrored from the conversation store, the
  active conversation id, the parent→children branch index and the message
  counter. It also holds the four preferences: theme, voice output, sound
  effects and auto-scroll. Each answer from the conversation store or the
  settings endpoint is a method parameter. Every request the front-end
  sends is appended to the `requests` field, so a contract can say that
  nothing was sent. Persistence calls queued with `queueMicrotask` go on
  the `pending` field, and `RunMicrotask` runs them one at a time.
- **`app_old.js`, the older front-end: module `Studio`, class `StudioApp`.**
  It holds the chat history and its message counter, the token estimate,
  and the five locally stored preferences. It also models the "model
  loaded" checks made by `updateUI` and by `sendMessage`, model loading and
  unloading, and the toast icons.
- **`app.py`, the backend: module `Backend`.** It models the placeholder
  `ModelHandler.generate`, the mapping the `/chat` endpoint applies to
  exceptions, `find_model_path`, and the missing-file check of the index
  page. Whether a path exists (as a file or a directory) is passed in as a predicate.

Three supporting modules are shared:

- `JsValues` models JavaScript values as these scripts see them. It
  defines truthiness, `||`, `!== undefined`, ToString (used by template
  literals and property keys) and JavaScript's whitespace set.
- `Text` defines stripping both ends of a string, over any whitespace set.
- `Themes` holds the theme toggle and the theme selector. Both front-ends
  behave the same here.

Things a reader should know about the model:

- **The branch index.** It is keyed by the property key of `parent_id`,
  exactly as JavaScript objects are. So a numeric parent `7` and a string
  parent `"7"` share one entry (`NumericAndStringParentsShareKey`), while
  distinct numbers never collide (`JsValues.NumKeysDistinct`). Creating a
  conversation prepends it to the list but does not rebuild the index. The
  class invariant `ChatSession.Valid` therefore says that the index always
  describes the list as of the last successful refresh.
- **The active conversation.** `app.js` does not keep the active id inside
  the conversation list. A refresh never replaces a truthy active id, even
  when the new list does not contain it (`AdoptedActive`).
- **The two "model loaded" checks in `app_old.js` differ.** `updateUI`
  enables the controls unless `currentModel` is `null` or `''`.
  `sendMessage` refuses any falsy model. So for `undefined`, `false` and
  `0` the controls are enabled but sending only adds the "Please load a
  model first!" notice (`Studio.ModelGatesDisagree`).
- **Trimming and stripping differ.** The old front-end trims the input with
  JavaScript's whitespace set, and the backend strips with Python's
  `str.isspace` set. The two sets differ, so a message consisting of U+0085
  is sent by the front-end and refused by the backend with 400
  (`Backend.TrimAndStripDisagree`).

## Model

| member | source | states |
|---|---|---|
| JsValues.Or | app.js:618 | `a \|\| b` yields the left operand when it is truthy and the right one otherwise |
| JsValues.DefinedOr | app.js:619-621 | `a !== undefined ? a : b` yields `a` exactly when it is defined |
| JsValues.NatDecimal | app.js:449-454 | the numeral used as a property key is non-empty, all digits, with no leading zero |
| JsValues.NatDecimalRoundTrip | app.js:449-454 | reading the printed numeral back gives the number |
| JsValues.IntDecimalRoundTrip | app.js:449-454 | reading a printed integer, sign included, back gives the integer |
| JsValues.NumKeysDistinct | app.js:449-454 | distinct numeric parent ids give distinct property keys in the branch index |
| Text.ContentStart | app_old.js:433 | the scan stops at the first character that is not whitespace, and everything it passed is whitespace |
| Text.ContentEnd | app_old.js:433 | the backward scan stops after the last character that is not whitespace, and everything it passed is whitespace |
| Text.Strip | app_old.js:433 | the result is a slice of the input, both parts cut off are whitespace, and a non-empty result neither starts nor ends with whitespace |
| Text.StripEmptyIffAllSpace | app.py:52 | stripping leaves nothing exactly when the input is all whitespace |
| Text.StripIdempotent | app_old.js:433 | stripping a stripped string changes nothing |
| Themes.Toggled | app.js:114-119 | the toggle gives 'light' exactly after 'dark', and otherwise 'dark' |
| Themes.Resolved | app.js:121-130 | 'auto' follows the system preference; any other choice is kept verbatim; the result is never 'auto' |
| Themes.ToggleTwice | app.js:114-119 | toggling twice restores the theme exactly when it was 'dark' or 'light', and otherwise ends on 'light' |
| Themes.ResolvedIdempotent | app.js:121-130 | choosing the theme that is already resolved changes nothing |
| Session.ChildrenOfNonEmpty | app.js:449-454 | a key has a non-empty child list exactly when some conversation's truthy parent_id converts to that key |
| Session.FileConversation | app.js:450-453 | one `reduce` step: a conversation without a truthy parent_id leaves the index as it is; otherwise its id is appended to its parent key's list, creating the list if missing, and every other key is untouched |
| Session.BranchIndexSnoc | app.js:449-454 | one step of the `reduce` turns the index of a list into the index of that list plus one more conversation |
| Session.BuildBranchIndex | app.js:449-454 | the loop over the list builds exactly `BranchIndex` of the list |
| Session.ChildrenOfHolds | app.js:449-454 | an id is in a key's child list exactly when a conversation with that id is filed under the key |
| Session.ChildrenOfConcat | app.js:449-454 | child lists keep list order: the children of a concatenation are the children of the first part followed by those of the second |
| Session.RootsGiveEmptyIndex | app.js:450 | a list in which no conversation has a truthy parent_id gives an empty index |
| Session.RootFiledNowhere | app.js:450 | a conversation without a truthy parent_id is filed nowhere: appending it to any list leaves the index unchanged |
| Session.BranchIndexExample | app.js:449-454 | conversations 1 (a root), 2 and 3 (both children of 1) give exactly {"1": [2, 3]} |
| Session.NumericAndStringParentsShareKey | app.js:451-452 | parent ids 7 and "7" are filed under the same key, in list order |
| Session.AdoptedActive | app.js:455-457 | a refresh adopts the first conversation's id only when no conversation is active and the list is non-empty; a truthy active id is never replaced |
| Session.EnsuredId | app.js:483-489 | the resolved id is the truthy active id, or else the created id, or else null when creation fails |
| Session.CreationRequests | app.js:484-485 | a creation request is sent exactly when no conversation is active, and at most one |
| Session.ListAfterEnsure | app.js:483-489 | the list grows by exactly the created record, at the front, when no conversation was active and creation succeeded, and is unchanged otherwise |
| Session.FirstIndexOf | app.js:479 | the position of the first conversation whose id is strictly equal to the one sought, or the list length when none is |
| Session.IndicatorText | app.js:479-480 | the badge shows the title of the first conversation with the active id, or "none" when there is none |
| Session.LocalDefaults | app.js:618-621 | the theme defaults to 'dark' when falsy and each flag to true only when undefined; otherwise each saved value is kept; the result is well formed |
| Session.MergeBackend | app.js:649-653 | the backend's theme wins only when truthy and each backend flag only when defined; every other field keeps its current value |
| Session.ApplyResponse | app.js:646-649 | a failed or non-ok answer, or one without values, changes nothing |
| Session.LocalDefaultsFixpoint | app.js:603-621 | saving and loading back gives the same preferences exactly when they are well formed |
| Session.MergeEmptyIsIdentity | app.js:649-653 | a backend answer that supplies no field leaves the preferences unchanged |
| Session.MergeLastWriterWins | app.js:649-653 | merging two answers in turn equals merging once with the later answer laid over the earlier one |
| Session.MergeKeepsWellFormed | app.js:649-653 | the backend merge keeps well-formed preferences well formed |
| Session.LoadPrecedenceExample | app.js:614-653 | a local 'light' theme and a backend answer {theme: 'dark', voiceOutput: false} load as 'dark', voice off, other flags true |
| Session.ChatSession.constructor | app.js:10-18 | the initial state: no conversations, no active id, an empty index, count 0, theme 'dark' and every flag on |
| Session.ChatSession.RefreshConversationList | app.js:444-462 | one list request; when it fails, the list, index and active id are unchanged; otherwise the list is replaced, the index rebuilt and the active id adopted |
| Session.ChatSession.CreateConversationOnServer | app.js:491-510 | one creation request with `parentId \|\| null`; success prepends exactly the created record and returns it; failure returns null and leaves the list unchanged |
| Session.ChatSession.EnsureActiveConversation | app.js:483-489 | returns a truthy active id without sending or creating anything; otherwise the created id, or null, becomes the active id, and the list gains exactly the created record |
| Session.ChatSession.BootstrapConversationSync | app.js:431-442 | a refresh, then a creation only when the refresh left no active id; the list is the refreshed list (or the old one when the refresh failed) with at most the created record in front, and the index is that of the refreshed list (or unchanged) |
| Session.ChatSession.PersistMessageToServer | app.js:512-526 | after resolving the conversation, no message request is sent when no id could be resolved, and one is sent to the resolved id otherwise; the list gains at most the created record |
| Session.ChatSession.PersistTranscriptToServer | app.js:528-542 | the same guard and list effect, for the transcript request |
| Session.ChatSession.AddMessage | app.js:350-407 | with a message container the counter grows by exactly 1 and one persistence job is queued; without one nothing changes |
| Session.ChatSession.AddToTranscript | app.js:242-253 | queues exactly one transcript persistence job |
| Session.ChatSession.RunMicrotask | app.js:406 | runs the oldest queued job with the guard and list effect of the matching persist function |
| Session.ChatSession.ClearChat | app.js:677-697 | the counter becomes 0, the active id is cleared, and a new conversation is created, put in front of the list and made active (null and an unchanged list on failure) |
| Session.ChatSession.OpenConversationBranching | app.js:1386-1398 | a cancelled prompt changes nothing, index included; otherwise the branch is created under the resolved conversation and, when created, is put in front of the list and becomes active before the list is refreshed; the list and index after each outcome are stated |
| Session.ChatSession.ImportConversationFromFile | app.js:728-749 | success exactly when the file parses and the import is accepted; then the imported id becomes active and the list and index are those of the refresh; on failure the active id, list and index are unchanged |
| Session.ChatSession.ExportChat | app.js:699-726 | without a resolvable conversation there is an error toast and no export request; success only when the export answer is ok; the list gains at most the created record |
| Session.ChatSession.SaveSettings | app.js:603-612 | stores the preference snapshot locally and sends it to the backend |
| Session.ChatSession.LoadBackendSettings | app.js:643-660 | one settings request; the preferences become the backend merge of the answer |
| Session.ChatSession.LoadSettings | app.js:614-641 | the saved preferences with their defaults, then the backend merge on top |
| Session.ChatSession.SetupThemeSystem | app.js:102-112 | the theme follows the system preference |
| Session.ChatSession.ToggleTheme | app.js:114-119 | flips the theme and saves |
| Session.ChatSession.ChangeTheme | app.js:121-130 | applies the selector's resolved choice and saves |
| Session.ChatSession.ToggleVoiceOutput | app.js:588-591 | sets the flag and saves |
| Session.ChatSession.ToggleSoundEffects | app.js:593-596 | sets the flag and saves |
| Session.ChatSession.ToggleAutoScroll | app.js:598-601 | sets the flag and saves |
| Session.SaveThenLoadRestores | app.js:603-641 | saving well-formed preferences and loading them with the backend silent restores them exactly |
| Studio.EstimateTokens | app_old.js:213-218 | the estimate is the least count whose four-fold covers the characters, i.e. ceil(charCount / 4) |
| Studio.EstimateTokensUnique | app_old.js:217 | no other count meets both bounds |
| Studio.EstimateTokensMonotone | app_old.js:217 | a longer input never estimates fewer tokens |
| Studio.ToastIcon | app_old.js:866-874 | success, error and warning get their own icons, and every other type gets 'info-circle' |
| Studio.ToastIconInfoFallback | app_old.js:873 | a type looks like 'info' exactly when it is none of success, error and warning |
| Studio.HasModel | app_old.js:270 | a model counts as loaded unless it is null or '', so every truthy model counts |
| Studio.ControlsFor | app_old.js:269-308 | input, send, voice and unload are disabled exactly when the model is null or ''; the status is active otherwise; placeholder and label as shown |
| Studio.ModelGatesDisagree | app_old.js:270 | every truthy model passes updateUI's check, and exactly undefined, false and 0 pass it while failing sendMessage's |
| Studio.LocalDefaults | app_old.js:183-187 | theme defaults to 'dark' and animation speed to 1 when falsy, each flag to true only when undefined; otherwise saved values are kept |
| Studio.LocalDefaultsIdempotent | app_old.js:183-187 | applying the defaults twice equals applying them once |
| Studio.ReplyEntry | app_old.js:463-491 | a reply is added as an 'ai' entry; a non-ok answer as a system error with its detail, or the status text when the detail is falsy; a failed request as a system error with its message |
| Studio.StudioApp.constructor | app_old.js:4-14 | the initial state: no model, empty history, count 0, theme 'dark', speed 1, every flag on |
| Studio.StudioApp.UiControls | app_old.js:269-308 | input, send, voice and unload are disabled together, exactly when no model counts as loaded, and the status is active exactly when one does |
| Studio.StudioApp.AddMessage | app_old.js:494-571 | appends exactly one {type, content, timestamp} entry and adds 1 to the counter, keeping the counter equal to the history length |
| Studio.StudioApp.ClearChat | app_old.js:611-613 | the counter becomes 0 and the history empty |
| Studio.StudioApp.OnInput | app_old.js:213-218 | the token count becomes the estimate for the input's length |
| Studio.StudioApp.SendMessage | app_old.js:431-492 | an input that trims to nothing changes nothing; with no model a notice is added and no request is sent; otherwise the trimmed message is added, sent, and the reply or error is added |
| Studio.StudioApp.LoadModel | app_old.js:319-354 | one load request; on success the answer's model becomes current; one system entry reports the outcome |
| Studio.StudioApp.UnloadModel | app_old.js:356-385 | one unload request; on success there is no model and the controls are disabled; one system entry reports the outcome |
| Studio.StudioApp.SaveSettings | app_old.js:168-177 | stores the five-field preference snapshot locally |
| Studio.StudioApp.LoadSettings | app_old.js:179-201 | with a saved entry the preferences become its defaulted values; without one nothing changes |
| Studio.StudioApp.SetupThemeSystem | app_old.js:89-105 | a light system preference switches to 'light'; otherwise the theme stays |
| Studio.StudioApp.ToggleTheme | app_old.js:107-117 | flips the theme and saves |
| Studio.StudioApp.ChangeTheme | app_old.js:119-130 | applies the selector's resolved choice and saves |
| Studio.StudioApp.ToggleAutoScroll | app_old.js:153-156 | sets the flag and saves |
| Studio.StudioApp.ToggleSoundEffects | app_old.js:158-161 | sets the flag and saves |
| Studio.StudioApp.ToggleVoiceOutput | app_old.js:163-166 | sets the flag and saves |
| Backend.ModelHandler.Generate | app.py:51-56 | ValueError("Prompt cannot be empty.") exactly when the prompt is all whitespace; otherwise the fixed prefix followed by the original, unstripped prompt |
| Backend.GenerateInjective | app.py:56 | different accepted prompts get different replies |
| Backend.GenerateIgnoresModelPath | app.py:47-56 | the model path never influences the reply |
| Backend.ChatReply | app.py:81-88 | a reply becomes the JSON body; ValueError becomes 400 with its message; any other exception becomes 500 "Model inference failed" |
| Backend.Chat | app.py:78-88 | with the placeholder handler, /chat answers 400 "Prompt cannot be empty." exactly for blank messages, and otherwise the echo |
| Backend.ChatNeverServerError | app.py:85-86 | with the placeholder handler, /chat never answers 500 |
| Backend.FirstExisting | app.py:67-72 | the first candidate in priority order that exists, and None exactly when none exists |
| Backend.FindModelPath | app.py:60-72 | the loop over KNOWN_MODEL_NAMES returns exactly the first existing candidate |
| Backend.CreateModelHandler | app.py:75 | the module-level handler carries the discovered path |
| Backend.ServeIndex | app.py:91-97 | 404 "index.html not found" exactly when index.html is missing, otherwise that file |
| Backend.TrimAndStripDisagree | app.py:52 | a message of U+0085 survives the front-end's trim and is refused by /chat with 400 |

## Left out

- DOM work is not modelled. This covers message bubbles, the badge element, modals, textarea resizing, the welcome message and toast timers. Only the values they display are modelled: the badge text, the control states and the toast kind.
- `fetch`, JSON parsing and `localStorage` are replaced by parameters carrying their outcome. A local-storage entry that fails to parse is not modelled. Nor is a list from the store that holds `null` or non-object elements.
- The interleaving of `queueMicrotask` and `await` callbacks is not modelled, because it is a matter of concurrency. The same goes for the double-create race in `ensureActiveConversation`. Each call runs to completion: `RunMicrotask` runs one queued job at a time, and each awaited step happens in program order.
- Numbers are integers. Fractional values are not modelled, and neither is `animationSpeed`'s `parseFloat` path. The CSS property it sets is not modelled either.
- JsValues.ToJsString: numbers are unbounded integers printed with every digit. JavaScript prints magnitudes from 10^21 up in exponent form (`1e+21`), and integers beyond 2^53 are not all distinct JavaScript numbers, so for such ids the printed key and `NumKeysDistinct` do not match JavaScript.
- Plain-object identity is not modelled. `Obj` stands for any plain object and is compared structurally, while JavaScript's `===` on objects compares identity. Arrays as `detail` values are also not modelled.
- Property lookups that reach `Object.prototype` are not modelled. A branch index key such as `"constructor"`, or a toast type such as `"toString"`, would find an inherited member.
- String lengths count characters, not UTF-16 code units. Characters outside the Basic Multilingual Plane would count twice in the token estimate.
- `Date.now()` response timing is not modelled. Timestamps are a `now` parameter, and `toLocaleTimeString` is not modelled.
- Export and import Blob handling, downloads and file reading are not modelled. Export is reduced to its request and toast, and import to its payload, its request and its effect on the active id.
- The Web Speech API, audio oscillators, particle systems, the neural-network canvas and the performance chart are not modelled. They are foreign browser calls and floating-point animation code.
- app_old.js's listener for later system theme changes is not modelled, because it is an event callback.
- FastAPI routing, CORS, static mounting and uvicorn startup are not modelled. The endpoint bodies are modelled as functions.
- desktop_launcher.py is not part of this model. It only sets up processes and threads and launches a browser.
