# AsistenteGPT front-end: a Dafny model of its screen logic

The application is a React Native client for managing GPT-style chat agents
and multi-agent "flujos" (flows) on a remote backend. Nearly all of it is
rendering and HTTP plumbing. This project models the part that is logic:
the event handlers of the screens, read as pure state transitions.

- **Flow builder** (`CreateFlujoScreen`). Steps ("agentes") are appended one
  at a time. Each gets `orden = |agentes| + 1` and back-references
  (`referencias_respuestas`) chosen by prompt type. The flow is submitted as
  `{nombre, agentes}`. The whole screen is modelled as an event machine
  (`CreateFlujo.Apply`, `CreateFlujo.Run`), and its invariant is proved for
  every sequence of user events: orders are 1..n, and every reference points
  to an earlier step.
- **GPT reducer** (`gptReducer`). `CREATE_GPT` appends, `EDIT_GPT` replaces
  by id, and every other action is the identity.
- **List screens** (`HomeScreen`, `FlujosScreen`, `FlujoDetailScreen`). These
  cover the fetch handlers, a toggle selection, a bulk delete and three
  search filters. Two filters match names case-insensitively. The third
  matches the decimal text of conversation ids.
- **Submit guards** (`RunFlujoScreen`, `ChatScreen`, `CreateGPTScreen`). These
  cover the empty-input guards and what a reply does to the shown list.

Each screen's `useState` fields form one immutable record. Each handler is a
function from the state and the network outcome to the next state and the
request it sent. The network outcome is `Net.Reply`: `Ok(body)` or `Failed`.
The request is `Net.Request`: `NoRequest` or `Send(payload)`. Shared string
and sequence operations are defined once:

- `Text`: lower-casing, `includes`, `trim`, and `toString` on ids.
- `Filtering`: `filter`.
- `Selection`: the toggle.
- `Sorting`: a stable insertion sort.

Behaviour of the code that a reader might not expect, and which the model
keeps:

- `fetchHistorial` has no in-flight guard of its own. The run button is
  `disabled={loading}`, and that is what stops a second run while one is in
  flight (`RunFlujo.PressRun`, `RunFlujo.NoSecondRunInFlight`).
- A failed history load leaves the shown history as it was. On a freshly
  opened screen that is the empty list (`RunFlujo.FinishLoad`,
  `RunFlujo.OpeningScreen`).
- A step's references are kept in click order, not as a set, so a combined
  step can reference `[2, 1]`.
- Only `respuesta_anterior` and `combinado` give a step references. Every
  other prompt type, `prompt_directo` included, gets none.
- `gpt_id` is checked by JavaScript truthiness, so a GPT whose id is `0`
  counts as not chosen (`CreateFlujo.Chosen`).
- Toggling a selected id twice does not give back the same list. The id
  is removed and then re-appended at the end. The membership is restored;
  the order need not be (`Selection.TogglePresentTwiceReorders`).
- After a successful fetch, the GPT and flow lists show everything again,
  even when the search box still holds a query (`Home.FetchGpts`,
  `Flujos.FetchFlujos`).

## Model

| member | source | states |
|---|---|---|
| CreateFlujo.AgregarAgente | src/screens/CreateFlujoScreen.js:57-96 | The add is rejected for a missing GPT or prompt type, for `respuesta_anterior` with no steps, and for `combinado` with an empty selection, each if and only if. On success exactly one step is appended, with earlier steps untouched. It has `orden = |agentes|+1` and references `[last orden]`, the selection, or `[]` by type. The form and the selection are reset. |
| CreateFlujo.CrearFlujo | src/screens/CreateFlujoScreen.js:98-116 | Nothing is sent exactly when the name is empty or there are no steps. Otherwise the payload is `{nombre, agentes}` from the builder. The screen closes only after a successful post. |
| CreateFlujo.AddPreservesWellFormed | src/screens/CreateFlujoScreen.js:63-91 | A successful add keeps orders 1..n+1, and the new step references only orders `<= n`, which are below its own `orden`. |
| CreateFlujo.TogglePreservesWellFormed | src/screens/CreateFlujoScreen.js:185-195 | Picking an existing step in the combined-prompt menu keeps the selection made of distinct existing orders. |
| CreateFlujo.ApplyPreservesWellFormed | src/screens/CreateFlujoScreen.js:133-214 | Every user event on the screen (name, GPT pick, type pick, prompt text, step toggle, add) preserves the builder invariant. |
| CreateFlujo.RunPreservesWellFormed | src/screens/CreateFlujoScreen.js:57-96 | The invariant holds after any sequence of user events. |
| CreateFlujo.Apply | src/screens/CreateFlujoScreen.js:133-214 | Each user event changes only its own field. A rejected add leaves the builder unchanged. Typing a prompt has effect only under `prompt_directo`. Toggling a step has effect only under `combinado` and on an existing step. Only an add changes the steps. |
| CreateFlujo.Run | src/screens/CreateFlujoScreen.js:57-96 | A sequence of events appends at most one step per event and never removes any. |
| CreateFlujo.PostedFlowIsWellFormed | src/screens/CreateFlujoScreen.js:98-108 | A flow that is actually posted, after any user events, has a non-empty name, at least one step, orders 1..n in list order, and references only to earlier steps. |
| CreateFlujo.RunIsAppendOnly | src/screens/CreateFlujoScreen.js:91 | Steps are never modified or removed once appended: the old list is a prefix of the new. |
| CreateFlujo.OrdersFromFreshScreen | src/screens/CreateFlujoScreen.js:63-88 | From a fresh screen, the n steps carry orders exactly 1..n. Step i references only orders between 1 and i-1. |
| CreateFlujo.RunConcat | src/screens/CreateFlujoScreen.js:133-214 | Handling two event lists in turn is handling their concatenation. |
| CreateFlujo.TwoStepScenario | src/screens/CreateFlujoScreen.js:57-108 | A direct step "Hello", then a `respuesta_anterior` step, named "MyFlow", posts steps with orders 1 and 2 and references `[]` and `[1]`. |
| CreateFlujo.CombinedScenario | src/screens/CreateFlujoScreen.js:79-87 | After three steps, picking steps 1 and 2 for a combined prompt yields a fourth step with references exactly `[1, 2]`. |
| Selection.Toggle | src/screens/HomeScreen.js:51-56 | The toggled id is in the result iff it was absent, and no other id's membership changes. An absent id is appended at the end; a present id is removed with every other element kept in order. A duplicate-free list stays duplicate-free. |
| Selection.Remove | src/screens/CreateFlujoScreen.js:190 | Removing drops every copy of the id and keeps the order; every other element keeps its number of occurrences. |
| Selection.ToggleTwiceAbsent | src/screens/HomeScreen.js:51-56 | Toggling an absent id twice gives back the same list. |
| Selection.TogglePresentTwice | src/screens/HomeScreen.js:51-56 | Toggling a present id twice gives the list without it plus the id at the end, which has the same members. |
| Selection.TogglePresentTwiceReorders | src/screens/CreateFlujoScreen.js:189-193 | The double toggle can reorder: `[1, 2]` toggled twice on 1 becomes `[2, 1]`. |
| Selection.SubsequenceKeepsNoDuplicates | src/screens/HomeScreen.js:54 | Removing elements from a duplicate-free list leaves it duplicate-free. |
| GptReducer.Reduce | src/redux/reducers/gptReducer.js:5-22 | `CREATE_GPT` grows the list by one, keeps the earlier entries and puts the payload last. `EDIT_GPT` keeps length and order, replaces exactly the entries whose id equals the payload's and leaves the rest. Any other action returns the state unchanged. |
| GptReducer.Reducer | src/redux/reducers/gptReducer.js:1-5 | Called without a state, the reducer acts on `{gpts: []}`. Called with a state, it acts on that state. |
| GptReducer.ReplaceById | src/redux/reducers/gptReducer.js:15-17 | Position by position, an entry becomes the payload iff its id matches, and is kept otherwise. |
| GptReducer.EditAbsentIsIdentity | src/redux/reducers/gptReducer.js:15-17 | Editing an id that is not in the list leaves the state equal to before. |
| GptReducer.EditIdempotent | src/redux/reducers/gptReducer.js:12-18 | Dispatching the same edit twice equals dispatching it once. |
| GptReducer.EditKeepsIds | src/redux/reducers/gptReducer.js:15-17 | An edit keeps the id at every position. |
| GptReducer.CreateThenEdit | src/redux/reducers/gptReducer.js:7-18 | Creating a GPT with a fresh id and then editing it equals creating the edited GPT. |
| Home.FetchGpts | src/screens/HomeScreen.js:17-29 | On success, both the list and the shown list are the same name-ordered permutation of the response. On failure, both stay. Loading ends in both cases. |
| Home.NameOrderIsTotalPreorder | src/screens/HomeScreen.js:20 | The name comparison used for sorting is total and transitive. |
| Home.HandleSearch | src/screens/HomeScreen.js:44-48 | The shown list is an order-preserving subsequence of the full list. It is sound: every entry's lower-cased name contains the lower-cased query. It is complete: every such GPT is shown. The query is recorded. |
| Home.SearchEmptyShowsAll | src/screens/HomeScreen.js:46 | The empty query shows the whole list. |
| Home.SearchForgetsPreviousQuery | src/screens/HomeScreen.js:46 | A search filters the full list, not the previous result. |
| Home.ToggleSelectGpt | src/screens/HomeScreen.js:51-57 | Selecting toggles exactly the given id: an unselected id is appended, a selected one is removed leaving the rest in order. The selection stays duplicate-free; the lists, loading flag and query do not change. |
| Home.DeleteSelectedGpts | src/screens/HomeScreen.js:112-123 | A delete goes out for every selected id. The selection is cleared, and the list re-fetched, only if no delete fails; otherwise the state is unchanged. |
| Home.FailedBatchIsResent | src/screens/HomeScreen.js:112-123 | After a batch with a failed delete, the next batch sends every id of the old selection again, including those already deleted. |
| Home.RunHomeKeepsConsistent | src/screens/HomeScreen.js:17-57 | Under any sequence of fetches, searches, checkbox ticks and bulk deletes, the shown list stays a subsequence of the full list and the selection duplicate-free. |
| Home.HomeAlwaysConsistent | src/screens/HomeScreen.js:9-14 | From the screen's initial state the consistency above holds after any sequence of events. |
| Home.PartialFailureKeepsSelection | src/screens/HomeScreen.js:114-122 | Deleting 1, 2, 3 where 2 fails keeps the selection `[1, 2, 3]` and does not refresh. |
| Flujos.FetchFlujos | src/screens/FlujosScreen.js:19-30 | On success, both lists become the response. On failure, both stay. Loading ends in both cases. |
| Flujos.HandleSearch | src/screens/FlujosScreen.js:37-43 | The shown flows are the order-preserving subsequence whose lower-cased `nombre` contains the lower-cased query, sound and complete. The query is recorded. |
| Flujos.SearchEmptyShowsAll | src/screens/FlujosScreen.js:39-41 | The empty query shows every flow. |
| Flujos.SearchForgetsPreviousQuery | src/screens/FlujosScreen.js:39 | A search filters the full list, not the previous result. |
| Flujos.RunFlujosKeepsSubsequence | src/screens/FlujosScreen.js:19-43 | Under any sequence of fetches and searches, the shown flows stay a subsequence of the fetched list. |
| Flujos.FlujosShownAreFetched | src/screens/FlujosScreen.js:9-16 | From the screen's initial state the shown flows are always a subsequence of the fetched list. |
| Flujos.SearchIgnoresCase | src/screens/FlujosScreen.js:40 | Queries that lower-case alike show the same flows. |
| FlujoDetail.FetchConversaciones | src/screens/FlujoDetailScreen.js:19-30 | On success, both lists become the response. On failure, both stay. Loading ends in both cases. |
| FlujoDetail.HandleSearch | src/screens/FlujoDetailScreen.js:32-38 | The shown conversations are the order-preserving subsequence whose decimal id text contains the query, case-sensitively, sound and complete. |
| FlujoDetail.SearchEmptyShowsAll | src/screens/FlujoDetailScreen.js:34-36 | The empty query shows every conversation. |
| FlujoDetail.SearchForgetsPreviousQuery | src/screens/FlujoDetailScreen.js:34 | A search filters the full list, not the previous result. |
| FlujoDetail.RunDetailKeepsSubsequence | src/screens/FlujoDetailScreen.js:19-38 | Under any sequence of fetches and searches, the shown conversations stay a subsequence of the fetched list. |
| FlujoDetail.ConversacionesShownAreFetched | src/screens/FlujoDetailScreen.js:9-16 | From the screen's initial state the shown conversations are always a subsequence of the fetched list. |
| FlujoDetail.OneMatchesSmallIds | src/screens/FlujoDetailScreen.js:35 | The query "1" matches ids 1, 10 and 21 and not 2. |
| FlujoDetail.SearchOneMatchesSubstrings | src/screens/FlujoDetailScreen.js:34-36 | Over ids 1, 2, 10, 21, the query "1" shows exactly 1, 10, 21 in that order. |
| FlujoDetail.DecimalsOfSmallIds | src/screens/FlujoDetailScreen.js:35 | `toString` renders 1, 2, 10 and 21 as "1", "2", "10" and "21". |
| RunFlujo.Settle | src/screens/RunFlujoScreen.js:54-57 | A settled request shows `body \|\| []` on success and the previous list on failure. |
| RunFlujo.StartLoad | src/screens/RunFlujoScreen.js:14-15 | Loading the history starts the loading state and changes nothing else. |
| RunFlujo.FinishLoad | src/screens/RunFlujoScreen.js:17-32 | A loaded history becomes `response.data \|\| []`. A failed load leaves it unchanged. Loading ends in every case. |
| RunFlujo.StartRun | src/screens/RunFlujoScreen.js:36-42 | An empty prompt sends nothing and changes nothing. Any other prompt, blanks included, is sent verbatim and starts loading. |
| RunFlujo.ResultadosOf | src/screens/RunFlujoScreen.js:54 | Reading `response.data.resultados` fails exactly when the call failed or `data` is null. Otherwise it yields `resultados`. |
| RunFlujo.FinishRun | src/screens/RunFlujoScreen.js:44-60 | A successful run replaces the shown list with `resultados \|\| []`. A failed run, or one whose body is null, leaves it. Loading ends in every case. |
| RunFlujo.PressRun | src/screens/RunFlujoScreen.js:104-107 | While loading, the button does nothing. Otherwise it starts a run. |
| RunFlujo.RunRoundTrip | src/screens/RunFlujoScreen.js:36-61 | A whole run sends the prompt iff it is non-empty. Success replaces the list, failure keeps it, and loading is off afterwards. |
| RunFlujo.NoRunDuringLoad | src/screens/RunFlujoScreen.js:104-107 | While the history loads, pressing run sends nothing and changes nothing. |
| RunFlujo.NoSecondRunInFlight | src/screens/RunFlujoScreen.js:42-107 | Once a run is sent, a second press sends nothing until it settles. |
| RunFlujo.RunReplacesHistory | src/screens/RunFlujoScreen.js:54 | A successful run's result does not depend on the history shown before. |
| RunFlujo.BlankPromptIsSent | src/screens/RunFlujoScreen.js:36-45 | Every non-empty prompt made only of white space trims to nothing, yet is sent unchanged whatever the backend answers: the guard compares the untrimmed prompt with `''`. |
| RunFlujo.OpeningScreen | src/screens/RunFlujoScreen.js:9-33 | Opening the screen starts loading, which disables the run button; a failed load leaves the empty list, a successful one shows `response.data`, or `[]` when that is empty, and loading ends. |
| RunFlujo.SingleStepRun | src/screens/RunFlujoScreen.js:44-54 | A run answered with one step result shows exactly that entry. |
| Chat.SendMessage | src/screens/ChatScreen.js:10-29 | Nothing is sent iff the input is all white space. Otherwise the untrimmed input is sent. A non-empty answer appends exactly the user's message and the answer, and clears the input. Anything else leaves the state unchanged. |
| Chat.SendKeepsAlternation | src/screens/ChatScreen.js:19-21 | The transcript keeps alternating user and GPT messages, starting with the user, with non-empty answers. |
| Chat.SendKeepsUserMessagesNonBlank | src/screens/ChatScreen.js:11-21 | Every user message in the transcript is non-blank. |
| Chat.RunChatKeepsTranscript | src/screens/ChatScreen.js:10-29 | Under any sequence of edits and sends, the transcript keeps alternating with non-blank user messages and non-empty answers. |
| Chat.TranscriptAlwaysWellFormed | src/screens/ChatScreen.js:7-8 | From the empty chat, the transcript is well formed after any sequence of edits and sends. |
| CreateGpt.HandleCreateGpt | src/screens/CreateGPTScreen.js:11-35 | Nothing is sent iff a field is empty. The payload maps name, apiKey, model and systemMessage to `name`, `api_key`, `model` and `system_message`. The screen goes back iff the status is exactly 201. The callback runs iff it also was provided. |
| CreateGpt.PayloadRoundTrip | src/screens/CreateGPTScreen.js:18-23 | The form can be read back from the payload. |
| CreateGpt.OkStatusIsIgnored | src/screens/CreateGPTScreen.js:24-30 | A 200 reply neither refreshes nor goes back. |
| Text.LowerChar | src/screens/HomeScreen.js:46 | ASCII upper-case letters map to lower case and nothing else changes. |
| Text.ToLower | src/screens/HomeScreen.js:46 | Lower-casing keeps the length and maps each character to its lower-case form, ASCII letters only. |
| Text.ToLowerIdempotent | src/screens/FlujosScreen.js:40 | Lower-casing twice is lower-casing once. |
| Text.Contains | src/screens/FlujosScreen.js:40 | `includes` is true iff the query occurs at some position. |
| Text.ContainsEmpty | src/screens/HomeScreen.js:46 | Every string includes the empty query. |
| Text.MatchIgnoresQueryCase | src/screens/HomeScreen.js:46 | Queries that lower-case alike match the same names. |
| Text.TrimStart | src/screens/ChatScreen.js:11 | The result is a suffix with only white space dropped, and it does not start with white space. |
| Text.TrimEnd | src/screens/ChatScreen.js:11 | The result is a prefix with only white space dropped, and it does not end with white space. |
| Text.Trim | src/screens/ChatScreen.js:11 | The result is a contiguous slice of the input with only white space dropped on either side, and it neither starts nor ends with white space. |
| Text.TrimEmptyIffBlank | src/screens/ChatScreen.js:11 | `trim()` gives `''` iff every character is white space. |
| Text.NatToDecimal | src/screens/FlujoDetailScreen.js:35 | The numeral is non-empty and all digits. It starts with '0' only for 0. |
| Text.IntToDecimal | src/screens/FlujoDetailScreen.js:35 | The text starts with '-' iff the id is negative. |
| Text.DecimalRoundTrip | src/screens/FlujoDetailScreen.js:35 | Reading the numeral back gives the number. |
| Text.IntToDecimalInjective | src/screens/FlujoDetailScreen.js:35 | Distinct ids have distinct texts. |
| Text.LexLeqTotal | src/screens/HomeScreen.js:20 | Any two names are comparable. |
| Text.LexLeqTransitive | src/screens/HomeScreen.js:20 | The name order is transitive. |
| Filtering.Filter | src/screens/HomeScreen.js:46 | The result is an order-preserving subsequence of the input. It is sound and complete for the predicate, and no longer than the input. |
| Filtering.FilterCounts | src/screens/FlujosScreen.js:39-41 | A kept element appears as often as in the input, and a dropped one not at all. |
| Filtering.FilterKeepsAll | src/screens/FlujoDetailScreen.js:34-36 | A predicate true of every element keeps the whole list. |
| Filtering.FilterCongruent | src/screens/FlujosScreen.js:39-41 | Predicates that agree on the list filter it alike. |
| Filtering.FilterAppend | src/screens/HomeScreen.js:54 | Filtering distributes over concatenation. |
| Sorting.Insert | src/screens/HomeScreen.js:20 | Insertion adds exactly one copy of the element. |
| Sorting.Sort | src/screens/HomeScreen.js:20 | The sorted list is a permutation of the input. |
| Sorting.InsertSorted | src/screens/HomeScreen.js:20 | Inserting into an ordered list under a total preorder keeps it ordered. |
| Sorting.SortSorted | src/screens/HomeScreen.js:20 | Under a total preorder the result is ordered. |

## Left out

- HTTP calls and the fixed host are left out. Each awaited call is a `Reply` parameter, and only the response fields a handler reads are modelled.
- `Alert` messages, `console` logging, `Clipboard` copying, `navigation.navigate` and all rendering and styles are left out. They are UI side effects. Navigating back is kept only as a flag where a handler's control flow decides it.
- `useEffect` mount and refresh scheduling, `RefreshControl` and the `refreshing` flag are left out. They are framework scheduling.
- The concurrency of the bulk delete (`Promise.all`) is left out. The model takes the set of ids whose delete fails and keeps only all-succeeded versus some-failed.
- The single-GPT delete, the conversation screens, the settings screen, the edit-GPT screen, navigation and the store are left out. They forward fields to a request or route between screens and have no local state logic.
- `fetchAgentes` preloading an existing flow is left out. The backend's list need not have orders 1..n, so the builder invariant is a precondition (`CreateFlujo.WellFormed`) rather than a fact about every state.
- The `fetchGpts` and `fetchPromptOptions` menus of the flow builder are left out. The model lets a pick be any GPT id and any type string.
- `setState` updater functions and responses arriving after the user has edited the input are left out. Handlers run to completion one at a time.
- Home.FetchGpts: sorts with code-point lexicographic order in place of `localeCompare`, whose locale rules are not modelled. It proves the result is an ordered permutation but not that the sort is stable.
- Text.LowerChar: lower-cases ASCII letters only, not the full Unicode mapping of `toLowerCase`.
- Text.IntToDecimal: renders every integer in plain decimal; JavaScript switches to exponent notation at 1e21, which ids do not reach.
- GptReducer.Reduce: the slice holds only `gpts`. The `...state` spread therefore has no other fields to keep, and none are modelled.
