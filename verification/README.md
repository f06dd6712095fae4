# PTSP chat front end — Dafny model of its core logic

The repository is a Next.js chat page for the PTSP Jawa Tengah retrieval-augmented
assistant. Around its presentational code sit three pieces of sequential logic, and
this project models them as pure functions over immutable values:

- **Session store and turn controller** (`components/chat-form.tsx`). The history of
  conversations is a list of sessions under one local-storage key. The model covers
  `generateChatTitle`, `loadChatHistory`, `saveCurrentSession` (upsert by id, then
  cut to 50 entries), `loadChatSession`, `handleSelectChat`, `handleNewChat`, the
  mount effect, the two halves of the asynchronous `handleSubmit`, and the arithmetic
  of the source cards. Storage is a `StoredBlob` value that goes in and comes out.
  A write the browser refuses is a `false` flag passed for that write; `handleNewChat`
  makes two writes and takes one flag for each. Ids and
  timestamps are parameters.
- **Backend proxy** (`app/api/chat/route.ts`). This covers normalising the base
  address, validating the request, the plan of at most two attempts (the second only
  after a transport failure, and only for a `localhost` address), classifying the
  outcome, and mapping a successful body with defaults. Each `fetch` is an input
  `FetchOutcome`. The result is the response together with the URLs attempted.
- **Relative time label** (`components/sidebar.tsx`, `formatTimestamp`). The
  millisecond difference is floored into minutes, hours or days.

Modules: `Types` (entities), `Text` (JavaScript string operations), `RelativeTime`,
`ChatRoute`, `ChatHistory`, `ChatTurn` and `SourceCard`.

In several places the code does something other than what its comments or a reader
would expect. In each case the model follows the code:

- A saved session that is already stored is replaced in place. It is not moved to the
  front, so the list is not ordered by last update.
- `handleNewChat` inserts without applying the 50-entry cap.
- The mount effect resumes the first stored session, which its comment calls the most
  recent. Because updates happen in place, that is the most recently inserted session,
  not the most recently updated one.
- Selecting an unknown id changes nothing. It does not fall back to a new session.
- A backend HTTP error is forwarded with its status but without any detail. The
  exception is 304: a JSON response cannot carry that status, so building it throws
  and the catch-all answers 500.
- Nothing stops a submit while another request is loading. `OverlappingSubmitsLoseMessages`
  shows the messages that are lost as a result.
- The title of a session created by "new chat" stays `New Chat` as long as the
  session stays among the first 50 entries. Once a save drops it past the cap, a later
  save inserts it again with a title taken from its first user message.
- A reply that settles after the user has switched sessions is appended under the
  session switched to, and the next save stores the old conversation as that
  session's messages. `LateReplyLandsInSwitchedSession` states this.

## Model

| member | source | states |
|---|---|---|
| RelativeTime.FormatTimestamp | components/sidebar.tsx:23-36 | The label is "Baru saja" exactly when the difference is under 60000 ms, negative differences included. Minutes are shown for 60000 ≤ d < 3600000, hours for 3600000 ≤ d < 86400000 and days from 86400000 on. Each count is the direct floor of d by the unit, so minutes fall in 1..59, hours in 1..23 and days are at least 1 |
| RelativeTime.NestedFloor | components/sidebar.tsx:27-30 | Flooring by a and then by b equals flooring once by a·b, for any integer dividend |
| RelativeTime.UnitFloors | components/sidebar.tsx:27-30 | The chain of seconds, minutes, hours and days floors equals one division by 60000, 3600000 and 86400000 |
| RelativeTime.Ago.Label | components/sidebar.tsx:32-35 | The label is never empty, and it starts with a digit exactly when it shows a count rather than "Baru saja" |
| RelativeTime.LabelInjective | components/sidebar.tsx:32-35 | Different label values render as different texts: the text determines the unit and the count |
| RelativeTime.FormatTimestampMonotonic | components/sidebar.tsx:32-35 | An older timestamp never gets a finer label than a newer one. With the same unit, its count is not smaller |
| Text.Trim | components/chat-form.tsx:91 | The result of `trim` is a contiguous slice of the input with only whitespace before it and after it, and it starts and ends with non-whitespace |
| Text.NewlinesToSpaces | components/chat-form.tsx:91 | `replace(/\n/g, ' ')` keeps the length and turns every line feed, and nothing else, into a space |
| Text.DecimalRoundTrip | components/sidebar.tsx:32-34 | Reading back the decimal text that a template literal prints for a count gives the count |
| Text.TrimEmptyIffBlank | components/chat-form.tsx:223 | `trim` gives the empty string exactly when every character is JavaScript whitespace |
| Text.IndexOf | app/api/chat/route.ts:52 | Gives the first index at which the pattern occurs, or none exactly when it occurs nowhere |
| Text.ContainsIff | app/api/chat/route.ts:52 | `includes` holds exactly when some occurrence exists |
| Text.ReplaceFirst | app/api/chat/route.ts:53 | Only the first occurrence is replaced and the text around it is kept. Without an occurrence the string is unchanged |
| ChatRoute.NormaliseBaseUrl | app/api/chat/route.ts:6 | Removes one trailing `/` when present and leaves the address unchanged otherwise |
| ChatRoute.NormaliseUndoesTrailingSlash | app/api/chat/route.ts:6 | Appending `/` and normalising gives the address back |
| ChatRoute.NormaliseNotIdempotent | app/api/chat/route.ts:6 | `x//` normalises to `x/`, and normalising again gives `x`, so normalisation is not idempotent |
| ChatRoute.ConfiguredBaseUrl | app/api/chat/route.ts:4-6 | An unset or empty `RAG_API_URL` gives `http://localhost:8001`. Otherwise the result is the normalised setting |
| ChatRoute.DefaultLoopbackIndex | app/api/chat/route.ts:4 | The default address's first `localhost` starts at index 7 |
| ChatRoute.FallbackDiffersFromBase | app/api/chat/route.ts:52-53 | The fallback address equals the base except that its first `localhost` becomes `127.0.0.1`, so it differs from the base |
| ChatRoute.DefaultFallback | app/api/chat/route.ts:4-53 | The default configuration has a fallback, `http://127.0.0.1:8001` |
| ChatRoute.MapSuccess | app/api/chat/route.ts:77-83 | The answer has status 200 and content equal to `message`. `sources` defaults to `[]`. `total_sources` falls back to the length of `sources`, and then to 0. `enhanced_features` defaults to `{}` |
| ChatRoute.Classify | app/api/chat/route.ts:69-86 | A response that is not ok is forwarded with its status and `RAG backend error`, with no detail, except 304, for which building the error response throws and the answer is the catch-all 500. An ok body that cannot be parsed gives 500. An ok parsed body is mapped as an answer |
| ChatRoute.Post | app/api/chat/route.ts:20-88 | An unparsable body gives 500 and a `messages` that is not an array gives 400, both with no attempt. Otherwise there are one or two attempts, the first to `base + "/chat"`. The second happens exactly when the first throws and the base contains `localhost`, and it goes to the fallback address. With no response the result is 503 with the last error as detail. A response is classified |
| ChatRoute.HttpErrorNeverFallsBack | app/api/chat/route.ts:47-86 | An HTTP error from the first attempt is not a throw: exactly one attempt is made, the answer is an error that is not ok, and the status is forwarded unless it is 304, which gives 500 |
| ChatRoute.IsOk | app/api/chat/route.ts:69 | `response.ok` holds exactly for statuses in the 2xx class |
| ChatRoute.FallbackBaseUrl | app/api/chat/route.ts:53 | The fallback address has the same length as the base, and equals it when the base does not contain `localhost` |
| ChatRoute.FailuresAreNotOk | app/api/chat/route.ts:24-87 | Every error the proxy returns has a status the client reads as not ok. A response is ok exactly when it is an answer |
| ChatHistory.GenerateChatTitle | components/chat-form.tsx:89-93 | The title has at most 50 characters and no line feed. A cleaned text of at most 50 characters is the title itself. A longer one keeps its first 47 characters followed by `...` |
| ChatHistory.GenerateChatTitleIdempotent | components/chat-form.tsx:89-93 | Generating a title from a generated title changes nothing |
| ChatHistory.LoadHistory | components/chat-form.tsx:104-113 | Missing or unparsable storage reads as the empty list. Otherwise the stored list is returned |
| ChatHistory.FindIndex | components/chat-form.tsx:122 | Gives the first index holding the id, or none exactly when no session has it |
| ChatHistory.FindIndexIs | components/chat-form.tsx:122 | The first index holding the id is the one `findIndex` returns |
| ChatHistory.Find | components/chat-form.tsx:378 | Finds a stored session with the id exactly when one exists, and it is the first session with that id |
| ChatHistory.FirstUserIndex | components/chat-form.tsx:118-119 | Gives the first user message, or none exactly when there is no user message |
| ChatHistory.Cap | components/chat-form.tsx:143-145 | Keeps the first min(n, 50) entries |
| ChatHistory.Upsert | components/chat-form.tsx:121-145 | The result has at most 50 entries. An existing id is replaced at the same index, keeping its title and creation time, storing the new messages and `now`, and leaving every other entry unchanged. A new id goes to index 0 with the fresh title and `now` twice, with the old list after it. The result is the first 50 entries of this list |
| ChatHistory.UpsertKeepsIdsUnique | components/chat-form.tsx:122-145 | If ids were unique before a save, they are unique after it |
| ChatHistory.UpsertAddsOnlyItsId | components/chat-form.tsx:136-140 | A save adds no id other than the saved session's |
| ChatHistory.UpsertDropsEntryBeyondCap | components/chat-form.tsx:136-145 | With unique ids, saving a session stored at index 50 or later removes it from the list |
| ChatHistory.SaveCurrentSession | components/chat-form.tsx:115-149 | The store is untouched when the id is empty, there are no messages, or no message is from the user. Otherwise only the sidebar list changes, to the upserted list, and storage holds that list, or stays as it was when the write is refused |
| ChatHistory.UpsertThenFind | components/chat-form.tsx:121-145 | After an upsert, looking up the id gives the new messages with `now` as last update. An existing entry keeps its title and creation time. A new one gets the fresh title and `now` as creation time. This holds unless the entry sat at index 50 or later |
| ChatHistory.SaveThenFind | components/chat-form.tsx:121-148 | After a save, looking up the current id gives the current messages with `now` as last update. An existing entry keeps its title and creation time. A new one gets the fresh title. This holds unless the entry sat at index 50 or later |
| ChatHistory.LoadChatSession | components/chat-form.tsx:151-158 | An id that is not stored changes nothing. A stored id becomes current, with that session's messages. No handler calls this function; `handleSelectChat` reads storage itself |
| ChatHistory.SelectChat | components/chat-form.tsx:369-386 | The current session is flushed first, and selecting writes nothing more. A stored id becomes current with its messages and the stored list. Otherwise the flushed state is kept, with the same current id and messages |
| ChatHistory.SelectUnknownIsNoOp | components/chat-form.tsx:370-383 | An id that storage does not hold changes neither the current id nor the messages. This includes the current id when an earlier write was refused |
| ChatHistory.UpsertUnderCapKeepsStored | components/chat-form.tsx:136-145 | A save into a list of fewer than 50 entries keeps every stored id |
| ChatHistory.UpsertInPlaceKeepsOthers | components/chat-form.tsx:136-137 | Updating a stored session in place leaves the first index of every other id among the first 50 unchanged |
| ChatHistory.SwitchFlushesThenLoads | components/chat-form.tsx:369-386 | Switching from A to B, both stored among the first 50, stores A's current messages and then shows B's messages |
| ChatHistory.NewChat | components/chat-form.tsx:342-367 | After the flush, a `New Chat` session with no messages, stamped with its own creation time, is put at the front, with no cap. The list grows by exactly one and becomes current. The flush's write and the new list's write are accepted or refused separately. Unparsable storage or a refused second write leaves the flushed state |
| ChatHistory.RefusedFlushLosesSession | components/chat-form.tsx:352-364 | If the flush's write is refused and the new list's write is accepted, an unstored current session is lost: the page switches to the new chat and storage does not hold the old id |
| ChatHistory.RefusedCreateKeepsSession | components/chat-form.tsx:352-364 | If the flush is stored and the new list's write is refused, the page stays on the current session with its messages, and storage holds the flushed list |
| ChatHistory.NewChatIgnoresCap | components/chat-form.tsx:352-361 | A new chat on a full list of 50 leaves 51 stored sessions, whatever the flush does |
| ChatHistory.NewChatTitleSticks | components/chat-form.tsx:122-125 | The first save after a new chat stores the messages under the title `New Chat`, keeping its creation time |
| ChatHistory.Mount | components/chat-form.tsx:196-208 | With stored sessions, the first stored session (index 0) becomes current with its messages. Otherwise the page starts with a fresh id and no messages. The sidebar shows the stored list |
| ChatHistory.MountIgnoresLastUpdate | components/chat-form.tsx:196-203 | After the second of two stored sessions is updated it holds the latest update time, yet mounting resumes the first |
| ChatTurn.WithTimings | components/chat-form.tsx:264-269 | The backend features are kept, plus `frontend_processing_time` equal to the elapsed text with `s` appended. `total_processing_time` equals `response_time`, or is absent when `response_time` is absent. No other keys are added |
| ChatTurn.AssistantReply | components/chat-form.tsx:261-286 | A thrown fetch, a status that is not ok, or an error body gives the fixed apology with no sources or features. An answer gives its content, sources and total, with the timings added to its features |
| ChatTurn.SubmitStart | components/chat-form.tsx:221-234 | Blank input changes nothing. Otherwise the untrimmed input is appended as a user message and becomes the pending request, the input is cleared and loading is set. An unnamed empty conversation gets a fresh id. Loading does not block this step |
| ChatTurn.SubmitFinish | components/chat-form.tsx:271-288 | The messages become the captured list followed by the reply, whatever they were meanwhile, and loading ends |
| ChatTurn.LastToSettleWins | components/chat-form.tsx:271-288 | When two handlers settle one after the other, the later one fixes the list: its captured messages plus its own reply. The earlier one has already cleared loading |
| ChatTurn.HandleSubmit | components/chat-form.tsx:221-290 | Blank input leaves the state unchanged. Otherwise the messages become the old ones followed by the user's untrimmed input and then the assistant reply, the input is cleared and loading ends |
| ChatTurn.OverlappingSubmitsLoseMessages | components/chat-form.tsx:223-288 | Two overlapping submits lose messages. If the first settles first, its reply is lost. If the second settles first, the second question and its reply are lost. The first to settle already clears loading |
| ChatTurn.LateReplyLandsInSwitchedSession | components/chat-form.tsx:230-288 | If the user switches to stored session B (in a list of fewer than 50 entries) while a request is in flight, the reply is appended under B to the conversation it was asked in, and the next save stores that conversation as B's messages |
| ChatTurn.NewChatThenAnswer | components/chat-form.tsx:230-277 | A new chat, one question and a backend answer with no sources make one attempt. The conversation is then exactly the question followed by the answer |
| SourceCard.VisibleSources | components/chat-form.tsx:451 | At most the first five sources are shown, in order |
| SourceCard.PreviewText | components/chat-form.tsx:471-477 | An empty preview is not shown. A preview of at most 150 characters is shown whole. A longer one shows its first 150 characters followed by `...` |
| SourceCard.Overflow | components/chat-form.tsx:485-488 | The note appears exactly when there are more than five sources, and it counts length − 5 |
| SourceCard.SourcesSection | components/chat-form.tsx:440-491 | Only an assistant message with a non-empty source list has a section. The section shows the count and the total, the first five cards with file name and preview, and the overflow note |
| SourceCard.SectionAccountsForEverySource | components/chat-form.tsx:451-488 | Every source is either shown as a card or counted in the overflow note |

## Left out

- JSX rendering, styling, the sidebar list widget and `components/theme-provider.tsx`. These are presentational.
- Two rendering steps, both of which depend on regular-expression replacement semantics: the markdown-to-HTML regexes (`components/chat-form.tsx:425-431`) and the prettifying of feature keys (`components/chat-form.tsx:498-500`).
- Speech recognition (`components/chat-form.tsx:299-336`). It is a browser API with no types.
- The scroll effects and the one-second debounced auto-save (`components/chat-form.tsx:184-219`). A save is an explicit `SaveCurrentSession` call instead.
- `localStorage` and JSON. They are the `StoredBlob` value. A stringify–parse round trip is taken as the identity, and a JSON field that is absent or `undefined` is `None`.
- The `typeof window === 'undefined'` branches. They arise only during server rendering, while the handlers run in a browser. On mount they read the same as absent storage.
- `Date.now`, `Math.random` and `crypto.randomUUID`. Ids and ISO timestamps are parameters. The new chat's `timestamp` and `lastUpdated` come from two `new Date()` calls made back to back; the model gives both the one value `created`. The format of `generateSessionId` is not modelled.
- Dead code: `createNewChat`, `getChatHistory`, `loadChatSession` (modelled as `ChatHistory.LoadChatSession`, but no handler calls it) and the copy of `formatTimestamp` in `components/chat-form.tsx:75-87`, which are never called. The copy is identical to the sidebar's.
- Real `fetch`, `AbortController`, the 180-second timeout and `clearTimeout`. An attempt's outcome is an input, and the timeout is one way an attempt throws. Neither the request body sent to the backend nor the logging is modelled.
- A failure while reading the text of a non-ok backend response. In the source this would give 500; the model assumes the text can be read.
- Floating point. The `toFixed(2)` processing time is a string parameter. The score percentage and the `n/a` score display are not modelled. `total_sources` is an integer.
- RelativeTime.FormatTimestamp: an unparsable date, whose difference is `NaN` and which shows "Baru saja", is not modelled; the difference is an integer.
- ChatHistory.GenerateChatTitle: lengths count Unicode scalar values, not UTF-16 code units, so titles with characters outside the Basic Multilingual Plane are cut at a different place.
- SourceCard.PreviewText: lengths count Unicode scalar values, not UTF-16 code units, as for titles.
- The React render cycle. Each handler reads the state it is given. The model does not cover a handler that reads a value from before a re-render other than the captured message list of `handleSubmit`.
- Exceptions thrown by `handleSelectChat` and `handleNewChat`, on unparsable storage or a refused write. The handler stops after the flush and nothing is reported.
