# FitSense state container and AI answer trimming, in Dafny

This project models the logic core of the FitSense mobile client, a fitness Q&A app. The core has two parts.

- **The application state container** (`AppProvider` in `context/AppContext.js`). It holds the session (`user`, `isGuest`), the question list (newest first), the vote ledger (`votedQuestions`, question id to vote kind), the counters `questionsAsked` and `supportsGiven`, and the settings record. Its operations are `loadData`, `login`, `loginAsGuest`, `addQuestion`, `voteQuestion`, `updateSettings` and `getTrendingQuestions`. Every change is also written to the device key-value store.
- **The answer post-processing in `askOpenAI`** (`utils/openai.js`). It substitutes a default for a missing answer, trims the answer to its first 200 space-separated pieces, and picks the error message on failure.

Layout, one module per file:

- `wrappers.dfy` (`Wrappers`): `Option` and `Result`.
- `decimal.dfy` (`Decimal`): `n.toString()` for clock readings. Identifiers are made from it, and the rendering is proved injective.
- `questions.dfy` (`Questions`): the question record and the per-question update of a vote (the `questions.map(...)` step).
- `trending.dfy` (`Trending`): the stable sort by supports and the top-ten view.
- `app_state.dfy` (`AppState`): the container's state as a value, the device store, and each operation as a function from state to state. `loadData` is the function `Load`. This file also holds the lemmas about the operations and about runs of them.
- `app_context.dfy` (`Context`): the class `AppContext`. Its fields are the container's state. Each method states its new state through the `AppState` function. A ghost field `stored` is the device store the method writes to.
- `openai.dfy` (`OpenAI`): split, join, trim, the default answer and the error message.

Modelling choices:

- Clock readings (`Date.now()`, `new Date().toISOString()`) are method parameters.
- The device store is the ghost field `stored`. Each key is missing, holds a parsed value, or is unreadable (`JSON.parse` throws). `Mirrors()` says that loading the store into a fresh container would give back exactly the current fields. Every corrected operation preserves it.
- The guard `if (votedQuestions[questionId])` is JavaScript truthiness. The model's guard is therefore "the id holds a non-empty kind". A vote recorded with the empty string as its kind does not block a later vote, so `VoteIdempotent` needs a non-empty first kind. The vote buttons only ever pass `'support'` and `'dontSupport'`.
- Facts about this revision of `context/AppContext.js` that the model keeps:
  - `login` does no credential check, and the password is unused.
  - There is no remote backend. Everything goes to the device store.
  - The stats key is `userStats`.
  - Questions are not capped in the container. Only the trending view is cut to ten.
  - There are no `signOut`, `signUp` or calorie operations.

## Model

| member | source | states |
|---|---|---|
| `Decimal.NatToString` | context/AppContext.js:56 | `Date.now().toString()` is a non-empty string of decimal digits, one digit exactly for readings below 10 |
| `Decimal.NatToStringInjective` | context/AppContext.js:72 | different clock readings render to different id strings |
| `Questions.Bump` | context/AppContext.js:97-101 | a vote adds 1 to `supports` for `'support'`, 1 to `dontSupports` for `'dontSupport'`, and keeps every other field |
| `Questions.TallyAt` | context/AppContext.js:95-104 | the list after a vote has the same length and order; each question with the voted id gains one tally of the vote's kind, other fields unchanged; other questions unchanged |
| `Questions.Tally` | context/AppContext.js:95-104 | the list after a vote has the same length; `TallyAt` and `TallyNoEffect` carry the rest |
| `Questions.TallyNoEffect` | context/AppContext.js:95-104 | a vote on an id no question has, or of an unknown kind, leaves the list unchanged |
| `Trending.SortBySupports` | context/AppContext.js:127-128 | the sorted copy is a permutation of the list |
| `Trending.SortNonIncreasing` | context/AppContext.js:128 | the sorted copy has supports non-increasing |
| `Trending.SortStable` | context/AppContext.js:128 | for every support count, the questions with that count appear in the sorted copy in their list order (stable sort) |
| `Trending.SortCharacterized` | context/AppContext.js:127-128 | any list ordered by supports that keeps list order among ties equals the sorted copy, so the sort is fully determined |
| `Trending.TopShape` | context/AppContext.js:126-130 | the trending view has `min(10, n)` entries for a list of n, all taken from the list, in non-increasing supports |
| `Trending.Top` | context/AppContext.js:126-130 | the view has at most ten entries and no more than the list; `TopShape`, `TopKeepsLeaders` and `TopStable` carry its properties |
| `Trending.TopKeepsLeaders` | context/AppContext.js:126-130 | no question left out of the view has more supports than a question in it |
| `Trending.TopStable` | context/AppContext.js:126-130 | the view's questions with a given support count are the first ones of the list with that count, in list order |
| `OpenAI.Split` | utils/openai.js:32 | `split(' ')` gives between 1 and (length + 1) pieces |
| `OpenAI.SplitPiecesHaveNoSpace` | utils/openai.js:32 | no piece of a split contains a space |
| `OpenAI.JoinSplit` | utils/openai.js:32-33 | `join(' ')` after `split(' ')` gives back the string |
| `OpenAI.SplitJoin` | utils/openai.js:32-33 | `split(' ')` after `join(' ')` of space-free pieces gives back the pieces |
| `OpenAI.JoinPrefix` | utils/openai.js:33 | joining the first k pieces gives a prefix of joining all of them |
| `OpenAI.TrimKeepsFirstPieces` | utils/openai.js:32-33 | the trimmed answer splits into exactly the first `min(200, n)` pieces of the answer, so at most 200 |
| `OpenAI.Join` | utils/openai.js:33 | `join(' ')` starts with the first piece, followed by a space when there is a second piece; `JoinSplit`, `SplitJoin` and `JoinPrefix` carry its round trips |
| `OpenAI.Trim` | utils/openai.js:32-33 | the trimmed answer is a prefix of the answer; `TrimKeepsFirstPieces` and `TrimShortUnchanged` carry the rest |
| `OpenAI.FirstContent` | utils/openai.js:29 | `choices[0]?.message?.content` is present only when there is a first choice whose message holds exactly that content, and when the first choice has a message it is that message's content, present or not |
| `OpenAI.AskOpenAI` | utils/openai.js:6-41 | the call resolves exactly when a reply with `choices` arrived, and a thrown message is never empty; `AskOpenAIOutcomes` gives each case |
| `OpenAI.TrimShortUnchanged` | utils/openai.js:32-33 | an answer of at most 200 pieces is returned unchanged |
| `OpenAI.AnswerText` | utils/openai.js:29 | the answer is never empty; it is the first choice's content when that is a non-empty string, otherwise `'No response received.'` |
| `OpenAI.DefaultAnswerSurvives` | utils/openai.js:29-33 | the default answer passes the trim unchanged |
| `OpenAI.ErrorMessage` | utils/openai.js:38-40 | the thrown message is the service's error message when it is present and non-empty, otherwise the fixed fallback text |
| `OpenAI.AskOpenAIOutcomes` | utils/openai.js:28-40 | the call resolves exactly when a reply with `choices` arrived, and then to a prefix of the answer that splits into exactly its first `min(200, n)` pieces; a rejection carries the service's message when it is non-empty and the fallback text when it is missing or empty; a reply without `choices` gives the fallback |
| `AppState.AuthorId` | context/AppContext.js:78 | a question's author is the user's id when the user has a non-empty one, and `'guest'` when there is no user or its id is empty |
| `AppState.AlreadyVoted` | context/AppContext.js:91 | the guard fires only for an id that is a key of the ledger and holds a non-empty kind |
| `AppState.Vote` | context/AppContext.js:90-111 | after a vote the id is always a key of the ledger, the list keeps its length and `questionsAsked` stays; the `Vote*` lemmas below carry the rest |
| `AppState.NewQuestion` | context/AppContext.js:71-79 | the new record has zero tallies, a digit id, and the given question, answer and timestamp |
| `AppState.AddQuestion` | context/AppContext.js:70-82 | the list grows by one and `questionsAsked` by one; `AddQuestionEffect` carries the rest |
| `AppState.Login` | context/AppContext.js:55-58 | after login the session is not a guest and holds a user with the given email; `LoginEffect` carries the rest |
| `AppState.GuestUser` | context/AppContext.js:65 | a guest user has email `'guest'` and an id starting with `guest_` |
| `AppState.LoginAsGuest` | context/AppContext.js:63-65 | after guest entry the session is a guest with email `'guest'`; `LoginAsGuestEffect` carries the rest |
| `AppState.UpdateSettings` | context/AppContext.js:121-122 | the settings become the new record while list and ledger stay; `UpdateSettingsEffect` carries the rest |
| `AppState.Load` | context/AppContext.js:31-53 | an unreadable user key leaves the state as it was, an empty store changes nothing, and `isGuest` is never cleared; the `Load*` lemmas carry the rest |
| `AppState.VoteWhenVoted` | context/AppContext.js:91-93 | a vote on an id already holding a vote changes no part of the state |
| `AppState.VoteRecords` | context/AppContext.js:107 | a fresh vote adds the id to the ledger with the vote's kind, even when no question has that id; other entries are unchanged |
| `AppState.VoteUpdatesList` | context/AppContext.js:95-106 | a fresh vote keeps the list's length and order and bumps the matching questions by kind, nothing else |
| `AppState.VoteCounters` | context/AppContext.js:109-111 | `supportsGiven` grows by exactly 1 iff the vote is fresh and of kind `'support'`; `questionsAsked`, session and settings are untouched |
| `AppState.VoteIdempotent` | context/AppContext.js:91-107 | voting twice on one id has the effect of the first vote alone, for any non-empty first kind |
| `AppState.AddQuestionEffect` | context/AppContext.js:70-82 | a new question with zero tallies, a digit id, the author id of the session and the given timestamp is prepended, the old list is its tail, `questionsAsked` grows by 1, and every other field stays |
| `AppState.LoginEffect` | context/AppContext.js:55-58 | after login the user has the given email and a digit id, `isGuest` is false, nothing else changes |
| `AppState.LoginAsGuestEffect` | context/AppContext.js:63-65 | after guest entry `isGuest` is true, the email is `'guest'`, the id is `guest_` followed by digits, nothing else changes |
| `AppState.GuestUserInjective` | context/AppContext.js:65-67 | two guest users are equal exactly when built from the same clock reading |
| `AppState.GuestReadingsApart` | context/AppContext.js:65-67 | readings 1000 and 1001 give different guest users |
| `AppState.UpdateSettingsEffect` | context/AppContext.js:121-122 | the whole settings record is replaced and nothing else changes |
| `AppState.LoadGuestFlag` | context/AppContext.js:41 | loading sets `isGuest` only for the exact stored text `'true'`, and never clears it |
| `AppState.LoadStats` | context/AppContext.js:44-48 | stored counters are restored, and a missing counter reads as 0 |
| `AppState.LoadIntact` | context/AppContext.js:31-49 | with every key readable, each of the seven fields comes from its key when present and otherwise keeps its value; `isGuest` is only ever set; a missing `userStats` keeps both counters, a present one restores each with a missing counter read as 0 |
| `AppState.LoadIdempotent` | context/AppContext.js:31-53 | loading an intact store into the state a fresh container loaded from it changes nothing |
| `AppState.LoadStopsAtCorrupt` | context/AppContext.js:40-52 | an unreadable question list, ledger, stats or settings key ends the load: the fields of the keys before it come from those keys (or keep their values when a key is missing), and the fields of the keys after it keep their values |
| `AppState.RunCountsQuestions` | context/AppContext.js:82 | over any run of operations, `questionsAsked` grows by the number of questions added |
| `AppState.RunCountsSupports` | context/AppContext.js:90-111 | over a run whose votes are on distinct, not yet voted ids, `supportsGiven` grows by the number of support votes |
| `Context.AppContext.constructor` | context/AppContext.js:15-25 | a new container holds the initial state (no user, not guest, zero counters, empty list and ledger, default settings) on whatever the device store holds, and mirrors the store when it is empty |
| `Context.AppContext.LoadData` | context/AppContext.js:31-53 | reads what the device store holds and leaves it unchanged; the fields become `Load` of the old fields and the store; a fresh container loading an intact store mirrors it, and a container that mirrors its store still does afterwards |
| `Context.AppContext.Login` | context/AppContext.js:55-61 | new state is `AppState.Login`; the store's `user` and `isGuest` (`'false'`) keys are written; the mirror is kept |
| `Context.AppContext.LoginAsGuest` | context/AppContext.js:63-68 | new state is `AppState.LoginAsGuest`; the store gets `'true'` and the same guest user; the mirror is kept |
| `Context.AppContext.LoginAsGuestAsWritten` | context/AppContext.js:63-68 | as written, with two clock readings: the mirror survives exactly when the two readings agree |
| `Context.AppContext.AddQuestion` | context/AppContext.js:70-88 | new state is `AppState.AddQuestion`; the store gets the new list and the new counters; the mirror is kept |
| `Context.AppContext.VoteQuestion` | context/AppContext.js:90-119 | new state is `AppState.Vote`; an already-voted id writes nothing; a fresh vote writes the list, the ledger and the new counters; the mirror is kept |
| `Context.AppContext.UpdateSettings` | context/AppContext.js:121-124 | new state is `AppState.UpdateSettings`; the store's settings key holds the new record; the mirror is kept |
| `Context.AppContext.GetTrendingQuestions` | context/AppContext.js:126-130 | returns the top-ten view (at most ten questions, non-increasing supports, taken from the list) without touching the container |

## Findings

| source | as written | input that shows it | evidently intended | confidence | as-written member | corrected member |
|---|---|---|---|---|---|---|
| context/AppContext.js:65-67 | the session's guest id is built from one `Date.now()` (line 65); the stored guest id comes from a second `Date.now()` (line 67), read after an awaited store write | clock reads 1000 at line 65 and 1001 at line 67: the session holds `guest_1000`, the store holds `guest_1001`, and a restart brings back a different guest | one clock reading for both, so the store brings back the session | not executed; medium (needs the clock to tick across one awaited write) | `Context.AppContext.LoginAsGuestAsWritten` | `Context.AppContext.LoginAsGuest` |

## Left out

- Device store reads and write failures: a rejected `getItem` or `setItem` is not modelled. A key that fails to parse is modelled as an unreadable slot.
- Stored JSON of an unexpected shape is not modelled. Stored values are taken to have the field types of the model: settings are a record of three flags, and counters are integers or missing.
- React mechanics are not modelled. This covers `useState` and `useEffect`, the provider, and `useApp`'s throw outside a provider. It also covers the interleaving of queued state updates with stale closure values (for example the `questionsAsked + 1` written at line 85). Operations run one after another.
- Ledger keys that JavaScript objects inherit from their prototype (such as `toString`) are not modelled.
- The HTTP POST to the completion service (utils/openai.js:8-27) is an input. Its request body, model name and headers are not modelled, and neither is the console logging.
- A reply whose first choice is `null`, or whose content is not a string, is not modelled.
- `utils/supabase.js` only builds a client.
- The calorie operations used by `screens/CalorieTrackerScreen.js` are not defined in `context/AppContext.js`, so they are not part of this model. The realtime subscriptions and the date-label and input glue of that screen are left out too.
- Screens and components only render state and call the container: `App.js`, the screens and `components/`.
- RunCountsSupports: states the count only for runs whose votes are on distinct, not yet voted ids. Repeated ids are covered by `VoteWhenVoted` instead.
