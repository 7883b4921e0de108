# Three-party chat: turn engine and client state, in Dafny

The system lets one person talk with two language-model backends, GPT
(OpenAI) and Claude (Anthropic), in a single shared conversation log. Each
user turn carries tags (`@gpt`, `@claude`) saying which backends answer, and
in what order. This project models:

- the server's turn engine (backend/src/server.ts);
- the browser client's state rules (frontend/src/App.tsx);

and proves properties of both.

Layout, one module per file:

- `text.dfy`, module `Text`: the JavaScript string operations the engine
  relies on. These are `trim` (JavaScript WhiteSpace plus LineTerminator),
  `includes`, and the decimal rendering of a number in a template literal.
- `types.dfy`, module `Types`: the messages, provider turns, replies,
  request and response records (backend/src/types.ts), plus `Option` and
  `Outcome`. `Outcome` is a value, or a thrown error with its message.
- `speaker.dfy`, module `Speaker`: speaker attribution.
  - `cleanSpeakerLabels`: the case-insensitive `[SPEAKER: …]` regular
    expression followed by `trim`.
  - `createSpeakerLabeledHistory`.
  - The Anthropic compatibility rewrite.
- `providers.dfy`, module `Providers`: `callOpenAI` and `callAnthropic`.
  - Each SDK request is replaced by a provider oracle
    `Provider<T> = (nat, seq<Turn>) -> Outcome<T>`. It gives the outcome of
    the n-th request of one retrying call for the turns sent.
  - Each loop is a method, proved equal to a specification function
    (`OpenAISpec`, `AnthropicSpec`). That function returns the result, the
    turns sent on every request, and the total backoff sleep.
  - A shape lemma (`OpenAISpecShape`, `AnthropicSpecShape`) states what
    the specification function promises.
- `server.dfy`, module `ChatServer`: the process-wide log as a class
  `Server`.
  - `Send` is `POST /send`; `Reset` is `POST /reset`; `GetHistory` is
    `GET /history`.
  - The tag loop of `Send` is proved against `Dispatch`. `Dispatch` is a
    recursive specification in which every tag slot sees the log as the
    earlier slots left it.
  - `Dispatch` takes the slot outcome as a function value (`Answerer`). The
    server's own answerer, `Caller`, races the retrying provider call
    against the timer.
- `app.dfy`, module `ChatApp`: the client as a class `App`.
  - Its fields are `history`, `selectedTags` and `sending`.
  - The pure updaters `Toggle` and `Merge` are functions.
  - A lemma relates the client's optimistic merge to what the server
    stored.

The inputs from outside the model are parameters of `Send`, collected in
`Env`:
- the ids returned by `generateId`;
- the `Date.now` readings;
- the provider oracles for each tag slot;
- whether the `API_TIMEOUT` timer settles a slot's race first.

`MAX_RETRIES` and `API_TIMEOUT` are fields of the `Server`. The backoff
sleeps become a ghost total delay.

## Behaviour worth noting

Several things the code does may differ from what a reader expects. The
model follows the code in each case.

- One might expect a failed slot (provider error, timeout or unknown tag)
  to be stored in the log as an assistant error message. The code only adds
  it to the reply list (backend/src/server.ts:203-215). See `Send`,
  `UnknownTagNeverStored` and `MergeMirrorsServer`.
- `cleanSpeakerLabels` removes one leading marker only, so it is not
  idempotent (backend/src/server.ts:39-41). Text with two stacked markers
  keeps the second one (`CleanKeepsSecondMarker`). A marker after leading
  whitespace is kept (`CleanKeepsIndentedMarker`). `CleanTwice` states
  exactly when cleaning twice equals cleaning once.
- The timer races the whole retrying call, not each attempt
  (backend/src/server.ts:161-174). A timeout fails the slot at once, with
  `timeout after {API_TIMEOUT}ms`, and is not retried.
- An unknown tag fails with `Unknown tag: {tag}`, and its error reply is
  attributed to Claude (backend/src/server.ts:177).
- The first attempt of `callAnthropic` may make two requests. The second is
  the compatibility request, made after an "alternation" error. A call can
  therefore make `retries + 2` requests. When the compatibility request
  fails and attempts remain, the loop sleeps and retries with the original
  turns (backend/src/server.ts:73-122).
- The provider view is not rebuilt for every call. It is built once, after
  the user message is stored, and extended in step with the log
  (backend/src/server.ts:150-152, 198-201). The loop invariant
  `contextMessages == LabelHistory(history)` shows that this gives the same
  turns as rebuilding it.

## Model

| member | source | states |
|---|---|---|
| Text.Trim | backend/src/server.ts:146 | the result has no whitespace at either end and is the input with only whitespace cut off before and after it |
| Text.TrimUnique | backend/src/server.ts:146 | any split of a text into whitespace, a core with no whitespace at its ends, and whitespace makes that core the trimmed text |
| Text.TrimOfTrimmed | backend/src/server.ts:40 | trimming text that has no whitespace at its ends changes nothing, so trimming twice equals trimming once |
| Text.TrimSkipsLeadingSpace | backend/src/server.ts:40 | a whitespace character in front of a text does not change its trimmed form |
| Text.ContainsIff | backend/src/server.ts:92 | `includes` holds exactly when the pattern occurs at some index of the text |
| Text.NatToString | backend/src/server.ts:65 | the rendering of a number is a non-empty string of decimal digits, without a leading zero unless the number is 0, that denotes the number |
| Types.AssistantMsg | backend/src/server.ts:182-196 | the log entry for a reply has the assistant role and carries the reply's id, author, content and time unchanged |
| Speaker.MarkerEndFinds | backend/src/server.ts:40 | the marker search succeeds exactly when the text starts with a `[SPEAKER:` … `]` marker (letters in any case), and the prefix it finds is such a marker |
| Speaker.CleanSpeakerLabels | backend/src/server.ts:39-41 | the cleaned text has no whitespace at either end and is never longer than the input |
| Speaker.CleanAfterMarker | backend/src/server.ts:39-41 | with a marker in front, cleaning yields the trimmed text after the marker |
| Speaker.CleanWithoutMarker | backend/src/server.ts:39-41 | without a marker in front, cleaning is trimming |
| Speaker.CleanTwice | backend/src/server.ts:39-41 | cleaning twice equals cleaning once exactly when the once-cleaned text does not itself start with a marker |
| Speaker.CleanMarkerSpace | backend/src/server.ts:39-41 | a marker, one space and a text clean to the trimmed text |
| Speaker.CleanKeepsSecondMarker | backend/src/server.ts:39-41 | with two stacked markers only the first is removed; a second cleaning removes the other, so the two results differ |
| Speaker.CleanKeepsIndentedMarker | backend/src/server.ts:39-41 | a marker preceded by whitespace is kept; only the whitespace goes |
| Speaker.SpeakerMarker | backend/src/server.ts:47-48 | `[SPEAKER: name]` for a name without `]` is a marker that cleaning removes |
| Speaker.LabelHistory | backend/src/server.ts:43-50 | one turn per stored message, in order, with the message's role and the `[SPEAKER: User]`, `[SPEAKER: GPT]` or `[SPEAKER: Claude]` prefix (and a space) chosen by role and author |
| Speaker.LabelHistoryAppend | backend/src/server.ts:43-50 | labelling a log with one more message appends that message's label |
| Speaker.CleanUndoesLabel | backend/src/server.ts:43-50 | a labelled turn keeps the message's role, and cleaning its content gives back the trimmed message text |
| Speaker.CompatRewrite | backend/src/server.ts:91-96 | the rewrite keeps the length and every content; a turn's role changes exactly when it is an assistant turn containing `[SPEAKER: GPT]`, and only from assistant to user |
| Speaker.CompatOfLabelled | backend/src/server.ts:91-96 | on a labelled log, a turn stays an assistant turn exactly when it comes from a Claude message whose own text does not quote `[SPEAKER: GPT]`; every GPT message becomes a user turn |
| Providers.BackoffClosedForm | backend/src/server.ts:67 | the sleeps before attempt k total (2^k − 1) · 1000 ms |
| Providers.FirstOk | backend/src/server.ts:53-69 | the search finds the first successful request in a range, with every earlier one failed; it finds none only when all of them failed |
| Providers.GptText | backend/src/server.ts:62 | the GPT text is never empty: it is the completion content when that is present and non-empty, else `No response from GPT` |
| Providers.ClaudeText | backend/src/server.ts:82-86 | a text block gives its text; any other block gives `No text response from Claude` |
| Providers.OpenAISpecShape | backend/src/server.ts:52-71 | `callOpenAI`: each request sends the same turns, and there are between 1 and retries + 1 of them; every request but the last failed; the call succeeds exactly when the last request succeeded, with that text; the sleep is the backoff before the last attempt; on failure all retries + 1 attempts were made and the error reads `OpenAI error after {retries+1} attempts: {last message}`; with negative retries no request is made and `OpenAI call failed` is thrown |
| Providers.CallOpenAI | backend/src/server.ts:52-71 | the loop's result, the requests it sends and its total sleep are exactly those of the specification |
| Providers.FirstAttemptSent | backend/src/server.ts:88-113 | a failed first attempt sends the original turns, then the rewritten turns exactly when the first error mentions `alternation` |
| Providers.AnthropicLaterShape | backend/src/server.ts:114-121 | once the first attempt failed: the later attempts send the original turns, stop at the first success, sleep the backoff, and when all fail report `Anthropic error after {retries+1} attempts: {last message}` |
| Providers.AnthropicSpecShape | backend/src/server.ts:73-122 | `callAnthropic` makes at most retries + 2 requests, and retries + 2 only after an `alternation` error; the rewritten turns are sent only as the second request, only after that error; every request but the last failed; success is decided by the last request; the sleep is the backoff over the attempts after the first; on failure the error is `Anthropic error (compat retry failed): …` when the compatibility request was the last one and retries is 0, and `Anthropic error after {retries+1} attempts: …` otherwise; with negative retries no request is made and `Anthropic call failed` is thrown |
| Providers.CallAnthropic | backend/src/server.ts:73-122 | the loop's result, the requests it sends (the compatibility request included) and its total sleep are exactly those of the specification |
| ChatServer.UnknownTagFails | backend/src/server.ts:176-178 | a tag other than `@gpt` and `@claude` is answered with `Unknown tag: {tag}` |
| ChatServer.TimerWinsFails | backend/src/server.ts:161-174 | when the timer settles first, a known tag's slot fails with `timeout after {API_TIMEOUT}ms` whatever the provider does |
| ChatServer.CallWinsPasses | backend/src/server.ts:161-174 | when the call settles first, the slot gets exactly the result of `callOpenAI` or `callAnthropic` on the current provider view |
| ChatServer.SlotFor | backend/src/server.ts:180-215 | a slot takes the next id and time; it is attributed to GPT for `@gpt` and to Claude otherwise; it is stored exactly when the call succeeded, then carrying the cleaned reply, which is trimmed; otherwise its text is `(error from GPT: {message})` or `(error from Claude: {message})` by attribution |
| ChatServer.Stored | backend/src/server.ts:190 | the slots add at most one log entry each, all with the assistant role |
| ChatServer.Replies | backend/src/server.ts:191-196 | one reply per slot, in slot order |
| ChatServer.Dispatch | backend/src/server.ts:155-216 | one slot for every remaining tag |
| ChatServer.StoredCount | backend/src/server.ts:203-215 | the log grows by exactly the number of successful slots |
| ChatServer.DispatchSplit | backend/src/server.ts:155-216 | the slots of a send are those already produced followed by those of the remaining tags, computed on the log the earlier slots left |
| ChatServer.DispatchContext | backend/src/server.ts:198-201 | slot j is decided on the labelled log as it stood when the tag loop began (the new user message included), plus every reply stored by an earlier slot of the same send |
| ChatServer.LaterSlotSeesReply | backend/src/server.ts:198-201 | a reply stored by slot i appears, with its speaker label, in the provider view of every later slot j |
| ChatServer.UnknownTagNeverStored | backend/src/server.ts:203-215 | an unknown tag's slot is not stored; it is attributed to Claude and reads `(error from Claude: Unknown tag: {tag})` |
| ChatServer.ContextRoundTrip | backend/src/server.ts:43-50 | for a well-formed stored message, cleaning its turn in the provider view gives back the stored text, and the role is kept |
| ChatServer.SendAddsOneUserMessage | backend/src/server.ts:142-150 | an accepted send adds exactly one user message to the log, however its slots fare |
| ChatServer.Server.constructor | backend/src/server.ts:26 | the log starts empty |
| ChatServer.Server.GetHistory | backend/src/server.ts:125-128 | the query returns the whole log, in order |
| ChatServer.Server.Reset | backend/src/server.ts:232-235 | after a reset the log is empty |
| ChatServer.Server.AnswerSlot | backend/src/server.ts:160-178 | one tag's race of call against timer gives exactly the server answerer's outcome for that tag, slot and provider view |
| ChatServer.Server.Send | backend/src/server.ts:130-230 | missing or blank content gives 400 `Content is required`, and a missing or empty tag array gives 400 `Tags array is required`, both leaving the log unchanged; otherwise the old log is kept as a prefix, followed by one user message with the trimmed content and then, in tag order, the reply of each successful slot; the response lists one reply per tag and every stored message stays well-formed |
| ChatApp.TagText | frontend/src/App.tsx:11 | a selectable tag is sent as `@gpt` or `@claude`, and as `@gpt` exactly for GPT |
| ChatApp.Toggle | frontend/src/App.tsx:24-29 | the tag is selected afterwards; the old selection is a prefix of the new one, which is at most one longer; the selection is unchanged exactly when the tag was already in it; a selection without duplicates stays without |
| ChatApp.ToggleIdempotent | frontend/src/App.tsx:24-29 | toggling a tag twice equals toggling it once |
| ChatApp.RequestTags | frontend/src/App.tsx:37 | the request carries the selected tags in selection order |
| ChatApp.ClientRequestsAccepted | frontend/src/App.tsx:34-37 | every request that passes the client's guard passes the server's validation |
| ChatApp.ReplyMsgs | frontend/src/App.tsx:49-55 | each reply becomes an assistant entry, in reply order |
| ChatApp.Merge | frontend/src/App.tsx:40-56 | the merged log is the old log unchanged, then a user entry with the response's user message id, the content as typed and the client's clock, then every reply as an assistant entry in order; it grows by exactly 1 + the number of replies |
| ChatApp.MergeMirrorsServer | frontend/src/App.tsx:40-56 | the client's appended replies equal the entries the server stored exactly when every slot succeeded |
| ChatApp.App.constructor | frontend/src/App.tsx:8-11 | the client starts with an empty log, `@gpt` selected and no send in flight |
| ChatApp.App.ToggleTag | frontend/src/App.tsx:24-29 | the selection becomes `Toggle` of the old one and stays without duplicates; log and flag are unchanged |
| ChatApp.App.ClearTags | frontend/src/App.tsx:31 | the selection becomes empty; log and flag are unchanged |
| ChatApp.App.BeginSend | frontend/src/App.tsx:33-37 | blank content or an empty selection sends nothing and changes nothing; otherwise the flag is raised and the request carries the content as typed and the selection |
| ChatApp.App.FinishSend | frontend/src/App.tsx:36-59 | the flag is lowered whether the request succeeded or failed; a response is merged into the log; a failure leaves the log alone |
| ChatApp.App.Reset | frontend/src/App.tsx:62-65 | after the server confirms the reset the local log is empty; a failed reset request changes nothing |

## Left out

- HTTP plumbing is not modelled: the Express app, CORS, JSON body
  parsing, `listen` and logging (backend/src/server.ts:8-10, 28-32, 237-244). The
  JSON envelope of `GET /history` is not modelled either.
- The SDK requests are provider oracles. The model name, token cap and
  temperature they send are not modelled.
- Real time is not modelled.
  - The backoff sleeps become a ghost total delay.
  - The `Promise.race` timer becomes the per-slot flag `timerWins`.
  - A call that lost the race keeps running on the server and may make
    further requests. Those requests are not modelled; they never touch
    the log.
- Concurrent `/send` requests interleaving on the shared log are not
  modelled; sends are taken one at a time.
- Environment parsing is not modelled: `MAX_RETRIES` and `API_TIMEOUT`
  are parameters.
- Only whole, non-negative `TIMEOUT_MS` values are modelled: `apiTimeout`
  is a `nat`. A negative or fractional value would be rendered as it is in
  the `timeout after {API_TIMEOUT}ms` text.
- Only whole `RETRIES` values are modelled. A fractional value makes the
  loop end without ever meeting `attempt === retries`, and the model's
  retry count is an integer.
- `generateId` randomness and `Date.now` are values supplied by `Env`.
  Fresh ids are not assumed distinct.
- Non-string values in a request are not modelled. A non-string `content`
  makes `trim` throw, answered with status 500 (backend/src/server.ts:226-229).
  A non-string entry of `tags` is not modelled either. Request fields are
  either missing or strings.
- An error without a message (`error.message` undefined) is not modelled:
  every modelled error carries a message text.
- A provider response with an empty content array makes the code throw a
  `TypeError` inside the `try`. It is one of the provider's error outcomes.
- frontend/src/api.ts (the network client), the JSX components, and the
  `useEffect` that loads the log and the loading flag are not modelled.
- ChatApp.App.BeginSend: the guard does not look at `sending`, and
  overlapping client sends are not modelled. `FinishSend` applies the
  merge to the log as it is when the response arrives.
