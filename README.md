# Chat endpoint rate limiter and chat page, modelled in Dafny

This project models the two pieces of sequential logic in a small chat
application that relays a conversation to a language-model completion
service.

- **The request ledger** of `POST /api/chat` (`rate_limit.dfy`, module
  `RateLimit`). Each caller has a `{count, lastRequestTime}` record. A
  request opens a new window when strictly more than the window length
  (three hours) has passed since `lastRequestTime`. Otherwise it counts
  once more in the current window. The request is refused with a wait in
  whole minutes, rounded up, when the count exceeds the limit (one).
  Otherwise it is admitted, `lastRequestTime` moves to now, and the
  remaining requests are reported. `Evaluate` is this decision as a
  function of the prior ledger, the time, the limit and the window.
- **The endpoint around it** (`chat_route.dfy`, module `ChatRoute`). It
  reads the ledger from the `rateLimit` cookie, with the fresh ledger
  `{0, 0}` when there is none. It answers 429 on refusal. Otherwise it
  answers with the first choice's text, or `"No response"` when that is
  empty or absent, or a 500 when the completion call fails. `Post` runs
  these steps on local variables as the handler does. `Respond` is the
  function it is proved against.
- **The chat page** (`chat_page.dfy`, module `ChatPage`). A `ChatSession`
  object holds the conversation, the typed text and the loading flag.
  Sending is split into the steps of the page's send routine: `Begin`
  (guard, append the user's turn and an empty assistant turn, build the
  request body), `AppendChunk` (accumulate a chunk and rewrite the last
  turn), `Fail` (append the apology) and `Finish` (clear loading).
  `SendMessage` runs them in order with the streaming loop. The list
  updates are the functions `WithTurn`, `RequestBody`, `WithReply` and
  `WithApology`.

Time is a parameter (`now`, in milliseconds). The completion service is
an input: its choices, or an exception. The transport seen by the page
is an input too: the chunks it delivers and whether it then fails.

Two behaviours are modelled as the code has them:

- A `rateLimit` cookie that is not JSON makes the handler throw, because
  the parse has no `try`. The model answers such a request with an
  uncaught-exception 500 (`Uncaught`). It does not treat the cookie as
  absent.
- The updated ledger is never returned to the caller (see Findings), so
  `Respond` sets no cookie. It is not persisted on gateway failure either.

## Model

| member | source | states |
|---|---|---|
| RateLimit.CeilMinutes | app/api/chat/route.ts:29 | the result is the number of whole minutes in the given milliseconds, rounded up: `(m-1)·60000 < ms ≤ m·60000` |
| RateLimit.Evaluate | app/api/chat/route.ts:19-46 | a request is refused exactly when the counted ledger (1 in a new window, old count + 1 otherwise) exceeds the limit; a refusal carries the rest of the window in minutes rounded up; an admission stamps `lastRequestTime = now`, keeps `count ≤ limit` and reports `remaining = limit - count ≥ 0` |
| RateLimit.Advance | app/api/chat/route.ts:21-25 | the ledger after counting the request, before the limit check: `{1, now}` in a new window, count + 1 otherwise; its properties are stated by `AdvanceCounts` and `Evaluate` |
| RateLimit.AdvanceCounts | app/api/chat/route.ts:19-25 | the window resets to `{1, now}` when elapsed time is strictly greater than the window; at or below it the count goes up by exactly one and the time is untouched |
| RateLimit.ExpiredIsAccepted | app/api/chat/route.ts:21-27 | with a limit of at least one, a request that opens a new window is admitted with `{1, now}` and `limit - 1` remaining, whatever the prior count |
| RateLimit.ActiveWindow | app/api/chat/route.ts:23-27 | in an active window a caller below the limit is admitted with count + 1 and `lastRequestTime = now`; one at or above the limit is refused |
| RateLimit.RejectMinutesBounded | app/api/chat/route.ts:21-29 | with a limit of at least one a refusal only happens in an active window, its wait is ≥ 0, and when elapsed ≥ 0 it is at most the whole window in minutes |
| RateLimit.RejectionKeepsWindow | app/api/chat/route.ts:27-42 | refusals write nothing: a later refusal waits no longer than an earlier one, and a request strictly after the window since the last admission is admitted again |
| RateLimit.DeployedScenario | app/api/chat/route.ts:7-46 | with limit 1 and a 3-hour window: fresh ledger at t is admitted as `{1, t}` with 0 left; at t+1000 refused for 180 minutes; at t+10800001 admitted as a new window |
| RateLimit.DeployedWaitAtMost180 | app/api/chat/route.ts:7-29 | with the deployed constants a refusal's wait lies between 0 and 180 minutes when the ledger's time is not in the future |
| ChatRoute.PriorState | app/api/chat/route.ts:16-17 | no cookie gives `{count: 0, lastRequestTime: 0}`, a ledger cookie gives that ledger, and only an unparseable cookie gives none |
| ChatRoute.ResponseText | app/api/chat/route.ts:74 | the reply text is never empty: non-empty content is kept, absent or empty content becomes `"No response"` |
| ChatRoute.Reply | app/api/chat/route.ts:68-92 | an admitted request is answered 200 exactly when the completion returned at least one choice, with that choice's text and the remaining count; every failure, including no choice to read, is 500 `"Error generating response"`; no cookie is set |
| ChatRoute.Respond | app/api/chat/route.ts:12-93 | status 429 exactly when the ledger decision refuses, with the fixed message and the decision's minutes; a 200 carries a non-empty message and the decision's remaining count; an admitted request gets exactly `Reply`'s answer: the first choice's text with a 200, or the fixed 500 when the completion fails; an unparseable cookie gives an uncaught 500; no response sets a cookie |
| ChatRoute.RespondPersisting | app/api/chat/route.ts:48-62 | the corrected handler: same status and body as `Respond`, and it sets the updated ledger as a cookie exactly when the request is admitted |
| ChatRoute.Post | app/api/chat/route.ts:12-93 | the handler's step-by-step update of the ledger record gives exactly the response `Respond` specifies |
| ChatRoute.Session | app/api/chat/route.ts:58-62 | the body threads the cookie each response sets, if any, into the next request, as a browser keeps the cookie set at lines 58-62; the contract gives one response per request |
| ChatRoute.AsWrittenNeverThrottles | app/api/chat/route.ts:76-85 | as written, a caller that starts without a cookie is never answered 429, whatever its requests |
| ChatRoute.AsWrittenAdmitsSecondRequest | app/api/chat/route.ts:48-62 | as written, a second request one second after the first is not refused |
| ChatRoute.PersistingThrottlesWithinWindow | app/api/chat/route.ts:58-62 | with the ledger attached, after any admitted request (readable cookie, count not negative) every request up to a full window later is refused with 429 |
| ChatRoute.PersistingThrottlesSecondRequest | app/api/chat/route.ts:58-62 | with the ledger attached to the response, the second request one second after the first is refused for 180 minutes |
| ChatPage.IsBlank | app/page.tsx:32 | the guard's "trims to nothing": every character is whitespace (a simplified whitespace set); `Begin` and `SendMessage` do nothing exactly when it holds or a send is in progress |
| ChatPage.WithTurn | app/page.tsx:36-40 | the list grows by exactly two: earlier messages unchanged, then the user turn with the typed text, then an empty assistant turn |
| ChatPage.RequestBody | app/page.tsx:48 | the request body is the appended list without its last element: the earlier messages plus the user turn, without the placeholder |
| ChatPage.WithReply | app/page.tsx:68-75 | the per-chunk update keeps the length and every element but the last; the last keeps its role and takes the reply as its content |
| ChatPage.WithApology | app/page.tsx:79-82 | exactly one assistant apology is appended after the unchanged list |
| ChatPage.Concat | app/page.tsx:62-67 | the reference definition of the accumulated reply: all chunks joined in order; `ConcatSnoc` ties it to the `+=` accumulation |
| ChatPage.ConcatSnoc | app/page.tsx:62-67 | accumulating one more chunk extends the concatenation of all chunks so far by that chunk, in order |
| ChatPage.ReplyOverwrites | app/page.tsx:68-75 | a later chunk's update overwrites an earlier one's: two updates equal the later one alone |
| ChatPage.ReplyFillsPlaceholder | app/page.tsx:36-75 | writing a reply into the freshly appended turns gives the request body followed by the assistant's reply |
| ChatPage.Settled | app/page.tsx:31-86 | a settled send leaves the earlier messages, the user turn, the assistant turn holding all chunks in order and, after a failure, the apology |
| ChatPage.ChatSession.constructor | app/page.tsx:12-19 | the page opens on exactly one assistant message, the greeting, with empty input and not loading |
| ChatPage.ChatSession.Edit | app/page.tsx:163-166 | typing replaces the input and changes nothing else |
| ChatPage.ChatSession.Begin | app/page.tsx:32-48 | blank input or a send in progress changes nothing; otherwise loading is set, input cleared, two turns appended and the request body built from the list as it was |
| ChatPage.ChatSession.AppendChunk | app/page.tsx:62-75 | the accumulated reply is the concatenation of all chunks received, and the last turn shows it |
| ChatPage.ChatSession.Fail | app/page.tsx:77-82 | the apology is appended and nothing else changes; the placeholder stays |
| ChatPage.ChatSession.Finish | app/page.tsx:85 | loading is cleared and nothing else changes |
| ChatPage.ChatSession.SendMessage | app/page.tsx:31-86 | a send that passes the guard sends the old list plus the user turn, leaves the `Settled` conversation, clears the input and ends not loading on both the success and the error path |

## Left out

- The completion client, its API key and the system prompt sent with the conversation (app/api/chat/route.ts:64-72): a foreign network call. Only its result is modelled: its choices, or an exception.
- Reading the request body (`req.json()`, app/api/chat/route.ts:66): it only feeds the completion call. A body that fails to parse would escape the handler like an unparseable cookie; this is not modelled.
- `NextRequest`/`NextResponse`, JSON encoding, headers and the cookie options (`httpOnly`, `maxAge`, `path`): framework plumbing.
- A cookie that is valid JSON but not a ledger record, and non-integer counts or times: the model's ledger holds integers.
- The `ip` value (app/api/chat/route.ts:13): computed and never used.
- `Date.now()`: the time is a parameter.
- RateLimit.CeilMinutes: models `Math.ceil(ms / 1000 / 60)` as exact integer ceiling division; floating-point rounding is not modelled.
- `fetch`, the stream reader and the text decoder (app/page.tsx:43-66): I/O. Chunks are an input sequence of decoded strings, and failure is a flag after them.
- ChatPage.WithReply: requires a non-empty list. The page's update on an empty list would produce a message without a role; it cannot arise, because the list starts with one message and never shrinks.
- ChatPage.IsBlank: uses a fixed set of whitespace characters, not the full Unicode set of string trimming.
- Rendering, styling, scrolling and the Enter-key handler (app/page.tsx:21-29, 88-198): user interface.
- React's asynchronous state updates: the updates are sequential steps in program order.
- The page reads a text stream while the endpoint answers with JSON: the two are not connected in this model.

## Findings

| source | as written | input that shows it | evidently intended | confidence | as-written member | corrected member |
|---|---|---|---|---|---|---|
| app/api/chat/route.ts:48-62 | the updated ledger is set as a cookie on a response that is never returned; both returns (lines 76 and 88) build new responses without it, so the caller never holds a ledger and every request is evaluated against `{0, 0}` | no cookie; a request at time t, then one at t + 1000: both are answered | the ledger is returned with the answer, so the second request is refused with a 180-minute wait | high, not executed | ChatRoute.AsWrittenNeverThrottles | ChatRoute.PersistingThrottlesWithinWindow, ChatRoute.PersistingThrottlesSecondRequest |
