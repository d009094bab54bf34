# Telegram AI bot worker: quota tracker, router and dispatcher

A Dafny model of the core of a Cloudflare Worker that relays Telegram chat
messages to a text-generation backend. The worker keeps a per-chat, per-day
quota table (`userUsage`) and allows `DAILY_LIMIT` = 15 AI turns per chat
per day. It answers the slash-commands `/start`, `/help` and `/usage` with
fixed replies. It relays the backend's reply, or a fixed fallback text, to
the chat the message came from.

Modules:

- `Wrappers`: `Option`, for JSON fields that may be absent.
- `JsText`: the JavaScript built-ins the handler relies on. This covers
  `String.prototype.trim`, which strips the ECMAScript white-space and
  line-terminator set, and the decimal text of a non-negative integer, as used
  in template strings.
- `Quota`: the table `chat id -> date -> count`, with the read `Used`, the
  check-then-increment `Consumed` and the invariant `Bounded`.
- `Replies`: the messages the bot sends (`Reply` and their literal `Text`),
  the command dispatch `CommandReply`, and the mapping `AiResult` from the
  backend's HTTP outcome to the reply.
- `Bot`: routing (`RouteOf`), one turn as a value (`Step`), and the class
  `Worker`. `Worker` holds `userUsage` and an `outbox` of sent messages, and
  its methods `HandleRequest`, `HandleCommand`, `TryConsume` and
  `SendMessage` update them in place. `HandleRequest` is proved against
  `Step`, `HandleCommand` against `CommandReply`, and `TryConsume` against
  `Consumed`.
- `BotProperties`: lemmas about single turns, and about `Run`, which is
  turns handled one after another by one worker process.

The date ("today") and the outcome of the AI backend call are parameters of
a turn. The clock and the network are not modelled. A sent message is a value
appended to `Worker.outbox`, not an HTTP call.

Behaviour of index.js that the model keeps:

- When the backend `fetch` rejects (index.js:81), or a 2xx body gives no
  object to read `reply` from (index.js:95-96: `response.json()` rejects or
  yields `null`), `callGeminiAI` rejects. No message is sent, and the quota
  unit stays consumed. The model represents this as `WorkerResponse.Rejected`
  with an empty `sent`.
- A 2xx answer without a usable `reply` gets the "No response from AI" text,
  not the API-error text.
- A chat id of `0` is falsy in JavaScript, so such a message is ignored like
  one with no chat id at all.

## Model

| member | source | states |
|---|---|---|
| `Quota.Used` | index.js:61 | the count for (chat, day) is the stored value when both keys exist, and 0 otherwise; reading creates nothing; on a table that keeps the bound, the count read is at most 15 |
| `Quota.UsedAfterConsumed` | index.js:29-38 | reading (chat, day) back after the check-then-increment gives the old count + 1 when it was below 15, and the old count otherwise |
| `Quota.Consumed` | index.js:29-38 | under the limit, the (chat, day) entry is created if missing and ends at old count + 1; at or over the limit the table is unchanged; no other chat's entry and no other day's entry changes; the bound `count <= DAILY_LIMIT` is preserved |
| `Bot.Worker.TryConsume` | index.js:28-38 | the in-place lazy creation, check and `+= 1` return `granted` exactly when the old count was below the limit, leave the table equal to `Consumed` of the old one, and send nothing |
| `Bot.Worker.HandleRequest` | index.js:14-48 | the method's new table, appended messages and HTTP response are exactly those of `Step` on the old table |
| `Bot.Worker.HandleCommand` | index.js:51-68 | appends exactly one message, the text of `CommandReply` for the command and the stored count; the table is unchanged |
| `Bot.Worker.SendMessage` | index.js:71-77 | appends one message for the chat to the outbox and changes nothing else |
| `Bot.Worker.constructor` | index.js:12 | a new worker starts with an empty usage table and no messages sent |
| `Bot.TrimmedText` | index.js:18-20 | the trimmed text is empty exactly when the text is absent or entirely white space |
| `Bot.RouteOf` | index.js:15-25 | non-POST requests get the status page; a POST with a falsy chat id (absent or 0, `Truthy`) or blank trimmed text is ignored; a trimmed text starting with `/` is a command (with the trimmed text as the command), and anything else is an AI turn; each direction is stated both ways |
| `Bot.Step` | index.js:14-48 | a turn sends at most one message, always to the requesting chat; it preserves `Bounded`; the only count that can change is (chat, today) of an AI turn, and it rises by exactly 1; a rejected turn sends nothing; only non-POST requests get the status page |
| `BotProperties.MalformedIsSilent` | index.js:17-20 | a request with no truthy chat id or with blank text sends nothing and leaves the table unchanged |
| `BotProperties.CommandsNeverConsume` | index.js:23-25 | a command turn leaves the table unchanged and sends exactly the dispatcher's reply, whatever the backend would have done |
| `BotProperties.CommandTurn` | index.js:18-25 | a message whose trimmed text starts with `/` gets the dispatcher's reply for the trimmed text |
| `BotProperties.PaddedStartIsStart` | index.js:18-54 | `" /start\n"` is trimmed to `/start` and gets the welcome reply |
| `BotProperties.CommandWithArgumentIsUnknown` | index.js:52-65 | `/start x` gets the unknown-command reply |
| `BotProperties.CommandMatchIsCaseSensitive` | index.js:52-65 | `/START` gets the unknown-command reply |
| `BotProperties.UsageCommandReads` | index.js:59-62 | `/usage` replies `You have used {used}/15 responses today.` with the stored count, or 0 when there is none, and leaves the table unchanged |
| `BotProperties.LimitReachedRefuses` | index.js:32-35 | an AI turn at or over the limit sends the fixed limit message and leaves the table unchanged |
| `BotProperties.UnderLimitConsumesOne` | index.js:37-41 | an AI turn under the limit raises its count by exactly 1, and the new table is the same for every backend outcome, so there is no refund |
| `BotProperties.GrantedTurnRelaysBackend` | index.js:41-44 | a granted turn sends the mapped backend reply, or sends nothing and rejects when the backend call throws |
| `BotProperties.FailingBackendStillCounts` | index.js:38-43 | a backend answering with a non-2xx status produces the API-error text, and the turn is still counted |
| `BotProperties.SixteenthTurnRefused` | index.js:32-35 | on a count of 15 the turn gets the limit message and the count stays 15 |
| `BotProperties.RunKeepsBounded` | index.js:29-38 | however many turns are handled in sequence, a table within the limit stays within it |
| `BotProperties.ReachableTablesBounded` | index.js:12-38 | starting from the empty table, every stored count stays within 0..15 |
| `BotProperties.RunSendsAtMostOnePerTurn` | index.js:20-44 | n turns send at most n messages |
| `BotProperties.AiTurnsSaturate` | index.js:29-38 | after n AI turns from one chat on one day, its count is min(old + n, 15); in particular k turns from 0 with k <= 15 leave k |
| `BotProperties.OtherTurnsLeaveCount` | index.js:23-38 | turns that are not AI turns of (chat, day), such as commands, ignored messages, other chats and other days, never change that count |
| `BotProperties.ThreeTurnsThenUsage` | index.js:29-62 | after three AI turns from chat 1, `/usage` replies exactly `You have used 3/15 responses today.`, whatever the backend did |
| `Replies.CommandReply` | index.js:52-66 | `/start`, `/help` and `/usage` get their own replies by exact string match (each both ways), `/usage` carries the given count, and every other command gets the unknown-command reply |
| `Replies.Text` | index.js:33-96 | each reply kind is sent as the source's literal text; the `/usage` text is built from the count and the limit |
| `Replies.WelcomeText` | index.js:53 | the `/start` reply names the daily limit as `15` |
| `Replies.AnswerRelayedVerbatim` | index.js:41-43 | the backend's `reply` is sent unchanged as the message text |
| `Replies.AiResult` | index.js:80-96 | the call rejects exactly on a failed fetch or a 2xx body that is not JSON or is `null`; the API-error text comes exactly on a non-2xx status; the no-response text comes exactly when a 2xx JSON body's `reply` is missing or empty; otherwise the non-empty `reply` is relayed |
| `Replies.UsageReportText` | index.js:62 | the `/usage` text is `You have used ` + the count's digits + `/15 responses today.` |
| `Replies.LimitText` | index.js:3 | the limit is rendered as `15` in the reply texts |
| `JsText.Trim` | index.js:18 | white space is the ECMAScript WhiteSpace and LineTerminator set (`IsWhiteSpace`); the result is the slice of the input that starts after the leading white space; everything after it is white space; it is empty exactly when the input is all white space; otherwise it neither starts nor ends with white space |
| `JsText.TrimStrips` | index.js:18 | text that has no white space at either end comes back unchanged when trimmed from between any white-space runs |
| `JsText.TrimIdempotent` | index.js:18 | trimming twice gives the same result as trimming once |
| `JsText.LeadingSpace` | index.js:18 | returns the length of the white-space prefix: every character before it is white space, and the next one is not |
| `JsText.TrailingSpace` | index.js:18 | returns the length of the white-space suffix: every character in it is white space, and the one before it is not |
| `JsText.Decimal` | index.js:62 | the number's text is a non-empty string of digits with no leading zero unless it is `0` |
| `JsText.DecimalRoundTrip` | index.js:62 | reading the digits back gives the number |
| `JsText.DecimalInjective` | index.js:62 | different counts are shown as different texts |

## Left out

- The HTTP calls: the `fetch` to the send-message endpoint (index.js:71-77) is modelled as appending to `Worker.outbox`. A send that fails is not modelled.
- The AI request itself (index.js:81-92): its JSON body (prompt, model, `max_tokens`), its headers and its URL are not modelled. The call is represented only by its outcome, a parameter of each turn, so the prompt text has no effect in the model.
- `addEventListener`, `Response` objects (index.js:7-9, 20, 34, 44, 47, 67) are reduced to the value `WorkerResponse` (`Ack`, `StatusPage`, `Rejected`).
- JSON parsing of the webhook body (index.js:16): a body that is not JSON, a `text` that is not a string (whose `trim` throws) and a chat id that is not an integer are not modelled. Chat ids are integers, and a `reply` field that holds a non-string value is treated as absent.
- The clock (index.js:28, 60): today's date is a parameter of each turn.
- Concurrency: the check (index.js:32) and the increment (index.js:38) run with no `await` between them, so requests that interleave at the `await`s are still counted one at a time, as the model handles them. The model covers one worker process; separate isolates each keep their own table, and that is not modelled. No property about N concurrent requests is proved.
- Configuration: the secret (index.js:2) and the unused `parse` import (index.js:5). `DAILY_LIMIT` is the constant 15.
- The emoji in the fixed texts are written as Unicode escapes. Nothing is proved about them beyond the texts being equal to those literals.
