/**
 The texts the bot sends: the fixed command replies, the quota refusal, and
 the mapping from the AI backend's HTTP response to the text relayed to the user.
 */
module Replies {
  import opened Wrappers
  import opened JsText
  import opened Quota

  /** Every kind of message the bot can send to a chat. */
  datatype Reply =
    | Welcome                  // reply to `/start`
    | Help                     // reply to `/help`
    | UsageReport(used: nat)   // reply to `/usage`
    | UnknownCommand           // any other text starting with `/`
    | LimitReached             // an AI turn refused by the quota
    | AiAnswer(answer: string) // the backend's `reply` field, relayed as is
    | ApiError                 // the backend answered with a non-2xx status
    | NoAiResponse             // the backend's JSON has no usable `reply`

  /** The literal text sent for each reply. */
  function Text(r: Reply): string
  {
    match r
    case Welcome =>
      "\U{1F44B} Welcome! You can ask me anything. Daily limit: " + Decimal(DAILY_LIMIT) + " responses."
    case Help =>
      "Commands:\n/start - Start bot\n/help - Show commands\n/usage - Check your remaining daily AI responses"
    case UsageReport(used) =>
      UsageText(used)
    case UnknownCommand =>
      "\U{274C} Unknown command. Use /help to see commands."
    case LimitReached =>
      "\U{1F6AB} Daily limit reached. Try again tomorrow."
    case AiAnswer(answer) =>
      answer
    case ApiError =>
      "\U{26A0}\U{FE0F} Gemini AI API error, please try later."
    case NoAiResponse =>
      "\U{26A0}\U{FE0F} No response from AI."
  }

  function UsageText(used: nat): string
  {
    "You have used " + Decimal(used) + "/" + Decimal(DAILY_LIMIT) + " responses today."
  }

  /**
   The reply chosen for a command by exact string match; `used` is the
   count `/usage` reports.
   */
  function CommandReply(command: string, used: nat): (r: Reply)
    ensures r == Welcome <==> command == "/start"
    ensures r == Help <==> command == "/help"
    ensures r.UsageReport? <==> command == "/usage"
    ensures r.UsageReport? ==> r.used == used
    ensures r == UnknownCommand <==> command !in {"/start", "/help", "/usage"}
  {
    if command == "/start" then Welcome
    else if command == "/help" then Help
    else if command == "/usage" then UsageReport(used)
    else UnknownCommand
  }

  /** Helper for `CommandMatchIsCaseSensitive`: `/START` matches none of the three commands. */
  lemma UpperCaseStartIsUnknown(used: nat)
    ensures CommandReply("/START", used) == UnknownCommand
  {
    assert "/START"[1] == 'S' && "/start"[1] == 's' && "/usage"[1] == 'u';
    assert |"/START"| == 6 && |"/help"| == 5;
  }

  /** An AI answer is sent verbatim, as the text of the message. */
  lemma AnswerRelayedVerbatim(answer: string)
    ensures Text(AiAnswer(answer)) == answer
  {
  }

  /** The JSON body of a 2xx answer from the AI backend. */
  datatype Body =
    | NotJson                      // no object to read `reply` from: `response.json()` rejects or yields `null`
    | Json(reply: Option<string>)  // the `reply` field, when it holds a string

  /** What the AI backend call produced. */
  datatype BackendOutcome =
    | NetworkFailure                  // `fetch` itself rejects
    | Response(ok: bool, body: Body)  // an HTTP answer; `ok` is a 2xx status

  /**
   The reply `callGeminiAI` resolves to, or None when it rejects (the fetch
   fails, or a 2xx body is not JSON or is `null`, so reading `reply` throws): a non-2xx status gives the API-error
   text without reading the body; otherwise a non-empty `reply` is relayed
   and anything else gives the no-response text.
   */
  function AiResult(b: BackendOutcome): (r: Option<Reply>)
    ensures r == None <==> b.NetworkFailure? || (b.ok && b.body.NotJson?)
    ensures r == Some(ApiError) <==> b.Response? && !b.ok
    ensures r == Some(NoAiResponse) <==>
      b.Response? && b.ok && b.body.Json? && (b.body.reply == None || b.body.reply == Some(""))
    ensures r.Some? && r.value.AiAnswer? ==>
      r.value.answer != "" && b == Response(true, Json(Some(r.value.answer)))
    ensures r.Some? ==> r.value in {ApiError, NoAiResponse} || r.value.AiAnswer?
  {
    match b
    case NetworkFailure => None
    case Response(ok, body) =>
      if !ok then Some(ApiError)
      else match body
        case NotJson => None
        case Json(reply) =>
          if reply.Some? && reply.value != "" then Some(AiAnswer(reply.value))
          else Some(NoAiResponse)
  }

  /** The limit is shown as "15". */
  lemma LimitText()
    ensures Decimal(DAILY_LIMIT) == "15"
  {
    assert Decimal(1) == "1";
    assert DigitChar(5) == '5';
    assert Decimal(15) == Decimal(1) + [DigitChar(5)];
  }

  /**
   The `/usage` text with the limit already rendered. Kept apart from
   `UsageReportText` so that the string literals are unfolded in a small
   context: proving both steps in one lemma runs out of resource.
   */
  lemma UsageTextIs(used: nat)
    ensures UsageText(used) == "You have used " + Decimal(used) + "/15 responses today."
  {
    LimitText();
    assert "/" + "15" + " responses today." == "/15 responses today.";
  }

  /** The `/start` reply states the limit as 15. */
  lemma WelcomeText()
    ensures Text(Welcome) ==
      "\U{1F44B} Welcome! You can ask me anything. Daily limit: 15 responses."
  {
    LimitText();
  }

  /** The `/usage` reply names the stored count and the limit. */
  lemma UsageReportText(used: nat)
    ensures Text(UsageReport(used)) ==
      "You have used " + Decimal(used) + "/15 responses today."
  {
    UsageTextIs(used);
  }
}
