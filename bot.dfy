/**
 The webhook handler: routing of one inbound request, the command dispatcher,
 and the quota-gated AI turn. `Step` is the specification of one turn as a
 value; `Worker` is the handler itself, which updates its usage table in
 place and appends what it sends to an outbox.
 */
module Bot {
  import opened Wrappers
  import opened JsText
  import opened Quota
  import opened Replies

  /**
   An inbound HTTP request. For a POST, the two fields the handler reads
   from the JSON body: `message.chat.id` and `message.text`, each possibly absent.
   */
  datatype Request =
    | NotPost
    | Post(chatId: Option<ChatId>, text: Option<string>)

  /** The HTTP response the worker gives the webhook transport. */
  datatype WorkerResponse =
    | Ack         // "ok"
    | StatusPage  // "Telegram AI Bot is running"
    | Rejected    // the handler's promise rejected (the AI call threw)

  /** One call of the platform's send-message endpoint. */
  datatype Outbound = Outbound(chat: ChatId, text: string)

  /** Which of the handler's paths a request takes. */
  datatype Route =
    | StatusRoute
    | Ignored
    | CommandRoute(chat: ChatId, command: string)
    | AiRoute(chat: ChatId, prompt: string)

  /** JavaScript truthiness of the chat id: absent and 0 are falsy. */
  predicate Truthy(id: Option<ChatId>)
  {
    id.Some? && id.value != 0
  }

  /** The message text after `?.trim()`; an absent text reads as empty (falsy). */
  function TrimmedText(text: Option<string>): (s: string)
    ensures s == "" <==> text == None || AllWhiteSpace(text.value)
  {
    if text.Some? then Trim(text.value) else ""
  }

  /**
   Routing: a non-POST gets the status page; a POST without a truthy chat
   id or with empty trimmed text is ignored; trimmed text starting with `/`
   is a command; anything else is an AI turn with the trimmed text as prompt.
   */
  function RouteOf(req: Request): (r: Route)
    ensures r == StatusRoute <==> !req.Post?
    ensures r == Ignored <==> req.Post? && (!Truthy(req.chatId) || TrimmedText(req.text) == "")
    ensures r.CommandRoute? <==>
      req.Post? && Truthy(req.chatId) && TrimmedText(req.text) != "" && TrimmedText(req.text)[0] == '/'
    ensures r.CommandRoute? || r.AiRoute? ==>
      req.Post? && req.chatId == Some(r.chat) && r.chat != 0
    ensures r.CommandRoute? ==> r.command == TrimmedText(req.text)
    ensures r.AiRoute? ==> r.prompt == TrimmedText(req.text) && r.prompt != "" && r.prompt[0] != '/'
  {
    if !req.Post? then StatusRoute
    else
      var text := TrimmedText(req.text);
      if !Truthy(req.chatId) || text == "" then Ignored
      else if text[0] == '/' then CommandRoute(req.chatId.value, text)
      else AiRoute(req.chatId.value, text)
  }

  /** The outcome of one turn: the new usage table, the messages sent, the HTTP response. */
  datatype Turn = Turn(table: Table, sent: seq<Outbound>, response: WorkerResponse)

  /**
   One turn of the handler on table `t`, with `today` the date read from the
   clock and `backend` what the AI call would produce.
   */
  function Step(t: Table, req: Request, today: Day, backend: BackendOutcome): (r: Turn)
    ensures |r.sent| <= 1
    ensures r.sent != [] ==> req.Post? && req.chatId == Some(r.sent[0].chat)
    ensures Bounded(t) ==> Bounded(r.table)
    ensures forall c, d :: Used(r.table, c, d) != Used(t, c, d) ==>
      RouteOf(req).AiRoute? && RouteOf(req).chat == c && d == today &&
      Used(r.table, c, d) == Used(t, c, d) + 1
    ensures r.response == StatusPage <==> !req.Post?
    ensures r.response == Rejected ==> r.sent == []
  {
    match RouteOf(req)
    case StatusRoute => Turn(t, [], StatusPage)
    case Ignored => Turn(t, [], Ack)
    case CommandRoute(chat, command) =>
      Turn(t, [Outbound(chat, Text(CommandReply(command, Used(t, chat, today))))], Ack)
    case AiRoute(chat, _) =>
      if !CanConsume(t, chat, today) then
        Turn(t, [Outbound(chat, Text(LimitReached))], Ack)
      else
        var t' := Consumed(t, chat, today);
        match AiResult(backend)
        case None => Turn(t', [], Rejected)
        case Some(reply) => Turn(t', [Outbound(chat, Text(reply))], Ack)
  }

  /** The worker: the process-wide `userUsage` table and the messages sent so far. */
  class Worker {
    var userUsage: Table
    var outbox: seq<Outbound>

    /** A freshly started worker has an empty table and has sent nothing. */
    constructor ()
      ensures userUsage == map[] && outbox == []
    {
      userUsage := map[];
      outbox := [];
    }

    /** `sendMessage`: one call of the send-message endpoint. */
    method SendMessage(chat: ChatId, text: string)
      modifies this
      ensures outbox == old(outbox) + [Outbound(chat, text)]
      ensures userUsage == old(userUsage)
    {
      outbox := outbox + [Outbound(chat, text)];
    }

    /**
     `handleCommand`: sends exactly one reply chosen by exact match on the
     command, reading (never writing) the usage table for `/usage`.
     */
    method HandleCommand(chat: ChatId, command: string, today: Day) returns (response: WorkerResponse)
      modifies this
      ensures userUsage == old(userUsage)
      ensures outbox == old(outbox) + [Outbound(chat, Text(CommandReply(command, Used(userUsage, chat, today))))]
      ensures response == Ack
    {
      var used := Used(userUsage, chat, today);
      SendMessage(chat, Text(CommandReply(command, used)));
      response := Ack;
    }

    /**
     The quota gate of an AI turn: lazily creates the (chat, day) entry, then
     either refuses at the limit or counts the turn.
     */
    method TryConsume(chat: ChatId, day: Day) returns (granted: bool)
      modifies this
      ensures granted == CanConsume(old(userUsage), chat, day)
      ensures userUsage == Consumed(old(userUsage), chat, day)
      ensures outbox == old(outbox)
    {
      ghost var before := userUsage;
      ghost var days := if chat in before then before[chat] else map[];
      if chat !in userUsage {
        userUsage := userUsage[chat := map[]];
      }
      if day !in userUsage[chat] || userUsage[chat][day] == 0 {
        userUsage := userUsage[chat := userUsage[chat][day := 0]];
      }
      assert userUsage[chat][day] == Used(before, chat, day);

      if userUsage[chat][day] >= DAILY_LIMIT {
        assert userUsage == before;
        return false;
      }

      assert userUsage[chat][day := Used(before, chat, day) + 1] == days[day := Used(before, chat, day) + 1];
      userUsage := userUsage[chat := userUsage[chat][day := userUsage[chat][day] + 1]];
      return true;
    }

    /**
     `handleRequest`: routes one request; an AI turn lazily creates the
     (chat, today) entry, refuses at the limit, and otherwise counts the turn
     before calling the backend, with no refund whatever the backend does.
     */
    method HandleRequest(request: Request, today: Day, backend: BackendOutcome)
      returns (response: WorkerResponse)
      modifies this
      ensures userUsage == Step(old(userUsage), request, today, backend).table
      ensures outbox == old(outbox) + Step(old(userUsage), request, today, backend).sent
      ensures response == Step(old(userUsage), request, today, backend).response
    {
      if !request.Post? {
        return StatusPage;
      }
      var chatId := request.chatId;
      var text := TrimmedText(request.text);
      if !Truthy(chatId) || text == "" {
        return Ack;
      }
      var chat := chatId.value;
      if text[0] == '/' {
        response := HandleCommand(chat, text, today);
        return;
      }

      var granted := TryConsume(chat, today);
      if !granted {
        SendMessage(chat, Text(LimitReached));
        return Ack;
      }

      var aiResponse := AiResult(backend);
      if aiResponse.None? {
        return Rejected;
      }
      SendMessage(chat, Text(aiResponse.value));
      return Ack;
    }
  }
}
