/**
 What the handler promises, stated over `Step` (one turn) and `Run` (turns
 handled one after another by one worker process).
 */
module BotProperties {
  import opened Wrappers
  import opened JsText
  import opened Quota
  import opened Replies
  import opened Bot

  /** A request malformed for the handler: no truthy chat id, or blank text. */
  lemma MalformedIsSilent(t: Table, chatId: Option<ChatId>, text: Option<string>,
                          today: Day, backend: BackendOutcome)
    requires !Truthy(chatId) || text == None || AllWhiteSpace(text.value)
    ensures Step(t, Post(chatId, text), today, backend) == Turn(t, [], Ack)
  {
  }

  /**
   A command turn sends exactly the dispatcher's reply to the sender and
   leaves every count as it was, whatever the backend would have done.
   */
  lemma CommandsNeverConsume(t: Table, req: Request, today: Day, backend: BackendOutcome)
    requires RouteOf(req).CommandRoute?
    ensures var chat := RouteOf(req).chat;
      Step(t, req, today, backend) ==
      Turn(t, [Outbound(chat, Text(CommandReply(RouteOf(req).command, Used(t, chat, today))))], Ack)
  {
  }

  /** A command turn from a message text, stated on the text before trimming. */
  lemma CommandTurn(t: Table, chat: ChatId, text: string, today: Day, backend: BackendOutcome)
    requires chat != 0 && Trim(text) != "" && Trim(text)[0] == '/'
    ensures Step(t, Post(Some(chat), Some(text)), today, backend) ==
      Turn(t, [Outbound(chat, Text(CommandReply(Trim(text), Used(t, chat, today))))], Ack)
  {
    CommandsNeverConsume(t, Post(Some(chat), Some(text)), today, backend);
  }

  /**
   Commands match exactly, after trimming: `/start` between blanks is still
   `/start`.
   */
  lemma PaddedStartIsStart(t: Table, chat: ChatId, today: Day, backend: BackendOutcome)
    requires chat != 0
    ensures Step(t, Post(Some(chat), Some(" /start\n")), today, backend).sent == [Outbound(chat, Text(Welcome))]
  {
    assert " /start\n" == " " + "/start" + "\n";
    TrimStrips(" ", "/start", "\n");
    CommandTurn(t, chat, " /start\n", today, backend);
  }

  /** A command followed by an argument is an unknown command. */
  lemma CommandWithArgumentIsUnknown(t: Table, chat: ChatId, today: Day, backend: BackendOutcome)
    requires chat != 0
    ensures Step(t, Post(Some(chat), Some("/start x")), today, backend).sent == [Outbound(chat, Text(UnknownCommand))]
  {
    assert "/start x" == "" + "/start x" + "";
    TrimStrips("", "/start x", "");
    CommandTurn(t, chat, "/start x", today, backend);
    assert |"/start x"| == 8;
  }

  /** Command matching is case-sensitive: `/START` is an unknown command. */
  lemma CommandMatchIsCaseSensitive(t: Table, chat: ChatId, today: Day, backend: BackendOutcome)
    requires chat != 0
    ensures Step(t, Post(Some(chat), Some("/START")), today, backend).sent == [Outbound(chat, Text(UnknownCommand))]
  {
    assert "/START" == "" + "/START" + "";
    TrimStrips("", "/START", "");
    CommandTurn(t, chat, "/START", today, backend);
    UpperCaseStartIsUnknown(Used(t, chat, today));
  }

  /** `/usage` reports the stored count (0 when there is none) and creates no entry. */
  lemma UsageCommandReads(t: Table, chat: ChatId, today: Day, backend: BackendOutcome)
    requires chat != 0
    ensures Step(t, Post(Some(chat), Some("/usage")), today, backend) ==
      Turn(t, [Outbound(chat, "You have used " + Decimal(Used(t, chat, today)) + "/15 responses today.")], Ack)
  {
    assert "/usage" == "" + "/usage" + "";
    TrimStrips("", "/usage", "");
    CommandTurn(t, chat, "/usage", today, backend);
    UsageReportText(Used(t, chat, today));
  }

  /** At the limit an AI turn is refused with the fixed message and changes nothing. */
  lemma LimitReachedRefuses(t: Table, req: Request, today: Day, backend: BackendOutcome)
    requires RouteOf(req).AiRoute?
    requires Used(t, RouteOf(req).chat, today) >= DAILY_LIMIT
    ensures Step(t, req, today, backend) ==
      Turn(t, [Outbound(RouteOf(req).chat, Text(LimitReached))], Ack)
  {
  }

  /**
   Under the limit an AI turn counts exactly one against (chat, today), and
   the new table is the same whatever the backend does: no refund.
   */
  lemma UnderLimitConsumesOne(t: Table, req: Request, today: Day, b1: BackendOutcome, b2: BackendOutcome)
    requires RouteOf(req).AiRoute?
    requires Used(t, RouteOf(req).chat, today) < DAILY_LIMIT
    ensures Used(Step(t, req, today, b1).table, RouteOf(req).chat, today) == Used(t, RouteOf(req).chat, today) + 1
    ensures Step(t, req, today, b1).table == Step(t, req, today, b2).table
  {
  }

  /** A granted AI turn relays the backend's answer, or its fixed fallbacks. */
  lemma GrantedTurnRelaysBackend(t: Table, req: Request, today: Day, backend: BackendOutcome)
    requires RouteOf(req).AiRoute?
    requires Used(t, RouteOf(req).chat, today) < DAILY_LIMIT
    ensures var turn := Step(t, req, today, backend);
      match AiResult(backend)
      case None => turn.sent == [] && turn.response == Rejected
      case Some(reply) => turn.sent == [Outbound(RouteOf(req).chat, Text(reply))] && turn.response == Ack
  {
  }

  /** One inbound request with the clock reading and backend outcome it meets. */
  datatype Event = Event(request: Request, today: Day, backend: BackendOutcome)

  /** The table and the messages after handling `events` in order, from table `t`. */
  datatype History = History(table: Table, sent: seq<Outbound>)

  function Run(t: Table, events: seq<Event>): History
    decreases events
  {
    if events == [] then History(t, [])
    else
      var turn := Step(t, events[0].request, events[0].today, events[0].backend);
      var rest := Run(turn.table, events[1..]);
      History(rest.table, turn.sent + rest.sent)
  }

  /** Every stored count stays within 0..DAILY_LIMIT however many turns are handled. */
  lemma {:induction false} RunKeepsBounded(t: Table, events: seq<Event>)
    requires Bounded(t)
    ensures Bounded(Run(t, events).table)
    decreases events
  {
    if events != [] {
      var turn := Step(t, events[0].request, events[0].today, events[0].backend);
      RunKeepsBounded(turn.table, events[1..]);
    }
  }

  /** The empty table a worker starts with satisfies the bound, so every reachable table does. */
  lemma ReachableTablesBounded(events: seq<Event>)
    ensures forall c, d :: c in Run(map[], events).table && d in Run(map[], events).table[c] ==>
      Run(map[], events).table[c][d] <= DAILY_LIMIT
  {
    RunKeepsBounded(map[], events);
  }

  /** Each turn sends at most one message. */
  lemma {:induction false} RunSendsAtMostOnePerTurn(t: Table, events: seq<Event>)
    ensures |Run(t, events).sent| <= |events|
    decreases events
  {
    if events != [] {
      var turn := Step(t, events[0].request, events[0].today, events[0].backend);
      RunSendsAtMostOnePerTurn(turn.table, events[1..]);
    }
  }

  /** `e` is an AI turn from `chat` handled on `day`. */
  predicate AiTurnOf(e: Event, chat: ChatId, day: Day)
  {
    RouteOf(e.request).AiRoute? && RouteOf(e.request).chat == chat && e.today == day
  }

  function Min(a: int, b: int): int
  {
    if a <= b then a else b
  }

  /**
   After n AI turns from one chat on one day, that chat's count is its old
   count plus n, capped at the limit: k turns from 0 with k <= DAILY_LIMIT
   leave k, and every turn after the limit is refused without counting.
   */
  lemma {:induction false} AiTurnsSaturate(t: Table, events: seq<Event>, chat: ChatId, day: Day)
    requires Used(t, chat, day) <= DAILY_LIMIT
    requires forall i :: 0 <= i < |events| ==> AiTurnOf(events[i], chat, day)
    ensures Used(Run(t, events).table, chat, day) == Min(Used(t, chat, day) + |events|, DAILY_LIMIT)
    decreases events
  {
    if events != [] {
      var e := events[0];
      assert AiTurnOf(e, chat, day);
      var turn := Step(t, e.request, e.today, e.backend);
      AiTurnsSaturate(turn.table, events[1..], chat, day);
    }
  }

  /**
   Turns that are not AI turns from `chat` on `day` leave that chat's count
   for that day unchanged, however many of them there are.
   */
  lemma {:induction false} OtherTurnsLeaveCount(t: Table, events: seq<Event>, chat: ChatId, day: Day)
    requires forall i :: 0 <= i < |events| ==> !AiTurnOf(events[i], chat, day)
    ensures Used(Run(t, events).table, chat, day) == Used(t, chat, day)
    decreases events
  {
    if events != [] {
      var e := events[0];
      assert !AiTurnOf(e, chat, day);
      var turn := Step(t, e.request, e.today, e.backend);
      OtherTurnsLeaveCount(turn.table, events[1..], chat, day);
    }
  }

  /**
   A worker that has handled three AI turns from chat 1 today answers
   `/usage` with "You have used 3/15 responses today.", whatever the backend did.
   */
  lemma ThreeTurnsThenUsage(today: Day, q: string, b1: BackendOutcome, b2: BackendOutcome,
                            b3: BackendOutcome, b4: BackendOutcome)
    requires Trim(q) == q && q != "" && q[0] != '/'
    ensures var ai := Post(Some(1), Some(q));
      var h := Run(map[], [Event(ai, today, b1), Event(ai, today, b2), Event(ai, today, b3)]);
      Step(h.table, Post(Some(1), Some("/usage")), today, b4).sent ==
      [Outbound(1, "You have used 3/15 responses today.")]
  {
    var ai := Post(Some(1), Some(q));
    assert RouteOf(ai) == AiRoute(1, q);
    var events := [Event(ai, today, b1), Event(ai, today, b2), Event(ai, today, b3)];
    assert forall i :: 0 <= i < |events| ==> events[i].request == ai && events[i].today == today;
    AiTurnsSaturate(map[], events, 1, today);
    var h := Run(map[], events);
    assert Used(h.table, 1, today) == 3;
    UsageCommandReads(h.table, 1, today, b4);
    UsageTextForThree();
  }

  /** The `/usage` text for a count of 3, kept apart so the literal is unfolded in a small context. */
  lemma UsageTextForThree()
    ensures "You have used " + Decimal(3) + "/15 responses today." == "You have used 3/15 responses today."
  {
    assert Decimal(3) == "3";
  }

  /**
   The sixteenth AI turn of a day, on a count of 15, gets the limit message
   and the count stays 15; an AI backend answering 500 still costs a turn.
   */
  lemma SixteenthTurnRefused(t: Table, req: Request, today: Day, backend: BackendOutcome)
    requires RouteOf(req).AiRoute?
    requires Used(t, RouteOf(req).chat, today) == 15
    ensures Step(t, req, today, backend).sent == [Outbound(RouteOf(req).chat, Text(LimitReached))]
    ensures Used(Step(t, req, today, backend).table, RouteOf(req).chat, today) == 15
  {
    LimitReachedRefuses(t, req, today, backend);
  }

  lemma FailingBackendStillCounts(t: Table, req: Request, today: Day, body: Body)
    requires RouteOf(req).AiRoute?
    requires Used(t, RouteOf(req).chat, today) < DAILY_LIMIT
    ensures var turn := Step(t, req, today, Response(false, body));
      turn.sent == [Outbound(RouteOf(req).chat, Text(ApiError))] &&
      Used(turn.table, RouteOf(req).chat, today) == Used(t, RouteOf(req).chat, today) + 1
  {
  }
}
