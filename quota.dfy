/**
 The per-user, per-day quota table `userUsage`: chat id -> date string ->
 number of AI turns granted to that chat on that date.
 */
module Quota {

  /** The configured daily limit of AI turns per chat. */
  const DAILY_LIMIT: nat := 15

  /** A chat id as the messaging platform sends it. */
  type ChatId = int

  /** A calendar date in `YYYY-MM-DD` form, supplied by the caller. */
  type Day = string

  type Table = map<ChatId, map<Day, nat>>

  /**
   The count stored for (chat, day), or 0 when the table has no entry for it;
   reading never creates an entry.
   */
  function Used(t: Table, chat: ChatId, day: Day): (n: nat)
    ensures chat !in t || day !in t[chat] ==> n == 0
    ensures chat in t && day in t[chat] ==> n == t[chat][day]
    ensures Bounded(t) ==> n <= DAILY_LIMIT
  {
    if chat in t && day in t[chat] then t[chat][day] else 0
  }

  /** The invariant the handler keeps: no stored count exceeds the limit. */
  ghost predicate Bounded(t: Table)
  {
    forall chat, day :: chat in t && day in t[chat] ==> t[chat][day] <= DAILY_LIMIT
  }

  /** True when (chat, day) may still take an AI turn. */
  predicate CanConsume(t: Table, chat: ChatId, day: Day)
  {
    Used(t, chat, day) < DAILY_LIMIT
  }

  /**
   The table after an AI turn's check-then-increment: the (chat, day) entry is
   created when missing and goes up by exactly one when it was under the limit;
   at or over the limit nothing changes. No other entry is touched.
   */
  function Consumed(t: Table, chat: ChatId, day: Day): (r: Table)
    ensures CanConsume(t, chat, day) ==>
      chat in r && day in r[chat] && r[chat][day] == Used(t, chat, day) + 1
    ensures !CanConsume(t, chat, day) ==> r == t
    ensures r.Keys == t.Keys + {chat} || r == t
    ensures forall c :: c in t && c != chat ==> r[c] == t[c]
    ensures chat in t && chat in r ==>
      forall d :: d in t[chat] && d != day ==> d in r[chat] && r[chat][d] == t[chat][d]
    ensures chat in r ==> r[chat].Keys <= (if chat in t then t[chat].Keys else {}) + {day}
    ensures forall c, d :: (c != chat || d != day) ==> Used(r, c, d) == Used(t, c, d)
    ensures Bounded(t) ==> Bounded(r)
  {
    if CanConsume(t, chat, day) then
      var days := if chat in t then t[chat] else map[];
      t[chat := days[day := Used(t, chat, day) + 1]]
    else
      t
  }

  /**
   Reading (chat, day) back after an AI turn's check-then-increment gives
   the old count plus one below the limit, and the old count at or above it.
   */
  lemma UsedAfterConsumed(t: Table, chat: ChatId, day: Day)
    ensures Used(Consumed(t, chat, day), chat, day) ==
      if Used(t, chat, day) < DAILY_LIMIT then Used(t, chat, day) + 1 else Used(t, chat, day)
  {
  }
}
