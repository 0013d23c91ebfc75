/** The daily quota record `usageData[chatId] = { date, count }`. */
module Quota {
  import opened Wallets

  datatype Usage = Usage(date: string, count: int)

  /** The record in force for `chat` today: the stored one if it is dated today, otherwise a fresh
      `{ today, 0 }` (an absent record and a stale one are treated alike). */
  function Refresh(usage: map<ChatId, Usage>, chat: ChatId, today: string): (u: Usage)
    ensures u.date == today
    ensures chat in usage && usage[chat].date == today ==> u == usage[chat]
    ensures !(chat in usage && usage[chat].date == today) ==> u.count == 0
  {
    if chat in usage && usage[chat].date == today then usage[chat] else Usage(today, 0)
  }

  /** The gate of `main`: a batch of `count` may start only if it keeps today's count within `limit`. */
  predicate Admits(u: Usage, count: int, limit: int)
  {
    u.count + count <= limit
  }

  /** The gate resets every day: on a day with no record yet, or after a stale one, any batch up to
      the limit is admitted. */
  lemma NewDayAdmits(usage: map<ChatId, Usage>, chat: ChatId, today: string, count: int, limit: int)
    requires !(chat in usage && usage[chat].date == today)
    ensures Admits(Refresh(usage, chat, today), count, limit) <==> count <= limit
  {
  }

  /** A batch the gate admits leaves room for any smaller one, and a batch it refuses is refused at
      any lower limit. */
  lemma AdmitsMonotone(u: Usage, count: int, smaller: int, limit: int, lower: int)
    requires smaller <= count && lower <= limit
    ensures Admits(u, count, limit) ==> Admits(u, smaller, limit)
    ensures !Admits(u, count, limit) ==> !Admits(u, count, lower)
  {
  }
}
