/** The per-user daily quota kept in `daily_limits[day][str(user_id)]`
    (bot.py:115-158, 452). */
module Quota {
  import opened Snapshot

  /** `DAILY_MESSAGE_LIMIT` (bot.py:24). */
  const DailyLimit := 10

  /** The counter of `user` on `day`; an absent day or user counts as 0
      (bot.py:126-130). */
  function CountOf(s: Snapshot, day: string, user: string): (c: int)
    ensures Invariant(s) ==> c >= 0
  {
    if s.dailyLimits.Some? && day in s.dailyLimits.value && user in s.dailyLimits.value[day]
    then s.dailyLimits.value[day][user]
    else 0
  }

  /** `check_daily_limit`'s verdict: admitted iff the counter is below the limit. */
  predicate Admits(s: Snapshot, day: string, user: string) {
    CountOf(s, day, user) < DailyLimit
  }

  /** `increment_daily_count` on a loaded snapshot (bot.py:146-155): creates the
      missing levels and adds one to this user's counter on this day. Every
      other counter and the identity records are left as they were. */
  function Increment(s: Snapshot, day: string, user: string): (r: Snapshot)
    ensures r.dailyLimits.Some? && day in r.dailyLimits.value && user in r.dailyLimits.value[day]
    ensures CountOf(r, day, user) == CountOf(s, day, user) + 1
    ensures forall d, u :: d != day || u != user ==> CountOf(r, d, u) == CountOf(s, d, u)
    ensures s.dailyLimits.Some? ==> r.dailyLimits.value.Keys == s.dailyLimits.value.Keys + {day}
    ensures s.dailyLimits.None? ==> r.dailyLimits.value.Keys == {day}
    ensures r.userInfo == s.userInfo
    ensures Invariant(s) ==> Invariant(r)
  {
    var limits := if s.dailyLimits.Some? then s.dailyLimits.value else map[];
    var perDay := if day in limits then limits[day] else map[];
    var count := if user in perDay then perDay[user] else 0;
    s.(dailyLimits := Some(limits[day := perDay[user := count + 1]]))
  }

  /** `n` successive increments of the same counter. */
  function IncrementTimes(s: Snapshot, day: string, user: string, n: nat): Snapshot {
    if n == 0 then s else Increment(IncrementTimes(s, day, user, n - 1), day, user)
  }

  /** After `n` increments the counter has grown by exactly `n` and nothing else
      has changed. */
  lemma {:induction false} CountAfterIncrements(s: Snapshot, day: string, user: string, n: nat)
    ensures CountOf(IncrementTimes(s, day, user, n), day, user) == CountOf(s, day, user) + n
    ensures forall d, u :: d != day || u != user ==>
              CountOf(IncrementTimes(s, day, user, n), d, u) == CountOf(s, d, u)
    ensures IncrementTimes(s, day, user, n).userInfo == s.userInfo
  {
    if n > 0 {
      CountAfterIncrements(s, day, user, n - 1);
    }
  }

  /** Starting with no entry for the user that day, after `n` increments the
      check reports `n` and admits iff `n` is below the limit. */
  lemma AdmitsAfterIncrements(s: Snapshot, day: string, user: string, n: nat)
    requires CountOf(s, day, user) == 0
    ensures CountOf(IncrementTimes(s, day, user, n), day, user) == n
    ensures Admits(IncrementTimes(s, day, user, n), day, user) <==> n < DailyLimit
  {
    CountAfterIncrements(s, day, user, n);
  }

  /** `remaining = DAILY_MESSAGE_LIMIT - (current_count + 1)` (bot.py:452):
      non-negative exactly for admitted counts, and below the limit for any
      non-negative count. */
  function Remaining(currentCount: int): (r: int)
    ensures r >= 0 <==> currentCount < DailyLimit
    ensures currentCount >= 0 ==> r < DailyLimit
  {
    DailyLimit - (currentCount + 1)
  }
}
