/** `MessageForwarderBot` (bot.py:29-474): the text relay with its quota check,
    counter increment and identity recording, and the reveal-button callback.
    The only state that outlives a handler is the JSON file, held here in the
    field `stored`; every handler loads its own copy, changes it and writes it
    back. File errors, the clock, the send to Telegram and the time formatting
    are inputs. */
module Bot {
  import opened Strings
  import opened Snapshot
  import opened Quota
  import opened Ledger

  /** The placeholder value of an unconfigured `TARGET_GROUP_ID` (bot.py:230). */
  const Placeholder := "YOUR_GROUP_ID_HERE"

  datatype User = User(id: int, firstName: string, lastName: Option<string>, username: Option<string>)

  /** An incoming text message: its sender, its text and `str(date.timestamp())`. */
  datatype TextMessage = TextMessage(from: User, text: string, timestamp: Timestamp)

  /** What one text message meets outside the program: the day `date.today()`
      returns in the check and in the increment, whether each of the three
      file reads and two file writes succeeds, and whether the send succeeds. */
  datatype Env = Env(
    checkDay: string, checkRead: bool,
    incDay: string, incRead: bool, incWrite: bool,
    sendOk: bool,
    recordRead: bool, recordWrite: bool)

  /** Every file operation succeeds and the day does not change in between. */
  predicate ReliableStorage(env: Env) {
    env.checkRead && env.incRead && env.incWrite && env.recordRead && env.recordWrite && env.checkDay == env.incDay
  }

  /** The message posted into the group: the text alone plus the reveal token. */
  datatype Outbound = Outbound(chatId: string, text: string, token: string)

  /** How `forward_to_group` ends, as the sender sees it. */
  datatype Outcome =
    | NotConfigured                               // bot.py:230-235
    | LimitReached(count: int)                    // bot.py:242-248
    | SendFailed                                  // bot.py:466-474
    | Forwarded(sent: Outbound, remaining: int)   // bot.py:284-288, 451-457

  /** What `button_callback` posts into the group. */
  datatype RevealReply =
    | NoReply                                              // bot.py:166-168
    | Revealed(text: string)                               // bot.py:189-212
    | NotFound(attemptedKey: string, availableKeys: seq<string>)   // bot.py:213-218

  /** `load_data` (bot.py:97-105): the file, or `{}` when it is missing or
      cannot be read or parsed. */
  function Loaded(file: Snapshot, readable: bool): Snapshot {
    if readable then file else Empty
  }

  /** `save_data` (bot.py:107-113): overwrites the file, or silently leaves it. */
  function Saved(file: Snapshot, data: Snapshot, writable: bool): Snapshot {
    if writable then data else file
  }

  /** The `user_data` record of bot.py:270-277. */
  function BuildRecord(m: TextMessage): (r: IdentityRecord)
    ensures RecordKey(r) == RefKey(IntToString(m.from.id), m.timestamp)
    ensures r.userId == m.from.id && r.messageText == m.text && r.timestamp == m.timestamp
  {
    IdentityRecord(m.from.id, m.from.firstName, m.from.lastName, m.from.username, m.text, m.timestamp)
  }

  /** The insert of bot.py:292-295: `user_info` is created when absent and the
      record is stored under its reference key; the counters, and every other
      record, are untouched. */
  function RecordIdentity(s: Snapshot, rec: IdentityRecord): (r: Snapshot)
    requires WellFormed(s)
    ensures WellFormed(r)
    ensures r.dailyLimits == s.dailyLimits
    ensures r.userInfo.Some? && RecordKey(rec) in r.userInfo.value.values
    ensures r.userInfo.value.values[RecordKey(rec)] == rec
    ensures forall k :: k != RecordKey(rec) ==>
              (k in r.userInfo.value.values <==> s.userInfo.Some? && k in s.userInfo.value.values)
    ensures forall k :: k != RecordKey(rec) && s.userInfo.Some? && k in s.userInfo.value.values ==>
              r.userInfo.value.values[k] == s.userInfo.value.values[k]
    ensures r.userInfo.value.keys ==
              (if s.userInfo.Some? then s.userInfo.value.keys else []) +
              (if s.userInfo.Some? && RecordKey(rec) in s.userInfo.value.values then [] else [RecordKey(rec)])
    ensures Invariant(s) && '_' !in rec.timestamp ==> Invariant(r)
  {
    var info := if s.userInfo.Some? then s.userInfo.value else EmptyDict();
    s.(userInfo := Some(info.Put(RecordKey(rec), rec)))
  }

  /** The specification of `forward_to_group` on the text path: the new
      contents of the file and what the sender is told, for one message. */
  function Relay(file: Snapshot, target: string, m: TextMessage, env: Env): (r: (Outcome, Snapshot))
    requires WellFormed(file)
    ensures WellFormed(r.1)
    ensures r.0.NotConfigured? <==> target == "" || target == Placeholder
    ensures r.0.NotConfigured? || r.0.LimitReached? ==> r.1 == file
    ensures r.0.LimitReached? ==>
              r.0.count == CountOf(Loaded(file, env.checkRead), env.checkDay, IntToString(m.from.id)) >= DailyLimit
    ensures r.0.Forwarded? ==> r.0.sent == Outbound(target, m.text, Token(IntToString(m.from.id), m.timestamp))
    ensures r.0.Forwarded? || r.0.SendFailed? ==> env.sendOk == r.0.Forwarded?
    ensures Invariant(file) && '_' !in m.timestamp ==> Invariant(r.1)
    ensures Invariant(file) && r.0.Forwarded? ==> 0 <= r.0.remaining < DailyLimit
  {
    var user := IntToString(m.from.id);
    if target == "" || target == Placeholder then (NotConfigured, file)
    else
      var count := CountOf(Loaded(file, env.checkRead), env.checkDay, user);
      if count >= DailyLimit then (LimitReached(count), file)
      else
        var afterIncrement := Saved(file, Increment(Loaded(file, env.incRead), env.incDay, user), env.incWrite);
        if !env.sendOk then (SendFailed, afterIncrement)
        else
          var afterRecord := Saved(afterIncrement, RecordIdentity(Loaded(afterIncrement, env.recordRead), BuildRecord(m)), env.recordWrite);
          (Forwarded(Outbound(target, m.text, Token(user, m.timestamp)), Remaining(count)), afterRecord)
  }

  /** A sequence of text messages handled one after another. */
  function RelayAll(file: Snapshot, target: string, ms: seq<TextMessage>, env: Env): (r: (seq<Outcome>, Snapshot))
    requires WellFormed(file)
    ensures |r.0| == |ms| && WellFormed(r.1)
    decreases |ms|
  {
    if ms == [] then ([], file)
    else
      var first := Relay(file, target, ms[0], env);
      var rest := RelayAll(first.1, target, ms[1..], env);
      ([first.0] + rest.0, rest.1)
  }

  /** The specification of `button_callback`, lookup as written: the first key
      with the token's user prefix is revealed (bot.py:166-218). */
  function Reveal(s: Snapshot, data: string, formatTime: Timestamp -> string): (reply: RevealReply)
    requires WellFormed(s)
    ensures reply.NoReply? <==> ParseToken(data).None?
    ensures reply.NotFound? ==> reply.attemptedKey == RefKey(ParseToken(data).value.userId, ParseToken(data).value.timestamp)
    ensures reply.Revealed? <==>
              && ParseToken(data).Some?
              && s.userInfo.Some?
              && exists i :: 0 <= i < |s.userInfo.value.keys| &&
                             StartsWith(s.userInfo.value.keys[i], ParseToken(data).value.userId + "_")
  {
    match ParseToken(data)
    case None => NoReply
    case Some(ref) =>
      var found := if s.userInfo.Some? then FirstWithPrefix(s.userInfo.value.keys, ref.userId + "_") else None;
      if found.Some? then
        var rec := s.userInfo.value.values[found.value];
        Revealed(SenderInfo(rec, formatTime(rec.timestamp)))
      else
        NotFound(RefKey(ref.userId, ref.timestamp), if s.userInfo.Some? then s.userInfo.value.keys else [])
  }

  /** A send that fails after admission still leaves the counter advanced,
      and no identity record is written (bot.py:255, 284, 466-474). */
  lemma SendFailureSpendsQuota(file: Snapshot, target: string, m: TextMessage, env: Env)
    requires WellFormed(file) && target != "" && target != Placeholder
    requires ReliableStorage(env) && !env.sendOk
    requires Admits(file, env.checkDay, IntToString(m.from.id))
    ensures Relay(file, target, m, env) == (SendFailed, Increment(file, env.incDay, IntToString(m.from.id)))
    ensures CountOf(Relay(file, target, m, env).1, env.checkDay, IntToString(m.from.id))
            == CountOf(file, env.checkDay, IntToString(m.from.id)) + 1
    ensures Relay(file, target, m, env).1.userInfo == file.userInfo
  {
  }

  /** An admitted message that is sent advances the counter, stores the
      identity record, and tells the sender `limit - (count + 1)`. */
  lemma ForwardRecordsIdentity(file: Snapshot, target: string, m: TextMessage, env: Env)
    requires WellFormed(file) && target != "" && target != Placeholder
    requires ReliableStorage(env) && env.sendOk
    requires Admits(file, env.checkDay, IntToString(m.from.id))
    ensures
      var user := IntToString(m.from.id);
      var r := Relay(file, target, m, env);
      && r.0 == Forwarded(Outbound(target, m.text, Token(user, m.timestamp)), Remaining(CountOf(file, env.checkDay, user)))
      && r.1 == RecordIdentity(Increment(file, env.incDay, user), BuildRecord(m))
      && CountOf(r.1, env.checkDay, user) == CountOf(file, env.checkDay, user) + 1
      && r.1.userInfo.value.values[RecordKey(BuildRecord(m))] == BuildRecord(m)
  {
  }

  /** With reliable storage, `n` messages of one user that start from a
      counter `c` with `c + n` within the limit are all forwarded, the `i`-th
      reporting `limit - (c + i + 1)` messages left, and the counter ends at
      `c + n`. */
  lemma {:induction false} QuotaRun(file: Snapshot, target: string, ms: seq<TextMessage>, env: Env, userId: int)
    requires WellFormed(file) && target != "" && target != Placeholder
    requires ReliableStorage(env) && env.sendOk
    requires forall i :: 0 <= i < |ms| ==> ms[i].from.id == userId
    requires CountOf(file, env.checkDay, IntToString(userId)) + |ms| <= DailyLimit
    ensures
      var r := RelayAll(file, target, ms, env);
      && CountOf(r.1, env.checkDay, IntToString(userId)) == CountOf(file, env.checkDay, IntToString(userId)) + |ms|
      && forall i :: 0 <= i < |ms| ==>
           r.0[i].Forwarded? && r.0[i].remaining == DailyLimit - (CountOf(file, env.checkDay, IntToString(userId)) + i + 1)
    decreases |ms|
  {
    if ms != [] {
      var c := CountOf(file, env.checkDay, IntToString(userId));
      var first := Relay(file, target, ms[0], env);
      assert first.0.Forwarded? && first.0.remaining == DailyLimit - (c + 1)
             && CountOf(first.1, env.checkDay, IntToString(userId)) == c + 1 by {
        ForwardRecordsIdentity(file, target, ms[0], env);
      }
      QuotaRun(first.1, target, ms[1..], env, userId);
      var rest := RelayAll(first.1, target, ms[1..], env);
      var all := RelayAll(file, target, ms, env);
      assert all == ([first.0] + rest.0, rest.1);
      forall i | 0 <= i < |ms|
        ensures all.0[i].Forwarded? && all.0[i].remaining == DailyLimit - (c + i + 1)
      {
        if i > 0 {
          assert all.0[i] == rest.0[i - 1];
        }
      }
    }
  }

  /** A user whose counter has reached the limit is refused, with the count
      reported, and the file is not touched (bot.py:133-134, 242-248). */
  lemma LimitReachedLeavesFile(file: Snapshot, target: string, m: TextMessage, env: Env)
    requires WellFormed(file) && target != "" && target != Placeholder && env.checkRead
    requires !Admits(file, env.checkDay, IntToString(m.from.id))
    ensures Relay(file, target, m, env) == (LimitReached(CountOf(file, env.checkDay, IntToString(m.from.id))), file)
  {
  }

  /** Ten messages on a day with no entry yet are forwarded with 9, 8, ..., 0
      left; the eleventh is refused with "10 of 10" and changes nothing. */
  lemma TenThenRefused(file: Snapshot, target: string, ms: seq<TextMessage>, extra: TextMessage, env: Env, userId: int)
    requires WellFormed(file) && target != "" && target != Placeholder
    requires ReliableStorage(env) && env.sendOk
    requires |ms| == DailyLimit && forall i :: 0 <= i < |ms| ==> ms[i].from.id == userId
    requires extra.from.id == userId
    requires CountOf(file, env.checkDay, IntToString(userId)) == 0
    ensures
      var r := RelayAll(file, target, ms, env);
      && (forall i :: 0 <= i < |ms| ==> r.0[i].Forwarded? && r.0[i].remaining == DailyLimit - 1 - i)
      && Relay(r.1, target, extra, env) == (LimitReached(DailyLimit), r.1)
  {
    QuotaRun(file, target, ms, env, userId);
    var r := RelayAll(file, target, ms, env);
    assert CountOf(r.1, env.checkDay, IntToString(extra.from.id)) == DailyLimit;
    LimitReachedLeavesFile(r.1, target, extra, env);
  }

  /** Counts of the bot's own making never pass the limit, as long as the
      check and the increment read the file and see the same day. */
  ghost predicate WithinLimit(s: Snapshot) {
    forall day, user :: CountOf(s, day, user) <= DailyLimit
  }

  lemma RelayKeepsWithinLimit(file: Snapshot, target: string, m: TextMessage, env: Env)
    requires WellFormed(file) && WithinLimit(file)
    requires env.checkRead && env.incRead && env.checkDay == env.incDay
    ensures WithinLimit(Relay(file, target, m, env).1)
  {
    var user := IntToString(m.from.id);
    var r := Relay(file, target, m, env);
    if r.0.Forwarded? || r.0.SendFailed? {
      var inc := Increment(file, env.incDay, user);
      forall day, u
        ensures CountOf(r.1, day, u) <= DailyLimit
      {
        if env.sendOk && env.recordWrite {
          var loadedInc := Loaded(Saved(file, inc, env.incWrite), env.recordRead);
          assert CountOf(r.1, day, u) == CountOf(loadedInc, day, u);
        }
      }
    }
  }

  /** The fail-soft load defeats the quota: when the check cannot read the
      file it sees `{}` and admits a user who has already sent ten messages,
      whose counter then reaches eleven. */
  lemma UnreadableCheckOverrunsLimit(file: Snapshot, target: string, m: TextMessage, env: Env)
    requires WellFormed(file) && target != "" && target != Placeholder
    requires !env.checkRead && env.incRead && env.incWrite && env.recordRead && env.checkDay == env.incDay
    requires CountOf(file, env.checkDay, IntToString(m.from.id)) == DailyLimit
    ensures !Relay(file, target, m, env).0.LimitReached?
    ensures CountOf(Relay(file, target, m, env).1, env.checkDay, IntToString(m.from.id)) == DailyLimit + 1
  {
  }

  /** An unreadable file during the increment, followed by a good write,
      replaces the whole file by a single counter: every other counter and
      every identity record is lost (bot.py:97-105, 143-158). */
  lemma UnreadableIncrementWipesFile(file: Snapshot, target: string, m: TextMessage, env: Env)
    requires WellFormed(file) && target != "" && target != Placeholder
    requires Admits(Loaded(file, env.checkRead), env.checkDay, IntToString(m.from.id))
    requires !env.incRead && env.incWrite && !env.sendOk
    ensures Relay(file, target, m, env) == (SendFailed, Snapshot(Some(map[env.incDay := map[IntToString(m.from.id) := 1]]), None))
  {
  }

  /** End to end: after a message is forwarded, its reveal token parses back to
      the stored key, the corrected lookup finds exactly this record, and the
      lookup as written reveals some record of the same user, which is this
      one iff the file held no earlier record of that user. */
  lemma RevealAfterForward(file: Snapshot, target: string, m: TextMessage, env: Env, formatTime: Timestamp -> string)
    requires Invariant(file) && target != "" && target != Placeholder
    requires ReliableStorage(env) && env.sendOk && '_' !in m.timestamp
    requires Admits(file, env.checkDay, IntToString(m.from.id))
    ensures
      var rec := BuildRecord(m);
      var r := Relay(file, target, m, env);
      var ref := ParseToken(r.0.sent.token);
      var info := r.1.userInfo.value;
      && r.0.Forwarded? && ref.Some?
      && Resolve(info, ref.value) == Some(RecordKey(rec)) && info.values[RecordKey(rec)] == rec
      && Reveal(r.1, r.0.sent.token, formatTime).Revealed?
      && (exists k :: k in info.values && info.values[k].userId == m.from.id &&
            Reveal(r.1, r.0.sent.token, formatTime) == Revealed(SenderInfo(info.values[k], formatTime(info.values[k].timestamp))))
  {
    var rec := BuildRecord(m);
    var user := IntToString(m.from.id);
    ForwardRecordsIdentity(file, target, m, env);
    var r := Relay(file, target, m, env);
    var before := Increment(file, env.incDay, user);
    var d := if before.userInfo.Some? then before.userInfo.value else EmptyDict();
    assert r.1.userInfo.value == d.Put(RecordKey(rec), rec);
    ResolveAfterRecord(d, rec);
    TokenRoundTrip(m.from.id, m.timestamp);
    var info := r.1.userInfo.value;
    var ref := TokenRef(user, m.timestamp);
    assert Invariant(r.1);
    var found := FirstWithPrefix(info.keys, user + "_");
    assert found.Some?;
    FoundRecordBelongsToUser(info, m.from.id, found.value);
  }

  /** The reveal as written shows the forwarded message's own record iff the
      file held no earlier key of that user (bot.py:177-182). */
  lemma RevealShowsOwnRecordIff(file: Snapshot, target: string, m: TextMessage, env: Env, formatTime: Timestamp -> string)
    requires Invariant(file) && target != "" && target != Placeholder
    requires ReliableStorage(env) && env.sendOk && '_' !in m.timestamp
    requires Admits(file, env.checkDay, IntToString(m.from.id))
    requires file.userInfo.Some? ==> RecordKey(BuildRecord(m)) !in file.userInfo.value.values
    ensures
      var r := Relay(file, target, m, env);
      FirstWithPrefix(r.1.userInfo.value.keys, IntToString(m.from.id) + "_") == Some(RecordKey(BuildRecord(m)))
      <==> (file.userInfo.Some? ==>
              forall i :: 0 <= i < |file.userInfo.value.keys| ==> !StartsWith(file.userInfo.value.keys[i], IntToString(m.from.id) + "_"))
  {
    var rec := BuildRecord(m);
    ForwardRecordsIdentity(file, target, m, env);
    var before := Increment(file, env.incDay, IntToString(m.from.id));
    var d := if before.userInfo.Some? then before.userInfo.value else EmptyDict();
    AsWrittenRevealsOwnRecordIff(d, rec);
  }

  class MessageForwarderBot {
    /** The contents of `bot_data.json`. */
    var stored: Snapshot

    ghost predicate Valid()
      reads this
    {
      WellFormed(stored)
    }

    constructor (initial: Snapshot)
      requires WellFormed(initial)
      ensures Valid() && stored == initial
    {
      stored := initial;
    }

    method LoadData(readable: bool) returns (data: Snapshot)
      requires Valid()
      ensures data == Loaded(stored, readable) && WellFormed(data)
    {
      if readable {
        data := stored;
      } else {
        data := Empty;
      }
    }

    method SaveData(data: Snapshot, writable: bool)
      requires Valid() && WellFormed(data)
      modifies this
      ensures Valid() && stored == Saved(old(stored), data, writable)
    {
      if writable {
        stored := data;
      }
    }

    /** `check_daily_limit` (bot.py:115-136): reads the counter, admits iff it
      is below the limit, and writes nothing back. */
    method CheckDailyLimit(userId: int, today: string, readable: bool) returns (allowed: bool, count: int)
      requires Valid()
      ensures count == CountOf(Loaded(stored, readable), today, IntToString(userId))
      ensures allowed <==> count < DailyLimit
    {
      var data := LoadData(readable);
      if data.dailyLimits.None? {
        data := data.(dailyLimits := Some(map[]));
      }
      if today !in data.dailyLimits.value {
        data := data.(dailyLimits := Some(data.dailyLimits.value[today := map[]]));
      }
      var perDay := data.dailyLimits.value[today];
      count := if IntToString(userId) in perDay then perDay[IntToString(userId)] else 0;
      if count >= DailyLimit {
        return false, count;
      }
      return true, count;
    }

    /** `increment_daily_count` (bot.py:138-158). */
    method IncrementDailyCount(userId: int, today: string, readable: bool, writable: bool)
      requires Valid()
      modifies this
      ensures Valid()
      ensures stored == Saved(old(stored), Increment(Loaded(old(stored), readable), today, IntToString(userId)), writable)
    {
      var data := LoadData(readable);
      ghost var loaded := data;
      var user := IntToString(userId);
      if data.dailyLimits.None? {
        data := data.(dailyLimits := Some(map[]));
      }
      if today !in data.dailyLimits.value {
        data := data.(dailyLimits := Some(data.dailyLimits.value[today := map[]]));
      }
      if user !in data.dailyLimits.value[today] {
        data := data.(dailyLimits := Some(data.dailyLimits.value[today := data.dailyLimits.value[today][user := 0]]));
      }
      var perDay := data.dailyLimits.value[today];
      data := data.(dailyLimits := Some(data.dailyLimits.value[today := perDay[user := perDay[user] + 1]]));
      assert data == Increment(loaded, today, user) by {
        var limits := if loaded.dailyLimits.Some? then loaded.dailyLimits.value else map[];
        var before := if today in limits then limits[today] else map[];
        var count := if user in before then before[user] else 0;
        assert perDay[user] == count;
        assert perDay[user := count + 1] == before[user := count + 1] by {
          assert perDay.Keys + {user} == before.Keys + {user};
        }
        assert data.dailyLimits.value == limits[today := before[user := count + 1]];
        assert data.userInfo == loaded.userInfo;
      }
      SaveData(data, writable);
    }

    /** The text-path record write (bot.py:291-296). */
    method RecordText(rec: IdentityRecord, readable: bool, writable: bool)
      requires Valid()
      modifies this
      ensures Valid()
      ensures stored == Saved(old(stored), RecordIdentity(Loaded(old(stored), readable), rec), writable)
    {
      var data := LoadData(readable);
      if data.userInfo.None? {
        data := data.(userInfo := Some(EmptyDict()));
      }
      var key := RecordKey(rec);
      data := data.(userInfo := Some(data.userInfo.value.Put(key, rec)));
      SaveData(data, writable);
    }

    /** `forward_to_group` for a text message (bot.py:228-298, 451-474). The
        counter is advanced before the send, so a failed send still spends
        quota but records no identity. */
    method ForwardToGroup(target: string, m: TextMessage, env: Env) returns (outcome: Outcome)
      requires Valid()
      modifies this
      ensures Valid()
      ensures (outcome, stored) == Relay(old(stored), target, m, env)
    {
      if target == "" || target == Placeholder {
        return NotConfigured;
      }
      var allowed, count := CheckDailyLimit(m.from.id, env.checkDay, env.checkRead);
      if !allowed {
        return LimitReached(count);
      }
      IncrementDailyCount(m.from.id, env.incDay, env.incRead, env.incWrite);
      var rec := BuildRecord(m);
      var token := Token(IntToString(m.from.id), m.timestamp);
      if !env.sendOk {
        return SendFailed;
      }
      RecordText(rec, env.recordRead, env.recordWrite);
      outcome := Forwarded(Outbound(target, m.text, token), Remaining(count));
    }

    /** `button_callback` (bot.py:160-218). */
    method ButtonCallback(data: string, readable: bool, formatTime: Timestamp -> string) returns (reply: RevealReply)
      requires Valid()
      ensures reply == Reveal(Loaded(stored, readable), data, formatTime)
    {
      reply := NoReply;
      if StartsWith(data, "info_") {
        var parts := Split(data, '_');
        if |parts| >= 3 {
          var userId, timestamp := parts[1], parts[2];
          var key := RefKey(userId, timestamp);
          var loaded := LoadData(readable);
          var foundKey: Option<string> := None;
          if loaded.userInfo.Some? {
            foundKey := FindKeyByPrefix(loaded.userInfo.value.keys, userId + "_");
          }
          if foundKey.Some? && foundKey.value != "" && loaded.userInfo.Some? && foundKey.value in loaded.userInfo.value.values {
            var rec := loaded.userInfo.value.values[foundKey.value];
            var text := BuildSenderInfo(rec, formatTime(rec.timestamp));
            reply := Revealed(text);
          } else {
            reply := NotFound(key, if loaded.userInfo.Some? then loaded.userInfo.value.keys else []);
          }
        }
      }
    }
  }
}
