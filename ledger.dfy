/** The reveal button: its callback token, the lookup of the identity record it
    points at, and the sender summary posted into the group (bot.py:160-218,
    280, 291-296). */
module Ledger {
  import opened Strings
  import opened Snapshot

  /** What a well-formed token names: the user id and timestamp pieces. */
  datatype TokenRef = TokenRef(userId: string, timestamp: Timestamp)

  /** `f"info_{user.id}_{timestamp}"` (bot.py:280): the `info_` tag, then the
      reference key of the message. */
  function Token(userId: string, timestamp: Timestamp): (t: string)
    ensures StartsWith(t, "info_")
    ensures t == "info_" + RefKey(userId, timestamp)
  {
    "info_" + userId + "_" + timestamp
  }

  /** The token parse of bot.py:166-171: the token must start with `info_` and
      split on `_` into at least three pieces; pieces 1 and 2 are the user id
      and the timestamp, and any further pieces are dropped. */
  function ParseToken(data: string): (r: Option<TokenRef>)
    ensures r.Some? <==> StartsWith(data, "info_") && |Split(data, '_')| >= 3
    ensures r.Some? ==> '_' !in r.value.userId && '_' !in r.value.timestamp
  {
    if StartsWith(data, "info_") then
      var parts := Split(data, '_');
      if |parts| >= 3 then Some(TokenRef(parts[1], parts[2])) else None
    else None
  }

  /** Parsing a token the text path built gives back the user id and the
      timestamp, so the reconstructed key is the key the record was stored
      under (bot.py:280, 166-171, 294). */
  lemma TokenRoundTrip(userId: int, timestamp: Timestamp)
    requires '_' !in timestamp
    ensures ParseToken(Token(IntToString(userId), timestamp)) == Some(TokenRef(IntToString(userId), timestamp))
  {
    var id := IntToString(userId);
    assert Token(id, timestamp) == "info" + ['_'] + id + ['_'] + timestamp;
    SplitThree("info", id, timestamp, '_');
    assert StartsWith(Token(id, timestamp), "info_");
  }

  /** Conversely, a token that parses into exactly three pieces is the token
      built from what it parsed to. */
  lemma ParseThenFormat(data: string)
    requires ParseToken(data).Some? && |Split(data, '_')| == 3
    ensures Token(ParseToken(data).value.userId, ParseToken(data).value.timestamp) == data
  {
    var parts := Split(data, '_');
    assert data == parts[0] + ['_'] + (parts[1] + ['_'] + parts[2]) by {
      assert parts[1..][1..] == [parts[2]];
      assert Join(parts[1..], '_') == parts[1] + ['_'] + parts[2];
      assert Join(parts, '_') == parts[0] + ['_'] + Join(parts[1..], '_');
    }
    PiecePrefixDetermined(parts[0], parts[1] + ['_'] + parts[2], "info", '_');
  }

  /** The first key, in insertion order, that starts with `prefix`. */
  function FirstWithPrefix(keys: seq<string>, prefix: string): (r: Option<string>)
    ensures r.None? <==> forall i :: 0 <= i < |keys| ==> !StartsWith(keys[i], prefix)
    ensures r.Some? ==> exists i :: 0 <= i < |keys| && keys[i] == r.value && StartsWith(keys[i], prefix) &&
                                    forall j :: 0 <= j < i ==> !StartsWith(keys[j], prefix)
  {
    if keys == [] then None
    else if StartsWith(keys[0], prefix) then Some(keys[0])
    else
      var r := FirstWithPrefix(keys[1..], prefix);
      assert forall i :: 1 <= i < |keys| ==> keys[i] == keys[1..][i - 1];
      r
  }

  /** The loop of bot.py:177-182: scan the stored keys in insertion order and
      stop at the first one that starts with `prefix`. */
  method FindKeyByPrefix(keys: seq<string>, prefix: string) returns (found: Option<string>)
    ensures found == FirstWithPrefix(keys, prefix)
  {
    found := None;
    var i := 0;
    while i < |keys|
      invariant 0 <= i <= |keys|
      invariant forall j :: 0 <= j < i ==> !StartsWith(keys[j], prefix)
      invariant FirstWithPrefix(keys, prefix) == FirstWithPrefix(keys[i..], prefix)
      invariant found == None
    {
      if StartsWith(keys[i], prefix) {
        found := Some(keys[i]);
        break;
      }
      assert keys[i..][1..] == keys[i + 1..];
      i := i + 1;
    }
  }

  /** Appending a fresh key changes the scan's answer only when no earlier key
      matched. */
  lemma {:induction false} FirstWithPrefixAppend(keys: seq<string>, k: string, prefix: string)
    ensures FirstWithPrefix(keys + [k], prefix) ==
              if FirstWithPrefix(keys, prefix).Some? then FirstWithPrefix(keys, prefix)
              else if StartsWith(k, prefix) then Some(k) else None
  {
    if keys != [] {
      assert (keys + [k])[1..] == keys[1..] + [k];
      FirstWithPrefixAppend(keys[1..], k, prefix);
    }
  }

  /** The lookup as written reveals a freshly recorded message iff the ledger
      held no earlier key of the same user: every later message of a user
      reveals that user's first stored record instead. */
  lemma AsWrittenRevealsOwnRecordIff(d: OrderedDict<IdentityRecord>, rec: IdentityRecord)
    requires d.Valid() && RecordKey(rec) !in d.values
    ensures FirstWithPrefix(d.Put(RecordKey(rec), rec).keys, IntToString(rec.userId) + "_") == Some(RecordKey(rec))
            <==> forall i :: 0 <= i < |d.keys| ==> !StartsWith(d.keys[i], IntToString(rec.userId) + "_")
  {
    var id := IntToString(rec.userId);
    FirstWithPrefixAppend(d.keys, RecordKey(rec), id + "_");
    assert RecordKey(rec)[..|id + "_"|] == id + "_";
    if FirstWithPrefix(d.keys, id + "_").Some? {
      assert FirstWithPrefix(d.keys, id + "_").value in d.values;
    }
  }

  /** A concrete instance: user 5 sends "first" at 1.0 and then "second" at
      2.0; the button under "second" finds the record of "first". */
  lemma AsWrittenRevealsEarlierRecord()
    ensures
      var first := IdentityRecord(5, "Ann", None, None, "first", "1.0");
      var second := IdentityRecord(5, "Ann", None, None, "second", "2.0");
      var d := EmptyDict<IdentityRecord>().Put(RecordKey(first), first).Put(RecordKey(second), second);
      var ref := ParseToken(Token(IntToString(5), "2.0"));
      && ref == Some(TokenRef("5", "2.0"))
      && FirstWithPrefix(d.keys, ref.value.userId + "_") == Some("5_1.0")
      && d.values["5_1.0"] == first != second
  {
    assert IntToString(5) == "5";
    TokenRoundTrip(5, "2.0");
    var first := IdentityRecord(5, "Ann", None, None, "first", "1.0");
    var second := IdentityRecord(5, "Ann", None, None, "second", "2.0");
    assert RecordKey(first) == "5_1.0" && RecordKey(second) == "5_2.0";
    var d := EmptyDict<IdentityRecord>().Put(RecordKey(first), first).Put(RecordKey(second), second);
    assert d.keys == ["5_1.0", "5_2.0"];
    assert StartsWith("5_1.0", "5_");
  }

  /** The lookup the comment at bot.py:176 intends: the exact key when it is
      stored, and only otherwise the first key with the user's prefix. */
  function Resolve(d: OrderedDict<IdentityRecord>, ref: TokenRef): (r: Option<string>)
    requires d.Valid()
    ensures r.Some? ==> r.value in d.values && StartsWith(r.value, ref.userId + "_")
    ensures RefKey(ref.userId, ref.timestamp) in d.values ==> r == Some(RefKey(ref.userId, ref.timestamp))
    ensures RefKey(ref.userId, ref.timestamp) !in d.values ==> r == FirstWithPrefix(d.keys, ref.userId + "_")
    ensures r.None? <==> forall i :: 0 <= i < |d.keys| ==> !StartsWith(d.keys[i], ref.userId + "_")
  {
    var key := RefKey(ref.userId, ref.timestamp);
    assert StartsWith(key, ref.userId + "_") by {
      assert key[..|ref.userId + "_"|] == ref.userId + "_";
    }
    if key in d.values then
      assert exists i :: 0 <= i < |d.keys| && d.keys[i] == key;
      Some(key)
    else FirstWithPrefix(d.keys, ref.userId + "_")
  }

  /** Recording then revealing gives back the recorded identity, whatever else
      the ledger holds. */
  lemma ResolveAfterRecord(d: OrderedDict<IdentityRecord>, rec: IdentityRecord)
    requires d.Valid() && '_' !in rec.timestamp
    ensures
      var d' := d.Put(RecordKey(rec), rec);
      var ref := ParseToken(Token(IntToString(rec.userId), rec.timestamp));
      && ref.Some?
      && Resolve(d', ref.value) == Some(RecordKey(rec))
      && d'.values[RecordKey(rec)] == rec
  {
    TokenRoundTrip(rec.userId, rec.timestamp);
  }

  /** In a well-keyed ledger a key found for user `u`'s prefix belongs to a
      record of user `u`: a reveal never names another user. */
  lemma FoundRecordBelongsToUser(d: OrderedDict<IdentityRecord>, userId: int, k: string)
    requires LedgerInvariant(d)
    requires k in d.values && StartsWith(k, IntToString(userId) + "_")
    ensures d.values[k].userId == userId
  {
    var rec := d.values[k];
    assert k == IntToString(rec.userId) + ['_'] + rec.timestamp;
    PiecePrefixDetermined(IntToString(rec.userId), rec.timestamp, IntToString(userId), '_');
    IntToStringInjective(rec.userId, userId);
  }

  const SenderPrefix := "👤 От: "
  const MessageLabel := "\n💬 Сообщение: "
  const TimeLabel := "\n🕐 Время: "

  /** The sender line: the first name, then ` last_name` when the last name is
      truthy, then ` (@username)` when the username is truthy (bot.py:193-197).
      The four clauses below determine the line completely. */
  function SenderLine(firstName: string, lastName: Option<string>, username: Option<string>): (line: string)
    ensures StartsWith(line, SenderPrefix + firstName)
    ensures Truthy(lastName) ==> StartsWith(line[|SenderPrefix + firstName|..], " " + lastName.value)
    ensures Truthy(username) ==> EndsWith(line, " (@" + username.value + ")")
    ensures |line| == |SenderPrefix + firstName|
                      + (if Truthy(lastName) then 1 + |lastName.value| else 0)
                      + (if Truthy(username) then 4 + |username.value| else 0)
  {
    var head := SenderPrefix + firstName;
    var withLast := if Truthy(lastName) then head + " " + lastName.value else head;
    var line := if Truthy(username) then withLast + " (@" + username.value + ")" else withLast;
    assert line[..|head|] == head;
    assert Truthy(lastName) ==> line[|head|..][..|" " + lastName.value|] == " " + lastName.value;
    line
  }

  /** The whole reveal summary: the sender line, the message text and the
      formatted send time (bot.py:193-205). */
  function SenderInfo(rec: IdentityRecord, timeText: string): string {
    SenderLine(rec.firstName, rec.lastName, rec.username) + MessageLabel + rec.messageText + TimeLabel + timeText
  }

  /** The summary built by successive appends, as bot.py:193-205 does. */
  method BuildSenderInfo(rec: IdentityRecord, timeText: string) returns (info: string)
    ensures info == SenderInfo(rec, timeText)
    ensures StartsWith(info, SenderPrefix + rec.firstName)
    ensures EndsWith(info, TimeLabel + timeText)
  {
    info := SenderPrefix + rec.firstName;
    if Truthy(rec.lastName) {
      info := info + " " + rec.lastName.value;
    }
    if Truthy(rec.username) {
      info := info + " (@" + rec.username.value + ")";
    }
    info := info + MessageLabel + rec.messageText;
    info := info + TimeLabel + timeText;
    ghost var line := SenderLine(rec.firstName, rec.lastName, rec.username);
    assert info[..|SenderPrefix + rec.firstName|] == line[..|SenderPrefix + rec.firstName|];
  }
}
