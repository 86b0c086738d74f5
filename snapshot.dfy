/** The persisted snapshot (`bot_data.json`): per-day message counters and the
    identity records behind the reveal buttons. */
module Snapshot {
  import opened Strings

  datatype Option<T> = None | Some(value: T)

  /** Python truthiness of an optional string field: `None` and `""` are false. */
  predicate Truthy(s: Option<string>) {
    s.Some? && s.value != ""
  }

  /** A send timestamp as the bot prints it (`str(date.timestamp())`); the model
      treats it as an opaque string. */
  type Timestamp = string

  /** The identity record written on the text path (bot.py:270-277). */
  datatype IdentityRecord = IdentityRecord(
    userId: int,
    firstName: string,
    lastName: Option<string>,
    username: Option<string>,
    messageText: string,
    timestamp: Timestamp)

  /** The reference key `f"{user_id}_{timestamp}"`: it starts with the
      `"{user_id}_"` prefix the reveal lookup scans for and ends with the
      timestamp. */
  function RefKey(userId: string, timestamp: Timestamp): (k: string)
    ensures StartsWith(k, userId + "_")
    ensures EndsWith(k, "_" + timestamp)
  {
    userId + "_" + timestamp
  }

  /** The key a record is stored under. */
  function RecordKey(r: IdentityRecord): string {
    RefKey(IntToString(r.userId), r.timestamp)
  }

  /** A Python dict with string keys: a map plus the insertion order of its keys. */
  datatype OrderedDict<V> = OrderedDict(keys: seq<string>, values: map<string, V>) {

    /** Keys are distinct and are exactly the keys of the map. */
    ghost predicate Valid() {
      && (forall i, j :: 0 <= i < j < |keys| ==> keys[i] != keys[j])
      && (forall k :: k in values <==> k in keys)
    }

    /** `d[k] = v`: an existing key keeps its position, a new one goes last. */
    function Put(k: string, v: V): (d: OrderedDict<V>)
      requires Valid()
      ensures d.Valid()
      ensures d.values == values[k := v]
      ensures k in values ==> d.keys == keys
      ensures k !in values ==> d.keys == keys + [k]
    {
      if k in values then OrderedDict(keys, values[k := v])
      else OrderedDict(keys + [k], values[k := v])
    }
  }

  function EmptyDict<V>(): (d: OrderedDict<V>)
    ensures d.Valid() && d.values == map[]
  {
    OrderedDict([], map[])
  }

  /** `daily_limits[day][str(user_id)]`. */
  type DailyLimits = map<string, map<string, int>>

  /** The whole JSON document. A top-level key the bot has never written is
      absent (`None`), which is not the same as present and empty. */
  datatype Snapshot = Snapshot(dailyLimits: Option<DailyLimits>, userInfo: Option<OrderedDict<IdentityRecord>>)

  /** `{}`: what a missing or unreadable file loads as. */
  const Empty := Snapshot(None, None)

  /** What any parsed JSON object gives: `user_info`, when present, is a dict. */
  ghost predicate WellFormed(s: Snapshot) {
    s.userInfo.Some? ==> s.userInfo.value.Valid()
  }

  /** Every stored record sits under its own reference key, and its timestamp
      contains no `_` (true of every `str(float)`). */
  ghost predicate LedgerInvariant(d: OrderedDict<IdentityRecord>) {
    && d.Valid()
    && (forall k :: k in d.values ==> k == RecordKey(d.values[k]) && '_' !in d.values[k].timestamp)
  }

  /** What the bot's own writes keep true of the file: no negative counter and
      well-keyed identity records. */
  ghost predicate Invariant(s: Snapshot) {
    && (s.dailyLimits.Some? ==>
          forall day, user :: day in s.dailyLimits.value && user in s.dailyLimits.value[day] ==>
            s.dailyLimits.value[day][user] >= 0)
    && (s.userInfo.Some? ==> LedgerInvariant(s.userInfo.value))
  }
}
