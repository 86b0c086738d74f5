# Anonymous relay bot: quota, identity ledger and reveal button

This project models the state-handling core of `MessageForwarderBot`, a
Telegram bot that relays users' text messages anonymously into one group.
Each forwarded message carries an "identify sender" button. The core has four
parts:

- **Daily quota.** `check_daily_limit` reads `daily_limits[day][str(user_id)]`,
  where a missing entry counts as 0, and admits iff the count is below
  `DAILY_MESSAGE_LIMIT = 10`. It writes nothing back. `increment_daily_count`
  creates the missing levels, adds one, and saves.
- **Identity recording.** On the text path the bot builds a record of the
  sender. It stores the record in `user_info` under the key
  `"{user_id}_{timestamp}"`.
- **Reveal button.** The token `info_{user_id}_{timestamp}` is parsed with
  `startswith("info_")` and `split("_")`. The record is then looked up by
  scanning the `user_info` keys in insertion order for the first key that
  starts with `"{user_id}_"`.
- **Messages.** The sender summary posted on reveal, and the remaining-quota
  figure `10 - (count + 1)` sent back to the sender.

The persisted file `bot_data.json` is the only state that outlives a handler.
It is the field `stored` of the class `Bot.MessageForwarderBot`. Each handler
loads its own copy (`LoadData`), changes that copy step by step, and writes it
back (`SaveData`), as the Python code does. The Python dict is an ordered map.
`user_info` is therefore an `OrderedDict`: a key sequence in insertion order
plus a map. The outside world enters as parameters:

- whether each file read or write succeeds;
- the day `date.today()` returns at each call;
- whether the send to Telegram succeeds;
- how a timestamp is formatted.

A failed read yields `{}`. A failed write leaves the file unchanged; this covers a failure at `open` only (see "## Left out").

Each operation is tied to a specification function:

- `ForwardToGroup` is tied to `Relay`;
- `ButtonCallback` to `Reveal`;
- `CheckDailyLimit` to `CountOf`;
- `IncrementDailyCount` to `Increment`;
- `RecordText` to `RecordIdentity`.

The lemmas state the properties of those functions.

Three behaviours of the code are easy to misread, and the model follows the
code in each:

- The counter is incremented *before* the message is sent (bot.py:255 and
  bot.py:284). A failed send therefore still spends quota, while no identity
  record is written.
- The lookup is prefix-only in insertion order. It never tries the exact key
  first and never picks the most recent timestamp.
- The code has no retention sweeper at all.

Modules: `Strings` (Python `startswith`, `split`, `str(int)`), `Snapshot`
(records, ordered dict, file contents), `Quota`, `Ledger` (token, lookup,
summary) and `Bot` (the class and the relay and reveal specifications).

## Model

| member | source | states |
|---|---|---|
| `Strings.Split` | bot.py:167 | `split("_")` never returns an empty list, no piece contains `_`, and joining the pieces with `_` gives back the input |
| `Strings.SplitThree` | bot.py:167-171 | a string `a_b_c` whose pieces contain no `_` splits into exactly `[a, b, c]` |
| `Strings.StartsWith` | bot.py:180 | `s.startswith(p)` holds exactly when `s` is `p` followed by the rest of `s` |
| `Strings.IntToString` | bot.py:130 | `str(user_id)` is non-empty, contains no `_`, and starts with `-` exactly for negative ids |
| `Strings.IntToStringInjective` | bot.py:152-155 | distinct user ids give distinct `str(user_id)` keys, so each counter belongs to one user |
| `Strings.PiecePrefixDetermined` | bot.py:180 | when neither `a` nor `b` contains `_`, `a_…` can start with `b_` only if `a == b`: the prefix test cannot match another user's id |
| `Snapshot.RefKey` | bot.py:294 | the key `f"{user_id}_{timestamp}"` starts with the `"{user_id}_"` prefix the reveal scan looks for, and ends with `_` and the timestamp |
| `Snapshot.OrderedDict.Put` | bot.py:295 | `d[k] = v` keeps the dict valid, maps `k` to `v`, keeps every other entry, leaves the key order alone for an existing key and appends a new key last |
| `Quota.CountOf` | bot.py:126-130 | the `.get(str(user_id), 0)` lookup; in a file that satisfies the invariant the count is never negative |
| `Quota.Increment` | bot.py:146-155 | the user's counter for the day becomes its previous value (or 0) plus one; every other day and user, and `user_info`, are unchanged; non-negative counts stay non-negative |
| `Quota.CountAfterIncrements` | bot.py:152-155 | `n` increments raise the counter by exactly `n` and change no other counter and no identity record |
| `Quota.AdmitsAfterIncrements` | bot.py:130-136 | starting from no entry, after `n` increments the check reports `n` and admits iff `n < 10` |
| `Quota.Remaining` | bot.py:452 | `10 - (count + 1)` is non-negative exactly when the count was admitted, and below 10 for any non-negative count |
| `Ledger.Token` | bot.py:280 | the callback data starts with `info_` and is `info_` followed by the reference key of the message |
| `Ledger.ParseToken` | bot.py:166-171 | a token yields a reference iff it starts with `info_` and splits into at least three pieces; otherwise there is no reply; the parsed pieces contain no `_` |
| `Ledger.TokenRoundTrip` | bot.py:280 | parsing `info_{id}_{ts}` with `ts` free of `_` gives back `str(id)` and `ts`, so the key rebuilt from the pieces is the key the record was stored under |
| `Ledger.ParseThenFormat` | bot.py:166-171 | a token that parses into exactly three pieces is the token built from the parsed id and timestamp |
| `Ledger.FirstWithPrefix` | bot.py:177-182 | the scan finds nothing iff no key has the prefix; otherwise it returns the key at the first index that has the prefix |
| `Ledger.FindKeyByPrefix` | bot.py:177-182 | the `for`/`break` loop over the keys returns exactly the first key, in insertion order, that starts with the prefix |
| `Ledger.FirstWithPrefixAppend` | bot.py:179-182 | appending a key changes the scan's answer only when no earlier key matched |
| `Ledger.AsWrittenRevealsOwnRecordIff` | bot.py:177-182 | after a fresh record is stored, the scan returns its key iff the ledger held no earlier key of the same user |
| `Ledger.AsWrittenRevealsEarlierRecord` | bot.py:176-190 | user 5 sends at `1.0` and at `2.0`; the button of the second message finds key `5_1.0`, whose record is not the second message's |
| `Ledger.Resolve` | bot.py:176-182 | corrected lookup: the exact key whenever it is stored, otherwise the first key, in insertion order, with the user's prefix (the result of the scan as written); finds nothing iff no key has that prefix; any key found is stored and has that prefix |
| `Ledger.ResolveAfterRecord` | bot.py:171-182 | after `user_info[key] = rec`, resolving the parsed token of that message returns `key`, whose record is `rec` |
| `Ledger.FoundRecordBelongsToUser` | bot.py:180 | in a well-keyed ledger, a key found for user `u`'s prefix holds a record whose `user_id` is `u` |
| `Ledger.SenderLine` | bot.py:193-197 | the line starts with `👤 От: ` plus the first name; ` last_name` follows only when truthy; it ends with ` (@username)` when that is truthy; and its length leaves room for nothing else |
| `Ledger.BuildSenderInfo` | bot.py:193-205 | the successive `+=` give the sender line, then the message line, then the time line; the result starts with the first name and ends with the formatted time |
| `Bot.BuildRecord` | bot.py:270-277 | the `user_data` record carries the sender's id, the text and the timestamp, so its reference key is the key `f"{user.id}_{timestamp}"` it is stored under |
| `Bot.RecordIdentity` | bot.py:291-296 | `user_info` is created if absent, `user_info[key]` is the record, every other key keeps its value, the existing keys keep their order and a new key goes last, and `daily_limits` is unchanged |
| `Bot.Relay` | bot.py:228-298 | the request is refused as unconfigured iff the target is empty or the placeholder, with no change to the file; a refusal over the limit changes nothing and reports the count; the group receives only the text and the token; when the file satisfies the invariant (no negative counter, every record under its own key, every stored timestamp free of `_`), a sent message reports between 0 and 9 left; that invariant is kept when the timestamp has no `_` |
| `Bot.Reveal` | bot.py:160-218 | no reply iff the token does not parse; a summary is posted iff some stored key starts with the token's `{id}_`; otherwise "not found" names the rebuilt key |
| `Bot.SendFailureSpendsQuota` | bot.py:250-296 | with working storage, a failed send after admission still advances the counter by one and leaves `user_info` as it was |
| `Bot.ForwardRecordsIdentity` | bot.py:250-296 | a successful send advances the counter, stores the record under its key, and reports `10 - (count + 1)` |
| `Bot.QuotaRun` | bot.py:240-256 | `n` messages of one user, starting from count `c` with `c + n <= 10`, are all forwarded, the `i`-th reporting `10 - (c + i + 1)` left, and the counter ends at `c + n` |
| `Bot.LimitReachedLeavesFile` | bot.py:240-248 | a user at or over the limit is refused with that count, and the file is untouched |
| `Bot.TenThenRefused` | bot.py:115-158 | from no entry, ten messages are forwarded with 9 … 0 left; the eleventh is refused with count 10 and changes nothing |
| `Bot.RelayKeepsWithinLimit` | bot.py:240-256 | if the check and the increment both read the file on the same day, no counter ever exceeds 10 |
| `Bot.UnreadableCheckOverrunsLimit` | bot.py:97-136 | if the check's read fails, it sees `{}` and admits a user at 10, whose counter then becomes 11 |
| `Bot.UnreadableIncrementWipesFile` | bot.py:97-158 | if the increment's read fails, its write succeeds and the send fails, the file becomes a single counter of 1; every other counter and every identity record is lost |
| `Bot.RevealAfterForward` | bot.py:160-218 | after a forward, the token parses, the corrected lookup finds exactly the new record, and the lookup as written reveals a record of the same user |
| `Bot.RevealShowsOwnRecordIff` | bot.py:177-182 | the lookup as written reveals the forwarded message's own record iff the file held no earlier key of that user |
| `Bot.MessageForwarderBot.LoadData` | bot.py:97-105 | returns the file, or `{}` when the read fails |
| `Bot.MessageForwarderBot.SaveData` | bot.py:107-113 | overwrites the file with the snapshot when the write succeeds; otherwise it leaves the file unchanged |
| `Bot.MessageForwarderBot.CheckDailyLimit` | bot.py:115-136 | returns the loaded count (0 when absent) and admits iff it is below 10; it has no `modifies` clause, so the file cannot change |
| `Bot.MessageForwarderBot.IncrementDailyCount` | bot.py:138-158 | the file becomes the loaded snapshot with this user's counter for today incremented, if the write succeeds |
| `Bot.MessageForwarderBot.RecordText` | bot.py:291-296 | the file becomes the loaded snapshot with the record stored under its key, if the write succeeds |
| `Bot.MessageForwarderBot.ForwardToGroup` | bot.py:228-298 | the outcome and the new file are those of `Relay`: target check, quota check, increment, send, record, then `remaining` (bot.py:451-474) |
| `Bot.MessageForwarderBot.ButtonCallback` | bot.py:160-218 | the reply is that of `Reveal` on the loaded file: parse, prefix scan with `break`, summary or "not found" |

## Left out

- Telegram SDK calls are not modelled. This covers `Application` wiring, the async handlers, `query.answer()`, `run_polling`, `start_command`, logging and `main` (bot.py:30-95, 476-496). Only the send's success or failure enters, as `Env.sendOk`.
- The wording of the replies to the sender is not modelled (bot.py:231-234, 243-247, 453-474). `Outcome` carries only what they report.
- A failure of the confirmation reply itself is not modelled. It is caught after the file is already written.
- The media branch (bot.py:300-449) is not modelled. It stores its records in the in-memory `context.bot_data`, never in the file. `button_callback` reads only the file, so a media message's own record is never found. A photo still carries the button `info_{id}_{ts}` (bot.py:313-323). When its sender has an earlier text record in the file, pressing that button posts the sender's name together with that other message's text and time. That branch also has misplaced indentation around `send_photo`.
- `ForwardToGroup` models only the text branch. The text handler's filter guarantees a non-empty text.
- JSON encoding and decoding are not modelled. The file is a typed `Snapshot`. A file of the wrong shape (a non-dict, a non-integer count) would raise outside the `try` in `check_daily_limit`; that is not modelled.
- The calendar and float timestamps are not modelled. The day is an opaque string per `date.today()` call. The timestamp is the opaque string `str(date.timestamp())`. The time formatting is a function parameter.
- Concurrent handlers and lost updates between separate load/modify/save cycles are not modelled. The model is sequential.
- The retention sweeper is not modelled: the code has none, and `load_data` only reads the file.
- `Bot.MessageForwarderBot.SaveData`: a write that fails inside `json.dump` is not modelled. The file has already been truncated by `open(DATA_FILE, 'w')` (bot.py:110-111), so the source leaves it empty or partly written, and the next `load_data` reads `{}`. The model's failed write keeps the old contents, which covers only a failure at `open`.
- config.py is not part of this model. It only loads environment variables and raises at startup without a token.
- `Bot.Reveal`: its contract pins down when a summary is posted, but not the summary text. That text is stated in `Bot.RevealAfterForward` and `Ledger.BuildSenderInfo`.

## Findings

| source | as written | input that shows it | evidently intended | confidence | as-written member | corrected member |
|---|---|---|---|---|---|---|
| bot.py:177-182 | the reveal lookup returns the first stored key starting with `"{user_id}_"`; the exact key rebuilt at bot.py:171 is never tried | user 5 sends "first" at timestamp 1.0, then "second" at 2.0; pressing the button under "second" (`info_5_2.0`) finds key `5_1.0` and shows the text and time of "first" | use the exact key when it is stored; the prefix scan is only a fallback for timestamp drift (the comment at bot.py:176) | not executed; high, the lemma exhibits the input | `Ledger.AsWrittenRevealsEarlierRecord` | `Ledger.ResolveAfterRecord` |

`Bot.ButtonCallback` and `Bot.Reveal` keep the lookup as written. The
corrected `Ledger.Resolve` is the lookup used by the round-trip statements
`Ledger.ResolveAfterRecord` and `Bot.RevealAfterForward`.
