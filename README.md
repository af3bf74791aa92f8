# Coronaampel-Bot: warning ledger, notification backlog and subscriptions

Coronaampel-Bot follows the Austrian "Corona-Ampel" alert levels. A data builder reads the
official feed. It keeps a per-region ledger of alert levels in SQLite, and every real change of
a region's level appends a row to a table of pending updates. A Telegram bot then drains that
backlog and tells each subscriber whether the level of their region rose or fell. It also lets
users subscribe and unsubscribe through commands and inline keyboard buttons. The repository
holds two generations of this code: the package under `telegram_bot/` and the older top-level
scripts.

This model keeps the six tables as one in-memory database. `Tables.DbState` is its value and
`Tables.Database` is the class whose fields the operations update. Each query the source sends
through `execute_query` becomes an operation on those fields. The ledger step (`Tables.Record`)
is shared by both data builders. The class invariant `Tables.Consistent` holds that per region
the revisions run 1..n, two consecutive entries differ in level, every pending region has at
least two entries, no subscription row repeats and every subscriber is a known user. Every
state-changing method both keeps this invariant and equals a specification function of the old
state. The lemmas prove what the source promises about those functions: the ingestion round
trips, idempotence, the meaning of the return flag, the message chosen for a change, and the
buttons and callbacks used to subscribe.

Files:
- `common.dfy`: `Option`, `Result`, `NoDup`.
- `text.dfy`: the Python string built-ins the core uses (`split`, `join`, `replace`, `strip`,
  `str(int)`), and the way SQLite reads a spliced id.
- `tables.dfy`: the tables, the database class, the ledger step, region registration.
- `ingestion.dfy`: `insert_regions` and `insert_warnings` of `telegram_bot/data_builder.py`.
- `legacy_ingestion.dfy`: `insert_regions` and `insert_warnings` of `data_builder.py`.
- `bot_utils.dfy`: `region_cmd_buttons` and `simple_js_parser`.
- `bot_dispatch.dfy`: `pull_updates`.
- `bot_commands.dfy`: `get_username`, `cmd_subscribe`, `cmd_unsubscribe`, `command_handler` of
  the newer bot.
- `legacy_bot.dfy`: `command_handler`, `subscribe_to_region`, `unsubscribe_from_regions` of
  `telegram_bot.py`.

Modelling assumptions, for the queries whose text is not part of this model:
- `GET_UPDATED_REGIONS` returns the pending rows in insertion order, duplicates included.
- `MARK_UPDATE_AS_READ` deletes every pending row of the region.
- The newer data builder's `CHECK_WARNING` (telegram_bot/data_builder.py:149-153) returns
  the region's entries newest first, as the comment at telegram_bot/data_builder.py:149-150
  says. `Tables.Record` therefore compares the reading with the newest entry. The older
  `CHECK_WARNING` does the same with its `ORDER BY revision DESC` (constants.py:36-39).
- `GET_REGIONUPDATES` returns the region's entries newest first in the same way. So
  `state_result[0]` is the newest entry and `state_result[1]` the one before it. Column 0 of
  its rows is the region's name from the region table: `region_name = state_result[0][0]`
  (telegram_bot/telegram_bot.py:499) is modelled as `st.regions[r].name`.
- `LOOKUP_REGION_SUBSCRIPTIONS` returns the subscribers in subscription row order.
- `REGIONS_QUERY` returns the user's subscribed regions that have a region row, in
  subscription order. The newer code reads its rows as (name, id); the older code reads them
  as (id, name).
- `SEARCH_REGIONS` is a parameter `search` that yields (name, id) rows.
- Region ids from callback data are spliced into the SQL unquoted. The bot writes them
  itself as `str(id)`, a string of decimal digits. The model reads exactly such a string as
  the number it spells (`Text.ParseDecimal`) and treats any other text as a failed query,
  which `execute_query` turns into None. This is a modelling choice: SQLite would accept
  some other spliced texts, such as `-3` or `1 OR 1=1`, and run the query.
- `CMD_SUB_PREFIX`, `CMD_UNSUB_PREFIX` and `CMD_PREFIX_CANCEL` are parameters
  (`BotCommands.Prefixes`).
- `ALERT_COLORS` and `ALERT_URL` are parameter maps. `pull_updates` requires the levels it
  reads to be in them.

Where the code says something other than its comments or a reading of the design, the model
follows the code:
- A region's first sighting stores revision 1 and enqueues nothing, in both data builders.
  Only a change of level enqueues.
- The newer data builder always stores the reason "Null".
- In `region_cmd_buttons` the format keywords are swapped: `name=str(item[1])`,
  `id=str(item[0])`. With `item[0]` being the name, the callback is `prefix_id_name`.
- The newer `command_handler` replies with `command[2]`, which is only the part of the
  region's name before its first "_".
- The newer `insert_regions` skips all work when the row count equals the feed's region
  count. `Ingestion.RegionsAfterCountShortcut` shows that this can hide a new region.
- `ADD_UPDATE` (constants.py:44-46) adds a pending row on every change of level, even while
  the region is already pending, and the `updates` table has no unique `region_id`
  (constants.py:89-94). `pull_updates` fetches `GET_UPDATED_REGIONS` once and serves every
  fetched row (telegram_bot/telegram_bot.py:471-474), so a region pending k times has each
  of its subscribers messaged k times in one run (`BotDispatch.FanoutRepeated`). A design
  with at most one pending row per region, where enqueuing a pending region does nothing,
  does not match this code.
- In `pull_updates` no `try`/`except` surrounds `send_message`
  (telegram_bot/telegram_bot.py:517-524). One failing send, say to a user who blocked the
  bot, ends the run there. That region's `MARK_UPDATE_AS_READ` (527-530) and all later
  pending rows are skipped, and the next run messages the users already served again. A
  design that swallows a failed send and still marks the region read does not match this
  code. The model keeps neither behaviour: a send is an append to the returned log and cannot
  fail (see "## Left out").

## Model

| member | source | states |
|---|---|---|
| Text.IndexOf | telegram_bot/utils.py:108 | the first position where the separator occurs; None exactly when it occurs nowhere |
| Text.Split | telegram_bot/telegram_bot.py:372 | `str.split`: at least one part; joining the parts with the separator gives back the string; no part contains the separator; the first part ends at the first occurrence, and without one the string is its only part |
| Text.Join | telegram_bot/telegram_bot.py:256 | `sep.join(parts)`: the parts with the separator between each two; the inverse of `Split` (see `Text.Split`) |
| Text.SplitSingle | telegram_bot/utils.py:108-111 | the split has a single part exactly when the separator does not occur |
| Text.ReplaceIsJoinOfSplit | telegram_bot/utils.py:108 | `replace(p, r)` equals splitting on `p` and joining with `r` |
| Text.Replace | telegram_bot/utils.py:108 | `str.replace(pat, rep)`: every non-overlapping occurrence, found left to right, replaced (its meaning is stated by `Text.ReplaceIsJoinOfSplit`) |
| Text.StripLeft | telegram_bot/utils.py:100 | the result is a suffix; everything removed is in the strip set; the result does not start with a member of it |
| Text.StripRight | telegram_bot/utils.py:100 | the result is a prefix; everything removed is in the strip set; the result does not end with a member of it |
| Text.Strip | telegram_bot/utils.py:100 | the result is an infix with only strip characters around it, and it neither starts nor ends with one |
| Text.CutSuffixOfSuffix | telegram_bot/utils.py:100 | a prefix of a suffix, with only strip characters cut off on either side and no strip character at its ends, is such an infix |
| Text.NatToString | telegram_bot/utils.py:68-70 | `str` of a region id: non-empty, all decimal digits, no leading zero |
| Text.ParseDecimal | telegram_bot/telegram_bot.py:396-401 | an id field is read as a number exactly when it is a non-empty string of digits, and then as its decimal value |
| Text.NatToStringRoundTrip | telegram_bot/utils.py:68-70 | reading back `str(id)` gives the id |
| Text.NatToStringHasNoUnderscore | telegram_bot/utils.py:68-70 | `str(id)` holds no "_", so it stays one callback field |
| Text.SplitAfterHead | telegram_bot/telegram_bot.py:372 | splitting `head + "_" + tail`, where head holds no "_", gives head followed by the split of tail |
| Text.SplitAfterTwoHeads | telegram_bot/utils.py:68-70 | splitting `a_b_tail`, where neither a nor b holds a "_", gives a, b, then the split of tail |
| Text.SplitWithout | telegram_bot/telegram_bot.py:372 | a string without the separator splits into itself |
| Tables.Database.constructor | constants.py:52-95 | a database starts with six empty tables and satisfies the invariant |
| Tables.Consistent | telegram_bot/data_builder.py:148-208 | the ledger invariant: per region the revisions run 1..n, consecutive entries differ in level, every pending region has two entries, no subscription row repeats, and every subscriber is a known user |
| Tables.Record | telegram_bot/data_builder.py:148-208 | one reading: a first sighting stores revision 1 at the given level and reports true; an unchanged level writes nothing; a changed level appends revision latest+1 and enqueues the region once; only warnings and updates change; the invariant is kept; the older builder runs the same step and also stores the reading's reason |
| Tables.RecordObservation | telegram_bot/data_builder.py:148-208 | the new state and the returned flag are those of `Record` |
| Tables.RecordAll | telegram_bot/data_builder.py:148-208 | readings in order: only warnings and updates change, the invariant is kept, and exactly the readings' regions join the ledger |
| Tables.RecordAllSnoc | telegram_bot/data_builder.py:148-208 | one more reading of a batch is one more `Record` step on the state the earlier readings left, the flag being the disjunction |
| Tables.RecordAllFlag | telegram_bot/data_builder.py:158-178 | the flag is true exactly when some region got its first entry |
| Tables.RecordAllAppend | data_builder.py:106-107 | ingesting `a + b` is ingesting `a`, then `b`, the flag being the disjunction |
| Tables.RecordAllAtLevel | telegram_bot/data_builder.py:183 | readings whose regions already stand at their levels change nothing |
| Tables.RecordAllSettles | telegram_bot/data_builder.py:158-208 | after ingestion, every region of a batch without conflicting levels stands at its reading's level |
| Tables.RecordAllTwice | data_builder.py:161-185 | ingesting such a batch a second time leaves the state of the first ingestion |
| Tables.Register | data_builder.py:85-98 | one region triple: a new id is stored with its type and name; a known id keeps its row, because the primary key refuses a second one |
| Tables.RegisterAll | data_builder.py:85-98 | every known region keeps its row, every region of the feed is present afterwards, and nothing else is added |
| Tables.RegisterAllFirstWins | data_builder.py:85-98 | a new id is stored with the triple of its first occurrence in the feed |
| Tables.RegisterAllKnown | data_builder.py:85-98 | a feed of known ids inserts nothing |
| Tables.RegisterAllTwice | telegram_bot/data_builder.py:78-96 | registering the same feed again inserts nothing |
| Ingestion.RegionsAfterTwice | telegram_bot/data_builder.py:64-96 | an immediate second `insert_regions` with the same feed inserts nothing |
| Ingestion.RegionsAfter | telegram_bot/data_builder.py:64-96 | the region table after `insert_regions`: known rows are kept and only feed ids are added; equal counts change nothing; otherwise every feed id is present |
| Ingestion.RegionsAfterCountShortcut | telegram_bot/data_builder.py:64-72 | with one stored region and a feed of one other region, the count check skips the insertion |
| Ingestion.InsertRegions | telegram_bot/data_builder.py:59-102 | the region table becomes that of the count check and the triple checks; no other table changes; the invariant is kept |
| Ingestion.SnapshotRecords | telegram_bot/data_builder.py:148-199 | a snapshot's readings in feed order, each with the snapshot's week and the reason "Null" |
| Ingestion.IngestSnapshot | telegram_bot/data_builder.py:120-208 | one snapshot records its timestamp, never removes a region from the ledger, leaves regions, users and subscriptions untouched and keeps the invariant |
| Ingestion.IngestFeed | telegram_bot/data_builder.py:120-208 | every snapshot timestamp is recorded; no region leaves the ledger; regions, users and subscriptions are untouched; the invariant is kept |
| Ingestion.VisitOrder | telegram_bot/data_builder.py:114-117 | with `reverse_order` the snapshots are visited last to first, otherwise first to last |
| Ingestion.InsertWarnings | telegram_bot/data_builder.py:105-210 | new state and return value are those of ingesting the snapshots in visiting order; the invariant is kept |
| Ingestion.IngestSnapshots | telegram_bot/data_builder.py:120-208 | the snapshot loop leaves the state and returns the flag of ingesting the snapshots in the order given |
| Ingestion.IngestFeedSnoc | telegram_bot/data_builder.py:120-208 | one more snapshot is one more snapshot step on the state the earlier ones left, the flag being the disjunction |
| Ingestion.IngestSnapshotStep | telegram_bot/data_builder.py:120-208 | one snapshot: skipped when its timestamp is recorded, otherwise the timestamp is recorded and then its readings are ingested |
| Ingestion.IngestReadings | telegram_bot/data_builder.py:148-208 | the inner loop equals `RecordAll` of the snapshot's readings |
| Ingestion.IngestFeedSeen | telegram_bot/data_builder.py:123-136 | snapshots whose timestamps are all recorded cause no write and a false result |
| Ingestion.InsertWarningsTwice | telegram_bot/data_builder.py:123-146 | a second run on the same feed, in either order, writes nothing and returns false |
| Ingestion.IngestFeedFlag | telegram_bot/data_builder.py:108-210 | the return value is true exactly when some region received its first revision; level changes never set it |
| LegacyIngestion.StoredReason | data_builder.py:116-119 | an empty reason is stored as "Null", any other one verbatim |
| LegacyIngestion.WeekRecords | data_builder.py:107-142 | a week's readings in feed order, each with the week's KW and its stored reason |
| LegacyIngestion.FeedRecords | data_builder.py:106-107 | all records of the feed, weeks in feed order and regions within a week in feed order (used by `LegacyIngestion.InsertWarnings`) |
| LegacyIngestion.InsertRegions | data_builder.py:78-98 | the region table becomes `RegisterAll` of the feed; no other table changes; the invariant is kept |
| LegacyIngestion.InsertWarnings | data_builder.py:101-149 | the new state is `RecordAll` of all weeks' readings, weeks in feed order and regions within a week in feed order; the invariant is kept |
| LegacyIngestion.IngestWeek | data_builder.py:107-149 | the inner loop equals `RecordAll` of the week's readings |
| LegacyIngestion.InsertWarningsTwice | data_builder.py:161-185 | ingesting a feed with no conflicting levels a second time leaves the ledger and the queue as after the first |
| LegacyIngestion.ScenarioRepeatedWeek | data_builder.py:161-185 | week 36, region 0, level 10, empty reason, ingested three times: one entry (1, 36, 10, "Null") and no pending row |
| LegacyIngestion.ScenarioAlternatingWeeks | data_builder.py:126-145 | two weeks with region 0 at levels 1 then 2, ingested twice into an empty ledger, give revisions 1 and 2 and one pending row, then revisions 3 and 4 and two more pending rows: a second ingestion is a no-op only without conflicting levels |
| BotUtils.RegionKeyboard | telegram_bot/utils.py:56-86 | None exactly for an empty result; otherwise one single-button row per result row in order, text the name and callback prefix_id_name, then the cancel button with text and callback the cancel prefix |
| BotUtils.Callback | telegram_bot/utils.py:68-70 | the callback data of a region button, `prefix_id_name` (its fields are read back by `BotUtils.CallbackFields`) |
| BotUtils.RegionCmdButtons | telegram_bot/utils.py:47-89 | the keyboard built by the loop is `RegionKeyboard` of the result |
| BotUtils.CallbackFields | telegram_bot/utils.py:68-70 | with no "_" in the prefix, splitting the callback gives the prefix, then `str(id)`, which reads back as the id, then the name's parts |
| BotUtils.Lines | telegram_bot/utils.py:100 | the page without outer newlines, split into at least one line, none holding a newline |
| BotUtils.LineResults | telegram_bot/utils.py:102-111 | one parse outcome per line, in order |
| BotUtils.ParseLine | telegram_bot/utils.py:108-111 | one line: "var" removed, split on " = "; no second part raises, otherwise the stripped key and the value `literal_eval` gives for the `;`-stripped second part (stated by `BotUtils.ParseLineFields`) |
| BotUtils.Collect | telegram_bot/utils.py:102-113 | the fold of the line outcomes into the variables dict (stated by `BotUtils.CollectOk`, `BotUtils.CollectErr`, `BotUtils.CollectLastWins`) |
| BotUtils.ParseJs | telegram_bot/utils.py:92-113 | `simple_js_parser` as a value: the fold of the outcomes of the page's lines (stated by `BotUtils.ParseJsOk`) |
| BotUtils.SimpleJsParser | telegram_bot/utils.py:92-113 | the loop returns the fold of the line outcomes: in line order, a later key overwrites, the first failing line raises; the older top-level `utils.py` holds the same function |
| BotUtils.ReadLines | telegram_bot/utils.py:102-113 | the line loop returns the fold of the line outcomes |
| BotUtils.ReadLine | telegram_bot/utils.py:108-111 | one line: the outcome is that of `ParseLine` |
| BotUtils.CollectSnoc | telegram_bot/utils.py:110-111 | after a successful prefix, a failing line makes the parse fail with its error and a good line stores its value under its key |
| BotUtils.CollectErr | telegram_bot/utils.py:102-111 | once a line fails, the whole parse fails with that line's error |
| BotUtils.CollectOk | utils.py:53-58 | the parse succeeds exactly when every line parses |
| BotUtils.CollectLastWins | utils.py:53-58 | after a successful parse every line's key is present, it holds the value of the last line with that key, and every key comes from some line |
| BotUtils.ParseLineFields | telegram_bot/utils.py:108-111 | a line fails for want of " = " exactly when it holds none after the "var" removal; the key is the stripped text before the first " = "; the value is evaluated from the segment after it, up to the next " = ", with ';' stripped |
| BotUtils.ParseJsOk | utils.py:51-58 | a page parses exactly when each of its lines parses |
| BotDispatch.Recipients | telegram_bot/telegram_bot.py:474-478 | the looked-up users are exactly the subscribers of the region |
| BotDispatch.RecipientsDistinct | telegram_bot/telegram_bot.py:476-480 | one region's subscriber lookup lists each subscriber once, so within one pending row no subscriber is messaged twice |
| BotDispatch.RegionDeliveries | telegram_bot/telegram_bot.py:485-524 | one pending region: no message without subscribers; otherwise exactly one message per subscriber, in lookup order, all with the alert built from the two newest entries |
| BotDispatch.RegionAlert | telegram_bot/telegram_bot.py:499-515 | the message of a region: the "higher" header when the newest level is above the previous one and "lower" otherwise, with the region name, the colours of the previous and newest level and the newest level's link (stated by `BotDispatch.AlertTone`) |
| BotDispatch.Fanout | telegram_bot/telegram_bot.py:472-530 | the messages of a run over the pending rows, row by row (stated by `BotDispatch.FanoutMembers`) |
| BotDispatch.Unread | telegram_bot/telegram_bot.py:527-530 | once every pending region is marked read, no row is left |
| BotDispatch.UnreadMembers | telegram_bot/telegram_bot.py:527-530 | a row is left exactly when its region is pending and not marked read |
| BotDispatch.UnreadTwice | telegram_bot/telegram_bot.py:527-530 | marking one set of regions read and then another equals marking their union |
| BotDispatch.UnreadNone | telegram_bot/telegram_bot.py:527-530 | marking regions that are not pending removes nothing |
| BotDispatch.PullUpdates | telegram_bot/telegram_bot.py:467-530 | the run drains the backlog and touches nothing else; the invariant is kept; the messages sent are those of the pending rows in order |
| BotDispatch.ServeRows | telegram_bot/telegram_bot.py:474-530 | the loop over the rows read empties the backlog, touches nothing else, and sends the messages of those rows in order |
| BotDispatch.ServeRegion | telegram_bot/telegram_bot.py:472-530 | one pending region: its messages are `RegionDeliveries` and every row of it is marked read |
| BotDispatch.FanoutRepeated | telegram_bot/telegram_bot.py:471-530 | a region pending k times gets its one-row messages sent k times over in one run, k times as many messages as it has subscribers |
| BotDispatch.FanoutStep | telegram_bot/telegram_bot.py:472-530 | the messages of the first k+1 rows are those of the first k followed by those of row k |
| BotDispatch.Notify | telegram_bot/telegram_bot.py:517-524 | one message per user of the lookup, in order, all with the same alert |
| BotDispatch.RegionDeliveriesMembers | telegram_bot/telegram_bot.py:504-524 | a message goes to a chat exactly when it subscribes to the region, and it carries the region's alert |
| BotDispatch.FanoutMembers | telegram_bot/telegram_bot.py:467-530 | a message is sent exactly when its chat subscribes to some pending region and it carries that region's alert |
| BotDispatch.AlertTone | telegram_bot/telegram_bot.py:505-509 | the "higher" header exactly when the newest level is above the previous one, "lower" exactly when below |
| BotDispatch.AlertOfChange | telegram_bot/data_builder.py:183-208 | a changed level enqueues the region with two entries, and the alert then compares the level before the change with the new one: header, colours before and after, and the link of the new level |
| BotCommands.GetUsername | telegram_bot/telegram_bot.py:33-40 | first name followed by last name, no separator, a missing part contributing nothing |
| BotCommands.WithoutPair | telegram_bot/telegram_bot.py:423-430 | the delete removes exactly the given (user, region) row, leaves a table without it unchanged, and keeps rows distinct |
| BotCommands.WithoutUser | telegram_bot/telegram_bot.py:323-326 | deleting all of a user's subscriptions removes exactly that user's rows and keeps rows distinct |
| BotCommands.FewerSubscriptions | telegram_bot/telegram_bot.py:323-326 | removing subscription rows keeps the invariant |
| BotCommands.SubscribeCallback | telegram_bot/telegram_bot.py:376-420 | the user is inserted only when absent and never renamed; the subscriptions either stay or gain exactly one new (user, id) row; only users and subscriptions change; the invariant is kept |
| BotCommands.UnsubscribeCallback | telegram_bot/telegram_bot.py:423-438 | after the unsubscribe callback a row remains exactly when it was there and is not the one given by id `command[1]`; only subscriptions change |
| BotCommands.HandleCallback | telegram_bot/telegram_bot.py:357-443 | a pressed button changes at most users and subscriptions, and keeps the invariant |
| BotCommands.CommandHandler | telegram_bot/telegram_bot.py:357-443 | new state and reply are those of `HandleCallback`; the invariant is kept |
| BotCommands.CallbackIdempotent | telegram_bot/telegram_bot.py:396-420 | pressing a button a second time leaves the state of the first press, and a registration is then reported as already registered |
| BotCommands.SubscribeButton | telegram_bot/telegram_bot.py:376-420 | a subscribe button appends its (user, region) row when absent and names the region; when present nothing changes and the reply is "already registered" |
| BotCommands.UnsubscribeButton | telegram_bot/telegram_bot.py:423-438 | an unsubscribe button removes exactly its (user, region) row and no other table changes |
| BotCommands.CancelButton | telegram_bot/telegram_bot.py:440-441 | the cancel button changes no table |
| BotCommands.SubscribedRows | telegram_bot/telegram_bot.py:340-342 | the rows offered for unsubscribing are exactly the user's subscribed regions with their names |
| BotCommands.CmdUnsubscribe | telegram_bot/telegram_bot.py:305-355 | more than one argument, or one other than "all", is refused with no change; "all" removes exactly the user's subscriptions; no argument offers the keyboard of the user's regions or reports none |
| BotCommands.CmdSubscribe | telegram_bot/telegram_bot.py:233-274 | no argument is refused; otherwise the joined, unquoted name is searched, and an empty result is reported by name, a non-empty one offered as keyboard |
| BotCommands.SearchTermQuoted | telegram_bot/telegram_bot.py:254-256 | a name in quotes is searched without them, and a bare name as it is |
| BotCommands.SearchTerm | telegram_bot/telegram_bot.py:256 | the searched name: the arguments joined by blanks, double quotes stripped from both ends (stated by `BotCommands.SearchTermQuoted`) |
| BotCommands.StripQuotes | telegram_bot/telegram_bot.py:254-256 | stripping quotes removes one surrounding pair from a name without quotes at its ends, and leaves the bare name as it is |
| LegacyBot.StoredUsername | telegram_bot.py:93-96 | a missing Telegram username is stored as the string "None" |
| LegacyBot.SubscribeCallback | telegram_bot.py:90-111 | the user is inserted only when unknown, with the stored username; the subscriptions either stay or gain exactly one new (user, id) row; only users and subscriptions change; the invariant is kept |
| LegacyBot.UnsubscribeCallback | telegram_bot.py:113-120 | a row remains exactly when it was there and is not the (user, id) row of `command[1]`; only subscriptions change; the invariant is kept |
| LegacyBot.HandleCallback | telegram_bot.py:79-120 | a pressed button changes at most users and subscriptions, and keeps the invariant |
| LegacyBot.CommandHandler | telegram_bot.py:79-120 | new state and reply are those of `HandleCallback`; the invariant is kept |
| LegacyBot.CallbackIdempotent | telegram_bot.py:98-117 | pressing a button a second time leaves the state of the first press, and a registration is then reported as already registered |
| LegacyBot.SubscribeTwice | telegram_bot.py:90-111 | a second subscribe with the same fields changes nothing, and a registration is then reported as already registered |
| LegacyBot.UnsubscribeTwice | telegram_bot.py:113-120 | a second unsubscribe with the same fields changes nothing |
| LegacyBot.SubscribeCallbackFields | telegram_bot.py:170-172 | with no "_" in the prefix, the callback splits into the prefix and `str(id)`, which reads back as the id |
| LegacyBot.SubscribeCallbackData | telegram_bot.py:170-172 | the callback data of an older subscribe button, `prefix_id` (read back by `LegacyBot.SubscribeCallbackFields`) |
| LegacyBot.SubscribeButton | telegram_bot.py:90-111 | a "subscribe_id" callback makes the user known and appends the (user, id) row when absent; when present it changes no subscription and replies "already registered" |
| LegacyBot.SubscribeFields | telegram_bot.py:90-111 | with an id that reads, the user is made known and the pair is appended when absent ("registered"), otherwise nothing more changes ("already registered") |
| LegacyBot.UnsubscribeButton | telegram_bot.py:113-120 | an "unsubscribe_id_name" callback removes exactly its (user, id) row and replies with the name up to its first "_" |
| LegacyBot.UnsubscribeFields | telegram_bot.py:113-120 | with an id that reads and a third field, exactly the (user, id) row is deleted and the reply names the third field |
| LegacyBot.SubscribeToRegion | telegram_bot.py:144-185 | an argument count other than one is refused with no search; an empty search is reported; otherwise one button per row, in order, with the name as text and prefix_id as callback |
| LegacyBot.UnsubscribeFromRegions | telegram_bot.py:187-225 | more than one argument is refused and exactly one is ignored, "all" included; with none, one button per subscribed region, with the name as text and prefix_id_name as callback, or the report that there is none |

## Left out

- `execute_query`, the SQL strings and sqlite itself: each query is an operation on the tables. A failed query yields None; the model produces this only for a callback id that is not a string of decimal digits. Other texts SQLite would run when spliced (a sign, blanks, `1.0`, `0x1F`, a spliced condition) are not modelled.
- A None result elsewhere, such as a failing `REGIONS_QUERY` in `len(result)`, is not modelled.
- `create_database` and the table-creation strings: only the schema's shape is used (constants.py:52-95).
- `get_corona_data`, `get_data_js` and the `lru_cache` with its hourly clearing: network I/O and a library cache. The feed is an input.
- `cmd_caseinfo` and both `string_assembler` definitions: floating-point percentages and text formatting.
- The Telegram framework: handler registration, `query.answer`, `InlineKeyboardMarkup`, and the message and logging templates. A button is a (text, callback) pair, a reply is a datatype naming its template, and a sent message is a `Delivery` in the returned log.
- `run`, `main`, the scheduler, the thread class and its sleep loops: scheduling and concurrency.
- The ISO 8601 week number of a snapshot's `Stand`, from `strptime` and `isocalendar`: it is an input of each snapshot.
- `ast.literal_eval`: a parameter `eval`. None stands for the exception it raises.
- Python's `str.strip()`: the model strips the characters below U+0080 that Python counts as whitespace (tab, line feed, U+000B, U+000C, carriage return, U+001C to U+001F and the blank). Whitespace at or above U+0080 is not modelled.
- The feed's `GKZ` and `Warnstufe` strings: readings carry the already converted integers, so a failing `int(...)` conversion is not modelled.
- `BotDispatch.PullUpdates`: a send is an append to the returned log that cannot fail. Neither `BotDispatch.ServeRows` nor `BotDispatch.Notify` models a raising `send_message`: in the source it aborts the run at that point, skips that region's `MARK_UPDATE_AS_READ` and every later row, and leaves them pending.
- `BotDispatch.PullUpdates`: requires every pending region with subscribers to have a region row, two ledger entries and levels known to `ALERT_COLORS` and `ALERT_URL`. The invariant supplies the two entries. Nothing in the program establishes the other facts, and without them the source raises; that path is not modelled.
- `LegacyBot.UnsubscribeFromRegions`: states the keyboard for the rows of `REGIONS_QUERY` as assumed above. The TODO branch for "all" does nothing.
- `BotCommands.CmdSubscribe` and `LegacyBot.SubscribeToRegion`: state the search only through the `search` parameter; `SEARCH_REGIONS` itself is not modelled.
- Logging: not modelled.
- `telegram_bot/telegram_bot.py` `cmd_help`, `cmd_list_regions`, `cmd_sources`, `cmd_under_construction` and `cmd_unknown_command`, and the older `start`, `under_construction` and `list_all_regions`: replies with fixed texts or list queries that change no table.
