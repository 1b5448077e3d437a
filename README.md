# DPY-Ticket-Bot: the ticket store and the ticket workflow, in Dafny

This project models the core of a Discord support-ticket bot. Users open a
ticket by reacting to a setup message, or by command. The bot creates a
private channel "Support Ticket #n", greets the user, and records the
channel in a ticket store. Closing a ticket writes a transcript, logs it
and deletes the channel.

The model covers:

- **`JsonStore`** (`json_store.dfy`): the store kept as one JSON dict.
  - Ticket entries are keyed by `str(channel_id)`.
  - The dict also holds `ticket_count` and `ticket_setup_message_id`.
  - A missing file reads as `{}`.
- **`SqlLiteStore`** (`sqlite_store.dfy`): the store kept as a `tickets` table and a `config` table.
  - Both tables are lists of rows in insertion order.
  - `initialize` creates whichever table is missing, once per store object.
- **The legacy helpers of `utils/util.py`** (`util.dfy`): the same bookkeeping over a camelCase JSON config.
  - This also covers the create and close workflows built on those helpers.
  - Unlike `JsonStore`, a missing file raises.
- **`Ticket`** (`ticket.dfy`), over either store (`stores.dfy`):
  - reaction validation;
  - close, create, add/remove user and setup;
  - the reaction-driven create and close.
- **The raw reaction handlers of `bot.py`** (`bot.dfy`): which reaction events the bot acts on, and which of its branches runs.

Supporting modules:

- `common.dfy`: Python's exceptions as `Result`, `str()` of an int, and the string helpers the bot uses.
- `pydict.dfy`: Python dicts as ordered association lists, with the exceptions their operations raise.
- `platform.dfy`: the bot's effects on the chat platform, as a trace of `Event`s.
  - Store writes appear in the trace as `Stored(...)` events, so claims about their order can be stated.

Each store is a class whose methods update its state in place. Each method
is proved against a function on values, and the properties are lemmas
about those functions.

### Quirks of the code the model keeps

The model follows the code as written in each of these cases:

- **Closing never removes the record.** Neither `Ticket.close_ticket` nor
  the legacy `CloseTicket` deletes it, so the closed channel remains "a
  ticket". See `TicketModel.CloseTicketEffects` (no store writes) and
  `LegacyUtil.CloseKeepsRecord`.
- **Creating never fails with a duplicate.**
  - The JSON stores overwrite the existing entry.
  - The SQLite store appends a second row, and `get_ticket_id` keeps
    answering the first row's id (`SqlLiteStoreModel.CreateThenTicketId`).
- **Removing or looking up an unknown channel behaves differently per store.**
  - SQLite `remove_ticket` silently does nothing.
  - JSON `get_ticket_id` returns None.
  - SQLite `get_ticket_id` raises TypeError.
  - The JSON stores raise KeyError on removal.
- **The legacy create does not use one atomic counter.** It reads the count
  plus one and increments only at the end (`LegacyUtil.LegacyCreationStoreWrites`).
- **JSON `check_is_ticket` is a plain key test.** It also answers True for
  the two configuration keys (`JsonStoreModel.ConfigKeysCountAsTickets`).
- **A fresh SQLite database starts with the config row `(0, 0)`.** So
  message id 0 counts as a reaction message until a setup message is saved
  (`SqlLiteStoreModel.FreshDatabase`).

## Model

| member | source | states |
|---|---|---|
| Common.IntToDecimalInjective | utils/db/json_store.py:45 | two different integer ids never give the same `str()` key |
| Common.OrDefault | utils/db/sqlite_store.py:30 | `x or default`: a non-empty string is kept; None and "" give the default |
| Common.PadRight | utils/ticket.py:38 | `f"{s:<15}"`: the string is kept as a prefix, padded with spaces to the width, never truncated |
| Common.Strip | utils/db/sqlite_store.py:28 | `strip("/")`: the result neither starts nor ends with "/" |
| Common.StripIsSlice | utils/db/sqlite_store.py:28 | the stripped result is a slice of the input, and everything cut off on either side is "/" |
| Common.PathJoin | utils/db/sqlite_store.py:34 | `os.path.join(a, b)` ends with `b`; it is `b` itself when `b` is absolute, and otherwise starts with `a` |
| PyDict.Set | utils/db/json_store.py:45-48 | item assignment: the key then holds the value; every other key keeps its value; the key set gains the key; distinct keys stay distinct |
| PyDict.SetNewKeyAppends | utils/db/json_store.py:84 | assigning a new key appends it after all existing entries |
| PyDict.SetExistingKeyInPlace | utils/db/json_store.py:86 | assigning an existing key keeps the length and the key order |
| PyDict.SetTwice | utils/util.py:25-27 | of two assignments to one key, only the second is visible |
| PyDict.Remove | utils/db/json_store.py:91 | deleting a key from a dict with distinct keys removes exactly that key; other keys keep their values |
| PyDict.Pop | utils/db/json_store.py:91 | `d.pop(k)` raises KeyError(k) exactly when `k` is absent, and otherwise leaves the dict without `k` |
| PyDict.Index | utils/util.py:9 | `d[k]` raises KeyError(k) exactly when `k` is absent, and otherwise gives the value stored under `k` |
| PyDict.AddInt | utils/db/json_store.py:56 | `v += delta` succeeds exactly on an int, giving `v + delta`; on the other modelled values (null, a string, an object) TypeError |
| PyDict.GetField | utils/db/json_store.py:33 | `v.get(f)`: the field's value, or None when it is missing; AttributeError on a non-object |
| PyDict.Subscript | utils/util.py:178 | `v[f]`: the field's value; KeyError when it is missing; TypeError on a non-object |
| PyDict.SetField | utils/util.py:70 | `v[f] = s` updates that one field of an object; TypeError on a non-object |
| Platform.TranscriptLines | utils/ticket.py:36-41 | one line per history message, in order, each rendered by the module's own line format (the legacy close builds them the same way at utils/util.py:126-128) |
| Platform.Transcript | utils/ticket.py:36-46 | the file is the header alone for an empty history, and the header followed by the single line for one message; with `TranscriptAppend` this fixes the header followed by the lines joined with " " (likewise utils/util.py:126-131) |
| Platform.TranscriptAppend | utils/ticket.py:36-41 | one more message adds exactly a space and its line, whatever the line format |
| JsonStoreModel.CheckStoragePath | utils/db/json_store.py:15-18 | RuntimeError with the source's message exactly when the path neither starts nor ends with "/" |
| JsonStoreModel.ReadConfig | utils/db/json_store.py:99-106 | a missing file reads as the empty dict, an existing one as its contents |
| JsonStoreModel.ScanReactionIds | utils/db/json_store.py:32-35 | the scan answers True only if some entry carries the message as its reaction message |
| JsonStoreModel.IsReactionMessage | utils/db/json_store.py:24-36 | KeyError when the setup key is missing; True for the setup message; KeyError for any other message when the counter is missing |
| JsonStoreModel.WithTicket | utils/db/json_store.py:38-49 | afterwards the channel is a ticket with that id and entry; no other key changes; an existing entry is overwritten in place |
| JsonStoreModel.TicketCount | utils/db/json_store.py:66-68 | 0 when the counter is absent, otherwise the stored value |
| JsonStoreModel.WithCountIncremented | utils/db/json_store.py:81-87 | an absent counter becomes 1, an int counter grows by exactly 1, and a null, string or object counter raises TypeError; no other key changes |
| JsonStoreModel.WithCountDecremented | utils/db/json_store.py:51-57 | no change without a counter, otherwise exactly 1 less with no floor at 0; no other key changes |
| JsonStoreModel.NextTicketId | utils/db/json_store.py:62-64 | the id returned is the old count plus 1 and equals the new count; no other key changes |
| JsonStoreModel.TicketId | utils/db/json_store.py:70-75 | None for an unknown channel, otherwise the entry's "id" field |
| JsonStoreModel.SetupMessageId | utils/db/json_store.py:77-79 | the stored setup id, None when absent |
| JsonStoreModel.WithoutTicket | utils/db/json_store.py:89-92 | KeyError exactly when the channel is unknown; otherwise exactly that key is gone and the channel is no longer a ticket |
| JsonStoreModel.WithSetupMessage | utils/db/json_store.py:94-97 | only the setup id changes, and the new id is then recognised as a reaction message |
| JsonStoreModel.ScanOverObjects | utils/db/json_store.py:32-36 | over object entries, the scan answers exactly whether some entry carries the message |
| JsonStoreModel.ReactionMessageIff | utils/db/json_store.py:24-36 | on a well-formed dict: True iff the message is the setup message or some ticket's reaction message, and it never raises |
| JsonStoreModel.SaveForgetsOldSetupMessage | utils/db/json_store.py:94-97 | after a new setup message is saved, the old one is recognised only if some ticket entry carries it |
| JsonStoreModel.ConfigKeysCountAsTickets | utils/db/json_store.py:21-22 | `check_is_ticket` is also True for "ticket_count" and "ticket_setup_message_id" |
| JsonStoreModel.IntChannelIsNotConfigKey | utils/db/json_store.py:45 | `str()` of an integer channel id is never a configuration key |
| JsonStoreModel.WithTicketKeepsWellFormed | utils/db/json_store.py:38-49 | creating a ticket for an integer channel keeps the dict well-formed |
| JsonStoreModel.DrawIdsCountUp | utils/db/json_store.py:62-68 | from a count of n, successive `get_next_ticket_id` calls return n+1, n+2, ... |
| JsonStoreModel.DrawIdsFromEmpty | utils/db/json_store.py:81-87 | from a missing file, the ids handed out are 1, 2, 3, ... |
| JsonStoreModel.JsonStore.constructor | utils/db/json_store.py:12-19 | a store is built only on a path that passes the check, and keeps the path |
| JsonStoreModel.JsonStore.CheckIsTicket | utils/db/json_store.py:21-22 | answers whether `str(channel_id)` is a key of the config |
| JsonStoreModel.JsonStore.CheckMessageIsReactionMessage | utils/db/json_store.py:24-36 | the pops and the loop over the remaining entries answer as `IsReactionMessage` |
| JsonStoreModel.JsonStore.CreateTicket | utils/db/json_store.py:38-49 | the file afterwards holds `WithTicket` of the config read |
| JsonStoreModel.JsonStore.DecrementTicketCount | utils/db/json_store.py:51-57 | without a counter the file is untouched; otherwise it holds the decremented config, or nothing changes and the error is raised |
| JsonStoreModel.JsonStore.GetTicketCount | utils/db/json_store.py:66-68 | returns `TicketCount` of the config |
| JsonStoreModel.JsonStore.IncrementTicketCount | utils/db/json_store.py:81-87 | the file holds the incremented config, or nothing changes and TypeError is raised |
| JsonStoreModel.JsonStore.GetNextTicketId | utils/db/json_store.py:62-64 | returns the id `NextTicketId` gives, and leaves the incremented config |
| JsonStoreModel.JsonStore.GetTicketId | utils/db/json_store.py:70-75 | returns `TicketId` of the config |
| JsonStoreModel.JsonStore.GetTicketSetupMessageId | utils/db/json_store.py:77-79 | returns the setup id, None when absent |
| JsonStoreModel.JsonStore.RemoveTicket | utils/db/json_store.py:89-92 | the file holds the config without the channel, or KeyError and no change |
| JsonStoreModel.JsonStore.SaveNewTicketMessage | utils/db/json_store.py:94-97 | the file holds the config with the new setup id |
| SqlLiteStoreModel.DatabaseName | utils/db/sqlite_store.py:30-32 | `database_name or "storage.db"`, kept as it is when it ends in ".db" and with ".db" appended otherwise |
| SqlLiteStoreModel.DatabaseFile | utils/db/sqlite_store.py:28-34 | AttributeError exactly when no storage path is given; otherwise the path ends with the database name, and for a relative name it starts with the storage path stripped of "/" and does not start with "/" |
| SqlLiteStoreModel.Init | utils/db/sqlite_store.py:42-65 | missing tables are created (tickets empty, config holding `(0, 0)`); existing tables are kept |
| SqlLiteStoreModel.InitIdempotent | utils/db/sqlite_store.py:42-67 | initialising twice is the same as initialising once |
| SqlLiteStoreModel.FirstRowOf | utils/db/sqlite_store.py:161-166 | `fetchone` finds a row exactly when the channel has one, and that row belongs to the channel |
| SqlLiteStoreModel.FirstRowOfIsFirst | utils/db/sqlite_store.py:161-166 | the row found is the earliest row of that channel |
| SqlLiteStoreModel.TicketIdOf | utils/db/sqlite_store.py:155-166 | TypeError (`None[0]`) exactly when the channel has no row; otherwise the ticket id of the row `FirstRowOf` finds, which `FirstRowOfIsFirst` proves is the earliest |
| SqlLiteStoreModel.FirstConfig | utils/db/sqlite_store.py:150-153 | the first config row; TypeError when the table is empty |
| SqlLiteStoreModel.ShiftCount | utils/db/sqlite_store.py:178-183 | the UPDATE adds the delta to every row's count and keeps every setup id |
| SqlLiteStoreModel.WithSetupMessage | utils/db/sqlite_store.py:197-205 | the UPDATE sets the setup id of every row and keeps the counts |
| SqlLiteStoreModel.WithoutChannel | utils/db/sqlite_store.py:185-195 | every row of the channel goes and every other row stays; no change when the channel has none |
| SqlLiteStoreModel.NextTicketId | utils/db/sqlite_store.py:101-108 | increments every config row and returns the first row's old count plus 1; TypeError on an empty config |
| SqlLiteStoreModel.InsertKeepsFirstRow | utils/db/sqlite_store.py:121-130 | inserting a second row for a channel leaves the row `get_ticket_id` finds unchanged |
| SqlLiteStoreModel.InsertNewChannelIsFound | utils/db/sqlite_store.py:121-130 | for a channel with no row, the inserted row is the one found |
| SqlLiteStoreModel.CreateThenTicketId | utils/db/sqlite_store.py:110-130 | after `create_ticket`, `get_ticket_id` answers the new id for a new channel, and the old id for a channel that already had a row |
| SqlLiteStoreModel.RemoveKeepsOtherChannels | utils/db/sqlite_store.py:185-195 | removing one channel leaves every other channel's lookup unchanged |
| SqlLiteStoreModel.DrawIdsCountUp | utils/db/sqlite_store.py:101-108 | from a first config row with count n, successive draws return n+1, n+2, ... |
| SqlLiteStoreModel.FreshDatabase | utils/db/sqlite_store.py:60-65 | on a fresh database the ids are 1, 2, 3, ..., and message id 0 is a reaction message |
| SqlLiteStoreModel.SaveSetupMessage | utils/db/sqlite_store.py:197-205 | the saved id is recognised; an older id only if some ticket row carries it |
| SqlLiteStoreModel.SqlLiteStore.constructor | utils/db/sqlite_store.py:27-40 | `db_file` is the normalised file name, `db` joins the directory with it, and the store starts uninitialised |
| SqlLiteStoreModel.SqlLiteStore.Initialize | utils/db/sqlite_store.py:42-67 | afterwards the store is initialised and the database is `Init` of the old one |
| SqlLiteStoreModel.SqlLiteStore.CheckIsTicket | utils/db/sqlite_store.py:69-79 | True exactly when some row has the channel |
| SqlLiteStoreModel.SqlLiteStore.CheckMessageIsReactionMessage | utils/db/sqlite_store.py:81-99 | True exactly when some config row has it as the setup id or some ticket row as its reaction message |
| SqlLiteStoreModel.SqlLiteStore.GetNextTicketId | utils/db/sqlite_store.py:101-108 | every count grows by 1, and the first row's new count is returned |
| SqlLiteStoreModel.SqlLiteStore.CreateTicket | utils/db/sqlite_store.py:110-130 | exactly one row is appended, with no uniqueness check; config is unchanged |
| SqlLiteStoreModel.SqlLiteStore.DecrementTicketCount | utils/db/sqlite_store.py:132-137 | every count drops by 1; tickets are unchanged |
| SqlLiteStoreModel.SqlLiteStore.GetConfig | utils/db/sqlite_store.py:139-145 | returns the first config row's first column (the setup id); TypeError on an empty table |
| SqlLiteStoreModel.SqlLiteStore.GetTicketCount | utils/db/sqlite_store.py:147-153 | returns the first config row's count; TypeError on an empty table |
| SqlLiteStoreModel.SqlLiteStore.GetTicketId | utils/db/sqlite_store.py:155-166 | returns `TicketIdOf` of the rows |
| SqlLiteStoreModel.SqlLiteStore.GetTicketSetupMessageId | utils/db/sqlite_store.py:168-176 | returns the first config row's setup id; TypeError on an empty table |
| SqlLiteStoreModel.SqlLiteStore.IncrementTicketCount | utils/db/sqlite_store.py:178-183 | every count grows by 1; tickets are unchanged |
| SqlLiteStoreModel.SqlLiteStore.RemoveTicket | utils/db/sqlite_store.py:185-195 | every row of the channel is deleted; config is unchanged |
| SqlLiteStoreModel.SqlLiteStore.SaveNewTicketMessage | utils/db/sqlite_store.py:197-205 | every config row gets the new setup id; tickets are unchanged |
| Stores.ViewIsReactionMessage | utils/db/base.py:10-11 | the SQLite store never raises; a well-formed JSON store answers setup-or-carried |
| Stores.ViewNextTicketId | utils/db/base.py:13-14 | both stores return the old count plus 1, which becomes the new count; no channel's ticket status changes |
| Stores.ViewCreateTicket | utils/db/base.py:16-22 | afterwards the channel is a ticket; no other channel's status changes |
| Stores.ViewTicketId | utils/db/base.py:33-34 | JSON answers None for an unknown channel; SQLite succeeds exactly for a known channel, with an int |
| Stores.ViewSaveSetup | utils/db/base.py:45-46 | no channel's status changes, and the new setup message is recognised |
| Stores.CreateThenTicketId | utils/db/base.py:16-34 | after create, lookup answers the new id, except SQLite keeps an earlier row's id |
| Stores.CheckIsTicket | utils/db/base.py:7-8 | dispatches to the store; its view is unchanged |
| Stores.CheckMessageIsReactionMessage | utils/db/base.py:10-11 | dispatches to the store; its view is unchanged |
| Stores.GetNextTicketId | utils/db/base.py:13-14 | returns the drawn id and leaves the view `ViewNextTicketId` gives |
| Stores.CreateTicket | utils/db/base.py:16-22 | leaves the view `ViewCreateTicket` gives |
| Stores.GetTicketId | utils/db/base.py:33-34 | returns `ViewTicketId`; the view is unchanged |
| Stores.SaveNewTicketMessage | utils/db/base.py:45-46 | leaves the view `ViewSaveSetup` gives |
| TicketModel.TranscriptLine | utils/ticket.py:38 | a line starts with the date, a space and the author's name; the name is padded with spaces to 15 columns; the line ends with " -> ", the content and a newline, and has no other characters |
| TicketModel.ValidateReactionEvent | utils/ticket.py:198-218 | False for the bot's own reaction, for an emoji not in the list, and outside the intake and ticket channels; True iff all four checks pass; errors come only from the message query |
| TicketModel.SqlValidationNeverRaises | utils/ticket.py:213-216 | on the SQLite store validation never raises |
| TicketModel.CloseTicketEffects | utils/ticket.py:27-55 | refusal only for a non-ticket without a reaction event; otherwise transcript, log with the default reason, channel deletion; never a store write |
| TicketModel.JsonReactionCloseOfUnknownChannel | utils/ticket.py:34-42 | a reaction close of a channel the JSON store does not know writes "tickets/None.txt" |
| TicketModel.SqlReactionCloseOfUnknownChannel | utils/ticket.py:34 | the same on the SQLite store raises TypeError before any effect |
| TicketModel.CreateTicketEffects | utils/ticket.py:57-108 | exactly one id is drawn first; then the channel "Support Ticket #id"; one persist of (channel, id, welcome message) after the posts; the subject is posted iff non-empty; the log comes last; lookup then gives the id |
| TicketModel.CreationEventsStoreWrites | utils/ticket.py:64-102 | the creation run writes the store exactly twice: the draw, then the persist |
| TicketModel.CreationEventsShape | utils/ticket.py:64-108 | the run opens with the draw and the channel, and ends with the persist and the log |
| TicketModel.CreationEventsPostSubject | utils/ticket.py:93-100 | the subject embed is posted exactly when the subject is non-empty |
| TicketModel.UserAccessEffects | utils/ticket.py:110-126 | refusal on a non-ticket; otherwise read and send both granted or both revoked; never a store write |
| TicketModel.SetupMessageEffects | utils/ticket.py:128-140 | posts the services embed, adds a check mark and saves the message; the message is then recognised; AttributeError without an intake channel |
| TicketModel.ReactionCreateEffects | utils/ticket.py:161-181 | an invalid reaction does nothing; a valid one creates a ticket for the reactor and then removes their check mark |
| TicketModel.ValidateReactionEventOn | utils/ticket.py:198-218 | the early-return checks against a store answer as `ValidateReactionEvent`, leaving the store unchanged |
| TicketModel.CloseTicket | utils/ticket.py:27-55 | performs `CloseTicketEffects` against the store, which is unchanged |
| TicketModel.CreateTicket | utils/ticket.py:57-108 | the author is `sudo_author` or else the message author; performs `CreateTicketEffects` and leaves its store |
| TicketModel.AddUser | utils/ticket.py:119-126 | performs `UserAccessEffects` with grant; the store is unchanged |
| TicketModel.RemoveUser | utils/ticket.py:110-117 | performs `UserAccessEffects` with revoke; the store is unchanged |
| TicketModel.SetupNewTicketMessage | utils/ticket.py:128-140 | performs `SetupMessageEffects` and leaves its store |
| TicketModel.ReactionCreateTicket | utils/ticket.py:161-181 | the reactor is the payload's member or else the member fetched for `payload.user_id`; performs `ReactionCreateEffects`; a ticket opened is the reacting user's channel, and the run ends by removing that user's check mark |
| TicketModel.ReactionCloseTicket | utils/ticket.py:183-196 | closes the payload's channel as a reaction event, with no reason and no validation |
| LegacyUtil.ReadJson | utils/json_loader.py:38-41 | a missing config file raises FileNotFound; otherwise its contents |
| LegacyUtil.IntChannelIsNotConfigKey | utils/util.py:25 | `str()` of an integer channel is never "ticketCount" or "ticketSetupMessageId" |
| LegacyUtil.TicketCount | utils/util.py:7-9 | `data["ticketCount"]`, KeyError when it is missing |
| LegacyUtil.WithCountIncremented | utils/util.py:12-15 | exactly 1 more; KeyError without a counter, TypeError for a null, string or object counter; every other key unchanged |
| LegacyUtil.SetupMessageId | utils/util.py:18-20 | `data["ticketSetupMessageId"]`, raising when it is missing |
| LegacyUtil.TicketId | utils/util.py:36-38 | KeyError for an unknown channel, otherwise the entry's "id" by subscript |
| LegacyUtil.WithChannel | utils/util.py:23-28 | afterwards the channel is a ticket with `{id, reactionMsgId: None}`, whatever it held before; no other key changes |
| LegacyUtil.WithoutTicket | utils/util.py:41-44 | KeyError exactly for an unknown channel; otherwise it is no longer a ticket and no other key changes |
| LegacyUtil.WithReactionMessage | utils/util.py:69-71 | only the channel entry's "reactionMsgId" changes; KeyError for a missing entry |
| LegacyUtil.WithSetupMessage | utils/util.py:195 | only the setup id changes |
| LegacyUtil.ScanReactionIds | utils/util.py:177-179 | the scan answers True only if some entry carries the message |
| LegacyUtil.IsValidReactionMessage | utils/util.py:169-181 | KeyError without the setup key; True for the setup message; KeyError for any other message when the counter is missing |
| LegacyUtil.ScanOverEntries | utils/util.py:177-181 | over entries that have the field, the scan answers exactly whether one carries the message |
| LegacyUtil.ValidReactionMessageIff | utils/util.py:169-181 | on a well-formed config: valid iff setup message or some channel's reaction message, and it never raises |
| LegacyUtil.SubjectPosts | utils/util.py:47-54 | nothing exactly for the default subject, otherwise the subject embed |
| LegacyUtil.TranscriptLine | utils/util.py:127 | a line starts with the message content and ends with a space, a vertical bar, a space, the author's name and a newline, with nothing in between |
| LegacyUtil.LegacyCreationStoreWrites | utils/util.py:81-112 | creation writes the store three times, in this order: the channel record, its welcome message, the counter |
| LegacyUtil.LegacyCreationPosts | utils/util.py:81-115 | the channel is opened first; the subject is posted iff it is not the default; the command is deleted when given |
| LegacyUtil.CreatedConfig | utils/util.py:100-112 | after a creation the counter equals the new id, and the channel holds that id and its welcome message; no other key changes |
| LegacyUtil.NewTicketId | utils/util.py:83 | the id is the stored count plus 1; KeyError without a counter, TypeError for a non-int |
| LegacyUtil.CreateNewTicketEffects | utils/util.py:81-115 | FileNotFound or the id's error before any effect; otherwise the creation run and `CreatedConfig` |
| LegacyUtil.CloseTicketEffects | utils/util.py:118-144 | only a refusal for a non-ticket; otherwise transcript, log and deletion; never a store write |
| LegacyUtil.CloseKeepsRecord | utils/util.py:118-144 | closing a recorded ticket logs its id and leaves the channel in the config |
| LegacyUtil.CreatedConfigWellFormed | utils/util.py:100-112 | creation keeps the config well formed, and the welcome message is then carried by a channel |
| LegacyUtil.CreateNewTicketUnfolds | utils/util.py:100-112 | once the id is drawn, the three store steps cannot raise and give `CreatedConfig` |
| LegacyUtil.LegacyConfig.GetTicketCount | utils/util.py:7-9 | FileNotFound without a file, otherwise `TicketCount` |
| LegacyUtil.LegacyConfig.IncrementTicketCount | utils/util.py:12-15 | the file holds the incremented config, or nothing changes and the error is raised |
| LegacyUtil.LegacyConfig.GetTicketSetupMessageId | utils/util.py:18-20 | FileNotFound without a file, otherwise `SetupMessageId` |
| LegacyUtil.LegacyConfig.LogNewTicketChannel | utils/util.py:23-28 | the three assignments leave the file as `WithChannel` |
| LegacyUtil.LegacyConfig.IsATicketCheck | utils/util.py:31-33 | whether `str(channelId)` is a key, raising without a file |
| LegacyUtil.LegacyConfig.GetTicketId | utils/util.py:36-38 | FileNotFound without a file, otherwise `TicketId` |
| LegacyUtil.LegacyConfig.RemoveTicket | utils/util.py:41-44 | the file holds the config without the channel, or the error and no change |
| LegacyUtil.LegacyConfig.NewTicketEmbedSender | utils/util.py:57-71 | posts the welcome message and the padlock first, then stores the message id on the channel entry or raises |
| LegacyUtil.LegacyConfig.CheckIfValidReactionMessage | utils/util.py:169-181 | the pops and the loop answer as `IsValidReactionMessage` |
| LegacyUtil.LegacyConfig.CreateNewTicket | utils/util.py:81-115 | performs `CreateNewTicketEffects`: the file ends as `CreatedConfig`, or is unchanged when the id cannot be drawn |
| LegacyUtil.LegacyConfig.ReactionCreateNewTicket | utils/util.py:74-78 | creates a ticket for the reacting member, with no subject and no command message |
| LegacyUtil.LegacyConfig.CloseTicket | utils/util.py:118-144 | performs `CloseTicketEffects` |
| LegacyUtil.LegacyConfig.SetupNewTicketMessage | utils/util.py:184-197 | FileNotFound first; AttributeError without an intake channel; otherwise posts, reacts and saves the setup id |
| Bot.AcceptsChannel | bot.py:44-47 | the intake channel passes without reading the config; any other channel must be a key of it |
| Bot.AcceptsMessage | bot.py:50-51 | the message test is `CheckIfValidReactionMessage` |
| Bot.ReactionAddAction | bot.py:32-82 | the bot's own reactions and other emojis are ignored; create only for a check mark on the setup message; add-confirm only for a padlock; close only for a check mark elsewhere; all only after both tests pass |
| Bot.ReactionRemoveAction | bot.py:85-113 | remove-confirm iff a padlock from someone else passes both tests; otherwise ignore |
| Bot.ReactionAddBranches | bot.py:56-82 | an accepted add event takes exactly one of the three branches, and a padlock on the setup message adds a confirmation |
| Bot.ReactionAddOnWellFormed | bot.py:35-51 | on a well-formed config the handler never raises, and it acts iff the four checks pass |
| Bot.CheckOnSetupMessageCreates | bot.py:56-58 | a check mark on a freshly saved setup message in the intake channel opens a ticket |
| Bot.WelcomeMessageAccepted | bot.py:44-51 | a newly created ticket's channel and welcome message pass both tests |
| Bot.LockOnWelcomeMessage | bot.py:70-74 | a padlock on a new ticket's welcome message asks for the confirmation mark; removing it takes the mark away |
| Bot.CheckOnWelcomeMessage | bot.py:76-82 | a check mark on a new ticket's welcome message closes that ticket |
| Bot.OnRawReactionAdd | bot.py:32-82 | carries out the branch for the member resolved for `payload.user_id`: creates that user's ticket and removes their check mark, or adds the bot's check mark, or nothing |
| Bot.OnRawReactionRemove | bot.py:85-113 | removes the bot's own check mark exactly for a remove-confirm, and does nothing otherwise |

## Left out

- **File and database I/O is in-memory state.**
  - `json_loader.read_json`/`write_json`, `JsonStore.__read`/`__write` and the aiosqlite connections are not modelled as I/O.
  - A JSON file is `Option<Dict>`; a database is its two tables.
  - The JSON dump format and SQL text are not modelled.
- **The working directory is a parameter.** The source derives it from `Path(__file__).parents`. Only the file-name normalisation is modelled.
- **Discord calls are trace events.** These are channel creation with its permission overwrites, sends, reactions, member and message fetches, channel deletion and the transcript file.
  - Ids the platform hands out are parameters: the new channel, the welcome message and the setup message.
  - Embed colours, avatars, the embed description text and the `strftime` date are left out; the date is an opaque string.
  - A member's `mention` is a field of `Platform.Member`, taken as the platform renders it (with or without the nickname `!`).
- Platform.CreationLogBody: the "Created ticket" log body shows the requested name "Support Ticket #n" where the source logs `channel.name`. That is the name Discord returns for the new channel, and Discord normalises text-channel names, so the logged text differs from the model's. No proved property depends on the name.
- **JSON values are limited to null, int, string, and flat objects of those.** `json.load` can also return bools, floats, lists and nested objects; such values only appear in a hand-edited file and are not modelled.
  - In Python, `true += 1` gives 2 and `1.0 += 1` gives 2.0.
  - The TypeError that `PyDict.AddInt`, `JsonStoreModel.WithCountIncremented` and `LegacyUtil.WithCountIncremented` state for a non-int counter therefore covers only the modelled kinds of value.
- **Concurrency is not modelled.** Each store operation is one atomic step, so the read-then-write races across `await`s are not represented.
- **Channel and message ids reach the SQLite store and the `Stores` union as ints.** The `int(...)` conversions and string ids given to SQLite are not modelled. The JSON stores take `Union[str, int]` ids.
- **SQLite `SELECT` without `ORDER BY` is assumed to return rows in insertion order.**
- **`utils/db/base.py` is a Protocol with no behaviour.** It is replaced by the `Stores.Store` union of the two stores.
- **Only the reaction handlers of `bot.py` are modelled.** The command handlers, startup, `on_ready` and secrets loading are not part of this model.
- **`ReactionCloseTicket` and `SudoCreateNewTicket` do not exist in `utils/util.py`.**
  - `bot.py` imports both, and `utils/util.py` imports `utils.jsonLoader` while the module is `utils/json_loader.py`, so as written neither module can be imported.
  - The close branch of `on_raw_reaction_add` therefore ends at the `CloseTicket` action.
- **`SendLog` is the `Log` event.** Its default arguments and timestamp are not modelled.
- **The `Ticket` object's `ctx` is left out.** Its guild, bot and log channel become parameters.
- **`get_member`/`fetch_member` are modelled as always finding the member.** Their result is a parameter of `TicketModel.ReactionCreateTicket` and `Bot.OnRawReactionAdd`, and both require it to have the reacting user's id `payload.user_id`, as the platform guarantees.
- JsonStoreModel.WithCountIncremented: a bool or float counter, which Python increments, is outside the modelled JSON values; a null, string or object counter raises TypeError as in the source.
- LegacyUtil.LegacyConfig.CreateNewTicket: the trace it returns is stated as `LegacyCreationEvents` rather than built up from its sub-steps. The store steps are performed and proved step by step.
- JsonStoreModel.JsonStore.constructor: requires a path that passes `CheckStoragePath` instead of raising. The raise itself is stated by `CheckStoragePath`.
- SqlLiteStoreModel.SqlLiteStore.constructor: takes a storage path string. The missing-path case (`None.strip`) is stated by `DatabaseFile`.
