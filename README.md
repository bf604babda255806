# SMS message lifecycle engine — a Dafny model

This project models the message lifecycle engine of a small SMS sender (`sms.py`). The engine has three parts.

- **Store (`SMSDatabase`).** It holds three tables: messages, an append-only audit log and contacts.
- **Messenger (`SMSMessenger`).** It keeps a registry of gateways. It sends a message now, schedules one for later, and drains the due messages in one pass.
- **Gateways (Twilio, Plivo).** Each one either returns a response payload or raises.

The SQLite tables are held in memory as sequences of rows (`Store.Tables`).

- Rows stay in insertion order.
- The key of the k-th row is k + 1: AUTOINCREMENT with no deletions, stated by `Store.WellFormed`.

A gateway's answer is not computed by the engine, so it comes in as a parameter.

- A `Gateways.Network` gives the reply to the send made for a given message row.
- `backend` parameters give the replies to the delivery-status and balance queries.
- The clock (`CURRENT_TIMESTAMP`, `datetime('now')`) is an integer `now` parameter.

Each entry point appears twice in `engine.dfy`.

- **Pure function of the tables:** `SendImmediate`, `Schedule` and `ProcessScheduled`.
- **Method of `SMSMessenger`:** it performs the same steps on an `SMSDatabase` object, one store call at a time. Its `ensures` ties the new store to the function. `ProcessScheduledMessages` is a `for` loop with `continue`, as in the source.

Lemmas state what the functions mean: which rows change and to what, how many audit entries appear, and when an error is raised. The invariant `Engine.Consistent` is part of `SMSMessenger.Valid()`, and every entry point preserves it. Under it:
- `message_id` and `sent_at` are set together;
- they are set only on a `sent` row;
- every audit entry names an existing row.

## Behaviours worth knowing

The model follows the code. Four behaviours are easy to miss when reading the code. The first and third run against what the docstring of `process_scheduled_messages` suggests.

- **The due query ignores scheduled rows.** `process_scheduled_messages` is documented as processing "all pending scheduled messages" (sms.py:345), which suggests that a message stored by `schedule_sms` is sent once its time has come. The due query, however, selects only rows with status `pending` (sms.py:252), and `schedule_sms` writes `scheduled` (sms.py:337). So a scheduled message is never picked up by `process_scheduled_messages`, even when its time has passed. `Store.ScheduledNeverPending` and `Engine.ScheduledIsNeverSent` prove this.
- **A `sent` row can have no `sent_at`.** `sent_at` and `message_id` are stamped only when the provider id taken from the payload is truthy (sms.py:228-237). A successful send whose payload has no `sid` and no `message_uuid` therefore leaves a row that is `sent` with no `sent_at` (`Engine.DeliveredWithoutProviderId`). What always holds is one direction only: a row with `sent_at` is `sent` (`Engine.WellStamped`).
- **A pass only sends stranded rows.** `send_immediate_sms` commits its row as `pending` (sms.py:288-292) before the gateway call (sms.py:295), and `schedule_sms` writes `scheduled`. A `pending` row therefore survives only when `send_immediate_sms` is interrupted between the insert and its update: by `KeyboardInterrupt` or `SystemExit`, which `except Exception` (sms.py:314) does not catch, or by the process being killed. Such stranded rows are the only rows a drain pass can ever send. In the model both calls run to completion (`Engine.EntryPointsLeaveNoPending`), and a pass over a store with no `pending` row changes nothing (`Engine.NothingPendingNothingSent`).
- **Unregistered gateways are treated differently.** An unregistered gateway is an error for `send_immediate_sms` and `schedule_sms`. In a drain pass the row is only logged to the application log (sms.py:355) and skipped: nothing is raised, no audit entry is written and the row is left unchanged.

## Model

| member | source | states |
|---|---|---|
| `Gateways.ProviderId` | sms.py:301 | The provider id is `sid` when `sid` is truthy, otherwise whatever `message_uuid` holds. It is truthy exactly when one of the two fields is truthy. |
| `Store.InsertMessage` | sms.py:213-224 | Inserting a message appends one row with id \|rows\|+1. The row has the given fields, no `message_id` and no `sent_at`. The id is fresh, and the other tables and the key invariant are unchanged. |
| `Store.Stamp` | sms.py:226-238 | The status is always set. `message_id` and `sent_at` (now) are set only when the provider id is truthy; otherwise they keep their old values. No other field changes. |
| `Store.UpdateRows` | sms.py:226-238 | The update changes exactly the rows whose id matches, as `Stamp` says, and leaves every other row as it was. |
| `Store.UpdateRowsMissing` | sms.py:228-237 | An update whose id names no row changes nothing, with or without a provider id. |
| `Store.UpdateStatus` | sms.py:226-238 | `update_message_status` changes only the messages table and keeps the key invariant. |
| `Store.AppendLog` | sms.py:240-246 | `add_log_entry` appends exactly one audit entry (id, status, details) and changes nothing else. |
| `Store.IsDue` | sms.py:252-253 | A row is due only if it is `pending` and its `scheduled_at` is null or has come. Every `pending` row with no schedule is due. |
| `Store.PendingMessages` | sms.py:248-257 | The due query returns exactly the rows with status `pending` and `scheduled_at` null or at most `now`, and no more rows than the table has. The model returns them in table order (see "Left out"), so ids stay increasing. |
| `Store.NoPendingNoneDue` | sms.py:248-257 | On a table with no `pending` row the due query returns nothing. |
| `Store.ScheduledNeverPending` | sms.py:252 | A row with status `scheduled` is never returned by the due query. |
| `Store.InsertContact` | sms.py:191-201 | A phone already present raises `DuplicatePhone` and leaves the tables unchanged. Otherwise one contact row with a fresh id is appended. Phones stay unique. |
| `Store.ContactsIn` | sms.py:203-211 | With a truthy group, the result holds exactly the contacts of that group. Otherwise it holds all contacts. |
| `Store.SMSDatabase.constructor` | sms.py:141-143 | A new store has three empty tables. |
| `Store.SMSDatabase.LogMessage` | sms.py:213-224 | The object's tables become `InsertMessage` of the old tables, and the new id is returned. |
| `Store.SMSDatabase.UpdateMessageStatus` | sms.py:226-238 | The object's tables become `UpdateStatus` of the old tables. |
| `Store.SMSDatabase.AddLogEntry` | sms.py:240-246 | The object's tables become `AppendLog` of the old tables. |
| `Store.SMSDatabase.GetPendingMessages` | sms.py:248-257 | Returns the due rows of the current table, with increasing ids. |
| `Store.SMSDatabase.AddContact` | sms.py:191-201 | The object's tables and the result are `InsertContact` of the old tables. |
| `Store.SMSDatabase.GetContacts` | sms.py:203-211 | Returns `ContactsIn` of the current contacts. |
| `Engine.Propagate` | sms.py:325 | A gateway exception is re-raised unchanged as `GatewayError`, and a returned value is passed through. |
| `Engine.RequestFor` | sms.py:358-361 | The send for a stored row goes to the gateway registered under the row's gateway name, with the row's own recipient and text. |
| `Engine.SettleRow` | sms.py:298-302 | The same update is made on a raise (line 318) and by the drain loop (lines 363-367 and 379). After an attempt the row is `sent` if the gateway returned a value and `failed` if it raised. A `sent` row with a truthy provider id gets that id and `sent_at` = now. Otherwise `message_id` and `sent_at` keep their old values. No other field changes. |
| `Engine.AuditFor` | sms.py:304-308 | The same entries are written on a raise (lines 319-323) and by the drain loop (lines 369-373 and 380-384). The audit entry of an attempt names the attempted row. On success it is `sent` with the payload's JSON as details. On a raise it is `failed` with the error text as details. |
| `Engine.Settle` | sms.py:298-309 | One attempt keeps the number of rows and the contacts, and appends exactly that attempt's audit entry. |
| `Engine.SettleRows` | sms.py:298-302 | One attempt changes only the row with the attempted id: to `sent` stamped with the provider id, or to `failed` with no stamp. The key invariant is kept. |
| `Engine.Dispatched` | sms.py:355-357 | The rows the loop sends are exactly the snapshot rows whose gateway is registered. Increasing ids stay increasing. |
| `Engine.AuditsFor` | sms.py:368-384 | The audit entries of a sequence of attempts are one per attempt, in order, each that attempt's entry. |
| `Engine.DrainOne` | sms.py:350-384 | One loop iteration leaves the tables unchanged when the row's gateway is unregistered. Otherwise it appends that attempt's audit entry. It never changes the number of rows or the contacts. Its row changes are given by `Engine.SettleRows`. |
| `Engine.Drain` | sms.py:350-384 | The loop over a snapshot keeps the number of message rows and the contacts. Its audit entries are given by `Engine.DrainLogs` and its rows by `Engine.DrainRows`. |
| `Engine.ProcessScheduled` | sms.py:344-384 | A pass over the due query's answer keeps the number of message rows and the contacts. `Engine.ProcessScheduledRows` gives its rows, `Engine.ProcessScheduledLogs` and `Engine.ProcessScheduledLogIds` its audit entries, and `Engine.ScheduledIsNeverSent` and `Engine.ProcessScheduledConsistent` what it preserves. |
| `Engine.AuditsOfDispatched` | sms.py:355-357 | The entries the loop writes, skipping unregistered gateways, are the entries of the dispatched rows, in order. |
| `Engine.DrainLogs` | sms.py:348-384 | A drain pass appends exactly one audit entry per row it sends, in snapshot order, and no other entry. |
| `Engine.DrainRows` | sms.py:348-384 | Over a snapshot with distinct ids, each row is settled once if its gateway is registered. Every other row is unchanged. |
| `Engine.ProcessScheduledRows` | sms.py:344-384 | After a pass, every due row with a registered gateway is `sent` or `failed` according to its own reply, whatever the other rows' replies were. Every other row is unchanged, including due rows with an unregistered gateway. |
| `Engine.ProcessScheduledLogs` | sms.py:344-384 | A pass appends exactly one audit entry per due row with a registered gateway, in the order the due query returned them (table order in the model), and no other entry. |
| `Engine.DispatchedRowsExist` | sms.py:344-357 | Every row a pass sends is the table row with that id, was due and has a registered gateway. |
| `Engine.AuditsNameRows` | sms.py:368-384 | When every attempted row is a dispatched table row, every audit entry appended for the attempts names such a row. |
| `Engine.AppendedAuditsNameDispatched` | sms.py:344-384 | The audit entries appended for the rows a pass sends name existing rows that were due with a registered gateway. |
| `Engine.ProcessScheduledLogIds` | sms.py:344-384 | Every audit entry a pass appends names an existing row that was due and had a registered gateway. |
| `Engine.SendImmediate` | sms.py:279-325 | `send_immediate_sms` raises `NotConfigured` exactly when the gateway is unregistered, and then leaves the store unchanged. Otherwise it adds one row and one audit entry. It never touches the contacts. `Engine.SendImmediateDelivered` and `Engine.SendImmediateRaised` give the two outcomes in full. |
| `Engine.Schedule` | sms.py:327-342 | `schedule_sms` succeeds exactly when the gateway is registered. Otherwise it raises `NotConfigured` and leaves the store unchanged. On success it returns the new row's fresh id and adds that one row. It never writes an audit entry and never touches the contacts. `Engine.ScheduleInserts` gives the row in full. |
| `Engine.SendImmediateShape` | sms.py:279-325 | With a registered gateway, one fresh row is added and settled by the reply. One audit entry is appended. The result is the payload or the re-raised error. |
| `Engine.UnregisteredGatewayRejected` | sms.py:281-282 | An unregistered gateway name makes both `send_immediate_sms` and `schedule_sms` raise `NotConfigured`, and the store is unchanged. |
| `Engine.SendImmediateDelivered` | sms.py:288-312 | On success, exactly one fresh row is added, with status `sent` and `message_id` taken from `sid` or else `message_uuid`. One `sent` audit entry with the payload's JSON is appended, no other row changes, and the payload is returned. |
| `Engine.DeliveredWithoutProviderId` | sms.py:298-302 | A successful send whose payload has no truthy `sid`/`message_uuid` leaves a `sent` row with no `message_id` and no `sent_at`. |
| `Engine.SendImmediateRaised` | sms.py:314-325 | On failure, the new row is `failed` with no `message_id` or `sent_at`. One `failed` audit entry whose details are the error text is appended, and the same error is re-raised. |
| `Engine.ScheduleInserts` | sms.py:327-342 | With a registered gateway, one row with a fresh id, status `scheduled` and the given time is added, and its id is returned. No audit entry is written. |
| `Engine.ScheduledIsNeverSent` | sms.py:333-346 | After `schedule_sms`, the next drain pass leaves the scheduled row `scheduled` and writes no audit entry for it, whatever the clock, registry or replies. |
| `Engine.EntryPointsLeaveNoPending` | sms.py:279-342 | When both calls run to completion, neither `send_immediate_sms` nor `schedule_sms` leaves a `pending` row behind: the one row they insert is settled or `scheduled`. |
| `Engine.NothingPendingNothingSent` | sms.py:344-384 | A pass over a store with no `pending` row sends nothing and changes nothing. |
| `Engine.SettlePendingWellStamped` | sms.py:226-238 | Settling a stamp-free `pending` row gives a row whose `message_id` and `sent_at` are set together and only when it is `sent`. |
| `Engine.SendImmediateConsistent` | sms.py:279-325 | `send_immediate_sms` preserves `Consistent`. |
| `Engine.ScheduleConsistent` | sms.py:327-342 | `schedule_sms` preserves `Consistent`. |
| `Engine.ProcessScheduledWellStamped` | sms.py:344-384 | After a pass every row keeps its key and is still well stamped. |
| `Engine.ProcessScheduledConsistent` | sms.py:344-384 | `process_scheduled_messages` preserves `Consistent`. |
| `Engine.SMSMessenger.constructor` | sms.py:266-269 | A new messenger has an empty store and an empty registry. |
| `Engine.SMSMessenger.AddGateway` | sms.py:274-277 | The registry maps the name to the gateway (replacing any earlier one) and is otherwise unchanged. |
| `Engine.SMSMessenger.SendImmediateSms` | sms.py:279-325 | The new store and the result are `SendImmediate` of the old store, and `Consistent` is kept. |
| `Engine.SMSMessenger.ScheduleSms` | sms.py:327-342 | The new store and the result are `Schedule` of the old store. |
| `Engine.SMSMessenger.ProcessScheduledMessages` | sms.py:344-384 | The loop over the due snapshot leaves the store equal to `ProcessScheduled` of the old store. |
| `Engine.SMSMessenger.CheckDeliveryStatus` | sms.py:386-392 | An unregistered gateway raises `NotConfigured`. Otherwise the gateway's answer is returned, or its exception is re-raised. |
| `Engine.SMSMessenger.GetGatewayBalance` | sms.py:394-400 | An unregistered gateway raises `NotConfigured`. Otherwise the gateway's balance is returned, or its exception is re-raised. |
| `Engine.SMSMessenger.AddContact` | sms.py:402-404 | Delegates to the store's `add_contact`. |
| `Engine.SMSMessenger.GetContacts` | sms.py:406-408 | Delegates to the store's `get_contacts`. |

## Left out

- HTTP in `TwilioGateway`/`PlivoGateway` is not modelled: URL building, credentials, the choice of sender id, `requests.post`/`get`, the 201/202/200 status-code checks and the error-message prefixes. Each gateway call is reduced to its reply: a value, or an exception with its text.
- `get_balance` float parsing is left out. A balance reply is a `real` supplied by the `backend` parameter.
- Payloads are simplified. `json.dumps` is not modelled: a payload carries its JSON text as an opaque string. Only string-valued top-level fields are modelled, and the model takes them as given; JSON decoding is not modelled.
- Engine.SendImmediate: the insert, send and update of `send_immediate_sms` (sms.py:288-302) happen as one step in the model. The interruption path is not modelled: a `KeyboardInterrupt` or `SystemExit` during the gateway call escapes `except Exception` (sms.py:314), and so does a killed process, leaving the row `pending` with no audit entry for a later pass to send. For this reason the drain lemmas (`Engine.ProcessScheduledRows`, `Engine.ProcessScheduledLogs` and the others) are stated for any `WellFormed` tables, including tables holding such stranded rows, and not only for tables the model's entry points can reach.
- Storage failures are not modelled, including the path where `log_message` raises and `db_message_id` is read unassigned (sms.py:317). In the model, `log_message` always returns an id of at least 1, so the guard at sms.py:317 always holds.
- SQLite plumbing is left out: connection, table creation, commits and mapping cursor rows to dicts. Rows are Dafny records.
- The `created_at` columns are left out. The engine never reads them.
- The `status` column is free text in SQLite. It is modelled as the four values the engine writes.
- Timestamps are integers. SQLite's comparison of the stored `scheduled_at` text with `datetime('now')` is modelled as integer `<=`.
- There is one clock reading per call. Every row a drain pass stamps gets the same `now` that the due query used. In the source each UPDATE reads `CURRENT_TIMESTAMP` afresh (sms.py:230), so later rows of a pass can get later `sent_at` values.
- The order of query results is fixed by the model. Neither the due query (sms.py:250-254) nor the contacts query (sms.py:206-208) has an ORDER BY, so SQLite promises no order. The model returns rows in table order, and the order in which a pass sends rows and appends audit entries follows from that choice.
- The store is in memory and starts empty. `SMSDatabase.__init__` opens the file `sms_messenger.db` (`db_path`) with `CREATE TABLE IF NOT EXISTS` (sms.py:141-143), so a new store keeps the rows of earlier runs. That is how a message stored by `send --schedule` reaches the table of a later `scheduler` run (sms.py:496-498, 533-535), where the due query still skips it. Both constructors start from empty tables and take no path. The lemmas about the entry points hold for any tables that are `WellFormed` (and `Consistent` where they say so), including tables left by earlier runs.
- The logs table's own AUTOINCREMENT `id` column (sms.py:180) is not modelled. Audit entries are identified by their position in the log.
- Application logging is not modelled: the `self.logger` calls in the engine (sms.py:277, 311, 315, 341, 355, 375, 378) write only to the application log, never to the tables.
- `run_scheduler` is not modelled: the `schedule` timer, `time.sleep` and `KeyboardInterrupt`. One drain pass is `ProcessScheduledMessages`.
- Concurrency is not modelled: concurrent drain passes and several workers.
- `main` is not modelled: the CLI, `input`/`getpass` prompts, logging setup and `close`.
