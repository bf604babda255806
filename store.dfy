/**
  The message store (`SMSDatabase`): the messages, logs and contacts tables held in memory.

  Rows are kept in insertion order. The tables use AUTOINCREMENT keys and nothing ever deletes
  a row, so the k-th row (from 0) has id k + 1 and a new row gets id |rows| + 1.
  The pure functions below are the table operations; the class applies them in place.
 */
module Store {
  import opened Wrappers
  import opened Errors

  /** Seconds on the store's clock; CURRENT_TIMESTAMP and datetime('now') both read it. */
  type Timestamp = int

  datatype Status = Pending | Scheduled | Sent | Failed

  /** A row of the messages table. `providerId` is the `message_id` column. */
  datatype Message = Message(
    id: nat,
    contactId: Option<nat>,
    recipient: string,
    text: string,
    status: Status,
    gateway: string,
    providerId: Option<string>,
    scheduledAt: Option<Timestamp>,
    sentAt: Option<Timestamp>)

  /** A row of the logs (audit) table. */
  datatype LogEntry = LogEntry(messageId: nat, status: Status, details: string)

  /** A row of the contacts table. */
  datatype Contact = Contact(id: nat, name: string, phone: string, email: Option<string>, group: Option<string>)

  datatype Tables = Tables(messages: seq<Message>, logs: seq<LogEntry>, contacts: seq<Contact>)

  const Empty := Tables([], [], [])

  /** The keys are the AUTOINCREMENT ids 1, 2, ... and phone numbers are UNIQUE. */
  predicate WellFormed(t: Tables)
  {
    (forall k :: 0 <= k < |t.messages| ==> t.messages[k].id == k + 1) &&
    (forall k :: 0 <= k < |t.contacts| ==> t.contacts[k].id == k + 1) &&
    (forall i, j :: 0 <= i < j < |t.contacts| ==> t.contacts[i].phone != t.contacts[j].phone)
  }

  ghost function Ids(rows: seq<Message>): set<nat>
  {
    set m | m in rows :: m.id
  }

  predicate IdsIncreasing(rows: seq<Message>)
  {
    forall i, j :: 0 <= i < j < |rows| ==> rows[i].id < rows[j].id
  }

  /** With increasing ids, the first row's id is below that of every later row. */
  lemma HeadIdSmallest(rows: seq<Message>)
    requires rows != [] && IdsIncreasing(rows)
    ensures forall m :: m in rows[1..] ==> rows[0].id < m.id
  {
    forall m | m in rows[1..] ensures rows[0].id < m.id {
      var i :| 0 <= i < |rows[1..]| && rows[1..][i] == m;
      assert rows[i + 1] == m;
    }
  }

  /** A row whose id is below every id of an increasing sequence can be put in front of it. */
  lemma ConsIncreasing(m: Message, rows: seq<Message>)
    requires IdsIncreasing(rows) && forall r :: r in rows ==> m.id < r.id
    ensures IdsIncreasing([m] + rows)
  {
    var s := [m] + rows;
    forall i, j | 0 <= i < j < |s| ensures s[i].id < s[j].id {
      assert s[j] == rows[j - 1];
      if i > 0 {
        assert s[i] == rows[i - 1];
      } else {
        assert rows[j - 1] in rows;
      }
    }
  }

  // ---------------------------------------------------------------------------------------
  // log_message

  /** INSERT INTO messages: returns the new table and the new row's id. */
  function InsertMessage(t: Tables, recipient: string, text: string, gateway: string, status: Status,
                         scheduledAt: Option<Timestamp>, contactId: Option<nat>): (r: (Tables, nat))
    ensures r.1 == |t.messages| + 1
    ensures r.0.messages == t.messages + [Message(r.1, contactId, recipient, text, status, gateway, None, scheduledAt, None)]
    ensures r.0.logs == t.logs && r.0.contacts == t.contacts
    ensures WellFormed(t) ==> WellFormed(r.0) && r.1 !in Ids(t.messages)
  {
    var id := |t.messages| + 1;
    (t.(messages := t.messages + [Message(id, contactId, recipient, text, status, gateway, None, scheduledAt, None)]), id)
  }

  // ---------------------------------------------------------------------------------------
  // update_message_status

  /**
    The new value of one row under `UPDATE messages SET status = ...`: the status is always
    set; `message_id` and `sent_at` are set only when the provider id is truthy.
   */
  function Stamp(m: Message, status: Status, providerId: Option<string>, now: Timestamp): (r: Message)
    ensures r.status == status
    ensures Truthy(providerId) ==> r.providerId == providerId && r.sentAt == Some(now)
    ensures !Truthy(providerId) ==> r.providerId == m.providerId && r.sentAt == m.sentAt
    ensures r.(status := m.status, providerId := m.providerId, sentAt := m.sentAt) == m
  {
    if Truthy(providerId) then m.(status := status, providerId := providerId, sentAt := Some(now))
    else m.(status := status)
  }

  /** Every row whose id is `id` is stamped; every other row is left as it was. */
  function UpdateRows(rows: seq<Message>, id: nat, status: Status, providerId: Option<string>, now: Timestamp): (r: seq<Message>)
    ensures |r| == |rows|
    ensures forall k :: 0 <= k < |rows| ==>
      r[k] == if rows[k].id == id then Stamp(rows[k], status, providerId, now) else rows[k]
  {
    if rows == [] then []
    else [if rows[0].id == id then Stamp(rows[0], status, providerId, now) else rows[0]]
         + UpdateRows(rows[1..], id, status, providerId, now)
  }

  /** An UPDATE with an id that names no row changes nothing. */
  lemma {:induction false} UpdateRowsMissing(rows: seq<Message>, id: nat, status: Status, providerId: Option<string>, now: Timestamp)
    requires id !in Ids(rows)
    ensures UpdateRows(rows, id, status, providerId, now) == rows
  {
    var r := UpdateRows(rows, id, status, providerId, now);
    forall k | 0 <= k < |rows| ensures r[k] == rows[k] {
      assert rows[k] in rows;
    }
  }

  function UpdateStatus(t: Tables, id: nat, status: Status, providerId: Option<string>, now: Timestamp): (r: Tables)
    ensures r.messages == UpdateRows(t.messages, id, status, providerId, now)
    ensures r.logs == t.logs && r.contacts == t.contacts
    ensures WellFormed(t) ==> WellFormed(r)
  {
    t.(messages := UpdateRows(t.messages, id, status, providerId, now))
  }

  // ---------------------------------------------------------------------------------------
  // add_log_entry

  function AppendLog(t: Tables, id: nat, status: Status, details: string): (r: Tables)
    ensures r.logs == t.logs + [LogEntry(id, status, details)]
    ensures r.messages == t.messages && r.contacts == t.contacts
    ensures WellFormed(t) ==> WellFormed(r)
  {
    t.(logs := t.logs + [LogEntry(id, status, details)])
  }

  // ---------------------------------------------------------------------------------------
  // get_pending_messages

  /** The WHERE clause of the due query: status 'pending' and no schedule, or a schedule that has come. */
  predicate IsDue(m: Message, now: Timestamp)
    ensures IsDue(m, now) ==> m.status == Pending && (m.scheduledAt.Some? ==> m.scheduledAt.value <= now)
    ensures m.status == Pending && m.scheduledAt.None? ==> IsDue(m, now)
  {
    m.status == Pending && (m.scheduledAt.None? || m.scheduledAt.value <= now)
  }

  /** The rows the due query selects, in table order. */
  function PendingMessages(rows: seq<Message>, now: Timestamp): (r: seq<Message>)
    ensures forall m :: m in r <==> m in rows && IsDue(m, now)
    ensures |r| <= |rows|
    ensures IdsIncreasing(rows) ==> IdsIncreasing(r)
  {
    if rows == [] then []
    else
      var rest := PendingMessages(rows[1..], now);
      assert IdsIncreasing(rows) ==> IdsIncreasing([rows[0]] + rest) by {
        if IdsIncreasing(rows) {
          HeadIdSmallest(rows);
          ConsIncreasing(rows[0], rest);
        }
      }
      if IsDue(rows[0], now) then [rows[0]] + rest else rest
  }

  /** On a table without 'pending' rows the due query returns nothing. */
  lemma {:induction false} NoPendingNoneDue(rows: seq<Message>, now: Timestamp)
    requires forall k :: 0 <= k < |rows| ==> rows[k].status != Pending
    ensures PendingMessages(rows, now) == []
  {
    if rows != [] {
      NoPendingNoneDue(rows[1..], now);
    }
  }

  /** A row whose status is 'scheduled' is never selected by the due query. */
  lemma ScheduledNeverPending(rows: seq<Message>, now: Timestamp, m: Message)
    requires m.status == Scheduled
    ensures m !in PendingMessages(rows, now)
  {
  }

  // ---------------------------------------------------------------------------------------
  // add_contact, get_contacts

  predicate HasPhone(contacts: seq<Contact>, phone: string)
  {
    exists c | c in contacts :: c.phone == phone
  }

  /** INSERT INTO contacts: the UNIQUE constraint on phone turns a duplicate into a ValueError. */
  function InsertContact(t: Tables, name: string, phone: string, email: Option<string>, group: Option<string>): (r: (Tables, Result<nat, Error>))
    ensures r.1.Err? <==> HasPhone(t.contacts, phone)
    ensures r.1.Err? ==> r.0 == t && r.1.error == DuplicatePhone(phone)
    ensures r.1.Ok? ==>
      r.1.value == |t.contacts| + 1 && r.0.contacts == t.contacts + [Contact(r.1.value, name, phone, email, group)]
    ensures r.0.messages == t.messages && r.0.logs == t.logs
    ensures WellFormed(t) ==> WellFormed(r.0)
  {
    if HasPhone(t.contacts, phone) then (t, Err(DuplicatePhone(phone)))
    else
      var id := |t.contacts| + 1;
      var t' := t.(contacts := t.contacts + [Contact(id, name, phone, email, group)]);
      assert WellFormed(t) ==> WellFormed(t') by {
        if WellFormed(t) {
          forall i | 0 <= i < |t.contacts| ensures t.contacts[i].phone != phone {
            assert t.contacts[i] in t.contacts;
          }
        }
      }
      (t', Ok(id))
  }

  /** The contacts query: with a truthy group, only that group's rows; otherwise every row. */
  function ContactsIn(contacts: seq<Contact>, group: Option<string>): (r: seq<Contact>)
    ensures forall c :: c in r <==> c in contacts && (Truthy(group) ==> c.group == group)
    ensures !Truthy(group) ==> r == contacts
  {
    if contacts == [] then []
    else
      var rest := ContactsIn(contacts[1..], group);
      assert contacts == [contacts[0]] + contacts[1..];
      if !Truthy(group) || contacts[0].group == group then [contacts[0]] + rest else rest
  }

  // ---------------------------------------------------------------------------------------

  /** The store object: the three tables, changed in place by its methods. */
  class SMSDatabase {
    var messages: seq<Message>
    var logs: seq<LogEntry>
    var contacts: seq<Contact>

    function State(): Tables
      reads this
    {
      Tables(messages, logs, contacts)
    }

    ghost predicate Valid()
      reads this
    {
      WellFormed(State())
    }

    /** A freshly created database: all three tables empty. */
    constructor ()
      ensures Valid() && State() == Empty
    {
      messages, logs, contacts := [], [], [];
    }

    method LogMessage(recipient: string, text: string, gateway: string, status: Status,
                      scheduledAt: Option<Timestamp>, contactId: Option<nat>) returns (id: nat)
      requires Valid()
      modifies this
      ensures Valid()
      ensures (State(), id) == InsertMessage(old(State()), recipient, text, gateway, status, scheduledAt, contactId)
    {
      id := |messages| + 1;
      messages := messages + [Message(id, contactId, recipient, text, status, gateway, None, scheduledAt, None)];
    }

    method UpdateMessageStatus(id: nat, status: Status, providerId: Option<string>, now: Timestamp)
      requires Valid()
      modifies this
      ensures Valid()
      ensures State() == UpdateStatus(old(State()), id, status, providerId, now)
    {
      messages := UpdateRows(messages, id, status, providerId, now);
    }

    method AddLogEntry(id: nat, status: Status, details: string)
      requires Valid()
      modifies this
      ensures Valid()
      ensures State() == AppendLog(old(State()), id, status, details)
    {
      logs := logs + [LogEntry(id, status, details)];
    }

    method GetPendingMessages(now: Timestamp) returns (due: seq<Message>)
      requires Valid()
      ensures due == PendingMessages(messages, now)
      ensures IdsIncreasing(due)
    {
      due := PendingMessages(messages, now);
    }

    method AddContact(name: string, phone: string, email: Option<string>, group: Option<string>) returns (r: Result<nat, Error>)
      requires Valid()
      modifies this
      ensures Valid()
      ensures (State(), r) == InsertContact(old(State()), name, phone, email, group)
    {
      if HasPhone(contacts, phone) {
        r := Err(DuplicatePhone(phone));
      } else {
        r := Ok(|contacts| + 1);
        contacts := contacts + [Contact(|contacts| + 1, name, phone, email, group)];
      }
    }

    method GetContacts(group: Option<string>) returns (rows: seq<Contact>)
      ensures rows == ContactsIn(contacts, group)
    {
      rows := ContactsIn(contacts, group);
    }
  }
}
