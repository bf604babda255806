/**
  The lifecycle engine (`SMSMessenger`): a registry of gateways and the message state machine.

  `SendImmediate`, `Schedule` and `ProcessScheduled` say, as functions of the tables, what the
  engine's three entry points do; the class `SMSMessenger` performs them step by step on an
  `SMSDatabase` and is proved to agree with them. The lemmas state what those effects mean:
  which rows change, to what, and which audit entries appear.
 */
module Engine {
  import opened Wrappers
  import opened Errors
  import opened Gateways
  import opened Store

  /** `self.gateways`: gateway name to configured gateway. */
  type Registry = map<string, Gateway>

  /** The `send_sms` call made for a stored row whose gateway is registered. */
  function RequestFor(m: Message, gateways: Registry): (r: Request)
    requires m.gateway in gateways
    ensures r.gateway == gateways[m.gateway] && r.recipient == m.recipient && r.text == m.text
  {
    Request(gateways[m.gateway], m.recipient, m.text)
  }

  /** A gateway's exception, re-raised to the engine's caller unchanged. */
  function Propagate<T>(reply: Reply<T>): (r: Result<T, Error>)
    ensures r.Ok? <==> reply.Ok?
    ensures reply.Ok? ==> r.value == reply.value
    ensures reply.Err? ==> r.error == GatewayError(reply.error)
  {
    match reply
    case Ok(v) => Ok(v)
    case Err(e) => Err(GatewayError(e))
  }

  // ---------------------------------------------------------------------------------------
  // One delivery attempt: what is recorded once the gateway has answered

  /** The row after an attempt: 'sent' (stamped with the provider id) or 'failed' (not stamped). */
  function SettleRow(m: Message, reply: Reply<Payload>, now: Timestamp): (r: Message)
    ensures r.status == if reply.Ok? then Sent else Failed
    ensures reply.Ok? && Truthy(ProviderId(reply.value)) ==> r.providerId == ProviderId(reply.value) && r.sentAt == Some(now)
    ensures reply.Ok? && !Truthy(ProviderId(reply.value)) ==> r.providerId == m.providerId && r.sentAt == m.sentAt
    ensures reply.Err? ==> r.providerId == m.providerId && r.sentAt == m.sentAt
    ensures r.(status := m.status, providerId := m.providerId, sentAt := m.sentAt) == m
  {
    match reply
    case Ok(p) => Stamp(m, Sent, ProviderId(p), now)
    case Err(_) => Stamp(m, Failed, None, now)
  }

  /** The audit entry of an attempt: the payload's JSON when sent, the error text when failed. */
  function AuditFor(id: nat, reply: Reply<Payload>): (r: LogEntry)
    ensures r.messageId == id
    ensures reply.Ok? ==> r.status == Sent && r.details == reply.value.json
    ensures reply.Err? ==> r.status == Failed && r.details == reply.error
  {
    match reply
    case Ok(p) => LogEntry(id, Sent, p.json)
    case Err(e) => LogEntry(id, Failed, e)
  }

  /** update_message_status followed by add_log_entry, for the outcome of a send. */
  function Settle(t: Tables, id: nat, reply: Reply<Payload>, now: Timestamp): (r: Tables)
    ensures |r.messages| == |t.messages|
    ensures r.logs == t.logs + [AuditFor(id, reply)]
    ensures r.contacts == t.contacts
  {
    var (status, providerId) := match reply
      case Ok(p) => (Sent, ProviderId(p))
      case Err(_) => (Failed, None);
    Tables(UpdateRows(t.messages, id, status, providerId, now), t.logs + [AuditFor(id, reply)], t.contacts)
  }

  /** An attempt changes only the row it was made for, to what `SettleRow` says. */
  lemma SettleRows(t: Tables, id: nat, reply: Reply<Payload>, now: Timestamp)
    ensures forall k :: 0 <= k < |t.messages| ==>
      Settle(t, id, reply, now).messages[k] == if t.messages[k].id == id then SettleRow(t.messages[k], reply, now) else t.messages[k]
    ensures WellFormed(t) ==> WellFormed(Settle(t, id, reply, now))
  {
  }

  // ---------------------------------------------------------------------------------------
  // The three entry points as functions of the tables

  /** send_immediate_sms: check the registry, insert a 'pending' row, send, record, return or re-raise. */
  function SendImmediate(t: Tables, gateways: Registry, name: string, recipient: string, text: string,
                         network: Network, now: Timestamp): (r: (Tables, Result<Payload, Error>))
    ensures r.1 == Err(NotConfigured(name)) <==> name !in gateways
    ensures name !in gateways ==> r.0 == t
    ensures name in gateways ==> |r.0.messages| == |t.messages| + 1 && |r.0.logs| == |t.logs| + 1
    ensures r.0.contacts == t.contacts
  {
    if name !in gateways then (t, Err(NotConfigured(name)))
    else
      var (t1, id) := InsertMessage(t, recipient, text, name, Pending, None, None);
      var reply := network(id, Request(gateways[name], recipient, text));
      (Settle(t1, id, reply, now), Propagate(reply))
  }

  /** schedule_sms: check the registry and insert a 'scheduled' row; nothing is sent. */
  function Schedule(t: Tables, gateways: Registry, name: string, recipient: string, text: string,
                    when: Timestamp): (r: (Tables, Result<nat, Error>))
    ensures r.1.Ok? <==> name in gateways
    ensures name !in gateways ==> r == (t, Err(NotConfigured(name)))
    ensures r.1.Ok? ==> r.1.value == |t.messages| + 1 && |r.0.messages| == |t.messages| + 1
    ensures r.0.logs == t.logs && r.0.contacts == t.contacts
  {
    if name !in gateways then (t, Err(NotConfigured(name)))
    else
      var (t1, id) := InsertMessage(t, recipient, text, name, Scheduled, Some(when), None);
      (t1, Ok(id))
  }

  /** One iteration of the dispatch loop: skip an unregistered gateway, otherwise send and record. */
  function DrainOne(t: Tables, m: Message, gateways: Registry, network: Network, now: Timestamp): (r: Tables)
    ensures m.gateway !in gateways ==> r == t
    ensures m.gateway in gateways ==> r.logs == t.logs + [AuditFor(m.id, network(m.id, RequestFor(m, gateways)))]
    ensures |r.messages| == |t.messages| && r.contacts == t.contacts
  {
    if m.gateway !in gateways then t
    else Settle(t, m.id, network(m.id, RequestFor(m, gateways)), now)
  }

  /** The dispatch loop over a snapshot of due rows, in order, without stopping at a failure. */
  function Drain(t: Tables, due: seq<Message>, gateways: Registry, network: Network, now: Timestamp): (r: Tables)
    ensures |r.messages| == |t.messages| && r.contacts == t.contacts
    decreases |due|
  {
    if due == [] then t
    else Drain(DrainOne(t, due[0], gateways, network, now), due[1..], gateways, network, now)
  }

  /** process_scheduled_messages: the dispatch loop over the due query's answer. */
  function ProcessScheduled(t: Tables, gateways: Registry, network: Network, now: Timestamp): (r: Tables)
    ensures |r.messages| == |t.messages| && r.contacts == t.contacts
  {
    Drain(t, PendingMessages(t.messages, now), gateways, network, now)
  }

  // ---------------------------------------------------------------------------------------
  // Helpers for reasoning about a drain pass

  /** A row of `rows` with the given id, if there is one; callers use it only where ids are distinct. */
  function FindById(rows: seq<Message>, id: nat): (r: Option<Message>)
    ensures r.Some? ==> r.value in rows && r.value.id == id
    ensures r.None? ==> forall m :: m in rows ==> m.id != id
  {
    if rows == [] then None
    else if rows[0].id == id then Some(rows[0])
    else FindById(rows[1..], id)
  }

  /** The rows of a snapshot whose gateway is registered: the ones the loop sends. */
  function Dispatched(due: seq<Message>, gateways: Registry): (r: seq<Message>)
    ensures forall m :: m in r <==> m in due && m.gateway in gateways
    ensures IdsIncreasing(due) ==> IdsIncreasing(r)
  {
    if due == [] then []
    else
      var rest := Dispatched(due[1..], gateways);
      assert IdsIncreasing(due) ==> IdsIncreasing([due[0]] + rest) by {
        if IdsIncreasing(due) {
          HeadIdSmallest(due);
          ConsIncreasing(due[0], rest);
        }
      }
      if due[0].gateway in gateways then [due[0]] + rest else rest
  }

  /** The audit entries of a sequence of attempts, one per attempt, in order. */
  function AuditsFor(ds: seq<Message>, gateways: Registry, network: Network): (r: seq<LogEntry>)
    requires forall m :: m in ds ==> m.gateway in gateways
    ensures |r| == |ds|
    ensures forall i :: 0 <= i < |ds| ==> r[i] == AuditFor(ds[i].id, network(ds[i].id, RequestFor(ds[i], gateways)))
  {
    if ds == [] then []
    else [AuditFor(ds[0].id, network(ds[0].id, RequestFor(ds[0], gateways)))] + AuditsFor(ds[1..], gateways, network)
  }

  /** Where a row ends after a drain pass over `due`: settled if it was sent, unchanged otherwise. */
  function FinalRow(m: Message, due: seq<Message>, gateways: Registry, network: Network, now: Timestamp): Message
  {
    match FindById(due, m.id)
    case None => m
    case Some(d) =>
      if d.gateway in gateways then SettleRow(m, network(d.id, RequestFor(d, gateways)), now) else m
  }

  /** The audit entries a drain pass over `due` writes: one per row whose gateway is registered. */
  function AuditsOf(due: seq<Message>, gateways: Registry, network: Network): seq<LogEntry>
  {
    if due == [] then []
    else
      (if due[0].gateway in gateways then [AuditFor(due[0].id, network(due[0].id, RequestFor(due[0], gateways)))] else [])
      + AuditsOf(due[1..], gateways, network)
  }

  /** The entries of `AuditsOf` are those of the sent rows, in order. */
  lemma {:induction false} AuditsOfDispatched(due: seq<Message>, gateways: Registry, network: Network)
    ensures AuditsOf(due, gateways, network) == AuditsFor(Dispatched(due, gateways), gateways, network)
  {
    if due != [] {
      var d := due[0];
      var rest := Dispatched(due[1..], gateways);
      AuditsOfDispatched(due[1..], gateways, network);
      if d.gateway in gateways {
        assert Dispatched(due, gateways) == [d] + rest;
        assert ([d] + rest)[1..] == rest;
      }
    }
  }

  /** A drain pass appends the audit entries of the rows it sends, in snapshot order. */
  lemma {:induction false} DrainLogs(t: Tables, due: seq<Message>, gateways: Registry, network: Network, now: Timestamp)
    ensures Drain(t, due, gateways, network, now).logs == t.logs + AuditsOf(due, gateways, network)
    decreases |due|
  {
    if due != [] {
      var d := due[0];
      var t1 := DrainOne(t, d, gateways, network, now);
      var later := AuditsOf(due[1..], gateways, network);
      assert Drain(t, due, gateways, network, now) == Drain(t1, due[1..], gateways, network, now);
      DrainLogs(t1, due[1..], gateways, network, now);
      if d.gateway in gateways {
        var e := AuditFor(d.id, network(d.id, RequestFor(d, gateways)));
        assert AuditsOf(due, gateways, network) == [e] + later;
        assert (t.logs + [e]) + later == t.logs + ([e] + later);
      } else {
        assert AuditsOf(due, gateways, network) == later;
      }
    }
  }

  /** A drain pass over a snapshot with distinct ids settles each sent row once and leaves the rest alone. */
  lemma {:induction false} DrainRows(t: Tables, due: seq<Message>, gateways: Registry, network: Network, now: Timestamp)
    requires IdsIncreasing(due)
    ensures |Drain(t, due, gateways, network, now).messages| == |t.messages|
    ensures forall k :: 0 <= k < |t.messages| ==>
      Drain(t, due, gateways, network, now).messages[k] == FinalRow(t.messages[k], due, gateways, network, now)
    decreases |due|
  {
    if due != [] {
      var t1 := DrainOne(t, due[0], gateways, network, now);
      DrainRows(t1, due[1..], gateways, network, now);
      forall k | 0 <= k < |t.messages|
        ensures Drain(t, due, gateways, network, now).messages[k] == FinalRow(t.messages[k], due, gateways, network, now)
      {
        var m := t.messages[k];
        if m.id == due[0].id {
          assert FindById(due, m.id) == Some(due[0]);
          assert FindById(due[1..], m.id) == None by {
            forall d | d in due[1..] ensures d.id != m.id {
              var i :| 0 <= i < |due[1..]| && due[1..][i] == d;
              assert due[i + 1] == d;
            }
          }
        } else {
          assert t1.messages[k] == m;
        }
      }
    }
  }

  // ---------------------------------------------------------------------------------------
  // What a drain pass over the due query does to the whole store

  /** The rows the dispatch loop sends: due ones whose gateway is registered. */
  predicate IsDispatched(m: Message, gateways: Registry, now: Timestamp)
  {
    IsDue(m, now) && m.gateway in gateways
  }

  /**
    After process_scheduled_messages every row that was due and had a registered gateway is
    'sent' or 'failed' according to its own gateway reply; every other row, including each due
    row whose gateway is not registered, is unchanged. A failure does not stop the pass.
   */
  lemma {:induction false} ProcessScheduledRows(t: Tables, gateways: Registry, network: Network, now: Timestamp)
    requires WellFormed(t)
    ensures var t' := ProcessScheduled(t, gateways, network, now);
      |t'.messages| == |t.messages| && t'.contacts == t.contacts &&
      forall k :: 0 <= k < |t.messages| ==>
        t'.messages[k] ==
          if IsDispatched(t.messages[k], gateways, now)
          then SettleRow(t.messages[k], network(t.messages[k].id, RequestFor(t.messages[k], gateways)), now)
          else t.messages[k]
  {
    var due := PendingMessages(t.messages, now);
    DrainRows(t, due, gateways, network, now);
    forall k | 0 <= k < |t.messages|
      ensures FinalRow(t.messages[k], due, gateways, network, now) ==
        if IsDispatched(t.messages[k], gateways, now)
        then SettleRow(t.messages[k], network(t.messages[k].id, RequestFor(t.messages[k], gateways)), now)
        else t.messages[k]
    {
      var m := t.messages[k];
      match FindById(due, m.id)
      case None =>
        assert !IsDue(m, now);
      case Some(d) =>
        assert d == m;
    }
  }

  /**
    After process_scheduled_messages the audit table has gained exactly one entry per sent row,
    in table order, each with that row's id and outcome; nothing else was appended.
   */
  lemma {:induction false} ProcessScheduledLogs(t: Tables, gateways: Registry, network: Network, now: Timestamp)
    requires WellFormed(t)
    ensures var sent := Dispatched(PendingMessages(t.messages, now), gateways);
      (forall m :: m in sent <==> m in t.messages && IsDispatched(m, gateways, now)) &&
      IdsIncreasing(sent) &&
      ProcessScheduled(t, gateways, network, now).logs == t.logs + AuditsFor(sent, gateways, network)
  {
    DrainLogs(t, PendingMessages(t.messages, now), gateways, network, now);
    AuditsOfDispatched(PendingMessages(t.messages, now), gateways, network);
  }

  /** Each row a pass sends is the table row with its id, and was due with a registered gateway. */
  lemma DispatchedRowsExist(t: Tables, sent: seq<Message>, gateways: Registry, now: Timestamp)
    requires WellFormed(t)
    requires sent == Dispatched(PendingMessages(t.messages, now), gateways)
    ensures forall m :: m in sent ==> m.gateway in gateways
    ensures forall i :: 0 <= i < |sent| ==>
      1 <= sent[i].id <= |t.messages| && t.messages[sent[i].id - 1] == sent[i] && IsDispatched(sent[i], gateways, now)
  {
    forall i | 0 <= i < |sent|
      ensures 1 <= sent[i].id <= |t.messages| && t.messages[sent[i].id - 1] == sent[i] && IsDispatched(sent[i], gateways, now)
    {
      assert sent[i] in sent;
      var k :| 0 <= k < |t.messages| && t.messages[k] == sent[i];
    }
  }

  /** Audit entries appended for rows that exist and were dispatched name such rows. */
  lemma AuditsNameRows(t: Tables, sent: seq<Message>, logs: seq<LogEntry>, gateways: Registry, network: Network, now: Timestamp)
    requires forall m :: m in sent ==> m.gateway in gateways
    requires forall i :: 0 <= i < |sent| ==>
      1 <= sent[i].id <= |t.messages| && t.messages[sent[i].id - 1] == sent[i] && IsDispatched(sent[i], gateways, now)
    requires logs == t.logs + AuditsFor(sent, gateways, network)
    ensures |logs| >= |t.logs|
    ensures forall j :: |t.logs| <= j < |logs| ==>
      1 <= logs[j].messageId <= |t.messages| && IsDispatched(t.messages[logs[j].messageId - 1], gateways, now)
  {
    var added := AuditsFor(sent, gateways, network);
    forall j | |t.logs| <= j < |logs|
      ensures 1 <= logs[j].messageId <= |t.messages| && IsDispatched(t.messages[logs[j].messageId - 1], gateways, now)
    {
      var i := j - |t.logs|;
      assert logs[j] == added[i];
      assert added[i].messageId == sent[i].id;
    }
  }

  /** The audit entries appended for the rows a pass sends name rows that were due with a registered gateway. */
  lemma AppendedAuditsNameDispatched(t: Tables, logs: seq<LogEntry>, gateways: Registry, network: Network, now: Timestamp)
    requires WellFormed(t)
    requires logs == t.logs + AuditsFor(Dispatched(PendingMessages(t.messages, now), gateways), gateways, network)
    ensures |logs| >= |t.logs|
    ensures forall j :: |t.logs| <= j < |logs| ==>
      1 <= logs[j].messageId <= |t.messages| && IsDispatched(t.messages[logs[j].messageId - 1], gateways, now)
  {
    var sent := Dispatched(PendingMessages(t.messages, now), gateways);
    DispatchedRowsExist(t, sent, gateways, now);
    AuditsNameRows(t, sent, logs, gateways, network, now);
  }

  /** Every audit entry a pass appends names a row that was due with a registered gateway. */
  lemma ProcessScheduledLogIds(t: Tables, gateways: Registry, network: Network, now: Timestamp)
    requires WellFormed(t)
    ensures var t' := ProcessScheduled(t, gateways, network, now);
      |t'.logs| >= |t.logs| &&
      forall j :: |t.logs| <= j < |t'.logs| ==>
        1 <= t'.logs[j].messageId <= |t.messages| && IsDispatched(t.messages[t'.logs[j].messageId - 1], gateways, now)
  {
    var logs := ProcessScheduled(t, gateways, network, now).logs;
    assert logs == t.logs + AuditsFor(Dispatched(PendingMessages(t.messages, now), gateways), gateways, network) by {
      ProcessScheduledLogs(t, gateways, network, now);
    }
    AppendedAuditsNameDispatched(t, logs, gateways, network, now);
  }

  // ---------------------------------------------------------------------------------------
  // send_immediate_sms and schedule_sms

  /** The row send_immediate_sms inserts before calling the gateway. */
  function NewPending(id: nat, name: string, recipient: string, text: string): Message
  {
    Message(id, None, recipient, text, Pending, name, None, None, None)
  }

  /** With a registered gateway, send_immediate_sms adds one row, settled by the reply, and one audit entry. */
  lemma SendImmediateShape(t: Tables, gateways: Registry, name: string, recipient: string, text: string,
                           network: Network, now: Timestamp)
    requires WellFormed(t) && name in gateways
    ensures var id := |t.messages| + 1;
      var reply := network(id, Request(gateways[name], recipient, text));
      var (t', r) := SendImmediate(t, gateways, name, recipient, text, network, now);
      id !in Ids(t.messages) &&
      t'.messages == t.messages + [SettleRow(NewPending(id, name, recipient, text), reply, now)] &&
      t'.logs == t.logs + [AuditFor(id, reply)] &&
      t'.contacts == t.contacts &&
      r == Propagate(reply)
  {
    var id := |t.messages| + 1;
    var reply := network(id, Request(gateways[name], recipient, text));
    var (t1, _) := InsertMessage(t, recipient, text, name, Pending, None, None);
    var t' := Settle(t1, id, reply, now);
    assert t'.messages == t.messages + [SettleRow(NewPending(id, name, recipient, text), reply, now)] by {
      forall k | 0 <= k < |t.messages| ensures t'.messages[k] == t.messages[k] {
        assert t1.messages[k] == t.messages[k];
      }
    }
  }

  /**
    An unregistered gateway name is rejected before anything is inserted: both entry points
    raise NotConfigured and the store is unchanged.
   */
  lemma UnregisteredGatewayRejected(t: Tables, gateways: Registry, name: string, recipient: string, text: string,
                                    network: Network, now: Timestamp, when: Timestamp)
    requires name !in gateways
    ensures SendImmediate(t, gateways, name, recipient, text, network, now) == (t, Err(NotConfigured(name)))
    ensures Schedule(t, gateways, name, recipient, text, when) == (t, Err(NotConfigured(name)))
  {
  }

  /**
    When the gateway accepts, send_immediate_sms adds exactly one row, fresh and 'sent', whose
    message_id is the payload's sid or else its message_uuid; appends one 'sent' audit entry
    holding the payload's JSON; touches no other row; and returns the payload.
   */
  lemma SendImmediateDelivered(t: Tables, gateways: Registry, name: string, recipient: string, text: string,
                               network: Network, now: Timestamp, p: Payload)
    requires WellFormed(t) && name in gateways
    requires network(|t.messages| + 1, Request(gateways[name], recipient, text)) == Ok(p)
    ensures var id := |t.messages| + 1;
      var (t', r) := SendImmediate(t, gateways, name, recipient, text, network, now);
      |t'.messages| == |t.messages| + 1 && t'.messages[..|t.messages|] == t.messages &&
      id !in Ids(t.messages) &&
      t'.messages[|t.messages|] ==
        Message(id, None, recipient, text, Sent, name,
                if Truthy(ProviderId(p)) then ProviderId(p) else None,
                None,
                if Truthy(ProviderId(p)) then Some(now) else None) &&
      t'.logs == t.logs + [LogEntry(id, Sent, p.json)] &&
      t'.contacts == t.contacts &&
      r == Ok(p)
  {
    SendImmediateShape(t, gateways, name, recipient, text, network, now);
  }

  /**
    A successful send whose payload has no truthy sid or message_uuid leaves a row that is
    'sent' but has neither message_id nor sent_at.
   */
  lemma DeliveredWithoutProviderId(t: Tables, gateways: Registry, name: string, recipient: string, text: string,
                                   network: Network, now: Timestamp, p: Payload)
    requires WellFormed(t) && name in gateways
    requires network(|t.messages| + 1, Request(gateways[name], recipient, text)) == Ok(p)
    requires !HasTruthy(p, "sid") && !HasTruthy(p, "message_uuid")
    ensures var t' := SendImmediate(t, gateways, name, recipient, text, network, now).0;
      |t'.messages| == |t.messages| + 1 &&
      t'.messages[|t.messages|].status == Sent &&
      t'.messages[|t.messages|].sentAt == None &&
      t'.messages[|t.messages|].providerId == None
  {
    SendImmediateDelivered(t, gateways, name, recipient, text, network, now, p);
  }

  /**
    When the gateway raises, send_immediate_sms leaves the new row 'failed' with no message_id
    or sent_at, appends one 'failed' audit entry whose details are the error text, and
    re-raises that same error.
   */
  lemma SendImmediateRaised(t: Tables, gateways: Registry, name: string, recipient: string, text: string,
                            network: Network, now: Timestamp, e: string)
    requires WellFormed(t) && name in gateways
    requires network(|t.messages| + 1, Request(gateways[name], recipient, text)) == Err(e)
    ensures var id := |t.messages| + 1;
      var (t', r) := SendImmediate(t, gateways, name, recipient, text, network, now);
      |t'.messages| == |t.messages| + 1 && t'.messages[..|t.messages|] == t.messages &&
      id !in Ids(t.messages) &&
      t'.messages[|t.messages|] == Message(id, None, recipient, text, Failed, name, None, None, None) &&
      t'.logs == t.logs + [LogEntry(id, Failed, e)] &&
      t'.contacts == t.contacts &&
      r == Err(GatewayError(e))
  {
    SendImmediateShape(t, gateways, name, recipient, text, network, now);
  }

  /**
    With a registered gateway, schedule_sms inserts one row with a fresh id, status 'scheduled'
    and the given time, returns that id, and appends no audit entry (no gateway is called).
   */
  lemma ScheduleInserts(t: Tables, gateways: Registry, name: string, recipient: string, text: string, when: Timestamp)
    requires WellFormed(t) && name in gateways
    ensures var id := |t.messages| + 1;
      var (t', r) := Schedule(t, gateways, name, recipient, text, when);
      r == Ok(id) && id !in Ids(t.messages) &&
      t'.messages == t.messages + [Message(id, None, recipient, text, Scheduled, name, None, Some(when), None)] &&
      t'.logs == t.logs && t'.contacts == t.contacts
  {
  }

  /**
    A message scheduled with schedule_sms is never picked up: whatever the clock, the registry
    and the gateways' replies, the next process_scheduled_messages leaves its row 'scheduled'
    and writes no audit entry for it.
   */
  lemma {:induction false} ScheduledIsNeverSent(t: Tables, gateways: Registry, name: string, recipient: string, text: string,
                                               when: Timestamp, drainGateways: Registry, network: Network, now: Timestamp)
    requires WellFormed(t) && name in gateways
    ensures var (t1, r) := Schedule(t, gateways, name, recipient, text, when);
      var t2 := ProcessScheduled(t1, drainGateways, network, now);
      r.Ok? && |t2.messages| == |t1.messages| && |t2.logs| >= |t1.logs| &&
      t2.messages[r.value - 1] == t1.messages[r.value - 1] &&
      t2.messages[r.value - 1].status == Scheduled &&
      forall j :: |t1.logs| <= j < |t2.logs| ==> t2.logs[j].messageId != r.value
  {
    var (t1, r) := Schedule(t, gateways, name, recipient, text, when);
    var id := |t.messages| + 1;
    var t2 := ProcessScheduled(t1, drainGateways, network, now);
    assert !IsDispatched(t1.messages[id - 1], drainGateways, now);
    assert |t2.messages| == |t1.messages| && t2.messages[id - 1] == t1.messages[id - 1] by {
      ProcessScheduledRows(t1, drainGateways, network, now);
    }
    assert |t2.logs| >= |t1.logs| && forall j :: |t1.logs| <= j < |t2.logs| ==> t2.logs[j].messageId != id by {
      ProcessScheduledLogIds(t1, drainGateways, network, now);
    }
  }

  /** No row of the store is 'pending'. */
  predicate NoPending(t: Tables)
  {
    forall k :: 0 <= k < |t.messages| ==> t.messages[k].status != Pending
  }

  /**
    Both entry points that insert a row settle or schedule it before they return, so neither
    leaves a 'pending' row behind.
   */
  lemma EntryPointsLeaveNoPending(t: Tables, gateways: Registry, name: string, recipient: string, text: string,
                                  network: Network, now: Timestamp, when: Timestamp)
    requires WellFormed(t) && NoPending(t)
    ensures NoPending(SendImmediate(t, gateways, name, recipient, text, network, now).0)
    ensures NoPending(Schedule(t, gateways, name, recipient, text, when).0)
  {
    if name in gateways {
      SendImmediateShape(t, gateways, name, recipient, text, network, now);
    }
  }

  /** A pass over a store with no 'pending' row finds nothing due and changes nothing. */
  lemma NothingPendingNothingSent(t: Tables, gateways: Registry, network: Network, now: Timestamp)
    requires NoPending(t)
    ensures ProcessScheduled(t, gateways, network, now) == t
  {
    NoPendingNoneDue(t.messages, now);
  }

  // ---------------------------------------------------------------------------------------
  // The invariant the engine keeps

  /** A row carries message_id and sent_at together, both only once it is 'sent'. */
  predicate WellStamped(m: Message)
  {
    (m.sentAt.Some? ==> m.status == Sent && Truthy(m.providerId)) &&
    (m.sentAt.None? ==> m.providerId.None?)
  }

  /** Keys as in the store, every row well stamped, every audit entry naming an existing row. */
  predicate Consistent(t: Tables)
  {
    WellFormed(t) &&
    (forall k :: 0 <= k < |t.messages| ==> WellStamped(t.messages[k])) &&
    (forall j :: 0 <= j < |t.logs| ==> 1 <= t.logs[j].messageId <= |t.messages|)
  }

  lemma SettlePendingWellStamped(m: Message, reply: Reply<Payload>, now: Timestamp)
    requires WellStamped(m) && m.status == Pending
    ensures WellStamped(SettleRow(m, reply, now))
  {
  }

  lemma SendImmediateConsistent(t: Tables, gateways: Registry, name: string, recipient: string, text: string,
                                network: Network, now: Timestamp)
    requires Consistent(t)
    ensures Consistent(SendImmediate(t, gateways, name, recipient, text, network, now).0)
  {
    if name in gateways {
      SendImmediateShape(t, gateways, name, recipient, text, network, now);
      var id := |t.messages| + 1;
      SettlePendingWellStamped(NewPending(id, name, recipient, text), network(id, Request(gateways[name], recipient, text)), now);
    }
  }

  lemma ScheduleConsistent(t: Tables, gateways: Registry, name: string, recipient: string, text: string, when: Timestamp)
    requires Consistent(t)
    ensures Consistent(Schedule(t, gateways, name, recipient, text, when).0)
  {
  }

  /** After a pass every row keeps its key and is still well stamped. */
  lemma ProcessScheduledWellStamped(t: Tables, gateways: Registry, network: Network, now: Timestamp)
    requires Consistent(t)
    ensures var t' := ProcessScheduled(t, gateways, network, now);
      forall k :: 0 <= k < |t'.messages| ==> t'.messages[k].id == k + 1 && WellStamped(t'.messages[k])
  {
    var t' := ProcessScheduled(t, gateways, network, now);
    ProcessScheduledRows(t, gateways, network, now);
    forall k | 0 <= k < |t'.messages| ensures t'.messages[k].id == k + 1 && WellStamped(t'.messages[k]) {
      var m := t.messages[k];
      if IsDispatched(m, gateways, now) {
        SettlePendingWellStamped(m, network(m.id, RequestFor(m, gateways)), now);
      }
    }
  }

  lemma {:induction false} ProcessScheduledConsistent(t: Tables, gateways: Registry, network: Network, now: Timestamp)
    requires Consistent(t)
    ensures Consistent(ProcessScheduled(t, gateways, network, now))
  {
    var t' := ProcessScheduled(t, gateways, network, now);
    ProcessScheduledWellStamped(t, gateways, network, now);
    assert forall j :: 0 <= j < |t'.logs| ==> 1 <= t'.logs[j].messageId <= |t'.messages| by {
      ProcessScheduledLogIds(t, gateways, network, now);
      ProcessScheduledLogs(t, gateways, network, now);
    }
  }

  // ---------------------------------------------------------------------------------------

  /** The messenger object: its store and its gateway registry. */
  class SMSMessenger {
    const db: SMSDatabase
    var gateways: Registry

    ghost predicate Valid()
      reads this, db
    {
      db.Valid() && Consistent(db.State())
    }

    /** A messenger over a new, empty store, with no gateway registered. */
    constructor ()
      ensures Valid() && fresh(db)
      ensures db.State() == Empty && gateways == map[]
    {
      db := new SMSDatabase();
      gateways := map[];
    }

    method AddGateway(name: string, gateway: Gateway)
      requires Valid()
      modifies this
      ensures Valid()
      ensures gateways == old(gateways)[name := gateway]
    {
      gateways := gateways[name := gateway];
    }

    method SendImmediateSms(name: string, recipient: string, text: string, network: Network, now: Timestamp)
      returns (r: Result<Payload, Error>)
      requires Valid()
      modifies db
      ensures Valid()
      ensures (db.State(), r) == SendImmediate(old(db.State()), gateways, name, recipient, text, network, now)
    {
      SendImmediateConsistent(db.State(), gateways, name, recipient, text, network, now);
      if name !in gateways {
        return Err(NotConfigured(name));
      }
      var gateway := gateways[name];
      var id := db.LogMessage(recipient, text, name, Pending, None, None);
      var reply := network(id, Request(gateway, recipient, text));
      match reply {
        case Ok(p) =>
          db.UpdateMessageStatus(id, Sent, ProviderId(p), now);
          db.AddLogEntry(id, Sent, p.json);
          r := Ok(p);
        case Err(e) =>
          db.UpdateMessageStatus(id, Failed, None, now);
          db.AddLogEntry(id, Failed, e);
          r := Err(GatewayError(e));
      }
    }

    method ScheduleSms(name: string, recipient: string, text: string, when: Timestamp) returns (r: Result<nat, Error>)
      requires Valid()
      modifies db
      ensures Valid()
      ensures (db.State(), r) == Schedule(old(db.State()), gateways, name, recipient, text, when)
    {
      ScheduleConsistent(db.State(), gateways, name, recipient, text, when);
      if name !in gateways {
        return Err(NotConfigured(name));
      }
      var id := db.LogMessage(recipient, text, name, Scheduled, Some(when), None);
      r := Ok(id);
    }

    method ProcessScheduledMessages(network: Network, now: Timestamp)
      requires Valid()
      modifies db
      ensures Valid()
      ensures db.State() == ProcessScheduled(old(db.State()), gateways, network, now)
    {
      ProcessScheduledConsistent(db.State(), gateways, network, now);
      var due := db.GetPendingMessages(now);
      for i := 0 to |due|
        invariant db.Valid()
        invariant Drain(db.State(), due[i..], gateways, network, now) == Drain(old(db.State()), due, gateways, network, now)
      {
        assert due[i..][1..] == due[i + 1..];
        var m := due[i];
        if m.gateway !in gateways {
          continue;
        }
        var gateway := gateways[m.gateway];
        var reply := network(m.id, Request(gateway, m.recipient, m.text));
        match reply {
          case Ok(p) =>
            db.UpdateMessageStatus(m.id, Sent, ProviderId(p), now);
            db.AddLogEntry(m.id, Sent, p.json);
          case Err(e) =>
            db.UpdateMessageStatus(m.id, Failed, None, now);
            db.AddLogEntry(m.id, Failed, e);
        }
      }
      assert due[|due|..] == [];
    }

    /** check_delivery_status: the registry check, then the gateway's answer (or its exception). */
    method CheckDeliveryStatus(providerMessageId: string, name: string, backend: (Gateway, string) -> Reply<Payload>)
      returns (r: Result<Payload, Error>)
      ensures name !in gateways ==> r == Err(NotConfigured(name))
      ensures name in gateways ==> r == Propagate(backend(gateways[name], providerMessageId))
    {
      if name !in gateways {
        return Err(NotConfigured(name));
      }
      var gateway := gateways[name];
      r := Propagate(backend(gateway, providerMessageId));
    }

    /** get_gateway_balance: the registry check, then the gateway's answer (or its exception). */
    method GetGatewayBalance(name: string, backend: Gateway -> Reply<real>) returns (r: Result<real, Error>)
      ensures name !in gateways ==> r == Err(NotConfigured(name))
      ensures name in gateways ==> r == Propagate(backend(gateways[name]))
    {
      if name !in gateways {
        return Err(NotConfigured(name));
      }
      var gateway := gateways[name];
      r := Propagate(backend(gateway));
    }

    method AddContact(name: string, phone: string, email: Option<string>, group: Option<string>) returns (r: Result<nat, Error>)
      requires Valid()
      modifies db
      ensures Valid()
      ensures (db.State(), r) == InsertContact(old(db.State()), name, phone, email, group)
    {
      r := db.AddContact(name, phone, email, group);
    }

    method GetContacts(group: Option<string>) returns (rows: seq<Contact>)
      ensures rows == ContactsIn(db.contacts, group)
    {
      rows := db.GetContacts(group);
    }
  }
}
