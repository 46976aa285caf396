/**
 The handlers of order-core-service as they run: one unit of work per message over
 the shared database.  The connection answers `answers` more statements and then
 fails, so a handler is proved for an abort at any statement.
 */
module OrderCore {
  import opened Wrappers
  import opened Wire
  import opened OrderTables

  // ----- What a whole transaction does -----

  /** One turn of the ingest loop. */
  function IngestOne(t: Tables, order: IncomingOrder, now: int): Tables {
    if order.externalId in t.orders then t
    else
      var t1 := InsertNew(t, t, order);
      AddAssessmentRequest(t1, t1, order, now)
  }

  function Ingest(t: Tables, batch: seq<IncomingOrder>, now: int): Tables {
    if batch == [] then t
    else IngestOne(Ingest(t, batch[..|batch| - 1], now), batch[|batch| - 1], now)
  }

  datatype Fault = Transient | Permanent

  function Apply(t: Tables, verdict: AssessmentResult, threshold: int, now: int): Result<Tables, Fault> {
    var id := verdict.orderId;
    if id !in t.orders then Err(Permanent)
    else if !CanApplyAssessment(t.orders[id].status) then Ok(t)
    else if DecideNotification(verdict.score, threshold) then
      var t1 := SetStatus(t, t, id, NotifyRequested, verdict.score);
      Ok(AddNotification(t1, t1, id, verdict.notification, now))
    else Ok(SetStatus(t, t, id, NoNotify, verdict.score))
  }

  /**
   One verdict, spelled out.  An unknown order is a permanent failure; a judged one is left alone; a
   waiting one gets its status and score, and over the threshold a pending notify event of this moment
   with the verdict's message, unless it has one.
   */
  lemma VerdictOutcome(t: Tables, id: OrderId, score: int, n: NotificationCommand, threshold: int, now: int)
    ensures var r := Apply(t, AssessmentResult(id, score, n), threshold, now);
            if id !in t.orders then r == Err(Permanent)
            else if t.orders[id].status != AssessRequested then r == Ok(t)
            else
              var row := t.orders[id];
              && r.Ok?
              && r.value.orders == t.orders[id := OrderRow(if score >= threshold then NotifyRequested else NoNotify,
                                                           row.payload, row.requestId, row.fetchedAt, Some(score))]
              && r.value.outbox == if score >= threshold && NotifyKey(id) !in t.outbox
                                   then t.outbox[NotifyKey(id) := OutboxRow("notify", Command(n), false, now)]
                                   else t.outbox
  {
  }

  /**
   One new order, spelled out: a waiting row with the order, the request id and the fetch time, and a
   pending assess event of this moment with an envelope around this one order.
   */
  lemma NewOrderOutcome(t: Tables, order: IncomingOrder, now: int)
    ensures var t' := IngestOne(t, order, now);
            var id := order.externalId;
            if id in t.orders then t' == t
            else
              && t'.orders == t.orders[id := OrderRow(AssessRequested, order.payload, order.requestId,
                                                      order.fetchedAt, None)]
              && t'.outbox == if AssessKey(id) in t.outbox then t.outbox
                              else t.outbox[AssessKey(id) := OutboxRow(
                                "assess_request",
                                Request(Envelope(if order.requestId == None then "" else order.requestId.value,
                                                 order.fetchedAt, 1, None, [order.payload])),
                                false, now)]
  {
  }

  /** Writing into the overlay is overlaying the write. */
  lemma OverlayPut(t: Tables, w: Tables, id: OrderId, row: OrderRow, key: Key, event: OutboxRow)
    ensures Overlay(t, PutOrder(w, id, row)) == PutOrder(Overlay(t, w), id, row)
    ensures Overlay(t, PutOutbox(w, key, event)) == PutOutbox(Overlay(t, w), key, event)
  {
    assert t.orders + w.orders[id := row] == (t.orders + w.orders)[id := row];
    assert t.outbox + w.outbox[key := event] == (t.outbox + w.outbox)[key := event];
  }

  // ----- The database and one transaction on it -----

  class Database {
    var tables: Tables

    constructor ()
      ensures tables == EMPTY
    {
      tables := EMPTY;
    }
  }

  class UnitOfWork {
    const db: Database
    var writes: Tables
    var answers: nat

    function View(): Tables
      reads this, db
    {
      Overlay(db.tables, writes)
    }

    constructor (db: Database, answers: nat)
      ensures this.db == db && writes == EMPTY && this.answers == answers
    {
      this.db := db;
      this.writes := EMPTY;
      this.answers := answers;
    }

    /** Whether the connection still answers; every statement goes through here. */
    method Execute() returns (ok: bool)
      modifies this`answers
      ensures ok == (old(answers) > 0)
      ensures answers == if ok then old(answers) - 1 else 0
    {
      ok := answers > 0;
      if ok { answers := answers - 1; }
    }

    method InsertNew(order: IncomingOrder) returns (r: Result<bool, Fault>)
      modifies this
      ensures old(answers) == 0 ==> r == Err(Transient)
      ensures old(answers) > 0 ==>
                && r == Ok(order.externalId !in old(View()).orders)
                && answers == old(answers) - 1
                && writes == OrderTables.InsertNew(old(View()), old(writes), order)
    {
      var ok := Execute();
      if !ok { return Err(Transient); }
      r := Ok(order.externalId !in View().orders);
      writes := OrderTables.InsertNew(View(), writes, order);
    }

    method AddAssessmentRequest(order: IncomingOrder, now: int) returns (ok: bool)
      modifies this
      ensures ok == (old(answers) > 0)
      ensures ok ==>
                && answers == old(answers) - 1
                && writes == OrderTables.AddAssessmentRequest(old(View()), old(writes), order, now)
    {
      ok := Execute();
      if ok { writes := OrderTables.AddAssessmentRequest(View(), writes, order, now); }
    }

    method Get(id: OrderId) returns (r: Result<Option<OrderRow>, Fault>)
      modifies this`answers
      ensures old(answers) == 0 ==> r == Err(Transient)
      ensures old(answers) > 0 ==>
                && r == Ok(if id in View().orders then Some(View().orders[id]) else None)
                && answers == old(answers) - 1
    {
      var ok := Execute();
      if !ok { return Err(Transient); }
      r := Ok(if id in View().orders then Some(View().orders[id]) else None);
    }

    method SetStatus(id: OrderId, status: Status, score: int) returns (ok: bool)
      modifies this
      ensures ok == (old(answers) > 0)
      ensures ok ==>
                && answers == old(answers) - 1
                && writes == OrderTables.SetStatus(old(View()), old(writes), id, status, score)
    {
      ok := Execute();
      if ok { writes := OrderTables.SetStatus(View(), writes, id, status, score); }
    }

    method AddNotification(id: OrderId, n: NotificationCommand, now: int) returns (ok: bool)
      modifies this
      ensures ok == (old(answers) > 0)
      ensures ok ==>
                && answers == old(answers) - 1
                && writes == OrderTables.AddNotification(old(View()), old(writes), id, n, now)
    {
      ok := Execute();
      if ok { writes := OrderTables.AddNotification(View(), writes, id, n, now); }
    }

    /** All of the writes become visible, or none of them. */
    method Commit() returns (ok: bool)
      modifies this, db
      ensures ok == (old(answers) > 0)
      ensures db.tables == if ok then old(View()) else old(db.tables)
    {
      ok := Execute();
      if ok { db.tables := View(); }
    }
  }

  // ----- Handlers -----

  method IngestOrders(db: Database, batch: seq<IncomingOrder>, now: int, answers: nat) returns (r: Result<(), Fault>)
    modifies db
    ensures r.Ok? ==> db.tables == Ingest(old(db.tables), batch, now)
    ensures r.Err? ==> r.error == Transient && db.tables == old(db.tables)
    ensures 2 * |batch| < answers ==> r.Ok?
  {
    var uow := new UnitOfWork(db, answers);
    for i := 0 to |batch|
      invariant db.tables == old(db.tables) && fresh(uow) && uow.db == db
      invariant uow.View() == Ingest(db.tables, batch[..i], now)
      invariant 2 * |batch| < answers ==> uow.answers + 2 * i >= answers
    {
      assert batch[..i + 1][..i] == batch[..i];
      ghost var view := uow.View();
      var order := batch[i];
      OverlayPut(db.tables, uow.writes, order.externalId, NewOrderRow(order),
                 AssessKey(order.externalId), OutboxRow(ASSESS_REQUEST, AssessRequestPayload(order), false, now));
      var inserted := uow.InsertNew(order);
      if inserted.Err? { return Err(Transient); }
      if inserted.value {
        OverlayPut(db.tables, uow.writes, order.externalId, NewOrderRow(order),
                   AssessKey(order.externalId), OutboxRow(ASSESS_REQUEST, AssessRequestPayload(order), false, now));
        var ok := uow.AddAssessmentRequest(order, now);
        if !ok { return Err(Transient); }
      }
    }
    assert batch[..|batch|] == batch;
    var ok := uow.Commit();
    r := if ok then Ok(()) else Err(Transient);
  }

  method ProcessAssessment(db: Database, verdict: AssessmentResult, threshold: int, now: int, answers: nat)
    returns (r: Result<(), Fault>)
    modifies db
    ensures r.Ok? ==> Apply(old(db.tables), verdict, threshold, now) == Ok(db.tables)
    ensures r.Err? ==> db.tables == old(db.tables)
    ensures r.Ok? && verdict.orderId in old(db.tables).orders
            && old(db.tables).orders[verdict.orderId].status == AssessRequested && verdict.score >= threshold ==>
              && db.tables.orders[verdict.orderId].status == NotifyRequested
              && (NotifyKey(verdict.orderId) !in old(db.tables).outbox ==>
                    db.tables.outbox == old(db.tables).outbox[NotifyKey(verdict.orderId) :=
                      OutboxRow("notify", Command(verdict.notification), false, now)])
    ensures r == Err(Permanent) ==> verdict.orderId !in db.tables.orders
    ensures answers >= 4 ==> r != Err(Transient)
  {
    var id := verdict.orderId;
    var uow := new UnitOfWork(db, answers);
    assert uow.View() == db.tables;
    var order := uow.Get(id);
    if order.Err? { return Err(Transient); }
    if order.value == None { return Err(Permanent); }
    var row := order.value.value;
    if !CanApplyAssessment(row.status) {
      var ok := uow.Commit();
      return if ok then Ok(()) else Err(Transient);
    }
    var notify := DecideNotification(verdict.score, threshold);
    var status := if notify then NotifyRequested else NoNotify;
    var event := OutboxRow(NOTIFY, Command(verdict.notification), false, now);
    OverlayPut(db.tables, uow.writes, id, row.(status := status, score := Some(verdict.score)), NotifyKey(id), event);
    var ok := uow.SetStatus(id, status, verdict.score);
    if !ok { return Err(Transient); }
    if notify {
      OverlayPut(db.tables, uow.writes, id, row, NotifyKey(id), event);
      ok := uow.AddNotification(id, verdict.notification, now);
      if !ok { return Err(Transient); }
    }
    ok := uow.Commit();
    r := if ok then Ok(()) else Err(Transient);
  }

  // ----- Handled, dead-lettered or requeued -----

  datatype Raw = Malformed | Parsed(verdict: AssessmentResult)
  datatype Category = InvalidPayload | PermanentFailure

  class DeadLetters {
    var messages: seq<(Raw, Category)>

    constructor ()
      ensures messages == []
    {
      messages := [];
    }

    /** Publishing to order.dlq may itself raise. */
    method Publish(raw: Raw, category: Category, up: bool) returns (ok: bool)
      modifies this
      ensures ok == up
      ensures messages == if ok then old(messages) + [(raw, category)] else old(messages)
    {
      ok := up;
      if up { messages := messages + [(raw, category)]; }
    }
  }

  /**
   guard around the verdict handler.  A message is acknowledged only when its
   transaction committed or it reached order.dlq; a score outside 0..100 fails in the
   mapping inside `handle`, which guard does not catch, so it goes back to the queue.
   */
  method OnAssessResult(db: Database, dlq: DeadLetters, raw: Raw, threshold: int, now: int, answers: nat, up: bool)
    returns (ack: bool)
    modifies db, dlq
    ensures !ack ==> db.tables == old(db.tables) && dlq.messages == old(dlq.messages)
    ensures ack ==>
              || (&& raw.Parsed? && 0 <= raw.verdict.score <= 100 && dlq.messages == old(dlq.messages)
                  && Apply(old(db.tables), raw.verdict, threshold, now) == Ok(db.tables))
              || (&& db.tables == old(db.tables)
                  && raw == Malformed && dlq.messages == old(dlq.messages) + [(raw, InvalidPayload)])
              || (&& db.tables == old(db.tables) && raw.Parsed? && 0 <= raw.verdict.score <= 100
                  && raw.verdict.orderId !in db.tables.orders
                  && dlq.messages == old(dlq.messages) + [(raw, PermanentFailure)])
    ensures ack ==> raw == Malformed || 0 <= raw.verdict.score <= 100
    ensures up && answers >= 4 ==> (ack <==> raw == Malformed || 0 <= raw.verdict.score <= 100)
  {
    if raw == Malformed {
      ack := dlq.Publish(raw, InvalidPayload, up);
      return;
    }
    if !(0 <= raw.verdict.score <= 100) { return false; }
    var r := ProcessAssessment(db, raw.verdict, threshold, now, answers);
    if r.Err? && r.error == Permanent {
      ack := dlq.Publish(raw, PermanentFailure, up);
    } else {
      ack := r.Ok?;
    }
  }

  /**
   A verdict with a score outside 0..100 comes back from every redelivery, however healthy database
   and broker are: it is never acknowledged, never dead-lettered, and changes nothing.
   */
  method RedeliverOutOfRange(
    db: Database, dlq: DeadLetters, verdict: AssessmentResult, threshold: int, now: int, answers: seq<nat>)
    returns (acknowledged: bool)
    requires !(0 <= verdict.score <= 100)
    modifies db, dlq
    ensures !acknowledged && db.tables == old(db.tables) && dlq.messages == old(dlq.messages)
  {
    acknowledged := false;
    for i := 0 to |answers|
      invariant !acknowledged && db.tables == old(db.tables) && dlq.messages == old(dlq.messages)
    {
      acknowledged := OnAssessResult(db, dlq, Parsed(verdict), threshold, now, answers[i], true);
    }
  }

  /** The failing input: a verdict of 101 on an order nobody knows, with everything up. */
  method ScoreOf101(db: Database, dlq: DeadLetters) returns (acknowledged: bool)
    modifies db, dlq
    ensures !acknowledged && db.tables == old(db.tables) && dlq.messages == old(dlq.messages)
  {
    var verdict := AssessmentResult("1", 101, NotificationCommand("a", None, None, None, None));
    acknowledged := RedeliverOutOfRange(db, dlq, verdict, 0, 0, [4, 4, 4]);
  }
}
