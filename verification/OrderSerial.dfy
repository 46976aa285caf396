/** Runs of order-core-service in which transactions do not overlap. */
module OrderSerial {
  import opened Wrappers
  import opened Wire
  import opened OrderTables
  import opened OrderCore
  import P = Pipeline

  // ----- Ingest -----

  /**
   A message of parse.results, spelled out: the first occurrence of an id that is not stored yet is
   stored as it came, and waits with one pending assess event of this moment.
   */
  lemma IngestOutcome(t: Tables, message: Envelope, now: int, i: nat)
    requires i < |message.orders| && forall j | 0 <= j < i :: message.orders[j].id != message.orders[i].id
    requires message.orders[i].id !in t.orders && AssessKey(message.orders[i].id) !in t.outbox
    ensures var t' := Ingest(t, ToIncomingOrders(message), now);
            var o := message.orders[i];
            && o.id in t'.orders
            && t'.orders[o.id] == OrderRow(AssessRequested, o, Some(message.requestId), message.fetchedAt, None)
            && AssessKey(o.id) in t'.outbox
            && t'.outbox[AssessKey(o.id)] == OutboxRow(
                 "assess_request", Request(Envelope(message.requestId, message.fetchedAt, 1, None, [o])), false, now)
  {
    hide Ingest;
    var batch := ToIncomingOrders(message);
    IngestAdds(t, batch, now, message.orders[i].id);
    FirstAt(batch, i);
  }

  lemma {:induction false} FirstAt(batch: seq<IncomingOrder>, i: nat)
    requires i < |batch| && forall j | 0 <= j < i :: batch[j].externalId != batch[i].externalId
    ensures First(batch, batch[i].externalId) == Some(batch[i])
  {
    if i > 0 {
      FirstAt(batch[1..], i - 1);
    }
  }

  /** The first order of the batch with this id. */
  function First(batch: seq<IncomingOrder>, id: OrderId): Option<IncomingOrder> {
    if batch == [] then None
    else if batch[0].externalId == id then Some(batch[0])
    else First(batch[1..], id)
  }

  lemma {:induction false} FirstOfConcat(a: seq<IncomingOrder>, b: seq<IncomingOrder>, id: OrderId)
    ensures First(a + b, id) == if First(a, id).Some? then First(a, id) else First(b, id)
  {
    if a == [] {
      assert a + b == b;
    } else {
      assert (a + b)[1..] == a[1..] + b;
      FirstOfConcat(a[1..], b, id);
    }
  }

  /** Everything an ingest leaves in the tables, order by order: only new orders are added, each once. */
  lemma {:induction false} IngestAdds(t: Tables, batch: seq<IncomingOrder>, now: int, id: OrderId)
    requires id !in t.orders ==> AssessKey(id) !in t.outbox
    ensures var t' := Ingest(t, batch, now);
            && (id in t.orders || First(batch, id) == None ==>
                  && (id in t'.orders <==> id in t.orders)
                  && (id in t.orders ==> t'.orders[id] == t.orders[id])
                  && (AssessKey(id) in t'.outbox <==> AssessKey(id) in t.outbox)
                  && (AssessKey(id) in t.outbox ==> t'.outbox[AssessKey(id)] == t.outbox[AssessKey(id)]))
            && (id !in t.orders && First(batch, id).Some? ==>
                  && id in t'.orders && t'.orders[id] == NewOrderRow(First(batch, id).value)
                  && AssessKey(id) in t'.outbox
                  && t'.outbox[AssessKey(id)]
                     == OutboxRow(ASSESS_REQUEST, AssessRequestPayload(First(batch, id).value), false, now))
            && (NotifyKey(id) in t'.outbox <==> NotifyKey(id) in t.outbox)
            && (NotifyKey(id) in t.outbox ==> t'.outbox[NotifyKey(id)] == t.outbox[NotifyKey(id)])
  {
    if batch != [] {
      var last := batch[|batch| - 1];
      IngestAdds(t, batch[..|batch| - 1], now, id);
      FirstOfConcat(batch[..|batch| - 1], [last], id);
      assert batch[..|batch| - 1] + [last] == batch;
      assert [last][1..] == [];
    }
  }

  /** Redelivering a committed batch, or any batch of known orders, changes nothing. */
  lemma {:induction false} KnownBatchChangesNothing(t: Tables, batch: seq<IncomingOrder>, now: int)
    requires forall o | o in batch :: o.externalId in t.orders
    ensures Ingest(t, batch, now) == t
  {
    if batch != [] {
      KnownBatchChangesNothing(t, batch[..|batch| - 1], now);
      assert batch[|batch| - 1] in batch;
    }
  }

  /** The committed batches of a run, one after the other. */
  function IngestAll(t: Tables, batches: seq<(seq<IncomingOrder>, int)>): Tables {
    if batches == [] then t
    else Ingest(IngestAll(t, batches[..|batches| - 1]), batches[|batches| - 1].0, batches[|batches| - 1].1)
  }

  function Flat(batches: seq<(seq<IncomingOrder>, int)>): seq<IncomingOrder> {
    if batches == [] then [] else Flat(batches[..|batches| - 1]) + batches[|batches| - 1].0
  }

  /**
   After any committed batches, with duplicates inside and across them: exactly the ids
   that occurred are stored, each as its first occurrence, with one assess event for that
   occurrence; and replaying any of the batches changes nothing.
   */
  lemma {:induction false} FirstOccurrenceWins(batches: seq<(seq<IncomingOrder>, int)>, id: OrderId)
    ensures var t := IngestAll(EMPTY, batches);
            && (id in t.orders <==> First(Flat(batches), id).Some?)
            && (id in t.orders <==> AssessKey(id) in t.outbox)
            && (id in t.orders ==>
                  && t.orders[id] == NewOrderRow(First(Flat(batches), id).value)
                  && t.outbox[AssessKey(id)].payload == AssessRequestPayload(First(Flat(batches), id).value))
            && NotifyKey(id) !in t.outbox
  {
    if batches != [] {
      var rest := batches[..|batches| - 1];
      var (batch, now) := batches[|batches| - 1];
      FirstOccurrenceWins(rest, id);
      IngestAdds(IngestAll(EMPTY, rest), batch, now, id);
      FirstOfConcat(Flat(rest), batch, id);
    }
  }

  lemma {:induction false} FirstIsPresent(batch: seq<IncomingOrder>, o: IncomingOrder)
    requires o in batch
    ensures First(batch, o.externalId).Some?
  {
    if batch[0].externalId != o.externalId {
      FirstIsPresent(batch[1..], o);
    }
  }

  lemma {:induction false} ReplayChangesNothing(batches: seq<(seq<IncomingOrder>, int)>, i: nat, now: int)
    requires i < |batches|
    ensures Ingest(IngestAll(EMPTY, batches), batches[i].0, now) == IngestAll(EMPTY, batches)
  {
    var t := IngestAll(EMPTY, batches);
    forall o | o in batches[i].0 ensures o.externalId in t.orders {
      OccursInFlat(batches, i, o);
      FirstIsPresent(Flat(batches), o);
      FirstOccurrenceWins(batches, o.externalId);
    }
    KnownBatchChangesNothing(t, batches[i].0, now);
  }

  lemma {:induction false} OccursInFlat(batches: seq<(seq<IncomingOrder>, int)>, i: nat, o: IncomingOrder)
    requires i < |batches| && o in batches[i].0
    ensures o in Flat(batches)
  {
    if i < |batches| - 1 {
      OccursInFlat(batches[..|batches| - 1], i, o);
    }
  }

  // ----- Whole serial runs -----

  /** A committed transaction; an aborted one leaves no trace. */
  datatype Tx =
    | IngestTx(message: Envelope, now: int)
    | VerdictTx(verdict: AssessmentResult, now: int)
    | RelayTx(keys: set<Key>)

  function Next(t: Tables, tx: Tx, threshold: int): Tables {
    match tx
    case IngestTx(message, now) => Ingest(t, ToIncomingOrders(message), now)
    case VerdictTx(verdict, now) =>
      var r := Apply(t, verdict, threshold, now);
      if r.Ok? then r.value else t
    case RelayTx(keys) => MarkPublished(t, keys)
  }

  function Run(t: Tables, txs: seq<Tx>, threshold: int): Tables {
    if txs == [] then t else Next(Run(t, txs[..|txs| - 1], threshold), txs[|txs| - 1], threshold)
  }

  predicate OrderSettled(t: Tables, threshold: int, id: OrderId)
    requires id in t.orders
  {
    var row := t.orders[id];
    && AssessKey(id) in t.outbox && t.outbox[AssessKey(id)].destination == ASSESS_REQUEST
    && t.outbox[AssessKey(id)].payload.Request?
    && t.outbox[AssessKey(id)].payload.envelope.orders == [row.payload] && row.payload.id == id
    && match row.status
       case AssessRequested => row.score == None && NotifyKey(id) !in t.outbox
       case NotifyRequested => row.score.Some? && row.score.value >= threshold && NotifyKey(id) in t.outbox
       case NoNotify => row.score.Some? && row.score.value < threshold && NotifyKey(id) !in t.outbox
       case Failed => false
  }

  predicate Settled(t: Tables, threshold: int) {
    && (forall id | id in t.orders :: OrderSettled(t, threshold, id))
    && (forall k | k in t.outbox :: k.id in t.orders)
  }

  /** A status moves only along the two documented edges; a row keeps the order it was stored with. */
  predicate Edge(t: Tables, t': Tables, id: OrderId)
    requires id in t.orders
  {
    && id in t'.orders && t'.orders[id].payload == t.orders[id].payload
    && (t'.orders[id] == t.orders[id]
        || (t.orders[id].status == AssessRequested && t'.orders[id].status in {NotifyRequested, NoNotify}))
  }

  lemma IngestSettles(t: Tables, batch: seq<IncomingOrder>, now: int, threshold: int, id: OrderId)
    requires Settled(t, threshold) && forall o | o in batch :: o.payload.id == o.externalId
    ensures var t' := Ingest(t, batch, now);
            && (id in t.orders ==> Edge(t, t', id))
            && (id in t'.orders ==> OrderSettled(t', threshold, id))
            && (AssessKey(id) in t'.outbox || NotifyKey(id) in t'.outbox ==> id in t'.orders)
  {
    hide Ingest;
    IngestAdds(t, batch, now, id);
    FirstHasId(batch, id);
    assert id in t.orders ==> OrderSettled(t, threshold, id);
  }

  lemma OthersSettle(t: Tables, tx: Tx, threshold: int)
    requires Settled(t, threshold) && !tx.IngestTx?
    ensures var t' := Next(t, tx, threshold);
            && t'.orders.Keys == t.orders.Keys
            && (forall id | id in t.orders :: OrderSettled(t', threshold, id) && Edge(t, t', id))
            && (forall k | k in t'.outbox :: k.id in t'.orders)
  {
    hide OrderSettled, Edge, Apply, MarkPublished;
    if tx.VerdictTx? {
      if Apply(t, tx.verdict, threshold, tx.now).Ok? { AppliedSettles(t, tx.verdict, tx.now, threshold); }
    } else {
      MarkedSettles(t, tx.keys, threshold);
    }
    forall id | id in t.orders && Next(t, tx, threshold) == t ensures Edge(t, t, id) {
      SameEdge(t, id);
    }
  }

  lemma SameEdge(t: Tables, id: OrderId)
    requires id in t.orders
    ensures Edge(t, t, id)
  {
  }

  lemma AppliedSettles(t: Tables, verdict: AssessmentResult, now: int, threshold: int)
    requires Settled(t, threshold) && Apply(t, verdict, threshold, now).Ok?
    ensures var t' := Apply(t, verdict, threshold, now).value;
            && t'.orders.Keys == t.orders.Keys
            && (forall id | id in t.orders :: OrderSettled(t', threshold, id) && Edge(t, t', id))
            && (forall k | k in t'.outbox :: k.id in t'.orders)
  {
    hide OrderSettled, Edge;
    forall id | id in t.orders
      ensures var t' := Apply(t, verdict, threshold, now).value;
              id in t'.orders && OrderSettled(t', threshold, id) && Edge(t, t', id)
    {
      AppliedOrder(t, verdict, now, threshold, id);
    }
  }

  lemma AppliedOrder(t: Tables, verdict: AssessmentResult, now: int, threshold: int, id: OrderId)
    requires id in t.orders && OrderSettled(t, threshold, id) && Apply(t, verdict, threshold, now).Ok?
    ensures var t' := Apply(t, verdict, threshold, now).value;
            id in t'.orders && OrderSettled(t', threshold, id) && Edge(t, t', id)
  {
  }

  lemma MarkedSettles(t: Tables, keys: set<Key>, threshold: int)
    requires Settled(t, threshold)
    ensures var t' := MarkPublished(t, keys);
            && t'.orders.Keys == t.orders.Keys
            && (forall id | id in t.orders :: OrderSettled(t', threshold, id) && Edge(t, t', id))
            && (forall k | k in t'.outbox :: k.id in t'.orders)
  {
    forall id | id in t.orders ensures OrderSettled(MarkPublished(t, keys), threshold, id) {
      assert OrderSettled(t, threshold, id);
    }
  }

  lemma NextSettled(t: Tables, tx: Tx, threshold: int)
    requires Settled(t, threshold)
    ensures Settled(Next(t, tx, threshold), threshold)
    ensures forall id | id in t.orders :: Edge(t, Next(t, tx, threshold), id)
  {
    var t' := Next(t, tx, threshold);
    hide Ingest, Apply, OrderSettled, Edge;
    if tx.IngestTx? {
      forall id ensures id in t.orders ==> Edge(t, t', id)
        ensures id in t'.orders ==> OrderSettled(t', threshold, id)
        ensures AssessKey(id) in t'.outbox || NotifyKey(id) in t'.outbox ==> id in t'.orders
      {
        IngestSettles(t, ToIncomingOrders(tx.message), tx.now, threshold, id);
      }
    } else {
      OthersSettle(t, tx, threshold);
    }
  }

  lemma {:induction false} FirstHasId(batch: seq<IncomingOrder>, id: OrderId)
    ensures First(batch, id).Some? ==> First(batch, id).value in batch && First(batch, id).value.externalId == id
  {
    if batch != [] && batch[0].externalId != id {
      FirstHasId(batch[1..], id);
    }
  }

  /**
   Serial runs: every order has exactly its one assess event; waiting means no score and no
   notify event, notified means a score at or over the threshold and the notify event,
   skipped means a score below it and no notify event; FAILED is never reached.
   */
  lemma {:induction false} SerialRun(txs: seq<Tx>, threshold: int)
    ensures Settled(Run(EMPTY, txs, threshold), threshold)
  {
    if txs != [] {
      SerialRun(txs[..|txs| - 1], threshold);
      NextSettled(Run(EMPTY, txs[..|txs| - 1], threshold), txs[|txs| - 1], threshold);
    }
  }

  /** Score and notify event of order `id` are those of the `i`-th transaction's verdict. */
  predicate JudgedBy(t: Tables, txs: seq<Tx>, id: OrderId, i: nat) {
    && i < |txs| && txs[i].VerdictTx? && txs[i].verdict.orderId == id
    && id in t.orders && NotifyKey(id) in t.outbox
    && t.orders[id].score == Some(txs[i].verdict.score)
    && t.outbox[NotifyKey(id)].payload == Command(txs[i].verdict.notification)
    && t.outbox[NotifyKey(id)].destination == "notify" && t.outbox[NotifyKey(id)].createdAt == txs[i].now
  }

  predicate Notified(t: Tables, id: OrderId) {
    id in t.orders && t.orders[id].status == NotifyRequested
  }

  /** A transaction keeps the judgement of a notified order, or is the one that notifies. */
  lemma NextJudges(t: Tables, tx: Tx, threshold: int, id: OrderId)
    requires Settled(t, threshold) && Notified(Next(t, tx, threshold), id)
    ensures var t' := Next(t, tx, threshold);
            if Notified(t, id) then
              && NotifyKey(id) in t.outbox && NotifyKey(id) in t'.outbox
              && t'.orders[id].score == t.orders[id].score
              && t'.outbox[NotifyKey(id)].(published := false) == t.outbox[NotifyKey(id)].(published := false)
            else
              && tx.VerdictTx? && tx.verdict.orderId == id && NotifyKey(id) in t'.outbox
              && t'.orders[id].score == Some(tx.verdict.score)
              && t'.outbox[NotifyKey(id)] == OutboxRow("notify", Command(tx.verdict.notification), false, tx.now)
  {
    hide Ingest;
    assert id in t.orders ==> OrderSettled(t, threshold, id);
    if tx.IngestTx? {
      IngestAdds(t, ToIncomingOrders(tx.message), tx.now, id);
    }
  }

  /**
   In a serial run the notify event of a notified order carries the message of the very verdict whose
   score is on its row, and the time at which that verdict was handled.
   */
  lemma {:induction false} MessageMatchesScore(txs: seq<Tx>, threshold: int, id: OrderId) returns (i: nat)
    requires Notified(Run(EMPTY, txs, threshold), id)
    ensures JudgedBy(Run(EMPTY, txs, threshold), txs, id, i)
  {
    var n := |txs| - 1;
    var t := Run(EMPTY, txs[..n], threshold);
    SerialRun(txs[..n], threshold);
    NextJudges(t, txs[n], threshold, id);
    i := n;
    if Notified(t, id) {
      i := MessageMatchesScore(txs[..n], threshold, id);
    }
  }

  lemma {:induction false} RunKeepsOrders(txs: seq<Tx>, n: nat, threshold: int, id: OrderId)
    requires n <= |txs| && id in Run(EMPTY, txs[..n], threshold).orders
    ensures id in Run(EMPTY, txs, threshold).orders
    decreases |txs|
  {
    hide Run, Next, Settled;
    if n < |txs| {
      var m := |txs| - 1;
      assert txs[..m][..n] == txs[..n];
      RunKeepsOrders(txs[..m], n, threshold, id);
      SerialRun(txs[..m], threshold);
      NextSettled(Run(EMPTY, txs[..m], threshold), txs[m], threshold);
      RunNext(txs, m, threshold);
      assert txs[..m + 1] == txs;
    } else {
      assert txs[..n] == txs;
    }
  }

  /**
   Redelivering a batch that was committed earlier in a serial run changes nothing, whatever verdicts,
   relay runs and other batches were committed since.
   */
  lemma {:induction false} RedeliveryChangesNothing(txs: seq<Tx>, i: nat, threshold: int, now: int)
    requires i < |txs| && txs[i].IngestTx?
    ensures var t := Run(EMPTY, txs, threshold); Next(t, IngestTx(txs[i].message, now), threshold) == t
  {
    var t := Run(EMPTY, txs, threshold);
    var batch := ToIncomingOrders(txs[i].message);
    forall o | o in batch ensures o.externalId in t.orders {
      IngestedIsThere(txs, i, threshold, o);
      RunKeepsOrders(txs, i + 1, threshold, o.externalId);
    }
    KnownBatchChangesNothing(t, batch, now);
  }

  lemma IngestedIsThere(txs: seq<Tx>, i: nat, threshold: int, o: IncomingOrder)
    requires i < |txs| && txs[i].IngestTx? && o in ToIncomingOrders(txs[i].message)
    ensures o.externalId in Run(EMPTY, txs[..i + 1], threshold).orders
  {
    hide Ingest, Settled, Run;
    var before := Run(EMPTY, txs[..i], threshold);
    var batch := ToIncomingOrders(txs[i].message);
    RunNext(txs, i, threshold);
    SerialRun(txs[..i], threshold);
    FirstIsPresent(batch, o);
    assert o.externalId !in before.orders ==> AssessKey(o.externalId) !in before.outbox by {
      SettledKeys(before, threshold);
    }
    IngestAdds(before, batch, txs[i].now, o.externalId);
  }

  lemma RunNext(txs: seq<Tx>, i: nat, threshold: int)
    requires i < |txs|
    ensures Run(EMPTY, txs[..i + 1], threshold) == Next(Run(EMPTY, txs[..i], threshold), txs[i], threshold)
  {
    assert txs[..i + 1][..i] == txs[..i];
  }

  lemma SettledKeys(t: Tables, threshold: int)
    requires Settled(t, threshold)
    ensures forall k | k in t.outbox :: k.id in t.orders
  {
  }

  /** Of the verdicts on one order the first one applied is final. */
  lemma SecondVerdictIsIgnored(
    t: Tables, first: AssessmentResult, second: AssessmentResult, threshold: int, now: int, later: int)
    requires first.orderId == second.orderId && first.orderId in t.orders
    ensures var t' := Apply(t, first, threshold, now);
            t'.Ok? && Apply(t'.value, second, threshold, later) == t'
  {
  }

  // ----- The interleaved statements, run alone -----

  /** A verdict transaction whose statements nobody interrupts does what `Apply` does. */
  lemma VerdictAlone(cfg: P.Settings, t: Tables, verdict: AssessmentResult, now: int)
    requires verdict.orderId in t.orders && CanApplyAssessment(t.orders[verdict.orderId].status)
    ensures var x := P.Updated(cfg, t, P.VerdictTxn(verdict, P.Setting, now, EMPTY));
            var y := if x.stage == P.Adding then P.Notified(Overlay(t, x.writes), x) else x;
            Apply(t, verdict, cfg.coreThreshold, now) == Ok(Overlay(t, y.writes))
  {
    var row := t.orders[verdict.orderId];
    var notify := DecideNotification(verdict.score, cfg.coreThreshold);
    var row' := row.(status := if notify then NotifyRequested else NoNotify, score := Some(verdict.score));
    var event := OutboxRow(NOTIFY, Command(verdict.notification), false, now);
    assert Overlay(t, EMPTY) == t;
    OverlayPut(t, EMPTY, verdict.orderId, row', NotifyKey(verdict.orderId), event);
    OverlayPut(t, PutOrder(EMPTY, verdict.orderId, row'), verdict.orderId, row', NotifyKey(verdict.orderId), event);
  }

  /** One turn of an ingest transaction is one turn of the ingest loop on what it sees. */
  lemma IngestTurnAlone(t: Tables, x: P.Txn)
    requires x.IngestTxn? && x.pos < |x.batch| && !x.adding
    ensures var view := Overlay(t, x.writes);
            var y := P.Inserted(view, x);
            var z := if y.adding then P.Requested(Overlay(t, y.writes), y) else y;
            && Overlay(t, z.writes) == IngestOne(view, x.batch[x.pos], x.now)
            && z.pos == x.pos + 1 && !z.adding
  {
    var order := x.batch[x.pos];
    var event := OutboxRow(ASSESS_REQUEST, AssessRequestPayload(order), false, x.now);
    OverlayPut(t, x.writes, order.externalId, NewOrderRow(order), AssessKey(order.externalId), event);
    OverlayPut(t, P.Inserted(Overlay(t, x.writes), x).writes, order.externalId, NewOrderRow(order),
               AssessKey(order.externalId), event);
  }
}
