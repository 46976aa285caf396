/**
 order-core-service, its outbox relay, the llm service and the broker between them,
 as one labelled transition system.

 Database transactions interleave statement by statement at READ COMMITTED: a
 statement sees the committed tables overlaid with its own transaction's writes, a
 row written by another open transaction blocks it (it is simply not enabled), and
 any open transaction may abort between any two statements.  The relay publishes
 before it commits.  The broker redelivers whatever was not acknowledged.
 */
module Pipeline {
  import opened Wire
  import opened OrderTables
  import opened Assessing

  datatype Settings = Settings(coreThreshold: int, llmThreshold: int, batchSize: nat)

  datatype VerdictStage = Reading | Setting | Adding | Closing | Settled

  /** A claimed outbox row as the relay holds it in memory. */
  datatype Event = Event(key: Key, destination: string, payload: Payload)

  datatype Txn =
    | IngestTxn(batch: seq<IncomingOrder>, pos: nat, adding: bool, now: int, writes: Tables)
    | VerdictTxn(verdict: AssessmentResult, stage: VerdictStage, now: int, writes: Tables)
    | RelayTxn(events: seq<Event>, sent: nat, marked: bool)

  /** One delivery of assess.requests being handled by llm. */
  datatype Worker = Worker(envelope: Envelope, pos: nat, retryable: seq<OrderId>)

  datatype System = System(
    tables: Tables,
    txns: map<nat, Txn>,
    rowLocks: map<Key, nat>,             // FOR UPDATE locks of open relay transactions
    requests: multiset<Payload>,         // assess.requests
    retries: multiset<Payload>,          // assess.requests.retry
    rejected: multiset<Payload>,         // assess.requests.dlq
    results: multiset<AssessmentResult>, // assess.results
    orderDlq: multiset<AssessmentResult>, // verdicts dead-lettered as "permanent"
    notifications: multiset<Payload>,    // the notifications exchange
    workers: map<nat, Worker>,
    // history, written but never read by the programs
    sent: multiset<Event>,               // every publish of every relay run
    aborts: multiset<Key>,               // claims given back by a relay run that did not commit
    verdicts: set<(OrderId, Assessment, NotificationCommand)>) // every verdict llm published, with its message

  const INIT := System(EMPTY, map[], map[], multiset{}, multiset{}, multiset{}, multiset{}, multiset{},
                       multiset{}, map[], multiset{}, multiset{}, {})

  datatype Step =
    | BeginIngest(t: nat, message: Envelope, now: int)
    | InsertOrder(t: nat)
    | AddRequest(t: nat)
    | BeginVerdict(t: nat, verdict: AssessmentResult, now: int)
    | ReadOrder(t: nat)
    | UpdateOrder(t: nat)
    | AddNotify(t: nat)
    | Ack(t: nat)
    | Claim(t: nat, keys: seq<Key>)
    | Publish(t: nat)
    | PublishRaises(t: nat, delivered: bool)
    | Mark(t: nat)
    | Commit(t: nat)
    | Abort(t: nat)
    | Receive(w: nat, request: Payload)
    | Assess(w: nat, assessment: Assessment, notification: NotificationCommand)
    | Drop(w: nat)
    | Defer(w: nat)
    | Finish(w: nat)
    | RetryPublishRaises(w: nat, delivered: bool)
    | Crash(w: nat)
    | RetryExpires(request: Payload)

  // ----- Reading the state -----

  function View(s: System, x: Txn): Tables
    requires !x.RelayTxn?
  {
    Overlay(s.tables, x.writes)
  }

  /** Another open transaction has written the row of this order. */
  predicate OrderBlocked(s: System, t: nat, id: OrderId) {
    exists u | u in s.txns :: u != t && !s.txns[u].RelayTxn? && id in s.txns[u].writes.orders
  }

  /** Another open transaction has inserted this dedup key. */
  predicate KeyBlocked(s: System, t: nat, key: Key) {
    exists u | u in s.txns :: u != t && !s.txns[u].RelayTxn? && key in s.txns[u].writes.outbox
  }

  function EventOf(t: Tables, key: Key): Event
    requires key in t.outbox
  {
    Event(key, t.outbox[key].destination, t.outbox[key].payload)
  }

  /** SELECT ... WHERE status = 'pending' ORDER BY created_at LIMIT n FOR UPDATE SKIP LOCKED. */
  predicate Claimable(s: System, keys: seq<Key>, limit: nat) {
    && |keys| <= limit
    && (forall i | 0 <= i < |keys| ::
          keys[i] in s.tables.outbox && !s.tables.outbox[keys[i]].published && keys[i] !in s.rowLocks)
    && (forall i, j | 0 <= i < j < |keys| :: keys[i] != keys[j])
  }

  function Events(t: Tables, keys: seq<Key>): seq<Event>
    requires forall i | 0 <= i < |keys| :: keys[i] in t.outbox
  {
    seq(|keys|, i requires 0 <= i < |keys| => EventOf(t, keys[i]))
  }

  function Locked(locks: map<Key, nat>, keys: seq<Key>, owner: nat): map<Key, nat> {
    map k | k in locks.Keys + (set i | 0 <= i < |keys| :: keys[i]) :: if k in keys then owner else locks[k]
  }

  function Keys(events: seq<Event>): set<Key> {
    set i | 0 <= i < |events| :: events[i].key
  }

  // ----- What is enabled -----

  predicate IsIngest(s: System, t: nat) { t in s.txns && s.txns[t].IngestTxn? }
  predicate IsVerdict(s: System, t: nat, stage: VerdictStage) {
    t in s.txns && s.txns[t].VerdictTxn? && s.txns[t].stage == stage
  }
  predicate IsRelay(s: System, t: nat) { t in s.txns && s.txns[t].RelayTxn? }

  predicate Publishing(s: System, t: nat) {
    IsRelay(s, t) && s.txns[t].sent < |s.txns[t].events|
  }

  predicate Committable(x: Txn) {
    match x
    case IngestTxn(batch, pos, adding, _, _) => pos == |batch| && !adding
    case VerdictTxn(_, stage, _, _) => stage == Closing
    case RelayTxn(_, _, marked) => marked
  }

  predicate Working(s: System, w: nat) {
    w in s.workers && s.workers[w].pos < |s.workers[w].envelope.orders|
  }

  predicate Enabled(cfg: Settings, s: System, step: Step) {
    match step
    case BeginIngest(t, _, _) => t !in s.txns
    case InsertOrder(t) =>
      && IsIngest(s, t) && !s.txns[t].adding && s.txns[t].pos < |s.txns[t].batch|
      && var id := s.txns[t].batch[s.txns[t].pos].externalId;
      (id in View(s, s.txns[t]).orders || !OrderBlocked(s, t, id))
    case AddRequest(t) =>
      && IsIngest(s, t) && s.txns[t].adding && s.txns[t].pos < |s.txns[t].batch|
      && var key := AssessKey(s.txns[t].batch[s.txns[t].pos].externalId);
      (key in View(s, s.txns[t]).outbox || !KeyBlocked(s, t, key))
    case BeginVerdict(t, verdict, _) => t !in s.txns && verdict in s.results
    case ReadOrder(t) => IsVerdict(s, t, Reading)
    case UpdateOrder(t) => IsVerdict(s, t, Setting) && !OrderBlocked(s, t, s.txns[t].verdict.orderId)
    case AddNotify(t) =>
      && IsVerdict(s, t, Adding)
      && var key := NotifyKey(s.txns[t].verdict.orderId);
      (key in View(s, s.txns[t]).outbox || !KeyBlocked(s, t, key))
    case Ack(t) => IsVerdict(s, t, Settled)
    case Claim(t, keys) => t !in s.txns && Claimable(s, keys, cfg.batchSize)
    case Publish(t) => Publishing(s, t) && Known(s.txns[t].events[s.txns[t].sent].destination)
    case PublishRaises(t, delivered) =>
      Publishing(s, t) && (delivered ==> Known(s.txns[t].events[s.txns[t].sent].destination))
    case Mark(t) => IsRelay(s, t) && s.txns[t].sent == |s.txns[t].events|
    case Commit(t) => t in s.txns && Committable(s.txns[t])
    case Abort(t) => t in s.txns
    case Receive(w, request) => w !in s.workers && request in s.requests && request.Request?
    case Assess(w, a, _) => Working(s, w) && 0 <= a.score <= 100 && Decide(a, cfg.llmThreshold).notify
    case Drop(w) => Working(s, w)
    case Defer(w) => Working(s, w)
    case Finish(w) => w in s.workers && !Working(s, w)
    case RetryPublishRaises(w, _) => w in s.workers && !Working(s, w) && s.workers[w].retryable != []
    case Crash(w) => w in s.workers
    case RetryExpires(request) => request in s.retries
  }

  // ----- What it does -----

  /** insert_new on the current order; a new order goes on to its outbox event. */
  function Inserted(view: Tables, x: Txn): Txn
    requires x.IngestTxn? && x.pos < |x.batch|
  {
    var order := x.batch[x.pos];
    if order.externalId in view.orders then x.(pos := x.pos + 1)
    else x.(adding := true, writes := InsertNew(view, x.writes, order))
  }

  /** add_assessment_request on the order just inserted. */
  function Requested(view: Tables, x: Txn): Txn
    requires x.IngestTxn? && x.pos < |x.batch|
  {
    x.(adding := false, pos := x.pos + 1,
       writes := AddAssessmentRequest(view, x.writes, x.batch[x.pos], x.now))
  }

  /** set_status on the branch the threshold picks. */
  function Updated(cfg: Settings, view: Tables, x: Txn): Txn
    requires x.VerdictTxn?
  {
    var notify := DecideNotification(x.verdict.score, cfg.coreThreshold);
    x.(stage := if notify then Adding else Closing,
       writes := SetStatus(view, x.writes, x.verdict.orderId,
                           if notify then NotifyRequested else NoNotify, x.verdict.score))
  }

  /** add_notification, the last statement of the notify branch. */
  function Notified(view: Tables, x: Txn): Txn
    requires x.VerdictTxn?
  {
    x.(stage := Closing,
       writes := AddNotification(view, x.writes, x.verdict.orderId, x.verdict.notification, x.now))
  }

  /** FastStreamEventPublisher knows these destinations and raises ValueError on any other. */
  predicate Known(destination: string) {
    destination == ASSESS_REQUEST || destination == NOTIFY
  }

  function Deliver(s: System, e: Event): System
    requires Known(e.destination)
  {
    var s := s.(sent := s.sent + multiset{e});
    if e.destination == ASSESS_REQUEST then s.(requests := s.requests + multiset{e.payload})
    else s.(notifications := s.notifications + multiset{e.payload})
  }

  /** The transaction is gone; a claim is given back and an unacknowledged verdict is requeued. */
  function Rollback(s: System, t: nat): System
    requires t in s.txns
  {
    var s' := s.(txns := s.txns - {t});
    match s.txns[t]
    case IngestTxn(_, _, _, _, _) => s'
    case VerdictTxn(verdict, _, _, _) => s'.(results := s.results + multiset{verdict})
    case RelayTxn(events, _, _) =>
      s'.(rowLocks := s.rowLocks - Keys(events), aborts := s.aborts + multiset(Keys(events)))
  }

  function Committed(s: System, t: nat): System
    requires t in s.txns
  {
    match s.txns[t]
    case IngestTxn(_, _, _, _, writes) =>
      s.(tables := Overlay(s.tables, writes), txns := s.txns - {t})
    case VerdictTxn(verdict, _, now, writes) =>
      s.(tables := Overlay(s.tables, writes), txns := s.txns[t := VerdictTxn(verdict, Settled, now, EMPTY)])
    case RelayTxn(events, _, _) =>
      s.(tables := MarkPublished(s.tables, Keys(events)), txns := s.txns - {t},
         rowLocks := s.rowLocks - Keys(events))
  }

  function Do(cfg: Settings, s: System, step: Step): System
    requires Enabled(cfg, s, step)
  {
    match step
    case BeginIngest(t, message, now) =>
      s.(txns := s.txns[t := IngestTxn(ToIncomingOrders(message), 0, false, now, EMPTY)])
    case InsertOrder(t) =>
      s.(txns := s.txns[t := Inserted(View(s, s.txns[t]), s.txns[t])])
    case AddRequest(t) =>
      s.(txns := s.txns[t := Requested(View(s, s.txns[t]), s.txns[t])])
    case BeginVerdict(t, verdict, now) =>
      s.(txns := s.txns[t := VerdictTxn(verdict, Reading, now, EMPTY)],
         results := s.results - multiset{verdict})
    case ReadOrder(t) =>
      var x := s.txns[t];
      var view := View(s, x);
      if x.verdict.orderId !in view.orders then
        // PermanentError: guard publishes the message to order.dlq and acknowledges it
        s.(txns := s.txns - {t}, orderDlq := s.orderDlq + multiset{x.verdict})
      else
        var stage := if CanApplyAssessment(view.orders[x.verdict.orderId].status) then Setting else Closing;
        s.(txns := s.txns[t := x.(stage := stage)])
    case UpdateOrder(t) =>
      s.(txns := s.txns[t := Updated(cfg, View(s, s.txns[t]), s.txns[t])])
    case AddNotify(t) =>
      s.(txns := s.txns[t := Notified(View(s, s.txns[t]), s.txns[t])])
    case Ack(t) => s.(txns := s.txns - {t})
    case Claim(t, keys) =>
      s.(txns := s.txns[t := RelayTxn(Events(s.tables, keys), 0, false)], rowLocks := Locked(s.rowLocks, keys, t))
    case Publish(t) =>
      var x := s.txns[t];
      Deliver(s, x.events[x.sent]).(txns := s.txns[t := x.(sent := x.sent + 1)])
    case PublishRaises(t, delivered) =>
      var x := s.txns[t];
      Rollback(if delivered then Deliver(s, x.events[x.sent]) else s, t)
    case Mark(t) => s.(txns := s.txns[t := s.txns[t].(marked := true)])
    case Commit(t) => Committed(s, t)
    case Abort(t) => Rollback(s, t)
    case Receive(w, request) =>
      s.(requests := s.requests - multiset{request},
         workers := s.workers[w := Worker(request.envelope, 0, [])])
    case Assess(w, a, n) =>
      var x := s.workers[w];
      var order := x.envelope.orders[x.pos];
      s.(workers := s.workers[w := x.(pos := x.pos + 1)],
         results := s.results + multiset{BuildResult(order, a, n)},
         verdicts := s.verdicts + {(order.id, a, n)})
    case Drop(w) => s.(workers := s.workers[w := s.workers[w].(pos := s.workers[w].pos + 1)])
    case Defer(w) =>
      var x := s.workers[w];
      s.(workers := s.workers[w :=
           x.(pos := x.pos + 1, retryable := x.retryable + [x.envelope.orders[x.pos].id])])
    case Finish(w) =>
      var x := s.workers[w];
      var s' := s.(workers := s.workers - {w});
      if x.retryable == [] then s'
      else s'.(retries := s.retries + multiset{Request(RetryEnvelope(x.envelope, x.retryable))})
    case RetryPublishRaises(w, delivered) =>
      // the exception escapes the subscriber: REJECT_ON_ERROR dead-letters the delivery
      var x := s.workers[w];
      var s' := s.(workers := s.workers - {w}, rejected := s.rejected + multiset{Request(x.envelope)});
      if delivered then s'.(retries := s.retries + multiset{Request(RetryEnvelope(x.envelope, x.retryable))})
      else s'
    case Crash(w) =>
      s.(workers := s.workers - {w}, requests := s.requests + multiset{Request(s.workers[w].envelope)})
    case RetryExpires(request) =>
      s.(retries := s.retries - multiset{request}, requests := s.requests + multiset{request})
  }

  // ----- Runs -----

  /** `steps` can be taken one after the other from `s`. */
  predicate Runs(cfg: Settings, s: System, steps: seq<Step>)
    decreases |steps|
  {
    steps == [] || (Enabled(cfg, s, steps[0]) && Runs(cfg, Do(cfg, s, steps[0]), steps[1..]))
  }

  function After(cfg: Settings, s: System, steps: seq<Step>): System
    requires Runs(cfg, s, steps)
    decreases |steps|
  {
    if steps == [] then s else After(cfg, Do(cfg, s, steps[0]), steps[1..])
  }
}
