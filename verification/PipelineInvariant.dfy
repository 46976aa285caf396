/**
 What every step of the pipeline keeps.  Each predicate takes only the parts of the
 state it speaks of, so a step that leaves those parts alone keeps it outright.
 */
module PipelineInvariant {
  import opened Wrappers
  import opened Wire
  import opened OrderTables
  import opened Assessing
  import opened Pipeline

  type Verdicts = set<(OrderId, Assessment, NotificationCommand)>

  // ----- Committed tables -----

  /** The assess.requests event of an order carries that order and nothing else. */
  predicate RequestFor(id: OrderId, order: OrderRow, event: OutboxRow) {
    && order.payload.id == id
    && event.destination == ASSESS_REQUEST
    && event.payload.Request?
    && event.payload.envelope.orders == [order.payload]
  }

  predicate NotifyEvent(event: OutboxRow, n: NotificationCommand) {
    event.destination == NOTIFY && event.payload == Command(n)
  }

  /** llm published a verdict with this score for `id`. */
  ghost predicate Judged(verdicts: Verdicts, id: OrderId, score: int) {
    exists a, n :: (id, a, n) in verdicts && a.score == score
  }

  /** llm published a verdict with this score and this message for `id`. */
  ghost predicate JudgedWith(verdicts: Verdicts, id: OrderId, score: int, n: NotificationCommand) {
    exists a :: (id, a, n) in verdicts && a.score == score
  }

  /** llm published a verdict for `id` on the given side of core's threshold. */
  ghost predicate JudgedOn(cfg: Settings, verdicts: Verdicts, id: OrderId, notify: bool) {
    exists a, n :: (id, a, n) in verdicts && DecideNotification(a.score, cfg.coreThreshold) == notify
  }

  /** llm published this message for `id`, with a score that core notifies about. */
  ghost predicate BuiltFor(cfg: Settings, verdicts: Verdicts, id: OrderId, n: NotificationCommand) {
    exists a :: (id, a, n) in verdicts && a.score >= cfg.coreThreshold
  }

  ghost predicate StatusOk(cfg: Settings, t: Tables, verdicts: Verdicts, id: OrderId, row: OrderRow) {
    match row.status
    case AssessRequested => row.score == None && NotifyKey(id) !in t.outbox
    case NotifyRequested =>
      && NotifyKey(id) in t.outbox && row.score.Some?
      && row.score.value >= cfg.coreThreshold && Judged(verdicts, id, row.score.value)
    case NoNotify =>
      row.score.Some? && row.score.value < cfg.coreThreshold && Judged(verdicts, id, row.score.value)
    case Failed => false
  }

  ghost predicate OrderOk(cfg: Settings, t: Tables, verdicts: Verdicts, id: OrderId)
    requires id in t.orders
  {
    && AssessKey(id) in t.outbox
    && RequestFor(id, t.orders[id], t.outbox[AssessKey(id)])
    && StatusOk(cfg, t, verdicts, id, t.orders[id])
  }

  ghost predicate EventOk(cfg: Settings, t: Tables, verdicts: Verdicts, k: Key)
    requires k in t.outbox
  {
    && k.id in t.orders
    && (k.NotifyKey? ==>
          && t.outbox[k].payload.Command? && NotifyEvent(t.outbox[k], t.outbox[k].payload.notification)
          && BuiltFor(cfg, verdicts, k.id, t.outbox[k].payload.notification))
  }

  ghost predicate TablesOk(cfg: Settings, t: Tables, verdicts: Verdicts) {
    && (forall id | id in t.orders :: OrderOk(cfg, t, verdicts, id))
    && (forall k | k in t.outbox :: EventOk(cfg, t, verdicts, k))
  }

  // ----- Open transactions -----

  predicate IngestOk(t: Tables, x: Txn)
    requires x.IngestTxn?
  {
    && x.pos <= |x.batch|
    && (forall i | 0 <= i < |x.batch| :: x.batch[i].externalId == x.batch[i].payload.id)
    && (x.adding ==>
          && x.pos < |x.batch|
          && x.batch[x.pos].externalId in x.writes.orders
          && x.writes.orders[x.batch[x.pos].externalId] == NewOrderRow(x.batch[x.pos])
          && AssessKey(x.batch[x.pos].externalId) !in x.writes.outbox)
    && (forall id | id in x.writes.orders ::
          && id !in t.orders
          && x.writes.orders[id].payload.id == id
          && x.writes.orders[id].status == AssessRequested && x.writes.orders[id].score == None
          && (AssessKey(id) in x.writes.outbox || (x.adding && id == x.batch[x.pos].externalId)))
    && (forall k | k in x.writes.outbox ::
          && k !in t.outbox && k.AssessKey? && k.id in x.writes.orders
          && !x.writes.outbox[k].published && x.writes.outbox[k].createdAt == x.now
          && RequestFor(k.id, x.writes.orders[k.id], x.writes.outbox[k]))
  }

  /** The row an open verdict transaction has written for its order. */
  predicate Decided(cfg: Settings, t: Tables, x: Txn, notify: bool)
    requires x.VerdictTxn?
  {
    var id := x.verdict.orderId;
    && id in t.orders
    && x.writes.orders == map[id := t.orders[id].(
         status := if notify then NotifyRequested else NoNotify, score := Some(x.verdict.score))]
    && DecideNotification(x.verdict.score, cfg.coreThreshold) == notify
  }

  predicate VerdictOk(cfg: Settings, t: Tables, x: Txn)
    requires x.VerdictTxn?
  {
    var key := NotifyKey(x.verdict.orderId);
    && x.verdict.orderId in t.orders
    && (forall k | k in x.writes.outbox :: k == key && k !in t.outbox
          && !x.writes.outbox[k].published && x.writes.outbox[k].createdAt == x.now
          && NotifyEvent(x.writes.outbox[k], x.verdict.notification))
    && match x.stage
       case Reading => x.writes == EMPTY
       case Setting => x.writes == EMPTY
       case Settled => x.writes == EMPTY
       case Adding => x.writes.outbox == map[] && Decided(cfg, t, x, true)
       case Closing =>
         || x.writes == EMPTY
         || (x.writes.outbox == map[] && Decided(cfg, t, x, false))
         || (Decided(cfg, t, x, true) && (key in x.writes.outbox || key in t.outbox))
  }

  predicate ClaimOk(t: Tables, locks: map<Key, nat>, owner: nat, e: Event) {
    && e.key in t.outbox && !t.outbox[e.key].published
    && e == EventOf(t, e.key)
    && e.key in locks && locks[e.key] == owner
  }

  predicate RelayOk(t: Tables, locks: map<Key, nat>, owner: nat, x: Txn)
    requires x.RelayTxn?
  {
    && x.sent <= |x.events|
    && (x.marked ==> x.sent == |x.events|)
    && (forall i | 0 <= i < |x.events| :: ClaimOk(t, locks, owner, x.events[i]))
    && (forall i, j | 0 <= i < j < |x.events| :: x.events[i].key != x.events[j].key)
  }

  predicate TxnOk(cfg: Settings, t: Tables, locks: map<Key, nat>, owner: nat, x: Txn) {
    match x
    case IngestTxn(_, _, _, _, _) => IngestOk(t, x)
    case VerdictTxn(_, _, _, _) => VerdictOk(cfg, t, x)
    case RelayTxn(_, _, _) => RelayOk(t, locks, owner, x)
  }

  predicate TxnsOk(cfg: Settings, t: Tables, locks: map<Key, nat>, txns: map<nat, Txn>) {
    forall u | u in txns :: TxnOk(cfg, t, locks, u, txns[u])
  }

  /** The two transactions have written no common row. */
  predicate Apart(x: Txn, y: Txn) {
    x.RelayTxn? || y.RelayTxn? ||
    (x.writes.orders.Keys !! y.writes.orders.Keys && x.writes.outbox.Keys !! y.writes.outbox.Keys)
  }

  predicate AllApart(txns: map<nat, Txn>) {
    forall t, u | t in txns && u in txns && t != u :: Apart(txns[t], txns[u])
  }

  predicate Owned(txns: map<nat, Txn>, owner: nat, k: Key) {
    owner in txns && txns[owner].RelayTxn? && k in Keys(txns[owner].events)
  }

  /** Every row lock belongs to an open relay run that claimed the row. */
  predicate LocksOk(txns: map<nat, Txn>, locks: map<Key, nat>) {
    forall k | k in locks :: Owned(txns, locks[k], k)
  }

  // ----- Messages -----

  predicate KnownOrders(t: Tables, e: Envelope) {
    forall o | o in e.orders :: o.id in t.orders
  }

  predicate QueueOk(t: Tables, queue: multiset<Payload>) {
    forall p | p in queue :: p.Request? && KnownOrders(t, p.envelope)
  }

  predicate WorkersOk(t: Tables, workers: map<nat, Worker>) {
    forall w | w in workers :: KnownOrders(t, workers[w].envelope)
  }

  ghost predicate VerdictKnown(t: Tables, verdicts: Verdicts, r: AssessmentResult) {
    r.orderId in t.orders && JudgedWith(verdicts, r.orderId, r.score, r.notification)
  }

  ghost predicate ResultsOk(t: Tables, verdicts: Verdicts, results: multiset<AssessmentResult>) {
    forall r | r in results :: VerdictKnown(t, verdicts, r)
  }

  ghost predicate InFlightOk(t: Tables, verdicts: Verdicts, txns: map<nat, Txn>) {
    forall u | u in txns && txns[u].VerdictTxn? :: VerdictKnown(t, verdicts, txns[u].verdict)
  }

  predicate VerdictsOk(cfg: Settings, verdicts: Verdicts) {
    forall v | v in verdicts :: Decide(v.1, cfg.llmThreshold).notify && 0 <= v.1.score <= 100
  }

  // ----- What the relay has published -----

  /** The row went out at most once for each aborted run that claimed it, plus at most once more. */
  predicate Counted(t: Tables, locks: map<Key, nat>, sent: multiset<Event>, aborts: multiset<Key>, k: Key)
    requires k in t.outbox
  {
    sent[EventOf(t, k)] <= aborts[k] + (if t.outbox[k].published || k in locks then 1 else 0)
  }

  predicate SentOk(t: Tables, locks: map<Key, nat>, sent: multiset<Event>, aborts: multiset<Key>) {
    && (forall e | e in sent :: e.key in t.outbox && e == EventOf(t, e.key))
    && (forall k | k in t.outbox :: Counted(t, locks, sent, aborts, k))
    && (forall k | k in t.outbox && t.outbox[k].published :: EventOf(t, k) in sent)
  }

  predicate SendingOk(txns: map<nat, Txn>, sent: multiset<Event>, aborts: multiset<Key>) {
    forall u | u in txns && txns[u].RelayTxn? :: RunOk(txns[u], sent, aborts)
  }

  predicate RunOk(x: Txn, sent: multiset<Event>, aborts: multiset<Key>)
    requires x.RelayTxn?
  {
    forall i | 0 <= i < |x.events| ::
      if i < x.sent then x.events[i] in sent
      else sent[x.events[i]] <= aborts[x.events[i].key]
  }

  predicate NotificationsOk(notifications: multiset<Payload>, sent: multiset<Event>) {
    forall p | p in notifications :: exists e :: e in sent && e.destination == NOTIFY && e.payload == p
  }

  ghost predicate Inv(cfg: Settings, s: System) {
    && TablesOk(cfg, s.tables, s.verdicts)
    && TxnsOk(cfg, s.tables, s.rowLocks, s.txns)
    && AllApart(s.txns) && LocksOk(s.txns, s.rowLocks)
    && QueueOk(s.tables, s.requests) && QueueOk(s.tables, s.retries) && QueueOk(s.tables, s.rejected)
    && WorkersOk(s.tables, s.workers)
    && ResultsOk(s.tables, s.verdicts, s.results)
    && InFlightOk(s.tables, s.verdicts, s.txns)
    && VerdictsOk(cfg, s.verdicts) && s.orderDlq == multiset{}
    && SentOk(s.tables, s.rowLocks, s.sent, s.aborts)
    && SendingOk(s.txns, s.sent, s.aborts)
    && NotificationsOk(s.notifications, s.sent)
  }
}
