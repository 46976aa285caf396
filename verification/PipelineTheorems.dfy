/** What holds in every reachable state of the pipeline, and along every run. */
module PipelineTheorems {
  import opened Wrappers
  import opened Wire
  import opened OrderTables
  import opened Assessing
  import opened Pipeline
  import opened PipelineInvariant
  import opened PipelineSteps

  lemma StepKeeps(cfg: Settings, s: System, step: Step)
    requires Inv(cfg, s) && Enabled(cfg, s, step)
    ensures Inv(cfg, Do(cfg, s, step))
  {
    hide Inv;
    match step
    case BeginIngest(t, message, now) => BeginIngestKeeps(cfg, s, t, message, now);
    case InsertOrder(t) => InsertOrderKeeps(cfg, s, t);
    case AddRequest(t) => AddRequestKeeps(cfg, s, t);
    case BeginVerdict(t, verdict, now) => BeginVerdictKeeps(cfg, s, t, verdict, now);
    case ReadOrder(t) => ReadOrderKeeps(cfg, s, t);
    case UpdateOrder(t) => UpdateOrderKeeps(cfg, s, t);
    case AddNotify(t) => AddNotifyKeeps(cfg, s, t);
    case Ack(t) => AckKeeps(cfg, s, t);
    case Claim(t, keys) => ClaimKeeps(cfg, s, t, keys);
    case Publish(t) => PublishKeeps(cfg, s, t);
    case PublishRaises(t, delivered) => PublishRaisesKeeps(cfg, s, t, delivered);
    case Mark(t) => MarkKeeps(cfg, s, t);
    case Commit(t) => CommitKeeps(cfg, s, t);
    case Abort(t) => AbortKeeps(cfg, s, t);
    case Receive(w, request) => ReceiveKeeps(cfg, s, w, request);
    case Assess(w, a, n) => AssessKeeps(cfg, s, w, a, n);
    case Drop(w) => DropKeeps(cfg, s, w);
    case Defer(w) => DeferKeeps(cfg, s, w);
    case Finish(w) => FinishKeeps(cfg, s, w);
    case RetryPublishRaises(w, delivered) => RetryPublishRaisesKeeps(cfg, s, w, delivered);
    case Crash(w) => CrashKeeps(cfg, s, w);
    case RetryExpires(request) => RetryExpiresKeeps(cfg, s, request);
  }

  lemma {:induction false} RunKeeps(cfg: Settings, s: System, steps: seq<Step>)
    requires Inv(cfg, s) && Runs(cfg, s, steps)
    ensures Inv(cfg, After(cfg, s, steps))
    decreases |steps|
  {
    hide Inv, Do, Enabled;
    if steps != [] {
      StepKeeps(cfg, s, steps[0]);
      RunKeeps(cfg, Do(cfg, s, steps[0]), steps[1..]);
    }
  }

  lemma Reachable(cfg: Settings, steps: seq<Step>)
    requires Runs(cfg, INIT, steps)
    ensures Inv(cfg, After(cfg, INIT, steps))
  {
    RunKeeps(cfg, INIT, steps);
  }

  // ----- Persist before publish -----

  predicate Carries(queue: multiset<Payload>, id: OrderId) {
    exists p | p in queue :: p.Request? && exists o | o in p.envelope.orders :: o.id == id
  }

  /** Order `id` is on its way to llm, being handled there, or answered by llm. */
  predicate InTransit(s: System, id: OrderId) {
    || Carries(s.requests, id) || Carries(s.retries, id) || Carries(s.rejected, id)
    || (exists w | w in s.workers :: exists o | o in s.workers[w].envelope.orders :: o.id == id)
    || (exists r | r in s.results :: r.orderId == id)
    || (exists t | t in s.txns :: s.txns[t].VerdictTxn? && s.txns[t].verdict.orderId == id)
  }

  /**
   llm never holds and never answers for an order core does not have, through aborts,
   crashes, duplicate deliveries and retries: so a verdict always finds its order, and
   guard never dead-letters one as permanent.
   */
  lemma {:induction false} PersistBeforePublish(cfg: Settings, steps: seq<Step>)
    requires Runs(cfg, INIT, steps)
    ensures var s := After(cfg, INIT, steps);
            && (forall id | InTransit(s, id) :: id in s.tables.orders)
            && (forall t | IsVerdict(s, t, Reading) :: s.txns[t].verdict.orderId in View(s, s.txns[t]).orders)
            && s.orderDlq == multiset{}
  {
    hide TablesOk, AllApart, LocksOk, SentOk, SendingOk, NotificationsOk, JudgedWith;
    Reachable(cfg, steps);
    var s := After(cfg, INIT, steps);
    forall t | IsVerdict(s, t, Reading) ensures s.txns[t].verdict.orderId in View(s, s.txns[t]).orders {
      assert VerdictKnown(s.tables, s.verdicts, s.txns[t].verdict);
    }
  }

  // ----- Interleaved verdicts -----

  /**
   However verdict transactions interleave and wherever they abort: an order has its
   assess event; a waiting order has no score and no notify event; a notified order has
   its notify event (the dedup key makes it the only one) and a score at or over the
   threshold; a skipped one scored below it; FAILED is never used.
   */
  lemma {:induction false} StatusMeaning(cfg: Settings, steps: seq<Step>, id: OrderId)
    requires Runs(cfg, INIT, steps) && id in After(cfg, INIT, steps).tables.orders
    ensures var t := After(cfg, INIT, steps).tables;
            var row := t.orders[id];
            && AssessKey(id) in t.outbox && t.outbox[AssessKey(id)].payload.Request?
            && t.outbox[AssessKey(id)].payload.envelope.orders == [row.payload] && row.payload.id == id
            && match row.status
               case AssessRequested => row.score == None && NotifyKey(id) !in t.outbox
               case NotifyRequested =>
                 NotifyKey(id) in t.outbox && row.score.Some? && row.score.value >= cfg.coreThreshold
               case NoNotify => row.score.Some? && row.score.value < cfg.coreThreshold
               case Failed => false
  {
    hide TxnsOk, AllApart, LocksOk, SentOk, SendingOk, NotificationsOk, EventOk, Judged;
    Reachable(cfg, steps);
    var s := After(cfg, INIT, steps);
    assert OrderOk(cfg, s.tables, s.verdicts, id);
  }

  /** Committed rows stay, with what they were inserted with; an order never waits for a verdict again. */
  ghost predicate Grows(t: Tables, t': Tables) {
    && (forall id | id in t.orders ::
          && id in t'.orders && t'.orders[id].payload == t.orders[id].payload
          && (t.orders[id].status != AssessRequested ==> t'.orders[id].status != AssessRequested))
    && (forall k | k in t.outbox ::
          && k in t'.outbox && EventOf(t', k) == EventOf(t, k) && t'.outbox[k].createdAt == t.outbox[k].createdAt
          && (t.outbox[k].published ==> t'.outbox[k].published))
  }

  lemma CommitGrows(cfg: Settings, t: Tables, locks: map<Key, nat>, owner: nat, x: Txn)
    requires TxnOk(cfg, t, locks, owner, x)
    ensures Grows(t, if x.RelayTxn? then MarkPublished(t, Keys(x.events)) else Overlay(t, x.writes))
  {
  }

  /** A row that a commit adds is pending and bears the time of its transaction. */
  lemma CommittedRowsAreTimed(cfg: Settings, s: System, t: nat, k: Key)
    requires Inv(cfg, s) && Enabled(cfg, s, Commit(t)) && !s.txns[t].RelayTxn?
    requires k in Do(cfg, s, Commit(t)).tables.outbox && k !in s.tables.outbox
    ensures var row := Do(cfg, s, Commit(t)).tables.outbox[k];
            !row.published && row.createdAt == s.txns[t].now
  {
    hide TablesOk, AllApart, LocksOk, SentOk, SendingOk, NotificationsOk, ResultsOk, InFlightOk, QueueOk;
    assert TxnOk(cfg, s.tables, s.rowLocks, t, s.txns[t]);
  }

  lemma StepGrows(cfg: Settings, s: System, step: Step)
    requires Inv(cfg, s) && Enabled(cfg, s, step)
    ensures Grows(s.tables, Do(cfg, s, step).tables)
  {
    hide Grows, TxnOk, OrderOk, EventOk;
    if step.Commit? {
      assert TxnOk(cfg, s.tables, s.rowLocks, step.t, s.txns[step.t]);
      CommitGrows(cfg, s.tables, s.rowLocks, step.t, s.txns[step.t]);
    } else {
      StepLeaves(cfg, s, step);
      GrowsReflexive(s.tables);
    }
  }

  lemma GrowsReflexive(t: Tables)
    ensures Grows(t, t)
  {
  }

  /** One statement of a transaction before it ends. */
  predicate InTransaction(step: Step) {
    || step.BeginIngest? || step.InsertOrder? || step.AddRequest? || step.BeginVerdict? || step.ReadOrder?
    || step.UpdateOrder? || step.AddNotify? || step.Ack? || step.Claim? || step.Mark?
  }

  predicate EndOrPublish(step: Step) {
    step.Publish? || step.PublishRaises? || step.Commit? || step.Abort?
  }

  lemma TransactionLeaves(cfg: Settings, s: System, step: Step)
    requires Enabled(cfg, s, step) && InTransaction(step)
    ensures Do(cfg, s, step).tables == s.tables && Do(cfg, s, step).verdicts == s.verdicts
  {
    hide View, Events, Locked, Inserted, Requested, Updated, Notified, ToIncomingOrders;
  }

  lemma EndLeaves(cfg: Settings, s: System, step: Step)
    requires Enabled(cfg, s, step) && EndOrPublish(step)
    ensures !step.Commit? ==> Do(cfg, s, step).tables == s.tables
    ensures Do(cfg, s, step).verdicts == s.verdicts
  {
    hide View, Keys;
  }

  lemma LlmLeaves(cfg: Settings, s: System, step: Step)
    requires Enabled(cfg, s, step) && !InTransaction(step) && !EndOrPublish(step)
    ensures Do(cfg, s, step).tables == s.tables
    ensures !step.Assess? ==> Do(cfg, s, step).verdicts == s.verdicts
  {
    hide RetryEnvelope, BuildResult;
  }

  /** Only a commit changes the committed tables, and only llm's verdicts the history of them. */
  lemma StepLeaves(cfg: Settings, s: System, step: Step)
    requires Enabled(cfg, s, step)
    ensures !step.Commit? ==> Do(cfg, s, step).tables == s.tables
    ensures !step.Assess? ==> Do(cfg, s, step).verdicts == s.verdicts
  {
    hide Enabled, Do;
    if InTransaction(step) {
      TransactionLeaves(cfg, s, step);
    } else if EndOrPublish(step) {
      EndLeaves(cfg, s, step);
    } else {
      LlmLeaves(cfg, s, step);
    }
  }

  lemma {:induction false} RunGrows(cfg: Settings, s: System, steps: seq<Step>)
    requires Inv(cfg, s) && Runs(cfg, s, steps)
    ensures Grows(s.tables, After(cfg, s, steps).tables)
    decreases |steps|
  {
    hide Inv, Do, Enabled;
    if steps != [] {
      StepGrows(cfg, s, steps[0]);
      StepKeeps(cfg, s, steps[0]);
      RunGrows(cfg, Do(cfg, s, steps[0]), steps[1..]);
    }
  }

  /** From any reachable state on: no payload changes, nothing is unpublished, no order waits again. */
  lemma {:induction false} HistoryIsKept(cfg: Settings, before: seq<Step>, after: seq<Step>)
    requires Runs(cfg, INIT, before) && Runs(cfg, After(cfg, INIT, before), after)
    ensures Grows(After(cfg, INIT, before).tables, After(cfg, After(cfg, INIT, before), after).tables)
  {
    hide Inv;
    Reachable(cfg, before);
    RunGrows(cfg, After(cfg, INIT, before), after);
  }

  // ----- The relay -----

  /**
   With publishes that fail, crashes between publish and commit and several relays at once:
   only committed rows go out, as they are; a row marked published did go out; a row goes out
   at most once more often than runs that claimed it gave it back; no row is held by two runs;
   and every destination is one the publisher knows.
   */
  lemma {:induction false} RelaySafety(cfg: Settings, steps: seq<Step>)
    requires Runs(cfg, INIT, steps)
    ensures var s := After(cfg, INIT, steps);
            && (forall e | e in s.sent :: e.key in s.tables.outbox && e == EventOf(s.tables, e.key))
            && (forall k | k in s.tables.outbox && s.tables.outbox[k].published :: EventOf(s.tables, k) in s.sent)
            && (forall k | k in s.tables.outbox :: s.sent[EventOf(s.tables, k)] <= 1 + s.aborts[k])
            && (forall t, u | IsRelay(s, t) && IsRelay(s, u) && t != u ::
                  Keys(s.txns[t].events) !! Keys(s.txns[u].events))
            && (forall t | Publishing(s, t) :: Known(s.txns[t].events[s.txns[t].sent].destination))
  {
    hide TablesOk, TxnsOk, AllApart, LocksOk, SendingOk, ResultsOk, InFlightOk, QueueOk;
    Reachable(cfg, steps);
    var s := After(cfg, INIT, steps);
    forall k | k in s.tables.outbox ensures s.sent[EventOf(s.tables, k)] <= 1 + s.aborts[k] {
      assert Counted(s.tables, s.rowLocks, s.sent, s.aborts, k);
    }
    forall t, u | IsRelay(s, t) && IsRelay(s, u) && t != u
      ensures Keys(s.txns[t].events) !! Keys(s.txns[u].events)
    {
      ClaimsDisjoint(cfg, s, t, u);
    }
    forall t | Publishing(s, t) ensures Known(s.txns[t].events[s.txns[t].sent].destination) {
      EventRouted(cfg, s, t);
    }
  }

  /** The committed notify event of an order carries a message that llm published for that very order. */
  lemma {:induction false} MessagesAreTheirOrders(cfg: Settings, steps: seq<Step>, id: OrderId)
    requires Runs(cfg, INIT, steps) && NotifyKey(id) in After(cfg, INIT, steps).tables.outbox
    ensures var s := After(cfg, INIT, steps);
            var payload := s.tables.outbox[NotifyKey(id)].payload;
            && id in s.tables.orders && payload.Command?
            && exists a :: (id, a, payload.notification) in s.verdicts && a.score >= cfg.coreThreshold
  {
    hide TxnsOk, AllApart, LocksOk, SentOk, SendingOk, NotificationsOk, ResultsOk, InFlightOk, QueueOk, OrderOk;
    Reachable(cfg, steps);
    assert EventOk(cfg, After(cfg, INIT, steps).tables, After(cfg, INIT, steps).verdicts, NotifyKey(id));
  }

  /**
   What the notifications service receives is the payload of the committed notify event of an order,
   and that is a message llm published for that very order.
   */
  lemma {:induction false} NotificationsComeFromRows(cfg: Settings, steps: seq<Step>, p: Payload)
    requires Runs(cfg, INIT, steps) && p in After(cfg, INIT, steps).notifications
    ensures p.Command?
    ensures var s := After(cfg, INIT, steps);
            exists id :: id in s.tables.orders && NotifyKey(id) in s.tables.outbox
              && s.tables.outbox[NotifyKey(id)].payload == p && BuiltFor(cfg, s.verdicts, id, p.notification)
  {
    hide TxnsOk, AllApart, LocksOk, SendingOk, ResultsOk, InFlightOk, QueueOk, Judged, BuiltFor, StatusOk;
    Reachable(cfg, steps);
    var s := After(cfg, INIT, steps);
    var e :| e in s.sent && e.destination == NOTIFY && e.payload == p;
    assert EventOk(cfg, s.tables, s.verdicts, e.key);
    assert OrderOk(cfg, s.tables, s.verdicts, e.key.id);
    assert ASSESS_REQUEST[0] != NOTIFY[0];
    assert e.key == NotifyKey(e.key.id);
  }

  // ----- The two thresholds -----

  /** A notified order was judged suitable by llm and passed both thresholds with the score on its row. */
  lemma {:induction false} TwoThresholds(cfg: Settings, steps: seq<Step>, id: OrderId)
    requires Runs(cfg, INIT, steps) && id in After(cfg, INIT, steps).tables.orders
    ensures var s := After(cfg, INIT, steps);
            var row := s.tables.orders[id];
            && (row.status == NotifyRequested ==>
                  exists a, n :: (id, a, n) in s.verdicts && row.score == Some(a.score)
                    && a.unsupportedHits == [] && !a.isRejectedType
                    && a.score >= cfg.llmThreshold && a.score >= cfg.coreThreshold)
            && (cfg.coreThreshold <= cfg.llmThreshold ==> row.status != NoNotify)
  {
    hide TxnsOk, AllApart, LocksOk, SentOk, SendingOk, NotificationsOk, EventOk, ResultsOk, InFlightOk, QueueOk;
    Reachable(cfg, steps);
    var s := After(cfg, INIT, steps);
    var row := s.tables.orders[id];
    assert OrderOk(cfg, s.tables, s.verdicts, id);
    if row.status != AssessRequested {
      var a, n :| (id, a, n) in s.verdicts && a.score == row.score.value;
      assert Decide((id, a, n).1, cfg.llmThreshold).notify;
    }
  }
}
