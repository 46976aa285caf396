/**
 Nothing that the pipeline has taken on is lost, through aborts, crashes, publishes that raise and
 redeliveries: an order stays on its way until llm drops it, a verdict until its order is judged.
 */
module NothingLost {
  import opened Wire
  import opened OrderTables
  import opened Assessing
  import opened Pipeline
  import opened PipelineInvariant
  import opened PipelineTheorems

  // ----- Where an order can be -----

  predicate Mentions(e: Envelope, id: OrderId) {
    exists o | o in e.orders :: o.id == id
  }

  /** The worker has still to look at the order, or has put its id down for a retry. */
  predicate HeldBy(x: Worker, id: OrderId) {
    || (exists i :: x.pos <= i < |x.envelope.orders| && x.envelope.orders[i].id == id)
    || (id in x.retryable && Mentions(x.envelope, id))
  }

  predicate Held(workers: map<nat, Worker>, id: OrderId) {
    exists w | w in workers :: HeldBy(workers[w], id)
  }

  /** A request for the order is queued, waits for its retry, is handled, or is parked in the dead-letter queue. */
  predicate Asked(s: System, id: OrderId) {
    Carries(s.requests, id) || Carries(s.retries, id) || Carries(s.rejected, id) || Held(s.workers, id)
  }

  /** This verdict is queued or being handled. */
  predicate OnItsWay(s: System, r: AssessmentResult) {
    r in s.results || exists t | t in s.txns :: s.txns[t].VerdictTxn? && s.txns[t].verdict == r
  }

  predicate Concluded(t: Tables, id: OrderId) {
    id in t.orders && t.orders[id].status != AssessRequested
  }

  ghost predicate Answered(s: System, id: OrderId) {
    Concluded(s.tables, id) || exists r :: OnItsWay(s, r) && r.orderId == id
  }

  // ----- A verdict transaction that wrote nothing found its order judged -----

  predicate Quiet(x: Txn) {
    x.VerdictTxn? && (x.stage == Settled || (x.stage == Closing && x.writes == EMPTY))
  }

  predicate QuietOk(s: System) {
    forall t | t in s.txns && Quiet(s.txns[t]) :: Concluded(s.tables, s.txns[t].verdict.orderId)
  }

  lemma ConcludedStays(cfg: Settings, s: System, step: Step, id: OrderId)
    requires Inv(cfg, s) && Enabled(cfg, s, step) && Concluded(s.tables, id)
    ensures Concluded(Do(cfg, s, step).tables, id)
  {
    hide Inv, Enabled, Do;
    StepGrows(cfg, s, step);
  }

  // ----- The other transactions stay -----

  predicate OfTransaction(step: Step, t: nat) {
    (InTransaction(step) || EndOrPublish(step)) && step.t == t
  }

  predicate SameTxn(s: System, s': System, u: nat) {
    (u in s'.txns <==> u in s.txns) && (u in s.txns ==> s'.txns[u] == s.txns[u])
  }

  lemma OthersAtBegin(cfg: Settings, s: System, step: Step, u: nat)
    requires Enabled(cfg, s, step) && (step.BeginIngest? || step.BeginVerdict? || step.Claim?) && step.t != u
    ensures SameTxn(s, Do(cfg, s, step), u)
  {
    hide Events, Locked, ToIncomingOrders, Enabled;
  }

  lemma OthersAtStatement(cfg: Settings, s: System, step: Step, u: nat)
    requires step.InsertOrder? || step.AddRequest? || step.UpdateOrder? || step.AddNotify? || step.Mark?
    requires Enabled(cfg, s, step) && step.t != u
    ensures SameTxn(s, Do(cfg, s, step), u)
  {
    hide View, Inserted, Requested, Updated, Notified, Enabled;
  }

  lemma OthersInTransaction(cfg: Settings, s: System, step: Step, u: nat)
    requires Enabled(cfg, s, step) && InTransaction(step) && step.t != u
    ensures SameTxn(s, Do(cfg, s, step), u)
  {
    hide View, CanApplyAssessment, Enabled;
    if step.BeginIngest? || step.BeginVerdict? || step.Claim? {
      hide Do;
      OthersAtBegin(cfg, s, step, u);
    } else if !step.ReadOrder? && !step.Ack? {
      hide Do;
      OthersAtStatement(cfg, s, step, u);
    }
  }

  lemma DeliverLeaves(s: System, e: Event)
    requires Known(e.destination)
    ensures Deliver(s, e).txns == s.txns && s.requests <= Deliver(s, e).requests
    ensures s.notifications <= Deliver(s, e).notifications && Deliver(s, e).sent == s.sent + multiset{e}
    ensures e.destination == NOTIFY ==> e.payload in Deliver(s, e).notifications
    ensures Deliver(s, e).results == s.results && Deliver(s, e).workers == s.workers
    ensures Deliver(s, e).retries == s.retries && Deliver(s, e).rejected == s.rejected
  {
  }

  lemma EndLeavesOthers(s: System, t: nat, u: nat)
    requires t in s.txns && t != u
    ensures SameTxn(s, Rollback(s, t), u) && SameTxn(s, Committed(s, t), u)
  {
    hide Keys, MarkPublished, Overlay;
  }

  lemma OthersAtEnd(cfg: Settings, s: System, step: Step, u: nat)
    requires Enabled(cfg, s, step) && EndOrPublish(step) && step.t != u
    ensures SameTxn(s, Do(cfg, s, step), u)
  {
    hide Rollback, Committed, Deliver;
    EndLeavesOthers(s, step.t, u);
    if step.Publish? || (step.PublishRaises? && step.delivered) {
      var e := s.txns[step.t].events[s.txns[step.t].sent];
      DeliverLeaves(s, e);
      EndLeavesOthers(Deliver(s, e), step.t, u);
    }
  }

  /** A worker looks at its next order. */
  predicate AtOrder(step: Step) { step.Assess? || step.Drop? || step.Defer? }

  predicate AtQueue(step: Step) {
    step.Receive? || step.Finish? || step.RetryPublishRaises? || step.Crash? || step.RetryExpires?
  }

  lemma OthersAtOrder(cfg: Settings, s: System, step: Step)
    requires Enabled(cfg, s, step) && AtOrder(step)
    ensures Do(cfg, s, step).txns == s.txns && s.results <= Do(cfg, s, step).results
    ensures Do(cfg, s, step).requests == s.requests && Do(cfg, s, step).retries == s.retries
    ensures Do(cfg, s, step).rejected == s.rejected && Do(cfg, s, step).sent == s.sent
    ensures Do(cfg, s, step).notifications == s.notifications
  {
    hide BuildResult;
  }

  lemma OthersAtQueue(cfg: Settings, s: System, step: Step)
    requires Enabled(cfg, s, step) && AtQueue(step)
    ensures Do(cfg, s, step).txns == s.txns && Do(cfg, s, step).results == s.results
    ensures Do(cfg, s, step).sent == s.sent && Do(cfg, s, step).notifications == s.notifications
  {
    hide Enabled, Do;
    match step
    case Receive(w, request) => ReceiveMoves(cfg, s, w, request);
    case Finish(w) => FinishMoves(cfg, s, w);
    case RetryPublishRaises(w, delivered) => RaiseMoves(cfg, s, w, delivered);
    case Crash(w) => CrashMoves(cfg, s, w);
    case RetryExpires(request) => ExpireMoves(cfg, s, request);
  }

  lemma ReceiveMoves(cfg: Settings, s: System, w: nat, request: Payload)
    requires Enabled(cfg, s, Receive(w, request))
    ensures w !in s.workers && request.Request?
    ensures Do(cfg, s, Receive(w, request))
            == s.(requests := s.requests - multiset{request},
                  workers := s.workers[w := Worker(request.envelope, 0, [])])
  {
  }

  lemma FinishMoves(cfg: Settings, s: System, w: nat)
    requires Enabled(cfg, s, Finish(w))
    ensures w in s.workers && s.workers[w].pos >= |s.workers[w].envelope.orders|
    ensures var x := s.workers[w];
            Do(cfg, s, Finish(w))
            == if x.retryable == [] then s.(workers := s.workers - {w})
               else s.(workers := s.workers - {w},
                       retries := s.retries + multiset{Request(RetryEnvelope(x.envelope, x.retryable))})
  {
    hide RetryEnvelope;
  }

  lemma RaiseMoves(cfg: Settings, s: System, w: nat, delivered: bool)
    requires Enabled(cfg, s, RetryPublishRaises(w, delivered))
    ensures w in s.workers
    ensures var x := s.workers[w];
            var dead := s.(workers := s.workers - {w}, rejected := s.rejected + multiset{Request(x.envelope)});
            Do(cfg, s, RetryPublishRaises(w, delivered))
            == if delivered then
                 dead.(retries := s.retries + multiset{Request(RetryEnvelope(x.envelope, x.retryable))})
               else dead
  {
    hide RetryEnvelope;
  }

  lemma CrashMoves(cfg: Settings, s: System, w: nat)
    requires Enabled(cfg, s, Crash(w))
    ensures w in s.workers
    ensures Do(cfg, s, Crash(w)) == s.(workers := s.workers - {w},
                                       requests := s.requests + multiset{Request(s.workers[w].envelope)})
  {
  }

  lemma ExpireMoves(cfg: Settings, s: System, request: Payload)
    requires Enabled(cfg, s, RetryExpires(request))
    ensures Do(cfg, s, RetryExpires(request)) == s.(retries := s.retries - multiset{request},
                                                    requests := s.requests + multiset{request})
  {
  }

  /** A step begins, changes or ends no transaction but its own. */
  lemma OthersStay(cfg: Settings, s: System, step: Step, u: nat)
    requires Enabled(cfg, s, step) && !OfTransaction(step, u)
    ensures SameTxn(s, Do(cfg, s, step), u)
  {
    hide Enabled, Do;
    if InTransaction(step) {
      OthersInTransaction(cfg, s, step, u);
    } else if EndOrPublish(step) {
      OthersAtEnd(cfg, s, step, u);
    } else if AtOrder(step) {
      OthersAtOrder(cfg, s, step);
    } else {
      OthersAtQueue(cfg, s, step);
    }
  }

  // ----- A verdict transaction, step by step -----

  /** The transaction after one more statement. */
  lemma VerdictMoves(cfg: Settings, s: System, step: Step)
    requires Inv(cfg, s) && Enabled(cfg, s, step) && (InTransaction(step) || EndOrPublish(step))
    requires step.t in s.txns && s.txns[step.t].VerdictTxn?
    ensures var x := s.txns[step.t];
            var s' := Do(cfg, s, step);
            if step.Abort? then s'.results == s.results + multiset{x.verdict}
            else if step.Ack? then x.stage == Settled
            else
              && step.t in s'.txns && s'.txns[step.t].VerdictTxn? && s'.txns[step.t].verdict == x.verdict
              && (Quiet(s'.txns[step.t]) ==> Quiet(x) || Concluded(s'.tables, x.verdict.orderId))
  {
    hide TablesOk, AllApart, LocksOk, SentOk, SendingOk, NotificationsOk, ResultsOk, InFlightOk, QueueOk;
    hide IngestOk, RelayOk, Events, Locked, Keys, Inserted, Requested, ToIncomingOrders;
    assert TxnOk(cfg, s.tables, s.rowLocks, step.t, s.txns[step.t]);
  }

  lemma QuietKept(cfg: Settings, s: System, step: Step)
    requires Inv(cfg, s) && Enabled(cfg, s, step) && QuietOk(s)
    ensures QuietOk(Do(cfg, s, step))
  {
    hide Inv, Enabled, Do, Concluded;
    var s' := Do(cfg, s, step);
    forall u | u in s'.txns && s'.txns[u].VerdictTxn? && Quiet(s'.txns[u])
      ensures Concluded(s'.tables, s'.txns[u].verdict.orderId)
    {
      if OfTransaction(step, u) {
        QuietStep(cfg, s, step);
      } else {
        OthersStay(cfg, s, step, u);
        ConcludedStays(cfg, s, step, s.txns[u].verdict.orderId);
      }
    }
  }

  lemma QuietStep(cfg: Settings, s: System, step: Step)
    requires Inv(cfg, s) && Enabled(cfg, s, step) && QuietOk(s) && (InTransaction(step) || EndOrPublish(step))
    requires step.t in Do(cfg, s, step).txns && Quiet(Do(cfg, s, step).txns[step.t])
    ensures Concluded(Do(cfg, s, step).tables, Do(cfg, s, step).txns[step.t].verdict.orderId)
  {
    hide Inv;
    if step.t in s.txns && s.txns[step.t].VerdictTxn? {
      VerdictMoves(cfg, s, step);
      hide Enabled, Do;
      if Quiet(s.txns[step.t]) { ConcludedStays(cfg, s, step, s.txns[step.t].verdict.orderId); }
    }
  }

  // ----- Verdicts -----

  /** Only the beginning of its handling takes a verdict off the queue. */
  lemma ResultsStay(cfg: Settings, s: System, step: Step, r: AssessmentResult)
    requires Enabled(cfg, s, step) && r in s.results
    ensures r in Do(cfg, s, step).results || (step.BeginVerdict? && step.verdict == r)
  {
    hide Enabled, Do;
    if InTransaction(step) {
      TransactionMoves(cfg, s, step);
    } else if EndOrPublish(step) {
      EndMoves(cfg, s, step);
    } else if AtOrder(step) {
      OthersAtOrder(cfg, s, step);
    } else {
      OthersAtQueue(cfg, s, step);
    }
  }

  /** A statement of a transaction leaves llm and its queues alone. */
  lemma TransactionMoves(cfg: Settings, s: System, step: Step)
    requires Enabled(cfg, s, step) && InTransaction(step)
    ensures var s' := Do(cfg, s, step);
            && s'.requests == s.requests && s'.retries == s.retries && s'.rejected == s.rejected
            && s'.workers == s.workers && s'.sent == s.sent && s'.notifications == s.notifications
            && s'.results == if step.BeginVerdict? then s.results - multiset{step.verdict} else s.results
  {
    hide View, Events, Locked, Inserted, Requested, Updated, Notified, ToIncomingOrders;
  }

  lemma RollbackMoves(s: System, t: nat)
    requires t in s.txns
    ensures var s' := Rollback(s, t);
            && s'.requests == s.requests && s'.retries == s.retries && s'.rejected == s.rejected
            && s'.workers == s.workers && s.results <= s'.results && s'.sent == s.sent
            && s'.notifications == s.notifications
  {
    hide Keys;
  }

  lemma CommittedMoves(s: System, t: nat)
    requires t in s.txns
    ensures var s' := Committed(s, t);
            && s'.requests == s.requests && s'.retries == s.retries && s'.rejected == s.rejected
            && s'.workers == s.workers && s.results == s'.results && s'.sent == s.sent
            && s'.notifications == s.notifications
  {
    hide Keys, MarkPublished, Overlay;
  }

  /** So does its end, and a publish only adds to them. */
  lemma EndMoves(cfg: Settings, s: System, step: Step)
    requires Enabled(cfg, s, step) && EndOrPublish(step)
    ensures var s' := Do(cfg, s, step);
            && s.requests <= s'.requests && s'.retries == s.retries && s'.rejected == s.rejected
            && s'.workers == s.workers && s.results <= s'.results && s.notifications <= s'.notifications
  {
    hide Rollback, Committed, Deliver;
    RollbackMoves(s, step.t);
    CommittedMoves(s, step.t);
    if step.Publish? || (step.PublishRaises? && step.delivered) {
      var e := s.txns[step.t].events[s.txns[step.t].sent];
      DeliverLeaves(s, e);
      RollbackMoves(Deliver(s, e), step.t);
    }
  }

  lemma VerdictBegins(cfg: Settings, s: System, t: nat, r: AssessmentResult, now: int)
    requires Enabled(cfg, s, BeginVerdict(t, r, now))
    ensures OnItsWay(Do(cfg, s, BeginVerdict(t, r, now)), r)
  {
    var s' := Do(cfg, s, BeginVerdict(t, r, now));
    assert t in s'.txns && s'.txns[t].VerdictTxn? && s'.txns[t].verdict == r;
  }

  /** A verdict on its way stays there until its order is judged. */
  lemma VerdictStays(cfg: Settings, s: System, step: Step, r: AssessmentResult)
    requires Inv(cfg, s) && Enabled(cfg, s, step) && QuietOk(s) && OnItsWay(s, r)
    ensures OnItsWay(Do(cfg, s, step), r) || Concluded(Do(cfg, s, step).tables, r.orderId)
  {
    hide Inv, Enabled, Do, Concluded;
    var s' := Do(cfg, s, step);
    if r in s.results {
      ResultsStay(cfg, s, step, r);
      if r !in s'.results {
        VerdictBegins(cfg, s, step.t, r, step.now);
      }
    } else {
      var t :| t in s.txns && s.txns[t].VerdictTxn? && s.txns[t].verdict == r;
      if OfTransaction(step, t) {
        VerdictMoves(cfg, s, step);
        if step.Ack? { ConcludedStays(cfg, s, step, r.orderId); }
      } else {
        OthersStay(cfg, s, step, t);
      }
    }
  }

  // ----- Orders -----

  lemma CarriesMore(a: multiset<Payload>, b: multiset<Payload>, id: OrderId)
    requires a <= b
    ensures Carries(a, id) ==> Carries(b, id)
  {
  }

  lemma CarriesThis(queue: multiset<Payload>, e: Envelope, id: OrderId)
    requires Request(e) in queue && Mentions(e, id)
    ensures Carries(queue, id)
  {
    assert Request(e).Request?;
  }

  lemma CarriesLess(queue: multiset<Payload>, p: Payload, id: OrderId)
    requires Carries(queue, id)
    ensures Carries(queue - multiset{p}, id) || (p.Request? && Mentions(p.envelope, id))
  {
    var q :| q in queue && q.Request? && exists o | o in q.envelope.orders :: o.id == id;
    if q != p { assert q in queue - multiset{p}; }
  }

  lemma HoldsThis(workers: map<nat, Worker>, w: nat, id: OrderId)
    requires w in workers && HeldBy(workers[w], id)
    ensures Held(workers, id)
  {
  }

  lemma StillHeld(workers: map<nat, Worker>, w: nat, workers': map<nat, Worker>, id: OrderId)
    requires Held(workers, id) && forall u | u in workers && u != w :: u in workers' && workers'[u] == workers[u]
    ensures Held(workers', id) || (w in workers && HeldBy(workers[w], id))
  {
    var u :| u in workers && HeldBy(workers[u], id);
    if u != w { HoldsThis(workers', u, id); }
  }

  lemma WholeBatchIsHeld(e: Envelope, id: OrderId)
    requires Mentions(e, id)
    ensures HeldBy(Worker(e, 0, []), id)
  {
    var o :| o in e.orders && o.id == id;
    var i :| 0 <= i < |e.orders| && e.orders[i] == o;
  }

  lemma HeldIsMentioned(x: Worker, id: OrderId)
    requires HeldBy(x, id)
    ensures Mentions(x.envelope, id)
  {
    if i :| x.pos <= i < |x.envelope.orders| && x.envelope.orders[i].id == id {
      assert x.envelope.orders[i] in x.envelope.orders;
    }
  }

  lemma {:induction false} SelectKeeps(orders: seq<WireOrder>, ids: seq<OrderId>, o: WireOrder)
    requires o in orders && o.id in ids
    ensures o in Select(orders, ids)
  {
    if o != orders[0] { SelectKeeps(orders[1..], ids, o); }
  }

  lemma RetriedIsMentioned(x: Worker, id: OrderId)
    requires HeldBy(x, id) && x.pos >= |x.envelope.orders|
    ensures x.retryable != [] && Mentions(RetryEnvelope(x.envelope, x.retryable), id)
  {
    var o :| o in x.envelope.orders && o.id == id;
    SelectKeeps(x.envelope.orders, x.retryable, o);
  }

  /** The step drops this order. */
  predicate Drops(s: System, step: Step, id: OrderId) {
    && step.Drop? && Working(s, step.w)
    && s.workers[step.w].envelope.orders[s.workers[step.w].pos].id == id
  }

  lemma AskedAtOrder(cfg: Settings, s: System, step: Step, id: OrderId)
    requires Enabled(cfg, s, step) && AtOrder(step) && !Drops(s, step, id) && Held(s.workers, id)
    ensures Held(Do(cfg, s, step).workers, id) || exists r :: r in Do(cfg, s, step).results && r.orderId == id
  {
    hide Held, Mentions;
    var s' := Do(cfg, s, step);
    StillHeld(s.workers, step.w, s'.workers, id);
    var x := s.workers[step.w];
    if !Held(s'.workers, id) && !(step.Assess? && x.envelope.orders[x.pos].id == id) {
      HeldIsMentioned(x, id);
      assert HeldBy(s'.workers[step.w], id);
      HoldsThis(s'.workers, step.w, id);
    } else if step.Assess? {
      assert BuildResult(x.envelope.orders[x.pos], step.assessment, step.notification) in s'.results;
    }
  }

  lemma AskedAtQueue(cfg: Settings, s: System, step: Step, id: OrderId)
    requires Enabled(cfg, s, step) && AtQueue(step) && Asked(s, id)
    ensures Asked(Do(cfg, s, step), id)
  {
    hide Asked, Enabled, Do;
    match step
    case Receive(w, request) => AskedAtReceive(cfg, s, w, request, id);
    case Finish(w) => AskedAtFinish(cfg, s, w, id);
    case RetryPublishRaises(w, delivered) => AskedAtRaise(cfg, s, w, delivered, id);
    case Crash(w) => AskedAtCrash(cfg, s, w, id);
    case RetryExpires(request) => AskedAtExpiry(cfg, s, request, id);
  }

  lemma AskedAtReceive(cfg: Settings, s: System, w: nat, request: Payload, id: OrderId)
    requires Enabled(cfg, s, Receive(w, request)) && Asked(s, id)
    ensures Asked(Do(cfg, s, Receive(w, request)), id)
  {
    hide Held, Mentions, Carries, HeldBy, Enabled, Do;
    var s' := Do(cfg, s, Receive(w, request));
    ReceiveMoves(cfg, s, w, request);
    if Held(s.workers, id) { StillHeld(s.workers, w, s'.workers, id); }
    if Carries(s.requests, id) { CarriesLess(s.requests, request, id); }
    if Mentions(request.envelope, id) {
      WholeBatchIsHeld(request.envelope, id);
      HoldsThis(s'.workers, w, id);
    }
  }

  lemma AskedAtFinish(cfg: Settings, s: System, w: nat, id: OrderId)
    requires Enabled(cfg, s, Finish(w)) && Asked(s, id)
    ensures Asked(Do(cfg, s, Finish(w)), id)
  {
    hide Held, Mentions, Carries, HeldBy, RetryEnvelope, Enabled, Do;
    var s' := Do(cfg, s, Finish(w));
    FinishMoves(cfg, s, w);
    LeavesWorker(s, s', w, id);
    CarriesMore(s.retries, s'.retries, id);
    if HeldBy(s.workers[w], id) {
      var x := s.workers[w];
      RetriedIsMentioned(x, id);
      CarriesThis(s'.retries, RetryEnvelope(x.envelope, x.retryable), id);
    }
  }

  lemma AskedAtRaise(cfg: Settings, s: System, w: nat, delivered: bool, id: OrderId)
    requires Enabled(cfg, s, RetryPublishRaises(w, delivered)) && Asked(s, id)
    ensures Asked(Do(cfg, s, RetryPublishRaises(w, delivered)), id)
  {
    hide Held, Mentions, Carries, HeldBy, RetryEnvelope, Enabled, Do;
    var s' := Do(cfg, s, RetryPublishRaises(w, delivered));
    RaiseMoves(cfg, s, w, delivered);
    LeavesWorker(s, s', w, id);
    CarriesMore(s.retries, s'.retries, id);
    CarriesMore(s.rejected, s'.rejected, id);
    if HeldBy(s.workers[w], id) {
      HeldIsMentioned(s.workers[w], id);
      CarriesThis(s'.rejected, s.workers[w].envelope, id);
    }
  }

  lemma AskedAtCrash(cfg: Settings, s: System, w: nat, id: OrderId)
    requires Enabled(cfg, s, Crash(w)) && Asked(s, id)
    ensures Asked(Do(cfg, s, Crash(w)), id)
  {
    hide Held, Mentions, Carries, HeldBy, Enabled, Do;
    var s' := Do(cfg, s, Crash(w));
    CrashMoves(cfg, s, w);
    LeavesWorker(s, s', w, id);
    CarriesMore(s.requests, s'.requests, id);
    if HeldBy(s.workers[w], id) {
      HeldIsMentioned(s.workers[w], id);
      CarriesThis(s'.requests, s.workers[w].envelope, id);
    }
  }

  lemma AskedAtExpiry(cfg: Settings, s: System, request: Payload, id: OrderId)
    requires Enabled(cfg, s, RetryExpires(request)) && Asked(s, id)
    ensures Asked(Do(cfg, s, RetryExpires(request)), id)
  {
    hide Held, Mentions, Carries, Enabled, Do;
    var s' := Do(cfg, s, RetryExpires(request));
    ExpireMoves(cfg, s, request);
    CarriesMore(s.requests, s'.requests, id);
    if Carries(s.retries, id) {
      CarriesLess(s.retries, request, id);
      if request.Request? && Mentions(request.envelope, id) { CarriesThis(s'.requests, request.envelope, id); }
    }
  }

  lemma LeavesWorker(s: System, s': System, w: nat, id: OrderId)
    requires w in s.workers && s'.workers == s.workers - {w}
    ensures Held(s.workers, id) ==> Held(s'.workers, id) || HeldBy(s.workers[w], id)
  {
    hide HeldBy;
    if Held(s.workers, id) { StillHeld(s.workers, w, s'.workers, id); }
  }

  // ----- An order that was asked about -----

  /** The assess event of the order has gone out. */
  predicate WasSent(s: System, id: OrderId) {
    AssessKey(id) in s.tables.outbox && EventOf(s.tables, AssessKey(id)) in s.sent
  }

  /** llm is asked about the order, or has answered. */
  ghost predicate CaredFor(s: System, id: OrderId) { Asked(s, id) || Answered(s, id) }

  lemma AskedStays(cfg: Settings, s: System, step: Step, id: OrderId)
    requires Enabled(cfg, s, step) && Asked(s, id) && !Drops(s, step, id)
    ensures CaredFor(Do(cfg, s, step), id)
  {
    hide Enabled, Do, Held, Carries, Concluded, Drops;
    var s' := Do(cfg, s, step);
    if InTransaction(step) {
      TransactionMoves(cfg, s, step);
    } else if EndOrPublish(step) {
      EndMoves(cfg, s, step);
      CarriesMore(s.requests, s'.requests, id);
    } else if AtOrder(step) {
      OthersAtOrder(cfg, s, step);
      if Held(s.workers, id) {
        AskedAtOrder(cfg, s, step, id);
        if !Held(s'.workers, id) {
          var r :| r in s'.results && r.orderId == id;
          assert OnItsWay(s', r);
        }
      }
    } else {
      AskedAtQueue(cfg, s, step, id);
    }
  }

  lemma AnsweredStays(cfg: Settings, s: System, step: Step, id: OrderId)
    requires Inv(cfg, s) && Enabled(cfg, s, step) && QuietOk(s) && Answered(s, id)
    ensures Answered(Do(cfg, s, step), id)
  {
    hide Inv, Enabled, Do, OnItsWay, Concluded, QuietOk;
    if Concluded(s.tables, id) {
      ConcludedStays(cfg, s, step, id);
    } else {
      var r :| OnItsWay(s, r) && r.orderId == id;
      VerdictStays(cfg, s, step, r);
    }
  }

  /** What goes out for the assess event of a committed order asks for that order. */
  lemma EventAsks(cfg: Settings, s: System, id: OrderId)
    requires Inv(cfg, s) && AssessKey(id) in s.tables.outbox
    ensures var e := EventOf(s.tables, AssessKey(id));
            e.destination == ASSESS_REQUEST && e.payload.Request? && Mentions(e.payload.envelope, id)
  {
    hide TxnsOk, AllApart, LocksOk, SentOk, SendingOk, NotificationsOk, ResultsOk, InFlightOk, QueueOk, StatusOk;
    assert EventOk(cfg, s.tables, s.verdicts, AssessKey(id));
    assert OrderOk(cfg, s.tables, s.verdicts, id);
    assert s.tables.orders[id].payload in s.tables.outbox[AssessKey(id)].payload.envelope.orders;
  }

  lemma DeliverAsks(s: System, e: Event, id: OrderId)
    requires e.destination == ASSESS_REQUEST && e.payload.Request? && Mentions(e.payload.envelope, id)
    ensures Carries(Deliver(s, e).requests, id)
  {
    hide Mentions, Carries;
    CarriesThis(s.requests + multiset{e.payload}, e.payload.envelope, id);
  }

  /** The event that a publish of this step sends, if it sends one. */
  predicate Sends(s: System, step: Step, e: Event) {
    && (step.Publish? || (step.PublishRaises? && step.delivered))
    && Publishing(s, step.t) && s.txns[step.t].events[s.txns[step.t].sent] == e
  }

  lemma SentAtEnd(cfg: Settings, s: System, step: Step, e: Event)
    requires Enabled(cfg, s, step) && EndOrPublish(step) && e in Do(cfg, s, step).sent && e !in s.sent
    ensures Sends(s, step, e) && Known(e.destination)
    ensures Do(cfg, s, step).requests == Deliver(s, e).requests
    ensures e.destination == NOTIFY ==> e.payload in Do(cfg, s, step).notifications
  {
    hide Rollback, Committed, Known;
    RollbackMoves(s, step.t);
    CommittedMoves(s, step.t);
    if step.Publish? || (step.PublishRaises? && step.delivered) {
      var out := s.txns[step.t].events[s.txns[step.t].sent];
      DeliverLeaves(s, out);
      RollbackMoves(Deliver(s, out), step.t);
    }
  }

  lemma SentElsewhere(cfg: Settings, s: System, step: Step)
    requires Enabled(cfg, s, step) && !EndOrPublish(step)
    ensures Do(cfg, s, step).sent == s.sent && Do(cfg, s, step).notifications == s.notifications
  {
    hide Enabled, Do;
    if InTransaction(step) {
      TransactionMoves(cfg, s, step);
    } else if AtOrder(step) {
      OthersAtOrder(cfg, s, step);
    } else {
      OthersAtQueue(cfg, s, step);
    }
  }

  /** When the assess event of an order goes out for the first time, llm is asked about it. */
  lemma FirstSend(cfg: Settings, s: System, step: Step, id: OrderId)
    requires Inv(cfg, s) && Enabled(cfg, s, step) && WasSent(Do(cfg, s, step), id) && !WasSent(s, id)
    ensures Asked(Do(cfg, s, step), id)
  {
    hide Enabled, Do, Mentions, Carries, Held, TablesOk, TxnsOk, AllApart, LocksOk, SendingOk, NotificationsOk;
    hide ResultsOk, InFlightOk, QueueOk, WorkersOk, Deliver, Known;
    var s' := Do(cfg, s, step);
    var e := EventOf(s'.tables, AssessKey(id));
    if e in s.sent {
      StepGrows(cfg, s, step);
      assert false;
    }
    if EndOrPublish(step) {
      SentAtEnd(cfg, s, step, e);
      StepLeaves(cfg, s, step);
      EventAsks(cfg, s, id);
      DeliverAsks(s, e, id);
    } else {
      SentElsewhere(cfg, s, step);
    }
  }

  // ----- Along every run -----

  /** No step of the run drops this order. */
  predicate Spared(cfg: Settings, s: System, steps: seq<Step>, id: OrderId)
    requires Runs(cfg, s, steps)
    decreases |steps|
  {
    steps == [] || (!Drops(s, steps[0], id) && Spared(cfg, Do(cfg, s, steps[0]), steps[1..], id))
  }

  lemma {:induction false} OrdersKept(cfg: Settings, s: System, steps: seq<Step>, id: OrderId)
    requires Inv(cfg, s) && QuietOk(s) && Runs(cfg, s, steps) && Spared(cfg, s, steps, id)
    requires WasSent(s, id) ==> CaredFor(s, id)
    ensures WasSent(After(cfg, s, steps), id) ==> CaredFor(After(cfg, s, steps), id)
    decreases |steps|
  {
    hide Inv, QuietOk, Do, Enabled, WasSent, Drops, Asked, Answered;
    if steps != [] {
      var s' := Do(cfg, s, steps[0]);
      StepKeeps(cfg, s, steps[0]);
      QuietKept(cfg, s, steps[0]);
      if Asked(s, id) { AskedStays(cfg, s, steps[0], id); }
      if Answered(s, id) { AnsweredStays(cfg, s, steps[0], id); }
      if WasSent(s', id) && !WasSent(s, id) { FirstSend(cfg, s, steps[0], id); }
      OrdersKept(cfg, s', steps[1..], id);
    }
  }

  /**
   No order is lost: in every run that does not drop it, the assess event of a committed order is still
   to be published, or llm is asked about the order, or a verdict on it is on its way, or it is judged.
   */
  lemma {:induction false} NoOrderIsLost(cfg: Settings, steps: seq<Step>, id: OrderId)
    requires Runs(cfg, INIT, steps) && Spared(cfg, INIT, steps, id)
    requires id in After(cfg, INIT, steps).tables.orders
    ensures var s := After(cfg, INIT, steps);
            && AssessKey(id) in s.tables.outbox
            && (!s.tables.outbox[AssessKey(id)].published || CaredFor(s, id))
  {
    hide TxnsOk, AllApart, LocksOk, SendingOk, NotificationsOk, ResultsOk, InFlightOk, QueueOk, StatusOk;
    hide CaredFor;
    Reachable(cfg, steps);
    OrdersKept(cfg, INIT, steps, id) by { StartOk(cfg); }
    var s := After(cfg, INIT, steps);
    assert OrderOk(cfg, s.tables, s.verdicts, id);
  }

  lemma StartOk(cfg: Settings)
    ensures Inv(cfg, INIT) && QuietOk(INIT)
  {
  }

  /** The verdict llm published. */
  function ResultOf(v: (OrderId, Assessment, NotificationCommand)): AssessmentResult {
    AssessmentResult(v.0, v.1.score, v.2)
  }

  ghost predicate VerdictsKept(s: System) {
    forall v | v in s.verdicts :: OnItsWay(s, ResultOf(v)) || Concluded(s.tables, v.0)
  }

  lemma VerdictsStepKept(cfg: Settings, s: System, step: Step)
    requires Inv(cfg, s) && Enabled(cfg, s, step) && QuietOk(s) && VerdictsKept(s)
    ensures VerdictsKept(Do(cfg, s, step))
  {
    hide Inv, Enabled, Do, OnItsWay, Concluded, QuietOk;
    var s' := Do(cfg, s, step);
    StepLeaves(cfg, s, step);
    forall v | v in s'.verdicts ensures OnItsWay(s', ResultOf(v)) || Concluded(s'.tables, v.0) {
      if v in s.verdicts {
        if Concluded(s.tables, v.0) {
          ConcludedStays(cfg, s, step, v.0);
        } else {
          VerdictStays(cfg, s, step, ResultOf(v));
        }
      } else {
        NewVerdict(cfg, s, step, v);
      }
    }
  }

  lemma NewVerdict(cfg: Settings, s: System, step: Step, v: (OrderId, Assessment, NotificationCommand))
    requires Enabled(cfg, s, step) && step.Assess? && v in Do(cfg, s, step).verdicts && v !in s.verdicts
    ensures OnItsWay(Do(cfg, s, step), ResultOf(v))
  {
  }

  lemma {:induction false} VerdictsRunKept(cfg: Settings, s: System, steps: seq<Step>)
    requires Inv(cfg, s) && QuietOk(s) && VerdictsKept(s) && Runs(cfg, s, steps)
    ensures VerdictsKept(After(cfg, s, steps))
    decreases |steps|
  {
    hide Inv, QuietOk, Do, Enabled, VerdictsKept;
    if steps != [] {
      StepKeeps(cfg, s, steps[0]);
      QuietKept(cfg, s, steps[0]);
      VerdictsStepKept(cfg, s, steps[0]);
      VerdictsRunKept(cfg, Do(cfg, s, steps[0]), steps[1..]);
    }
  }

  /** No verdict is lost: each one that llm published is queued or being handled until its order is judged. */
  lemma {:induction false} NoVerdictIsLost(cfg: Settings, steps: seq<Step>, id: OrderId, a: Assessment,
                                           n: NotificationCommand)
    requires Runs(cfg, INIT, steps) && (id, a, n) in After(cfg, INIT, steps).verdicts
    ensures var s := After(cfg, INIT, steps);
            OnItsWay(s, AssessmentResult(id, a.score, n)) || Concluded(s.tables, id)
  {
    hide Inv, QuietOk;
    StartOk(cfg);
    VerdictsRunKept(cfg, INIT, steps);
    assert ResultOf((id, a, n)) == AssessmentResult(id, a.score, n);
  }

  // ----- Notifications -----

  predicate NotificationsKept(s: System) {
    forall e | e in s.sent && e.destination == NOTIFY :: e.payload in s.notifications
  }

  lemma NotificationsStepKept(cfg: Settings, s: System, step: Step)
    requires Enabled(cfg, s, step) && NotificationsKept(s)
    ensures NotificationsKept(Do(cfg, s, step))
  {
    hide Enabled, Do, Deliver, Known;
    var s' := Do(cfg, s, step);
    if EndOrPublish(step) {
      EndMoves(cfg, s, step);
      forall e | e in s'.sent && e.destination == NOTIFY ensures e.payload in s'.notifications {
        if e !in s.sent { SentAtEnd(cfg, s, step, e); }
      }
    } else {
      SentElsewhere(cfg, s, step);
    }
  }

  lemma {:induction false} NotificationsRunKept(cfg: Settings, s: System, steps: seq<Step>)
    requires NotificationsKept(s) && Runs(cfg, s, steps)
    ensures NotificationsKept(After(cfg, s, steps))
    decreases |steps|
  {
    hide Do, Enabled, NotificationsKept;
    if steps != [] {
      NotificationsStepKept(cfg, s, steps[0]);
      NotificationsRunKept(cfg, Do(cfg, s, steps[0]), steps[1..]);
    }
  }

  /** No notification is lost: the message of a notify event marked published has reached the exchange. */
  lemma {:induction false} NoNotificationIsLost(cfg: Settings, steps: seq<Step>, id: OrderId)
    requires Runs(cfg, INIT, steps) && NotifyKey(id) in After(cfg, INIT, steps).tables.outbox
    ensures var s := After(cfg, INIT, steps);
            var row := s.tables.outbox[NotifyKey(id)];
            row.published ==> row.payload in s.notifications
  {
    hide TxnsOk, AllApart, LocksOk, SendingOk, NotificationsOk, ResultsOk, InFlightOk, QueueOk, OrderOk, BuiltFor;
    Reachable(cfg, steps);
    NotificationsRunKept(cfg, INIT, steps);
    var s := After(cfg, INIT, steps);
    assert EventOk(cfg, s.tables, s.verdicts, NotifyKey(id));
  }
}
