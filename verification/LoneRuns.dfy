/**
 The transition system and the handlers agree: a transaction, a relay run or an llm worker of the
 pipeline whose steps nothing interrupts leaves what its handler leaves.
 */
module LoneRuns {
  import opened Wrappers
  import opened Wire
  import opened OrderTables
  import opened OrderCore
  import opened Assessing
  import opened Pipeline
  import A = AssessOrders
  import R = RelayOutbox
  import S = OrderSerial
  import V = VerdictRuns

  lemma MoveThen(cfg: Settings, s: System, step: Step, s': System, more: seq<Step>)
    requires V.Moves(cfg, s, step, s') && Runs(cfg, s', more)
    ensures Runs(cfg, s, [step] + more)
    ensures After(cfg, s, [step] + more) == After(cfg, s', more)
  {
    hide Do, Enabled;
    assert ([step] + more)[1..] == more;
  }

  lemma Move(cfg: Settings, s: System, step: Step, s': System)
    requires V.Moves(cfg, s, step, s')
    ensures Runs(cfg, s, [step]) && After(cfg, s, [step]) == s'
  {
    hide Do, Enabled;
  }

  lemma NoMove(cfg: Settings, s: System)
    ensures Runs(cfg, s, []) && After(cfg, s, []) == s
  {
    hide Do, Enabled;
  }

  // ----- llm -----

  type Judgements = set<(OrderId, Assessment, NotificationCommand)>

  /** What the worker does about an order that got this answer. */
  function StepOn(w: nat, answer: A.Answer, threshold: int): Step {
    match answer
    case Answered(a, n, _) => if A.Suitable(answer, threshold) then Assess(w, a, n) else Drop(w)
    case TransientFault => Defer(w)
    case OtherFault => Drop(w)
  }

  /** Scores as the model's answer is parsed. */
  predicate Scored(answers: seq<A.Answer>) {
    forall i | 0 <= i < |answers| && answers[i].Answered? :: 0 <= answers[i].assessment.score <= 100
  }

  /** The system with these changes by a worker. */
  function Changed(s: System, w: nat, worker: Worker, results: seq<AssessmentResult>, verdicts: Judgements): System {
    s.(workers := s.workers[w := worker], results := s.results + multiset(results), verdicts := verdicts)
  }

  function Deferred(order: WireOrder, answer: A.Answer): seq<OrderId> {
    if answer == A.TransientFault then [order.id] else []
  }

  function Judged(order: WireOrder, answer: A.Answer, threshold: int): seq<AssessmentResult> {
    if A.Suitable(answer, threshold) then [A.VerdictOn(order, answer)] else []
  }

  lemma ChangedTwice(s: System, w: nat, first: Worker, second: Worker, a: seq<AssessmentResult>,
                     b: seq<AssessmentResult>, v: Judgements, v': Judgements)
    ensures Changed(Changed(s, w, first, a, v), w, second, b, v') == Changed(s, w, second, a + b, v')
  {
    assert s.workers[w := first][w := second] == s.workers[w := second];
    assert multiset(a + b) == multiset(a) + multiset(b);
    Together(s.results, multiset(a), multiset(b), multiset(a + b));
  }

  lemma Together<T>(base: multiset<T>, a: multiset<T>, b: multiset<T>, both: multiset<T>)
    requires both == a + b
    ensures base + a + b == base + both
  {
  }

  lemma AnswerMoves(cfg: Settings, s: System, w: nat, e: Envelope, pos: nat, retryable: seq<OrderId>, answer: A.Answer)
    returns (verdicts: Judgements)
    requires pos < |e.orders| && w in s.workers && s.workers[w] == Worker(e, pos, retryable)
    requires answer.Answered? ==> 0 <= answer.assessment.score <= 100
    ensures V.Moves(cfg, s, StepOn(w, answer, cfg.llmThreshold),
                    Changed(s, w, Worker(e, pos + 1, retryable + Deferred(e.orders[pos], answer)),
                            Judged(e.orders[pos], answer, cfg.llmThreshold), verdicts))
  {
    verdicts := Do(cfg, s, StepOn(w, answer, cfg.llmThreshold)).verdicts;
    assert retryable + [] == retryable;
  }

  lemma FirstAnswer(orders: seq<WireOrder>, answers: seq<A.Answer>, threshold: int, pos: nat)
    requires pos < |orders| == |answers|
    ensures A.Ids(A.Meeting(orders[pos..], answers[pos..], threshold, A.Retried))
            == Deferred(orders[pos], answers[pos])
               + A.Ids(A.Meeting(orders[pos + 1..], answers[pos + 1..], threshold, A.Retried))
    ensures A.Verdicts(orders[pos..], answers[pos..], threshold)
            == Judged(orders[pos], answers[pos], threshold)
               + A.Verdicts(orders[pos + 1..], answers[pos + 1..], threshold)
  {
    hide A.Suitable;
    A.FateIff(answers[pos], threshold);
    assert orders[pos..][1..] == orders[pos + 1..] && answers[pos..][1..] == answers[pos + 1..];
  }

  lemma {:induction false} LoneWork(cfg: Settings, s: System, w: nat, e: Envelope, pos: nat, retryable: seq<OrderId>,
                                    answers: seq<A.Answer>) returns (steps: seq<Step>, verdicts: Judgements)
    requires pos <= |e.orders| == |answers| && Scored(answers)
    requires w in s.workers && s.workers[w] == Worker(e, pos, retryable)
    ensures var met := A.Ids(A.Meeting(e.orders[pos..], answers[pos..], cfg.llmThreshold, A.Retried));
            var results := A.Verdicts(e.orders[pos..], answers[pos..], cfg.llmThreshold);
            && Runs(cfg, s, steps)
            && After(cfg, s, steps) == Changed(s, w, Worker(e, |e.orders|, retryable + met), results, verdicts)
    decreases |answers| - pos
  {
    hide Runs, After, V.Moves, StepOn, Deferred, Judged;
    if pos == |answers| {
      steps, verdicts := [], s.verdicts;
      NoMove(cfg, s);
      assert retryable + [] == retryable;
      assert s.workers[w := Worker(e, pos, retryable)] == s.workers;
    } else {
      hide A.Meeting, A.Verdicts, A.Ids;
      var order, answer := e.orders[pos], answers[pos];
      var now := AnswerMoves(cfg, s, w, e, pos, retryable, answer);
      var deferred, judged := Deferred(order, answer), Judged(order, answer, cfg.llmThreshold);
      var next := Worker(e, pos + 1, retryable + deferred);
      var s1 := Changed(s, w, next, judged, now);
      var more;
      more, verdicts := LoneWork(cfg, s1, w, e, pos + 1, retryable + deferred, answers);
      FirstAnswer(e.orders, answers, cfg.llmThreshold, pos);
      MoveThen(cfg, s, StepOn(w, answer, cfg.llmThreshold), s1, more);
      steps := [StepOn(w, answer, cfg.llmThreshold)] + more;
      var met := A.Ids(A.Meeting(e.orders[pos + 1..], answers[pos + 1..], cfg.llmThreshold, A.Retried));
      assert retryable + deferred + met == retryable + (deferred + met);
      ChangedTwice(s, w, next, Worker(e, |e.orders|, retryable + (deferred + met)), judged,
                   A.Verdicts(e.orders[pos + 1..], answers[pos + 1..], cfg.llmThreshold), now, verdicts);
    }
  }

  lemma ReceiveAndFinish(cfg: Settings, s: System, w: nat, e: Envelope, retryable: seq<OrderId>,
                         results: seq<AssessmentResult>, verdicts: Judgements)
    requires w !in s.workers && Request(e) in s.requests
    ensures var s1 := s.(requests := s.requests - multiset{Request(e)}, workers := s.workers[w := Worker(e, 0, [])]);
            var s2 := Changed(s1, w, Worker(e, |e.orders|, retryable), results, verdicts);
            && V.Moves(cfg, s, Receive(w, Request(e)), s1)
            && V.Moves(cfg, s2, Finish(w), s.(
                 requests := s.requests - multiset{Request(e)}, results := s.results + multiset(results),
                 retries := s.retries + (if retryable == [] then multiset{}
                                         else multiset{Request(RetryEnvelope(e, retryable))}),
                 verdicts := verdicts))
  {
    assert s.workers[w := Worker(e, 0, [])][w := Worker(e, |e.orders|, retryable)] - {w} == s.workers;
  }

  /**
   A delivery of assess.requests, handled in one go: its verdicts are on assess.results, the orders that
   failed in passing are in the retry queue, and the delivery is gone.
   */
  lemma LoneWorker(cfg: Settings, s: System, w: nat, e: Envelope, answers: seq<A.Answer>)
    returns (steps: seq<Step>, verdicts: Judgements)
    requires w !in s.workers && Request(e) in s.requests && |answers| == |e.orders| && Scored(answers)
    ensures Runs(cfg, s, steps)
    ensures var retryable := A.Ids(A.Meeting(e.orders, answers, cfg.llmThreshold, A.Retried));
            After(cfg, s, steps) == s.(
              requests := s.requests - multiset{Request(e)},
              results := s.results + multiset(A.Verdicts(e.orders, answers, cfg.llmThreshold)),
              retries := s.retries + (if retryable == [] then multiset{}
                                      else multiset{Request(RetryEnvelope(e, retryable))}),
              verdicts := verdicts)
  {
    hide Runs, After, V.Moves, A.Meeting, A.Verdicts, RetryEnvelope, A.Ids;
    var s1 := s.(requests := s.requests - multiset{Request(e)}, workers := s.workers[w := Worker(e, 0, [])]);
    var work;
    work, verdicts := LoneWork(cfg, s1, w, e, 0, [], answers);
    assert e.orders[0..] == e.orders && answers[0..] == answers;
    var retryable := A.Ids(A.Meeting(e.orders, answers, cfg.llmThreshold, A.Retried));
    var results := A.Verdicts(e.orders, answers, cfg.llmThreshold);
    assert [] + retryable == retryable;
    ReceiveAndFinish(cfg, s, w, e, retryable, results, verdicts);
    var s2 := Changed(s1, w, Worker(e, |e.orders|, retryable), results, verdicts);
    Move(cfg, s2, Finish(w), s.(
      requests := s.requests - multiset{Request(e)}, results := s.results + multiset(results),
      retries := s.retries + (if retryable == [] then multiset{} else multiset{Request(RetryEnvelope(e, retryable))}),
      verdicts := verdicts));
    V.Concat(cfg, s1, work, [Finish(w)]);
    MoveThen(cfg, s, Receive(w, Request(e)), s1, work + [Finish(w)]);
    steps := [Receive(w, Request(e))] + (work + [Finish(w)]);
  }

  // ----- The relay -----

  /** The payloads of the events with this destination. */
  function Sent(events: seq<Event>, destination: string): multiset<Payload> {
    if events == [] then multiset{}
    else (if events[0].destination == destination then multiset{events[0].payload} else multiset{})
         + Sent(events[1..], destination)
  }

  /** The system with these events out. */
  function Out(s: System, events: seq<Event>): System {
    s.(sent := s.sent + multiset(events),
       requests := s.requests + Sent(events, "assess_request"),
       notifications := s.notifications + Sent(events, "notify"))
  }

  function With(s: System, t: nat, x: Txn): System { s.(txns := s.txns[t := x]) }

  lemma PublishMoves(cfg: Settings, s: System, t: nat, x: Txn)
    requires x.RelayTxn? && x.sent < |x.events| && t in s.txns && s.txns[t] == x
    requires Known(x.events[x.sent].destination)
    ensures V.Moves(cfg, s, Publish(t), With(Out(s, [x.events[x.sent]]), t, x.(sent := x.sent + 1)))
  {
    var e := x.events[x.sent];
    assert multiset([e]) == multiset{e};
    SentOne(e, "assess_request");
    SentOne(e, "notify");
    assert s.requests + multiset{} == s.requests && s.notifications + multiset{} == s.notifications;
    assert "assess_request"[0] != "notify"[0];
    hide Sent;
    assert Deliver(s, e) == Out(s, [e]);
  }

  lemma SentOne(e: Event, destination: string)
    ensures Sent([e], destination) == if e.destination == destination then multiset{e.payload} else multiset{}
  {
    assert [e][1..] == [];
  }

  lemma SentOneMore(e: Event, rest: seq<Event>, destination: string)
    ensures Sent([e] + rest, destination) == Sent([e], destination) + Sent(rest, destination)
  {
    SentOne(e, destination);
    assert ([e] + rest)[1..] == rest;
  }

  lemma OutOneMore(s: System, e: Event, rest: seq<Event>)
    ensures Out(Out(s, [e]), rest) == Out(s, [e] + rest)
  {
    hide Sent;
    SentOneMore(e, rest, "assess_request");
    SentOneMore(e, rest, "notify");
    Together(s.requests, Sent([e], "assess_request"), Sent(rest, "assess_request"), Sent([e] + rest, "assess_request"));
    Together(s.notifications, Sent([e], "notify"), Sent(rest, "notify"), Sent([e] + rest, "notify"));
    assert multiset([e] + rest) == multiset([e]) + multiset(rest);
    Together(s.sent, multiset([e]), multiset(rest), multiset([e] + rest));
  }

  lemma OutNone(s: System)
    ensures Out(s, []) == s
  {
  }

  lemma OutWith(s: System, events: seq<Event>, t: nat, x: Txn, y: Txn)
    ensures With(Out(With(s, t, x), events), t, y) == With(Out(s, events), t, y)
  {
    assert s.txns[t := x][t := y] == s.txns[t := y];
  }

  lemma {:induction false} LonePublishes(cfg: Settings, s: System, t: nat, x: Txn) returns (steps: seq<Step>)
    requires x.RelayTxn? && x.sent <= |x.events| && t in s.txns && s.txns[t] == x
    requires forall i | 0 <= i < |x.events| :: Known(x.events[i].destination)
    ensures Runs(cfg, s, steps)
    ensures After(cfg, s, steps) == With(Out(s, x.events[x.sent..]), t, x.(sent := |x.events|))
    decreases |x.events| - x.sent
  {
    hide Runs, After, V.Moves, Sent;
    if x.sent == |x.events| {
      steps := [];
      NoMove(cfg, s);
      assert s.txns[t := x] == s.txns;
      assert x.events[x.sent..] == [];
      OutNone(s);
    } else {
      var e, next := x.events[x.sent], x.(sent := x.sent + 1);
      PublishMoves(cfg, s, t, x);
      var s1 := With(Out(s, [e]), t, next);
      var more := LonePublishes(cfg, s1, t, next);
      MoveThen(cfg, s, Publish(t), s1, more);
      steps := [Publish(t)] + more;
      assert x.events[x.sent..] == [e] + next.events[next.sent..];
      hide Out;
      OutOneMore(s, e, next.events[next.sent..]);
      OutWith(Out(s, [e]), next.events[next.sent..], t, next, x.(sent := |x.events|));
    }
  }

  /** The system with this relay run open. */
  function Relaying(s: System, t: nat, keys: seq<Key>, sent: nat, marked: bool): System
    requires forall i | 0 <= i < |keys| :: keys[i] in s.tables.outbox
  {
    With(s, t, RelayTxn(Events(s.tables, keys), sent, marked)).(rowLocks := Locked(s.rowLocks, keys, t))
  }

  lemma OutRelaying(s: System, t: nat, keys: seq<Key>)
    requires forall i | 0 <= i < |keys| :: keys[i] in s.tables.outbox
    ensures Out(s, Events(s.tables, keys)).tables == s.tables
    ensures Out(s, Events(s.tables, keys)).rowLocks == s.rowLocks && Out(s, Events(s.tables, keys)).txns == s.txns
    ensures t in Relaying(s, t, keys, 0, false).txns
    ensures Relaying(s, t, keys, 0, false).txns[t] == RelayTxn(Events(s.tables, keys), 0, false)
    ensures With(Out(Relaying(s, t, keys, 0, false), Events(s.tables, keys)), t,
                 RelayTxn(Events(s.tables, keys), |keys|, false))
            == Relaying(Out(s, Events(s.tables, keys)), t, keys, |keys|, false)
  {
    hide Sent, Locked, EventOf;
    var events := Events(s.tables, keys);
    assert s.txns[t := RelayTxn(events, 0, false)][t := RelayTxn(events, |keys|, false)]
           == s.txns[t := RelayTxn(events, |keys|, false)];
  }

  lemma LoneMark(cfg: Settings, s: System, t: nat, keys: seq<Key>) returns (steps: seq<Step>)
    requires forall i | 0 <= i < |keys| :: keys[i] in s.tables.outbox && keys[i] !in s.rowLocks
    requires t !in s.txns
    ensures Runs(cfg, Relaying(s, t, keys, |keys|, false), steps)
    ensures After(cfg, Relaying(s, t, keys, |keys|, false), steps)
            == s.(tables := MarkPublished(s.tables, R.KeySet(keys)))
  {
    hide Runs, After, MarkPublished, V.Moves, Locked, Keys, R.KeySet, EventOf;
    var events := Events(s.tables, keys);
    var s1 := Relaying(s, t, keys, |keys|, false);
    CloseMoves(cfg, s1, t, events);
    ClaimGivenBack(s.tables, s.rowLocks, keys, t);
    var s2 := With(s1, t, RelayTxn(events, |events|, true));
    assert s1.txns - {t} == s.txns;
    Move(cfg, s2, Commit(t), s.(tables := MarkPublished(s.tables, R.KeySet(keys))));
    MoveThen(cfg, s1, Mark(t), s2, [Commit(t)]);
    steps := [Mark(t)] + [Commit(t)];
  }

  lemma ClaimMoves(cfg: Settings, s: System, t: nat, keys: seq<Key>)
    requires t !in s.txns && R.Claimed(s.tables, s.rowLocks.Keys, cfg.batchSize, keys)
    ensures V.Moves(cfg, s, Claim(t, keys),
                    Relaying(s, t, keys, 0, false))
  {
    hide Enabled;
    R.ClaimIsEnabled(cfg, s, t, keys);
  }

  lemma CloseMoves(cfg: Settings, s: System, t: nat, events: seq<Event>)
    requires t in s.txns && s.txns[t] == RelayTxn(events, |events|, false)
    ensures var marked := With(s, t, RelayTxn(events, |events|, true));
            && V.Moves(cfg, s, Mark(t), marked)
            && V.Moves(cfg, marked, Commit(t),
                       s.(tables := MarkPublished(s.tables, Keys(events)), txns := s.txns - {t},
                          rowLocks := s.rowLocks - Keys(events)))
  {
    assert s.txns[t := RelayTxn(events, |events|, true)] - {t} == s.txns - {t};
  }

  lemma ClaimGivenBack(tables: Tables, locks: map<Key, nat>, keys: seq<Key>, t: nat)
    requires forall i | 0 <= i < |keys| :: keys[i] in tables.outbox && keys[i] !in locks
    ensures Keys(Events(tables, keys)) == R.KeySet(keys)
    ensures Locked(locks, keys, t) - R.KeySet(keys) == locks
  {
    var events := Events(tables, keys);
    forall k ensures k in Keys(events) <==> k in R.KeySet(keys) {
      if k in R.KeySet(keys) {
        var i :| 0 <= i < |keys| && keys[i] == k;
        assert events[i].key == k;
      }
    }
    assert Locked(locks, keys, t) - R.KeySet(keys) == locks;
  }

  /**
   A relay run in one go: the claimed rows are marked, each went once to the queue of its destination,
   and no lock is left.
   */
  lemma LoneRelay(cfg: Settings, s: System, t: nat, keys: seq<Key>) returns (steps: seq<Step>)
    requires t !in s.txns && R.Claimed(s.tables, s.rowLocks.Keys, cfg.batchSize, keys) && R.AllKnown(s.tables)
    ensures Runs(cfg, s, steps)
    ensures After(cfg, s, steps)
            == Out(s, Events(s.tables, keys)).(tables := MarkPublished(s.tables, R.KeySet(keys)))
  {
    hide Runs, After, V.Moves, Known, Out, Relaying, MarkPublished, R.KeySet;
    var events := Events(s.tables, keys);
    forall i | 0 <= i < |events| ensures Known(events[i].destination) {
      assert keys[i] in s.tables.outbox;
    }
    ClaimMoves(cfg, s, t, keys);
    ClaimGivenBack(s.tables, s.rowLocks, keys, t);
    var s1 := Relaying(s, t, keys, 0, false);
    OutRelaying(s, t, keys);
    var published := LonePublishes(cfg, s1, t, RelayTxn(events, 0, false));
    assert events[0..] == events;
    var close := LoneMark(cfg, Out(s, events), t, keys);
    V.Concat(cfg, s1, published, close);
    MoveThen(cfg, s, Claim(t, keys), s1, published + close);
    steps := [Claim(t, keys)] + (published + close);
  }

  // ----- Order-core transactions -----

  /** The system with this one transaction open. */
  function Only(s: System, t: nat, x: Txn): System { s.(txns := map[t := x]) }

  lemma InsertMoves(cfg: Settings, s: System, t: nat, x: Txn)
    requires x.IngestTxn? && x.pos < |x.batch| && !x.adding
    ensures V.Moves(cfg, Only(s, t, x), InsertOrder(t), Only(s, t, Inserted(Overlay(s.tables, x.writes), x)))
  {
    hide Inserted;
    assert !OrderBlocked(Only(s, t, x), t, x.batch[x.pos].externalId);
  }

  lemma RequestMoves(cfg: Settings, s: System, t: nat, x: Txn)
    requires x.IngestTxn? && x.pos < |x.batch| && x.adding
    ensures V.Moves(cfg, Only(s, t, x), AddRequest(t), Only(s, t, Requested(Overlay(s.tables, x.writes), x)))
  {
    hide Requested;
    assert !KeyBlocked(Only(s, t, x), t, AssessKey(x.batch[x.pos].externalId));
  }

  lemma LoneTurn(cfg: Settings, s: System, t: nat, x: Txn) returns (steps: seq<Step>, z: Txn)
    requires x.IngestTxn? && x.pos < |x.batch| && !x.adding
    ensures Runs(cfg, Only(s, t, x), steps) && After(cfg, Only(s, t, x), steps) == Only(s, t, z)
    ensures z.IngestTxn? && z.batch == x.batch && z.now == x.now && z.pos == x.pos + 1 && !z.adding
    ensures Overlay(s.tables, z.writes) == IngestOne(Overlay(s.tables, x.writes), x.batch[x.pos], x.now)
  {
    hide Runs, After, IngestOne, V.Moves, Overlay;
    S.IngestTurnAlone(s.tables, x);
    InsertMoves(cfg, s, t, x);
    var y := Inserted(Overlay(s.tables, x.writes), x);
    if y.adding {
      z := Requested(Overlay(s.tables, y.writes), y);
      RequestMoves(cfg, s, t, y);
      Move(cfg, Only(s, t, y), AddRequest(t), Only(s, t, z));
      MoveThen(cfg, Only(s, t, x), InsertOrder(t), Only(s, t, y), [AddRequest(t)]);
      steps := [InsertOrder(t)] + [AddRequest(t)];
    } else {
      z := y;
      Move(cfg, Only(s, t, x), InsertOrder(t), Only(s, t, y));
      steps := [InsertOrder(t)];
    }
  }

  /** The rest of the turns of an ingest transaction. */
  lemma {:induction false} LoneTurns(cfg: Settings, s: System, t: nat, x: Txn) returns (steps: seq<Step>, y: Txn)
    requires x.IngestTxn? && x.pos <= |x.batch| && !x.adding
    requires Overlay(s.tables, x.writes) == Ingest(s.tables, x.batch[..x.pos], x.now)
    ensures Runs(cfg, Only(s, t, x), steps) && After(cfg, Only(s, t, x), steps) == Only(s, t, y)
    ensures y.IngestTxn? && y.pos == |y.batch| && !y.adding
    ensures Overlay(s.tables, y.writes) == Ingest(s.tables, x.batch, x.now)
    decreases |x.batch| - x.pos
  {
    hide Runs, After, IngestOne, Overlay;
    if x.pos == |x.batch| {
      steps, y := [], x;
      NoMove(cfg, Only(s, t, x));
      assert x.batch[..x.pos] == x.batch;
    } else {
      var turn, z := LoneTurn(cfg, s, t, x);
      assert x.batch[..x.pos + 1][..x.pos] == x.batch[..x.pos];
      var more;
      more, y := LoneTurns(cfg, s, t, z);
      V.Concat(cfg, Only(s, t, x), turn, more);
      steps := turn + more;
    }
  }

  lemma IngestEnds(cfg: Settings, s: System, t: nat, message: Envelope, now: int, y: Txn)
    requires s.txns == map[] && y.IngestTxn? && y.pos == |y.batch| && !y.adding
    ensures V.Moves(cfg, s, BeginIngest(t, message, now),
                    Only(s, t, IngestTxn(ToIncomingOrders(message), 0, false, now, EMPTY)))
    ensures V.Moves(cfg, Only(s, t, y), Commit(t), s.(tables := Overlay(s.tables, y.writes)))
  {
    hide ToIncomingOrders, Overlay;
    assert Only(s, t, y).txns - {t} == s.txns;
  }

  /** A batch ingested in one go, with no other transaction open. */
  lemma LoneIngest(cfg: Settings, s: System, t: nat, message: Envelope, now: int) returns (steps: seq<Step>)
    requires s.txns == map[]
    ensures Runs(cfg, s, steps)
    ensures After(cfg, s, steps) == s.(tables := Ingest(s.tables, ToIncomingOrders(message), now))
  {
    hide Runs, After, V.Moves, ToIncomingOrders;
    var x := IngestTxn(ToIncomingOrders(message), 0, false, now, EMPTY);
    assert Overlay(s.tables, EMPTY) == s.tables;
    assert x.batch[..0] == [];
    var work, y := LoneTurns(cfg, s, t, x);
    IngestEnds(cfg, s, t, message, now, y);
    Move(cfg, Only(s, t, y), Commit(t), s.(tables := Overlay(s.tables, y.writes)));
    V.Concat(cfg, Only(s, t, x), work, [Commit(t)]);
    MoveThen(cfg, s, BeginIngest(t, message, now), Only(s, t, x), work + [Commit(t)]);
    steps := [BeginIngest(t, message, now)] + (work + [Commit(t)]);
  }

  function Verdict(verdict: AssessmentResult, stage: VerdictStage, now: int): Txn {
    VerdictTxn(verdict, stage, now, EMPTY)
  }

  lemma ReadMoves(cfg: Settings, s: System, t: nat, verdict: AssessmentResult, now: int)
    requires s.txns == map[]
    ensures var known := verdict.orderId in s.tables.orders;
            V.Moves(cfg, Only(s, t, Verdict(verdict, Reading, now)), ReadOrder(t),
                    if !known then s.(orderDlq := s.orderDlq + multiset{verdict})
                    else if s.tables.orders[verdict.orderId].status == AssessRequested
                    then Only(s, t, Verdict(verdict, Setting, now))
                    else Only(s, t, Verdict(verdict, Closing, now)))
  {
    assert Overlay(s.tables, EMPTY) == s.tables;
    assert map[t := Verdict(verdict, Reading, now)] - {t} == map[];
  }

  lemma VerdictBegins(cfg: Settings, s: System, t: nat, verdict: AssessmentResult, now: int)
    requires s.txns == map[] && verdict in s.results
    ensures V.Moves(cfg, s, BeginVerdict(t, verdict, now),
                    Only(s.(results := s.results - multiset{verdict}), t, Verdict(verdict, Reading, now)))
  {
  }

  /** A verdict on an order that does not wait for one. */
  lemma NotWaiting(t: Tables, verdict: AssessmentResult, threshold: int, now: int)
    ensures verdict.orderId !in t.orders ==> Apply(t, verdict, threshold, now) == Err(Permanent)
    ensures verdict.orderId in t.orders && t.orders[verdict.orderId].status != AssessRequested ==>
              Apply(t, verdict, threshold, now) == Ok(t)
  {
  }

  lemma WriteMoves(cfg: Settings, s: System, t: nat, x: Txn)
    requires x.VerdictTxn?
    ensures x.stage == Setting ==>
              V.Moves(cfg, Only(s, t, x), UpdateOrder(t), Only(s, t, Updated(cfg, Overlay(s.tables, x.writes), x)))
    ensures x.stage == Adding ==>
              V.Moves(cfg, Only(s, t, x), AddNotify(t), Only(s, t, Notified(Overlay(s.tables, x.writes), x)))
  {
    hide Updated, Notified;
    assert !OrderBlocked(Only(s, t, x), t, x.verdict.orderId);
    assert !KeyBlocked(Only(s, t, x), t, NotifyKey(x.verdict.orderId));
  }

  lemma EndMoves(cfg: Settings, s: System, t: nat, x: Txn)
    requires x.VerdictTxn? && x.stage == Closing && s.txns == map[]
    ensures var tables := Overlay(s.tables, x.writes);
            var settled := Only(s, t, Verdict(x.verdict, Settled, x.now)).(tables := tables);
            && V.Moves(cfg, Only(s, t, x), Commit(t), settled)
            && V.Moves(cfg, settled, Ack(t), s.(tables := tables))
  {
    hide Overlay;
    assert map[t := Verdict(x.verdict, Settled, x.now)] - {t} == map[];
    assert map[t := x][t := Verdict(x.verdict, Settled, x.now)] == map[t := Verdict(x.verdict, Settled, x.now)];
  }

  /** The end of a verdict transaction: commit, then acknowledge. */
  lemma LoneClose(cfg: Settings, s: System, t: nat, x: Txn) returns (steps: seq<Step>)
    requires x.VerdictTxn? && x.stage == Closing && s.txns == map[]
    ensures Runs(cfg, Only(s, t, x), steps)
    ensures After(cfg, Only(s, t, x), steps) == s.(tables := Overlay(s.tables, x.writes))
  {
    hide Runs, After, V.Moves, Overlay;
    EndMoves(cfg, s, t, x);
    var tables := Overlay(s.tables, x.writes);
    var settled := Only(s, t, Verdict(x.verdict, Settled, x.now)).(tables := tables);
    Move(cfg, settled, Ack(t), s.(tables := tables));
    MoveThen(cfg, Only(s, t, x), Commit(t), settled, [Ack(t)]);
    steps := [Commit(t)] + [Ack(t)];
  }

  /** The writes of a verdict on a waiting order, and their end. */
  lemma LoneWrites(cfg: Settings, s: System, t: nat, verdict: AssessmentResult, now: int) returns (steps: seq<Step>)
    requires s.txns == map[]
    requires verdict.orderId in s.tables.orders && s.tables.orders[verdict.orderId].status == AssessRequested
    ensures Runs(cfg, Only(s, t, Verdict(verdict, Setting, now)), steps)
    ensures Apply(s.tables, verdict, cfg.coreThreshold, now).Ok?
    ensures After(cfg, Only(s, t, Verdict(verdict, Setting, now)), steps)
            == s.(tables := Apply(s.tables, verdict, cfg.coreThreshold, now).value)
  {
    hide Runs, After, Apply, V.Moves;
    S.VerdictAlone(cfg, s.tables, verdict, now);
    assert Overlay(s.tables, EMPTY) == s.tables;
    var w := Verdict(verdict, Setting, now);
    WriteMoves(cfg, s, t, w);
    var x := Updated(cfg, s.tables, w);
    if x.stage == Adding {
      WriteMoves(cfg, s, t, x);
      var y := Notified(Overlay(s.tables, x.writes), x);
      var rest := LoneClose(cfg, s, t, y);
      MoveThen(cfg, Only(s, t, x), AddNotify(t), Only(s, t, y), rest);
      MoveThen(cfg, Only(s, t, w), UpdateOrder(t), Only(s, t, x), [AddNotify(t)] + rest);
      steps := [UpdateOrder(t)] + ([AddNotify(t)] + rest);
    } else {
      var rest := LoneClose(cfg, s, t, x);
      MoveThen(cfg, Only(s, t, w), UpdateOrder(t), Only(s, t, x), rest);
      steps := [UpdateOrder(t)] + rest;
    }
  }

  /**
   A verdict handled in one go, with no other transaction open: it is taken off assess.results, and the
   tables change as `Apply` says, or it is dead-lettered because nobody knows the order.
   */
  lemma LoneVerdict(cfg: Settings, s: System, t: nat, verdict: AssessmentResult, now: int) returns (steps: seq<Step>)
    requires s.txns == map[] && verdict in s.results
    ensures Runs(cfg, s, steps)
    ensures After(cfg, s, steps)
            == match Apply(s.tables, verdict, cfg.coreThreshold, now)
               case Ok(tables) => s.(tables := tables, results := s.results - multiset{verdict})
               case Err(_) => s.(results := s.results - multiset{verdict}, orderDlq := s.orderDlq + multiset{verdict})
  {
    hide Runs, After, V.Moves, Apply;
    VerdictBegins(cfg, s, t, verdict, now);
    var taken := s.(results := s.results - multiset{verdict});
    var begun := Only(taken, t, Verdict(verdict, Reading, now));
    ReadMoves(cfg, taken, t, verdict, now);
    NotWaiting(s.tables, verdict, cfg.coreThreshold, now);
    var more;
    if verdict.orderId !in s.tables.orders {
      Move(cfg, begun, ReadOrder(t), taken.(orderDlq := s.orderDlq + multiset{verdict}));
      more := [ReadOrder(t)];
    } else {
      var rest;
      if s.tables.orders[verdict.orderId].status == AssessRequested {
        rest := LoneWrites(cfg, taken, t, verdict, now);
        MoveThen(cfg, begun, ReadOrder(t), Only(taken, t, Verdict(verdict, Setting, now)), rest);
      } else {
        rest := LoneClose(cfg, taken, t, Verdict(verdict, Closing, now));
        MoveThen(cfg, begun, ReadOrder(t), Only(taken, t, Verdict(verdict, Closing, now)), rest);
        assert Overlay(s.tables, EMPTY) == s.tables;
      }
      more := [ReadOrder(t)] + rest;
    }
    MoveThen(cfg, s, BeginVerdict(t, verdict, now), begun, more);
    steps := [BeginVerdict(t, verdict, now)] + more;
  }
}
