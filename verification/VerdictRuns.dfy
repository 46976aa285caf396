/**
 Runs of the pipeline, built move by move: one order, judged once or twice, with two verdict
 transactions that both read the waiting status before either of them writes it.
 */
module VerdictRuns {
  import opened Wrappers
  import opened Wire
  import opened OrderTables
  import opened Assessing
  import opened Pipeline

  predicate Moves(cfg: Settings, s: System, step: Step, s': System) {
    Enabled(cfg, s, step) && Do(cfg, s, step) == s'
  }

  lemma {:induction false} Chain(cfg: Settings, states: seq<System>, steps: seq<Step>)
    requires |states| == |steps| + 1
    requires forall i | 0 <= i < |steps| :: Moves(cfg, states[i], steps[i], states[i + 1])
    ensures Runs(cfg, states[0], steps) && After(cfg, states[0], steps) == states[|steps|]
    decreases |steps|
  {
    if steps != [] {
      assert Moves(cfg, states[0], steps[0], states[1]);
      forall i | 0 <= i < |steps| - 1 ensures Moves(cfg, states[1..][i], steps[1..][i], states[1..][i + 1]) {
        assert Moves(cfg, states[i + 1], steps[i + 1], states[i + 2]);
      }
      Chain(cfg, states[1..], steps[1..]);
    }
  }

  const ID: OrderId := "1"
  const ORDER := WireOrder(ID, "")
  const MESSAGE := Envelope("", 0, 1, None, [ORDER])
  const COMMAND := NotificationCommand("a", None, None, None, None)
  const OTHER := NotificationCommand("b", None, None, None, None)

  function Suitable(score: int): Assessment { Assessment("", score, [], false) }
  /** Verdicts of 100 carry one message, all others another one. */
  function MessageOf(score: int): NotificationCommand { if score == 100 then COMMAND else OTHER }
  function Verdict(score: int): AssessmentResult { AssessmentResult(ID, score, MessageOf(score)) }

  const BATCH := [IncomingOrder(ID, ORDER, Some(""), 0)]
  const WAITING := OrderRow(AssessRequested, ORDER, Some(""), 0, None)
  const EVENT := Event(AssessKey(ID), ASSESS_REQUEST, Request(MESSAGE))
  const EVENTS := map[AssessKey(ID) := OutboxRow(ASSESS_REQUEST, Request(MESSAGE), false, 0)]

  /** When verdicts are handled. */
  const HANDLED_AT := 5

  function NotifyRow(score: int): OutboxRow { OutboxRow(NOTIFY, Command(MessageOf(score)), false, HANDLED_AT) }

  /** One order is ingested; its request is published and received. */
  function I0(): System { INIT.(txns := map[0 := IngestTxn(BATCH, 0, false, 0, EMPTY)]) }
  function I1(): System {
    INIT.(txns := map[0 := IngestTxn(BATCH, 0, true, 0, Tables(map[ID := WAITING], map[]))])
  }
  function I2(): System {
    INIT.(txns := map[0 := IngestTxn(BATCH, 1, false, 0, Tables(map[ID := WAITING], EVENTS))])
  }
  function I3(): System { INIT.(tables := Tables(map[ID := WAITING], EVENTS)) }
  function I4(): System {
    I3().(txns := map[1 := RelayTxn([EVENT], 0, false)], rowLocks := map[AssessKey(ID) := 1])
  }
  function I5(): System {
    I4().(txns := map[1 := RelayTxn([EVENT], 1, false)], sent := multiset{EVENT},
    requests := multiset{Request(MESSAGE)})
  }
  function I6(): System { I5().(requests := multiset{}, workers := map[2 := Worker(MESSAGE, 0, [])]) }

  lemma Ingested(cfg: Settings)
    requires cfg.batchSize > 0
    ensures Moves(cfg, INIT, BeginIngest(0, MESSAGE, 0), I0())
    ensures Moves(cfg, I0(), InsertOrder(0), I1())
    ensures Moves(cfg, I1(), AddRequest(0), I2())
    ensures Moves(cfg, I2(), Commit(0), I3())
  {
    assert ToIncomingOrders(MESSAGE) == BATCH;
    assert I2().txns - {0} == map[];
  }

  lemma Published(cfg: Settings)
    requires cfg.batchSize > 0
    ensures Moves(cfg, I3(), Claim(1, [AssessKey(ID)]), I4())
    ensures Moves(cfg, I4(), Publish(1), I5())
  {
    assert Events(I3().tables, [AssessKey(ID)]) == [EVENT];
    assert Locked(map[], [AssessKey(ID)], 1) == map[AssessKey(ID) := 1];
  }

  lemma Received(cfg: Settings)
    ensures Moves(cfg, I5(), Receive(2, Request(MESSAGE)), I6())
  {
    assert I5().requests - multiset{Request(MESSAGE)} == multiset{};
  }

  /** llm answers, its delivery comes back before it is acknowledged, and it answers again. */
  function Answered(score: int): System {
    I6().(workers := map[2 := Worker(MESSAGE, 1, [])], results := multiset{Verdict(score)},
    verdicts := {(ID, Suitable(score), MessageOf(score))})
  }
  function A0(): System { Answered(100) }
  function A1(): System { A0().(workers := map[], requests := multiset{Request(MESSAGE)}) }
  function A2(): System { A0().(workers := map[2 := Worker(MESSAGE, 0, [])]) }
  function A3(low: int): System {
    A0().(results := multiset{Verdict(100), Verdict(low)},
    verdicts := {(ID, Suitable(100), MessageOf(100)), (ID, Suitable(low), MessageOf(low))})
  }

  lemma AnsweredOnce(cfg: Settings, score: int)
    requires cfg.llmThreshold <= score <= 100 && 0 <= score
    ensures Moves(cfg, I6(), Assess(2, Suitable(score), MessageOf(score)), Answered(score))
  {
  }

  lemma AnsweredLow(cfg: Settings, low: int)
    requires cfg.llmThreshold <= low <= 100 && 0 <= low
    ensures Moves(cfg, A2(), Assess(2, Suitable(low), MessageOf(low)), A3(low))
  {
    assert multiset{Verdict(100)} + multiset{Verdict(low)} == multiset{Verdict(100), Verdict(low)};
  }

  lemma Redelivered(cfg: Settings)
    ensures Moves(cfg, A0(), Crash(2), A1())
    ensures Moves(cfg, A1(), Receive(2, Request(MESSAGE)), A2())
  {
    assert A0().workers - {2} == map[];
    assert A1().requests - multiset{Request(MESSAGE)} == multiset{};
  }

  // The five moves of a verdict transaction on order ID that no other transaction blocks.

  function Open(score: int, stage: VerdictStage, writes: Tables): Txn {
    VerdictTxn(Verdict(score), stage, HANDLED_AT, writes)
  }
  function With(s: System, t: nat, x: Txn): System { s.(txns := s.txns[t := x]) }

  /** Transaction `t` is this one, and no other transaction has written anything. */
  predicate Sole(s: System, t: nat, x: Txn) {
    t in s.txns && s.txns[t] == x &&
    forall u | u in s.txns && u != t :: s.txns[u].RelayTxn? || s.txns[u].writes == EMPTY
  }

  lemma Begins(cfg: Settings, s: System, t: nat, score: int)
    requires t !in s.txns && Verdict(score) in s.results
    ensures Moves(cfg, s, BeginVerdict(t, Verdict(score), HANDLED_AT),
                  With(s, t, Open(score, Reading, EMPTY)).(results := s.results - multiset{Verdict(score)}))
  {
  }

  lemma Reads(cfg: Settings, s: System, t: nat, score: int)
    requires t in s.txns && s.txns[t] == Open(score, Reading, EMPTY)
    requires ID in s.tables.orders && s.tables.orders[ID].status == AssessRequested
    ensures Moves(cfg, s, ReadOrder(t), With(s, t, Open(score, Setting, EMPTY)))
  {
  }

  /** The row of an order that a verdict of this score was applied to. */
  function Judged(cfg: Settings, row: OrderRow, score: int): OrderRow {
    row.(status := if DecideNotification(score, cfg.coreThreshold) then NotifyRequested else NoNotify,
         score := Some(score))
  }

  lemma Updates(cfg: Settings, s: System, t: nat, score: int, row: OrderRow)
    requires Sole(s, t, Open(score, Setting, EMPTY)) && s.tables.orders == map[ID := row]
    ensures Moves(cfg, s, UpdateOrder(t),
              With(s, t, Open(score, if DecideNotification(score, cfg.coreThreshold) then Adding else Closing,
                              Tables(map[ID := Judged(cfg, row, score)], map[]))))
  {
  }

  /** The notify event, unless the order has one already. */
  function NewEvent(t: Tables, score: int): map<Key, OutboxRow> {
    if NotifyKey(ID) in t.outbox then map[] else map[NotifyKey(ID) := NotifyRow(score)]
  }

  lemma Notifies(cfg: Settings, s: System, t: nat, score: int, orders: map<OrderId, OrderRow>)
    requires Sole(s, t, Open(score, Adding, Tables(orders, map[])))
    ensures Moves(cfg, s, AddNotify(t), With(s, t, Open(score, Closing, Tables(orders, NewEvent(s.tables, score)))))
  {
  }

  lemma Commits(cfg: Settings, s: System, t: nat, score: int, writes: Tables)
    requires t in s.txns && s.txns[t] == Open(score, Closing, writes)
    ensures Moves(cfg, s, Commit(t),
              With(s, t, Open(score, Settled, EMPTY)).(tables := Overlay(s.tables, writes)))
  {
  }

  const QUEUED := [BeginIngest(0, MESSAGE, 0), InsertOrder(0), AddRequest(0), Commit(0),
                   Claim(1, [AssessKey(ID)]), Publish(1), Receive(2, Request(MESSAGE)),
                   Assess(2, Suitable(100), MessageOf(100)), Crash(2), Receive(2, Request(MESSAGE))]

  /** From the empty system: one order, two verdicts on it waiting in assess.results. */
  lemma TwoVerdictsQueued(cfg: Settings, low: int) returns (steps: seq<Step>)
    requires cfg.batchSize > 0 && cfg.llmThreshold <= low <= 100 && 0 <= low
    ensures Runs(cfg, INIT, steps) && After(cfg, INIT, steps) == A3(low)
  {
    hide Moves;
    steps := QUEUED + [Assess(2, Suitable(low), MessageOf(low))];
    Ingested(cfg); Published(cfg); Received(cfg); AnsweredOnce(cfg, 100); Redelivered(cfg); AnsweredLow(cfg, low);
    Chain(cfg, [INIT, I0(), I1(), I2(), I3(), I4(), I5(), I6(), A0(), A1(), A2(), A3(low)], steps);
  }

  lemma {:induction false} Concat(cfg: Settings, s: System, first: seq<Step>, second: seq<Step>)
    requires Runs(cfg, s, first) && Runs(cfg, After(cfg, s, first), second)
    ensures Runs(cfg, s, first + second)
    ensures After(cfg, s, first + second) == After(cfg, After(cfg, s, first), second)
    decreases |first|
  {
    hide Do, Enabled;
    if first == [] {
      assert first + second == second;
    } else {
      assert (first + second)[1..] == first[1..] + second;
      Concat(cfg, Do(cfg, s, first[0]), first[1..], second);
    }
  }

  /** Two verdicts on one waiting order are being handled, each at this stage, and nothing is written. */
  predicate BothAt(s: System, stage: VerdictStage, low: int) {
    && Sole(s, 3, Open(100, stage, EMPTY)) && Sole(s, 4, Open(low, stage, EMPTY))
    && s.tables == Tables(map[ID := WAITING], EVENTS) && s.verdicts == A3(low).verdicts
  }

  lemma LowRemains(low: int)
    ensures Verdict(100) in multiset{Verdict(100), Verdict(low)}
    ensures Verdict(low) in multiset{Verdict(100), Verdict(low)} - multiset{Verdict(100)}
  {
  }

  /** The first of the two verdicts is being handled, the second still waits. */
  predicate OneBegun(s: System, low: int) {
    && Sole(s, 3, Open(100, Reading, EMPTY)) && 4 !in s.txns && Verdict(low) in s.results
    && s.tables == Tables(map[ID := WAITING], EVENTS) && s.verdicts == A3(low).verdicts
  }

  /** Both verdicts wait in assess.results, and no transaction of core is open. */
  predicate BothQueued(s: System, low: int) {
    && s.results == multiset{Verdict(100), Verdict(low)}
    && 3 !in s.txns && 4 !in s.txns && (forall u | u in s.txns :: s.txns[u].RelayTxn?)
    && s.tables == Tables(map[ID := WAITING], EVENTS) && s.verdicts == A3(low).verdicts
  }

  lemma A3IsQueued(low: int)
    ensures BothQueued(A3(low), low)
  {
  }

  lemma HighBegins(cfg: Settings, s: System, low: int) returns (steps: seq<Step>)
    requires BothQueued(s, low)
    ensures Runs(cfg, s, steps) && OneBegun(After(cfg, s, steps), low)
  {
    hide Moves, Runs, After, Verdict, A3;
    LowRemains(low);
    Begins(cfg, s, 3, 100);
    steps := [BeginVerdict(3, Verdict(100), HANDLED_AT)];
    Chain(cfg, [s, With(s, 3, Open(100, Reading, EMPTY)).(results := s.results - multiset{Verdict(100)})], steps);
  }

  lemma LowBegins(cfg: Settings, s: System, low: int) returns (steps: seq<Step>)
    requires OneBegun(s, low)
    ensures Runs(cfg, s, steps) && BothAt(After(cfg, s, steps), Reading, low)
  {
    hide Moves, Runs, After, Verdict, A3;
    Begins(cfg, s, 4, low);
    steps := [BeginVerdict(4, Verdict(low), HANDLED_AT)];
    Chain(cfg, [s, With(s, 4, Open(low, Reading, EMPTY)).(results := s.results - multiset{Verdict(low)})], steps);
  }

  /** Both transactions read the status before either of them writes it. */
  lemma BothRead(cfg: Settings, s: System, low: int) returns (steps: seq<Step>)
    requires BothAt(s, Reading, low)
    ensures Runs(cfg, s, steps) && BothAt(After(cfg, s, steps), Setting, low)
  {
    hide Moves, Runs, After, Verdict, A3;
    var s1 := With(s, 3, Open(100, Setting, EMPTY));
    var s2 := With(s1, 4, Open(low, Setting, EMPTY));
    Reads(cfg, s, 3, 100);
    Reads(cfg, s1, 4, low);
    steps := [ReadOrder(3), ReadOrder(4)];
    Chain(cfg, [s, s1, s2], steps);
  }

  /** Everything a verdict transaction that has read a waiting status does, with nobody in its way. */
  lemma Applies(cfg: Settings, s: System, t: nat, score: int, row: OrderRow) returns (steps: seq<Step>)
    requires Sole(s, t, Open(score, Setting, EMPTY)) && s.tables.orders == map[ID := row]
    ensures Runs(cfg, s, steps)
    ensures var s', notify := After(cfg, s, steps), DecideNotification(score, cfg.coreThreshold);
            && s'.tables.orders == map[ID := Judged(cfg, row, score)]
            && s'.tables.outbox == s.tables.outbox + (if notify then NewEvent(s.tables, score) else map[])
            && s'.txns == s.txns[t := Open(score, Settled, EMPTY)] && s'.verdicts == s.verdicts
  {
    hide Moves, Runs, After, Verdict, Judged, NewEvent, Overlay;
    var notify := DecideNotification(score, cfg.coreThreshold);
    var orders := map[ID := Judged(cfg, row, score)];
    var s1 := With(s, t, Open(score, if notify then Adding else Closing, Tables(orders, map[])));
    var w := Tables(orders, if notify then NewEvent(s.tables, score) else map[]);
    var s2 := With(s1, t, Open(score, Closing, w));
    var s3 := With(s2, t, Open(score, Settled, EMPTY)).(tables := Overlay(s.tables, w));
    Updates(cfg, s, t, score, row);
    Commits(cfg, s2, t, score, w);
    Overlaid(s.tables, w, row);
    if notify {
      Notifies(cfg, s1, t, score, orders);
      steps := [UpdateOrder(t), AddNotify(t), Commit(t)];
      Chain(cfg, [s, s1, s2, s3], steps);
    } else {
      assert s2 == s1;
      steps := [UpdateOrder(t), Commit(t)];
      Chain(cfg, [s, s1, s3], steps);
    }
  }

  lemma Overlaid(t: Tables, w: Tables, row: OrderRow)
    requires t.orders == map[ID := row] && w.orders.Keys == {ID}
    ensures Overlay(t, w).orders == w.orders && Overlay(t, w).outbox == t.outbox + w.outbox
  {
  }

  /** From the empty system to the point where both verdicts have been read and decided about. */
  lemma BothDecided(cfg: Settings, low: int) returns (steps: seq<Step>)
    requires cfg.batchSize > 0 && cfg.llmThreshold <= low <= 100 && 0 <= low
    ensures Runs(cfg, INIT, steps) && BothAt(After(cfg, INIT, steps), Setting, low)
  {
    hide Runs, After, OneBegun, BothAt, BothQueued, A3;
    steps := TwoVerdictsQueued(cfg, low);
    A3IsQueued(low);
    var next := HighBegins(cfg, A3(low), low);
    Concat(cfg, INIT, steps, next);
    steps := steps + next;
    next := LowBegins(cfg, After(cfg, INIT, steps), low);
    Concat(cfg, INIT, steps, next);
    steps := steps + next;
    next := BothRead(cfg, After(cfg, INIT, steps), low);
    Concat(cfg, INIT, steps, next);
    steps := steps + next;
  }

  /** The verdict of 100 is committed; the other transaction still means to write what it decided. */
  predicate HighApplied(cfg: Settings, s: System, low: int) {
    && Sole(s, 4, Open(low, Setting, EMPTY)) && s.verdicts == A3(low).verdicts
    && s.tables.orders == map[ID := Judged(cfg, WAITING, 100)]
    && s.tables.outbox == if 100 >= cfg.coreThreshold then EVENTS[NotifyKey(ID) := NotifyRow(100)] else EVENTS
  }

  lemma HighApplies(cfg: Settings, s: System, low: int) returns (steps: seq<Step>)
    requires BothAt(s, Setting, low)
    ensures Runs(cfg, s, steps) && HighApplied(cfg, After(cfg, s, steps), low)
  {
    hide Runs, After, Judged;
    steps := Applies(cfg, s, 3, 100, WAITING);
    var s' := After(cfg, s, steps);
    assert EVENTS + map[] == EVENTS;
    assert EVENTS + map[NotifyKey(ID) := NotifyRow(100)] == EVENTS[NotifyKey(ID) := NotifyRow(100)];
  }

  /** Both verdicts have been applied, the lower one last. */
  predicate BothApplied(cfg: Settings, s: System, low: int) {
    && s.tables.orders == map[ID := Judged(cfg, Judged(cfg, WAITING, 100), low)] && s.verdicts == A3(low).verdicts
    && (100 >= cfg.coreThreshold ==>
          NotifyKey(ID) in s.tables.outbox && s.tables.outbox[NotifyKey(ID)] == NotifyRow(100))
  }

  lemma LowApplies(cfg: Settings, s: System, low: int) returns (steps: seq<Step>)
    requires HighApplied(cfg, s, low)
    ensures Runs(cfg, s, steps) && BothApplied(cfg, After(cfg, s, steps), low)
  {
    hide Runs, After, Judged;
    steps := Applies(cfg, s, 4, low, Judged(cfg, WAITING, 100));
  }

  /** A run that commits the verdict of 100, and how it goes on to commit the lower verdict over it. */
  lemma TwiceJudged(cfg: Settings, low: int) returns (before: seq<Step>, after: seq<Step>)
    requires cfg.batchSize > 0 && cfg.llmThreshold <= low <= 100 && 0 <= low
    ensures Runs(cfg, INIT, before) && HighApplied(cfg, After(cfg, INIT, before), low)
    ensures Runs(cfg, After(cfg, INIT, before), after)
    ensures BothApplied(cfg, After(cfg, After(cfg, INIT, before), after), low)
    ensures Runs(cfg, INIT, before + after)
    ensures After(cfg, INIT, before + after) == After(cfg, After(cfg, INIT, before), after)
  {
    hide Runs, After, BothAt, HighApplied, BothApplied;
    before := BothDecided(cfg, low);
    var next := HighApplies(cfg, After(cfg, INIT, before), low);
    Concat(cfg, INIT, before, next);
    before := before + next;
    after := LowApplies(cfg, After(cfg, INIT, before), low);
    Concat(cfg, INIT, before, after);
  }

  // ----- One verdict -----

  /** The only verdict on the waiting order has been read and decided about. */
  predicate AloneDecided(s: System, low: int) {
    Sole(s, 3, Open(low, Setting, EMPTY)) && s.tables.orders == map[ID := WAITING]
  }

  lemma LowReads(cfg: Settings, low: int) returns (steps: seq<Step>)
    ensures Runs(cfg, Answered(low), steps) && AloneDecided(After(cfg, Answered(low), steps), low)
  {
    hide Moves, Runs, After, Verdict;
    var s := Answered(low);
    var s1 := With(s, 3, Open(low, Reading, EMPTY)).(results := s.results - multiset{Verdict(low)});
    var s2 := With(s1, 3, Open(low, Setting, EMPTY));
    Begins(cfg, s, 3, low);
    Reads(cfg, s1, 3, low);
    steps := [BeginVerdict(3, Verdict(low), HANDLED_AT), ReadOrder(3)];
    Chain(cfg, [s, s1, s2], steps);
  }

  /** One order and one verdict on it, applied. */
  lemma OnceJudged(cfg: Settings, low: int) returns (steps: seq<Step>)
    requires cfg.batchSize > 0 && cfg.llmThreshold <= low <= 100 && 0 <= low
    ensures Runs(cfg, INIT, steps) && After(cfg, INIT, steps).tables.orders == map[ID := Judged(cfg, WAITING, low)]
  {
    hide Moves;
    steps := QUEUED[..7] + [Assess(2, Suitable(low), MessageOf(low))];
    Ingested(cfg); Published(cfg); Received(cfg); AnsweredOnce(cfg, low);
    Chain(cfg, [INIT, I0(), I1(), I2(), I3(), I4(), I5(), I6(), Answered(low)], steps);
    hide Runs, After, Judged;
    var next := LowReads(cfg, low);
    Concat(cfg, INIT, steps, next);
    steps := steps + next;
    next := Applies(cfg, After(cfg, INIT, steps), 3, low, WAITING);
    Concat(cfg, INIT, steps, next);
    steps := steps + next;
  }
}
