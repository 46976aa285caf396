/**
 Every notification through its main queue, its retry queue and the dead-letter queue,
 with dead-letter publishes that throw and connections that drop before the ack.
 */
module RetryQueues {
  import opened Wrappers
  import opened Wire
  import opened Text
  import opened CreateNotification
  import opened DeliverNotification

  /** The broker learns Acked as an ack, Nacked and Thrown as a reject without requeue. */
  datatype Outcome = Acked | Nacked | Thrown

  datatype Phase =
    | Queued
    | Handling
    | Decided(decision: Decision)
    | Settled(outcome: Outcome)
    | Parked
    | Gone

  datatype Message = Message(
    body: Option<NotificationCommand>,
    header: XDeath,
    phase: Phase,
    // handler calls that outlived their connection
    adrift: seq<nat>,        // still at work, each with the attempt count it read
    answered: seq<Decision>, // decided, outcome not recorded yet
    // history of this message
    handled: nat,     // handler invocations
    sends: nat,       // sends to Telegram
    delivered: nat,   // sends that succeeded
    deadLetters: nat, // copies in the dead-letter queue
    decided: nat,     // retry decisions recorded
    retries: nat,     // retry decisions whose reject reached the broker
    throws: nat,      // dead-letter publishes that threw
    losses: nat,      // connections lost while it was in flight
    rejections: nat,
    steps: nat)

  datatype System = System(
    messages: map<nat, Message>,
    metrics: Snapshot,
    threw: nat,   // handler calls that threw
    cut: nat)     // handler calls cut short before recording an outcome

  const INIT := System(map[], Snapshot(0, 0, 0, map[]), 0, 0)

  datatype Step =
    | Accept(id: nat, body: Option<NotificationCommand>)
    | Receive(id: nat)
    | Try(id: nat, work: Work)
    | Record(id: nat)
    | DlxThrows(id: nat, stored: bool)
    | Settle(id: nat)
    | Lose(id: nat, goesOn: bool)
    | TryLate(id: nat, call: nat, work: Work)
    | RecordLate(id: nat, call: nat)
    | DlxThrowsLate(id: nat, call: nat, stored: bool)
    | Expire(id: nat)

  predicate InFlight(p: Phase) { p.Handling? || p.Decided? || p.Settled? }

  /** Received, and no outcome recorded yet. */
  predicate Unrecorded(p: Phase) { p.Handling? || p.Decided? }

  predicate Enabled(s: System, step: Step) {
    if step.Accept? then step.id !in s.messages
    else
      && step.id in s.messages
      && var p := s.messages[step.id].phase;
         match step
         case Accept(_, _) => false
         case Receive(_) => p == Queued
         case Try(_, _) => p == Handling
         case Record(_) => p.Decided?
         case DlxThrows(_, _) => p.Decided? && p.decision.DeadLetter?
         case Settle(_) => p.Settled?
         case Lose(_, _) => InFlight(p)
         case TryLate(_, call, _) => call < |s.messages[step.id].adrift|
         case RecordLate(_, call) => call < |s.messages[step.id].answered|
         case DlxThrowsLate(_, call, _) =>
           call < |s.messages[step.id].answered| && s.messages[step.id].answered[call].DeadLetter?
         case Expire(_) => p == Parked
  }

  function Without<T>(s: seq<T>, i: nat): seq<T>
    requires i < |s|
  {
    s[..i] + s[i + 1..]
  }

  /** The connection is lost: the broker redelivers, and a handler call under way goes on or dies with the process. */
  function Dropped(m: Message, goesOn: bool): Message {
    var m' := m.(phase := Queued, losses := m.losses + 1);
    if !goesOn then m'
    else match m.phase
      case Handling => m'.(adrift := m.adrift + [GetAttemptCount(m.header, MAIN)])
      case Decided(d) => m'.(answered := m.answered + [d])
      case _ => m'
  }

  /** What the step does to its message. */
  function Moved(m: Message, step: Step, maxAttempts: int): Message
    requires step.Record? || step.DlxThrows? ==> m.phase.Decided?
    requires step.Settle? ==> m.phase.Settled?
    requires step.TryLate? ==> step.call < |m.adrift|
    requires step.RecordLate? || step.DlxThrowsLate? ==> step.call < |m.answered|
  {
    var m := m.(steps := m.steps + 1);
    match step
    case Accept(_, _) => m
    case Receive(_) => m.(phase := Handling, handled := m.handled + 1)
    case Try(_, work) =>
      var d := Decide(m.body, work, GetAttemptCount(m.header, MAIN), maxAttempts);
      m.(phase := Decided(d),
         sends := m.sends + (if Sends(m.body, work) then 1 else 0),
         delivered := m.delivered + (if d == Deliver then 1 else 0))
    case Record(_) =>
      if m.phase.decision.DeadLetter? then m.(phase := Settled(Acked), deadLetters := m.deadLetters + 1)
      else if m.phase.decision == Deliver then m.(phase := Settled(Acked))
      else m.(phase := Settled(Nacked), decided := m.decided + 1)
    case DlxThrows(_, stored) =>
      m.(phase := Settled(Thrown), throws := m.throws + 1, deadLetters := m.deadLetters + (if stored then 1 else 0))
    case Settle(_) =>
      if m.phase.outcome == Acked then m.(phase := Gone)
      else m.(phase := Parked, header := Died(m.header, MAIN, "rejected"), rejections := m.rejections + 1,
              retries := m.retries + (if m.phase.outcome == Nacked then 1 else 0))
    case Lose(_, goesOn) => Dropped(m, goesOn)
    case TryLate(_, call, work) =>
      var d := Decide(m.body, work, m.adrift[call], maxAttempts);
      m.(adrift := Without(m.adrift, call), answered := m.answered + [d],
         sends := m.sends + (if Sends(m.body, work) then 1 else 0),
         delivered := m.delivered + (if d == Deliver then 1 else 0))
    case RecordLate(_, call) =>
      m.(answered := Without(m.answered, call),
         deadLetters := m.deadLetters + (if m.answered[call].DeadLetter? then 1 else 0),
         decided := m.decided + (if m.answered[call] == Retry then 1 else 0))
    case DlxThrowsLate(_, call, stored) =>
      m.(answered := Without(m.answered, call), throws := m.throws + 1,
         deadLetters := m.deadLetters + (if stored then 1 else 0))
    case Expire(_) => m.(phase := Queued, header := Died(m.header, RETRY, "expired"))
  }

  /** What the step adds to the counters and to the history, for a message `m` it moves. */
  function Booked(s: System, m: Message, step: Step): System
    requires step.Record? ==> m.phase.Decided?
    requires step.RecordLate? ==> step.call < |m.answered|
  {
    match step
    case Receive(_) => s.(metrics := s.metrics.(received := s.metrics.received + 1))
    case Record(_) => s.(metrics := Counted(s.metrics, m.phase.decision))
    case DlxThrows(_, _) => s.(threw := s.threw + 1)
    case Lose(_, goesOn) => s.(cut := s.cut + (if Unrecorded(m.phase) && !goesOn then 1 else 0))
    case RecordLate(_, call) => s.(metrics := Counted(s.metrics, m.answered[call]))
    case DlxThrowsLate(_, _, _) => s.(threw := s.threw + 1)
    case _ => s
  }

  function Do(s: System, step: Step, maxAttempts: int): System
    requires Enabled(s, step)
  {
    if step.Accept? then
      s.(messages := s.messages[step.id := Message(step.body, Absent, Queued, [], [], 0, 0, 0, 0, 0, 0, 0, 0, 0, 0)])
    else
      var m := s.messages[step.id];
      Booked(s.(messages := s.messages[step.id := Moved(m, step, maxAttempts)]), m, step)
  }

  predicate Runs(s: System, steps: seq<Step>, maxAttempts: int)
    decreases |steps|
  {
    steps == [] || (Enabled(s, steps[0]) && Runs(Do(s, steps[0], maxAttempts), steps[1..], maxAttempts))
  }

  function After(s: System, steps: seq<Step>, maxAttempts: int): System
    requires Runs(s, steps, maxAttempts)
    decreases |steps|
  {
    if steps == [] then s else After(Do(s, steps[0], maxAttempts), steps[1..], maxAttempts)
  }

  // ----- One message -----

  function Budget(maxAttempts: int): nat {
    if maxAttempts < 1 then 1 else maxAttempts
  }

  /** Delivered, dead-lettered, or still on its way. */
  predicate Kept(m: Message) {
    m.phase == Gone || m.phase == Settled(Acked) ==> m.delivered > 0 || m.deadLetters > 0
  }

  function Stage(p: Phase): nat {
    match p
    case Queued => 0 case Handling => 1 case Decided(_) => 2 case Settled(_) => 3 case Parked => 4 case Gone => 4
  }

  predicate MessageOk(m: Message, maxAttempts: int) {
    && Genuine(m.header) && GetAttemptCount(m.header, MAIN) == m.rejections
    && Kept(m) && (m.phase == Decided(Deliver) ==> m.delivered > 0)
    && (m.phase == Decided(Retry) || m.phase == Settled(Nacked) ==> m.rejections + 1 < maxAttempts)
    && m.retries < Budget(maxAttempts) && (m.decided > 0 ==> maxAttempts > 1)
    && (forall d | d in m.answered :: d == Retry ==> maxAttempts > 1)
    && m.decided + |m.adrift| + |m.answered| <= m.retries + m.losses + (if m.phase == Settled(Nacked) then 1 else 0)
    && m.retries <= m.rejections <= m.retries + m.throws
    && (m.phase == Settled(Thrown) ==> m.rejections < m.retries + m.throws)
    && m.handled == m.rejections + m.losses + (if InFlight(m.phase) || m.phase == Gone then 1 else 0)
    && m.sends + (if m.phase == Handling then 1 else 0) + |m.adrift| <= m.handled
    && m.delivered <= m.sends
    && (Stage(m.phase) > 0 ==> m.handled > 0)
    && m.steps + 2 * |m.adrift| + |m.answered|
       <= (if m.phase == Queued then 5 * m.handled else 5 * (m.handled - 1) + Stage(m.phase))
  }

  predicate OfLateCall(step: Step) { step.TryLate? || step.RecordLate? || step.DlxThrowsLate? }

  lemma MovedOk(s: System, step: Step, maxAttempts: int)
    requires Enabled(s, step) && !step.Accept? && MessageOk(s.messages[step.id], maxAttempts)
    ensures MessageOk(Moved(s.messages[step.id], step, maxAttempts), maxAttempts)
  {
    hide MessageOk, Moved;
    if OfLateCall(step) {
      LateOk(s.messages[step.id], step, maxAttempts);
    } else if step.Lose? {
      DroppedOk(s.messages[step.id], step, maxAttempts);
    } else {
      OwnStepOk(s, step, maxAttempts);
    }
  }

  lemma OwnStepOk(s: System, step: Step, maxAttempts: int)
    requires Enabled(s, step) && !step.Accept? && !step.Lose? && !OfLateCall(step)
    requires MessageOk(s.messages[step.id], maxAttempts)
    ensures MessageOk(Moved(s.messages[step.id], step, maxAttempts), maxAttempts)
  {
    hide Died, GetAttemptCount, Genuine, Decide, Sends, Without;
    var m := s.messages[step.id];
    DeathsCount(m.header);
    if step.Try? {
      RetryIff(m.body, step.work, GetAttemptCount(m.header, MAIN), maxAttempts);
    }
  }

  lemma DroppedOk(m: Message, step: Step, maxAttempts: int)
    requires step.Lose? && InFlight(m.phase) && MessageOk(m, maxAttempts)
    ensures MessageOk(Moved(m, step, maxAttempts), maxAttempts)
  {
    hide Died, GetAttemptCount, Genuine, Decide, Sends;
  }

  lemma WithoutMembers<T>(s: seq<T>, i: nat)
    requires i < |s|
    ensures |Without(s, i)| == |s| - 1 && forall x | x in Without(s, i) :: x in s
  {
  }

  /** A call that outlived its connection touches neither the phase of its message nor its header. */
  lemma LateOk(m: Message, step: Step, maxAttempts: int)
    requires MessageOk(m, maxAttempts) && OfLateCall(step)
    requires step.TryLate? ==> step.call < |m.adrift|
    requires !step.TryLate? ==> step.call < |m.answered|
    ensures MessageOk(Moved(m, step, maxAttempts), maxAttempts)
  {
    hide Died, GetAttemptCount, Genuine, Decide, Sends, Without;
    if step.TryLate? {
      WithoutMembers(m.adrift, step.call);
      RetryIff(m.body, step.work, m.adrift[step.call], maxAttempts);
    } else {
      WithoutMembers(m.answered, step.call);
      assert m.answered[step.call] in m.answered;
    }
  }

  // ----- All messages -----

  /** Handler calls on this message without a recorded outcome. */
  function Open(m: Message): nat {
    (if Unrecorded(m.phase) then 1 else 0) + |m.adrift| + |m.answered|
  }

  /** All of them, numbered message by message. */
  function Busy(messages: map<nat, Message>): set<(nat, nat)> {
    set id, i | id in messages && 0 <= i < Open(messages[id]) :: (id, i)
  }

  /** Every handler call is accounted for by exactly one counter or is still under way. */
  predicate Accounted(s: System) {
    s.metrics.received
    == s.metrics.delivered + s.metrics.retried + TotalDead(s.metrics.deadLettered)
       + s.threw + s.cut + |Busy(s.messages)|
  }

  ghost predicate Inv(s: System, maxAttempts: int) {
    Accounted(s) && forall id | id in s.messages :: MessageOk(s.messages[id], maxAttempts)
  }

  function Slots(id: nat, n: nat): set<(nat, nat)> {
    set i | 0 <= i < n :: (id, i)
  }

  lemma {:induction false} SlotsCount(id: nat, n: nat)
    ensures |Slots(id, n)| == n
  {
    if n > 0 {
      SlotsCount(id, n - 1);
      assert Slots(id, n) == Slots(id, n - 1) + {(id, n - 1)};
    }
  }

  lemma BusyAfter(messages: map<nat, Message>, id: nat, m: Message)
    ensures |Busy(messages[id := m])| + (if id in messages then Open(messages[id]) else 0)
            == |Busy(messages)| + Open(m)
  {
    hide Open;
    var rest := Busy(messages - {id});
    BusySplits(messages[id := m], id);
    assert messages[id := m] - {id} == messages - {id};
    if id in messages {
      BusySplits(messages, id);
    } else {
      assert messages - {id} == messages;
    }
  }

  lemma BusySplits(messages: map<nat, Message>, id: nat)
    requires id in messages
    ensures |Busy(messages)| == |Busy(messages - {id})| + Open(messages[id])
  {
    hide Open;
    var slots := Slots(id, Open(messages[id]));
    SlotsCount(id, Open(messages[id]));
    assert Busy(messages) == Busy(messages - {id}) + slots;
    assert Busy(messages - {id}) !! slots;
  }

  lemma OneMoreDead(m: map<Category, nat>, c: Category)
    ensures TotalDead(m[c := Tally(m, c) + 1]) == TotalDead(m) + 1
  {
  }

  lemma StepKeeps(s: System, step: Step, maxAttempts: int)
    requires Inv(s, maxAttempts) && Enabled(s, step)
    ensures Inv(Do(s, step, maxAttempts), maxAttempts)
  {
    hide MessageOk, TotalDead;
    var s' := Do(s, step, maxAttempts);
    BusyAfter(s.messages, step.id, s'.messages[step.id]);
    if step.Accept? {
      AcceptedOk(step.body, maxAttempts);
    } else {
      MovedOk(s, step, maxAttempts);
      if step.Record? && s.messages[step.id].phase.decision.DeadLetter? {
        OneMoreDead(s.metrics.deadLettered, s.messages[step.id].phase.decision.category);
      } else if step.RecordLate? && s.messages[step.id].answered[step.call].DeadLetter? {
        OneMoreDead(s.metrics.deadLettered, s.messages[step.id].answered[step.call].category);
      }
    }
  }

  lemma AcceptedOk(body: Option<NotificationCommand>, maxAttempts: int)
    ensures MessageOk(Message(body, Absent, Queued, [], [], 0, 0, 0, 0, 0, 0, 0, 0, 0, 0), maxAttempts)
  {
  }

  lemma {:induction false} RunKeeps(s: System, steps: seq<Step>, maxAttempts: int)
    requires Inv(s, maxAttempts) && Runs(s, steps, maxAttempts)
    ensures Inv(After(s, steps, maxAttempts), maxAttempts)
    decreases |steps|
  {
    hide Inv, Do, Enabled;
    if steps != [] {
      StepKeeps(s, steps[0], maxAttempts);
      RunKeeps(Do(s, steps[0], maxAttempts), steps[1..], maxAttempts);
    }
  }

  lemma {:induction false} RunGrows(s: System, steps: seq<Step>, maxAttempts: int, id: nat)
    requires Runs(s, steps, maxAttempts) && id in s.messages
    ensures id in After(s, steps, maxAttempts).messages
    decreases |steps|
  {
    if steps != [] {
      RunGrows(Do(s, steps[0], maxAttempts), steps[1..], maxAttempts, id);
    }
  }

  /**
   No notification is lost: every message ever accepted is queued, in flight, parked,
   delivered or dead-lettered, and it leaves the queues only delivered or dead-lettered.
   */
  lemma {:induction false} NothingIsLost(before: seq<Step>, after: seq<Step>, maxAttempts: int, id: nat)
    requires Runs(INIT, before, maxAttempts) && id in After(INIT, before, maxAttempts).messages
    requires Runs(After(INIT, before, maxAttempts), after, maxAttempts)
    ensures var s := After(After(INIT, before, maxAttempts), after, maxAttempts);
            && id in s.messages
            && (s.messages[id].phase == Gone ==> s.messages[id].delivered > 0 || s.messages[id].deadLetters > 0)
  {
    hide Do, Enabled;
    RunKeeps(INIT, before, maxAttempts);
    RunKeeps(After(INIT, before, maxAttempts), after, maxAttempts);
    RunGrows(After(INIT, before, maxAttempts), after, maxAttempts, id);
  }

  /** received = delivered + retried + dead-lettered + threw + cut short + being handled. */
  lemma {:induction false} CountersAddUp(steps: seq<Step>, maxAttempts: int)
    requires Runs(INIT, steps, maxAttempts)
    ensures Accounted(After(INIT, steps, maxAttempts))
  {
    hide Do, Enabled;
    RunKeeps(INIT, steps, maxAttempts);
  }

  /**
   The header counts the rejections; retries that took effect stay under the budget, and so do
   retry decisions but for one more each time a connection is lost, so altogether when none is; the
   sends of a message are at most the budget plus the dead-letter publishes that threw plus the
   connections lost under it.
   */
  lemma {:induction false} AttemptsAreBounded(steps: seq<Step>, maxAttempts: int, id: nat)
    requires Runs(INIT, steps, maxAttempts) && id in After(INIT, steps, maxAttempts).messages
    ensures var m := After(INIT, steps, maxAttempts).messages[id];
            && GetAttemptCount(m.header, MAIN) == m.rejections
            && m.retries <= Budget(maxAttempts) - 1
            && m.decided <= Budget(maxAttempts) - 1 + m.losses
            && (m.losses == 0 || maxAttempts <= 1 ==> m.decided <= Budget(maxAttempts) - 1)
            && m.sends <= Budget(maxAttempts) + m.throws + m.losses
  {
    hide Do, Enabled;
    RunKeeps(INIT, steps, maxAttempts);
    var m := After(INIT, steps, maxAttempts).messages[id];
    assert MessageOk(m, maxAttempts);
  }

  lemma {:induction false} Concat(s: System, first: seq<Step>, second: seq<Step>, maxAttempts: int)
    requires Runs(s, first, maxAttempts) && Runs(After(s, first, maxAttempts), second, maxAttempts)
    ensures Runs(s, first + second, maxAttempts)
    ensures After(s, first + second, maxAttempts) == After(After(s, first, maxAttempts), second, maxAttempts)
    decreases |first|
  {
    hide Do, Enabled;
    if first == [] {
      assert first + second == second;
    } else {
      assert (first + second)[1..] == first[1..] + second;
      Concat(Do(s, first[0], maxAttempts), first[1..], second, maxAttempts);
    }
  }

  lemma Single(s: System, step: Step, maxAttempts: int)
    requires Enabled(s, step)
    ensures Runs(s, [step], maxAttempts) && After(s, [step], maxAttempts) == Do(s, step, maxAttempts)
  {
  }

  // ----- Runs that use up the bounds -----

  const HELLO := NotificationCommand("a", None, None, None, None)

  lemma HelloIsValid()
    ensures Create(HELLO) == Ok(HELLO)
  {
    assert !JsSpace(HELLO.text[0]) && HELLO.text[..0] == "";
  }

  /** Message 1 waits for its next attempt, with this history. */
  ghost predicate Waiting(
    s: System, maxAttempts: int, rejections: nat, throws: nat, losses: nat, decided: nat, sends: nat)
  {
    && Inv(s, maxAttempts) && 1 in s.messages
    && var m := s.messages[1];
       && m.body == Some(HELLO) && m.phase == Queued && m.rejections == rejections
       && m.throws == throws && m.losses == losses && m.decided == decided && m.sends == sends
  }

  /** One more step of message 1. */
  lemma Extend(s: System, steps: seq<Step>, step: Step, maxAttempts: int) returns (longer: seq<Step>)
    requires Inv(s, maxAttempts) && Runs(s, steps, maxAttempts)
    requires step.id == 1 && !step.Accept? && Enabled(After(s, steps, maxAttempts), step)
    ensures Runs(s, longer, maxAttempts) && Inv(After(s, longer, maxAttempts), maxAttempts)
    ensures 1 in After(s, longer, maxAttempts).messages
    ensures After(s, longer, maxAttempts).messages[1]
            == Moved(After(s, steps, maxAttempts).messages[1], step, maxAttempts)
  {
    hide Inv, Moved, Runs, After;
    longer := steps + [step];
    Single(After(s, steps, maxAttempts), step, maxAttempts);
    Concat(s, steps, [step], maxAttempts);
    RunKeeps(s, longer, maxAttempts);
  }

  /** A send that fails in passing, up to the decision about it. */
  lemma Attempt(s: System, maxAttempts: int, rejections: nat, throws: nat, losses: nat, decided: nat, sends: nat)
    returns (steps: seq<Step>)
    requires Waiting(s, maxAttempts, rejections, throws, losses, decided, sends)
    ensures Runs(s, steps, maxAttempts) && Inv(After(s, steps, maxAttempts), maxAttempts)
    ensures 1 in After(s, steps, maxAttempts).messages
    ensures var m := After(s, steps, maxAttempts).messages[1];
            && m.phase == Decided(if rejections + 1 < maxAttempts then Retry else DeadLetter(Exhausted))
            && m.body == Some(HELLO) && m.rejections == rejections && m.throws == throws && m.losses == losses
            && m.decided == decided && m.sends == sends + 1
  {
    hide After, Runs, Create, Died;
    assert Runs(s, [], maxAttempts) && After(s, [], maxAttempts) == s by { EmptyRun(s, maxAttempts); }
    assert MessageOk(s.messages[1], maxAttempts);
    HelloIsValid();
    steps := Extend(s, [], Receive(1), maxAttempts);
    steps := Extend(s, steps, Try(1, Send(TransientError)), maxAttempts);
  }

  lemma EmptyRun(s: System, maxAttempts: int)
    ensures Runs(s, [], maxAttempts) && After(s, [], maxAttempts) == s
  {
  }

  /** The connection drops under an attempt, after the retry was decided if there is one to decide. */
  lemma {:induction false} LostAttempts(s: System, maxAttempts: int, n: nat) returns (steps: seq<Step>)
    requires Waiting(s, maxAttempts, 0, 0, 0, 0, 0)
    ensures Runs(s, steps, maxAttempts)
    ensures Waiting(After(s, steps, maxAttempts), maxAttempts, 0, 0, n, if maxAttempts > 1 then n else 0, n)
    decreases n
  {
    hide After, Runs, Inv, Died;
    if n == 0 {
      steps := [];
      EmptyRun(s, maxAttempts);
    } else {
      steps := LostAttempts(s, maxAttempts, n - 1);
      var s1 := After(s, steps, maxAttempts);
      var next := Attempt(s1, maxAttempts, 0, 0, n - 1, if maxAttempts > 1 then n - 1 else 0, n - 1);
      if maxAttempts > 1 {
        next := Extend(s1, next, Record(1), maxAttempts);
      }
      next := Extend(s1, next, Lose(1, false), maxAttempts);
      Concat(s, steps, next, maxAttempts);
      steps := steps + next;
    }
  }

  /** Attempts whose reject reaches the broker, as many as the budget grants. */
  lemma {:induction false} RetriedAttempts(s: System, maxAttempts: int, losses: nat, n: nat) returns (steps: seq<Step>)
    requires Waiting(s, maxAttempts, 0, 0, losses, if maxAttempts > 1 then losses else 0, losses)
    requires n < Budget(maxAttempts)
    ensures Runs(s, steps, maxAttempts)
    ensures Waiting(After(s, steps, maxAttempts), maxAttempts, n, 0, losses,
                    n + (if maxAttempts > 1 then losses else 0), n + losses)
    decreases n
  {
    hide After, Runs, Inv, Died;
    if n == 0 {
      steps := [];
      EmptyRun(s, maxAttempts);
    } else {
      steps := RetriedAttempts(s, maxAttempts, losses, n - 1);
      var s1 := After(s, steps, maxAttempts);
      var decided := n - 1 + (if maxAttempts > 1 then losses else 0);
      var next := Attempt(s1, maxAttempts, n - 1, 0, losses, decided, n - 1 + losses);
      next := Extend(s1, next, Record(1), maxAttempts);
      next := Extend(s1, next, Settle(1), maxAttempts);
      next := Extend(s1, next, Expire(1), maxAttempts);
      Concat(s, steps, next, maxAttempts);
      steps := steps + next;
    }
  }

  /** Attempts beyond the budget, each with a dead-letter publish that throws. */
  lemma {:induction false} ThrownAttempts(
    s: System, maxAttempts: int, losses: nat, decided: nat, sends: nat, n: nat) returns (steps: seq<Step>)
    requires Waiting(s, maxAttempts, Budget(maxAttempts) - 1, 0, losses, decided, sends)
    ensures Runs(s, steps, maxAttempts)
    ensures Waiting(After(s, steps, maxAttempts), maxAttempts,
                    Budget(maxAttempts) - 1 + n, n, losses, decided, sends + n)
    decreases n
  {
    hide After, Runs, Inv, Died;
    if n == 0 {
      steps := [];
      EmptyRun(s, maxAttempts);
    } else {
      steps := ThrownAttempts(s, maxAttempts, losses, decided, sends, n - 1);
      var s1 := After(s, steps, maxAttempts);
      var next := Attempt(s1, maxAttempts, Budget(maxAttempts) - 1 + (n - 1), n - 1, losses, decided, sends + (n - 1));
      next := Extend(s1, next, DlxThrows(1, false), maxAttempts);
      next := Extend(s1, next, Settle(1), maxAttempts);
      next := Extend(s1, next, Expire(1), maxAttempts);
      Concat(s, steps, next, maxAttempts);
      steps := steps + next;
    }
  }

  lemma Accepted(maxAttempts: int)
    ensures Runs(INIT, [Accept(1, Some(HELLO))], maxAttempts)
    ensures Waiting(After(INIT, [Accept(1, Some(HELLO))], maxAttempts), maxAttempts, 0, 0, 0, 0, 0)
  {
    hide MessageOk, Moved, Booked, After, Runs, Inv;
    var step := Accept(1, Some(HELLO));
    Single(INIT, step, maxAttempts);
    InitOk(maxAttempts);
    StepKeeps(INIT, step, maxAttempts);
  }

  lemma InitOk(maxAttempts: int)
    ensures Inv(INIT, maxAttempts)
  {
    hide MessageOk;
    assert Busy(INIT.messages) == {};
  }

  /**
   The bounds are attained: for any budget, any number of throwing dead-letter publishes and any
   number of lost connections, some message is sent that often, and (unless the budget is one
   attempt, when there is no retry) retried by decision that often.
   */
  lemma BoundsAreAttained(maxAttempts: int, throws: nat, losses: nat) returns (steps: seq<Step>)
    ensures Runs(INIT, steps, maxAttempts) && 1 in After(INIT, steps, maxAttempts).messages
    ensures var m := After(INIT, steps, maxAttempts).messages[1];
            && m.throws == throws && m.losses == losses
            && m.sends == Budget(maxAttempts) + throws + losses
            && m.decided == (if maxAttempts > 1 then Budget(maxAttempts) - 1 + losses else 0)
  {
    hide After, Runs, Inv;
    var decided := if maxAttempts > 1 then losses else 0;
    var first := Budget(maxAttempts) - 1;
    steps := [Accept(1, Some(HELLO))];
    Accepted(maxAttempts);
    var next := LostAttempts(After(INIT, steps, maxAttempts), maxAttempts, losses);
    Concat(INIT, steps, next, maxAttempts);
    steps := steps + next;
    next := RetriedAttempts(After(INIT, steps, maxAttempts), maxAttempts, losses, first);
    Concat(INIT, steps, next, maxAttempts);
    steps := steps + next;
    next := ThrownAttempts(After(INIT, steps, maxAttempts), maxAttempts,
                           losses, first + decided, first + losses, throws);
    Concat(INIT, steps, next, maxAttempts);
    steps := steps + next;
    next := Attempt(After(INIT, steps, maxAttempts), maxAttempts, first + throws, throws, losses,
                    first + decided, first + losses + throws);
    Concat(INIT, steps, next, maxAttempts);
    steps := steps + next;
  }

  /** With any retry to grant, a reject lost with its connection is decided again, past the budget. */
  lemma LostRejectIsDecidedAgain(maxAttempts: int) returns (steps: seq<Step>)
    requires maxAttempts > 1
    ensures Runs(INIT, steps, maxAttempts) && 1 in After(INIT, steps, maxAttempts).messages
    ensures After(INIT, steps, maxAttempts).messages[1].losses == 1
    ensures After(INIT, steps, maxAttempts).messages[1].decided > Budget(maxAttempts) - 1
  {
    steps := BoundsAreAttained(maxAttempts, 0, 1);
  }

  /** The budget bounds the retry decisions of every message in every run. */
  predicate BudgetBoundsDecisions(s: System, maxAttempts: int) {
    forall id | id in s.messages :: s.messages[id].decided <= Budget(maxAttempts) - 1
  }

  /**
   Retry decisions on a message never exceed maxAttempts - 1 exactly when the budget grants no retry
   at all: with any retry to grant, a reject lost with its connection is decided again.
   */
  lemma {:induction false} RetryDecisionsBoundedIff(maxAttempts: int)
    ensures (forall steps | Runs(INIT, steps, maxAttempts) ::
               BudgetBoundsDecisions(After(INIT, steps, maxAttempts), maxAttempts))
            <==> maxAttempts <= 1
  {
    hide Runs, After;
    if maxAttempts > 1 {
      var steps := LostRejectIsDecidedAgain(maxAttempts);
      assert !BudgetBoundsDecisions(After(INIT, steps, maxAttempts), maxAttempts);
    } else {
      forall steps, id | Runs(INIT, steps, maxAttempts) && id in After(INIT, steps, maxAttempts).messages
        ensures After(INIT, steps, maxAttempts).messages[id].decided <= Budget(maxAttempts) - 1
      {
        AttemptsAreBounded(steps, maxAttempts, id);
      }
    }
  }

  /**
   Termination: a message takes at most five steps for each send it is allowed, and as long as
   it has not left the queues it has a step that is not a fault.
   */
  lemma {:induction false} MessagesTerminate(steps: seq<Step>, maxAttempts: int, id: nat)
    requires Runs(INIT, steps, maxAttempts) && id in After(INIT, steps, maxAttempts).messages
    ensures var s := After(INIT, steps, maxAttempts);
            var m := s.messages[id];
            && m.steps <= 5 * (Budget(maxAttempts) + m.throws + m.losses)
            && (m.phase != Gone ==> exists step :: Enabled(s, step) && !step.Accept? && step.id == id
                                                   && !step.DlxThrows? && !step.Lose?)
  {
    hide Do;
    RunKeeps(INIT, steps, maxAttempts);
    var s := After(INIT, steps, maxAttempts);
    var m := s.messages[id];
    assert MessageOk(m, maxAttempts);
    if m.phase != Gone {
      var step := match m.phase
        case Queued => Receive(id) case Handling => Try(id, Throws) case Decided(_) => Record(id)
        case Settled(_) => Settle(id) case Parked => Expire(id);
      assert Enabled(s, step);
    }
  }
}
