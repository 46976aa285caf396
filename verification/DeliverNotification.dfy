/**
 The notifications service: what it decides about one delivery, the counters it keeps,
 and the attempt count it reads from the broker's x-death header.
 */
module DeliverNotification {
  import opened Wrappers
  import opened Wire
  import opened CreateNotification

  // ----- x-death -----

  const MAIN := "notifications"
  const RETRY := "notifications.retry"

  /** A header value after Number(...). */
  datatype Count = NotFinite | Number(value: real)
  datatype DeathEntry = DeathEntry(queue: string, reason: string, count: Count)
  datatype XDeath = Absent | NotAnArray | Entries(entries: seq<Option<DeathEntry>>)

  function CountIn(entries: seq<Option<DeathEntry>>, queue: string): nat {
    if entries == [] then 0
    else if entries[0].Some? && entries[0].value.queue == queue && entries[0].value.reason == "rejected" then
      match entries[0].value.count
      case NotFinite => 0
      case Number(n) => if n > 0.0 then n.Floor else 0
    else CountIn(entries[1..], queue)
  }

  /** Attempts made before this delivery; any header that is not the broker's counts as none. */
  function GetAttemptCount(header: XDeath, queue: string): nat {
    match header
    case Absent => 0
    case NotAnArray => 0
    case Entries(entries) => CountIn(entries, queue)
  }

  /**
   Read from the front: the first entry of this queue for a rejection decides, rounded down, and counts
   none when it is not a positive number; without one there were no attempts.
   */
  lemma {:induction false} FirstEntryCounts(entries: seq<Option<DeathEntry>>, queue: string, i: nat)
    requires forall j | 0 <= j < i && j < |entries| :: !RejectedIn(entries[j], queue)
    requires i < |entries| ==> RejectedIn(entries[i], queue)
    ensures CountIn(entries, queue)
            == if i < |entries| && entries[i].value.count.Number? && entries[i].value.count.value > 0.0
               then entries[i].value.count.value.Floor else 0
  {
    if i > 0 && entries != [] {
      FirstEntryCounts(entries[1..], queue, i - 1);
    }
  }

  predicate RejectedIn(entry: Option<DeathEntry>, queue: string) {
    entry.Some? && entry.value.queue == queue && entry.value.reason == "rejected"
  }

  /** The broker's bookkeeping: one entry per queue and reason, counted up and moved to the front. */
  function Bump(entries: seq<Option<DeathEntry>>, queue: string, reason: string): real {
    if entries == [] then 1.0
    else if entries[0].Some? && entries[0].value.queue == queue && entries[0].value.reason == reason
            && entries[0].value.count.Number? then entries[0].value.count.value + 1.0
    else Bump(entries[1..], queue, reason)
  }

  function Without(entries: seq<Option<DeathEntry>>, queue: string, reason: string): seq<Option<DeathEntry>> {
    if entries == [] then []
    else if entries[0].Some? && entries[0].value.queue == queue && entries[0].value.reason == reason
    then Without(entries[1..], queue, reason)
    else [entries[0]] + Without(entries[1..], queue, reason)
  }

  function Died(header: XDeath, queue: string, reason: string): XDeath {
    var entries := if header.Entries? then header.entries else [];
    Entries([Some(DeathEntry(queue, reason, Number(Bump(entries, queue, reason))))] + Without(entries, queue, reason))
  }

  /** The header is absent or the broker's own work. */
  predicate Genuine(header: XDeath) {
    match header
    case Absent => true
    case NotAnArray => false
    case Entries(entries) =>
      forall e | e in entries :: e.Some? && e.value.count.Number? && Whole(e.value.count.value)
  }

  predicate Whole(n: real) {
    n >= 1.0 && n == n.Floor as real
  }

  lemma {:induction false} BumpCounts(entries: seq<Option<DeathEntry>>)
    requires Genuine(Entries(entries))
    ensures Bump(entries, MAIN, "rejected") == (CountIn(entries, MAIN) + 1) as real
  {
    if entries != [] {
      assert entries[0] in entries;
      BumpCounts(entries[1..]);
    }
  }

  lemma WholeCounts()
    ensures Whole(1.0) && forall n | Whole(n) :: Whole(n + 1.0)
  {
    forall n | Whole(n) ensures Whole(n + 1.0) {
      assert n + 1.0 == (n.Floor + 1) as real;
    }
  }

  lemma {:induction false} BumpGenuine(entries: seq<Option<DeathEntry>>, queue: string, reason: string)
    requires Genuine(Entries(entries))
    ensures Whole(Bump(entries, queue, reason))
    ensures Genuine(Entries(Without(entries, queue, reason)))
  {
    hide Whole;
    WholeCounts();
    if entries != [] {
      assert entries[0] in entries;
      BumpGenuine(entries[1..], queue, reason);
    }
  }

  lemma {:induction false} WithoutOther(entries: seq<Option<DeathEntry>>, queue: string, reason: string)
    requires queue != MAIN || reason != "rejected"
    ensures CountIn(Without(entries, queue, reason), MAIN) == CountIn(entries, MAIN)
  {
    if entries != [] {
      WithoutOther(entries[1..], queue, reason);
    }
  }

  /** A rejection by the main queue counts one; expiring in the retry queue counts none. */
  lemma {:induction false} DeathsCount(header: XDeath)
    requires Genuine(header)
    ensures Genuine(Died(header, MAIN, "rejected")) && Genuine(Died(header, RETRY, "expired"))
    ensures GetAttemptCount(Died(header, MAIN, "rejected"), MAIN) == GetAttemptCount(header, MAIN) + 1
    ensures GetAttemptCount(Died(header, RETRY, "expired"), MAIN) == GetAttemptCount(header, MAIN)
  {
    var entries := if header.Entries? then header.entries else [];
    BumpCounts(entries);
    BumpGenuine(entries, MAIN, "rejected");
    BumpGenuine(entries, RETRY, "expired");
    WithoutOther(entries, RETRY, "expired");
    assert |RETRY| != |MAIN|;
    var rejected := Died(header, MAIN, "rejected").entries;
    assert rejected[0] == Some(DeathEntry(MAIN, "rejected", Number((CountIn(entries, MAIN) + 1) as real)));
    var expired := Died(header, RETRY, "expired").entries;
    assert expired[1..] == Without(entries, RETRY, "expired");
  }

  // ----- Decisions -----

  datatype Category = InvalidPayload | Validation | PermanentFailure | Exhausted | Unexpected
  datatype Decision = Deliver | Retry | DeadLetter(category: Category)

  datatype Sending = Sent | PermanentError | TransientError | UnknownError

  /** How the work on a delivery went: a send with this result, or an error thrown outside it. */
  datatype Work = Send(result: Sending) | Throws

  function OnSendError(error: Sending, attempt: nat, maxAttempts: int): Decision
    requires error != Sent
  {
    var exhausted := attempt + 1 >= maxAttempts;
    match error
    case PermanentError => DeadLetter(PermanentFailure)
    case TransientError => if exhausted then DeadLetter(Exhausted) else Retry
    case UnknownError => if exhausted then DeadLetter(Unexpected) else Retry
  }

  function Execute(command: NotificationCommand, result: Sending, attempt: nat, maxAttempts: int): Decision {
    if Create(command).Err? then DeadLetter(Validation)
    else if result == Sent then Deliver
    else OnSendError(result, attempt, maxAttempts)
  }

  /** `body` is None when the payload does not parse. */
  function Decide(body: Option<NotificationCommand>, work: Work, attempt: nat, maxAttempts: int): Decision {
    if body == None then DeadLetter(InvalidPayload)
    else match work
      case Throws => if attempt + 1 >= maxAttempts then DeadLetter(Unexpected) else Retry
      case Send(result) => Execute(body.value, result, attempt, maxAttempts)
  }

  /** A command is sent when its text has a visible character and fits, and its thread id is not wrong. */
  predicate Sends(body: Option<NotificationCommand>, work: Work) {
    work.Send? && body.Some? && Sendable(body.value)
  }

  /** Another attempt is granted exactly to a failure that may pass, within the budget. */
  lemma RetryIff(body: Option<NotificationCommand>, work: Work, attempt: nat, maxAttempts: int)
    ensures Decide(body, work, attempt, maxAttempts) == Retry
            <==> attempt + 1 < maxAttempts
                 && ((body.Some? && work == Throws)
                     || (Sends(body, work) && work.result in {TransientError, UnknownError}))
    ensures Decide(body, work, attempt, maxAttempts) == Deliver <==> Sends(body, work) && work.result == Sent
  {
    hide Create, Sendable;
    if body.Some? { CreateIff(body.value); }
  }

  /** What each dead-letter category says about the message, and nothing else gets it. */
  lemma CategoryIff(body: Option<NotificationCommand>, work: Work, attempt: nat, maxAttempts: int)
    ensures var d := Decide(body, work, attempt, maxAttempts);
            var last := attempt + 1 >= maxAttempts;
            && (d == DeadLetter(InvalidPayload) <==> body == None)
            && (d == DeadLetter(Validation) <==> body.Some? && work.Send? && !Sendable(body.value))
            && (d == DeadLetter(PermanentFailure) <==> Sends(body, work) && work.result == PermanentError)
            && (d == DeadLetter(Exhausted) <==> last && Sends(body, work) && work.result == TransientError)
            && (d == DeadLetter(Unexpected)
                <==> last && ((body.Some? && work == Throws) || (Sends(body, work) && work.result == UnknownError)))
  {
    hide Create, Sendable;
    if body.Some? { CreateIff(body.value); }
  }

  /**
   In terms of the command: one that can be sent is sent, and delivered when that succeeds; a blank
   text, one of more than 4096 units, and a thread id that is not positive are refused, whatever the
   send would have given.
   */
  lemma ValidationOutcome(c: NotificationCommand, result: Sending, attempt: nat, maxAttempts: int)
    ensures Sends(Some(c), Send(result)) <==> Sendable(c)
    ensures Sendable(c) ==> (Decide(Some(c), Send(result), attempt, maxAttempts) == Deliver <==> result == Sent)
    ensures !Sendable(c) ==> Decide(Some(c), Send(result), attempt, maxAttempts) == DeadLetter(Validation)
    ensures Decide(Some(c), Send(result), attempt, maxAttempts) == DeadLetter(Validation) ==> !Sendable(c)
  {
    hide Create, Sendable;
    CreateIff(c);
  }

  // ----- Counters -----

  datatype Snapshot = Snapshot(received: nat, delivered: nat, retried: nat, deadLettered: map<Category, nat>)

  function Tally(m: map<Category, nat>, c: Category): nat {
    if c in m then m[c] else 0
  }

  function TotalDead(m: map<Category, nat>): nat {
    Tally(m, InvalidPayload) + Tally(m, Validation) + Tally(m, PermanentFailure) + Tally(m, Exhausted)
    + Tally(m, Unexpected)
  }

  function Counted(s: Snapshot, d: Decision): Snapshot {
    match d
    case Deliver => s.(delivered := s.delivered + 1)
    case Retry => s.(retried := s.retried + 1)
    case DeadLetter(c) => s.(deadLettered := s.deadLettered[c := Tally(s.deadLettered, c) + 1])
  }

  class MetricsRegistry {
    var received: nat
    var delivered: nat
    var retried: nat
    var deadLettered: map<Category, nat>

    constructor ()
      ensures Read() == Snapshot(0, 0, 0, map[])
    {
      received, delivered, retried, deadLettered := 0, 0, 0, map[];
    }

    function Read(): Snapshot
      reads this
    {
      Snapshot(received, delivered, retried, deadLettered)
    }

    method RecordReceived()
      modifies this
      ensures Read() == old(Read()).(received := old(received) + 1)
      ensures received == old(received) + 1 && unchanged(`delivered) && unchanged(`retried) && unchanged(`deadLettered)
    {
      received := received + 1;
    }

    method RecordDelivered()
      modifies this
      ensures Read() == Counted(old(Read()), Deliver)
      ensures delivered == old(delivered) + 1 && unchanged(`received) && unchanged(`retried) && unchanged(`deadLettered)
    {
      delivered := delivered + 1;
    }

    method RecordRetried()
      modifies this
      ensures Read() == Counted(old(Read()), Retry)
      ensures retried == old(retried) + 1 && unchanged(`received) && unchanged(`delivered) && unchanged(`deadLettered)
    {
      retried := retried + 1;
    }

    method RecordDeadLettered(category: Category)
      modifies this
      ensures Read() == Counted(old(Read()), DeadLetter(category))
      ensures unchanged(`received) && unchanged(`delivered) && unchanged(`retried)
      ensures deadLettered.Keys == old(deadLettered).Keys + {category}
      ensures deadLettered[category] == (if category in old(deadLettered) then old(deadLettered)[category] else 0) + 1
      ensures forall c | c in old(deadLettered) && c != category :: deadLettered[c] == old(deadLettered)[c]
    {
      deadLettered := deadLettered[category := Tally(deadLettered, category) + 1];
    }
  }

  // ----- The handler -----

  datatype Status = Ack | Drop | Escapes

  class DeadLetterExchange {
    var stored: seq<(Option<NotificationCommand>, Category)>

    constructor ()
      ensures stored == []
    {
      stored := [];
    }

    /** A confirmed publish; one that throws may still have been stored. */
    method Publish(body: Option<NotificationCommand>, category: Category, up: bool, lostConfirm: bool)
      returns (ok: bool)
      modifies this
      ensures ok == up
      ensures stored == if up || lostConfirm then old(stored) + [(body, category)] else old(stored)
    {
      ok := up;
      if up || lostConfirm { stored := stored + [(body, category)]; }
    }
  }

  /**
   The message handler.  The outcome is counted after its effect: a dead letter is counted
   and acknowledged only once the exchange has it, and a throw leaves only `received` behind.
   */
  method Handle(
    body: Option<NotificationCommand>, header: XDeath, work: Work, maxAttempts: int,
    metrics: MetricsRegistry, dlx: DeadLetterExchange, up: bool, lostConfirm: bool)
    returns (status: Status)
    modifies metrics, dlx
    ensures var d := Decide(body, work, GetAttemptCount(header, MAIN), maxAttempts);
            var received := old(metrics.Read()).(received := old(metrics.received) + 1);
            && status == (if d == Retry then Drop else if d == Deliver || up then Ack else Escapes)
            && (status == Escapes <==> d.DeadLetter? && !up)
            && metrics.Read() == (if status == Escapes then received else Counted(received, d))
            && dlx.stored == (if d.DeadLetter? && (up || lostConfirm)
                              then old(dlx.stored) + [(body, d.category)] else old(dlx.stored))
    ensures body.Some? && Sendable(body.value) && work == Send(Sent) ==>
              status == Ack && metrics.delivered == old(metrics.delivered) + 1 && dlx.stored == old(dlx.stored)
    ensures body.Some? && !Sendable(body.value) && work.Send? && up ==>
              status == Ack && metrics.delivered == old(metrics.delivered)
              && dlx.stored == old(dlx.stored) + [(body, Validation)]
  {
    hide Sendable, Create;
    if body.Some? && work.Send? {
      ValidationOutcome(body.value, work.result, GetAttemptCount(header, MAIN), maxAttempts);
    }
    metrics.RecordReceived();
    var attempt := GetAttemptCount(header, MAIN);
    var decision: Decision;
    if body == None {
      decision := DeadLetter(InvalidPayload);
    } else if work == Throws {
      var attemptsMade := attempt + 1;
      decision := if attemptsMade >= maxAttempts then DeadLetter(Unexpected) else Retry;
    } else {
      decision := Execute(body.value, work.result, attempt, maxAttempts);
    }
    match decision
    case Deliver =>
      metrics.RecordDelivered();
      status := Ack;
    case Retry =>
      metrics.RecordRetried();
      status := Drop;
    case DeadLetter(category) =>
      var ok := dlx.Publish(body, category, up, lostConfirm);
      if !ok { return Escapes; }
      metrics.RecordDeadLettered(category);
      status := Ack;
  }
}
