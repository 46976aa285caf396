/** The outbox relay of order-core-service: one run, and the drain of a backlog. */
module RelayOutbox {
  import opened Wrappers
  import opened OrderTables
  import opened OrderCore
  import opened Pipeline
  import opened PipelineInvariant
  import T = PipelineTheorems

  /** The rows a claim may take: pending and not locked by another relay. */
  function Available(t: Tables, locked: set<Key>): set<Key> {
    Pending(t) - locked
  }

  /** Distinct available rows, oldest first, as many as the limit allows, none younger than one left behind. */
  predicate Claimed(t: Tables, locked: set<Key>, limit: nat, keys: seq<Key>) {
    && (forall i | 0 <= i < |keys| :: keys[i] in Available(t, locked))
    && (forall i, j | 0 <= i < j < |keys| :: keys[i] != keys[j])
    && |keys| == (if limit < |Available(t, locked)| then limit else |Available(t, locked)|)
    && (forall i, j | 0 <= i < j < |keys| :: t.outbox[keys[i]].createdAt <= t.outbox[keys[j]].createdAt)
    && (forall i, j | 0 <= i < |keys| && j in Available(t, locked) && j !in keys ::
          t.outbox[keys[i]].createdAt <= t.outbox[j].createdAt)
  }

  predicate AllKnown(t: Tables) {
    forall k | k in t.outbox :: Known(t.outbox[k].destination)
  }

  function KeySet(keys: seq<Key>): set<Key> {
    set k | k in keys
  }

  lemma {:induction false} OldestExists(t: Tables, rest: set<Key>)
    requires rest != {} && forall k | k in rest :: k in t.outbox
    ensures exists k :: k in rest && forall j | j in rest :: t.outbox[k].createdAt <= t.outbox[j].createdAt
    decreases |rest|
  {
    var k :| k in rest;
    if rest != {k} {
      assert |rest - {k}| < |rest|;
      OldestExists(t, rest - {k});
      var m :| m in rest - {k} && forall j | j in rest - {k} :: t.outbox[m].createdAt <= t.outbox[j].createdAt;
      assert rest == (rest - {k}) + {k};
      var least := if t.outbox[k].createdAt < t.outbox[m].createdAt then k else m;
      assert least in rest;
    }
  }

  /** The broker accepts `answers` more publishes; the one that fails may still have arrived. */
  class Broker {
    var log: seq<Event>
    var answers: nat
    var lostConfirm: bool

    constructor (answers: nat, lostConfirm: bool)
      ensures log == [] && this.answers == answers && this.lostConfirm == lostConfirm
    {
      this.log := [];
      this.answers := answers;
      this.lostConfirm := lostConfirm;
    }

    method Publish(e: Event) returns (ok: bool)
      modifies this
      ensures lostConfirm == old(lostConfirm)
      ensures ok == (Known(e.destination) && old(answers) > 0)
      ensures ok ==> log == old(log) + [e] && answers == old(answers) - 1
      ensures !ok ==> log == old(log) || log == old(log) + [e]
    {
      if !Known(e.destination) { return false; }
      ok := answers > 0;
      if ok { answers := answers - 1; }
      if ok || lostConfirm { log := log + [e]; }
    }
  }

  /** Part of a claim: `keys` taken from `all`, oldest first, `rest` not taken yet. */
  predicate Taking(t: Tables, all: set<Key>, keys: seq<Key>, rest: set<Key>) {
    && (forall k | k in all :: k in t.outbox)
    && (forall i | 0 <= i < |keys| :: keys[i] in all)
    && rest == all - KeySet(keys) && |rest| + |keys| == |all|
    && (forall i, j | 0 <= i < j < |keys| :: keys[i] != keys[j])
    && (forall i, j | 0 <= i < j < |keys| :: t.outbox[keys[i]].createdAt <= t.outbox[keys[j]].createdAt)
    && (forall i, j | 0 <= i < |keys| && j in rest :: t.outbox[keys[i]].createdAt <= t.outbox[j].createdAt)
  }

  lemma TakeOldest(t: Tables, all: set<Key>, keys: seq<Key>, rest: set<Key>, k: Key)
    requires Taking(t, all, keys, rest)
    requires k in rest && forall j | j in rest :: t.outbox[k].createdAt <= t.outbox[j].createdAt
    ensures Taking(t, all, keys + [k], rest - {k})
  {
    hide KeySet;
    TakenFromRest(all, keys, rest, k);
  }

  lemma TakenFromRest(all: set<Key>, keys: seq<Key>, rest: set<Key>, k: Key)
    requires rest == all - KeySet(keys) && k in rest
    ensures rest - {k} == all - KeySet(keys + [k]) && |rest - {k}| == |rest| - 1
    ensures forall i | 0 <= i < |keys| :: keys[i] != k
  {
    hide KeySet;
    KeySetOf(keys);
    KeySetOf(keys + [k]);
    forall i | 0 <= i < |keys| ensures keys[i] != k {
      assert keys[i] in KeySet(keys);
    }
  }

  lemma KeySetOf(keys: seq<Key>)
    ensures forall k :: k in KeySet(keys) <==> k in keys
  {
  }

  method ClaimPending(t: Tables, locked: set<Key>, limit: nat) returns (keys: seq<Key>)
    ensures Claimed(t, locked, limit, keys)
    ensures forall i | 0 <= i < |keys| :: Takeable(t, locked, keys[i])
    ensures |keys| <= limit && (|keys| < limit ==> forall k | Takeable(t, locked, k) :: k in keys)
  {
    keys := [];
    var rest := Available(t, locked);
    while |keys| < limit && rest != {}
      invariant Taking(t, Available(t, locked), keys, rest) && |keys| <= limit
      decreases rest
    {
      OldestExists(t, rest);
      var k :| k in rest && forall j | j in rest :: t.outbox[k].createdAt <= t.outbox[j].createdAt;
      TakeOldest(t, Available(t, locked), keys, rest, k);
      keys := keys + [k];
      rest := rest - {k};
    }
    ClaimReads(t, locked, limit, keys);
  }

  /** A pending row that no other relay holds. */
  predicate Takeable(t: Tables, locked: set<Key>, k: Key) {
    k in t.outbox && !t.outbox[k].published && k !in locked
  }

  /** A claim, row by row: different takeable rows, all of them when they fit the limit, the oldest first. */
  lemma ClaimReads(t: Tables, locked: set<Key>, limit: nat, keys: seq<Key>)
    requires Claimed(t, locked, limit, keys)
    ensures forall i | 0 <= i < |keys| :: Takeable(t, locked, keys[i])
    ensures forall i, j | 0 <= i < j < |keys| ::
              keys[i] != keys[j] && t.outbox[keys[i]].createdAt <= t.outbox[keys[j]].createdAt
    ensures |keys| <= limit && (|keys| < limit ==> forall k | Takeable(t, locked, k) :: k in keys)
    ensures forall i, k | 0 <= i < |keys| && Takeable(t, locked, k) && k !in keys ::
              t.outbox[keys[i]].createdAt <= t.outbox[k].createdAt
  {
    if |keys| < limit {
      AllTaken(Available(t, locked), keys);
    }
  }

  lemma AllTaken(all: set<Key>, keys: seq<Key>)
    requires forall i | 0 <= i < |keys| :: keys[i] in all
    requires (forall i, j | 0 <= i < j < |keys| :: keys[i] != keys[j]) && |keys| == |all|
    ensures forall k | k in all :: k in keys
  {
    DistinctSize(keys);
    assert KeySet(keys) <= all;
    SameSize(KeySet(keys), all);
    KeySetOf(keys);
  }

  lemma SameSize(part: set<Key>, all: set<Key>)
    requires part <= all && |part| == |all|
    ensures part == all
  {
    if k :| k in all && k !in part {
      assert part <= all - {k};
      SubsetSize(part, all - {k});
    }
  }

  lemma {:induction false} SubsetSize(part: set<Key>, all: set<Key>)
    requires part <= all
    ensures |part| <= |all|
  {
    if k :| k in part {
      SubsetSize(part - {k}, all - {k});
    }
  }

  /** What goes out for a claimed row. */
  lemma EventsRead(t: Tables, keys: seq<Key>)
    requires forall i | 0 <= i < |keys| :: keys[i] in t.outbox
    ensures |Events(t, keys)| == |keys|
    ensures forall i | 0 <= i < |keys| ::
              Events(t, keys)[i] == Event(keys[i], t.outbox[keys[i]].destination, t.outbox[keys[i]].payload)
  {
  }

  /**
   run_once.  On success exactly the claimed rows went out, in order, and are marked; on a
   failure nothing is marked and a prefix of the claim may have gone out (at-least-once).
   */
  method RunOnce(db: Database, broker: Broker, batchSize: nat, locked: set<Key>, answers: nat)
    returns (r: Result<nat, Fault>, ghost keys: seq<Key>)
    modifies db, broker
    ensures Claimed(old(db.tables), locked, batchSize, keys)
    ensures r.Ok? ==>
              && r.value == |keys|
              && db.tables == MarkPublished(old(db.tables), KeySet(keys))
              && broker.log == old(broker.log) + Events(old(db.tables), keys)
              && broker.answers == old(broker.answers) - |keys|
    ensures r.Err? ==>
              && db.tables == old(db.tables)
              && (exists n | 0 <= n <= |keys| :: broker.log == old(broker.log) + Events(old(db.tables), keys)[..n])
    ensures answers >= 3 && |keys| <= old(broker.answers) && AllKnown(old(db.tables)) ==> r.Ok?
  {
    var t := db.tables;
    var batch := ClaimPending(t, locked, batchSize);
    keys := batch;
    ghost var log := broker.log;
    if answers == 0 {
      assert broker.log == log + Events(t, keys)[..0];
      return Err(Transient), keys;
    }
    if batch == [] {
      assert MarkPublished(t, {}).outbox == t.outbox;
      return Ok(0), keys;
    }
    var events := Events(t, batch);
    for i := 0 to |events|
      invariant db.tables == t && broker.log == log + events[..i]
      invariant broker.answers == old(broker.answers) - i
    {
      assert events[..i + 1] == events[..i] + [events[i]];
      var ok := broker.Publish(events[i]);
      if !ok {
        assert broker.log == log + events[..i] || broker.log == log + events[..i + 1];
        return Err(Transient), keys;
      }
    }
    assert events[..|events|] == events;
    if answers < 3 { return Err(Transient), keys; }
    db.tables := MarkPublished(t, KeySet(batch));
    r := Ok(|batch|);
  }

  lemma MarkedPending(t: Tables, keys: set<Key>)
    ensures Pending(MarkPublished(t, keys)) == Pending(t) - keys
  {
  }

  lemma {:induction false} DistinctSize(keys: seq<Key>)
    requires forall i, j | 0 <= i < j < |keys| :: keys[i] != keys[j]
    ensures |KeySet(keys)| == |keys|
  {
    if keys != [] {
      var n := |keys| - 1;
      DistinctSize(keys[..n]);
      assert KeySet(keys) == KeySet(keys[..n]) + {keys[n]};
      assert keys[n] !in KeySet(keys[..n]);
    }
  }

  /** `keys` are distinct pending rows of `t`, and `now` is `t` with exactly these marked. */
  predicate Drained(t: Tables, now: Tables, keys: seq<Key>) {
    && (forall i | 0 <= i < |keys| :: keys[i] in Pending(t))
    && (forall i, j | 0 <= i < j < |keys| :: keys[i] != keys[j])
    && now == MarkPublished(t, KeySet(keys))
  }

  lemma DrainedMore(t: Tables, now: Tables, keys: seq<Key>, limit: nat, more: seq<Key>)
    requires Drained(t, now, keys) && Claimed(now, {}, limit, more)
    ensures Drained(t, MarkPublished(now, KeySet(more)), keys + more)
  {
    hide KeySet, MarkPublished, Pending, Claimed;
    MarkedPending(t, KeySet(keys));
    MarkedTwice(t, KeySet(keys), KeySet(more));
    KeySetOf(keys);
    KeySetOf(more);
    KeySetOf(keys + more);
    assert KeySet(keys + more) == KeySet(keys) + KeySet(more);
    ClaimedRows(now, limit, more);
    forall i | 0 <= i < |more| ensures more[i] in Pending(t) && more[i] !in keys {
      assert more[i] in Pending(now);
    }
    DistinctTogether(keys, more);
  }

  lemma DistinctTogether(keys: seq<Key>, more: seq<Key>)
    requires forall i, j | 0 <= i < j < |keys| :: keys[i] != keys[j]
    requires forall i, j | 0 <= i < j < |more| :: more[i] != more[j]
    requires forall i | 0 <= i < |more| :: more[i] !in keys
    ensures var all := keys + more; forall i, j | 0 <= i < j < |all| :: all[i] != all[j]
  {
  }

  lemma MarkedTwice(t: Tables, first: set<Key>, second: set<Key>)
    ensures MarkPublished(MarkPublished(t, first), second) == MarkPublished(t, first + second)
  {
    assert MarkPublished(MarkPublished(t, first), second).outbox == MarkPublished(t, first + second).outbox;
  }

  lemma PendingLeft(now: Tables, limit: nat, more: seq<Key>)
    requires Claimed(now, {}, limit, more)
    ensures |Pending(MarkPublished(now, KeySet(more)))| == |Pending(now)| - |more|
    ensures |more| == if limit < |Pending(now)| then limit else |Pending(now)|
  {
    MarkedPending(now, KeySet(more));
    DistinctSize(more);
    assert Available(now, {}) == Pending(now);
    assert forall k | k in KeySet(more) :: k in Pending(now);
  }

  /** Marking rows leaves what the others would publish. */
  lemma EventsOfMore(t: Tables, now: Tables, keys: seq<Key>, more: seq<Key>)
    requires now == MarkPublished(t, KeySet(keys))
    requires forall i | 0 <= i < |keys| :: keys[i] in t.outbox
    requires forall i | 0 <= i < |more| :: more[i] in t.outbox
    ensures Events(now, more) == Events(t, more)
    ensures Events(t, keys + more) == Events(t, keys) + Events(t, more)
  {
  }

  /** One productive run of the drain. */
  lemma DrainedRun(t: Tables, now: Tables, keys: seq<Key>, limit: nat, more: seq<Key>)
    requires Drained(t, now, keys) && Claimed(now, {}, limit, more)
    ensures Drained(t, MarkPublished(now, KeySet(more)), keys + more)
    ensures (forall i | 0 <= i < |more| :: more[i] in now.outbox && more[i] in t.outbox)
            && (forall i | 0 <= i < |keys| :: keys[i] in t.outbox)
    ensures Events(t, keys + more) == Events(t, keys) + Events(now, more)
    ensures |Pending(MarkPublished(now, KeySet(more)))| == |Pending(now)| - |more|
    ensures |more| == if limit < |Pending(now)| then limit else |Pending(now)|
  {
    hide Claimed, Drained, KeySet, MarkPublished, Pending, Events;
    StillKnown(t, now, keys);
    ClaimedRows(now, limit, more);
    DrainedMore(t, now, keys, limit, more);
    PendingLeft(now, limit, more);
    EventsOfMore(t, now, keys, more);
  }

  /** How many claims of at most `limit` rows empty a backlog of `n`. */
  function Batches(n: nat, limit: nat): nat
    requires limit > 0
  {
    if n <= limit then (if n == 0 then 0 else 1) else 1 + Batches(n - limit, limit)
  }

  /** It is n / limit, rounded up. */
  lemma {:induction false} BatchesIsCeiling(n: nat, limit: nat)
    requires limit > 0
    ensures n <= Batches(n, limit) * limit < n + limit
  {
    if n > limit {
      BatchesIsCeiling(n - limit, limit);
      var rest := Batches(n - limit, limit);
      assert (1 + rest) * limit == limit + rest * limit;
    }
  }

  /**
   The drain: with no failure and no new row, every pending row is published exactly once
   and the relay reaches its idle tick after exactly `Batches` productive runs.
   */
  method Drain(db: Database, broker: Broker, batchSize: nat) returns (runs: nat, ghost keys: seq<Key>)
    requires batchSize > 0 && |Pending(db.tables)| <= broker.answers && AllKnown(db.tables)
    modifies db, broker
    ensures Pending(db.tables) == {} && Drained(old(db.tables), db.tables, keys)
    ensures broker.log == old(broker.log) + Events(old(db.tables), keys)
    ensures |keys| == |Pending(old(db.tables))| && runs == Batches(|keys|, batchSize)
    ensures forall k :: k in keys <==> k in old(db.tables).outbox && !old(db.tables).outbox[k].published
    ensures forall k | k in db.tables.outbox :: db.tables.outbox[k].published
  {
    hide Claimed, Drained, KeySet, MarkPublished, Pending, AllKnown, Events, Known;
    ghost var t := db.tables;
    ghost var n := |Pending(t)|;
    runs, keys := 0, [];
    MarkNone(t, keys);
    while true
      invariant Drained(t, db.tables, keys) && forall i | 0 <= i < |keys| :: keys[i] in t.outbox
      invariant broker.log == old(broker.log) + Events(t, keys)
      invariant |Pending(db.tables)| + |keys| == n && |Pending(db.tables)| <= broker.answers
      invariant runs + Batches(|Pending(db.tables)|, batchSize) == Batches(n, batchSize)
      decreases |Pending(db.tables)|
    {
      ghost var now := db.tables;
      var r;
      ghost var more;
      r, more := RunOnce(db, broker, batchSize, {}, 3);
      StillKnown(t, now, keys);
      DrainedRun(t, now, keys, batchSize, more);
      assert r.Ok?;
      if r.value == 0 {
        MarkNone(now, more);
        DrainReads(t, db.tables, keys);
        return;
      }
      keys, runs := keys + more, runs + 1;
    }
  }

  /** All pending rows, each once, and none is pending any more. */
  lemma DrainReads(t: Tables, now: Tables, keys: seq<Key>)
    requires Drained(t, now, keys) && |keys| == |Pending(t)|
    ensures forall k :: k in keys <==> k in t.outbox && !t.outbox[k].published
    ensures forall k | k in now.outbox :: now.outbox[k].published
  {
    AllTaken(Pending(t), keys);
    KeySetOf(keys);
  }

  lemma StillKnown(t: Tables, now: Tables, keys: seq<Key>)
    requires Drained(t, now, keys)
    ensures AllKnown(t) ==> AllKnown(now)
    ensures forall i | 0 <= i < |keys| :: keys[i] in t.outbox
    ensures now == MarkPublished(t, KeySet(keys)) && now.outbox.Keys == t.outbox.Keys
  {
    hide KeySet;
  }

  lemma MarkNone(t: Tables, keys: seq<Key>)
    requires keys == []
    ensures MarkPublished(t, KeySet(keys)) == t
    ensures Drained(t, t, keys) && Events(t, keys) == []
  {
    hide MarkPublished;
    MarkedNone(t);
    assert KeySet(keys) == {};
  }

  lemma MarkedNone(t: Tables)
    ensures MarkPublished(t, {}) == t
  {
    assert MarkPublished(t, {}).outbox == t.outbox;
  }

  lemma ClaimedRows(t: Tables, limit: nat, keys: seq<Key>)
    requires Claimed(t, {}, limit, keys)
    ensures forall i | 0 <= i < |keys| :: keys[i] in t.outbox && keys[i] in Pending(t)
    ensures forall i, j | 0 <= i < j < |keys| :: keys[i] != keys[j]
  {
  }

  /** Every destination in a reachable outbox is one the publisher knows, so no publish raises ValueError. */
  lemma {:induction false} DestinationsAreKnown(cfg: Settings, steps: seq<Step>)
    requires Runs(cfg, INIT, steps)
    ensures AllKnown(After(cfg, INIT, steps).tables)
  {
    hide TxnsOk, AllApart, LocksOk, SentOk, SendingOk, NotificationsOk, ResultsOk, InFlightOk, QueueOk;
    hide StatusOk, BuiltFor;
    T.Reachable(cfg, steps);
    var s := After(cfg, INIT, steps);
    forall k | k in s.tables.outbox ensures Known(s.tables.outbox[k].destination) {
      assert EventOk(cfg, s.tables, s.verdicts, k);
      assert OrderOk(cfg, s.tables, s.verdicts, k.id);
    }
  }

  /** A claim that respects the row locks of the open runs is one the pipeline allows. */
  lemma ClaimIsEnabled(cfg: Settings, s: System, t: nat, keys: seq<Key>)
    requires Claimed(s.tables, s.rowLocks.Keys, cfg.batchSize, keys) && t !in s.txns
    ensures Enabled(cfg, s, Step.Claim(t, keys))
  {
  }
}
