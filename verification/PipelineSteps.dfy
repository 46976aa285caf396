/** One lemma a step: whatever the state, the step keeps the invariant. */
module PipelineSteps {
  import opened Wire
  import opened OrderTables
  import opened Assessing
  import opened Pipeline
  import opened PipelineInvariant

  // ----- Steps of one database transaction, before it commits -----

  /** Replacing one ingest or verdict transaction keeps what is said of all of them. */
  lemma LocalStep(cfg: Settings, s: System, t: nat, x: Txn)
    requires TxnsOk(cfg, s.tables, s.rowLocks, s.txns) && AllApart(s.txns)
    requires LocksOk(s.txns, s.rowLocks) && InFlightOk(s.tables, s.verdicts, s.txns)
    requires SendingOk(s.txns, s.sent, s.aborts)
    requires !x.RelayTxn? && !IsRelay(s, t)
    requires TxnOk(cfg, s.tables, s.rowLocks, t, x)
    requires forall u | u in s.txns && u != t :: Apart(x, s.txns[u])
    requires x.VerdictTxn? ==> VerdictKnown(s.tables, s.verdicts, x.verdict)
    ensures TxnsOk(cfg, s.tables, s.rowLocks, s.txns[t := x]) && AllApart(s.txns[t := x])
    ensures LocksOk(s.txns[t := x], s.rowLocks) && InFlightOk(s.tables, s.verdicts, s.txns[t := x])
    ensures SendingOk(s.txns[t := x], s.sent, s.aborts)
  {
    hide TxnOk, VerdictKnown, RunOk;
    var txns := s.txns[t := x];
    forall k | k in s.rowLocks ensures Owned(txns, s.rowLocks[k], k) {
      assert Owned(s.txns, s.rowLocks[k], k);
    }
  }

  /** A transaction that wrote only rows nobody else has written is still apart from the others. */
  lemma StillApart(s: System, t: nat, x: Txn)
    requires AllApart(s.txns) && t in s.txns && !s.txns[t].RelayTxn? && !x.RelayTxn?
    requires forall id | id in x.writes.orders :: id in s.txns[t].writes.orders || !OrderBlocked(s, t, id)
    requires forall k | k in x.writes.outbox :: k in s.txns[t].writes.outbox || !KeyBlocked(s, t, k)
    ensures forall u | u in s.txns && u != t :: Apart(x, s.txns[u])
  {
    forall u | u in s.txns && u != t ensures Apart(x, s.txns[u]) {
      assert Apart(s.txns[t], s.txns[u]);
    }
  }

  /** One statement of an ingest or verdict transaction. */
  lemma Statement(cfg: Settings, s: System, t: nat, x: Txn)
    requires Inv(cfg, s) && t in s.txns && !s.txns[t].RelayTxn? && !x.RelayTxn?
    requires TxnOk(cfg, s.tables, s.rowLocks, t, x)
    requires forall id | id in x.writes.orders :: id in s.txns[t].writes.orders || !OrderBlocked(s, t, id)
    requires forall k | k in x.writes.outbox :: k in s.txns[t].writes.outbox || !KeyBlocked(s, t, k)
    requires x.VerdictTxn? ==> s.txns[t].VerdictTxn? && s.txns[t].verdict == x.verdict
    ensures Inv(cfg, s.(txns := s.txns[t := x]))
  {
    hide TablesOk, TxnsOk, TxnOk, AllApart, LocksOk, SendingOk, SentOk, Apart, OrderBlocked, KeyBlocked;
    StillApart(s, t, x);
    LocalStep(cfg, s, t, x);
  }

  lemma BeginIngestKeeps(cfg: Settings, s: System, t: nat, message: Envelope, now: int)
    requires Inv(cfg, s) && Enabled(cfg, s, BeginIngest(t, message, now))
    ensures Inv(cfg, Do(cfg, s, BeginIngest(t, message, now)))
  {
    LocalStep(cfg, s, t, IngestTxn(ToIncomingOrders(message), 0, false, now, EMPTY));
  }

  lemma InsertedOk(t: Tables, x: Txn)
    requires x.IngestTxn? && IngestOk(t, x) && !x.adding && x.pos < |x.batch|
    ensures IngestOk(t, Inserted(Overlay(t, x.writes), x))
  {
  }

  lemma InsertOrderKeeps(cfg: Settings, s: System, t: nat)
    requires Inv(cfg, s) && Enabled(cfg, s, InsertOrder(t))
    ensures Inv(cfg, Do(cfg, s, InsertOrder(t)))
  {
    hide IngestOk;
    assert TxnOk(cfg, s.tables, s.rowLocks, t, s.txns[t]);
    InsertedOk(s.tables, s.txns[t]);
    Statement(cfg, s, t, Do(cfg, s, InsertOrder(t)).txns[t]);
  }

  lemma RequestedOk(t: Tables, x: Txn)
    requires x.IngestTxn? && IngestOk(t, x) && x.adding
    requires forall k | k in t.outbox :: k.id in t.orders
    ensures AssessKey(x.batch[x.pos].externalId) !in Overlay(t, x.writes).outbox
    ensures IngestOk(t, Requested(Overlay(t, x.writes), x))
  {
  }

  lemma AddRequestKeeps(cfg: Settings, s: System, t: nat)
    requires Inv(cfg, s) && Enabled(cfg, s, AddRequest(t))
    ensures Inv(cfg, Do(cfg, s, AddRequest(t)))
  {
    hide IngestOk;
    assert TxnOk(cfg, s.tables, s.rowLocks, t, s.txns[t]);
    forall k | k in s.tables.outbox ensures k.id in s.tables.orders {
      assert EventOk(cfg, s.tables, s.verdicts, k);
    }
    RequestedOk(s.tables, s.txns[t]);
    Statement(cfg, s, t, Do(cfg, s, AddRequest(t)).txns[t]);
  }

  lemma BeginVerdictKeeps(cfg: Settings, s: System, t: nat, verdict: AssessmentResult, now: int)
    requires Inv(cfg, s) && Enabled(cfg, s, BeginVerdict(t, verdict, now))
    ensures Inv(cfg, Do(cfg, s, BeginVerdict(t, verdict, now)))
  {
    hide TablesOk, AllApart, LocksOk, InFlightOk, SendingOk, SentOk, TxnsOk;
    assert VerdictKnown(s.tables, s.verdicts, verdict);
    LocalStep(cfg, s, t, VerdictTxn(verdict, Reading, now, EMPTY));
  }

  lemma ReadOrderKeeps(cfg: Settings, s: System, t: nat)
    requires Inv(cfg, s) && Enabled(cfg, s, ReadOrder(t))
    ensures s.txns[t].verdict.orderId in s.tables.orders
    ensures Inv(cfg, Do(cfg, s, ReadOrder(t)))
  {
    hide TablesOk, AllApart, LocksOk, SentOk, SendingOk, QueueOk, WorkersOk, Decided, OrderBlocked, KeyBlocked;
    assert TxnOk(cfg, s.tables, s.rowLocks, t, s.txns[t]);
    Statement(cfg, s, t, Do(cfg, s, ReadOrder(t)).txns[t]);
  }

  lemma UpdatedOk(cfg: Settings, t: Tables, x: Txn)
    requires x.VerdictTxn? && VerdictOk(cfg, t, x) && x.stage == Setting
    ensures VerdictOk(cfg, t, Updated(cfg, Overlay(t, x.writes), x))
    ensures Updated(cfg, Overlay(t, x.writes), x).writes.orders.Keys == {x.verdict.orderId}
    ensures Updated(cfg, Overlay(t, x.writes), x).writes.outbox == map[]
  {
  }

  lemma UpdateOrderKeeps(cfg: Settings, s: System, t: nat)
    requires Inv(cfg, s) && Enabled(cfg, s, UpdateOrder(t))
    ensures Inv(cfg, Do(cfg, s, UpdateOrder(t)))
  {
    hide VerdictOk, SetStatus, OrderBlocked;
    assert TxnOk(cfg, s.tables, s.rowLocks, t, s.txns[t]);
    UpdatedOk(cfg, s.tables, s.txns[t]);
    Statement(cfg, s, t, Updated(cfg, View(s, s.txns[t]), s.txns[t]));
  }

  lemma NotifiedOk(cfg: Settings, t: Tables, x: Txn)
    requires x.VerdictTxn? && VerdictOk(cfg, t, x) && x.stage == Adding
    ensures VerdictOk(cfg, t, Notified(Overlay(t, x.writes), x))
  {
  }

  lemma AddNotifyKeeps(cfg: Settings, s: System, t: nat)
    requires Inv(cfg, s) && Enabled(cfg, s, AddNotify(t))
    ensures Inv(cfg, Do(cfg, s, AddNotify(t)))
  {
    hide VerdictOk;
    assert TxnOk(cfg, s.tables, s.rowLocks, t, s.txns[t]);
    NotifiedOk(cfg, s.tables, s.txns[t]);
    Statement(cfg, s, t, Notified(View(s, s.txns[t]), s.txns[t]));
  }

  lemma Forget(cfg: Settings, s: System, t: nat)
    requires Inv(cfg, s) && t in s.txns && !s.txns[t].RelayTxn?
    ensures Inv(cfg, s.(txns := s.txns - {t}))
  {
    hide TablesOk, TxnOk, SentOk, VerdictKnown, RunOk, Apart, QueueOk;
    forall k | k in s.rowLocks ensures Owned(s.txns - {t}, s.rowLocks[k], k) {
      assert Owned(s.txns, s.rowLocks[k], k);
    }
  }

  lemma AckKeeps(cfg: Settings, s: System, t: nat)
    requires Inv(cfg, s) && Enabled(cfg, s, Ack(t))
    ensures Inv(cfg, Do(cfg, s, Ack(t)))
  {
    Forget(cfg, s, t);
  }

  // ----- The relay -----

  lemma ClaimedTxns(cfg: Settings, s: System, t: nat, keys: seq<Key>)
    requires TxnsOk(cfg, s.tables, s.rowLocks, s.txns) && LocksOk(s.txns, s.rowLocks)
    requires t !in s.txns && Claimable(s, keys, cfg.batchSize)
    ensures var x := RelayTxn(Events(s.tables, keys), 0, false);
            && TxnsOk(cfg, s.tables, Locked(s.rowLocks, keys, t), s.txns[t := x])
  {
    hide IngestOk, VerdictOk;
    var locks := Locked(s.rowLocks, keys, t);
    forall u | u in s.txns ensures TxnOk(cfg, s.tables, locks, u, s.txns[u]) {
      assert TxnOk(cfg, s.tables, s.rowLocks, u, s.txns[u]);
    }
  }

  lemma ClaimedLocks(cfg: Settings, s: System, t: nat, keys: seq<Key>)
    requires LocksOk(s.txns, s.rowLocks) && t !in s.txns && Claimable(s, keys, cfg.batchSize)
    ensures LocksOk(s.txns[t := RelayTxn(Events(s.tables, keys), 0, false)], Locked(s.rowLocks, keys, t))
  {
    var locks := Locked(s.rowLocks, keys, t);
    var x := RelayTxn(Events(s.tables, keys), 0, false);
    forall k | k in locks ensures Owned(s.txns[t := x], locks[k], k) {
      if k in keys {
        var i :| 0 <= i < |keys| && keys[i] == k;
        assert x.events[i].key == k;
      } else {
        assert Owned(s.txns, s.rowLocks[k], k);
      }
    }
  }

  lemma ClaimKeeps(cfg: Settings, s: System, t: nat, keys: seq<Key>)
    requires Inv(cfg, s) && Enabled(cfg, s, Claim(t, keys))
    ensures Inv(cfg, Do(cfg, s, Claim(t, keys)))
  {
    hide TablesOk, QueueOk, WorkersOk, ResultsOk, TxnsOk, LocksOk, VerdictKnown;
    var s' := Do(cfg, s, Claim(t, keys));
    ClaimedTxns(cfg, s, t, keys);
    ClaimedLocks(cfg, s, t, keys);
    forall k | k in s.tables.outbox ensures Counted(s.tables, s'.rowLocks, s.sent, s.aborts, k) {
      assert Counted(s.tables, s.rowLocks, s.sent, s.aborts, k);
    }
    forall i | 0 <= i < |keys|
      ensures var e := s'.txns[t].events[i]; s.sent[e] <= s.aborts[e.key]
    {
      assert Counted(s.tables, s.rowLocks, s.sent, s.aborts, keys[i]);
    }
    forall u | u in s'.txns && s'.txns[u].RelayTxn? ensures RunOk(s'.txns[u], s.sent, s.aborts) {
      assert u != t ==> RunOk(s.txns[u], s.sent, s.aborts);
    }
  }

  /** Two open relay runs hold different rows. */
  lemma ClaimsDisjoint(cfg: Settings, s: System, t: nat, u: nat)
    requires TxnsOk(cfg, s.tables, s.rowLocks, s.txns)
    requires IsRelay(s, t) && IsRelay(s, u) && t != u
    ensures Keys(s.txns[t].events) !! Keys(s.txns[u].events)
  {
    assert TxnOk(cfg, s.tables, s.rowLocks, t, s.txns[t]);
    assert TxnOk(cfg, s.tables, s.rowLocks, u, s.txns[u]);
    assert forall k | k in Keys(s.txns[t].events) :: s.rowLocks[k] == t;
    assert forall k | k in Keys(s.txns[u].events) :: s.rowLocks[k] == u;
  }

  lemma RelayReplace(cfg: Settings, s: System, t: nat, x: Txn)
    requires TxnsOk(cfg, s.tables, s.rowLocks, s.txns) && AllApart(s.txns)
    requires LocksOk(s.txns, s.rowLocks) && InFlightOk(s.tables, s.verdicts, s.txns)
    requires IsRelay(s, t) && x.RelayTxn? && x.events == s.txns[t].events
    requires TxnOk(cfg, s.tables, s.rowLocks, t, x)
    ensures TxnsOk(cfg, s.tables, s.rowLocks, s.txns[t := x]) && AllApart(s.txns[t := x])
    ensures LocksOk(s.txns[t := x], s.rowLocks) && InFlightOk(s.tables, s.verdicts, s.txns[t := x])
  {
    hide TxnOk, VerdictKnown;
    forall k | k in s.rowLocks ensures Owned(s.txns[t := x], s.rowLocks[k], k) {
      assert Owned(s.txns, s.rowLocks[k], k);
    }
  }

  lemma SentAfter(cfg: Settings, s: System, t: nat)
    requires TxnsOk(cfg, s.tables, s.rowLocks, s.txns) && Publishing(s, t)
    requires SentOk(s.tables, s.rowLocks, s.sent, s.aborts) && SendingOk(s.txns, s.sent, s.aborts)
    ensures var x := s.txns[t];
            var sent := s.sent + multiset{x.events[x.sent]};
            && SentOk(s.tables, s.rowLocks, sent, s.aborts)
            && SendingOk(s.txns[t := x.(sent := x.sent + 1)], sent, s.aborts)
  {
    var x := s.txns[t];
    var e := x.events[x.sent];
    var sent := s.sent + multiset{e};
    assert RelayOk(s.tables, s.rowLocks, t, x) by { assert TxnOk(cfg, s.tables, s.rowLocks, t, x); }
    assert ClaimOk(s.tables, s.rowLocks, t, e);
    assert RunOk(x, s.sent, s.aborts);
    forall k | k in s.tables.outbox ensures Counted(s.tables, s.rowLocks, sent, s.aborts, k) {
      assert Counted(s.tables, s.rowLocks, s.sent, s.aborts, k);
    }
    forall u | u in s.txns && u != t && s.txns[u].RelayTxn? ensures RunOk(s.txns[u], sent, s.aborts) {
      assert RunOk(s.txns[u], s.sent, s.aborts);
      ClaimsDisjoint(cfg, s, t, u);
      assert e.key in Keys(x.events);
      forall i | 0 <= i < |s.txns[u].events| ensures s.txns[u].events[i] != e {
        assert s.txns[u].events[i].key in Keys(s.txns[u].events);
      }
    }
  }

  /** The event a relay run is about to publish goes to the queue its payload belongs on. */
  lemma EventRouted(cfg: Settings, s: System, t: nat)
    requires TablesOk(cfg, s.tables, s.verdicts) && TxnsOk(cfg, s.tables, s.rowLocks, s.txns) && Publishing(s, t)
    ensures var e := s.txns[t].events[s.txns[t].sent];
            && (e.destination == ASSESS_REQUEST ==> e.payload.Request? && KnownOrders(s.tables, e.payload.envelope))
            && (e.destination == NOTIFY ==> e.payload.Command?)
            && Known(e.destination)
  {
    var e := s.txns[t].events[s.txns[t].sent];
    assert TxnOk(cfg, s.tables, s.rowLocks, t, s.txns[t]);
    assert ClaimOk(s.tables, s.rowLocks, t, e);
    assert EventOk(cfg, s.tables, s.verdicts, e.key);
    assert OrderOk(cfg, s.tables, s.verdicts, e.key.id);
    assert ASSESS_REQUEST[0] != NOTIFY[0];
  }

  lemma Delivered(cfg: Settings, s: System, t: nat)
    requires TablesOk(cfg, s.tables, s.verdicts) && TxnsOk(cfg, s.tables, s.rowLocks, s.txns) && Publishing(s, t)
    requires QueueOk(s.tables, s.requests) && NotificationsOk(s.notifications, s.sent)
    ensures var e := s.txns[t].events[s.txns[t].sent];
            && Known(e.destination)
            && QueueOk(s.tables, Deliver(s, e).requests)
            && NotificationsOk(Deliver(s, e).notifications, Deliver(s, e).sent)
  {
    hide TablesOk, TxnsOk, KnownOrders, NotificationsOk;
    EventRouted(cfg, s, t);
    var e := s.txns[t].events[s.txns[t].sent];
    MoreSent(s.notifications, s.sent, e);
  }

  lemma MoreSent(notifications: multiset<Payload>, sent: multiset<Event>, e: Event)
    requires NotificationsOk(notifications, sent)
    ensures NotificationsOk(notifications, sent + multiset{e})
    ensures e.destination == NOTIFY ==> NotificationsOk(notifications + multiset{e.payload}, sent + multiset{e})
  {
    forall p | p in notifications
      ensures exists e' :: e' in sent + multiset{e} && e'.destination == NOTIFY && e'.payload == p
    {
      var e' :| e' in sent && e'.destination == NOTIFY && e'.payload == p;
      assert e' in sent + multiset{e};
    }
    assert e in sent + multiset{e};
  }

  lemma PublishKeeps(cfg: Settings, s: System, t: nat)
    requires Inv(cfg, s) && Enabled(cfg, s, Publish(t))
    ensures Inv(cfg, Do(cfg, s, Publish(t)))
  {
    hide TablesOk, TxnOk, SentOk, SendingOk, AllApart, LocksOk, InFlightOk, ResultsOk, WorkersOk, QueueOk;
    hide NotificationsOk;
    var x := s.txns[t];
    assert TxnOk(cfg, s.tables, s.rowLocks, t, x);
    Delivered(cfg, s, t);
    SentAfter(cfg, s, t);
    AdvancedOk(cfg, s.tables, s.rowLocks, t, x);
    RelayReplace(cfg, s, t, x.(sent := x.sent + 1));
  }

  lemma AdvancedOk(cfg: Settings, t: Tables, locks: map<Key, nat>, owner: nat, x: Txn)
    requires x.RelayTxn? && TxnOk(cfg, t, locks, owner, x) && x.sent < |x.events|
    ensures TxnOk(cfg, t, locks, owner, x.(sent := x.sent + 1))
  {
  }

  lemma MarkKeeps(cfg: Settings, s: System, t: nat)
    requires Inv(cfg, s) && Enabled(cfg, s, Mark(t))
    ensures Inv(cfg, Do(cfg, s, Mark(t)))
  {
    hide TablesOk, SentOk, AllApart, LocksOk, InFlightOk, ResultsOk, WorkersOk, QueueOk;
    assert TxnOk(cfg, s.tables, s.rowLocks, t, s.txns[t]);
    RelayReplace(cfg, s, t, s.txns[t].(marked := true));
    assert RunOk(s.txns[t], s.sent, s.aborts);
  }

  /** Ending a relay run releases its rows and no others. */
  lemma Unlock(cfg: Settings, s: System, t: nat)
    requires TxnsOk(cfg, s.tables, s.rowLocks, s.txns) && AllApart(s.txns)
    requires LocksOk(s.txns, s.rowLocks) && InFlightOk(s.tables, s.verdicts, s.txns) && IsRelay(s, t)
    ensures var K := Keys(s.txns[t].events);
            && TxnsOk(cfg, s.tables, s.rowLocks - K, s.txns - {t}) && AllApart(s.txns - {t})
            && LocksOk(s.txns - {t}, s.rowLocks - K) && InFlightOk(s.tables, s.verdicts, s.txns - {t})
  {
    hide IngestOk, VerdictOk, VerdictKnown;
    var K := Keys(s.txns[t].events);
    forall u | u in s.txns && u != t ensures TxnOk(cfg, s.tables, s.rowLocks - K, u, s.txns[u]) {
      assert TxnOk(cfg, s.tables, s.rowLocks, u, s.txns[u]);
      if s.txns[u].RelayTxn? {
        ClaimsDisjoint(cfg, s, t, u);
        forall i | 0 <= i < |s.txns[u].events| ensures s.txns[u].events[i].key !in K {
          assert s.txns[u].events[i].key in Keys(s.txns[u].events);
        }
      }
    }
    forall k | k in s.rowLocks - K ensures Owned(s.txns - {t}, (s.rowLocks - K)[k], k) {
      assert Owned(s.txns, s.rowLocks[k], k);
    }
  }

  lemma GiveBack(cfg: Settings, s: System, t: nat)
    requires TxnsOk(cfg, s.tables, s.rowLocks, s.txns) && IsRelay(s, t)
    requires SentOk(s.tables, s.rowLocks, s.sent, s.aborts) && SendingOk(s.txns, s.sent, s.aborts)
    ensures var K := Keys(s.txns[t].events);
            && SentOk(s.tables, s.rowLocks - K, s.sent, s.aborts + multiset(K))
            && SendingOk(s.txns - {t}, s.sent, s.aborts + multiset(K))
  {
    hide IngestOk, VerdictOk;
    var K := Keys(s.txns[t].events);
    assert RelayOk(s.tables, s.rowLocks, t, s.txns[t]) by {
      assert TxnOk(cfg, s.tables, s.rowLocks, t, s.txns[t]);
    }
    forall k | k in s.tables.outbox ensures Counted(s.tables, s.rowLocks - K, s.sent, s.aborts + multiset(K), k) {
      assert Counted(s.tables, s.rowLocks, s.sent, s.aborts, k);
    }
    forall u | u in s.txns && u != t && s.txns[u].RelayTxn?
      ensures RunOk(s.txns[u], s.sent, s.aborts + multiset(K))
    {
      assert RunOk(s.txns[u], s.sent, s.aborts);
    }
  }

  lemma AbortKeeps(cfg: Settings, s: System, t: nat)
    requires Inv(cfg, s) && t in s.txns
    ensures Inv(cfg, Rollback(s, t))
  {
    hide TablesOk, SentOk, SendingOk, TxnsOk, AllApart, LocksOk, VerdictKnown, WorkersOk, QueueOk;
    if s.txns[t].RelayTxn? {
      Unlock(cfg, s, t);
      GiveBack(cfg, s, t);
    } else {
      Forget(cfg, s, t);
    }
  }

  lemma PublishRaisesKeeps(cfg: Settings, s: System, t: nat, delivered: bool)
    requires Inv(cfg, s) && Enabled(cfg, s, PublishRaises(t, delivered))
    ensures Inv(cfg, Do(cfg, s, PublishRaises(t, delivered)))
  {
    hide Inv;
    if delivered {
      PublishKeeps(cfg, s, t);
      var s' := Do(cfg, s, Publish(t));
      AbortKeeps(cfg, s', t);
      assert s'.txns - {t} == s.txns - {t};
    } else {
      AbortKeeps(cfg, s, t);
    }
  }

  // ----- Commit -----

  /** Committing the writes of one transaction leaves every transaction apart from it in order. */
  lemma OverlayStable(cfg: Settings, t: Tables, locks: map<Key, nat>, x: Txn, u: nat, y: Txn)
    requires !x.RelayTxn? && x.writes.outbox.Keys !! t.outbox.Keys
    requires TxnOk(cfg, t, locks, u, y) && Apart(x, y)
    ensures TxnOk(cfg, Overlay(t, x.writes), locks, u, y)
  {
  }

  lemma IngestCommitted(cfg: Settings, t: Tables, verdicts: Verdicts, x: Txn)
    requires TablesOk(cfg, t, verdicts) && x.IngestTxn? && IngestOk(t, x) && !x.adding
    ensures TablesOk(cfg, Overlay(t, x.writes), verdicts)
  {
  }

  lemma VerdictCommitted(cfg: Settings, t: Tables, verdicts: Verdicts, x: Txn)
    requires TablesOk(cfg, t, verdicts) && x.VerdictTxn? && VerdictOk(cfg, t, x) && x.stage == Closing
    requires VerdictKnown(t, verdicts, x.verdict)
    ensures TablesOk(cfg, Overlay(t, x.writes), verdicts)
  {
    var t' := Overlay(t, x.writes);
    forall id | id in t'.orders ensures OrderOk(cfg, t', verdicts, id) {
      assert OrderOk(cfg, t, verdicts, id);
    }
    forall k | k in t'.outbox ensures EventOk(cfg, t', verdicts, k) {
      assert k in t.outbox ==> EventOk(cfg, t, verdicts, k);
    }
  }

  /** The tables may only grow, keep every destination and payload, and publish nothing themselves. */
  lemma OverlaySent(t: Tables, w: Tables, locks: map<Key, nat>, sent: multiset<Event>, aborts: multiset<Key>)
    requires SentOk(t, locks, sent, aborts)
    requires w.outbox.Keys !! t.outbox.Keys && forall k | k in w.outbox :: !w.outbox[k].published
    ensures SentOk(Overlay(t, w), locks, sent, aborts)
  {
    var t' := Overlay(t, w);
    forall k | k in t'.outbox ensures Counted(t', locks, sent, aborts, k) {
      if k in t.outbox {
        assert Counted(t, locks, sent, aborts, k);
      }
    }
  }

  lemma OverlayTxns(cfg: Settings, s: System, t: nat)
    requires TxnsOk(cfg, s.tables, s.rowLocks, s.txns) && AllApart(s.txns)
    requires t in s.txns && !s.txns[t].RelayTxn?
    ensures TxnsOk(cfg, Overlay(s.tables, s.txns[t].writes), s.rowLocks, s.txns - {t})
  {
    var x := s.txns[t];
    forall u | u in s.txns && u != t
      ensures TxnOk(cfg, Overlay(s.tables, x.writes), s.rowLocks, u, s.txns[u])
    {
      hide TxnOk, Apart;
      assert TxnOk(cfg, s.tables, s.rowLocks, u, s.txns[u]) && Apart(x, s.txns[u]);
      OverlayStable(cfg, s.tables, s.rowLocks, x, u, s.txns[u]);
    }
  }

  /** Messages stay known while the tables grow. */
  lemma MessagesKept(s: System, t: Tables)
    requires s.tables.orders.Keys <= t.orders.Keys
    requires QueueOk(s.tables, s.requests) && QueueOk(s.tables, s.retries) && QueueOk(s.tables, s.rejected)
    requires WorkersOk(s.tables, s.workers) && ResultsOk(s.tables, s.verdicts, s.results)
    requires InFlightOk(s.tables, s.verdicts, s.txns)
    ensures QueueOk(t, s.requests) && QueueOk(t, s.retries) && QueueOk(t, s.rejected)
    ensures WorkersOk(t, s.workers) && ResultsOk(t, s.verdicts, s.results) && InFlightOk(t, s.verdicts, s.txns)
  {
    hide JudgedWith;
  }

  lemma OverlayCommitted(cfg: Settings, s: System, t: nat)
    requires Inv(cfg, s) && t in s.txns && !s.txns[t].RelayTxn? && Committable(s.txns[t])
    ensures Inv(cfg, s.(tables := Overlay(s.tables, s.txns[t].writes), txns := s.txns - {t}))
  {
    hide TablesOk, AllApart, LocksOk, SendingOk, SentOk, NotificationsOk, Decided, JudgedWith;
    hide QueueOk, WorkersOk, ResultsOk;
    var x := s.txns[t];
    assert TxnOk(cfg, s.tables, s.rowLocks, t, x);
    if x.IngestTxn? {
      IngestCommitted(cfg, s.tables, s.verdicts, x);
    } else {
      VerdictCommitted(cfg, s.tables, s.verdicts, x);
    }
    OverlaySent(s.tables, x.writes, s.rowLocks, s.sent, s.aborts);
    OverlayTxns(cfg, s, t);
    Forget(cfg, s, t);
    MessagesKept(s.(txns := s.txns - {t}), Overlay(s.tables, x.writes));
  }

  lemma MarkedTables(cfg: Settings, t: Tables, verdicts: Verdicts, keys: set<Key>)
    requires TablesOk(cfg, t, verdicts)
    ensures TablesOk(cfg, MarkPublished(t, keys), verdicts)
  {
    hide Judged, BuiltFor;
    var t' := MarkPublished(t, keys);
    forall id | id in t'.orders ensures OrderOk(cfg, t', verdicts, id) {
      assert OrderOk(cfg, t, verdicts, id);
    }
    forall k | k in t'.outbox ensures EventOk(cfg, t', verdicts, k) {
      assert EventOk(cfg, t, verdicts, k);
    }
  }

  lemma MarkedTxns(cfg: Settings, t: Tables, locks: map<Key, nat>, txns: map<nat, Txn>, keys: set<Key>)
    requires TxnsOk(cfg, t, locks, txns) && locks.Keys !! keys
    ensures TxnsOk(cfg, MarkPublished(t, keys), locks, txns)
  {
    forall u | u in txns ensures TxnOk(cfg, MarkPublished(t, keys), locks, u, txns[u]) {
      assert TxnOk(cfg, t, locks, u, txns[u]);
    }
  }

  /** Rows a relay run has published all of may be marked: they have gone out. */
  lemma MarkedSent(cfg: Settings, s: System, t: nat)
    requires TxnsOk(cfg, s.tables, s.rowLocks, s.txns) && IsRelay(s, t) && s.txns[t].marked
    requires SentOk(s.tables, s.rowLocks, s.sent, s.aborts) && SendingOk(s.txns, s.sent, s.aborts)
    ensures var K := Keys(s.txns[t].events);
            SentOk(MarkPublished(s.tables, K), s.rowLocks - K, s.sent, s.aborts)
  {
    var x := s.txns[t];
    var K := Keys(x.events);
    var t' := MarkPublished(s.tables, K);
    assert RelayOk(s.tables, s.rowLocks, t, x) by { assert TxnOk(cfg, s.tables, s.rowLocks, t, x); }
    assert RunOk(x, s.sent, s.aborts);
    forall k | k in t'.outbox ensures Counted(t', s.rowLocks - K, s.sent, s.aborts, k) {
      assert Counted(s.tables, s.rowLocks, s.sent, s.aborts, k);
    }
    forall k | k in t'.outbox && t'.outbox[k].published ensures EventOf(t', k) in s.sent {
      if k in K {
        var i :| 0 <= i < |x.events| && x.events[i].key == k;
        assert ClaimOk(s.tables, s.rowLocks, t, x.events[i]);
      }
    }
  }

  lemma RelayCommitted(cfg: Settings, s: System, t: nat)
    requires Inv(cfg, s) && IsRelay(s, t) && s.txns[t].marked
    ensures Inv(cfg, Committed(s, t))
  {
    hide TablesOk, TxnsOk, AllApart, LocksOk, SentOk, RunOk, InFlightOk, QueueOk, WorkersOk, ResultsOk;
    var K := Keys(s.txns[t].events);
    MarkedTables(cfg, s.tables, s.verdicts, K);
    MarkedSent(cfg, s, t);
    Unlock(cfg, s, t);
    MarkedTxns(cfg, s.tables, s.rowLocks - K, s.txns - {t}, K);
    MessagesKept(s.(txns := s.txns - {t}), MarkPublished(s.tables, K));
  }

  lemma CommitKeeps(cfg: Settings, s: System, t: nat)
    requires Inv(cfg, s) && Enabled(cfg, s, Commit(t))
    ensures Inv(cfg, Do(cfg, s, Commit(t)))
  {
    hide TablesOk, AllApart, LocksOk, SentOk, SendingOk, QueueOk, WorkersOk, ResultsOk;
    var x := s.txns[t];
    match x
    case RelayTxn(_, _, _) => RelayCommitted(cfg, s, t);
    case IngestTxn(_, _, _, _, _) => OverlayCommitted(cfg, s, t);
    case VerdictTxn(verdict, _, now, _) =>
      OverlayCommitted(cfg, s, t);
      assert TxnOk(cfg, s.tables, s.rowLocks, t, x);
      var s1 := s.(tables := Overlay(s.tables, x.writes), txns := s.txns - {t});
      var settled := VerdictTxn(verdict, Settled, now, EMPTY);
      assert VerdictKnown(s1.tables, s.verdicts, verdict);
      LocalStep(cfg, s1, t, settled);
      assert s1.txns[t := settled] == s.txns[t := settled];
  }

  // ----- llm -----

  lemma ReceiveKeeps(cfg: Settings, s: System, w: nat, request: Payload)
    requires Inv(cfg, s) && Enabled(cfg, s, Receive(w, request))
    ensures Inv(cfg, Do(cfg, s, Receive(w, request)))
  {
  }

  /** More verdicts only make more said of the tables true. */
  lemma MoreVerdicts(cfg: Settings, t: Tables, verdicts: Verdicts, more: Verdicts)
    requires TablesOk(cfg, t, verdicts) && verdicts <= more
    ensures TablesOk(cfg, t, more)
  {
    hide RequestFor, NotifyEvent;
    forall id | id in t.orders ensures OrderOk(cfg, t, more, id) {
      assert OrderOk(cfg, t, verdicts, id);
    }
    forall k | k in t.outbox ensures EventOk(cfg, t, more, k) {
      assert EventOk(cfg, t, verdicts, k);
    }
  }

  lemma AssessKeeps(cfg: Settings, s: System, w: nat, a: Assessment, n: NotificationCommand)
    requires Inv(cfg, s) && Enabled(cfg, s, Assess(w, a, n))
    ensures Inv(cfg, Do(cfg, s, Assess(w, a, n)))
  {
    hide TablesOk, TxnsOk, AllApart, LocksOk, SentOk, SendingOk, NotificationsOk;
    var s' := Do(cfg, s, Assess(w, a, n));
    MoreVerdicts(cfg, s.tables, s.verdicts, s'.verdicts);
    var order := s.workers[w].envelope.orders[s.workers[w].pos];
    assert (order.id, a, n) in s'.verdicts;
    forall id, score, m | JudgedWith(s.verdicts, id, score, m) ensures JudgedWith(s'.verdicts, id, score, m) {
    }
  }

  lemma DropKeeps(cfg: Settings, s: System, w: nat)
    requires Inv(cfg, s) && Enabled(cfg, s, Drop(w))
    ensures Inv(cfg, Do(cfg, s, Drop(w)))
  {
    hide TablesOk, TxnsOk, AllApart, LocksOk, InFlightOk, SentOk, SendingOk, NotificationsOk, ResultsOk;
  }

  lemma DeferKeeps(cfg: Settings, s: System, w: nat)
    requires Inv(cfg, s) && Enabled(cfg, s, Defer(w))
    ensures Inv(cfg, Do(cfg, s, Defer(w)))
  {
    hide TablesOk, TxnsOk, AllApart, LocksOk, InFlightOk, SentOk, SendingOk, NotificationsOk, ResultsOk;
  }

  lemma FinishKeeps(cfg: Settings, s: System, w: nat)
    requires Inv(cfg, s) && Enabled(cfg, s, Finish(w))
    ensures Inv(cfg, Do(cfg, s, Finish(w)))
  {
    hide TablesOk, TxnsOk, AllApart, LocksOk, InFlightOk, SentOk, SendingOk, NotificationsOk, ResultsOk;
  }

  lemma RetryPublishRaisesKeeps(cfg: Settings, s: System, w: nat, delivered: bool)
    requires Inv(cfg, s) && Enabled(cfg, s, RetryPublishRaises(w, delivered))
    ensures Inv(cfg, Do(cfg, s, RetryPublishRaises(w, delivered)))
  {
    hide TablesOk, TxnsOk, AllApart, LocksOk, InFlightOk, SentOk, SendingOk, NotificationsOk, ResultsOk;
  }

  lemma CrashKeeps(cfg: Settings, s: System, w: nat)
    requires Inv(cfg, s) && Enabled(cfg, s, Crash(w))
    ensures Inv(cfg, Do(cfg, s, Crash(w)))
  {
    hide TablesOk, TxnsOk, AllApart, LocksOk, InFlightOk, SentOk, SendingOk, NotificationsOk, ResultsOk;
  }

  lemma RetryExpiresKeeps(cfg: Settings, s: System, request: Payload)
    requires Inv(cfg, s) && Enabled(cfg, s, RetryExpires(request))
    ensures Inv(cfg, Do(cfg, s, RetryExpires(request)))
  {
    hide TablesOk, TxnsOk, AllApart, LocksOk, InFlightOk, SentOk, SendingOk, NotificationsOk, ResultsOk;
  }
}
