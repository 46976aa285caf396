/**
 What does not survive interleaving: the status is read and later written without a guard,
 so two verdicts on the same order can both apply.  A judged order can then be judged again,
 be skipped with a notify event, or be notified with the message of another score.  Which
 settings allow each of these, exactly.
 */
module SplitVerdicts {
  import opened Wrappers
  import opened Wire
  import opened OrderTables
  import opened Assessing
  import opened Pipeline
  import opened PipelineInvariant
  import opened PipelineTheorems
  import opened VerdictRuns

  /** Every order core decided not to notify about has no notify event. */
  predicate SkippedIsSilent(t: Tables) {
    forall id | id in t.orders && t.orders[id].status == NoNotify :: NotifyKey(id) !in t.outbox
  }

  /** llm can publish verdicts on both sides of core's threshold. */
  predicate ThresholdSplitsVerdicts(cfg: Settings) {
    0 < cfg.coreThreshold <= 100 && cfg.llmThreshold < cfg.coreThreshold
  }

  /** A skipped order with a notify event was judged twice, once on each side of core's threshold. */
  lemma {:induction false} SplitNeedsTwoVerdicts(cfg: Settings, steps: seq<Step>, id: OrderId)
    requires Runs(cfg, INIT, steps)
    requires var t := After(cfg, INIT, steps).tables;
             id in t.orders && t.orders[id].status == NoNotify && NotifyKey(id) in t.outbox
    ensures var verdicts := After(cfg, INIT, steps).verdicts;
            JudgedOn(cfg, verdicts, id, true) && JudgedOn(cfg, verdicts, id, false)
  {
    hide TxnsOk, AllApart, LocksOk, SentOk, SendingOk, NotificationsOk, ResultsOk, InFlightOk, QueueOk;
    Reachable(cfg, steps);
    var s := After(cfg, INIT, steps);
    assert OrderOk(cfg, s.tables, s.verdicts, id);
    assert EventOk(cfg, s.tables, s.verdicts, NotifyKey(id));
  }

  /** The least score llm publishes. */
  function LeastScore(cfg: Settings): int {
    if cfg.llmThreshold < 0 then 0 else cfg.llmThreshold
  }

  lemma SplitRun(cfg: Settings) returns (steps: seq<Step>)
    requires cfg.batchSize > 0 && ThresholdSplitsVerdicts(cfg)
    ensures Runs(cfg, INIT, steps) && !SkippedIsSilent(After(cfg, INIT, steps).tables)
  {
    hide Runs, After, HighApplied;
    var before, after := TwiceJudged(cfg, LeastScore(cfg));
    steps := before + after;
    assert After(cfg, INIT, steps).tables.orders[ID].status == NoNotify;
  }

  /**
   Skipped orders are silent in every reachable state exactly when the settings keep llm
   from publishing verdicts on both sides of core's threshold.
   */
  lemma {:induction false} SkippedIsSilentIff(cfg: Settings)
    requires cfg.batchSize > 0
    ensures (forall steps | Runs(cfg, INIT, steps) :: SkippedIsSilent(After(cfg, INIT, steps).tables))
            <==> !ThresholdSplitsVerdicts(cfg)
  {
    if ThresholdSplitsVerdicts(cfg) {
      var steps := SplitRun(cfg);
    } else {
      forall steps | Runs(cfg, INIT, steps) ensures SkippedIsSilent(After(cfg, INIT, steps).tables) {
        hide Runs, After, Inv;
        var t := After(cfg, INIT, steps).tables;
        forall id | id in t.orders && t.orders[id].status == NoNotify ensures NotifyKey(id) !in t.outbox {
          if NotifyKey(id) in t.outbox {
            SplitNeedsTwoVerdicts(cfg, steps, id);
            VerdictsInRange(cfg, steps);
          }
        }
      }
    }
  }

  // ----- Whether any order can be skipped -----

  /** A score that llm can give, high enough for llm and too low for core. */
  predicate Between(cfg: Settings, score: int) {
    0 <= score <= 100 && cfg.llmThreshold <= score < cfg.coreThreshold
  }

  /** An order that was skipped. */
  predicate SomeSkipped(t: Tables) {
    exists id :: id in t.orders && t.orders[id].status == NoNotify
  }

  lemma SkipRun(cfg: Settings, low: int) returns (steps: seq<Step>)
    requires cfg.batchSize > 0 && Between(cfg, low)
    ensures Runs(cfg, INIT, steps) && SomeSkipped(After(cfg, INIT, steps).tables)
  {
    hide Runs, After;
    steps := OnceJudged(cfg, low);
    assert After(cfg, INIT, steps).tables.orders[ID].status == NoNotify;
  }

  /** NO_NOTIFY is reachable exactly when some score passes llm's threshold and not core's. */
  lemma {:induction false} SkipReachableIff(cfg: Settings)
    requires cfg.batchSize > 0
    ensures (exists steps :: Runs(cfg, INIT, steps) && SomeSkipped(After(cfg, INIT, steps).tables))
            <==> exists score :: Between(cfg, score)
  {
    hide Runs, After, SomeSkipped;
    if low :| Between(cfg, low) {
      var steps := SkipRun(cfg, low);
    }
    forall steps | Runs(cfg, INIT, steps) && SomeSkipped(After(cfg, INIT, steps).tables)
      ensures exists score :: Between(cfg, score)
    {
      var score := SkippedScore(cfg, steps);
    }
  }

  lemma SkippedScore(cfg: Settings, steps: seq<Step>) returns (score: int)
    requires Runs(cfg, INIT, steps) && SomeSkipped(After(cfg, INIT, steps).tables)
    ensures Between(cfg, score)
  {
    hide TxnsOk, AllApart, LocksOk, SentOk, SendingOk, NotificationsOk, ResultsOk, InFlightOk, QueueOk, EventOk;
    hide Runs, After;
    Reachable(cfg, steps);
    VerdictsInRange(cfg, steps);
    var s := After(cfg, INIT, steps);
    var id :| id in s.tables.orders && s.tables.orders[id].status == NoNotify;
    assert OrderOk(cfg, s.tables, s.verdicts, id);
    var a, n :| (id, a, n) in s.verdicts && a.score == s.tables.orders[id].score.value;
    assert cfg.llmThreshold <= (id, a, n).1.score <= 100;
    score := a.score;
  }

  lemma VerdictsInRange(cfg: Settings, steps: seq<Step>)
    requires Runs(cfg, INIT, steps)
    ensures forall v | v in After(cfg, INIT, steps).verdicts :: cfg.llmThreshold <= v.1.score <= 100 && 0 <= v.1.score
  {
    hide TxnsOk, AllApart, LocksOk, SentOk, SendingOk, NotificationsOk, ResultsOk, InFlightOk, QueueOk, TablesOk;
    Reachable(cfg, steps);
  }

  // ----- Whether a judgement is final -----

  /** Status and score of every judged order of `t` are still there in `t'`. */
  predicate JudgementsStay(t: Tables, t': Tables) {
    forall id | id in t.orders && t.orders[id].status != AssessRequested ::
      id in t'.orders && t'.orders[id].status == t.orders[id].status && t'.orders[id].score == t.orders[id].score
  }

  /** Two verdicts of different scores, both applied: the committed score of 100 is overwritten by a lower one. */
  lemma JudgedAgain(cfg: Settings) returns (before: seq<Step>, after: seq<Step>)
    requires cfg.batchSize > 0 && cfg.llmThreshold < 100
    ensures Runs(cfg, INIT, before) && Runs(cfg, After(cfg, INIT, before), after)
    ensures !JudgementsStay(After(cfg, INIT, before).tables, After(cfg, After(cfg, INIT, before), after).tables)
  {
    hide Runs, After;
    before, after := TwiceJudged(cfg, LeastScore(cfg));
    var t, t' := After(cfg, INIT, before).tables, After(cfg, After(cfg, INIT, before), after).tables;
    assert t.orders[ID].score == Some(100) && t'.orders[ID].score == Some(LeastScore(cfg));
  }

  /** When llm publishes scores of 100 only, these settings decide the row of every judged order. */
  lemma OnlyOneJudgement(cfg: Settings, steps: seq<Step>, id: OrderId)
    requires Runs(cfg, INIT, steps) && cfg.llmThreshold >= 100
    requires var t := After(cfg, INIT, steps).tables; id in t.orders && t.orders[id].status != AssessRequested
    ensures var row := After(cfg, INIT, steps).tables.orders[id];
            row.score == Some(100) && row.status == if 100 >= cfg.coreThreshold then NotifyRequested else NoNotify
  {
    hide TxnsOk, AllApart, LocksOk, SentOk, SendingOk, NotificationsOk, ResultsOk, InFlightOk, QueueOk, EventOk;
    hide Runs, After;
    Reachable(cfg, steps);
    VerdictsInRange(cfg, steps);
    var s := After(cfg, INIT, steps);
    assert OrderOk(cfg, s.tables, s.verdicts, id);
    var a, n :| (id, a, n) in s.verdicts && a.score == s.tables.orders[id].score.value;
    assert cfg.llmThreshold <= (id, a, n).1.score <= 100;
  }

  /**
   Status and score of a judged order never change again, in any run, exactly when llm publishes
   scores of 100 only.  So a repeated verdict is a no-op only when verdicts do not overlap
   (`OrderSerial.SecondVerdictIsIgnored`) or cannot differ.
   */
  lemma {:induction false} JudgementsStayIff(cfg: Settings)
    requires cfg.batchSize > 0
    ensures (forall before, after | Runs(cfg, INIT, before) && Runs(cfg, After(cfg, INIT, before), after) ::
               JudgementsStay(After(cfg, INIT, before).tables, After(cfg, After(cfg, INIT, before), after).tables))
            <==> cfg.llmThreshold >= 100
  {
    hide Runs, After, JudgementsStay;
    if cfg.llmThreshold < 100 {
      var before, after := JudgedAgain(cfg);
    } else {
      forall before, after | Runs(cfg, INIT, before) && Runs(cfg, After(cfg, INIT, before), after)
        ensures JudgementsStay(After(cfg, INIT, before).tables, After(cfg, After(cfg, INIT, before), after).tables)
      {
        JudgedOnce(cfg, before, after);
      }
    }
  }

  lemma JudgedOnce(cfg: Settings, before: seq<Step>, after: seq<Step>)
    requires Runs(cfg, INIT, before) && Runs(cfg, After(cfg, INIT, before), after) && cfg.llmThreshold >= 100
    ensures JudgementsStay(After(cfg, INIT, before).tables, After(cfg, After(cfg, INIT, before), after).tables)
  {
    hide Runs, After;
    HistoryIsKept(cfg, before, after);
    Concat(cfg, INIT, before, after);
    var t, t' := After(cfg, INIT, before).tables, After(cfg, INIT, before + after).tables;
    forall id | id in t.orders && t.orders[id].status != AssessRequested
      ensures id in t'.orders && t'.orders[id].status == t.orders[id].status
      ensures t'.orders[id].score == t.orders[id].score
    {
      OnlyOneJudgement(cfg, before, id);
      OnlyOneJudgement(cfg, before + after, id);
    }
  }

  // ----- Whether score and message belong together -----

  /** The notify event of every notified order carries the message of a verdict with the score on its row. */
  ghost predicate MessagesMatchScores(s: System) {
    forall id | id in s.tables.orders && s.tables.orders[id].status == NotifyRequested ::
      && NotifyKey(id) in s.tables.outbox && s.tables.outbox[NotifyKey(id)].payload.Command?
      && s.tables.orders[id].score.Some?
      && JudgedWith(s.verdicts, id, s.tables.orders[id].score.value,
                    s.tables.outbox[NotifyKey(id)].payload.notification)
  }

  /** llm can publish two scores that core notifies about. */
  predicate TwoNotifyingScores(cfg: Settings) {
    cfg.llmThreshold < 100 && cfg.coreThreshold < 100
  }

  /** The message of the verdict of 100 goes out under the score of a lower verdict. */
  lemma MismatchedRun(cfg: Settings) returns (steps: seq<Step>)
    requires cfg.batchSize > 0 && TwoNotifyingScores(cfg)
    ensures Runs(cfg, INIT, steps) && !MessagesMatchScores(After(cfg, INIT, steps))
  {
    hide Runs, After, HighApplied;
    var low := if cfg.coreThreshold > LeastScore(cfg) then cfg.coreThreshold else LeastScore(cfg);
    var before, after := TwiceJudged(cfg, low);
    steps := before + after;
    var s := After(cfg, INIT, steps);
    assert s.tables.orders[ID].status == NotifyRequested && s.tables.orders[ID].score == Some(low);
    assert s.tables.outbox[NotifyKey(ID)].payload == Command(COMMAND);
    assert COMMAND.text[0] != OTHER.text[0];
    assert !JudgedWith(s.verdicts, ID, low, COMMAND);
  }

  lemma OneScoreMatches(cfg: Settings, steps: seq<Step>)
    requires Runs(cfg, INIT, steps) && !TwoNotifyingScores(cfg)
    ensures MessagesMatchScores(After(cfg, INIT, steps))
  {
    hide TxnsOk, AllApart, LocksOk, SentOk, SendingOk, NotificationsOk, ResultsOk, InFlightOk, QueueOk;
    hide Runs, After;
    Reachable(cfg, steps);
    VerdictsInRange(cfg, steps);
    var s := After(cfg, INIT, steps);
    forall id | id in s.tables.orders && s.tables.orders[id].status == NotifyRequested
      ensures NotifyKey(id) in s.tables.outbox && s.tables.outbox[NotifyKey(id)].payload.Command?
        && s.tables.orders[id].score.Some?
        && JudgedWith(s.verdicts, id, s.tables.orders[id].score.value,
                      s.tables.outbox[NotifyKey(id)].payload.notification)
    {
      assert OrderOk(cfg, s.tables, s.verdicts, id);
      assert EventOk(cfg, s.tables, s.verdicts, NotifyKey(id));
      var n := s.tables.outbox[NotifyKey(id)].payload.notification;
      var a :| (id, a, n) in s.verdicts && a.score >= cfg.coreThreshold;
      var b, m :| (id, b, m) in s.verdicts && b.score == s.tables.orders[id].score.value;
      assert (id, a, n).1.score <= 100 && (id, b, m).1.score <= 100;
    }
  }

  /**
   Score and message of every notified order belong together, in all runs, exactly when there is at
   most one score that llm can publish and core notifies about.
   */
  lemma {:induction false} MessagesMatchScoresIff(cfg: Settings)
    requires cfg.batchSize > 0
    ensures (forall steps | Runs(cfg, INIT, steps) :: MessagesMatchScores(After(cfg, INIT, steps)))
            <==> !TwoNotifyingScores(cfg)
  {
    hide Runs, After, MessagesMatchScores;
    if TwoNotifyingScores(cfg) {
      var steps := MismatchedRun(cfg);
    } else {
      forall steps | Runs(cfg, INIT, steps) ensures MessagesMatchScores(After(cfg, INIT, steps)) {
        OneScoreMatches(cfg, steps);
      }
    }
  }
}
