/** From llm's message builder through core's outbox to the validator of the notifications service. */
module EndToEnd {
  import opened Wrappers
  import opened Wire
  import opened OrderTables
  import opened Assessing
  import opened Pipeline
  import opened PipelineInvariant
  import opened PipelineTheorems
  import opened CreateNotification
  import opened Text
  import D = DeliverNotification
  import B = MessageBuilder

  /** `n` is the message llm builds about a listing with this id and this assessment. */
  ghost predicate BuiltFrom(id: OrderId, a: Assessment, n: NotificationCommand) {
    && a.score >= 0
    && exists l: B.Listing :: l.id == id
         && n == B.CommandFor(B.Built(B.Header(l), B.Escape(Strip(a.summary)), B.Meta(l, a.score)))
  }

  lemma BuiltIsAccepted(id: OrderId, a: Assessment, n: NotificationCommand)
    requires BuiltFrom(id, a, n)
    ensures Create(n) == Ok(n)
  {
    hide B.CommandFor, B.Built, B.Header, B.Meta, B.Escape, Create;
    var l: B.Listing :| l.id == id
      && n == B.CommandFor(B.Built(B.Header(l), B.Escape(Strip(a.summary)), B.Meta(l, a.score)));
    B.BuiltIsAccepted(l, B.Escape(Strip(a.summary)), B.Meta(l, a.score));
  }

  /** llm publishes a verdict on the order it is at, with the message it builds for it. */
  ghost predicate PublishesBuilt(s: System, step: Step) {
    step.Assess? ==>
      && Working(s, step.w)
      && var x := s.workers[step.w];
         BuiltFrom(x.envelope.orders[x.pos].id, step.assessment, step.notification)
  }

  ghost predicate RunPublishesBuilt(cfg: Settings, s: System, steps: seq<Step>)
    requires Runs(cfg, s, steps)
    decreases |steps|
  {
    steps == []
    || (PublishesBuilt(s, steps[0]) && RunPublishesBuilt(cfg, Do(cfg, s, steps[0]), steps[1..]))
  }

  ghost predicate AllBuilt(verdicts: Verdicts) {
    forall v | v in verdicts :: BuiltFrom(v.0, v.1, v.2)
  }

  lemma StepBuilds(cfg: Settings, s: System, step: Step)
    requires AllBuilt(s.verdicts) && Enabled(cfg, s, step) && PublishesBuilt(s, step)
    ensures AllBuilt(Do(cfg, s, step).verdicts)
  {
    hide BuiltFrom;
    if step.Assess? {
      var x := s.workers[step.w];
      var more := (x.envelope.orders[x.pos].id, step.assessment, step.notification);
      assert Do(cfg, s, step).verdicts == s.verdicts + {more};
    } else {
      StepLeaves(cfg, s, step);
    }
  }

  lemma {:induction false} RunBuilds(cfg: Settings, s: System, steps: seq<Step>)
    requires AllBuilt(s.verdicts) && Runs(cfg, s, steps) && RunPublishesBuilt(cfg, s, steps)
    ensures AllBuilt(After(cfg, s, steps).verdicts)
    decreases |steps|
  {
    hide AllBuilt, PublishesBuilt, Do, Enabled;
    if steps != [] {
      StepBuilds(cfg, s, steps[0]);
      RunBuilds(cfg, Do(cfg, s, steps[0]), steps[1..]);
    }
  }

  /** Order `id` has the committed notify event `p`, built for it from a verdict core notifies about. */
  ghost predicate OwnMessage(cfg: Settings, t: Tables, id: OrderId, p: Payload) {
    && id in t.orders && NotifyKey(id) in t.outbox && t.outbox[NotifyKey(id)].payload == p && p.Command?
    && exists a :: BuiltFrom(id, a, p.notification) && a.score >= cfg.coreThreshold
  }

  /**
   Across the services: as long as llm publishes the messages it builds, whatever reaches the
   notifications service through core's tables, interleavings, aborts and redeliveries is the message
   built for the very order whose notify event it is, with a score core notifies about; the validator
   accepts it, so no delivery of it is ever dead-lettered for failing validation.
   */
  lemma {:induction false} NotificationsAreAccepted(cfg: Settings, steps: seq<Step>, p: Payload)
    requires Runs(cfg, INIT, steps) && RunPublishesBuilt(cfg, INIT, steps)
    requires p in After(cfg, INIT, steps).notifications
    ensures p.Command? && Create(p.notification) == Ok(p.notification)
    ensures exists id :: OwnMessage(cfg, After(cfg, INIT, steps).tables, id, p)
    ensures forall work, attempt: nat, maxAttempts: int ::
              D.Decide(Some(p.notification), work, attempt, maxAttempts) != D.DeadLetter(D.Validation)
  {
    hide BuiltFrom, Create, Runs, After, RunPublishesBuilt;
    RunBuilds(cfg, INIT, steps);
    NotificationsComeFromRows(cfg, steps, p);
    var s := After(cfg, INIT, steps);
    var id :| id in s.tables.orders && NotifyKey(id) in s.tables.outbox
      && s.tables.outbox[NotifyKey(id)].payload == p && BuiltFor(cfg, s.verdicts, id, p.notification);
    var a :| (id, a, p.notification) in s.verdicts && a.score >= cfg.coreThreshold;
    assert BuiltFrom((id, a, p.notification).0, a, p.notification);
    BuiltIsAccepted(id, a, p.notification);
    assert OwnMessage(cfg, s.tables, id, p);
  }
}
