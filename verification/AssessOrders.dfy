/** llm's handling of one delivery of assess.requests. */
module AssessOrders {
  import opened Wire
  import opened Assessing

  /** What the model, and then the publisher, did with one order. */
  datatype Answer =
    | Answered(assessment: Assessment, notification: NotificationCommand, arrives: bool)
    | TransientFault
    | OtherFault

  /** A verdict to publish that arrives: no unsupported hit, no rejected type, and the threshold reached. */
  predicate Suitable(answer: Answer, threshold: int) {
    && answer.Answered? && answer.arrives
    && answer.assessment.unsupportedHits == [] && !answer.assessment.isRejectedType
    && answer.assessment.score >= threshold
  }

  /** The verdict on an order: its id, the score, and the message. */
  function VerdictOn(order: WireOrder, answer: Answer): AssessmentResult
    requires answer.Answered?
  {
    AssessmentResult(order.id, answer.assessment.score, answer.notification)
  }

  datatype Fate = Published | Dropped | Retried

  /** A publish that raises is swallowed like any unexpected error, so the order is dropped. */
  function FateOf(answer: Answer, threshold: int): Fate {
    match answer
    case Answered(a, _, arrives) => if Decide(a, threshold).notify && arrives then Published else Dropped
    case TransientFault => Retried
    case OtherFault => Dropped
  }

  /** The orders that met this fate, in their old order. */
  function Meeting(orders: seq<WireOrder>, answers: seq<Answer>, threshold: int, fate: Fate): (r: seq<WireOrder>)
    requires |orders| == |answers|
    ensures |r| <= |orders| && forall o | o in r :: o in orders
  {
    if orders == [] then []
    else
      var rest := Meeting(orders[1..], answers[1..], threshold, fate);
      if FateOf(answers[0], threshold) == fate then [orders[0]] + rest else rest
  }

  function Ids(orders: seq<WireOrder>): (r: seq<OrderId>)
    ensures |r| == |orders| && forall i | 0 <= i < |r| :: r[i] == orders[i].id
  {
    seq(|orders|, i requires 0 <= i < |orders| => orders[i].id)
  }

  /** The verdicts that reached assess.results, in order. */
  function Verdicts(orders: seq<WireOrder>, answers: seq<Answer>, threshold: int): seq<AssessmentResult>
    requires |orders| == |answers|
  {
    if orders == [] then []
    else
      var rest := Verdicts(orders[1..], answers[1..], threshold);
      if FateOf(answers[0], threshold) == Published
      then [BuildResult(orders[0], answers[0].assessment, answers[0].notification)] + rest
      else rest
  }

  class Queue<T> {
    var messages: seq<T>

    constructor ()
      ensures messages == []
    {
      messages := [];
    }

    method Add(m: T)
      modifies this
      ensures messages == old(messages) + [m]
    {
      messages := messages + [m];
    }
  }

  /** _assess_one: false asks for a retry. */
  method AssessOne(order: WireOrder, answer: Answer, threshold: int, results: Queue<AssessmentResult>)
    returns (done: bool)
    modifies results
    ensures done == (FateOf(answer, threshold) != Retried) == (answer != TransientFault)
    ensures results.messages == old(results.messages)
              + (if Suitable(answer, threshold) then [VerdictOn(order, answer)] else [])
    ensures results.messages == old(results.messages) + Verdicts([order], [answer], threshold)
  {
    match answer
    case TransientFault => done := false;
    case OtherFault => done := true;
    case Answered(a, n, arrives) =>
      if Decide(a, threshold).notify && arrives {
        results.Add(BuildResult(order, a, n));
      }
      done := true;
  }

  lemma {:induction false} Split(
    orders: seq<WireOrder>, answers: seq<Answer>, threshold: int, fate: Fate, i: nat)
    requires |orders| == |answers| && i <= |orders|
    ensures Meeting(orders, answers, threshold, fate)
            == Meeting(orders[..i], answers[..i], threshold, fate) + Meeting(orders[i..], answers[i..], threshold, fate)
    ensures Verdicts(orders, answers, threshold)
            == Verdicts(orders[..i], answers[..i], threshold) + Verdicts(orders[i..], answers[i..], threshold)
  {
    if i > 0 {
      Split(orders[1..], answers[1..], threshold, fate, i - 1);
      assert orders[..i][1..] == orders[1..][..i - 1] && answers[..i][1..] == answers[1..][..i - 1];
      assert orders[i..] == orders[1..][i - 1..] && answers[i..] == answers[1..][i - 1..];
    }
  }

  /** handle: every verdict is published as it comes, and the ids to retry are returned. */
  method Handle(orders: seq<WireOrder>, answers: seq<Answer>, threshold: int, results: Queue<AssessmentResult>)
    returns (retryable: seq<OrderId>)
    requires |orders| == |answers|
    modifies results
    ensures results.messages == old(results.messages) + Verdicts(orders, answers, threshold)
    ensures retryable == Ids(Meeting(orders, answers, threshold, Retried))
  {
    retryable := [];
    for i := 0 to |orders|
      invariant results.messages == old(results.messages) + Verdicts(orders[..i], answers[..i], threshold)
      invariant retryable == Ids(Meeting(orders[..i], answers[..i], threshold, Retried))
    {
      Split(orders[..i + 1], answers[..i + 1], threshold, Retried, i);
      assert orders[..i + 1][..i] == orders[..i] && answers[..i + 1][..i] == answers[..i];
      assert orders[..i + 1][i..] == [orders[i]] && answers[..i + 1][i..] == [answers[i]];
      var done := AssessOne(orders[i], answers[i], threshold, results);
      if !done {
        retryable := retryable + [orders[i].id];
      }
    }
    assert orders[..|orders|] == orders && answers[..|answers|] == answers;
  }

  /**
   The subscriber: true acknowledges; false rejects the delivery to its dead-letter queue.  A retry
   publish that raises may still have been stored.
   */
  method OnAssessRequests(
    e: Envelope, answers: seq<Answer>, threshold: int, results: Queue<AssessmentResult>,
    retries: Queue<Envelope>, up: bool, lostConfirm: bool)
    returns (ack: bool)
    requires |answers| == |e.orders|
    modifies results, retries
    ensures results.messages == old(results.messages) + Verdicts(e.orders, answers, threshold)
    ensures var retryable := Ids(Meeting(e.orders, answers, threshold, Retried));
            && ack == (retryable == [] || up)
            && retries.messages == old(retries.messages)
                 + (if retryable != [] && (up || lostConfirm) then [RetryEnvelope(e, retryable)] else [])
  {
    var retryable := Handle(e.orders, answers, threshold, results);
    if retryable == [] { return true; }
    ack := up;
    if up || lostConfirm { retries.Add(RetryEnvelope(e, retryable)); }
  }

  // ----- Conservation -----

  /** Every order of a batch is published, dropped or retried, and no two of these. */
  lemma {:induction false} BatchConserved(orders: seq<WireOrder>, answers: seq<Answer>, threshold: int)
    requires |orders| == |answers|
    ensures multiset(orders) == multiset(Meeting(orders, answers, threshold, Published))
                                + multiset(Meeting(orders, answers, threshold, Dropped))
                                + multiset(Meeting(orders, answers, threshold, Retried))
    ensures |Verdicts(orders, answers, threshold)| == |Meeting(orders, answers, threshold, Published)|
  {
    if orders != [] {
      BatchConserved(orders[1..], answers[1..], threshold);
      assert orders == [orders[0]] + orders[1..];
    }
  }

  /** Every verdict answers an order of the batch that llm found suitable. */
  lemma {:induction false} VerdictsAnswer(
    orders: seq<WireOrder>, answers: seq<Answer>, threshold: int, r: AssessmentResult)
    requires |orders| == |answers| && r in Verdicts(orders, answers, threshold)
    ensures exists i :: 0 <= i < |orders| && answers[i].Answered? && Decide(answers[i].assessment, threshold).notify
              && r == BuildResult(orders[i], answers[i].assessment, answers[i].notification)
  {
    if FateOf(answers[0], threshold) == Published
       && r == BuildResult(orders[0], answers[0].assessment, answers[0].notification) {
    } else {
      VerdictsAnswer(orders[1..], answers[1..], threshold, r);
      var i :| 0 <= i < |orders[1..]| && answers[1..][i].Answered?
        && Decide(answers[1..][i].assessment, threshold).notify
        && r == BuildResult(orders[1..][i], answers[1..][i].assessment, answers[1..][i].notification);
      assert answers[i + 1].Answered?;
    }
  }

  /** `at` are the ascending places of exactly the suitable answers. */
  predicate PlacesOf(at: seq<nat>, answers: seq<Answer>, threshold: int) {
    && (forall k, m | 0 <= k < m < |at| :: at[k] < at[m])
    && (forall k | 0 <= k < |at| :: at[k] < |answers|)
    && (forall i: nat | i < |answers| :: i in at <==> Suitable(answers[i], threshold))
  }

  lemma PlacesNext(at: seq<nat>, answers: seq<Answer>, n: nat, threshold: int)
    requires n < |answers| && PlacesOf(at, answers[..n], threshold)
    ensures PlacesOf(if Suitable(answers[n], threshold) then at + [n] else at, answers[..n + 1], threshold)
  {
    hide Suitable;
    assert answers[..n + 1][..n] == answers[..n];
    forall i: nat | i < n ensures answers[..n + 1][i] == answers[..n][i] {}
  }

  /** `picked` are the verdicts on the orders at these places. */
  predicate VerdictsAt(picked: seq<AssessmentResult>, at: seq<nat>, orders: seq<WireOrder>, answers: seq<Answer>) {
    && |picked| == |at|
    && forall k | 0 <= k < |at| ::
         at[k] < |orders| && at[k] < |answers| && answers[at[k]].Answered?
         && picked[k] == VerdictOn(orders[at[k]], answers[at[k]])
  }

  lemma LastVerdict(orders: seq<WireOrder>, answers: seq<Answer>, threshold: int, n: nat)
    requires |orders| == |answers| && n < |orders|
    ensures Verdicts(orders[..n + 1], answers[..n + 1], threshold)
            == Verdicts(orders[..n], answers[..n], threshold)
               + (if Suitable(answers[n], threshold) then [VerdictOn(orders[n], answers[n])] else [])
  {
    var a, b := orders[..n + 1], answers[..n + 1];
    Split(a, b, threshold, Retried, n);
    assert a[..n] == orders[..n] && b[..n] == answers[..n];
    assert a[n..] == [orders[n]] && b[n..] == [answers[n]];
    assert Verdicts([orders[n]], [answers[n]], threshold)
           == if Suitable(answers[n], threshold) then [VerdictOn(orders[n], answers[n])] else [];
  }

  lemma {:induction false} VerdictPlaces(orders: seq<WireOrder>, answers: seq<Answer>, threshold: int, n: nat)
    returns (at: seq<nat>)
    requires |orders| == |answers| && n <= |orders|
    ensures PlacesOf(at, answers[..n], threshold)
    ensures VerdictsAt(Verdicts(orders[..n], answers[..n], threshold), at, orders, answers)
  {
    hide Suitable, Verdicts, VerdictOn;
    if n == 0 {
      at := [];
      NoVerdict(threshold);
    } else {
      hide PlacesOf, VerdictsAt;
      var before := VerdictPlaces(orders, answers, threshold, n - 1);
      PlacesNext(before, answers, n - 1, threshold);
      LastVerdict(orders, answers, threshold, n - 1);
      if Suitable(answers[n - 1], threshold) {
        SuitableIsAnswered(answers[n - 1], threshold);
        VerdictsAtMore(Verdicts(orders[..n - 1], answers[..n - 1], threshold), before, orders, answers, n - 1);
      } else {
        assert Verdicts(orders[..n - 1], answers[..n - 1], threshold) + []
               == Verdicts(orders[..n - 1], answers[..n - 1], threshold);
      }
      at := if Suitable(answers[n - 1], threshold) then before + [n - 1] else before;
    }
  }

  lemma VerdictsAtMore(picked: seq<AssessmentResult>, at: seq<nat>, orders: seq<WireOrder>, answers: seq<Answer>,
                       n: nat)
    requires VerdictsAt(picked, at, orders, answers) && n < |orders| && n < |answers| && answers[n].Answered?
    ensures VerdictsAt(picked + [VerdictOn(orders[n], answers[n])], at + [n], orders, answers)
  {
    hide VerdictOn;
  }

  lemma NoVerdict(threshold: int)
    ensures Verdicts([], [], threshold) == []
  {
  }

  lemma SuitableIsAnswered(answer: Answer, threshold: int)
    ensures Suitable(answer, threshold) ==> answer.Answered?
  {
  }

  /**
   The verdicts that reach assess.results are one for each suitable order of the batch, in batch
   order, with its id, score and message; and there is none for any other order.
   */
  lemma SuitableArePublished(orders: seq<WireOrder>, answers: seq<Answer>, threshold: int) returns (at: seq<nat>)
    requires |orders| == |answers|
    ensures PlacesOf(at, answers, threshold)
    ensures VerdictsAt(Verdicts(orders, answers, threshold), at, orders, answers)
  {
    at := VerdictPlaces(orders, answers, threshold, |orders|);
    assert orders[..|orders|] == orders && answers[..|answers|] == answers;
  }

  /** Which of the three fates an order meets. */
  lemma FateIff(answer: Answer, threshold: int)
    ensures FateOf(answer, threshold) == Published <==> Suitable(answer, threshold)
    ensures FateOf(answer, threshold) == Retried <==> answer == TransientFault
  {
  }

  /** No id of the batch met a transient failure and another fate as well. */
  predicate OneFatePerId(orders: seq<WireOrder>, answers: seq<Answer>, threshold: int)
    requires |orders| == |answers|
  {
    forall i, j | 0 <= i < |orders| && 0 <= j < |orders| && orders[i].id == orders[j].id ::
      FateOf(answers[i], threshold) == Retried ==> FateOf(answers[j], threshold) == Retried
  }

  lemma {:induction false} MeetingAt(orders: seq<WireOrder>, answers: seq<Answer>, threshold: int, i: nat)
    requires |orders| == |answers| && i < |orders| && FateOf(answers[i], threshold) == Retried
    ensures orders[i] in Meeting(orders, answers, threshold, Retried)
  {
    if i > 0 {
      MeetingAt(orders[1..], answers[1..], threshold, i - 1);
    }
  }

  lemma {:induction false} MeetingFrom(orders: seq<WireOrder>, answers: seq<Answer>, threshold: int, o: WireOrder)
    requires |orders| == |answers| && o in Meeting(orders, answers, threshold, Retried)
    ensures exists i :: 0 <= i < |orders| && orders[i] == o && FateOf(answers[i], threshold) == Retried
  {
    if !(FateOf(answers[0], threshold) == Retried && o == orders[0]) {
      MeetingFrom(orders[1..], answers[1..], threshold, o);
      var i :| 0 <= i < |orders[1..]| && orders[1..][i] == o && FateOf(answers[1..][i], threshold) == Retried;
      assert orders[i + 1] == o;
    }
  }

  /** Selecting by ids that cover the transient failures selects at least those, and exactly those iff no other id. */
  lemma {:induction false} SelectCovers(orders: seq<WireOrder>, answers: seq<Answer>, threshold: int, ids: seq<OrderId>)
    requires |orders| == |answers|
    requires forall i | 0 <= i < |orders| && FateOf(answers[i], threshold) == Retried :: orders[i].id in ids
    ensures |Select(orders, ids)| >= |Meeting(orders, answers, threshold, Retried)|
    ensures Select(orders, ids) == Meeting(orders, answers, threshold, Retried)
            <==> forall i | 0 <= i < |orders| && orders[i].id in ids :: FateOf(answers[i], threshold) == Retried
  {
    if orders != [] {
      SelectCovers(orders[1..], answers[1..], threshold, ids);
      var rest, met := Select(orders[1..], ids), Meeting(orders[1..], answers[1..], threshold, Retried);
      assert ([orders[0]] + rest)[1..] == rest && ([orders[0]] + met)[1..] == met;
      assert orders == [orders[0]] + orders[1..] && answers == [answers[0]] + answers[1..];
    }
  }

  /** Retrying by id retries the transient failures and nothing else, in their old order. */
  predicate RetriesExactly(orders: seq<WireOrder>, answers: seq<Answer>, threshold: int)
    requires |orders| == |answers|
  {
    Select(orders, Ids(Meeting(orders, answers, threshold, Retried))) == Meeting(orders, answers, threshold, Retried)
  }

  /** It does exactly when no id of the batch met a transient failure next to another fate. */
  lemma RetriesExactlyIff(orders: seq<WireOrder>, answers: seq<Answer>, threshold: int)
    requires |orders| == |answers|
    ensures RetriesExactly(orders, answers, threshold) <==> OneFatePerId(orders, answers, threshold)
  {
    hide Meeting, Select, Ids, FateOf;
    var ids := Ids(Meeting(orders, answers, threshold, Retried));
    AllRetriedIds(orders, answers, threshold);
    SelectCovers(orders, answers, threshold, ids);
  }

  /**
   The retried batch is the transient failures in their old order, exactly when no id of the
   batch had a transient failure next to another fate; every other field of the envelope is kept.
   */
  lemma RetryIsTransientFailures(e: Envelope, answers: seq<Answer>, threshold: int)
    requires |e.orders| == |answers|
    ensures var e' := RetryEnvelope(e, Ids(Meeting(e.orders, answers, threshold, Retried)));
            && (e'.orders == Meeting(e.orders, answers, threshold, Retried)
                <==> OneFatePerId(e.orders, answers, threshold))
            && e'.requestId == e.requestId && e'.fetchedAt == e.fetchedAt
            && e'.totalCount == e.totalCount && e'.nextCursor == e.nextCursor
  {
    hide Meeting, Select, Ids, OneFatePerId;
    RetriesExactlyIff(e.orders, answers, threshold);
  }

  predicate DistinctIds(orders: seq<WireOrder>) {
    forall i, j | 0 <= i < j < |orders| :: orders[i].id != orders[j].id
  }

  /** Two orders of one id, of which only the first fails in passing: the input retry-by-id gets wrong. */
  lemma DuplicateIsRetriedToo(orders: seq<WireOrder>, threshold: int, i: nat, j: nat) returns (answers: seq<Answer>)
    requires i < j < |orders| && orders[i].id == orders[j].id
    ensures |answers| == |orders| && answers[i] == TransientFault && answers[j] == OtherFault
    ensures !RetriesExactly(orders, answers, threshold)
  {
    hide RetriesExactly;
    answers := seq(|orders|, k requires 0 <= k < |orders| => if k == i then TransientFault else OtherFault);
    RetriesExactlyIff(orders, answers, threshold);
    assert FateOf(answers[i], threshold) == Retried && FateOf(answers[j], threshold) == Dropped;
  }

  /** A batch is retried exactly, whatever llm answers, if and only if its ids are pairwise distinct. */
  lemma {:induction false} RetriesExactlyIffDistinct(orders: seq<WireOrder>, threshold: int)
    ensures (forall answers: seq<Answer> | |answers| == |orders| :: RetriesExactly(orders, answers, threshold))
            <==> DistinctIds(orders)
  {
    hide RetriesExactly;
    if DistinctIds(orders) {
      forall answers: seq<Answer> | |answers| == |orders| ensures RetriesExactly(orders, answers, threshold) {
        RetriesExactlyIff(orders, answers, threshold);
      }
    } else {
      var i: nat, j: nat :| i < j < |orders| && orders[i].id == orders[j].id;
      var answers := DuplicateIsRetriedToo(orders, threshold, i, j);
    }
  }

  lemma AllRetriedIds(orders: seq<WireOrder>, answers: seq<Answer>, threshold: int)
    requires |orders| == |answers|
    ensures forall i | 0 <= i < |orders| ::
              orders[i].id in Ids(Meeting(orders, answers, threshold, Retried))
              <==> exists j :: 0 <= j < |orders| && orders[j].id == orders[i].id
                               && FateOf(answers[j], threshold) == Retried
  {
    hide Meeting, FateOf, Ids;
    forall i | 0 <= i < |orders|
      ensures orders[i].id in Ids(Meeting(orders, answers, threshold, Retried))
              <==> exists j :: 0 <= j < |orders| && orders[j].id == orders[i].id
                               && FateOf(answers[j], threshold) == Retried
    {
      RetriedIds(orders, answers, threshold, i);
    }
  }

  /** An id is retried when some order with it had a transient failure. */
  lemma RetriedIds(orders: seq<WireOrder>, answers: seq<Answer>, threshold: int, i: nat)
    requires |orders| == |answers| && i < |orders|
    ensures orders[i].id in Ids(Meeting(orders, answers, threshold, Retried))
            <==> exists j :: 0 <= j < |orders| && orders[j].id == orders[i].id
                             && FateOf(answers[j], threshold) == Retried
  {
    hide Meeting, FateOf;
    var met := Meeting(orders, answers, threshold, Retried);
    var ids := Ids(met);
    if orders[i].id in ids {
      var k :| 0 <= k < |ids| && ids[k] == orders[i].id;
      MeetingFrom(orders, answers, threshold, met[k]);
    }
    forall j | 0 <= j < |orders| && orders[j].id == orders[i].id && FateOf(answers[j], threshold) == Retried
      ensures orders[i].id in ids
    {
      MeetingAt(orders, answers, threshold, j);
      var k :| 0 <= k < |met| && met[k] == orders[j];
      assert ids[k] == orders[i].id;
    }
  }

  // ----- Repeated retries -----

  /** What is left to retry after these rounds; a round that does not fit the batch ends the run. */
  function Rounds(e: Envelope, rounds: seq<seq<Answer>>, threshold: int): Envelope
    decreases |rounds|
  {
    if rounds == [] || |rounds[0]| != |e.orders| then e
    else Rounds(RetryEnvelope(e, Ids(Meeting(e.orders, rounds[0], threshold, Retried))), rounds[1..], threshold)
  }

  lemma {:induction false} SelectShrinks(orders: seq<WireOrder>, ids: seq<OrderId>)
    ensures multiset(Select(orders, ids)) <= multiset(orders)
    ensures ids == [] ==> Select(orders, ids) == []
  {
    if orders != [] {
      SelectShrinks(orders[1..], ids);
      assert orders == [orders[0]] + orders[1..];
    }
  }

  /** Over any number of retries the batch only loses orders; a round without a transient failure empties it. */
  lemma {:induction false} RoundsShrink(e: Envelope, rounds: seq<seq<Answer>>, threshold: int)
    ensures multiset(Rounds(e, rounds, threshold).orders) <= multiset(e.orders)
    ensures rounds != [] && |rounds[0]| == |e.orders| && TransientFault !in rounds[0]
            ==> Rounds(e, rounds, threshold).orders == []
    decreases |rounds|
  {
    if rounds != [] && |rounds[0]| == |e.orders| {
      var met := Meeting(e.orders, rounds[0], threshold, Retried);
      var next := RetryEnvelope(e, Ids(met));
      SelectShrinks(e.orders, Ids(met));
      RoundsShrink(next, rounds[1..], threshold);
      if TransientFault !in rounds[0] {
        if met != [] {
          MeetingFrom(e.orders, rounds[0], threshold, met[0]);
        }
        assert Ids(met) == [] && multiset(Rounds(next, rounds[1..], threshold).orders) == multiset{};
      }
    }
  }
}
