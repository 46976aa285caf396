/** llm's policy and the batch it hands back for a retry. */
module Assessing {
  import opened Wire

  datatype Assessment = Assessment(
    summary: string,
    score: int,
    unsupportedHits: seq<string>,
    isRejectedType: bool)

  datatype Reason = AboveThreshold | BelowThreshold | UnsupportedOrRejected
  datatype Decision = Decision(notify: bool, reason: Reason)

  function Decide(a: Assessment, threshold: int): Decision {
    if a.unsupportedHits != [] || a.isRejectedType then Decision(false, UnsupportedOrRejected)
    else if a.score >= threshold then Decision(true, AboveThreshold)
    else Decision(false, BelowThreshold)
  }

  /** Unsupported hits and rejected types come before the score, and the score is compared inclusively. */
  lemma DecideIff(a: Assessment, threshold: int)
    ensures Decide(a, threshold).notify <==> a.unsupportedHits == [] && !a.isRejectedType && a.score >= threshold
    ensures Decide(a, threshold).reason == UnsupportedOrRejected <==> |a.unsupportedHits| > 0 || a.isRejectedType
    ensures Decide(a, threshold).notify <==> Decide(a, threshold).reason == AboveThreshold
  {
  }

  function BuildResult(order: WireOrder, a: Assessment, n: NotificationCommand): AssessmentResult {
    AssessmentResult(order.id, a.score, n)
  }

  /** The orders whose id is among `ids`, in their old order. */
  function Select(orders: seq<WireOrder>, ids: seq<OrderId>): (r: seq<WireOrder>)
    ensures forall o | o in r :: o in orders && o.id in ids
  {
    if orders == [] then []
    else if orders[0].id in ids then [orders[0]] + Select(orders[1..], ids)
    else Select(orders[1..], ids)
  }

  lemma {:induction false} SelectLast(orders: seq<WireOrder>, last: WireOrder, ids: seq<OrderId>)
    ensures Select(orders + [last], ids) == Select(orders, ids) + (if last.id in ids then [last] else [])
  {
    if orders == [] {
      assert [] + [last] == [last] && [last][1..] == [];
    } else {
      SelectLast(orders[1..], last, ids);
      assert (orders + [last])[1..] == orders[1..] + [last];
    }
  }

  /** Of the first `n` orders exactly those with a listed id are picked, from ascending places. */
  predicate Picks(orders: seq<WireOrder>, ids: seq<OrderId>, n: nat, at: seq<nat>, picked: seq<WireOrder>)
    requires n <= |orders|
  {
    && |at| == |picked|
    && (forall k, m | 0 <= k < m < |at| :: at[k] < at[m])
    && (forall k | 0 <= k < |at| :: at[k] < n && picked[k] == orders[at[k]])
    && (forall i: nat | i < n :: orders[i].id in ids <==> i in at)
  }

  lemma PicksNext(orders: seq<WireOrder>, ids: seq<OrderId>, n: nat, at: seq<nat>, picked: seq<WireOrder>)
    requires n < |orders| && Picks(orders, ids, n, at, picked)
    ensures if orders[n].id in ids then Picks(orders, ids, n + 1, at + [n], picked + [orders[n]])
            else Picks(orders, ids, n + 1, at, picked)
  {
  }

  lemma SelectNext(orders: seq<WireOrder>, ids: seq<OrderId>, n: nat)
    requires n < |orders|
    ensures Select(orders[..n + 1], ids)
            == if orders[n].id in ids then Select(orders[..n], ids) + [orders[n]] else Select(orders[..n], ids)
  {
    hide Select;
    SelectLast(orders[..n], orders[n], ids);
    assert orders[..n + 1] == orders[..n] + [orders[n]];
    assert Select(orders[..n], ids) + [] == Select(orders[..n], ids);
  }

  lemma {:induction false} SelectPicks(orders: seq<WireOrder>, ids: seq<OrderId>, n: nat) returns (at: seq<nat>)
    requires n <= |orders|
    ensures Picks(orders, ids, n, at, Select(orders[..n], ids))
  {
    if n == 0 {
      at := [];
    } else {
      hide Picks, Select;
      var before := SelectPicks(orders, ids, n - 1);
      PicksNext(orders, ids, n - 1, before, Select(orders[..n - 1], ids));
      SelectNext(orders, ids, n - 1);
      at := if orders[n - 1].id in ids then before + [n - 1] else before;
    }
  }

  /** The selected orders are all of the batch whose id is listed, each from its place, in the old order. */
  lemma SelectIsFilter(orders: seq<WireOrder>, ids: seq<OrderId>) returns (at: seq<nat>)
    ensures Picks(orders, ids, |orders|, at, Select(orders, ids))
  {
    at := SelectPicks(orders, ids, |orders|);
    assert orders[..|orders|] == orders;
  }

  function RetryEnvelope(e: Envelope, retryable: seq<OrderId>): Envelope {
    e.(orders := Select(e.orders, retryable))
  }
}
