/**
 The two tables of order-core-service and the statements its repositories run on
 them.  A transaction reads the committed tables overlaid with its own writes; the
 serial programs and the interleaved transition system both use these functions.
 */
module OrderTables {
  import opened Wrappers
  import opened Wire

  // ----- Rows -----

  datatype Status = AssessRequested | NotifyRequested | NoNotify | Failed

  datatype OrderRow = OrderRow(
    status: Status,
    payload: WireOrder,
    requestId: Option<string>,
    fetchedAt: int,
    score: Option<int>)

  /** The outbox is indexed by the parts of its unique dedup_key; `KeyText` is the stored text. */
  datatype Key = AssessKey(id: OrderId) | NotifyKey(id: OrderId)

  datatype OutboxRow = OutboxRow(destination: string, payload: Payload, published: bool, createdAt: int)

  datatype Tables = Tables(orders: map<OrderId, OrderRow>, outbox: map<Key, OutboxRow>)

  const EMPTY := Tables(map[], map[])

  const ASSESS_REQUEST := "assess_request"
  const NOTIFY := "notify"

  // ----- Wire mapping -----

  datatype IncomingOrder = IncomingOrder(
    externalId: OrderId,
    payload: WireOrder,
    requestId: Option<string>,
    fetchedAt: int)

  function ToIncomingOrders(message: Envelope): (batch: seq<IncomingOrder>)
    ensures |batch| == |message.orders|
    ensures forall i | 0 <= i < |batch| ::
              && batch[i].payload == message.orders[i] && batch[i].externalId == batch[i].payload.id
              && batch[i].requestId == Some(message.requestId) && batch[i].fetchedAt == message.fetchedAt
  {
    seq(|message.orders|, i requires 0 <= i < |message.orders| =>
      IncomingOrder(message.orders[i].id, message.orders[i], Some(message.requestId), message.fetchedAt))
  }

  function AssessRequestPayload(order: IncomingOrder): Payload {
    Request(Envelope(
      match order.requestId { case Some(r) => r case None => "" },
      order.fetchedAt, 1, None, [order.payload]))
  }

  // ----- Dedup keys -----

  function DedupText(kind: string, source: string, id: OrderId): string {
    kind + ":" + source + ":" + id
  }

  function KeyText(key: Key): string {
    match key
    case AssessKey(id) => DedupText("assess", "profi", id)
    case NotifyKey(id) => DedupText("notify", "profi", id)
  }

  /** What the unique column holds. */
  lemma KeyTextReads(id: OrderId)
    ensures KeyText(AssessKey(id)) == "assess:profi:" + id
    ensures KeyText(NotifyKey(id)) == "notify:profi:" + id
  {
    assert "assess" + ":" + "profi" + ":" == "assess:profi:";
    assert "notify" + ":" + "profi" + ":" == "notify:profi:";
    assert KeyText(AssessKey(id)) == "assess" + ":" + "profi" + ":" + id;
    assert KeyText(NotifyKey(id)) == "notify" + ":" + "profi" + ":" + id;
  }

  /** A text without a colon is determined by what it is followed by. */
  lemma {:induction false} ColonSplits(a: string, b: string, restA: string, restB: string)
    requires ':' !in a && ':' !in b
    requires a + ":" + restA == b + ":" + restB
    ensures a == b && restA == restB
  {
    var left, right := a + ":" + restA, b + ":" + restB;
    assert left[|a|] == ':' && right[|b|] == ':';
    assert forall i | 0 <= i < |a| :: left[i] == a[i];
    assert forall i | 0 <= i < |b| :: right[i] == b[i];
    assert |a| == |b|;
    assert a == left[..|a|] && b == right[..|b|];
    assert restA == left[|a| + 1..] && restB == right[|b| + 1..];
  }

  lemma {:induction false} DedupTextInjective(
    kind: string, source: string, id: OrderId, kind': string, source': string, id': OrderId)
    requires ':' !in kind && ':' !in kind' && ':' !in source && ':' !in source'
    requires DedupText(kind, source, id) == DedupText(kind', source', id')
    ensures kind == kind' && source == source' && id == id'
  {
    assert DedupText(kind, source, id) == kind + ":" + (source + ":" + id);
    assert DedupText(kind', source', id') == kind' + ":" + (source' + ":" + id');
    ColonSplits(kind, kind', source + ":" + id, source' + ":" + id');
    ColonSplits(source, source', id, id');
  }

  /** The unique constraint on the text is the uniqueness of the parts, and the text fits its column. */
  lemma KeyTextInjective(k: Key, k': Key)
    ensures KeyText(k) == KeyText(k') <==> k == k'
    ensures |k.id| <= 128 ==> |KeyText(k)| <= 200
  {
    if KeyText(k) == KeyText(k') {
      var kind := if k.AssessKey? then "assess" else "notify";
      var kind' := if k'.AssessKey? then "assess" else "notify";
      DedupTextInjective(kind, "profi", k.id, kind', "profi", k'.id);
      assert "assess"[0] != "notify"[0];
    }
  }

  // ----- Statements -----

  function Overlay(base: Tables, writes: Tables): Tables {
    Tables(base.orders + writes.orders, base.outbox + writes.outbox)
  }

  function PutOrder(t: Tables, id: OrderId, row: OrderRow): Tables {
    t.(orders := t.orders[id := row])
  }

  function PutOutbox(t: Tables, key: Key, row: OutboxRow): Tables {
    t.(outbox := t.outbox[key := row])
  }

  function NewOrderRow(order: IncomingOrder): OrderRow {
    OrderRow(AssessRequested, order.payload, order.requestId, order.fetchedAt, None)
  }

  /** INSERT INTO orders ... ON CONFLICT (source, external_id) DO NOTHING. */
  function InsertNew(view: Tables, writes: Tables, order: IncomingOrder): Tables {
    if order.externalId in view.orders then writes
    else PutOrder(writes, order.externalId, NewOrderRow(order))
  }

  /** INSERT INTO outbox ... ON CONFLICT (dedup_key) DO NOTHING. */
  function AddEvent(view: Tables, writes: Tables, key: Key, destination: string, payload: Payload, now: int): Tables {
    if key in view.outbox then writes
    else PutOutbox(writes, key, OutboxRow(destination, payload, false, now))
  }

  function AddAssessmentRequest(view: Tables, writes: Tables, order: IncomingOrder, now: int): Tables {
    AddEvent(view, writes, AssessKey(order.externalId), ASSESS_REQUEST, AssessRequestPayload(order), now)
  }

  function AddNotification(view: Tables, writes: Tables, id: OrderId, n: NotificationCommand, now: int): Tables {
    AddEvent(view, writes, NotifyKey(id), NOTIFY, Command(n), now)
  }

  /** UPDATE orders SET status, suitability_score WHERE external_id = id: no guard on the old status. */
  function SetStatus(view: Tables, writes: Tables, id: OrderId, status: Status, score: int): Tables {
    if id !in view.orders then writes
    else PutOrder(writes, id, view.orders[id].(status := status, score := Some(score)))
  }

  /** UPDATE outbox SET status = 'published' WHERE id IN (...). */
  function MarkPublished(t: Tables, keys: set<Key>): Tables {
    t.(outbox := map k | k in t.outbox ::
         if k in keys then t.outbox[k].(published := true) else t.outbox[k])
  }

  /** Marking sets the status of exactly these rows, and nothing else of any row. */
  lemma MarkedRows(t: Tables, keys: set<Key>)
    ensures var t' := MarkPublished(t, keys);
            && t'.orders == t.orders && t'.outbox.Keys == t.outbox.Keys
            && forall k | k in t.outbox ::
                 t'.outbox[k] == OutboxRow(t.outbox[k].destination, t.outbox[k].payload,
                                           t.outbox[k].published || k in keys, t.outbox[k].createdAt)
  {
  }

  function Pending(t: Tables): set<Key> {
    set k | k in t.outbox && !t.outbox[k].published
  }

  predicate CanApplyAssessment(status: Status) {
    status == AssessRequested
  }

  predicate DecideNotification(score: int, threshold: int) {
    score >= threshold
  }
}
