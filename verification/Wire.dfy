/**
 The messages the services exchange.  JSON decoding is not modelled: a message is
 the typed record the receiver works on.  Fields that a service only forwards are
 kept together in `body`.
 */
module Wire {
  import opened Wrappers

  type OrderId = string

  /** One order of parse.results. */
  datatype WireOrder = WireOrder(id: OrderId, body: string)

  /** ParseResultMessage: the batch on parse.results, assess.requests and its retry queue. */
  datatype Envelope = Envelope(
    requestId: string,
    fetchedAt: int,
    totalCount: int,
    nextCursor: Option<string>,
    orders: seq<WireOrder>)

  datatype ParseMode = Html | MarkdownV2 | Markdown

  /** The camelCase contract of the notifications service. */
  datatype NotificationCommand = NotificationCommand(
    text: string,
    parseMode: Option<ParseMode>,
    disableNotification: Option<bool>,
    disableWebPagePreview: Option<bool>,
    messageThreadId: Option<int>)

  /** AssessmentResultMessage on assess.results. */
  datatype AssessmentResult = AssessmentResult(
    orderId: OrderId,
    score: int,
    notification: NotificationCommand)

  /** What the outbox stores and the relay publishes. */
  datatype Payload = Request(envelope: Envelope) | Command(notification: NotificationCommand)
}
