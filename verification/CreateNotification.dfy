/** The notifications service's own idea of a message that can be sent. */
module CreateNotification {
  import opened Wrappers
  import opened Wire
  import opened Text

  const MAX_TEXT_LENGTH := 4096

  datatype Invalid = EmptyText | TextTooLong | BadThreadId

  /** text.trim().length === 0 */
  predicate Blank(s: string) {
    forall i | 0 <= i < |s| :: JsSpace(s[i])
  }

  function Create(c: NotificationCommand): Result<NotificationCommand, Invalid> {
    if Blank(c.text) then Err(EmptyText)
    else if Utf16Length(c.text) > MAX_TEXT_LENGTH then Err(TextTooLong)
    else if c.messageThreadId.Some? && c.messageThreadId.value <= 0 then Err(BadThreadId)
    else Ok(c)
  }

  /** A text with a character that is no white space, at most 4096 units, and no thread id or a positive one. */
  predicate Sendable(c: NotificationCommand) {
    && (exists i :: 0 <= i < |c.text| && !JsSpace(c.text[i]))
    && Utf16Length(c.text) <= 4096
    && (c.messageThreadId == None || c.messageThreadId.value > 0)
  }

  /** Exactly these commands are accepted, and unchanged; of several faults the first one is reported. */
  lemma CreateIff(c: NotificationCommand)
    ensures Create(c).Ok? <==> Sendable(c)
    ensures Create(c).Ok? ==> Create(c) == Ok(c)
    ensures Create(c) == Err(EmptyText) <==> forall i | 0 <= i < |c.text| :: JsSpace(c.text[i])
    ensures Create(c) == Err(BadThreadId) ==> c.messageThreadId.Some? && c.messageThreadId.value <= 0
    ensures Create(c) == Err(TextTooLong) ==> Utf16Length(c.text) >= 4097
  {
  }
}
