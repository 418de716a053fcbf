/**
 * The message box under the chat: the typed text, the submit guard shared by the send button and
 * Shift+Enter, and the auto-growing height. The callback that receives a message is modelled by
 * returning what it would be called with.
 */
module ChatInput {
  import opened Wrappers
  import Text

  const MaxHeight := 200

  /** The send button is enabled exactly when the input is enabled and the text is not only whitespace. */
  predicate SendEnabled(disabled: bool, message: string) {
    !disabled && Text.Trim(message) != ""
  }

  /** The button's rule in terms of the text itself: a character that is not whitespace is needed. */
  lemma SendEnabledIff(disabled: bool, message: string)
    ensures SendEnabled(disabled, message) <==> !disabled && !Text.AllWhitespace(message)
  {
    Text.TrimEmptyIff(message);
  }

  /** Only Shift+Enter submits. */
  predicate SubmitsOnKey(key: string, shiftKey: bool) {
    key == "Enter" && shiftKey
  }

  /** The text area's height: its content's height, capped at 200 pixels. */
  function AutoHeight(scrollHeight: int): (h: int)
    ensures h <= MaxHeight && h <= scrollHeight
    ensures h == scrollHeight || h == MaxHeight
  {
    if scrollHeight < MaxHeight then scrollHeight else MaxHeight
  }

  class ChatInput {
    var message: string

    constructor()
      ensures message == ""
    {
      message := "";
    }

    method Changed(text: string)
      modifies this
      ensures message == text
    {
      message := text;
    }

    /**
     * Submitting: when the guard holds, the trimmed text is handed to the callback (returned as `Some`) and
     * the box is cleared; otherwise nothing is sent and the text stays.
     */
    method HandleSubmit(disabled: bool) returns (sent: Option<string>)
      modifies this
      ensures sent.Some? <==> SendEnabled(disabled, old(message))
      ensures sent.Some? ==> sent.value == Text.Trim(old(message)) && message == ""
      ensures sent.None? ==> message == old(message)
    {
      var trimmed := Text.Trim(message);
      if trimmed != "" && !disabled {
        sent := Some(trimmed);
        message := "";
      } else {
        sent := None;
      }
    }

    /** A key pressed in the box: Shift+Enter submits, every other key leaves everything as it is. */
    method HandleKeyDown(key: string, shiftKey: bool, disabled: bool) returns (sent: Option<string>)
      modifies this
      ensures !SubmitsOnKey(key, shiftKey) ==> sent.None? && message == old(message)
      ensures SubmitsOnKey(key, shiftKey) ==>
        && (sent.Some? <==> SendEnabled(disabled, old(message)))
        && (sent.Some? ==> sent.value == Text.Trim(old(message)) && message == "")
        && (sent.None? ==> message == old(message))
    {
      sent := None;
      if SubmitsOnKey(key, shiftKey) {
        sent := HandleSubmit(disabled);
      }
    }
  }

  /** A message that is sent is never empty and has no surrounding whitespace. */
  lemma SentMessageIsTrimmed(message: string)
    requires SendEnabled(false, message)
    ensures var sent := Text.Trim(message);
      && sent != "" && !Text.IsWhitespace(sent[0]) && !Text.IsWhitespace(sent[|sent| - 1])
      && Text.Trim(sent) == sent
  {
    Text.TrimIdempotent(message);
  }

  /** A plain Enter never submits, whatever the text. */
  lemma PlainEnterDoesNotSubmit()
    ensures !SubmitsOnKey("Enter", false)
  {
  }
}
