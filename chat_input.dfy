/** The message box of the chat screen (client/src/components/ChatInput.js)
    and how the chat screen wires it (client/src/components/ChatInterface.js):
    the draft, the submit guard, the Enter key and the send button's
    disabled state. */
module ChatInputBox {
  import opened Wrappers
  import opened Text
  import opened Conversation

  /** `message.trim() && !isLoading && !disabled`: the guard of `handleSubmit`. */
  predicate CanSubmit(message: string, isLoading: bool, disabled: bool) {
    Trim(message) != [] && !isLoading && !disabled
  }

  /** `!message.trim() || isLoading || disabled`: the send button's `disabled` attribute. */
  predicate SendButtonDisabled(message: string, isLoading: bool, disabled: bool) {
    Trim(message) == [] || isLoading || disabled
  }

  /** The button is disabled exactly when submitting would do nothing. */
  lemma ButtonMatchesGuard(message: string, isLoading: bool, disabled: bool)
    ensures SendButtonDisabled(message, isLoading, disabled) <==> !CanSubmit(message, isLoading, disabled)
  {
  }

  /** The `disabled` property the chat screen passes: `!sessionId`. */
  predicate InputDisabled(s: ChatState) {
    s.sessionId.None? || s.sessionId.value == ""
  }

  /** Under the chat screen's wiring nothing is submitted before a session
      id exists, nor while a reply is awaited. */
  lemma SubmitNeedsSession(s: ChatState, message: string)
    requires CanSubmit(message, s.isLoading, InputDisabled(s))
    ensures s.sessionId.Some? && s.sessionId.value != [] && !s.isLoading
  {
  }

  /** What leaves the box passes `handleSendMessage`'s blank guard and has
      no white space at either end. */
  lemma SubmittedTextIsTrimmed(message: string)
    requires Trim(message) != []
    ensures Trim(Trim(message)) == Trim(message)
    ensures !IsSpace(Trim(message)[0]) && !IsSpace(Trim(message)[|Trim(message)| - 1])
  {
    TrimIdempotent(message);
    TrimEnds(message);
  }

  class ChatInput {
    /** The draft in the text area. */
    var message: string

    /** The draft starts empty. */
    constructor ()
      ensures message == ""
    {
      message := "";
    }

    /** The text area's `onChange`. */
    method SetMessage(value: string)
      modifies this
      ensures message == value
    {
      message := value;
    }

    /** `handleSubmit`: when the guard holds, hands the trimmed draft to
        `onSendMessage` (the returned text) and clears the draft; otherwise
        does nothing. */
    method HandleSubmit(isLoading: bool, disabled: bool) returns (sent: Option<string>)
      modifies this
      ensures CanSubmit(old(message), isLoading, disabled) ==> sent == Some(Trim(old(message))) && message == ""
      ensures !CanSubmit(old(message), isLoading, disabled) ==> sent == None && message == old(message)
    {
      sent := None;
      if Trim(message) != [] && !isLoading && !disabled {
        sent := Some(Trim(message));
        message := "";
      }
    }

    /** `handleKeyPress`: Enter without Shift submits (and suppresses the
        line break); any other key is left to the text area. */
    method HandleKeyPress(key: string, shiftKey: bool, isLoading: bool, disabled: bool)
      returns (sent: Option<string>, defaultPrevented: bool)
      modifies this
      ensures defaultPrevented <==> key == "Enter" && !shiftKey
      ensures defaultPrevented && CanSubmit(old(message), isLoading, disabled) ==>
        sent == Some(Trim(old(message))) && message == ""
      ensures !(defaultPrevented && CanSubmit(old(message), isLoading, disabled)) ==>
        sent == None && message == old(message)
    {
      sent, defaultPrevented := None, false;
      if key == "Enter" && !shiftKey {
        defaultPrevented := true;
        sent := HandleSubmit(isLoading, disabled);
      }
    }
  }
}
