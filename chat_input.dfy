/** The message box (src/components/chat/ChatInput.tsx): its text state, the
    submit rule shared by the form, the Enter key and the send button, and
    what it hands to the chat view. */
module ChatInput {
  import opened Types
  import opened Text

  /** A submit goes ahead when the trimmed text is non-empty and no reply is
      pending; the send button is enabled exactly then. */
  predicate CanSubmit(inputValue: string, isLoading: bool) {
    !Blank(inputValue) && !isLoading
  }

  /** The send button's `disabled` rule, written with `trim` as the button
      has it: the button is disabled exactly when a submit would not go
      ahead. */
  function SendButtonDisabled(inputValue: string, isLoading: bool): (disabled: bool)
    ensures disabled <==> !CanSubmit(inputValue, isLoading)
  {
    TrimEmptyIffBlank(inputValue);
    isLoading || Trim(inputValue) == ""
  }

  /** Enter submits; Shift+Enter inserts a line break instead. */
  predicate SubmitsOnKey(key: string, shiftKey: bool) {
    key == "Enter" && !shiftKey
  }

  /** A text the chat view accepts as it is: not blank, and unchanged by
      `trim`. */
  predicate Sendable(text: string) {
    !Blank(text) && Trim(text) == text
  }

  /** The text handed to the chat view is the trimmed input. It is itself not
      blank and already trimmed, so the chat view's own guard lets it through
      and its prompt carries exactly this text. */
  lemma {:induction false} SubmittedTextPassesSendGuard(inputValue: string)
    requires !Blank(inputValue)
    ensures Sendable(Trim(inputValue)) && Trim(inputValue) != ""
  {
    TrimEmptyIffBlank(inputValue);
    TrimIdempotent(inputValue);
    TrimEmptyIffBlank(Trim(inputValue));
  }

  /** Every text of the list is sendable. */
  predicate AllSendable(texts: seq<string>) {
    texts == [] || (AllSendable(texts[..|texts| - 1]) && Sendable(texts[|texts| - 1]))
  }

  /** Every entry of a sendable list is sendable. */
  lemma {:induction false} AllSendableAt(texts: seq<string>, i: nat)
    requires AllSendable(texts) && i < |texts|
    ensures Sendable(texts[i])
  {
    if i < |texts| - 1 {
      AllSendableAt(texts[..|texts| - 1], i);
    }
  }

  /** Handing on a sendable text keeps the whole list sendable. */
  lemma AppendSendable(sent: seq<string>, text: string)
    requires AllSendable(sent) && Sendable(text)
    ensures AllSendable(sent + [text])
  {
    assert (sent + [text])[..|sent|] == sent;
  }

  class InputBox {
    /** The textarea's controlled value. */
    var inputValue: string
    /** Every text handed to `onSendMessage`, oldest first. */
    var sent: seq<string>

    /** Every text handed on is non-blank and already trimmed. */
    ghost predicate Valid()
      reads this
    {
      AllSendable(sent)
    }

    constructor ()
      ensures Valid()
      ensures inputValue == "" && sent == []
    {
      inputValue := "";
      sent := [];
    }

    /** `onChange`: the textarea's new value replaces the state. */
    method Edit(value: string)
      requires Valid()
      modifies this`inputValue
      ensures Valid()
      ensures inputValue == value
    {
      inputValue := value;
    }

    /** `handleSubmit` up to its await: when a submit may go ahead, the
        trimmed text is handed to the chat view. The box keeps its text. */
    method Submit(isLoading: bool) returns (message: Option<string>)
      requires Valid()
      modifies this`sent
      ensures Valid()
      ensures CanSubmit(inputValue, isLoading) ==>
        message == Some(Trim(inputValue)) && sent == old(sent) + [Trim(inputValue)]
      ensures !CanSubmit(inputValue, isLoading) ==> message == None && sent == old(sent)
    {
      if CanSubmit(inputValue, isLoading) {
        var text := Trim(inputValue);
        SubmittedTextPassesSendGuard(inputValue);
        AppendSendable(sent, text);
        sent := sent + [text];
        message := Some(text);
      } else {
        message := None;
      }
    }

    /** `handleSubmit` after its await: once the send resolves the box is
        cleared, whatever was typed in the meantime; if it rejects, the text
        stays. */
    method SendSettled(resolved: bool)
      requires Valid()
      modifies this`inputValue
      ensures Valid()
      ensures inputValue == (if resolved then "" else old(inputValue))
    {
      if resolved {
        inputValue := "";
      }
    }

    /** `handleKeyDown`: Enter without Shift runs the submit rule; any other
        key is left to the textarea. */
    method HandleKeyDown(key: string, shiftKey: bool, isLoading: bool) returns (message: Option<string>)
      requires Valid()
      modifies this`sent
      ensures Valid()
      ensures SubmitsOnKey(key, shiftKey) && CanSubmit(inputValue, isLoading) ==>
        message == Some(Trim(inputValue)) && sent == old(sent) + [Trim(inputValue)]
      ensures !(SubmitsOnKey(key, shiftKey) && CanSubmit(inputValue, isLoading)) ==>
        message == None && sent == old(sent)
    {
      if SubmitsOnKey(key, shiftKey) {
        message := Submit(isLoading);
      } else {
        message := None;
      }
    }
  }
}
