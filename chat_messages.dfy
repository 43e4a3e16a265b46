/** The message composer of the chat page: the text being typed, and the
    guard that decides whether a submit sends it. */
module ChatMessages {
  import opened Wrappers
  import opened Strings

  /** The guard of `handleSubmit`: something besides white space was typed,
      no answer is pending and the composer is enabled. */
  predicate CanSend(input: string, loading: bool, disabled: bool) {
    Trim(input) != "" && !loading && !disabled
  }

  /** The send button's `disabled`. */
  predicate SendButtonDisabled(input: string, loading: bool, disabled: bool) {
    Trim(input) == "" || loading || disabled
  }

  /** The button is disabled exactly when a submit would do nothing, and a sent
      text is never blank and has no white space left to trim. */
  lemma ButtonFollowsGuard(input: string, loading: bool, disabled: bool)
    ensures SendButtonDisabled(input, loading, disabled) <==> !CanSend(input, loading, disabled)
    ensures CanSend(input, loading, disabled) ==> Trim(input) != "" && Trim(Trim(input)) == Trim(input)
  {
    TrimIdempotent(input);
  }

  class Composer {
    var input: string

    constructor ()
      ensures input == ""
    {
      input := "";
    }

    /** The text field's `onChange`. */
    method Type(text: string)
      modifies this
      ensures input == text
    {
      input := text;
    }

    /** `handleSubmit`: `sent` is what `onSendMessage` receives, the trimmed
        input, and the input is then cleared; a blocked submit changes nothing. */
    method HandleSubmit(loading: bool, disabled: bool) returns (sent: Option<string>)
      modifies this
      ensures CanSend(old(input), loading, disabled) ==> sent == Some(Trim(old(input))) && input == ""
      ensures !CanSend(old(input), loading, disabled) ==> sent == None && input == old(input)
    {
      if Trim(input) == "" || loading || disabled {
        return None;
      }
      sent := Some(Trim(input));
      input := "";
    }

    /** `handleKeyPress`: Enter without Shift submits; any other key does nothing here. */
    method HandleKeyPress(key: string, shiftKey: bool, loading: bool, disabled: bool) returns (sent: Option<string>)
      modifies this
      ensures key == "Enter" && !shiftKey ==>
        (CanSend(old(input), loading, disabled) ==> sent == Some(Trim(old(input))) && input == "") &&
        (!CanSend(old(input), loading, disabled) ==> sent == None && input == old(input))
      ensures !(key == "Enter" && !shiftKey) ==> sent == None && input == old(input)
    {
      sent := None;
      if key == "Enter" && !shiftKey {
        sent := HandleSubmit(loading, disabled);
      }
    }
  }
}
