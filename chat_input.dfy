/** The chat input box: its text and the calls it makes to `onSendMessage`. */
module ChatInput {
  import opened Text

  class ChatInputState {
    var input: string
    /** The texts passed to `onSendMessage`, in order. */
    var submitted: seq<string>

    /** Everything passed on is non-empty and already trimmed. */
    ghost predicate Valid()
      reads this
    {
      forall i :: 0 <= i < |submitted| ==> submitted[i] != [] && Trim(submitted[i]) == submitted[i]
    }

    constructor ()
      ensures Valid()
      ensures input == "" && submitted == []
    {
      input := "";
      submitted := [];
    }

    /** The field's `onChange`. */
    method Change(value: string)
      modifies this`input
      ensures input == value
    {
      input := value;
    }

    /** `handleSubmit`: when the text is not blank and the box is enabled, passes the
        trimmed text on once and empties the box; otherwise leaves both unchanged.
        `disabled` is the property's value at the time of the submit. */
    method HandleSubmit(disabled: bool)
      requires Valid()
      modifies this`input, this`submitted
      ensures Valid()
      ensures !IsBlank(old(input)) && !disabled ==>
        submitted == old(submitted) + [Trim(old(input))] && input == ""
      ensures IsBlank(old(input)) || disabled ==>
        submitted == old(submitted) && input == old(input)
    {
      TrimEmptyIffBlank(input);
      TrimIdempotent(input);
      if Trim(input) != [] && !disabled {
        submitted := submitted + [Trim(input)];
        input := "";
      }
    }
  }

  /** The text passed on for a non-blank input is non-empty, neither starts nor ends
      with whitespace, and is itself not blank. */
  lemma SubmittedTextIsTrimmed(typed: string)
    requires !IsBlank(typed)
    ensures var t := Trim(typed);
      t != [] && !IsWhitespace(t[0]) && !IsWhitespace(t[|t| - 1]) && !IsBlank(t)
  {
    TrimEmptyIffBlank(typed);
    TrimSpec(typed);
  }
}
