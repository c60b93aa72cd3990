/**
 * The chat input box: a text buffer, the guard that decides whether a
 * submission goes through, the Enter-key rule, and the two buttons.
 * The props (`isLoading`, `disabled`, whether a cancel handler was given,
 * the placeholder) come from the page on every render.
 */
module ChatBox {
  import opened Wrappers
  import opened Text

  datatype Placeholder = DefaultPlaceholder | RefinePlaceholder

  /** The props the page passes to the box. */
  datatype Props = Props(isLoading: bool, disabled: bool, hasCancel: bool, placeholder: Placeholder)

  /** The length the character counter is shown against. It is a display
      hint only: nothing enforces it. */
  const MaxLength: nat := 500

  /** The submit guard: some non-whitespace text, not loading, not disabled. */
  predicate Accepts(message: string, props: Props)
  {
    Trim(message) != [] && !props.isLoading && !props.disabled
  }

  /** What a submission forwards to the page: the trimmed text when the
      guard accepts, nothing otherwise. */
  function Forwarded(message: string, props: Props): (r: Option<string>)
    ensures r.Some? <==> Accepts(message, props)
    ensures r.Some? ==> r.value == Trim(message)
  {
    if Accepts(message, props) then Some(Trim(message)) else None
  }

  /** What is forwarded is never empty, has no surrounding whitespace, and
      would itself be accepted and forwarded unchanged by the same box. */
  lemma ForwardedIsTrimmed(message: string, props: Props)
    requires Accepts(message, props)
    ensures Forwarded(message, props).Some?
    ensures var m := Forwarded(message, props).value;
            m != [] && Trimmed(m) && Accepts(m, props) && Forwarded(m, props) == Some(m)
  {
    TrimIdempotent(message);
  }

  /** The Send button is disabled when the trimmed text is empty, or the box
      is loading, or it is disabled. */
  predicate SendEnabled(message: string, props: Props)
  {
    !(Trim(message) == [] || props.isLoading || props.disabled)
  }

  /** The Send button is enabled exactly when a submission would go through. */
  lemma SendEnabledIffAccepts(message: string, props: Props)
    ensures SendEnabled(message, props) <==> Accepts(message, props)
  {
  }

  /** A whitespace-only buffer is never submitted, whatever the props. */
  lemma BlankNeverSubmitted(message: string, props: Props)
    requires Blank(message)
    ensures Forwarded(message, props) == None
  {
  }

  /** A box that is neither loading nor disabled submits any text that is
      not all whitespace, and submitting what it forwarded would forward the
      same text again. */
  lemma OpenBoxAccepts(typed: string, props: Props)
    requires !Blank(typed) && !props.isLoading && !props.disabled
    ensures Forwarded(typed, props) == Some(Trim(typed))
    ensures Forwarded(Trim(typed), props) == Some(Trim(typed))
  {
  }

  /** The Cancel button shows while loading, and only if the page gave a
      cancel handler. */
  predicate CancelVisible(props: Props)
  {
    props.isLoading && props.hasCancel
  }

  /** The counter: the buffer's length against the 500 hint. */
  function Counter(message: string): (r: (nat, nat))
    ensures r.0 == |message| && r.1 == MaxLength
  {
    (|message|, MaxLength)
  }

  datatype Key = Key(name: string, shift: bool)

  /** Enter without Shift submits; Shift+Enter (a new line) and every other
      key do not. */
  predicate SubmitsOnKey(key: Key)
  {
    key.name == "Enter" && !key.shift
  }

  /** The box's local state: the text typed so far. */
  class MessageInput {
    var message: string

    constructor ()
      ensures message == []
    {
      message := [];
    }

    /** Stores the value as typed, with no truncation at the 500 hint. */
    method Change(value: string)
      modifies this
      ensures message == value
    {
      message := value;
    }

    /** The form's submit handler: forwards the trimmed text when the guard
        accepts and then clears the buffer; a rejected submission forwards
        nothing and leaves the buffer as it was. */
    method Submit(props: Props) returns (sent: Option<string>)
      modifies this
      ensures sent == Forwarded(old(message), props)
      ensures message == if sent.Some? then [] else old(message)
    {
      if Trim(message) != [] && !props.isLoading && !props.disabled {
        sent := Some(Trim(message));
        message := [];
      } else {
        sent := None;
      }
    }

    /** The key handler: Enter without Shift takes the submit path; any other
        key leaves the buffer alone and submits nothing. */
    method KeyDown(key: Key, props: Props) returns (sent: Option<string>)
      modifies this
      ensures sent == (if SubmitsOnKey(key) then Forwarded(old(message), props) else None)
      ensures message == if sent.Some? then [] else old(message)
    {
      if key.name == "Enter" && !key.shift {
        sent := Submit(props);
      } else {
        sent := None;
      }
    }
  }
}
