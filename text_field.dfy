// The shared TextField component: the focus state, the border colour it
// chooses, the message line under the input, and the icon touchables.

module TextField {
  import opened Wrappers
  import opened Effects

  /** The light-theme colour tokens the component uses for its border. */
  datatype ColorToken = ErrorColor | PrimaryColor | BorderColor

  /** A string prop is truthy when it is given and not empty. */
  predicate Truthy(s: Option<string>) {
    s.Some? && s.value != ""
  }

  /**
   * getBorderColor: the error colour whenever there is an error, focused or
   * not; otherwise the primary colour while focused and the plain border
   * colour when not.
   */
  function GetBorderColor(error: Option<string>, isFocused: bool): (c: ColorToken)
    ensures c == ErrorColor <==> Truthy(error)
    ensures c == PrimaryColor <==> !Truthy(error) && isFocused
    ensures c == BorderColor <==> !Truthy(error) && !isFocused
  {
    if Truthy(error) then ErrorColor
    else if isFocused then PrimaryColor
    else BorderColor
  }

  /**
   * The border colour the input container ends up with once its style array
   * `[inputContainer, {borderColor}, isFocused && focused, error && error]` is
   * merged, each entry that sets a colour overriding the ones before it.
   */
  function MergedBorderColor(error: Option<string>, isFocused: bool): ColorToken {
    var colours := [BorderColor, GetBorderColor(error, isFocused)]
      + (if isFocused then [PrimaryColor] else [])
      + (if Truthy(error) then [ErrorColor] else []);
    colours[|colours| - 1]
  }

  /** The `focused` and `error` styles never contradict getBorderColor. */
  lemma MergedBorderAgrees(error: Option<string>, isFocused: bool)
    ensures MergedBorderColor(error, isFocused) == GetBorderColor(error, isFocused)
  {
  }

  /** The line under the input: its text, and whether it is styled as an error. */
  datatype MessageLine = MessageLine(text: string, isError: bool)

  /**
   * `(error || helper) && <Text>{error || helper}</Text>`: a line exactly when
   * error or helper is non-empty, showing the error in preference to the helper.
   */
  function Message(error: Option<string>, helper: Option<string>): (r: Option<MessageLine>)
    ensures r.Some? <==> Truthy(error) || Truthy(helper)
    ensures Truthy(error) ==> r == Some(MessageLine(error.value, true))
    ensures !Truthy(error) && Truthy(helper) ==> r == Some(MessageLine(helper.value, false))
  {
    if Truthy(error) then Some(MessageLine(error.value, true))
    else if Truthy(helper) then Some(MessageLine(helper.value, false))
    else None
  }

  /** The accessibility role a touchable gets. */
  datatype Role = ButtonRole | NoRole

  /** An icon's touchable: disabled, and without the button role, exactly when it has no press handler. */
  function IconTouchable(hasPressHandler: bool): (r: (bool, Role))
    ensures r.0 <==> !hasPressHandler
    ensures r.1 == ButtonRole <==> hasPressHandler
  {
    (!hasPressHandler, if hasPressHandler then ButtonRole else NoRole)
  }

  /** A focus change the input reports. */
  datatype FocusEvent = Focus | Blur

  /** The focus flag after a series of events, each handled as handleFocus or handleBlur does. */
  function FocusAfter(isFocused: bool, events: seq<FocusEvent>): bool
    decreases |events|
  {
    if events == [] then isFocused else FocusAfter(events[0] == Focus, events[1..])
  }

  /** The field is focused exactly when the latest event was a focus (or, with none, as it was). */
  lemma {:induction false} FocusFollowsLatestEvent(isFocused: bool, events: seq<FocusEvent>)
    ensures FocusAfter(isFocused, events) == if events == [] then isFocused else events[|events| - 1] == Focus
    decreases |events|
  {
    if events != [] {
      FocusFollowsLatestEvent(events[0] == Focus, events[1..]);
      if |events| > 1 {
        assert events[1..][|events| - 2] == events[|events| - 1];
      }
    }
  }

  /** The mounted field: its `isFocused` state and the caller's callbacks it has made. */
  class Field {
    var isFocused: bool
    var calls: seq<Effect>

    constructor ()
      ensures !isFocused && calls == []
    {
      isFocused := false;
      calls := [];
    }

    /** handleFocus: focused, and the caller's onFocus called once if there is one. */
    method HandleFocus(hasOnFocus: bool)
      modifies this
      ensures isFocused
      ensures calls == old(calls) + (if hasOnFocus then [CallOnFocus] else [])
    {
      isFocused := true;
      if hasOnFocus {
        calls := calls + [CallOnFocus];
      }
    }

    /** handleBlur: not focused, and the caller's onBlur called once if there is one. */
    method HandleBlur(hasOnBlur: bool)
      modifies this
      ensures !isFocused
      ensures calls == old(calls) + (if hasOnBlur then [CallOnBlur] else [])
    {
      isFocused := false;
      if hasOnBlur {
        calls := calls + [CallOnBlur];
      }
    }
  }
}
