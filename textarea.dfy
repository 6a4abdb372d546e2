/**
 * The auto-growing text input (client/app/_brutalComponents/ExpandableTextarea.tsx):
 * the height it sets after every change, which value it shows, and its change
 * and key handlers. The parent's callbacks are not run; the calls the
 * component makes to them are recorded instead.
 */
module ExpandableTextarea {
  import opened Common

  /** The assumed height of one line, in pixels. */
  const LineHeight: int := 24

  const DefaultMinRows: int := 1
  const DefaultMaxRows: int := 5

  /** The props the logic reads; an optional callback is present or not. */
  datatype Props = Props(
    value: Option<string>,
    hasOnChange: bool,
    hasOnSubmit: bool,
    minRows: int,
    maxRows: int)

  /** Props as a parent that passes only these three gets them: rows defaulted to 1 and 5. */
  function WithDefaults(value: Option<string>, hasOnChange: bool, hasOnSubmit: bool): (p: Props)
    ensures p.minRows == DefaultMinRows && p.maxRows == DefaultMaxRows
    ensures p.value == value && p.hasOnChange == hasOnChange && p.hasOnSubmit == hasOnSubmit
  {
    Props(value, hasOnChange, hasOnSubmit, DefaultMinRows, DefaultMaxRows)
  }

  function Min(a: int, b: int): int { if a <= b then a else b }

  function Max(a: int, b: int): int { if a >= b then a else b }

  /**
   * `Math.min(Math.max(scrollHeight, minRows * 24), maxRows * 24)`: never above
   * the maximum; not below the minimum when the bounds are in order; the
   * content's own height when it fits between them.
   */
  function Height(scrollHeight: int, minRows: int, maxRows: int): (h: int)
    ensures h <= maxRows * LineHeight
    ensures minRows <= maxRows ==> h >= minRows * LineHeight
    ensures minRows * LineHeight <= scrollHeight <= maxRows * LineHeight ==> h == scrollHeight
    ensures h == scrollHeight || h == minRows * LineHeight || h == maxRows * LineHeight
    ensures scrollHeight >= maxRows * LineHeight ==> h == maxRows * LineHeight
    ensures scrollHeight <= minRows * LineHeight <= maxRows * LineHeight ==> h == minRows * LineHeight
  {
    Min(Max(scrollHeight, minRows * LineHeight), maxRows * LineHeight)
  }

  /** With `minRows` above `maxRows`, the maximum wins whatever the content. */
  lemma InvertedBoundsGiveMaxHeight(scrollHeight: int, minRows: int, maxRows: int)
    requires minRows > maxRows
    ensures Height(scrollHeight, minRows, maxRows) == maxRows * LineHeight
  {
  }

  /** With the default rows the textarea is between 24 and 120 pixels high. */
  lemma DefaultHeightRange(scrollHeight: int)
    ensures 24 <= Height(scrollHeight, DefaultMinRows, DefaultMaxRows) <= 120
  {
  }

  /** The value shown: the parent's when it passes one (even ""), otherwise the component's own. */
  function DisplayedValue(externalValue: Option<string>, internalValue: string): (v: string)
    ensures externalValue.Some? ==> v == externalValue.value
    ensures externalValue.None? ==> v == internalValue
  {
    if externalValue.Some? then externalValue.value else internalValue
  }

  /** What a key press does. */
  datatype KeyAction =
    | Ignore          // the browser handles the key
    | PreventOnly     // Enter is swallowed, nothing is submitted
    | Submit          // Enter is swallowed and the value submitted

  /** `handleKeyDown`'s decision for a key, the Shift state, the presence of `onSubmit` and the shown value. */
  function KeyDecision(key: string, shift: bool, hasOnSubmit: bool, value: string): (a: KeyAction)
    ensures a != Ignore <==> key == "Enter" && !shift && hasOnSubmit
    ensures a == Submit <==> key == "Enter" && !shift && hasOnSubmit && Trim(value) != ""
  {
    if key == "Enter" && !shift && hasOnSubmit then
      if Trim(value) != "" then Submit else PreventOnly
    else Ignore
  }

  /** Whitespace-only input is never submitted, and neither is anything typed with Shift held. */
  lemma NoBlankOrShiftedSubmit(key: string, shift: bool, hasOnSubmit: bool, value: string)
    requires Blank(value) || shift
    ensures KeyDecision(key, shift, hasOnSubmit, value) != Submit
  {
    TrimEmptyIffBlank(value);
  }

  /** A call the component makes to its parent. */
  datatype Call = OnChange(value: string) | OnSubmit(value: string)

  class Textarea {
    const props: Props
    /** The component's own `internalValue` state. */
    var internalValue: string
    /** The calls made to the parent's callbacks, oldest first. */
    var calls: seq<Call>

    constructor(props: Props)
      ensures this.props == props && internalValue == "" && calls == []
    {
      this.props := props;
      internalValue := "";
      calls := [];
    }

    function Value(): (v: string)
      reads this
      ensures props.value.Some? ==> v == props.value.value
      ensures props.value.None? ==> v == internalValue
    {
      DisplayedValue(props.value, internalValue)
    }

    /**
     * `handleChange`: a component with `onChange` reports the new value and
     * keeps its own state; one without stores the new value itself.
     */
    method HandleChange(newValue: string)
      modifies this
      ensures props.hasOnChange ==> calls == old(calls) + [OnChange(newValue)] && internalValue == old(internalValue)
      ensures !props.hasOnChange ==> calls == old(calls) && internalValue == newValue
    {
      if props.hasOnChange {
        calls := calls + [OnChange(newValue)];
      } else {
        internalValue := newValue;
      }
    }

    /**
     * `handleKeyDown`: Enter without Shift, when there is `onSubmit`, is
     * swallowed (`prevented`); the shown value is submitted when it is not
     * blank, and a component without `onChange` then clears its own value.
     */
    method HandleKeyDown(key: string, shift: bool) returns (prevented: bool)
      modifies this
      ensures var a := KeyDecision(key, shift, props.hasOnSubmit, old(Value()));
        && prevented == (a != Ignore)
        && (a == Submit ==> calls == old(calls) + [OnSubmit(old(Value()))])
        && (a != Submit ==> calls == old(calls))
        && internalValue == (if a == Submit && !props.hasOnChange then "" else old(internalValue))
    {
      prevented := false;
      var value := Value();
      if key == "Enter" && !shift && props.hasOnSubmit {
        prevented := true;
        if Trim(value) != "" {
          calls := calls + [OnSubmit(value)];
          if !props.hasOnChange {
            internalValue := "";
          }
        }
      }
    }
  }

  /**
   * An uncontrolled textarea with a submit handler: typing stores the text,
   * Enter submits it once and empties the box, and a second Enter submits
   * nothing.
   */
  method TypeAndSubmit(text: string) returns (submitted: seq<Call>, shown: string)
    requires Trim(text) != ""
    ensures submitted == [OnSubmit(text)]
    ensures shown == ""
  {
    var t := new Textarea(WithDefaults(None, false, true));
    t.HandleChange(text);
    var first := t.HandleKeyDown("Enter", false);
    assert Trim("") == "";
    var second := t.HandleKeyDown("Enter", false);
    submitted := t.calls;
    shown := t.Value();
  }
}
