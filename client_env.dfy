/**
 * Pure helpers of the GTK input-method module
 * (client/gtk2/ibusimcontext.c): the environment-variable parsers and the
 * selection anchor computed for the surrounding text.
 */
module ClientEnv {
  import opened Common

  /** The spellings a boolean environment variable is false with. */
  const FalseSpellings: set<string> := {"", "0", "false", "False", "FALSE"}

  /** _get_boolean_env: value is the variable's value, None when unset. */
  function GetBooleanEnv(value: Option<string>, default: bool): (r: bool)
    ensures value.None? ==> r == default
    ensures value.Some? ==> (r <==> value.value !in FalseSpellings)
  {
    if value.None? then default
    else if value.value == "" || value.value == "0" || value.value == "false" ||
            value.value == "False" || value.value == "FALSE" then false
    else true
  }

  /** _get_char_env: like _get_boolean_env, but "2" gives 2. */
  function GetCharEnv(value: Option<string>, default: int): (r: int)
    ensures value.None? ==> r == default
    ensures value.Some? && value.value in FalseSpellings ==> r == 0
    ensures value.Some? && value.value == "2" ==> r == 2
    ensures value.Some? && value.value !in FalseSpellings && value.value != "2" ==> r == 1
  {
    if value.None? then default
    else if value.value == "" || value.value == "0" || value.value == "false" ||
            value.value == "False" || value.value == "FALSE" then 0
    else if value.value == "2" then 2
    else 1
  }

  /** The two parsers agree on what counts as set: a set variable gives a
      nonzero char exactly when it gives true. */
  lemma CharEnvRefinesBooleanEnv(value: string, d: bool, dc: int)
    ensures (GetCharEnv(Some(value), dc) != 0) == GetBooleanEnv(Some(value), d)
    ensures GetCharEnv(Some(value), dc) in {0, 1, 2}
  {
  }

  /** A guint. */
  type uint32 = x: int | 0 <= x < 0x1_0000_0000

  /** Unsigned 32-bit subtraction, which wraps around below zero. */
  function Sub32(a: uint32, b: uint32): (r: uint32)
    ensures b <= a ==> r == a - b
    ensures a < b ==> r == a - b + 0x1_0000_0000
  {
    (a - b) % 0x1_0000_0000
  }

  /** What the client window is, as far as the anchor computation asks:
      no window, a widget that is not a text view, or a text view with its
      selection bounds (when it has a selection) and its cursor, as
      character offsets in the buffer. */
  datatype ClientWidget =
    | NoClientWindow
    | OtherWidget
    | TextView(selection: Option<(uint32, uint32)>, cursorIndex: uint32)

  /** get_selection_anchor_point: the end of the selection the cursor is
      not at, made relative to the surrounding text's origin, or the
      cursor position when there is no such anchor inside the text. */
  function GetSelectionAnchorPoint(w: ClientWidget, cursorPos: uint32, surroundingTextLen: uint32): uint32
  {
    if !w.TextView? || w.selection.None? then cursorPos
    else
      var start := w.selection.value.0;
      var end := w.selection.value.1;
      if start != w.cursorIndex && end != w.cursorIndex then cursorPos
      else
        var anchor := if start == w.cursorIndex then end else start;
        var relativeOrigin := Sub32(w.cursorIndex, cursorPos);
        if anchor < relativeOrigin then cursorPos
        else if anchor - relativeOrigin > surroundingTextLen then cursorPos
        else anchor - relativeOrigin
  }

  /** The anchor is the cursor position unless the cursor sits at one end
      of a selection in a text view; then it lies within the surrounding
      text. */
  lemma AnchorPointCases(w: ClientWidget, cursorPos: uint32, len: uint32)
    ensures var r := GetSelectionAnchorPoint(w, cursorPos, len);
      (r == cursorPos || r <= len) &&
      (r != cursorPos ==> w.TextView? && w.selection.Some? &&
                          (w.selection.value.0 == w.cursorIndex || w.selection.value.1 == w.cursorIndex))
  {
  }

  /** With the cursor at one end of a selection that lies inside the
      surrounding text, the anchor is the other end, relative to the
      surrounding text's origin. */
  lemma AnchorAtOtherEnd(start: uint32, end: uint32, cursorPos: uint32, len: uint32)
    requires start <= end
    ensures cursorPos <= start && end - (start - cursorPos) <= len ==>
            GetSelectionAnchorPoint(TextView(Some((start, end)), start), cursorPos, len) ==
            end - (start - cursorPos)
    ensures end - start <= cursorPos <= end && start - (end - cursorPos) <= len ==>
            GetSelectionAnchorPoint(TextView(Some((start, end)), end), cursorPos, len) ==
            start - (end - cursorPos)
  {
  }
}
