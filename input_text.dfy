/**
 * `<cc-input-text>`: a text input, or a textarea when `multi` is set, with an
 * optional copy-to-clipboard button.
 */
module InputText {
  import opened Wrappers

  /** `s.split(sep)` for a one-character separator: the pieces between separators, at least one. */
  function Split(s: string, sep: char): (parts: seq<string>)
    ensures |parts| >= 1
    ensures forall i | 0 <= i < |parts| :: sep !in parts[i]
  {
    if |s| == 0 then [""]
    else
      var rest := Split(s[1..], sep);
      if s[0] == sep then [""] + rest
      else [[s[0]] + rest[0]] + rest[1..]
  }

  /** The pieces joined back with the separator between them. */
  function Join(parts: seq<string>, sep: char): string
  {
    if |parts| == 0 then ""
    else if |parts| == 1 then parts[0]
    else parts[0] + [sep] + Join(parts[1..], sep)
  }

  function Occurrences(s: string, c: char): nat
  {
    if |s| == 0 then 0 else (if s[0] == c then 1 else 0) + Occurrences(s[1..], c)
  }

  /** Splitting yields one more piece than there are separators. */
  lemma {:induction false} SplitCount(s: string, sep: char)
    ensures |Split(s, sep)| == Occurrences(s, sep) + 1
  {
    if |s| > 0 {
      SplitCount(s[1..], sep);
    }
  }

  /** Splitting loses nothing: joining the pieces gives the string back. */
  lemma {:induction false} JoinSplit(s: string, sep: char)
    ensures Join(Split(s, sep), sep) == s
  {
    if |s| > 0 {
      JoinSplit(s[1..], sep);
      var rest := Split(s[1..], sep);
      if s[0] == sep {
        assert ([""] + rest)[1..] == rest;
      } else {
        var parts := [[s[0]] + rest[0]] + rest[1..];
        if |rest| == 1 {
          assert Join(parts, sep) == [s[0]] + rest[0];
        } else {
          assert parts[1..] == rest[1..];
          assert Join(rest, sep) == rest[0] + [sep] + Join(rest[1..], sep);
        }
      }
    }
  }

  /** The `rows` of the textarea: `(value || '').split('\n').length`. */
  function RowCount(value: string): (rows: nat)
    ensures rows == Occurrences(value, '\n') + 1
  {
    SplitCount(value, '\n');
    |Split(value, '\n')|
  }

  datatype Control =
    | TextArea(rows: nat, disabled: bool, readonly: bool, value: string, name: string, placeholder: string)
    | TextInput(disabled: bool, readonly: bool, value: string, name: string, placeholder: string)

  datatype Icon = ClipboardIcon | TickIcon

  datatype CopyButton = CopyButton(disabled: bool, icon: Icon)

  /** What `render` produces: the wrapper's classes, the one control, and the copy button if any. */
  datatype View = View(skeletonClass: bool, clipboardClass: bool, control: Control, copyButton: Option<CopyButton>)

  /** Whether the copy button is rendered. */
  function ShowsClipboard(clipboard: bool, disabled: bool, skeleton: bool): bool
  {
    clipboard && !disabled && !skeleton
  }

  /** The `?disabled` attribute of the control and of the copy button. */
  function FieldDisabled(disabled: bool, skeleton: bool): bool
  {
    disabled || skeleton
  }

  class CcInputText {
    var disabled: bool
    var readonly: bool
    var skeleton: bool
    var multi: bool
    var clipboard: bool
    var value: string
    var name: string
    var placeholder: string
    var copyOk: bool

    /** Boolean properties the constructor leaves unset are `undefined`, which reads as false. */
    constructor ()
      ensures name == "" && value == "" && placeholder == "" && !copyOk
      ensures !disabled && !readonly && !skeleton && !multi && !clipboard
    {
      name, value, placeholder := "", "", "";
      copyOk := false;
      disabled, readonly, skeleton, multi, clipboard := false, false, false, false, false;
    }

    function Render(): (v: View)
      reads this
      ensures v.control.TextArea? <==> multi
      ensures v.control.TextArea? ==> v.control.rows == Occurrences(value, '\n') + 1
      ensures v.control.disabled <==> disabled || skeleton
      ensures v.control.readonly == readonly && v.control.value == value
      ensures v.control.name == name && v.control.placeholder == placeholder
      ensures v.copyButton.Some? <==> clipboard && !disabled && !skeleton
      ensures v.copyButton.Some? ==> !v.copyButton.value.disabled
      ensures v.copyButton.Some? ==> (v.copyButton.value.icon == TickIcon <==> copyOk)
      ensures v.clipboardClass <==> v.copyButton.Some?
      ensures v.skeletonClass == skeleton
    {
      var rows := RowCount(value);
      var shows := ShowsClipboard(clipboard, disabled, skeleton);
      var off := FieldDisabled(disabled, skeleton);
      var control :=
        if multi then TextArea(rows, off, readonly, value, name, placeholder)
        else TextInput(off, readonly, value, name, placeholder);
      var button :=
        if shows then Some(CopyButton(off, if copyOk then TickIcon else ClipboardIcon)) else None;
      View(skeleton, shows, control, button)
    }

    /** The "input" handler: stores the control's value and emits that same value. */
    method OnInput(newValue: string) returns (emitted: string)
      modifies this`value
      ensures value == newValue && emitted == newValue
    {
      value := newValue;
      emitted := value;
    }

    /** The clipboard promise resolved: show the tick. */
    method OnCopied()
      modifies this`copyOk
      ensures copyOk
    {
      copyOk := true;
    }

    /** The 1000 ms timer fired: back to the clipboard icon. */
    method OnCopyTimeout()
      modifies this`copyOk
      ensures !copyOk
    {
      copyOk := false;
    }
  }
}
