/** What the two input directives see of the DOM: the `<input>` element whose
    `value` they rewrite, and the `keydown` event they may cancel. */
module DomInput {
  import opened Common

  class InputElement {
    var value: string

    constructor (value: string)
      ensures this.value == value
    {
      this.value := value;
    }
  }

  datatype KeyEvent = KeyEvent(key: string, ctrlKey: bool, metaKey: bool)

  /** The editing keys the phone mask always lets through. */
  const PhoneEditingKeys := ["Backspace", "Delete", "Tab", "Escape", "Enter", "ArrowLeft", "ArrowRight"]

  /** The editing keys the integer filter always lets through. */
  const IntegerEditingKeys := ["Backspace", "Delete", "Tab", "Escape", "Enter", "ArrowLeft", "ArrowRight",
                               "ArrowUp", "ArrowDown"]

  /** The letters that, with Ctrl or Meta, give select-all, copy, paste and cut. */
  const ClipboardLetters := ["a", "c", "v", "x"]

  /** `/^\d$/.test(key)`. */
  predicate IsSingleDigit(key: string) {
    |key| == 1 && IsDigit(key[0])
  }

  /** Which keys a `keydown` handler lets through: a listed editing key, a
      clipboard shortcut (the letter compared after `toLowerCase()`), or a
      single digit. Every other key is cancelled with `preventDefault()`. */
  predicate KeyAllowed(editingKeys: seq<string>, e: KeyEvent) {
    e.key in editingKeys
    || ((e.ctrlKey || e.metaKey) && ToLowerAscii(e.key) in ClipboardLetters)
    || IsSingleDigit(e.key)
  }

  /** The `keydown` handler both directives share, written as the source writes
      it: two early returns, then cancel anything that is not a digit. */
  method FilterKey(editingKeys: seq<string>, e: KeyEvent) returns (prevented: bool)
    ensures prevented <==> !KeyAllowed(editingKeys, e)
  {
    if e.key in editingKeys {
      return false;
    }
    if (e.ctrlKey || e.metaKey) && ToLowerAscii(e.key) in ClipboardLetters {
      return false;
    }
    prevented := !IsSingleDigit(e.key);
  }

  /** Upper- and lower-case letters both give the clipboard shortcuts, and
      nothing else does. */
  lemma ClipboardShortcutKeys(key: string)
    ensures ToLowerAscii(key) in ClipboardLetters <==> key in ["a", "A", "c", "C", "v", "V", "x", "X"]
  {
    if |key| == 1 {
      var c := key[0];
      assert key == [c];
      assert ToLowerAscii(key) == [if 'A' <= c <= 'Z' then (c as int + 32) as char else c];
    }
  }

  /** The integer filter lets through everything the phone mask does, and the
      only keys it adds are ArrowUp and ArrowDown. */
  lemma IntegerKeysExtendPhoneKeys(e: KeyEvent)
    ensures KeyAllowed(PhoneEditingKeys, e) ==> KeyAllowed(IntegerEditingKeys, e)
    ensures KeyAllowed(IntegerEditingKeys, e) && !KeyAllowed(PhoneEditingKeys, e)
      ==> e.key == "ArrowUp" || e.key == "ArrowDown"
  {
  }
}
