/** `PhoneMaskDirective`: keeps a Brazilian phone field in the shape
    `(dd) ddddd-dddd` while it is typed, pasted and left. The string rules are
    functions; the handlers assign `input.value` as the directive does. */
module PhoneMask {
  import opened Common
  import opened DomInput

  /** A phone number has at most 11 digits: area code plus nine. */
  const MaxDigits := 11

  /** `value.replace(/\D/g, '')`, cut to the first 11 digits when longer. */
  function InputDigits(value: string): (d: string)
    ensures AllDigits(d) && |d| <= MaxDigits
  {
    var v := Digits(value);
    if |v| > MaxDigits then v[..MaxDigits] else v
  }

  /** The mask by digit count: nothing for no digit; the area code after `(`;
      from the third digit on, `) ` and up to five digits; from the eighth on,
      `-` and the last four. */
  function Mask(d: string): string {
    if |d| == 0 then ""
    else "(" + Substring(d, 0, 2)
         + (if |d| >= 3 then ") " + Substring(d, 2, 7) else "")
         + (if |d| >= 8 then "-" + Substring(d, 7, 11) else "")
  }

  /** What `onInput` writes back for a field holding `value`. */
  function MaskedInput(value: string): string {
    Mask(InputDigits(value))
  }

  /** What `onBlur` writes for a field holding `value`; `None` when it leaves
      the field alone (no digit, or a complete number of 10 or more). */
  function Blurred(value: string): Option<string> {
    var numbers := Digits(value);
    if 0 < |numbers| < 10 then
      Some(if |numbers| >= 2
           then "(" + Substring(numbers, 0, 2) + (if |numbers| > 2 then ") " + numbers[2..] else "")
           else numbers)
    else None
  }

  /** The pasted text: `clipboardData?.getData('text') || ''`, where `None`
      stands for a paste event without clipboard data. */
  function PastedText(pasted: Option<string>): string {
    pasted.GetOr("")
  }

  /** For at most 11 digits the clamped substrings of `Mask` are plain slices:
      the four shapes `(d`, `(dd`, `(dd) d…` and `(dd) ddddd-d…`. */
  lemma MaskShape(d: string)
    requires |d| <= MaxDigits
    ensures |d| == 0 ==> Mask(d) == ""
    ensures 0 < |d| < 3 ==> Mask(d) == "(" + d
    ensures 3 <= |d| < 8 ==> Mask(d) == "(" + d[..2] + ") " + d[2..]
    ensures 8 <= |d| ==> Mask(d) == "(" + d[..2] + ") " + d[2..7] + "-" + d[7..]
  {
    if 0 < |d| < 3 {
      SubstringTail(d, 0, 2);
      assert d[0..] == d;
    } else if 3 <= |d| < 8 {
      SubstringSlice(d, 0, 2);
      SubstringTail(d, 2, 7);
    } else if 8 <= |d| {
      SubstringSlice(d, 0, 2);
      SubstringSlice(d, 2, 7);
      SubstringTail(d, 7, 11);
    }
  }

  /** Within bounds, `substring` is a slice. */
  lemma SubstringSlice(s: string, i: nat, j: nat)
    requires i <= j <= |s|
    ensures Substring(s, i, j) == s[i..j]
  {
  }

  /** An end past the string gives the rest of it. */
  lemma SubstringTail(s: string, i: nat, j: nat)
    requires i <= |s| <= j
    ensures Substring(s, i, j) == s[i..]
  {
  }

  /** Punctuation in front of a string adds no digit. */
  lemma DigitsAfterPunctuation(p: string, s: string)
    requires p in ["(", ") ", "-"]
    ensures Digits(p + s) == Digits(s)
  {
    DigitsOfNonDigits(p);
    DigitsAppend(p, s);
  }

  /** A run of digits in front of a string is kept as it is. */
  lemma DigitsAfterDigits(a: string, s: string)
    requires AllDigits(a)
    ensures Digits(a + s) == a + Digits(s)
  {
    DigitsAppend(a, s);
  }

  lemma DigitsOfShortShape(d: string)
    requires AllDigits(d)
    ensures Digits("(" + d) == d
  {
    DigitsAfterPunctuation("(", d);
  }

  lemma DigitsOfMiddleShape(d: string)
    requires AllDigits(d) && 2 <= |d|
    ensures Digits("(" + d[..2] + ") " + d[2..]) == d
  {
    var tail := ") " + d[2..];
    assert "(" + d[..2] + ") " + d[2..] == "(" + (d[..2] + tail);
    DigitsAfterPunctuation("(", d[..2] + tail);
    DigitsAfterDigits(d[..2], tail);
    DigitsAfterPunctuation(") ", d[2..]);
    assert d[..2] + d[2..] == d;
  }

  /** Appending a string without digits adds no digit. */
  lemma DigitsSkip(x: string, p: string)
    requires Digits(p) == []
    ensures Digits(x + p) == Digits(x)
  {
    DigitsAppend(x, p);
    assert Digits(x) + [] == Digits(x);
  }

  /** Appending a run of digits appends that run. */
  lemma DigitsKeep(x: string, a: string)
    requires AllDigits(a)
    ensures Digits(x + a) == Digits(x) + a
  {
    DigitsAppend(x, a);
  }

  /** Strings without digits between runs of digits leave just the runs. */
  lemma DigitsOfInterleaved(p: string, a: string, q: string, b: string, r: string, c: string)
    requires Digits(p) == [] && Digits(q) == [] && Digits(r) == []
    requires AllDigits(a) && AllDigits(b) && AllDigits(c)
    ensures Digits(p + a + q + b + r + c) == a + b + c
  {
    var x1 := p + a;
    var x2 := x1 + q;
    var x3 := x2 + b;
    var x4 := x3 + r;
    DigitsKeep(p, a);
    assert Digits(x1) == a;
    DigitsSkip(x1, q);
    DigitsKeep(x2, b);
    assert Digits(x3) == a + b;
    DigitsSkip(x3, r);
    DigitsKeep(x4, c);
  }

  lemma DigitsOfPunctuated(a: string, b: string, c: string)
    requires AllDigits(a) && AllDigits(b) && AllDigits(c)
    ensures Digits("(" + a + ") " + b + "-" + c) == a + b + c
  {
    DigitsOfNonDigits("(");
    DigitsOfNonDigits(") ");
    DigitsOfNonDigits("-");
    DigitsOfInterleaved("(", a, ") ", b, "-", c);
  }

  lemma DigitsOfFullShape(d: string)
    requires AllDigits(d) && 7 <= |d|
    ensures Digits("(" + d[..2] + ") " + d[2..7] + "-" + d[7..]) == d
  {
    DigitsOfPunctuated(d[..2], d[2..7], d[7..]);
    assert d[..2] + d[2..7] + d[7..] == d;
  }

  /** The digits of the masked value are the digits it was built from, in
      order: the mask only adds punctuation. */
  lemma MaskKeepsDigits(d: string)
    requires AllDigits(d) && |d| <= MaxDigits
    ensures Digits(Mask(d)) == d
  {
    MaskShape(d);
    if 0 < |d| < 3 {
      DigitsOfShortShape(d);
    } else if 3 <= |d| < 8 {
      DigitsOfMiddleShape(d);
    } else if 8 <= |d| {
      DigitsOfFullShape(d);
    }
  }

  /** The field's digits after `onInput` are the first 11 digits typed, and
      the masked value never exceeds `(dd) ddddd-dddd`, fifteen characters. */
  lemma MaskedInputDigits(value: string)
    ensures Digits(MaskedInput(value)) == InputDigits(value)
    ensures |MaskedInput(value)| <= 15
  {
    MaskKeepsDigits(InputDigits(value));
    MaskShape(InputDigits(value));
  }

  /** Masking a masked value gives it back, so the `input` event the directive
      re-dispatches with its own output changes nothing. */
  lemma MaskIdempotent(value: string)
    ensures MaskedInput(MaskedInput(value)) == MaskedInput(value)
  {
    MaskedInputDigits(value);
  }

  /** Pasting text leaves the same value as typing it would. */
  lemma PasteLikeInput(pasted: Option<string>)
    ensures Mask(Substring(Digits(PastedText(pasted)), 0, MaxDigits)) == MaskedInput(PastedText(pasted))
  {
    var v := Digits(PastedText(pasted));
    if |v| > MaxDigits {
      assert Substring(v, 0, MaxDigits) == v[..MaxDigits];
    } else {
      assert Substring(v, 0, MaxDigits) == v;
    }
  }

  /** Leaving the field never loses or adds a digit. */
  lemma BlurKeepsDigits(value: string)
    ensures Blurred(value).Some? ==> Digits(Blurred(value).value) == Digits(value)
  {
    var numbers := Digits(value);
    if 2 <= |numbers| < 10 {
      SubstringSlice(numbers, 0, 2);
      assert numbers[0..2] == numbers[..2];
      if |numbers| > 2 {
        assert Blurred(value).value == "(" + numbers[..2] + (") " + numbers[2..]);
        assert "(" + numbers[..2] + (") " + numbers[2..]) == "(" + numbers[..2] + ") " + numbers[2..];
        DigitsOfMiddleShape(numbers);
      } else {
        assert numbers[..2] == numbers;
        assert Blurred(value).value == "(" + numbers[..2] + "";
        assert "(" + numbers[..2] + "" == "(" + numbers;
        DigitsOfShortShape(numbers);
      }
    }
  }

  /** A value `onInput` produced keeps its shape on blur exactly when it has
      from two to seven digits; with one digit the `(` is dropped, and with
      eight or nine the `-` is dropped. */
  lemma BlurOfMasked(d: string)
    requires AllDigits(d) && 0 < |d| < 10
    ensures Blurred(Mask(d)) == Some(Mask(d)) <==> 2 <= |d| <= 7
  {
    MaskKeepsDigits(d);
    MaskShape(d);
    if |d| == 1 {
      BlurOfOneDigit(d);
    } else if |d| < 8 {
      BlurOfIncomplete(d);
    } else {
      BlurOfEightOrNine(d);
    }
  }

  lemma BlurOfOneDigit(d: string)
    requires AllDigits(d) && |d| == 1 && Digits(Mask(d)) == d && Mask(d) == "(" + d
    ensures Blurred(Mask(d)) == Some(d) && d != Mask(d)
  {
  }

  lemma BlurOfIncomplete(d: string)
    requires AllDigits(d) && 2 <= |d| <= 7 && Digits(Mask(d)) == d
    requires |d| < 3 ==> Mask(d) == "(" + d
    requires 3 <= |d| ==> Mask(d) == "(" + d[..2] + ") " + d[2..]
    ensures Blurred(Mask(d)) == Some(Mask(d))
  {
    SubstringSlice(d, 0, 2);
    assert d[0..2] == d[..2];
    if |d| == 2 {
      assert d[..2] == d;
      assert Blurred(Mask(d)) == Some("(" + d[..2] + "");
      assert "(" + d[..2] + "" == "(" + d;
    } else {
      assert Blurred(Mask(d)) == Some("(" + d[..2] + (") " + d[2..]));
      assert "(" + d[..2] + (") " + d[2..]) == "(" + d[..2] + ") " + d[2..];
    }
  }

  lemma BlurOfEightOrNine(d: string)
    requires AllDigits(d) && 8 <= |d| <= 9 && Digits(Mask(d)) == d
    requires Mask(d) == "(" + d[..2] + ") " + d[2..7] + "-" + d[7..]
    ensures Blurred(Mask(d)) != Some(Mask(d))
  {
    var m := Mask(d);
    SubstringSlice(d, 0, 2);
    assert d[0..2] == d[..2];
    var b := "(" + d[..2] + (") " + d[2..]);
    assert Blurred(m) == Some(b);
    assert m[10] == '-';
    assert b[10] == d[7];
  }

  // ---------------------------------------------------------------------------
  // The `input` event that `onInput` dispatches to its own element

  /** One run of the `input` listener: the value it leaves in the field, and
      whether it ends by dispatching a new `input` event to that field. */
  datatype HandlerRun = HandlerRun(value: string, dispatched: bool)

  /** When the listener dispatches: always, as `onInput` does with its last
      statement, or only after it has changed the field. */
  datatype DispatchRule = AlwaysDispatch | DispatchOnChange

  /** One run of `onInput` on a field holding `value`, under `rule`. */
  function InputRun(rule: DispatchRule, value: string): HandlerRun {
    var next := MaskedInput(value);
    HandlerRun(next, if rule == AlwaysDispatch then true else next != value)
  }

  /** The listener runs that one `input` event sets off, at most `bound` of
      them. The listener runs synchronously inside `dispatchEvent`, so a run
      that dispatches starts the next one on the value it wrote. The result is
      the value left by the first run that does not dispatch, or `None` when
      the runs had not ended within the bound. */
  function InputRuns(rule: DispatchRule, value: string, bound: nat): Option<string>
    decreases bound
  {
    if bound == 0 then None
    else
      var r := InputRun(rule, value);
      if r.dispatched then InputRuns(rule, r.value, bound - 1) else Some(r.value)
  }

  /** With the dispatch as written, one keystroke never finishes, however many
      runs are allowed: from the second run on, the field no longer changes,
      but every run still dispatches. */
  lemma {:induction false} InputNeverSettles(value: string, bound: nat)
    ensures InputRuns(AlwaysDispatch, value, bound) == None
    ensures InputRun(AlwaysDispatch, MaskedInput(value)) == HandlerRun(MaskedInput(value), true)
    decreases bound
  {
    MaskIdempotent(value);
    if bound > 0 {
      InputNeverSettles(MaskedInput(value), bound - 1);
    }
  }

  /** Dispatching only on a change, every event ends within two runs with the
      field holding the mask of what was typed, and a value already masked
      (what `onPaste` writes before its own dispatch) ends after one. */
  lemma InputSettles(value: string)
    ensures InputRuns(DispatchOnChange, value, 2) == Some(MaskedInput(value))
    ensures InputRuns(DispatchOnChange, MaskedInput(value), 1) == Some(MaskedInput(value))
  {
    MaskIdempotent(value);
  }

  /** The mask built piece by piece, as both `onInput` and `onPaste` write
      it out. */
  method BuildMask(numbers: string) returns (formatted: string)
    ensures formatted == Mask(numbers)
  {
    formatted := "";
    if |numbers| > 0 {
      formatted := "(" + Substring(numbers, 0, 2);
      if |numbers| >= 3 {
        formatted := formatted + ") " + Substring(numbers, 2, 7);
      }
      if |numbers| >= 8 {
        formatted := formatted + "-" + Substring(numbers, 7, 11);
      }
    }
  }

  /** `onInput`: strip, truncate to 11 digits, mask, and dispatch a new
      `input` event to the same element (`dispatched`), whatever the value. */
  method OnInput(input: InputElement) returns (dispatched: bool)
    modifies input
    ensures input.value == MaskedInput(old(input.value))
    ensures HandlerRun(input.value, dispatched) == InputRun(AlwaysDispatch, old(input.value))
  {
    var value := Digits(input.value);
    if |value| > MaxDigits {
      value := Substring(value, 0, MaxDigits);
    }
    assert value == InputDigits(old(input.value));
    var formatted := BuildMask(value);
    input.value := formatted;
    dispatched := true;
  }

  /** `onBlur`: an incomplete number is reformatted without the dash; any other
      value is kept. */
  method OnBlur(input: InputElement)
    modifies input
    ensures Blurred(old(input.value)).Some? ==> input.value == Blurred(old(input.value)).value
    ensures Blurred(old(input.value)).None? ==> input.value == old(input.value)
  {
    var numbers := Digits(input.value);
    if |numbers| > 0 && |numbers| < 10 {
      var formatted := "";
      if |numbers| >= 2 {
        formatted := "(" + Substring(numbers, 0, 2);
        if |numbers| > 2 {
          formatted := formatted + ") " + numbers[2..];
        }
      } else {
        formatted := numbers;
      }
      input.value := formatted;
    }
  }

  /** `onKeyDown`: `prevented` is whether `preventDefault()` is called. */
  method OnKeyDown(e: KeyEvent) returns (prevented: bool)
    ensures prevented <==> !KeyAllowed(PhoneEditingKeys, e)
  {
    prevented := FilterKey(PhoneEditingKeys, e);
  }

  /** `onPaste`: the default paste is cancelled and the field set to the mask
      of the first 11 pasted digits. */
  method OnPaste(input: InputElement, pasted: Option<string>)
    modifies input
    ensures input.value == MaskedInput(PastedText(pasted))
  {
    var pastedText := PastedText(pasted);
    var numbers := Substring(Digits(pastedText), 0, MaxDigits);
    var formatted := BuildMask(numbers);
    PasteLikeInput(pasted);
    input.value := formatted;
  }
}
