/** `IntegerOnlyDirective`: keeps a field to a non-negative whole number
    written with digits only and without leading zeros. */
module IntegerOnly {
  import opened Common
  import opened DomInput

  /** `s.replace(/^0+/, '')`: drops the run of zeros at the front. */
  function StripLeadingZeros(s: string): (r: string)
    ensures |r| <= |s| && r == s[|s| - |r|..]
    ensures forall i :: 0 <= i < |s| - |r| ==> s[i] == '0'
    ensures r == [] || r[0] != '0'
  {
    if s != [] && s[0] == '0' then StripLeadingZeros(s[1..]) else s
  }

  /** What `onInput` writes back: the digits, and when there are two or more
      of them starting with `0`, the digits after the leading zeros. */
  function IntegerValue(value: string): string {
    DigitRule(Digits(value))
  }

  /** The leading-zero rule on a string of digits `v`. */
  function DigitRule(v: string): string {
    if |v| > 1 && v[0] == '0' then StripLeadingZeros(v) else v
  }

  /** The number a digit string spells in base ten; the empty string reads
      as zero. */
  function DecimalValue(s: string): nat
    requires AllDigits(s)
  {
    if s == [] then 0
    else DecimalValue(s[..|s| - 1]) * 10 + (s[|s| - 1] as int - '0' as int)
  }

  /** A leading zero does not change the number. */
  lemma {:induction false} LeadingZeroValue(s: string)
    requires AllDigits(s) && s != [] && s[0] == '0'
    ensures DecimalValue(s) == DecimalValue(s[1..])
  {
    if |s| > 1 {
      LeadingZeroValue(s[..|s| - 1]);
      assert s[..|s| - 1][1..] == s[1..][..|s[1..]| - 1];
    }
  }

  lemma {:induction false} StripLeadingZerosValue(s: string)
    requires AllDigits(s)
    ensures DecimalValue(StripLeadingZeros(s)) == DecimalValue(s)
  {
    if s != [] && s[0] == '0' {
      LeadingZeroValue(s);
      StripLeadingZerosValue(s[1..]);
    }
  }

  /** The field ends up holding only digits, in their original order after
      some leading zeros, and never starts with `0` unless it is exactly `0`. */
  lemma IntegerValueForm(value: string)
    ensures AllDigits(IntegerValue(value))
    ensures var v, r := Digits(value), IntegerValue(value);
      r == v[|v| - |r|..] && forall i :: 0 <= i < |v| - |r| ==> v[i] == '0'
    ensures var r := IntegerValue(value);
      r != [] && r[0] == '0' ==> r == "0"
  {
    DigitRuleForm(Digits(value));
  }

  /** The same, for the rule applied to a string of digits `v`. */
  lemma DigitRuleForm(v: string)
    requires AllDigits(v)
    ensures var r := DigitRule(v);
      AllDigits(r) && r == v[|v| - |r|..] && (forall i :: 0 <= i < |v| - |r| ==> v[i] == '0')
      && (r != [] && r[0] == '0' ==> r == "0")
  {
    if |v| > 1 && v[0] == '0' {
      var r := StripLeadingZeros(v);
      assert forall i :: 0 <= i < |r| ==> r[i] == v[|v| - |r| + i];
    } else {
      assert v[|v| - |v|..] == v;
      if v != [] && v[0] == '0' {
        assert v == [v[0]];
      }
    }
  }

  /** The number the digits spell is kept, except that a field of two or more
      zeros is emptied rather than left as `0`. */
  lemma IntegerValueNumber(value: string)
    ensures AllDigits(IntegerValue(value))
    ensures DecimalValue(IntegerValue(value)) == DecimalValue(Digits(value))
    ensures IntegerValue(value) == [] <==>
      Digits(value) == [] || (|Digits(value)| > 1 && forall i :: 0 <= i < |Digits(value)| ==> Digits(value)[i] == '0')
  {
    IntegerValueForm(value);
    var v := Digits(value);
    if |v| > 1 && v[0] == '0' {
      StripLeadingZerosValue(v);
    }
  }

  /** Applying the rule to its own output changes nothing. */
  lemma IntegerValueIdempotent(value: string)
    ensures IntegerValue(IntegerValue(value)) == IntegerValue(value)
  {
    IntegerValueForm(value);
  }

  /** `onInput`. */
  method OnInput(input: InputElement)
    modifies input
    ensures input.value == IntegerValue(old(input.value))
  {
    var value := Digits(input.value);
    if |value| > 1 && value[0] == '0' {
      value := StripLeadingZeros(value);
    }
    input.value := value;
  }

  /** `onKeyDown`: `prevented` is whether `preventDefault()` is called. */
  method OnKeyDown(e: KeyEvent) returns (prevented: bool)
    ensures prevented <==> !KeyAllowed(IntegerEditingKeys, e)
  {
    prevented := FilterKey(IntegerEditingKeys, e);
  }

  /** `onPaste`: the default paste is cancelled and the field set to every
      digit of the pasted text, with no length limit; `None` stands for a
      paste event without clipboard data. */
  method OnPaste(input: InputElement, pasted: Option<string>)
    modifies input
    ensures input.value == Digits(pasted.GetOr(""))
    ensures AllDigits(input.value)
  {
    var pastedText := pasted.GetOr("");
    input.value := Digits(pastedText);
  }

  /** The `input` event `onPaste` dispatches runs `onInput` once on the pasted
      digits, which gives what typing the pasted text would, and keeps the
      number it spells. */
  lemma PasteThenInput(pasted: Option<string>)
    ensures IntegerValue(Digits(pasted.GetOr(""))) == IntegerValue(pasted.GetOr(""))
    ensures DecimalValue(IntegerValue(Digits(pasted.GetOr("")))) == DecimalValue(Digits(pasted.GetOr("")))
  {
    IntegerValueNumber(pasted.GetOr(""));
  }

  /** A paste as a whole: `onPaste`, then `onInput` for the event it
      dispatches (`onInput` itself dispatches nothing, so the chain ends). */
  method PasteEvent(input: InputElement, pasted: Option<string>)
    modifies input
    ensures input.value == IntegerValue(pasted.GetOr(""))
    ensures DecimalValue(input.value) == DecimalValue(Digits(pasted.GetOr("")))
  {
    OnPaste(input, pasted);
    OnInput(input);
    PasteThenInput(pasted);
  }
}
