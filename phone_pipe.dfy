/** `PhonePipe`: displays a stored phone number as `(dd) dddd-dddd` or
    `(dd) ddddd-dddd`. */
module PhonePipe {
  import opened Common
  import PhoneMask

  /** `\d{width}` matches at position `q` of `s`. */
  predicate RunAt(s: string, width: nat, q: nat) {
    q + width <= |s| && AllDigits(s[q..q + width])
  }

  /** The first position at or after `from` where `width` digits in a row
      start, as the leftmost match of `\d{width}` is found. */
  function FindDigitRun(s: string, width: nat, from: nat): (p: Option<nat>)
    decreases |s| - from
    ensures p.Some? ==> from <= p.value && RunAt(s, width, p.value)
    ensures p.Some? ==> forall q: nat :: from <= q < p.value ==> !RunAt(s, width, q)
    ensures p.None? ==> forall q: nat :: from <= q ==> !RunAt(s, width, q)
  {
    if from + width > |s| then None
    else if AllDigits(s[from..from + width]) then Some(from)
    else FindDigitRun(s, width, from + 1)
  }

  /** `s.replace(/(\d{a})(\d{b})(\d{c})/, '($1) $2-$3')`: only the first
      match is rewritten; without a match `s` is returned as it is. */
  function FormatFirstRun(s: string, a: nat, b: nat, c: nat): string {
    match FindDigitRun(s, a + b + c, 0)
    case None => s
    case Some(p) =>
      s[..p] + "(" + s[p..p + a] + ") " + s[p + a..p + a + b] + "-" + s[p + a + b..p + a + b + c]
      + s[p + a + b + c..]
  }

  /** `transform`: `null`, `undefined` and `""` give `""`; otherwise the
      digits are formatted as a landline when there are at most ten, and as a
      mobile number when there are more. */
  function Transform(value: Option<string>): string {
    if value.None? || value.value == "" then ""
    else
      var numbers := Digits(value.value);
      if |numbers| <= 10 then FormatFirstRun(numbers, 2, 4, 4)
      else FormatFirstRun(numbers, 2, 5, 4)
  }

  /** In a string of digits the leftmost run starts at the front. */
  lemma FirstRunAtFront(s: string, width: nat)
    requires AllDigits(s)
    ensures FindDigitRun(s, width, 0) == if width <= |s| then Some(0) else None
  {
    if width <= |s| {
      assert AllDigits(s[0..width]);
    }
  }

  /** On a string of digits the first run, when it fits, starts at the
      front. */
  lemma FormatDigits(n: string, a: nat, b: nat, c: nat)
    requires AllDigits(n)
    ensures a + b + c > |n| ==> FormatFirstRun(n, a, b, c) == n
    ensures a + b + c <= |n| ==>
      FormatFirstRun(n, a, b, c) == "(" + n[..a] + ") " + n[a..a + b] + "-" + n[a + b..a + b + c] + n[a + b + c..]
  {
    FirstRunAtFront(n, a + b + c);
    assert n[..0] == [];
  }

  /** `transform` by digit count: no value gives `""`; fewer than ten digits
      are shown bare because the pattern does not match; ten give
      `(dd) dddd-dddd`; eleven or more give `(dd) ddddd-dddd` followed by the
      remaining digits. */
  lemma TransformCases(value: Option<string>)
    ensures value.None? || value.value == "" ==> Transform(value) == ""
    ensures value.Some? && |Digits(value.value)| < 10 ==> Transform(value) == Digits(value.value)
    ensures value.Some? && |Digits(value.value)| == 10 ==>
      var n := Digits(value.value);
      Transform(value) == "(" + n[..2] + ") " + n[2..6] + "-" + n[6..] && |Transform(value)| == 14
    ensures value.Some? && |Digits(value.value)| > 10 ==>
      var n := Digits(value.value);
      Transform(value) == "(" + n[..2] + ") " + n[2..7] + "-" + n[7..11] + n[11..]
  {
    if value.Some? && value.value != "" {
      var n := Digits(value.value);
      if |n| <= 10 {
        FormatDigits(n, 2, 4, 4);
        if |n| == 10 {
          assert n[6..10] + n[10..] == n[6..];
        }
      } else {
        FormatDigits(n, 2, 5, 4);
      }
    } else if value.Some? {
      assert Digits(value.value) == [];
    }
  }

  predicate IsPhoneChar(c: char) {
    IsDigit(c) || c == '(' || c == ')' || c == ' ' || c == '-'
  }

  predicate AllPhoneChars(s: string) {
    forall i :: 0 <= i < |s| ==> IsPhoneChar(s[i])
  }

  lemma AllPhoneCharsConcat(x: string, y: string)
    requires AllPhoneChars(x) && AllPhoneChars(y)
    ensures AllPhoneChars(x + y)
  {
    forall i | 0 <= i < |x + y| ensures IsPhoneChar((x + y)[i]) {
      if i >= |x| {
        assert (x + y)[i] == y[i - |x|];
      }
    }
  }

  /** A number punctuated as `(a) b-c` followed by `rest` keeps its digits. */
  lemma PunctuatedDigits(a: string, b: string, c: string, rest: string)
    requires AllDigits(a) && AllDigits(b) && AllDigits(c) && AllDigits(rest)
    ensures Digits("(" + a + ") " + b + "-" + c + rest) == a + b + c + rest
  {
    var shown := "(" + a + ") " + b + "-" + c;
    PhoneMask.DigitsOfPunctuated(a, b, c);
    DigitsAppend(shown, rest);
  }

  /** A number punctuated as `(a) b-c` followed by `rest` uses only phone
      characters. */
  lemma PunctuatedChars(a: string, b: string, c: string, rest: string)
    requires AllDigits(a) && AllDigits(b) && AllDigits(c) && AllDigits(rest)
    ensures AllPhoneChars("(" + a + ") " + b + "-" + c + rest)
  {
    var open, close, dash := "(", ") ", "-";
    assert AllPhoneChars(open) && AllPhoneChars(close) && AllPhoneChars(dash);
    AllPhoneCharsConcat(open, a);
    AllPhoneCharsConcat(open + a, close);
    AllPhoneCharsConcat(open + a + close, b);
    AllPhoneCharsConcat(open + a + close + b, dash);
    AllPhoneCharsConcat(open + a + close + b + dash, c);
    AllPhoneCharsConcat(open + a + close + b + dash + c, rest);
  }

  lemma LandlineDisplay(n: string)
    requires AllDigits(n) && |n| == 10
    ensures var shown := "(" + n[..2] + ") " + n[2..6] + "-" + n[6..];
      AllPhoneChars(shown) && Digits(shown) == n
  {
    PunctuatedDigits(n[..2], n[2..6], n[6..], "");
    PunctuatedChars(n[..2], n[2..6], n[6..], "");
    assert "(" + n[..2] + ") " + n[2..6] + "-" + n[6..] + "" == "(" + n[..2] + ") " + n[2..6] + "-" + n[6..];
    assert n[..2] + n[2..6] + n[6..] + "" == n;
  }

  lemma MobileDisplay(n: string)
    requires AllDigits(n) && |n| > 10
    ensures var shown := "(" + n[..2] + ") " + n[2..7] + "-" + n[7..11] + n[11..];
      AllPhoneChars(shown) && Digits(shown) == n
  {
    PunctuatedDigits(n[..2], n[2..7], n[7..11], n[11..]);
    PunctuatedChars(n[..2], n[2..7], n[7..11], n[11..]);
    assert n[..2] + n[2..7] + n[7..11] + n[11..] == n;
  }

  /** The display holds nothing but digits and the punctuation `(`, `)`,
      space and `-`, and its digits are those of the stored value, in order. */
  lemma TransformKeepsDigits(value: Option<string>)
    ensures AllPhoneChars(Transform(value))
    ensures Digits(Transform(value)) == Digits(value.GetOr(""))
  {
    TransformCases(value);
    if value.Some? && value.value != "" {
      var n := Digits(value.value);
      if |n| < 10 {
        assert AllPhoneChars(n);
      } else if |n| == 10 {
        LandlineDisplay(n);
      } else {
        MobileDisplay(n);
      }
    }
  }

  /** Formatting what the pipe displayed gives the same display. */
  lemma TransformIdempotent(value: Option<string>)
    ensures Transform(Some(Transform(value))) == Transform(value)
  {
    TransformKeepsDigits(value);
    TransformCases(value);
    TransformCases(Some(Transform(value)));
  }

  /** For a full mobile number of eleven digits the pipe shows exactly what
      the phone mask writes into the field. */
  lemma TransformAgreesWithMask(d: string)
    requires AllDigits(d) && |d| == 11
    ensures Transform(Some(d)) == PhoneMask.Mask(d)
  {
    TransformCases(Some(d));
    PhoneMask.MaskShape(d);
    assert d[7..11] + d[11..] == d[7..];
  }
}
