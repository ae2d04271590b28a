/** Values and string operations shared by every part of the model: optional
    values, the failures an observable can carry, JavaScript truthiness, and the
    few `String.prototype` operations the application relies on. */
module Common {

  datatype Option<+T> = None | Some(value: T) {
    function GetOr(default: T): T {
      match this
      case Some(v) => v
      case None => default
    }
  }

  datatype Result<+T, +E> = Ok(value: T) | Err(error: E)

  /** What an observable errors with: an `HttpErrorResponse` with its status
      (0 for a transport failure) or an `Error` thrown locally with a message. */
  datatype Failure = HttpFailure(status: int) | Thrown(message: string)

  function Min(a: int, b: int): int { if a <= b then a else b }

  /** JavaScript truthiness of a `string | null`: `null` and `""` are falsy. */
  predicate Truthy(s: Option<string>) {
    s.Some? && s.value != ""
  }

  /** `\d` in a JavaScript regular expression: the ASCII digits only. */
  predicate IsDigit(c: char) {
    '0' <= c <= '9'
  }

  predicate AllDigits(s: string) {
    forall i :: 0 <= i < |s| ==> IsDigit(s[i])
  }

  /** `s.replace(/\D/g, '')`: the digits of `s`, in order. */
  function Digits(s: string): (d: string)
    ensures AllDigits(d)
    ensures |d| <= |s|
    ensures AllDigits(s) ==> d == s
  {
    if s == [] then []
    else (if IsDigit(s[0]) then [s[0]] else []) + Digits(s[1..])
  }

  lemma {:induction false} DigitsAppend(a: string, b: string)
    ensures Digits(a + b) == Digits(a) + Digits(b)
  {
    if a == [] {
      assert a + b == b;
    } else {
      assert (a + b)[0] == a[0];
      assert (a + b)[1..] == a[1..] + b;
      DigitsAppend(a[1..], b);
    }
  }

  /** A string with no digit in it contributes nothing to `Digits`. */
  lemma {:induction false} DigitsOfNonDigits(s: string)
    requires forall i :: 0 <= i < |s| ==> !IsDigit(s[i])
    ensures Digits(s) == []
  {
    if s != [] {
      DigitsOfNonDigits(s[1..]);
    }
  }

  /** `s.substring(start, end)` for `start <= end`: both bounds are clamped to
      the length of `s`. */
  function Substring(s: string, start: nat, end: nat): (r: string)
    requires start <= end
    ensures |r| == Min(end, |s|) - Min(start, |s|)
    ensures forall k :: 0 <= k < |r| ==> r[k] == s[start + k]
  {
    s[Min(start, |s|)..Min(end, |s|)]
  }

  /** The white space and line terminators that `String.prototype.trim` removes. */
  predicate IsJsWhitespace(c: char) {
    c == '\t' || c == '\n' || c == '\U{B}' || c == '\U{C}' || c == '\r' || c == ' '
    || c == '\U{A0}' || c == '\U{1680}' || ('\U{2000}' <= c <= '\U{200A}')
    || c == '\U{2028}' || c == '\U{2029}' || c == '\U{202F}' || c == '\U{205F}'
    || c == '\U{3000}' || c == '\U{FEFF}'
  }

  function TrimStart(s: string): (r: string)
    ensures |r| <= |s| && r == s[|s| - |r|..]
    ensures r != [] ==> !IsJsWhitespace(r[0])
    ensures forall i :: 0 <= i < |s| - |r| ==> IsJsWhitespace(s[i])
  {
    if s != [] && IsJsWhitespace(s[0]) then TrimStart(s[1..]) else s
  }

  function TrimEnd(s: string): (r: string)
    ensures |r| <= |s| && r == s[..|r|]
    ensures r != [] ==> !IsJsWhitespace(r[|r| - 1])
    ensures forall i :: |r| <= i < |s| ==> IsJsWhitespace(s[i])
  {
    if s != [] && IsJsWhitespace(s[|s| - 1]) then TrimEnd(s[..|s| - 1]) else s
  }

  /** `s.trim()`. */
  function Trim(s: string): string {
    TrimEnd(TrimStart(s))
  }

  /** A field is rejected by `!field.trim()` exactly when every character of it
      is white space. */
  lemma TrimEmptyIffBlank(s: string)
    ensures Trim(s) == [] <==> forall i :: 0 <= i < |s| ==> IsJsWhitespace(s[i])
  {
    var t := TrimStart(s);
    if Trim(s) != [] {
      assert !IsJsWhitespace(t[0]);
      assert s[|s| - |t|] == t[0];
    }
  }

  /** No white space at either end. */
  predicate Trimmed(s: string) {
    s == [] || (!IsJsWhitespace(s[0]) && !IsJsWhitespace(s[|s| - 1]))
  }

  /** A string without white space at its ends is its own trim. */
  lemma TrimmedIsFixed(t: string)
    requires Trimmed(t)
    ensures Trim(t) == t
  {
    assert TrimStart(t) == t;
  }

  /** `trim()` leaves no white space at either end, so trimming twice is
      trimming once. */
  lemma TrimTrims(s: string)
    ensures Trimmed(Trim(s))
    ensures Trim(Trim(s)) == Trim(s)
  {
    var u := TrimStart(s);
    var t := TrimEnd(u);
    if t != [] {
      assert t[0] == u[0];
    }
    TrimmedIsFixed(t);
  }

  /** `s.toLowerCase()` on the ASCII letters; every other character is kept. */
  function ToLowerAscii(s: string): (r: string)
    ensures |r| == |s|
  {
    if s == [] then []
    else [if 'A' <= s[0] <= 'Z' then (s[0] as int + 32) as char else s[0]] + ToLowerAscii(s[1..])
  }
}
