/**
  The JavaScript values and built-in string and number operations that the
  screens rely on: truthiness, property access with `undefined` for missing
  keys, `String(n)`, `padStart`, `parseInt`, `toLowerCase` and `includes`.
*/
module Js {
  import opened Calendar

  datatype Option<+T> = None | Some(value: T)

  /** The primitive values records and form fields hold: `undefined`/`null`,
      whole numbers (ids, and amounts in cents), strings and dates. */
  datatype Value = Undefined | Num(n: int) | Text(s: string) | Day(date: CalendarDate)

  /** `!v`: `undefined`, `null`, `0` and `""` are falsy, everything else is truthy. */
  predicate IsFalsy(v: Value) {
    v == Undefined || v == Num(0) || v == Text("")
  }

  /** Property access `o[k]`: a missing key reads as `undefined`. */
  function Get(o: map<string, Value>, k: string): Value {
    if k in o then o[k] else Undefined
  }

  // ---------------------------------------------------------------- digits

  predicate IsDigit(c: char) { '0' <= c <= '9' }

  predicate AllDigits(s: string) {
    forall i :: 0 <= i < |s| ==> IsDigit(s[i])
  }

  function DigitChar(d: nat): (c: char)
    requires d < 10
    ensures IsDigit(c) && c as int - '0' as int == d
  {
    ('0' as int + d) as char
  }

  function Pow10(k: nat): (r: nat)
    ensures r >= 1
  {
    if k == 0 then 1 else 10 * Pow10(k - 1)
  }

  /** The number a string of decimal digits denotes, most significant digit first. */
  function DigitsValue(s: string): (v: nat)
    requires AllDigits(s)
    ensures v < Pow10(|s|)
  {
    if s == [] then 0 else DigitsValue(s[..|s| - 1]) * 10 + (s[|s| - 1] as int - '0' as int)
  }

  /** `String(n)` for a non-negative whole number: its shortest decimal form. */
  function NatToString(n: nat): (r: string)
    ensures |r| >= 1 && AllDigits(r)
    ensures r[0] == '0' ==> n == 0
  {
    if n < 10 then [DigitChar(n)] else NatToString(n / 10) + [DigitChar(n % 10)]
  }

  /** `String(i)` for a whole number, with a leading `-` when negative. */
  function IntToString(i: int): string {
    if i < 0 then "-" + NatToString(-i) else NatToString(i)
  }

  lemma {:induction false} DigitsValueOfNatToString(n: nat)
    ensures DigitsValue(NatToString(n)) == n
  {
    var s := NatToString(n);
    if n >= 10 {
      DigitsValueOfNatToString(n / 10);
      assert s[..|s| - 1] == NatToString(n / 10);
    } else {
      assert s[..|s| - 1] == [];
    }
  }

  lemma {:induction false} NatToStringLength(n: nat, k: nat)
    requires 1 <= k && n < Pow10(k)
    ensures |NatToString(n)| <= k
  {
    if n >= 10 {
      assert k >= 2;
      NatToStringLength(n / 10, k - 1);
    }
  }

  /** A decimal form is at least as long as the number of digits its value needs. */
  lemma NatToStringLengthAtLeast(n: nat, k: nat)
    requires Pow10(k) <= n
    ensures |NatToString(n)| > k
  {
    DigitsValueOfNatToString(n);
    var len := |NatToString(n)|;
    if len <= k { assert false; }
  }

  lemma {:induction false} ZerosValue(z: string)
    requires forall i :: 0 <= i < |z| ==> z[i] == '0'
    ensures AllDigits(z) && DigitsValue(z) == 0
  {
    if z != [] { ZerosValue(z[..|z| - 1]); }
  }

  /** Leading zeros do not change the value of a digit string. */
  lemma {:induction false} LeadingZerosValue(z: string, s: string)
    requires forall i :: 0 <= i < |z| ==> z[i] == '0'
    requires AllDigits(s)
    ensures AllDigits(z + s) && DigitsValue(z + s) == DigitsValue(s)
  {
    ZerosValue(z);
    if s == [] {
      assert z + s == z;
    } else {
      LeadingZerosValue(z, s[..|s| - 1]);
      assert (z + s)[..|z + s| - 1] == z + s[..|s| - 1];
    }
  }

  /** Two digit strings of the same length with the same value are the same string. */
  lemma {:induction false} DigitsValueInjective(s: string, t: string)
    requires AllDigits(s) && AllDigits(t) && |s| == |t|
    requires DigitsValue(s) == DigitsValue(t)
    ensures s == t
  {
    if s != [] {
      var n := |s| - 1;
      var a, b := DigitsValue(s[..n]), DigitsValue(t[..n]);
      var x, y := s[n] as int - '0' as int, t[n] as int - '0' as int;
      assert a * 10 + x == b * 10 + y;
      assert x == y && a == b;
      DigitsValueInjective(s[..n], t[..n]);
      assert s == s[..n] + [s[n]];
      assert t == t[..n] + [t[n]];
    }
  }

  // ---------------------------------------------------------------- padStart

  function Repeat(c: char, n: nat): (r: string)
    ensures |r| == n && forall i :: 0 <= i < n ==> r[i] == c
  {
    seq(n, _ => c)
  }

  /** `s.padStart(k, c)` with a one-character filler. */
  function PadStart(s: string, k: nat, c: char): (r: string)
    ensures |r| == if |s| < k then k else |s|
  {
    if |s| < k then Repeat(c, k - |s|) + s else s
  }

  /** `String(n).padStart(k, "0")` of a number below 10^k is `k` digits denoting `n`. */
  lemma PadStartValue(n: nat, k: nat)
    requires 1 <= k && n < Pow10(k)
    ensures var p := PadStart(NatToString(n), k, '0');
      |p| == k && AllDigits(p) && DigitsValue(p) == n
  {
    var t := NatToString(n);
    NatToStringLength(n, k);
    DigitsValueOfNatToString(n);
    if |t| < k {
      LeadingZerosValue(Repeat('0', k - |t|), t);
    }
  }

  /** Zero-padding the decimal form of a digit string's value to its length gives the string back. */
  lemma PadStartRestoresDigits(s: string)
    requires |s| >= 1 && AllDigits(s)
    ensures PadStart(NatToString(DigitsValue(s)), |s|, '0') == s
  {
    var v := DigitsValue(s);
    var t := NatToString(v);
    NatToStringLength(v, |s|);
    DigitsValueOfNatToString(v);
    var p := PadStart(t, |s|, '0');
    if |t| < |s| {
      LeadingZerosValue(Repeat('0', |s| - |t|), t);
    }
    DigitsValueInjective(p, s);
  }

  // ---------------------------------------------------------------- parseInt

  /** The ASCII white-space characters (the ones `\s`, `\S` and `parseInt` treat as spaces). */
  predicate IsSpace(c: char) {
    c == ' ' || c == '\t' || c == '\n' || c == '\r' || c as int == 0x0B || c as int == 0x0C
  }

  function TrimStart(s: string): (r: string)
    ensures r == [] || !IsSpace(r[0])
  {
    if s != [] && IsSpace(s[0]) then TrimStart(s[1..]) else s
  }

  /** The longest prefix of `s` made of decimal digits. */
  function LeadingDigits(s: string): (r: string)
    ensures |r| <= |s| && r == s[..|r|] && AllDigits(r)
    ensures |r| < |s| ==> !IsDigit(s[|r|])
  {
    if s != [] && IsDigit(s[0]) then [s[0]] + LeadingDigits(s[1..]) else []
  }

  /** `parseInt(s)` with no radix: leading spaces skipped, an optional sign, then the
      longest run of digits; `None` stands for `NaN` (no digit at all). */
  function ParseInt(s: string): (r: Option<int>)
    ensures s == [] ==> r == None
    ensures s != [] && AllDigits(s) ==> r == Some(DigitsValue(s))
    ensures |s| >= 2 && s[0] == '-' && AllDigits(s[1..]) ==> r == Some(-(DigitsValue(s[1..]) as int))
  {
    assert AllDigits(s) ==> LeadingDigits(s) == s by {
      if AllDigits(s) { AllDigitsAreLeading(s); }
    }
    assert |s| >= 2 && AllDigits(s[1..]) ==> LeadingDigits(s[1..]) == s[1..] by {
      if |s| >= 2 && AllDigits(s[1..]) { AllDigitsAreLeading(s[1..]); }
    }
    assert s != [] && (IsDigit(s[0]) || s[0] == '-') ==> TrimStart(s) == s;
    var t := TrimStart(s);
    var negative := t != [] && t[0] == '-';
    var u := if t != [] && (t[0] == '-' || t[0] == '+') then t[1..] else t;
    var ds := LeadingDigits(u);
    var v: int := DigitsValue(ds);
    if ds == [] then None else Some(if negative then -v else v)
  }

  /** `parseInt(String(i)) === i`: an id rendered as an option value reads back as the same id. */
  lemma ParseIntOfIntToString(i: int)
    ensures ParseInt(IntToString(i)) == Some(i)
  {
    var n: nat := if i < 0 then -i else i;
    DigitsValueOfNatToString(n);
    if i < 0 {
      assert IntToString(i)[1..] == NatToString(n);
    }
  }

  lemma {:induction false} AllDigitsAreLeading(s: string)
    requires AllDigits(s)
    ensures LeadingDigits(s) == s
  {
    if s != [] { AllDigitsAreLeading(s[1..]); }
  }

  // ---------------------------------------------------------------- text

  /** A string's `.length`: its UTF-16 code units, so a character above U+FFFF counts twice. */
  function Utf16Length(s: string): (n: nat)
    ensures |s| <= n <= 2 * |s|
    ensures (forall i :: 0 <= i < |s| ==> s[i] as int <= 0xFFFF) ==> n == |s|
    ensures (forall i :: 0 <= i < |s| ==> s[i] as int > 0xFFFF) ==> n == 2 * |s|
    ensures |s| == 1 ==> n == if s[0] as int > 0xFFFF then 2 else 1
  {
    if s == [] then 0 else (if s[0] as int > 0xFFFF then 2 else 1) + Utf16Length(s[1..])
  }

  /** The code units of a concatenation are those of its parts, so with the one-character
      case above the length of any text is fixed character by character. */
  lemma {:induction false} Utf16LengthConcat(a: string, b: string)
    ensures Utf16Length(a + b) == Utf16Length(a) + Utf16Length(b)
  {
    if a != [] {
      Utf16LengthConcat(a[1..], b);
      assert (a + b)[1..] == a[1..] + b;
    } else {
      assert a + b == b;
    }
  }

  /** Mixed text: two ASCII letters and one emoji are four code units. */
  lemma Utf16LengthMixed()
    ensures Utf16Length("ab\U{1F600}") == 4
  {
  }

  function LowerChar(c: char): char {
    if 'A' <= c <= 'Z' then (c as int + 32) as char else c
  }

  function UpperChar(c: char): char {
    if 'a' <= c <= 'z' then (c as int - 32) as char else c
  }

  /** `s.toLowerCase()`, on the ASCII letters. */
  function ToLower(s: string): (r: string)
    ensures |r| == |s| && forall i :: 0 <= i < |s| ==> r[i] == LowerChar(s[i])
  {
    seq(|s|, i requires 0 <= i < |s| => LowerChar(s[i]))
  }

  /** `s.toUpperCase()`, on the ASCII letters. */
  function ToUpper(s: string): (r: string)
    ensures |r| == |s| && forall i :: 0 <= i < |s| ==> r[i] == UpperChar(s[i])
  {
    seq(|s|, i requires 0 <= i < |s| => UpperChar(s[i]))
  }

  /** Lower-casing does not depend on the case the text was typed in. */
  lemma ToLowerIgnoresCase(s: string)
    ensures ToLower(ToLower(s)) == ToLower(s)
    ensures ToLower(ToUpper(s)) == ToLower(s)
  {
  }

  /** `t` occurs in `s` starting at index `i`. */
  predicate OccursAt(s: string, t: string, i: nat) {
    i + |t| <= |s| && s[i..i + |t|] == t
  }

  /** `s.includes(t)`: scans `s` from the left for an occurrence of `t`. */
  predicate Includes(s: string, t: string) {
    if |t| > |s| then false
    else if s[..|t|] == t then true
    else Includes(s[1..], t)
  }

  /** The scan finds `t` exactly when `t` occurs somewhere in `s` (the empty string occurs everywhere). */
  lemma {:induction false} IncludesIffOccurs(s: string, t: string)
    ensures Includes(s, t) <==> exists i: nat :: OccursAt(s, t, i)
  {
    if |t| > |s| {
      forall i: nat ensures !OccursAt(s, t, i) { }
    } else if s[..|t|] == t {
      assert OccursAt(s, t, 0);
    } else {
      IncludesIffOccurs(s[1..], t);
      forall i: nat | OccursAt(s[1..], t, i) ensures OccursAt(s, t, i + 1) {
        assert s[1..][i..i + |t|] == s[i + 1..i + 1 + |t|];
      }
      forall i: nat | OccursAt(s, t, i) ensures i >= 1 && OccursAt(s[1..], t, i - 1) {
        assert s[1..][i - 1..i - 1 + |t|] == s[i..i + |t|];
      }
    }
  }
}
