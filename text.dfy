/** String facts the controller relies on: JavaScript's case-sensitive
    `String.prototype.includes`, and the decimal text a template literal
    produces for an integer. */
module Text {

  /** `w` occurs in `s` starting at index `i`. */
  predicate OccursAt(s: string, w: string, i: nat) {
    i + |w| <= |s| && s[i..i + |w|] == w
  }

  /** `s.includes(w)`: some window of `s` equals `w` (so every string
      includes the empty string). */
  predicate Includes(s: string, w: string) {
    exists i: nat | i <= |s| :: OccursAt(s, w, i)
  }

  /** A witness index is enough to show inclusion. */
  lemma IncludesWithin(a: string, m: string, b: string, w: string)
    requires Includes(m, w)
    ensures Includes(a + m + b, w)
  {
    var i: nat :| i <= |m| && OccursAt(m, w, i);
    assert i + |w| <= |m|;
    assert (a + m + b)[|a| + i..|a| + i + |w|] == m[i..i + |w|];
    assert OccursAt(a + m + b, w, |a| + i);
  }

  /** If some letter of `w` never appears in `s`, then `s` does not include `w`. */
  lemma AbsentLetter(s: string, w: string, k: nat)
    requires k < |w|
    requires forall j :: 0 <= j < |s| ==> s[j] != w[k]
    ensures !Includes(s, w)
  {
    forall i: nat | i + |w| <= |s| ensures !OccursAt(s, w, i) {
      assert s[i..i + |w|][k] == s[i + k];
    }
  }

  /** If the letter `w[k]` is never followed by `w[k + 1]` in `s`, then `s` does not include `w`. */
  lemma AbsentPair(s: string, w: string, k: nat)
    requires k + 1 < |w|
    requires forall j :: 0 <= j < |s| - 1 && s[j] == w[k] ==> s[j + 1] != w[k + 1]
    ensures !Includes(s, w)
  {
    forall i: nat | i + |w| <= |s| ensures !OccursAt(s, w, i) {
      assert s[i..i + |w|][k] == s[i + k] && s[i..i + |w|][k + 1] == s[i + k + 1];
    }
  }

  /** A middle part made only of letters foreign to `w` cuts every window: `a + d + b` includes `w`
      only if `a` or `b` does. */
  lemma ExcludesAcross(a: string, d: string, b: string, w: string)
    requires !Includes(a, w) && !Includes(b, w)
    requires |d| > 0
    requires forall j :: 0 <= j < |d| ==> d[j] !in w
    ensures !Includes(a + d + b, w)
  {
    var s := a + d + b;
    assert |w| > 0 by {
      if |w| == 0 {
        assert OccursAt(a, w, 0);
      }
    }
    forall i: nat | i + |w| <= |s| ensures !OccursAt(s, w, i) {
      if i + |w| <= |a| {
        assert s[i..i + |w|] == a[i..i + |w|];
        assert !OccursAt(a, w, i);
      } else if i >= |a| + |d| {
        var i': nat := i - |a| - |d|;
        assert s[|a| + |d|..] == b;
        assert s[i..i + |w|] == b[i'..i' + |w|];
        assert !OccursAt(b, w, i');
      } else {
        var p := if i < |a| then |a| else i;
        assert |a| <= p < |a| + |d| && i <= p < i + |w|;
        assert s[p] == d[p - |a|];
        assert s[i..i + |w|][p - i] == s[p];
        assert s[p] !in w;
      }
    }
  }

  predicate IsDigit(c: char) {
    '0' <= c <= '9'
  }

  function DigitValue(c: char): nat
    requires IsDigit(c)
  {
    c as int - '0' as int
  }

  function DigitChar(d: nat): (c: char)
    requires d < 10
    ensures IsDigit(c) && DigitValue(c) == d
  {
    ('0' as int + d) as char
  }

  /** The decimal numeral of `n`, as JavaScript writes a non-negative integer: no sign, no padding. */
  function NatToString(n: nat): (r: string)
    ensures |r| > 0
    ensures forall i :: 0 <= i < |r| ==> IsDigit(r[i])
    decreases n
  {
    if n < 10 then [DigitChar(n)] else NatToString(n / 10) + [DigitChar(n % 10)]
  }

  /** The value a string of digits denotes, read most significant digit first. */
  function DecimalValue(s: string): nat
    requires forall i :: 0 <= i < |s| ==> IsDigit(s[i])
  {
    if s == [] then 0 else DecimalValue(s[..|s| - 1]) * 10 + DigitValue(s[|s| - 1])
  }

  lemma {:induction false} DecimalRoundTrip(n: nat)
    ensures DecimalValue(NatToString(n)) == n
  {
    var s := NatToString(n);
    if n >= 10 {
      assert s[..|s| - 1] == NatToString(n / 10);
      DecimalRoundTrip(n / 10);
    }
  }

  /** The numeral of any integer: a leading minus sign for negative values. */
  function IntToString(n: int): (r: string)
    ensures |r| > 0
    ensures forall i :: 0 <= i < |r| ==> IsDigit(r[i]) || r[i] == '-'
  {
    if n < 0 then "-" + NatToString(-n) else NatToString(n)
  }

  /** Digits, with at most a leading minus sign. */
  predicate IsNumeral(s: string) {
    forall i :: 0 <= i < |s| ==> IsDigit(s[i]) || (i == 0 && s[i] == '-')
  }

  /** Reads back what `IntToString` writes. */
  function IntValue(s: string): int
    requires IsNumeral(s)
  {
    if |s| > 0 && s[0] == '-' then -(DecimalValue(s[1..]) as int) else DecimalValue(s)
  }

  lemma IntRoundTrip(n: int)
    ensures IsNumeral(IntToString(n)) && IntValue(IntToString(n)) == n
  {
    var r := IntToString(n);
    if n < 0 {
      assert r[1..] == NatToString(-n);
      DecimalRoundTrip(-n);
    } else {
      DecimalRoundTrip(n);
    }
  }
}
