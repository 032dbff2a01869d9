/**
 * Text helpers shared by both tiers: JavaScript's `String.prototype.trim`
 * and Python's `str.strip`, the blank test behind `not v.strip()` and
 * `form.estado.trim() || ...`, and the decimal rendering of an `int` that
 * Python's f-strings perform.
 */
module Strings {

  /**
   * The whitespace both `trim` and `strip` remove (the ASCII subset): the
   * space and the five control characters from tab to carriage return.
   */
  predicate IsSpace(c: char) {
    c == ' ' || '\t' <= c <= '\r'
  }

  /** Every character is whitespace (the empty string included). */
  predicate IsBlank(s: string) {
    forall i :: 0 <= i < |s| ==> IsSpace(s[i])
  }

  /** Neither the first nor the last character is whitespace. */
  predicate IsTrimmed(s: string) {
    s == [] || (!IsSpace(s[0]) && !IsSpace(s[|s| - 1]))
  }

  /**
   * Removes whitespace at both ends: the result has no whitespace at either
   * end and is empty exactly when `s` is blank; `TrimFrame` shows that what
   * it removes is whitespace only.
   */
  function Trim(s: string): (r: string)
    ensures IsTrimmed(r)
    ensures |r| <= |s|
    ensures r == [] <==> IsBlank(s)
  {
    if s == [] then s
    else if IsSpace(s[0]) then
      assert IsBlank(s) <==> IsBlank(s[1..]) by {
        if IsBlank(s[1..]) {
          forall i | 0 < i < |s| ensures IsSpace(s[i]) { assert s[i] == s[1..][i - 1]; }
        }
      }
      Trim(s[1..])
    else if IsSpace(s[|s| - 1]) then
      assert !IsBlank(s[..|s| - 1]) by { assert s[..|s| - 1][0] == s[0]; }
      Trim(s[..|s| - 1])
    else s
  }

  /** `r` is the slice of `s` at `k`, with only whitespace before and after it. */
  predicate FramedAt(s: string, r: string, k: nat) {
    k + |r| <= |s| && r == s[k..k + |r|] && IsBlank(s[..k]) && IsBlank(s[k + |r|..])
  }

  /** `Trim(s)` is the slice of `s` between a blank prefix and a blank suffix. */
  lemma {:induction false} TrimFrame(s: string)
    ensures exists k :: FramedAt(s, Trim(s), k)
  {
    var r := Trim(s);
    if s == [] {
      assert FramedAt(s, r, 0);
    } else if IsSpace(s[0]) {
      TrimFrame(s[1..]);
      var k :| FramedAt(s[1..], r, k);
      FramedDropFirst(s, r, k);
    } else if IsSpace(s[|s| - 1]) {
      TrimFrame(s[..|s| - 1]);
      var k :| FramedAt(s[..|s| - 1], r, k);
      FramedDropLast(s, r, k);
    } else {
      assert FramedAt(s, r, 0) by {
        assert s[0..|s|] == s;
      }
    }
  }

  lemma FramedDropFirst(s: string, r: string, k: nat)
    requires s != [] && IsSpace(s[0]) && FramedAt(s[1..], r, k)
    ensures FramedAt(s, r, k + 1)
  {
    assert s[1..][k..k + |r|] == s[k + 1..k + 1 + |r|];
    assert s[1..][k + |r|..] == s[k + 1 + |r|..];
    var lead := s[..k + 1];
    forall i | 0 <= i < |lead| ensures IsSpace(lead[i]) {
      if i > 0 { assert lead[i] == s[1..][..k][i - 1]; }
    }
  }

  lemma FramedDropLast(s: string, r: string, k: nat)
    requires s != [] && IsSpace(s[|s| - 1]) && FramedAt(s[..|s| - 1], r, k)
    ensures FramedAt(s, r, k)
  {
    var t := s[..|s| - 1];
    assert t[k..k + |r|] == s[k..k + |r|];
    assert t[..k] == s[..k];
    var tail := s[k + |r|..];
    forall i | 0 <= i < |tail| ensures IsSpace(tail[i]) {
      if i < |t| - (k + |r|) { assert tail[i] == t[k + |r|..][i]; }
    }
  }

  /** Trimming text that is already trimmed changes nothing. */
  lemma TrimTrimmed(s: string)
    requires IsTrimmed(s)
    ensures Trim(s) == s
  {
  }

  /** Trimming is idempotent. */
  lemma TrimIdempotent(s: string)
    ensures Trim(Trim(s)) == Trim(s)
  {
    TrimTrimmed(Trim(s));
  }

  /** Text that is non-empty and trimmed is not blank. */
  lemma TrimmedNonEmptyNotBlank(s: string)
    requires IsTrimmed(s) && s != []
    ensures !IsBlank(s)
  {
    assert !IsSpace(s[0]);
  }

  predicate IsDigit(c: char) {
    '0' <= c <= '9'
  }

  predicate AllDigits(s: string) {
    forall i :: 0 <= i < |s| ==> IsDigit(s[i])
  }

  function DigitChar(d: nat): (c: char)
    requires d < 10
    ensures IsDigit(c)
  {
    (48 + d) as char
  }

  function DigitValue(c: char): nat
    requires IsDigit(c)
  {
    c as int - 48
  }

  /** The number a string of decimal digits denotes, most significant first. */
  function DecimalValue(s: string): nat
    requires AllDigits(s)
  {
    if s == [] then 0 else 10 * DecimalValue(s[..|s| - 1]) + DigitValue(s[|s| - 1])
  }

  /**
   * Decimal digits of a natural number, most significant first, with no
   * leading zero: reading them back gives the number.
   */
  function NatToString(n: nat): (r: string)
    ensures r != [] && AllDigits(r)
    ensures DecimalValue(r) == n
    ensures r[0] == '0' ==> r == "0"
  {
    if n < 10 then [DigitChar(n)]
    else
      var front := NatToString(n / 10);
      var r := front + [DigitChar(n % 10)];
      assert r[..|r| - 1] == front;
      r
  }

  /**
   * Decimal rendering of an integer, as `f"{n}"` writes it: a minus sign
   * exactly for a negative number, followed by the digits of its magnitude
   * with no leading zero.
   */
  function IntToString(n: int): (r: string)
    ensures r != []
    ensures r[0] == '-' <==> n < 0
    ensures n < 0 ==> AllDigits(r[1..]) && DecimalValue(r[1..]) == -n
    ensures n >= 0 ==> AllDigits(r) && DecimalValue(r) == n
    ensures var d := if n < 0 then r[1..] else r; d != [] && (d[0] == '0' ==> d == "0")
  {
    if n < 0 then
      var r := "-" + NatToString(-n);
      assert r[1..] == NatToString(-n);
      r
    else NatToString(n)
  }
}
