/**
 * Rendering of natural numbers and integers as digit strings, as Python's
 * `str()` does for an `int` (decimal) and for a MongoDB ObjectId (hexadecimal),
 * together with the parsers that undo them.
 */
module Numerals {

  /** A digit of `base`, lower-case as Python and bson print them. */
  predicate IsDigit(c: char, base: nat) {
    ('0' <= c <= '9' && (c - '0') as int < base) ||
    ('a' <= c <= 'f' && (c - 'a') as int + 10 < base)
  }

  predicate AllDigits(s: string, base: nat) {
    forall i :: 0 <= i < |s| ==> IsDigit(s[i], base)
  }

  function DigitChar(d: nat): (c: char)
    requires d < 16
    ensures IsDigit(c, d + 1)
    ensures c == '0' <==> d == 0
  {
    if d < 10 then ('0' as int + d) as char else ('a' as int + d - 10) as char
  }

  /** The value of a digit character; DigitChar undone. */
  function DigitValue(c: char): (d: nat)
    requires IsDigit(c, 16)
    ensures d < 16 && DigitChar(d) == c
    ensures forall base :: IsDigit(c, base) <==> d < base
  {
    if '0' <= c <= '9' then (c - '0') as nat else (c - 'a') as nat + 10
  }

  /** `n` written in `base`, most significant digit first, with no leading zero. */
  function Show(n: nat, base: nat): (s: string)
    requires 2 <= base <= 16
    ensures |s| >= 1 && AllDigits(s, base)
    ensures |s| > 1 ==> s[0] != '0'
    decreases n
  {
    if n < base then [DigitChar(n)]
    else
      var q, r := n / base, n % base;
      assert 1 <= q < n && r < base by { DivBounds(n, base); }
      Show(q, base) + [DigitChar(r)]
  }

  lemma DivBounds(n: nat, base: nat)
    requires 2 <= base <= n
    ensures 1 <= n / base < n && n % base < base
    ensures n == n / base * base + n % base
  {
  }

  /** The number a digit string denotes (Horner's rule from the last digit). */
  function Read(s: string, base: nat): nat
    requires 2 <= base <= 16
    requires AllDigits(s, base)
  {
    if s == [] then 0
    else Read(s[..|s| - 1], base) * base + DigitValue(s[|s| - 1])
  }

  lemma {:induction false} ReadShow(n: nat, base: nat)
    requires 2 <= base <= 16
    ensures Read(Show(n, base), base) == n
    decreases n
  {
    var s := Show(n, base);
    if n < base {
      assert s[..0] == [];
    } else {
      DivBounds(n, base);
      ReadShow(n / base, base);
      assert s[..|s| - 1] == Show(n / base, base);
      assert DigitValue(s[|s| - 1]) == n % base;
    }
  }

  /** Leading zeros do not change the value of a digit string. */
  lemma {:induction false} ReadLeadingZeros(k: nat, s: string, base: nat)
    requires 2 <= base <= 16
    requires AllDigits(s, base)
    ensures AllDigits(seq(k, _ => '0') + s, base)
    ensures Read(seq(k, _ => '0') + s, base) == Read(s, base)
    decreases |s| + k
  {
    var z := seq(k, _ => '0');
    var zs := z + s;
    assert AllDigits(zs, base) by {
      forall i | 0 <= i < |zs| ensures IsDigit(zs[i], base) {
        if i >= k { assert zs[i] == s[i - k]; }
      }
    }
    if s == [] {
      assert zs == z;
      if k > 0 {
        ReadLeadingZeros(k - 1, [], base);
        assert zs[..|zs| - 1] == seq(k - 1, _ => '0') + [];
      }
    } else {
      var t := s[..|s| - 1];
      ReadLeadingZeros(k, t, base);
      assert zs[..|zs| - 1] == z + t;
      assert zs[|zs| - 1] == s[|s| - 1];
    }
  }

  /** Python's `str()` of an int: decimal, with a leading '-' when negative. */
  function ShowInt(n: int): (s: string)
    ensures |s| >= 1
    ensures n < 0 <==> s[0] == '-'
    ensures AllDigits(if n < 0 then s[1..] else s, 10)
  {
    if n < 0 then "-" + Show(-n, 10) else Show(n, 10)
  }

  /** Python's `int()` of a decimal string with an optional leading '-'. */
  function ReadInt(s: string): int
    requires |s| >= 1
    requires AllDigits(if s[0] == '-' then s[1..] else s, 10)
  {
    if s[0] == '-' then -(Read(s[1..], 10) as int) else Read(s, 10)
  }

  lemma ReadShowInt(n: int)
    ensures ReadInt(ShowInt(n)) == n
  {
    if n < 0 {
      ReadShow(-n, 10);
      assert ShowInt(n)[1..] == Show(-n, 10);
    } else {
      ReadShow(n, 10);
    }
  }

  function Pow16(w: nat): (p: nat)
    ensures p >= 1
  {
    if w == 0 then 1 else 16 * Pow16(w - 1)
  }

  /** Writing a value below 16^w takes at most w digits. */
  lemma {:induction false} ShowWidth(n: nat, w: nat)
    requires 1 <= w
    ensures n < Pow16(w) ==> |Show(n, 16)| <= w
    decreases w
  {
    if n >= 16 && n < Pow16(w) {
      assert w > 1;
      ShowWidth(n / 16, w - 1);
    }
  }

  /**
   * The text bson gives an ObjectId: its value in lower-case hexadecimal,
   * padded with '0' on the left to 24 digits, exactly 24 for every 96-bit value.
   */
  function HexId(n: nat): (s: string)
    ensures n < Pow16(24) ==> |s| == 24
    ensures |s| >= 24 && AllDigits(s, 16)
  {
    var digits := Show(n, 16);
    ShowWidth(n, 24);
    if |digits| < 24 then
      ReadLeadingZeros(24 - |digits|, digits, 16);
      seq(24 - |digits|, _ => '0') + digits
    else digits
  }

  lemma HexIdRoundTrip(n: nat)
    ensures Read(HexId(n), 16) == n
  {
    var s := Show(n, 16);
    ReadShow(n, 16);
    if |s| < 24 {
      ReadLeadingZeros(24 - |s|, s, 16);
    }
  }

  /** Distinct ObjectIds have distinct hexadecimal texts. */
  lemma HexIdInjective(m: nat, n: nat)
    requires HexId(m) == HexId(n)
    ensures m == n
  {
    HexIdRoundTrip(m);
    HexIdRoundTrip(n);
  }
}
