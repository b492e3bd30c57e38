/**
 * Base-10 unsigned integers as the server reads and writes them: the `id` form
 * field of a `set` command is read with Go's `strconv.ParseUint(s, 10, 0)`, and
 * the payload of a `set` event carries the index written in decimal.
 */
module Decimal {
  import opened Types

  predicate IsDigit(c: char) { '0' <= c <= '9' }

  function DigitValue(c: char): (d: nat)
    requires IsDigit(c)
    ensures d < 10
  {
    c as int - '0' as int
  }

  function DigitChar(d: nat): (c: char)
    requires d < 10
    ensures IsDigit(c) && DigitValue(c) == d
  {
    ('0' as int + d) as char
  }

  predicate AllDigits(s: string) { forall i :: 0 <= i < |s| ==> IsDigit(s[i]) }

  /** The number a string of decimal digits denotes, most significant digit first. */
  function Value(s: string): nat
    requires AllDigits(s)
  {
    if s == [] then 0 else Value(s[..|s| - 1]) * 10 + DigitValue(s[|s| - 1])
  }

  /** The two ways `strconv.ParseUint` fails (`strconv.ErrSyntax`, `strconv.ErrRange`). */
  datatype NumError = ErrSyntax | ErrRange

  /**
   * `strconv.ParseUint(s, 10, 64)`: the empty string is a syntax error; the
   * digits are consumed left to right, and the first character that is not a
   * decimal digit gives a syntax error, unless the value read so far has
   * already left the 64-bit range, which gives a range error first.
   * There is no sign, no prefix and no digit separator in base 10.
   */
  function ParseUint(s: string): Result<uint64, NumError>
  {
    if s == [] then Err(ErrSyntax) else Scan(s, 0, 0)
  }

  /** The digit loop of `ParseUint`, with `n` the value of `s[..i]`. */
  function Scan(s: string, i: nat, n: uint64): Result<uint64, NumError>
    requires i <= |s|
    decreases |s| - i
  {
    if i == |s| then Ok(n)
    else if !IsDigit(s[i]) then Err(ErrSyntax)
    else if n * 10 + DigitValue(s[i]) > MAX_UINT64 then Err(ErrRange)
    else Scan(s, i + 1, n * 10 + DigitValue(s[i]))
  }

  /** The decimal text of `n` without leading zeros (`strconv.FormatUint(n, 10)`). */
  function FormatUint(n: nat): string
    decreases n
  {
    if n < 10 then [DigitChar(n)] else FormatUint(n / 10) + [DigitChar(n % 10)]
  }

  lemma {:induction false} ValueOfPrefix(s: string, i: nat)
    requires AllDigits(s) && i < |s|
    ensures AllDigits(s[..i + 1])
    ensures Value(s[..i + 1]) == Value(s[..i]) * 10 + DigitValue(s[i])
  {
    assert s[..i + 1][..i] == s[..i];
  }

  /** A prefix of a digit string never denotes more than the whole string. */
  lemma {:induction false} ValuePrefixAtMost(s: string, i: nat)
    requires AllDigits(s) && i <= |s|
    ensures Value(s[..i]) <= Value(s)
    decreases |s| - i
  {
    if i < |s| {
      ValueOfPrefix(s, i);
      ValuePrefixAtMost(s, i + 1);
    } else {
      assert s[..i] == s;
    }
  }

  lemma {:induction false} ScanCorrect(s: string, i: nat, n: uint64)
    requires i <= |s| && AllDigits(s[..i]) && Value(s[..i]) == n
    ensures Scan(s, i, n).Ok? <==> AllDigits(s) && Value(s) <= MAX_UINT64
    ensures Scan(s, i, n).Ok? ==> AllDigits(s) && Scan(s, i, n).value == Value(s)
    decreases |s| - i
  {
    if i == |s| {
      assert s[..i] == s;
    } else if !IsDigit(s[i]) {
    } else {
      var t := s[..i + 1];
      assert t[..i] == s[..i];
      assert AllDigits(t) by {
        forall j | 0 <= j < |t| ensures IsDigit(t[j]) {
          if j < i { assert t[j] == s[..i][j]; }
        }
      }
      var m := n * 10 + DigitValue(s[i]);
      if m > MAX_UINT64 {
        if AllDigits(s) { ValuePrefixAtMost(s, i + 1); }
      } else {
        ScanCorrect(s, i + 1, m);
      }
    }
  }

  /**
   * `ParseUint` succeeds exactly on non-empty strings of decimal digits whose
   * value fits in 64 bits, and then yields that value.
   */
  lemma ParseUintSpec(s: string)
    ensures ParseUint(s).Ok? <==> s != [] && AllDigits(s) && Value(s) <= MAX_UINT64
    ensures ParseUint(s).Ok? ==> AllDigits(s) && ParseUint(s).value == Value(s)
    ensures s == [] ==> ParseUint(s) == Err(ErrSyntax)
  {
    if s != [] {
      assert s[..0] == [];
      ScanCorrect(s, 0, 0);
    }
  }

  lemma {:induction false} ScanStops(s: string, i: nat, n: uint64, k: nat)
    requires i <= k < |s| && !IsDigit(s[k]) && AllDigits(s[..k])
    requires Value(s[..i]) == n
    ensures Scan(s, i, n) == if Value(s[..k]) <= MAX_UINT64 then Err(ErrSyntax) else Err(ErrRange)
    decreases k - i
  {
    assert AllDigits(s[..i]) by {
      forall j | 0 <= j < i ensures IsDigit(s[..i][j]) { assert s[..i][j] == s[..k][j]; }
    }
    if i == k {
    } else {
      assert s[..k][..i + 1] == s[..i + 1];
      assert s[..k][..i] == s[..i];
      assert s[..k][i] == s[i];
      ValueOfPrefix(s[..k], i);
      ValuePrefixAtMost(s[..k], i + 1);
      var m := n * 10 + DigitValue(s[i]);
      if m <= MAX_UINT64 {
        ScanStops(s, i + 1, m, k);
      }
    }
  }

  /**
   * Which error a string with a non-digit gives: with `k` the first
   * non-digit, a syntax error when the digits before it fit in 64 bits and a
   * range error otherwise.
   */
  lemma ParseUintErrors(s: string, k: nat)
    requires k < |s| && !IsDigit(s[k]) && AllDigits(s[..k])
    ensures ParseUint(s) == if Value(s[..k]) <= MAX_UINT64 then Err(ErrSyntax) else Err(ErrRange)
  {
    assert s[..0] == [];
    ScanStops(s, 0, 0, k);
  }

  /** The digit loop over a string of digits never reports a syntax error. */
  lemma {:induction false} ScanDigitsNeverSyntax(s: string, i: nat, n: uint64)
    requires i <= |s| && AllDigits(s)
    ensures Scan(s, i, n) != Err(ErrSyntax)
    decreases |s| - i
  {
    if i < |s| && n * 10 + DigitValue(s[i]) <= MAX_UINT64 {
      ScanDigitsNeverSyntax(s, i + 1, n * 10 + DigitValue(s[i]));
    }
  }

  /** A string of digits whose value does not fit in 64 bits is a range error. */
  lemma ParseUintOverflow(s: string)
    requires s != [] && AllDigits(s) && Value(s) > MAX_UINT64
    ensures ParseUint(s) == Err(ErrRange)
  {
    ParseUintSpec(s);
    ScanDigitsNeverSyntax(s, 0, 0);
    var r := ParseUint(s);
    assert r == Scan(s, 0, 0);
    assert r.Err? && r.error != ErrSyntax;
  }

  /** The decimal text of `n` is a non-empty digit string denoting `n`. */
  lemma {:induction false} FormatUintDigits(n: nat)
    ensures FormatUint(n) != [] && AllDigits(FormatUint(n)) && Value(FormatUint(n)) == n
    decreases n
  {
    if n >= 10 {
      FormatUintDigits(n / 10);
      var s := FormatUint(n);
      assert s[..|s| - 1] == FormatUint(n / 10);
    }
  }

  /** FormatUint writes no leading zero. */
  lemma {:induction false} FormatUintCanonical(n: nat)
    ensures |FormatUint(n)| > 1 ==> FormatUint(n)[0] != '0'
    decreases n
  {
    if n >= 10 {
      FormatUintCanonical(n / 10);
      FormatUintDigits(n / 10);
      if n / 10 < 10 {
        assert FormatUint(n)[0] == DigitChar(n / 10);
      } else {
        assert FormatUint(n)[0] == FormatUint(n / 10)[0];
      }
    }
  }

  /** A decimal `set` payload parses back to the index it carries. */
  lemma ParseFormatRoundTrip(n: uint64)
    ensures ParseUint(FormatUint(n)) == Ok(n)
  {
    FormatUintDigits(n);
    ParseUintSpec(FormatUint(n));
  }
}
