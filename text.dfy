/**
 * The handful of Python string operations the bot and the gateway rely on:
 * `str.strip()`, `str.split(sep)`, `int(s)`, `float(s)` (decimal notation only)
 * and `str(n)` for integers.  Strings are sequences of characters.
 */
module Text {
  import opened Base

  /** Python's `str.isspace()` for one character (the characters `strip()` removes). */
  predicate IsSpace(c: char) {
    || c == ' '
    || '\t' <= c <= '\r'
    || '\U{1c}' <= c <= '\U{1f}'
    || c == '\U{85}' || c == '\U{a0}' || c == '\U{1680}'
    || '\U{2000}' <= c <= '\U{200a}'
    || c == '\U{2028}' || c == '\U{2029}' || c == '\U{202f}' || c == '\U{205f}' || c == '\U{3000}'
  }

  predicate NoSpace(s: string) {
    forall i :: 0 <= i < |s| ==> !IsSpace(s[i])
  }

  /** Python's `str.lstrip()`: drops the leading whitespace and nothing else. */
  function TrimStart(s: string): (r: string)
    ensures |r| <= |s| && r == s[|s| - |r|..]
    ensures forall i :: 0 <= i < |s| - |r| ==> IsSpace(s[i])
    ensures r != [] ==> !IsSpace(r[0])
  {
    if s != [] && IsSpace(s[0]) then TrimStart(s[1..]) else s
  }

  /** Python's `str.rstrip()`: drops the trailing whitespace and nothing else. */
  function TrimEnd(s: string): (r: string)
    ensures |r| <= |s| && r == s[..|r|]
    ensures forall i :: |r| <= i < |s| ==> IsSpace(s[i])
    ensures r != [] ==> !IsSpace(r[|r| - 1])
  {
    if s != [] && IsSpace(s[|s| - 1]) then TrimEnd(s[..|s| - 1]) else s
  }

  /** Python's `str.strip()`. */
  function Strip(s: string): (r: string)
    ensures |r| <= |s|
    ensures r != [] ==> !IsSpace(r[0]) && !IsSpace(r[|r| - 1])
  {
    TrimEnd(TrimStart(s))
  }

  /**
   * `strip()` removes the leading and the trailing whitespace and nothing
   * else: the result is the run of `s` that lies between them.
   */
  lemma StripKeepsMiddle(s: string)
    ensures var r, a := Strip(s), |s| - |TrimStart(s)|;
      && a + |r| <= |s| && r == s[a..a + |r|]
      && (forall k :: 0 <= k < a ==> IsSpace(s[k]))
      && (forall k :: a + |r| <= k < |s| ==> IsSpace(s[k]))
  {
    var t := TrimStart(s);
    PrefixOfSuffix(s, |s| - |t|, TrimEnd(t));
    SpaceAfterPrefix(s, |s| - |t|, TrimEnd(t));
  }

  lemma PrefixOfSuffix(s: string, a: nat, r: string)
    requires a <= |s| && r <= s[a..]
    ensures a + |r| <= |s| && r == s[a..a + |r|]
  {
  }

  lemma SpaceAfterPrefix(s: string, a: nat, r: string)
    requires a <= |s| && r <= s[a..]
    requires forall i :: |r| <= i < |s| - a ==> IsSpace(s[a..][i])
    ensures forall k :: a + |r| <= k < |s| ==> IsSpace(s[k])
  {
    forall k | a + |r| <= k < |s|
      ensures IsSpace(s[k])
    {
      assert s[k] == s[a..][k - a];
    }
  }

  /** Text that neither starts nor ends with whitespace. */
  predicate Unpadded(s: string) {
    s != [] ==> !IsSpace(s[0]) && !IsSpace(s[|s| - 1])
  }

  /** Unpadded text is left alone by `strip()`. */
  lemma StripUnpadded(s: string)
    requires Unpadded(s)
    ensures Strip(s) == s
  {
    assert TrimStart(s) == s;
  }

  /** Text without whitespace is left alone by `strip()`. */
  lemma StripNoSpace(s: string)
    requires NoSpace(s)
    ensures Strip(s) == s
  {
    assert TrimStart(s) == s;
  }

  /**
   * Python's `s.split(sep)` for a one-character separator: the pieces between
   * the separators, always at least one, none containing the separator.
   */
  function Split(s: string, sep: char): (parts: seq<string>)
    ensures |parts| >= 1
    ensures forall i :: 0 <= i < |parts| ==> sep !in parts[i]
  {
    if s == [] then [""]
    else
      var rest := Split(s[1..], sep);
      if s[0] == sep then [""] + rest
      else [[s[0]] + rest[0]] + rest[1..]
  }

  /** Python's `sep.join(parts)`, the inverse of `Split`. */
  function Join(parts: seq<string>, sep: char): string
    requires |parts| >= 1
  {
    if |parts| == 1 then parts[0] else parts[0] + [sep] + Join(parts[1..], sep)
  }

  /** Splitting loses nothing: joining the pieces back gives the input. */
  lemma {:induction false} SplitJoin(s: string, sep: char)
    ensures Join(Split(s, sep), sep) == s
  {
    if s != [] {
      SplitJoin(s[1..], sep);
      var rest := Split(s[1..], sep);
      if s[0] == sep {
        assert ([""] + rest)[1..] == rest;
      } else if |rest| > 1 {
        var parts := [[s[0]] + rest[0]] + rest[1..];
        assert parts[1..] == rest[1..];
      }
    }
  }

  /** A text without the separator is a single piece. */
  lemma {:induction false} SplitNoSep(t: string, sep: char)
    requires sep !in t
    ensures Split(t, sep) == [t]
  {
    if t != [] {
      SplitNoSep(t[1..], sep);
      assert [t[0]] + t[1..] == t;
    }
  }

  /** Splitting at one separator splits the two sides independently. */
  lemma {:induction false} SplitAppend(x: string, y: string, sep: char)
    ensures Split(x + [sep] + y, sep) == Split(x, sep) + Split(y, sep)
  {
    var s := x + [sep] + y;
    if x == [] {
      assert s[1..] == y;
    } else {
      assert s[1..] == x[1..] + [sep] + y;
      SplitAppend(x[1..], y, sep);
    }
  }

  /** Joining pieces free of the separator and splitting again gives the pieces back. */
  lemma {:induction false} JoinSplit(parts: seq<string>, sep: char)
    requires |parts| >= 1
    requires forall i :: 0 <= i < |parts| ==> sep !in parts[i]
    ensures Split(Join(parts, sep), sep) == parts
  {
    SplitNoSep(parts[0], sep);
    if |parts| > 1 {
      JoinSplit(parts[1..], sep);
      SplitAppend(parts[0], Join(parts[1..], sep), sep);
      assert [parts[0]] + parts[1..] == parts;
    }
  }

  /** Python's `s.split(sep)[-1]`. */
  function LastSegment(s: string, sep: char): (r: string)
    ensures sep !in r
  {
    var parts := Split(s, sep);
    parts[|parts| - 1]
  }

  /** Whatever precedes the last separator does not influence the last segment. */
  lemma LastSegmentAfter(prefix: string, t: string, sep: char)
    requires sep !in t
    ensures LastSegment(prefix + [sep] + t, sep) == t
  {
    SplitAppend(prefix, t, sep);
    SplitNoSep(t, sep);
  }

  // ---------------------------------------------------------------------
  // Digits, `str(n)` and `int(s)`

  predicate IsDigit(c: char) {
    '0' <= c <= '9'
  }

  predicate AllDigits(s: string) {
    forall i :: 0 <= i < |s| ==> IsDigit(s[i])
  }

  function DigitValue(c: char): nat
    requires IsDigit(c)
  {
    (c as int) - ('0' as int)
  }

  function DigitChar(d: nat): (c: char)
    requires d < 10
    ensures IsDigit(c) && DigitValue(c) == d
  {
    (('0' as int) + d) as char
  }

  /** The number a run of decimal digits denotes. */
  function DigitsValue(ds: string): nat
    requires AllDigits(ds)
  {
    if ds == [] then 0 else DigitsValue(ds[..|ds| - 1]) * 10 + DigitValue(ds[|ds| - 1])
  }

  /** Decimal digits of a natural number, without leading zeros. */
  function NatToString(n: nat): (s: string)
    ensures s != [] && AllDigits(s)
  {
    if n < 10 then [DigitChar(n)] else NatToString(n / 10) + [DigitChar(n % 10)]
  }

  /** Python's `str(n)` / `f"{n}"` for an integer. */
  function IntToString(n: int): (s: string)
    ensures s != [] && NoSpace(s) && '_' !in s
    ensures (s[0] == '-' || IsDigit(s[0])) && IsDigit(s[|s| - 1])
    ensures forall c :: c in s ==> c == '-' || IsDigit(c)
  {
    if n < 0 then "-" + NatToString(-n) else NatToString(n)
  }

  /** Python's digit grammar for `int()`: digits, with single underscores between digits. */
  predicate WellFormedDigits(s: string) {
    && |s| > 0 && IsDigit(s[0]) && IsDigit(s[|s| - 1])
    && (forall i :: 0 <= i < |s| ==> IsDigit(s[i]) || s[i] == '_')
    && (forall i :: 0 <= i < |s| - 1 ==> !(s[i] == '_' && s[i + 1] == '_'))
  }

  /** The digits of `s` with the underscores removed. */
  function DropUnderscores(s: string): (r: string)
    requires forall i :: 0 <= i < |s| ==> IsDigit(s[i]) || s[i] == '_'
    ensures AllDigits(r)
    ensures AllDigits(s) ==> r == s
  {
    if s == [] then []
    else (if s[0] == '_' then [] else [s[0]]) + DropUnderscores(s[1..])
  }

  /** The magnitude part of Python's `int(s)`; None where Python raises ValueError. */
  function ParseDigits(s: string): (r: Option<nat>)
    ensures r.Some? <==> WellFormedDigits(s)
  {
    if WellFormedDigits(s) then Some(DigitsValue(DropUnderscores(s))) else None
  }

  /** What `int()` accepts once the whitespace is stripped: an optional sign, then the digit grammar. */
  predicate IntLiteral(t: string) {
    if t != [] && (t[0] == '+' || t[0] == '-') then WellFormedDigits(t[1..]) else WellFormedDigits(t)
  }

  /**
   * Python's `int(s)` on a string: surrounding whitespace, an optional sign and
   * decimal digits (with underscores between them).  None where Python raises
   * ValueError.
   */
  function ParseInt(s: string): (r: Option<int>)
  {
    var t := Strip(s);
    if t != [] && (t[0] == '+' || t[0] == '-') then
      match ParseDigits(t[1..])
      case None => None
      case Some(m) =>
        var v: int := if t[0] == '-' then -(m as int) else m;
        Some(v)
    else
      match ParseDigits(t)
      case None => None
      case Some(m) =>
        var v: int := m;
        Some(v)
  }

  /**
   * `int()` accepts exactly the texts that are an integer literal once
   * stripped, and only a leading minus makes the result negative.
   */
  lemma ParseIntAccepts(s: string)
    ensures ParseInt(s).Some? <==> IntLiteral(Strip(s))
    ensures ParseInt(s).Some? && ParseInt(s).value < 0 ==> Strip(s)[0] == '-'
  {
  }

  lemma {:induction false} NatToStringValue(n: nat)
    ensures DigitsValue(NatToString(n)) == n
  {
    if n >= 10 {
      NatToStringValue(n / 10);
      var s := NatToString(n / 10) + [DigitChar(n % 10)];
      assert s[..|s| - 1] == NatToString(n / 10);
    }
  }

  /** `int(str(n)) == n` for every integer. */
  lemma ParseIntRoundTrip(n: int)
    ensures ParseInt(IntToString(n)) == Some(n)
  {
    var s := IntToString(n);
    StripNoSpace(s);
    var m: nat := if n < 0 then -n else n;
    DigitsOfNat(m);
    if n < 0 {
      assert s[1..] == NatToString(m);
    }
  }

  lemma DigitsOfNat(m: nat)
    ensures ParseDigits(NatToString(m)) == Some(m)
  {
    NatToStringValue(m);
    assert DropUnderscores(NatToString(m)) == NatToString(m);
  }

  /** `int()` rejects the empty text and text that is only whitespace. */
  lemma ParseIntRejectsBlank(s: string)
    requires forall i :: 0 <= i < |s| ==> IsSpace(s[i])
    ensures ParseInt(s) == None
  {
    assert TrimStart(s) == [];
  }

  // ---------------------------------------------------------------------
  // `float(s)` in decimal notation

  function Pow10(n: nat): (p: nat)
    ensures p >= 1
  {
    if n == 0 then 1 else 10 * Pow10(n - 1)
  }

  /** The value of the digits after the point: `.5` is 0.5, `.25` is 0.25. */
  function FractionValue(frac: string): real
    requires AllDigits(frac)
  {
    (DigitsValue(frac) as real) / (Pow10(|frac|) as real)
  }

  /** Unsigned decimal notation: `ddd`, `ddd.`, `.ddd` or `ddd.ddd`. */
  function ParseUnsignedDecimal(s: string): (r: Option<real>)
    ensures r.Some? ==> r.value >= 0.0
  {
    var parts := Split(s, '.');
    if |parts| == 1 then
      if parts[0] != [] && AllDigits(parts[0]) then Some(DigitsValue(parts[0]) as real) else None
    else if |parts| == 2 then
      var whole, frac := parts[0], parts[1];
      if (whole != [] || frac != []) && AllDigits(whole) && AllDigits(frac) then
        Some(DigitsValue(whole) as real + FractionValue(frac))
      else None
    else None
  }

  /**
   * Python's `float(s)` restricted to plain decimal notation (surrounding
   * whitespace, an optional sign, digits with an optional fraction).  None where
   * the model rejects the text.
   */
  function ParseDecimal(s: string): (r: Option<real>)
  {
    var t := Strip(s);
    var unsigned := if t != [] && (t[0] == '+' || t[0] == '-') then t[1..] else t;
    match ParseUnsignedDecimal(unsigned)
    case None => None
    case Some(m) => Some(if t != [] && t[0] == '-' then -m else m)
  }

  /**
   * `float()` rejects blank text, and only a leading minus makes the result
   * negative.
   */
  lemma ParseDecimalSign(s: string)
    ensures ParseDecimal(s).Some? ==> Strip(s) != []
    ensures ParseDecimal(s).Some? && ParseDecimal(s).value < 0.0 ==> Strip(s)[0] == '-'
  {
  }

  /** A whole number written in decimal is accepted by `float()` with its own value. */
  lemma ParseDecimalOfInt(n: int)
    ensures ParseDecimal(IntToString(n)) == Some(n as real)
  {
    var s := IntToString(n);
    StripNoSpace(s);
    var m: nat := if n < 0 then -n else n;
    NatToStringValue(m);
    var digits := NatToString(m);
    assert '.' !in digits by {
      assert forall i :: 0 <= i < |digits| ==> digits[i] != '.';
    }
    SplitNoSep(digits, '.');
    if n < 0 {
      assert s[1..] == digits;
    }
  }

  /**
   * A number written with a fraction, such as a price `12.50`, is accepted by
   * `float()` with the value of its whole part plus its fraction.
   */
  lemma ParseDecimalOfFraction(whole: nat, frac: string)
    requires AllDigits(frac)
    ensures ParseDecimal(NatToString(whole) + "." + frac) == Some(whole as real + FractionValue(frac))
  {
    var u := NatToString(whole) + "." + frac;
    assert NoSpace(u) by {
      forall i | 0 <= i < |u| ensures !IsSpace(u[i]) {
        assert u[i] == '.' || IsDigit(u[i]);
      }
    }
    UnsignedFraction(whole, frac);
    StripNoSpace(u);
    assert IsDigit(u[0]);
  }

  /** The unsigned notation `digits.fraction` denotes the whole part plus the fraction. */
  lemma UnsignedFraction(whole: nat, frac: string)
    requires AllDigits(frac)
    ensures ParseUnsignedDecimal(NatToString(whole) + "." + frac) == Some(whole as real + FractionValue(frac))
  {
    var digits := NatToString(whole);
    assert digits + "." + frac == digits + ['.'] + frac;
    NoDotInDigits(digits);
    NoDotInDigits(frac);
    SplitAppend(digits, frac, '.');
    SplitNoSep(digits, '.');
    SplitNoSep(frac, '.');
    assert Split(digits + "." + frac, '.') == [digits, frac];
    NatToStringValue(whole);
  }

  lemma NoDotInDigits(s: string)
    requires AllDigits(s)
    ensures '.' !in s
  {
    assert forall i :: 0 <= i < |s| ==> s[i] != '.';
  }
}
