/** Decimal text as Python 2 produces and reads it: `str` of an integer,
    `strftime` with `%-H`/`%-M` (no padding) and `%H`/`%M` (two digits),
    `int` of a string, and `str.split` on one separator character. */
module Decimal {

  import opened Wrappers

  predicate IsDigit(c: char) { '0' <= c <= '9' }

  predicate AllDigits(s: string) { forall i :: 0 <= i < |s| ==> IsDigit(s[i]) }

  function DigitChar(d: nat): (c: char)
    requires d < 10
    ensures IsDigit(c) && DigitValue(c) == d
  {
    ('0' as int + d) as char
  }

  function DigitValue(c: char): nat
    requires IsDigit(c)
  {
    c as int - '0' as int
  }

  /** Python `str(n)` for n >= 0, also `strftime("%-H")` / `strftime("%-M")`:
      decimal digits without leading zeros. */
  function NatToString(n: nat): (s: string)
    ensures 1 <= |s| && AllDigits(s)
    ensures s[0] == '0' ==> n == 0 && s == "0"
    ensures n < 10 <==> |s| == 1
    ensures 10 <= n < 100 <==> |s| == 2
  {
    if n < 10 then [DigitChar(n)] else NatToString(n / 10) + [DigitChar(n % 10)]
  }

  /** Python `str(i)` for any integer. */
  function IntToString(i: int): (s: string)
    ensures 1 <= |s|
    ensures i >= 0 <==> s[0] != '-'
  {
    if i < 0 then "-" + NatToString(-i) else NatToString(i)
  }

  /** `strftime("%H")` / `strftime("%M")`: exactly two digits. */
  function Pad2(n: nat): (s: string)
    requires n < 100
    ensures |s| == 2 && AllDigits(s)
    ensures 10 <= n ==> s == NatToString(n)
  {
    [DigitChar(n / 10), DigitChar(n % 10)]
  }

  /** The value of a string of decimal digits (the empty string is 0). */
  function DigitsValue(s: string): nat
    requires AllDigits(s)
  {
    if s == [] then 0 else DigitsValue(s[..|s| - 1]) * 10 + DigitValue(s[|s| - 1])
  }

  lemma {:induction false} NatToStringValue(n: nat)
    ensures DigitsValue(NatToString(n)) == n
  {
    if n >= 10 {
      var s := NatToString(n);
      assert s[..|s| - 1] == NatToString(n / 10);
      NatToStringValue(n / 10);
    }
  }

  /** Distinct numbers have distinct decimal forms. */
  lemma NatToStringInjective(a: nat, b: nat)
    requires NatToString(a) == NatToString(b)
    ensures a == b
  {
    NatToStringValue(a);
    NatToStringValue(b);
  }

  lemma Pad2Injective(a: nat, b: nat)
    requires a < 100 && b < 100 && Pad2(a) == Pad2(b)
    ensures a == b
  {
    assert DigitValue(Pad2(a)[0]) == a / 10 && DigitValue(Pad2(a)[1]) == a % 10;
    assert DigitValue(Pad2(b)[0]) == b / 10 && DigitValue(Pad2(b)[1]) == b % 10;
  }

  /** The characters Python's `str.strip()` removes: space and \t \n \v \f \r. */
  predicate IsSpace(c: char) { c == ' ' || 9 <= c as int <= 13 }

  function TrimLeft(s: string): (r: string)
    ensures |r| <= |s| && r == s[|s| - |r|..]
    ensures r == [] || !IsSpace(r[0])
  {
    if s != [] && IsSpace(s[0]) then TrimLeft(s[1..]) else s
  }

  function TrimRight(s: string): (r: string)
    ensures |r| <= |s| && r == s[..|r|]
    ensures r == [] || !IsSpace(r[|r| - 1])
  {
    if s != [] && IsSpace(s[|s| - 1]) then TrimRight(s[..|s| - 1]) else s
  }

  function Strip(s: string): string { TrimRight(TrimLeft(s)) }

  /** The literals `int` accepts once whitespace is stripped: one or more
      decimal digits, after at most one sign. */
  predicate IntLiteral(t: string)
  {
    |t| >= 1 && (if t[0] == '+' || t[0] == '-' then |t| >= 2 && AllDigits(t[1..]) else AllDigits(t))
  }

  /** Python 2 `int(s)` on a string: surrounding whitespace is ignored, one
      optional sign, then one or more decimal digits; anything else raises,
      which is `Err` here. */
  function ParseInt(s: string): (r: Result<int>)
    ensures r.Ok? ==> |Strip(s)| >= 1
  {
    ParseStripped(Strip(s))
  }

  /** `int` accepts exactly the literals, once whitespace is stripped. */
  lemma ParseIntAccepts(s: string)
    ensures ParseInt(s).Ok? <==> IntLiteral(Strip(s))
  {
    ParseStrippedAccepts(Strip(s));
  }

  lemma ParseStrippedAccepts(t: string)
    ensures ParseStripped(t).Ok? <==> IntLiteral(t)
  {
  }

  /** `int` after whitespace is removed: an optional sign, then digits. */
  function ParseStripped(t: string): (r: Result<int>)
    ensures r.Ok? ==> |t| >= 1
  {
    if |t| >= 2 && (t[0] == '-' || t[0] == '+') && AllDigits(t[1..]) then
      var v: int := DigitsValue(t[1..]);
      Ok(if t[0] == '-' then -v else v)
    else if |t| >= 1 && AllDigits(t) then
      Ok(DigitsValue(t))
    else
      Err
  }

  lemma StripUnchanged(s: string)
    requires s != [] && !IsSpace(s[0]) && !IsSpace(s[|s| - 1])
    ensures Strip(s) == s
  {
  }

  /** `int` reads back a non-empty digit string as its value; leading zeros
      are dropped ("07" reads as 7). */
  lemma ParseIntDigits(s: string)
    requires |s| >= 1 && AllDigits(s)
    ensures ParseInt(s) == Ok(DigitsValue(s))
  {
    StripUnchanged(s);
  }

  /** `int(str(i)) == i`. */
  lemma ParseIntOfIntToString(i: int)
    ensures ParseInt(IntToString(i)) == Ok(i)
  {
    var s := IntToString(i);
    if i < 0 {
      var d := NatToString(-i);
      assert s[1..] == d && s[|s| - 1] == d[|d| - 1];
      StripUnchanged(s);
      NatToStringValue(-i);
    } else {
      ParseIntDigits(s);
      NatToStringValue(i);
    }
  }

  /** A trailing newline (an editor's end of file) does not change what `int` reads. */
  lemma ParseIntTrailingNewline(s: string)
    ensures ParseInt(s + "\n") == ParseInt(s)
  {
    TrimLeftAppendSpace(s);
    assert Strip(s + "\n") == Strip(s);
  }

  lemma {:induction false} TrimLeftAppendSpace(s: string)
    ensures TrimRight(TrimLeft(s + "\n")) == TrimRight(TrimLeft(s))
  {
    if s == [] {
    } else if IsSpace(s[0]) {
      assert (s + "\n")[1..] == s[1..] + "\n";
      TrimLeftAppendSpace(s[1..]);
    } else {
      assert (s + "\n")[..|s + "\n"| - 1] == s;
    }
  }

  /** Python `s.split(sep)`: the pieces between the separators, in order. */
  function Split(s: string, sep: char): (parts: seq<string>)
    ensures |parts| >= 1
    ensures forall i :: 0 <= i < |parts| ==> sep !in parts[i]
  {
    if s == [] then [""]
    else
      var rest := Split(s[1..], sep);
      if s[0] == sep then [""] + rest else [[s[0]] + rest[0]] + rest[1..]
  }

  /** The inverse of `Split`: the pieces glued with the separator. */
  function Join(parts: seq<string>, sep: char): string
    requires |parts| >= 1
  {
    if |parts| == 1 then parts[0] else parts[0] + [sep] + Join(parts[1..], sep)
  }

  lemma {:induction false} JoinSplit(s: string, sep: char)
    ensures Join(Split(s, sep), sep) == s
  {
    if s != [] {
      var rest := Split(s[1..], sep);
      JoinSplit(s[1..], sep);
      if s[0] != sep {
        assert ([[s[0]] + rest[0]] + rest[1..])[1..] == rest[1..];
      } else {
        assert ([""] + rest)[1..] == rest;
      }
    }
  }

  /** A piece without the separator, followed by the separator, splits off first. */
  lemma {:induction false} SplitPrefix(a: string, b: string, sep: char)
    requires sep !in a
    ensures Split(a + [sep] + b, sep) == [a] + Split(b, sep)
  {
    if a == [] {
      assert (a + [sep] + b)[1..] == b;
    } else {
      assert (a + [sep] + b)[1..] == a[1..] + [sep] + b;
      SplitPrefix(a[1..], b, sep);
      assert [a[0]] + a[1..] == a;
    }
  }

  lemma {:induction false} SplitNoSep(s: string, sep: char)
    requires sep !in s
    ensures Split(s, sep) == [s]
  {
    if s != [] {
      SplitNoSep(s[1..], sep);
      assert [s[0]] + s[1..] == s;
    }
  }
}
