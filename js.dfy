/** The JavaScript built-ins the client's logic relies on, stated over Dafny values:
    optional values (`undefined`/`null`), the `||` operator on strings,
    `String.prototype.trim`, `split` and `join` with a one-character separator,
    `Number(s)` on decimal numerals, `String(n)` on integers and `padStart(2, "0")`. */
module Js {

  datatype Option<+T> = None | Some(value: T)

  /** `a || b` where both operands are strings: the empty string is falsy. */
  function Or(a: string, b: string): string
  {
    if a != "" then a else b
  }

  /** A value typed `number | ""` (a select box's value): `Unset` is `""`. */
  datatype Pick = Unset | Chosen(id: int)
  {
    /** JavaScript truthiness: `""` and the number 0 are falsy. */
    predicate Truthy()
    {
      Chosen? && id != 0
    }
  }

  // ---------------------------------------------------------------------------
  // String.prototype.trim

  /** The characters ECMAScript's trim removes: WhiteSpace and LineTerminator. */
  predicate IsWhiteSpace(c: char)
  {
    c == '\t' || c == '\n' || c == '\U{000B}' || c == '\U{000C}' || c == '\r' || c == ' '
    || c == '\U{00A0}' || c == '\U{1680}' || ('\U{2000}' <= c <= '\U{200A}')
    || c == '\U{2028}' || c == '\U{2029}' || c == '\U{202F}' || c == '\U{205F}'
    || c == '\U{3000}' || c == '\U{FEFF}'
  }

  predicate AllWhiteSpace(s: string)
  {
    forall k :: 0 <= k < |s| ==> IsWhiteSpace(s[k])
  }

  /** Drops leading white space. */
  function TrimStart(s: string): string
    decreases |s|
  {
    if s != [] && IsWhiteSpace(s[0]) then TrimStart(s[1..]) else s
  }

  /** Drops trailing white space. */
  function TrimEnd(s: string): string
    decreases |s|
  {
    if s != [] && IsWhiteSpace(s[|s| - 1]) then TrimEnd(s[..|s| - 1]) else s
  }

  function Trim(s: string): string
  {
    TrimEnd(TrimStart(s))
  }

  /** What `TrimStart` drops is all white space, what it keeps is a suffix of
      `s`, and that suffix does not start with white space. */
  lemma {:induction false} TrimStartShape(s: string)
    ensures |TrimStart(s)| <= |s| && TrimStart(s) == s[|s| - |TrimStart(s)|..]
    ensures AllWhiteSpace(s[..|s| - |TrimStart(s)|])
    ensures TrimStart(s) != [] ==> !IsWhiteSpace(TrimStart(s)[0])
    decreases |s|
  {
    if s != [] && IsWhiteSpace(s[0]) {
      TrimStartShape(s[1..]);
      var r := TrimStart(s);
      assert s[..|s| - |r|] == [s[0]] + s[1..][..|s| - 1 - |r|];
    }
  }

  /** What `TrimEnd` drops is all white space, what it keeps is a prefix of
      `s`, and that prefix does not end with white space. */
  lemma {:induction false} TrimEndShape(s: string)
    ensures |TrimEnd(s)| <= |s| && TrimEnd(s) == s[..|TrimEnd(s)|]
    ensures AllWhiteSpace(s[|TrimEnd(s)|..])
    ensures TrimEnd(s) != [] ==> !IsWhiteSpace(TrimEnd(s)[|TrimEnd(s)| - 1])
    decreases |s|
  {
    if s != [] && IsWhiteSpace(s[|s| - 1]) {
      var init := s[..|s| - 1];
      TrimEndShape(init);
      var r := TrimEnd(s);
      assert s[|r|..] == init[|r|..] + [s[|s| - 1]];
    }
  }

  /** The trimmed string is a contiguous piece of the original, everything cut off
      on either side is white space, and its own ends are not white space. */
  lemma {:induction false} TrimShape(s: string) returns (i: nat, j: nat)
    ensures i <= j <= |s| && Trim(s) == s[i..j]
    ensures AllWhiteSpace(s[..i]) && AllWhiteSpace(s[j..])
    ensures Trim(s) != "" ==> !IsWhiteSpace(Trim(s)[0]) && !IsWhiteSpace(Trim(s)[|Trim(s)| - 1])
  {
    var t := TrimStart(s);
    var r := TrimEnd(t);
    TrimStartShape(s);
    TrimEndShape(t);
    i := |s| - |t|;
    j := i + |r|;
    assert t == s[i..];
    assert r == s[i..j];
    assert s[j..] == t[|r|..];
  }

  /** `s.trim()` is empty exactly when `s` consists of white space only. */
  lemma {:induction false} TrimEmptyIff(s: string)
    ensures Trim(s) == "" <==> AllWhiteSpace(s)
  {
    var i, j := TrimShape(s);
    if Trim(s) == "" {
      assert s == s[..i] + s[j..];
    } else {
      assert s[i] == Trim(s)[0];
    }
  }

  /** Trimming twice is trimming once. */
  lemma {:induction false} TrimIdempotent(s: string)
    ensures Trim(Trim(s)) == Trim(s)
  {
    var i, j := TrimShape(s);
    var r := Trim(s);
    if r != "" {
      assert TrimStart(r) == r;
      assert TrimEnd(r) == r;
    }
  }

  /** A string with no white space at all is its own trim. */
  lemma {:induction false} TrimNoWhiteSpace(s: string)
    requires forall k :: 0 <= k < |s| ==> !IsWhiteSpace(s[k])
    ensures Trim(s) == s
  {
    if s != [] {
      assert TrimStart(s) == s;
      assert TrimEnd(s) == s;
    }
  }

  // ---------------------------------------------------------------------------
  // length

  /** A character outside the Basic Multilingual Plane, which JavaScript
      stores as a surrogate pair of two UTF-16 code units. */
  predicate Astral(c: char)
  {
    c as int > 0xFFFF
  }

  /** `s.length`: the number of UTF-16 code units, so an astral character
      counts twice. */
  function Length(s: string): (n: nat)
    ensures |s| <= n <= 2 * |s|
    ensures n == 0 <==> s == ""
  {
    if s == [] then 0 else (if Astral(s[0]) then 2 else 1) + Length(s[1..])
  }

  /** Without astral characters, `length` counts the characters. */
  lemma {:induction false} LengthOfBmp(s: string)
    requires forall k :: 0 <= k < |s| ==> !Astral(s[k])
    ensures Length(s) == |s|
  {
    if s != [] {
      assert !Astral(s[0]);
      LengthOfBmp(s[1..]);
    }
  }

  /** `length` of a concatenation is the sum of the lengths. */
  lemma {:induction false} LengthConcat(a: string, b: string)
    ensures Length(a + b) == Length(a) + Length(b)
  {
    if a != [] {
      assert (a + b)[0] == a[0];
      assert (a + b)[1..] == a[1..] + b;
      LengthConcat(a[1..], b);
      assert Length(a + b) == (if Astral(a[0]) then 2 else 1) + Length(a[1..] + b);
    } else {
      assert a + b == b;
    }
  }

  // ---------------------------------------------------------------------------
  // split and join on a one-character separator

  /** Position of the first `c` in `s`. */
  function IndexOf(s: string, c: char): (i: nat)
    requires c in s
    ensures i < |s| && s[i] == c && c !in s[..i]
  {
    if s[0] == c then 0 else 1 + IndexOf(s[1..], c)
  }

  /** `parts.join(sep)`. */
  function Join(parts: seq<string>, sep: char): string
  {
    if |parts| == 0 then ""
    else if |parts| == 1 then parts[0]
    else parts[0] + [sep] + Join(parts[1..], sep)
  }

  /** `s.split(sep)`: at least one part, no part holds the separator, and joining
      the parts back with the separator gives `s` again. */
  function Split(s: string, sep: char): (parts: seq<string>)
    ensures |parts| >= 1
    ensures forall k :: 0 <= k < |parts| ==> sep !in parts[k]
    ensures Join(parts, sep) == s
    decreases |s|
  {
    if sep !in s then [s]
    else
      var i := IndexOf(s, sep);
      var rest := Split(s[i + 1..], sep);
      assert s == s[..i] + [sep] + s[i + 1..];
      assert ([s[..i]] + rest)[1..] == rest;
      [s[..i]] + rest
  }

  /** The other round trip: splitting the join of separator-free parts gives the parts. */
  lemma {:induction false} SplitJoin(parts: seq<string>, sep: char)
    requires |parts| >= 1
    requires forall k :: 0 <= k < |parts| ==> sep !in parts[k]
    ensures Split(Join(parts, sep), sep) == parts
    decreases |parts|
  {
    if |parts| > 1 {
      var p := parts[0];
      var tail := Join(parts[1..], sep);
      var s := p + [sep] + tail;
      assert Join(parts, sep) == s;
      assert s[|p|] == sep;
      var i := IndexOf(s, sep);
      assert s[..i] == p;
      assert s[i + 1..] == tail;
      SplitJoin(parts[1..], sep);
      assert parts == [p] + parts[1..];
    }
  }

  /** Splitting the three-part string `a + sep + b + sep + c`. */
  lemma {:induction false} SplitThree(a: string, b: string, c: string, sep: char)
    requires sep !in a && sep !in b && sep !in c
    ensures Split(a + [sep] + b + [sep] + c, sep) == [a, b, c]
  {
    assert Join([a, b, c], sep) == a + [sep] + b + [sep] + c by {
      assert [a, b, c][1..] == [b, c];
      assert [b, c][1..] == [c];
      assert Join([b, c], sep) == b + [sep] + c;
    }
    SplitJoin([a, b, c], sep);
  }

  // ---------------------------------------------------------------------------
  // decimal numerals: String(n) and Number(s)

  predicate IsDigit(c: char)
  {
    '0' <= c <= '9'
  }

  predicate AllDigits(s: string)
  {
    forall k :: 0 <= k < |s| ==> IsDigit(s[k])
  }

  function DigitChar(d: nat): char
    requires d < 10
  {
    (('0' as int) + d) as char
  }

  /** A string of digits holds no character that is not a digit, such as a
      separator. */
  lemma DigitsExclude(s: string, c: char)
    requires AllDigits(s) && !IsDigit(c)
    ensures c !in s
  {
  }

  /** The value of a string of decimal digits (leading zeros allowed). */
  function DigitsValue(s: string): nat
    requires AllDigits(s)
    decreases |s|
  {
    if s == [] then 0 else DigitsValue(s[..|s| - 1]) * 10 + ((s[|s| - 1] as int) - ('0' as int))
  }

  /** `String(n)` for a non-negative integer: a non-empty digit string without a
      leading zero whose value is `n`. */
  function NatToString(n: nat): (r: string)
    ensures |r| >= 1 && AllDigits(r) && DigitsValue(r) == n
    ensures r[0] == '0' ==> n == 0
  {
    if n < 10 then [DigitChar(n)]
    else
      var front := NatToString(n / 10);
      var r := front + [DigitChar(n % 10)];
      assert r[..|r| - 1] == front;
      r
  }

  /** `String(i)` for an integer. */
  function IntToString(i: int): string
  {
    if i < 0 then "-" + NatToString(-i) else NatToString(i)
  }

  /** A leading zero does not change a numeral's value. */
  lemma {:induction false} DigitsValueLeadingZero(s: string)
    requires AllDigits(s)
    ensures AllDigits("0" + s) && DigitsValue("0" + s) == DigitsValue(s)
    decreases |s|
  {
    if s != [] {
      var z := "0" + s;
      assert z[..|z| - 1] == "0" + s[..|s| - 1];
      DigitsValueLeadingZero(s[..|s| - 1]);
    }
  }

  /** `Number(s)`; `None` stands for NaN. Surrounding white space is ignored,
      and the rest is read by `Numeral`. */
  function ToNumber(s: string): Option<int>
  {
    Numeral(Trim(s))
  }

  /** A trimmed numeral: the empty numeral is 0, and an optionally signed string
      of decimal digits has its value; anything else is NaN. */
  function Numeral(t: string): Option<int>
  {
    if t == "" then Some(0)
    else if AllDigits(t) then Some(DigitsValue(t))
    else if |t| >= 2 && (t[0] == '-' || t[0] == '+') && AllDigits(t[1..]) then
      var magnitude: int := DigitsValue(t[1..]);
      Some(if t[0] == '-' then -magnitude else magnitude)
    else None
  }

  /** `Number(parts[i])` after a destructuring `const [a, b, c] = parts`: a missing
      element is `undefined`, and `Number(undefined)` is NaN. */
  function NumberAt(parts: seq<string>, i: nat): Option<int>
  {
    if i < |parts| then ToNumber(parts[i]) else None
  }

  /** `Number` reads a digit string as its value. */
  lemma {:induction false} ToNumberDigits(d: string)
    requires |d| >= 1 && AllDigits(d)
    ensures ToNumber(d) == Some(DigitsValue(d))
  {
    assert Trim(d) == d by {
      forall k | 0 <= k < |d| ensures !IsWhiteSpace(d[k]) {
        assert IsDigit(d[k]);
      }
      TrimNoWhiteSpace(d);
    }
  }

  /** A minus sign followed by digits has no white space to trim. */
  lemma {:induction false} TrimNegativeNumeral(d: string)
    requires AllDigits(d)
    ensures Trim("-" + d) == "-" + d
  {
    var s := "-" + d;
    forall k | 0 <= k < |s| ensures !IsWhiteSpace(s[k]) {
      if k > 0 { assert s[k] == d[k - 1] && IsDigit(d[k - 1]); }
    }
    TrimNoWhiteSpace(s);
  }

  /** A minus sign followed by digits is read as a negative value. */
  lemma {:induction false} NumeralNegative(d: string)
    requires |d| >= 1 && AllDigits(d)
    ensures Numeral("-" + d) == Some(-(DigitsValue(d) as int))
  {
    var s := "-" + d;
    assert s[1..] == d;
    assert !IsDigit(s[0]);
  }

  /** `Number` reads a minus sign followed by digits as a negative value. */
  lemma {:induction false} ToNumberNegative(d: string)
    requires |d| >= 1 && AllDigits(d)
    ensures ToNumber("-" + d) == Some(-(DigitsValue(d) as int))
  {
    TrimNegativeNumeral(d);
    assert Trim("-" + d) == "-" + d;
    NumeralNegative(d);
  }

  /** `Number(String(i))` gives `i` back. */
  lemma {:induction false} ToNumberIntToString(i: int)
    ensures ToNumber(IntToString(i)) == Some(i)
  {
    if i >= 0 {
      ToNumberIntToStringNat(i);
    } else {
      ToNumberIntToStringNeg(i);
    }
  }

  lemma {:induction false} ToNumberIntToStringNat(i: nat)
    ensures ToNumber(IntToString(i)) == Some(i)
  {
    ToNumberDigits(NatToString(i));
  }

  lemma {:induction false} ToNumberIntToStringNeg(i: int)
    requires i < 0
    ensures ToNumber(IntToString(i)) == Some(i)
  {
    var d := NatToString(-i);
    assert IntToString(i) == "-" + d;
    ToNumberNegative(d);
  }

  /** `s.padStart(2, "0")`. */
  function PadStart2(s: string): string
  {
    if |s| == 0 then "00" else if |s| == 1 then "0" + s else s
  }

  /** A number below 100, written with `String` and padded to two places, is two
      digits whose value is the number. */
  lemma {:induction false} TwoDigits(n: nat)
    requires n < 100
    ensures |PadStart2(NatToString(n))| == 2
    ensures AllDigits(PadStart2(NatToString(n))) && DigitsValue(PadStart2(NatToString(n))) == n
  {
    if n < 10 {
      DigitsValueLeadingZero(NatToString(n));
    } else {
      assert |NatToString(n / 10)| == 1;
    }
  }

  /** A number with four decimal digits is written with exactly four characters. */
  lemma {:induction false} FourDigits(n: nat)
    requires 1000 <= n <= 9999
    ensures |NatToString(n)| == 4
  {
    assert |NatToString(n / 1000)| == 1;
    assert NatToString(n / 100) == NatToString(n / 1000) + [DigitChar((n / 100) % 10)];
    assert NatToString(n / 10) == NatToString(n / 100) + [DigitChar((n / 10) % 10)];
  }

  /** `Number` reads back a two-digit field. */
  lemma {:induction false} ToNumberTwoDigits(n: nat)
    requires n < 100
    ensures ToNumber(PadStart2(NatToString(n))) == Some(n)
  {
    TwoDigits(n);
    ToNumberDigits(PadStart2(NatToString(n)));
  }
}
