/** The string operations the components use: ASCII `toLowerCase`, `trim`,
    `includes`, `padStart(2, "0")`, `split` on one character, and the decimal
    printing and reading of whole numbers. */
module Text {

  /** `toLowerCase` on one character; only ASCII letters are folded. */
  function LowerChar(c: char): char {
    if 'A' <= c <= 'Z' then (c as int + 32) as char else c
  }

  function Lower(s: string): (r: string)
    ensures |r| == |s|
    ensures forall i :: 0 <= i < |s| ==> r[i] == LowerChar(s[i])
  {
    seq(|s|, i requires 0 <= i < |s| => LowerChar(s[i]))
  }

  /** The ASCII characters `trim` removes: space, tab, line feed, vertical tab,
      form feed and carriage return. */
  predicate IsWhitespace(c: char) {
    c == ' ' || c == '\t' || c == '\n' || c == '\r' || c as int == 11 || c as int == 12
  }

  function TrimStart(s: string): (r: string)
    ensures r == [] || !IsWhitespace(r[0])
    ensures |r| <= |s| && r == s[|s| - |r|..]
  {
    if s != [] && IsWhitespace(s[0]) then TrimStart(s[1..]) else s
  }

  function TrimEnd(s: string): (r: string)
    ensures r == [] || !IsWhitespace(r[|r| - 1])
    ensures |r| <= |s| && r == s[..|r|]
  {
    if s != [] && IsWhitespace(s[|s| - 1]) then TrimEnd(s[..|s| - 1]) else s
  }

  /** `s.trim()` */
  function Trim(s: string): (r: string)
    ensures r == [] || (!IsWhitespace(r[0]) && !IsWhitespace(r[|r| - 1]))
  {
    var t := TrimStart(s);
    var r := TrimEnd(t);
    assert r != [] ==> r[0] == t[0];
    r
  }

  /** `s.includes(sub)`: `sub` occurs in `s` at some position. */
  predicate Contains(s: string, sub: string) {
    sub <= s || (s != [] && Contains(s[1..], sub))
  }

  predicate IsDigit(c: char) {
    '0' <= c <= '9'
  }

  predicate AllDigits(s: string) {
    forall i :: 0 <= i < |s| ==> IsDigit(s[i])
  }

  function DigitChar(d: nat): (c: char)
    requires d < 10
    ensures IsDigit(c)
  {
    ('0' as int + d) as char
  }

  /** The decimal numeral of a natural number, as `n.toString()` prints it. */
  function DigitString(n: nat): (r: string)
    ensures |r| >= 1 && AllDigits(r)
    ensures |r| == 1 <==> n < 10
  {
    if n < 10 then [DigitChar(n)] else DigitString(n / 10) + [DigitChar(n % 10)]
  }

  /** The value of a decimal numeral; leading zeros are allowed. */
  function ParseDigits(s: string): nat
    requires AllDigits(s)
  {
    if s == [] then 0
    else ParseDigits(s[..|s| - 1]) * 10 + (s[|s| - 1] as int - '0' as int)
  }

  /** Printing then reading a natural number gives it back. */
  lemma {:induction false} ParseDigitString(n: nat)
    ensures ParseDigits(DigitString(n)) == n
  {
    if n >= 10 {
      var s := DigitString(n);
      assert s[..|s| - 1] == DigitString(n / 10);
      ParseDigitString(n / 10);
    }
  }

  /** A leading zero does not change the value of a numeral. */
  lemma {:induction false} ParseLeadingZero(s: string)
    requires AllDigits(s)
    ensures AllDigits("0" + s) && ParseDigits("0" + s) == ParseDigits(s)
  {
    if s != [] {
      assert ("0" + s)[..|s|] == "0" + s[..|s| - 1];
      ParseLeadingZero(s[..|s| - 1]);
    }
  }

  /** `s.padStart(2, "0")` */
  function Pad2(s: string): (r: string)
    ensures |r| >= 2 && |r| >= |s|
    ensures r[|r| - |s|..] == s
    ensures forall i :: 0 <= i < |r| - |s| ==> r[i] == '0'
  {
    if |s| >= 2 then s else seq(2 - |s|, _ => '0') + s
  }

  /** Zero-padding a numeral keeps it a numeral of the same value. */
  lemma Pad2Value(s: string)
    requires AllDigits(s)
    ensures AllDigits(Pad2(s)) && ParseDigits(Pad2(s)) == ParseDigits(s)
  {
    if |s| == 1 {
      assert Pad2(s) == "0" + s;
      ParseLeadingZero(s);
    } else if |s| == 0 {
      assert Pad2(s) == "0" + "0";
      ParseLeadingZero("0");
    }
  }

  /** `s.split(sep)` for a one-character separator: the pieces between
      separators, so there is always at least one (possibly empty) piece. */
  function Split(s: string, sep: char): (parts: seq<string>)
    ensures |parts| >= 1
    ensures forall k :: 0 <= k < |parts| ==> sep !in parts[k]
  {
    if s == [] then [""]
    else
      var rest := Split(s[1..], sep);
      if s[0] == sep then [""] + rest
      else [[s[0]] + rest[0]] + rest[1..]
  }

  /** A string with no separator is one piece. */
  lemma {:induction false} SplitWhole(a: string, sep: char)
    requires sep !in a
    ensures Split(a, sep) == [a]
  {
    if a != [] {
      SplitWhole(a[1..], sep);
      assert [a[0]] + a[1..] == a;
    }
  }

  /** Splitting `a + sep + b` yields `a` followed by the pieces of `b`. */
  lemma {:induction false} SplitAt(a: string, b: string, sep: char)
    requires sep !in a
    ensures Split(a + [sep] + b, sep) == [a] + Split(b, sep)
  {
    var s := a + [sep] + b;
    if a == [] {
      assert s[1..] == b;
    } else {
      assert s[1..] == a[1..] + [sep] + b;
      SplitAt(a[1..], b, sep);
      assert [a[0]] + a[1..] == a;
    }
  }

  /** Two separator-free pieces joined by the separator split back into them. */
  lemma SplitPair(a: string, b: string, sep: char)
    requires sep !in a && sep !in b
    ensures Split(a + [sep] + b, sep) == [a, b]
  {
    SplitAt(a, b, sep);
    SplitWhole(b, sep);
  }

  /** Three separator-free pieces joined by the separator split back into them. */
  lemma SplitTriple(a: string, b: string, c: string, sep: char)
    requires sep !in a && sep !in b && sep !in c
    ensures Split(a + [sep] + b + [sep] + c, sep) == [a, b, c]
  {
    assert a + [sep] + b + [sep] + c == a + [sep] + (b + [sep] + c);
    SplitAt(a, b + [sep] + c, sep);
    SplitPair(b, c, sep);
  }

  /** A numeral holds no character other than digits. */
  lemma NumeralLacks(s: string, c: char)
    requires AllDigits(s) && !IsDigit(c)
    ensures c !in s
  {
    forall i | 0 <= i < |s|
      ensures s[i] != c
    {
      assert IsDigit(s[i]);
    }
  }

  /** `Trim` leaves a numeral alone. */
  lemma TrimOfDigits(s: string)
    ensures AllDigits(s) ==> Trim(s) == s
  {
    if AllDigits(s) && s != [] {
      assert !IsWhitespace(s[0]);
      assert TrimStart(s) == s;
      assert !IsWhitespace(s[|s| - 1]);
    }
  }
}
