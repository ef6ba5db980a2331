/**
 * Printers and parsers of the user interface: sums in groups of three digits, and times of day.
 */
module Format {
  import opened Options

  // ── Decimal digits ───────────────────────────────────────────────────────

  predicate IsDigit(c: char) {
    '0' <= c <= '9'
  }

  function Digit(n: nat): char
    requires n < 10
  {
    '0' + n as char
  }

  function Value(c: char): nat
    requires IsDigit(c)
  {
    (c - '0') as nat
  }

  /** Decimal notation, as the language prints it. */
  function Digits(n: nat): string {
    if n < 10 then [Digit(n)] else Digits(n / 10) + [Digit(n % 10)]
  }

  predicate AllDigits(s: string) {
    forall i :: 0 <= i < |s| ==> IsDigit(s[i])
  }

  function ParseNat(s: string): nat
    requires AllDigits(s)
  {
    if s == "" then 0 else 10 * ParseNat(s[..|s| - 1]) + Value(s[|s| - 1])
  }

  lemma {:induction false} DigitsParse(n: nat)
    ensures Digits(n) != "" && AllDigits(Digits(n)) && ParseNat(Digits(n)) == n
    ensures Digits(n)[0] == '0' ==> n == 0
  {
    if n < 10 {
      assert Digits(n)[..0] == "";
    } else {
      DigitsParse(n / 10);
      assert Digits(n)[..|Digits(n)| - 1] == Digits(n / 10);
    }
  }

  // ── Sums ─────────────────────────────────────────────────────────────────

  /** Groups of three from the right, a space between two groups. */
  function Grouped(digits: string): string {
    if |digits| <= 3 then digits else Grouped(digits[..|digits| - 3]) + " " + digits[|digits| - 3..]
  }

  function SumText(value: int): string {
    if value < 0 then "-" + Grouped(Digits(-value)) else Grouped(Digits(value))
  }

  /** What the loop has written before it comes to a given index. */
  function Written(digits: string, n: nat): string
    requires n <= |digits|
  {
    if n == 0 then ""
    else
      var before := Written(digits, n - 1);
      (if n - 1 > 0 && (|digits| - (n - 1)) % 3 == 0 then before + " " else before) + [digits[n - 1]]
  }

  method FormatSum(value: int) returns (text: string)
    ensures text == SumText(value)
  {
    var negative := value < 0;
    var digits := Digits(if negative then -value else value);
    var out := "";
    for index := 0 to |digits|
      invariant out == Written(digits, index)
    {
      if index > 0 && (|digits| - index) % 3 == 0 {
        out := out + " ";
      }
      out := out + [digits[index]];
    }
    WrittenIsGrouped(digits);
    return if negative then "-" + out else out;
  }

  lemma {:induction false} WrittenPrefix(digits: string, n: nat)
    requires n + 3 <= |digits|
    ensures Written(digits, n) == Written(digits[..|digits| - 3], n)
  {
    if n > 0 {
      WrittenPrefix(digits, n - 1);
      assert (|digits| - (n - 1)) % 3 == (|digits| - 3 - (n - 1)) % 3;
    }
  }

  lemma {:induction false} WrittenIsGrouped(digits: string)
    ensures Written(digits, |digits|) == Grouped(digits)
    decreases |digits|
  {
    hide Written;
    var n := |digits|;
    if n <= 3 {
      ShortIsWritten(digits, n);
      assert digits[..n] == digits;
    } else {
      assert digits[..n - 3][..n - 3] == digits[..n - 3];
      WrittenIsGrouped(digits[..n - 3]);
      WrittenPrefix(digits, n - 3);
      LastGroup(digits);
    }
  }

  lemma ThreeAppended(s: string, a: string, b: string, c: string)
    ensures s + a + b + c == s + (a + b + c)
  {
  }

  lemma {:induction false} LastGroup(digits: string)
    requires |digits| > 3
    ensures Written(digits, |digits|) == Written(digits, |digits| - 3) + " " + digits[|digits| - 3..]
  {
    var n := |digits|;
    var front := Written(digits, n - 3) + " ";
    var a, b, c := [digits[n - 3]], [digits[n - 2]], [digits[n - 1]];
    assert Written(digits, n - 2) == front + a;
    assert Written(digits, n - 1) == front + a + b;
    assert Written(digits, n) == front + a + b + c;
    ThreeAppended(front, a, b, c);
    assert digits[n - 3..] == a + b + c;
  }

  lemma {:induction false} ShortIsWritten(digits: string, n: nat)
    requires n <= |digits| <= 3
    ensures Written(digits, n) == digits[..n]
  {
    if n > 0 {
      ShortIsWritten(digits, n - 1);
      assert digits[..n] == digits[..n - 1] + [digits[n - 1]];
    }
  }

  function Strip(s: string): string {
    if s == "" then "" else Strip(s[..|s| - 1]) + if s[|s| - 1] == ' ' then "" else [s[|s| - 1]]
  }

  lemma {:induction false} StripAppend(a: string, b: string)
    ensures Strip(a + b) == Strip(a) + Strip(b)
  {
    if b == "" {
      assert a + b == a;
    } else {
      StripAppend(a, b[..|b| - 1]);
      assert (a + b)[..|a + b| - 1] == a + b[..|b| - 1];
    }
  }

  lemma {:induction false} StripDigits(s: string)
    requires AllDigits(s)
    ensures Strip(s) == s
  {
    if s != "" {
      StripDigits(s[..|s| - 1]);
      assert s == s[..|s| - 1] + [s[|s| - 1]];
    }
  }

  lemma {:induction false} StripUngroups(digits: string)
    requires AllDigits(digits)
    ensures Strip(Grouped(digits)) == digits
    decreases |digits|
  {
    var cut := |digits| - 3;
    if |digits| <= 3 {
      StripDigits(digits);
    } else {
      StripUngroups(digits[..cut]);
      StripDigits(digits[cut..]);
      StripAppend(Grouped(digits[..cut]) + " ", digits[cut..]);
      StripAppend(Grouped(digits[..cut]), " ");
      assert Strip(" ") == "" by { assert " "[..0] == ""; }
      assert digits == digits[..cut] + digits[cut..];
    }
  }

  /** Spaces stand at exactly every fourth place from the right. */
  lemma {:induction false} GroupsOfThree(digits: string, i: nat)
    requires AllDigits(digits) && i < |Grouped(digits)|
    ensures Grouped(digits)[|Grouped(digits)| - 1 - i] == ' ' <==> i % 4 == 3
    ensures digits != "" ==> Grouped(digits)[0] == digits[0]
    decreases |digits|
  {
    if |digits| > 3 {
      var cut := |digits| - 3;
      assert Grouped(digits) == Grouped(digits[..cut]) + " " + digits[cut..];
      assert |Grouped(digits[..cut])| > 0;
      GroupsOfThree(digits[..cut], if i >= 4 then i - 4 else 0);
    }
  }

  function ParseSum(text: string): Option<int> {
    var s := Strip(text);
    if s != "" && s[0] == '-' && AllDigits(s[1..]) then Some(-(ParseNat(s[1..]) as int))
    else if AllDigits(s) then Some(ParseNat(s))
    else None
  }

  lemma ReadDigits(text: string, digits: string)
    requires AllDigits(digits) && digits != ""
    ensures Strip(text) == digits ==> ParseSum(text) == Some(ParseNat(digits) as int)
    ensures Strip(text) == "-" + digits ==> ParseSum(text) == Some(-(ParseNat(digits) as int))
  {
    assert ("-" + digits)[1..] == digits;
  }

  /** A printed sum reads back as the sum, for every integer; so no two sums print alike. */
  lemma SumsReadBack(value: int)
    ensures ParseSum(SumText(value)) == Some(value)
  {
    var n: nat := if value < 0 then -value else value;
    var digits := Digits(n);
    DigitsParse(n);
    StripUngroups(digits);
    ReadDigits(SumText(value), digits);
    if value < 0 {
      StripAppend("-", Grouped(digits));
      assert Strip("-") == "-" by { assert "-"[..0] == ""; }
    }
  }

  // ── Times of day ─────────────────────────────────────────────────────────

  const DAY := 1440

  /** The remainder of the source language: it takes the sign of the dividend. */
  function Rem(a: int, b: int): int
    requires b > 0
  {
    if a < 0 then -((-a) % b) else a % b
  }

  /** None where the original throws. Two digits each are all it asks for. */
  function HhmmToMinutes(s: string): Option<nat> {
    if |s| == 5 && IsDigit(s[0]) && IsDigit(s[1]) && s[2] == ':' && IsDigit(s[3]) && IsDigit(s[4])
    then Some(Hours(s) * 60 + Minutes(s)) else None
  }

  function Hours(s: string): nat
    requires |s| == 5 && IsDigit(s[0]) && IsDigit(s[1])
  {
    Value(s[0]) * 10 + Value(s[1])
  }

  function Minutes(s: string): nat
    requires |s| == 5 && IsDigit(s[3]) && IsDigit(s[4])
  {
    Value(s[3]) * 10 + Value(s[4])
  }

  function Padded(n: nat): string {
    if n < 10 then "0" + Digits(n) else Digits(n)
  }

  function MinutesToHhmm(value: int): string {
    var normalized: nat := Rem(Rem(value, DAY) + DAY, DAY);
    Padded(normalized / 60) + ":" + Padded(normalized % 60)
  }

  lemma PaddedIsTwoDigits(n: nat)
    requires n < 100
    ensures |Padded(n)| == 2 && IsDigit(Padded(n)[0]) && IsDigit(Padded(n)[1])
    ensures Value(Padded(n)[0]) == n / 10 && Value(Padded(n)[1]) == n % 10
  {
    if n >= 10 { assert Digits(n) == [Digit(n / 10)] + [Digit(n % 10)]; }
  }

  lemma TextOfMinutes(v: int)
    ensures var t := MinutesToHhmm(v);
            && HhmmToMinutes(t) == Some(v % DAY)
            && Hours(t) == v % DAY / 60 && Minutes(t) == v % DAY % 60
  {
    var n: nat := Rem(Rem(v, DAY) + DAY, DAY);
    assert n == v % DAY;
    PaddedIsTwoDigits(n / 60);
    PaddedIsTwoDigits(n % 60);
  }

  /** Printing a number of minutes and reading it back gives the minute of the day; hence the
      number itself exactly when it is one. */
  lemma MinutesReadBack(v: int)
    ensures HhmmToMinutes(MinutesToHhmm(v)) == Some(v % DAY)
    ensures HhmmToMinutes(MinutesToHhmm(v)) == Some(v) <==> 0 <= v < DAY
  {
    TextOfMinutes(v);
  }

  /** Reading a time and printing it again gives the same text exactly for real times of day:
      "24:00" and "10:75" are read without complaint and come back as another time. */
  lemma TimesReprintIff(s: string)
    requires HhmmToMinutes(s).Some?
    ensures MinutesToHhmm(HhmmToMinutes(s).value) == s <==> Hours(s) < 24 && Minutes(s) < 60
  {
    hide MinutesToHhmm, Hours, Minutes;
    TextOfMinutes(HhmmToMinutes(s).value);
    MinutesSplit(Hours(s), Minutes(s));
    if Hours(s) < 24 && Minutes(s) < 60 {
      SameText(s, MinutesToHhmm(HhmmToMinutes(s).value));
    }
  }

  lemma MinutesSplit(h: nat, m: nat)
    ensures h < 24 && m < 60 ==> (h * 60 + m) % DAY / 60 == h && (h * 60 + m) % DAY % 60 == m
    ensures (h * 60 + m) % DAY / 60 < 24 && (h * 60 + m) % DAY % 60 < 60
  {
  }

  lemma SameText(s: string, t: string)
    requires HhmmToMinutes(s).Some? && HhmmToMinutes(t).Some? && Hours(s) == Hours(t) && Minutes(s) == Minutes(t)
    ensures s == t
  {
    SameTwoDigits(s[0], s[1], t[0], t[1]);
    SameTwoDigits(s[3], s[4], t[3], t[4]);
  }

  lemma SameTwoDigits(a: char, b: char, c: char, d: char)
    requires IsDigit(a) && IsDigit(b) && IsDigit(c) && IsDigit(d)
    requires Value(a) * 10 + Value(b) == Value(c) * 10 + Value(d)
    ensures a == c && b == d
  {
    assert Value(a) == Value(c) && Value(b) == Value(d);
  }
}
