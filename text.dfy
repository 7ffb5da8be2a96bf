/**
 * The few Python string operations the feeder library relies on:
 * strip, upper/lower, substring tests, single-character replace,
 * `f"{n:02d}"` formatting, `int()` on digit strings and the lenient
 * byte-to-text decoding of device names.
 */
module Text {
  import opened Common

  /** Python's `str.isspace()`: the characters `str.strip()` removes. */
  predicate IsSpace(c: char) {
    || '\t' <= c <= '\r'
    || '\U{1c}' <= c <= '\U{1f}'
    || c == ' '
    || c == '\U{85}'
    || c == '\U{a0}'
    || c == '\U{1680}'
    || '\U{2000}' <= c <= '\U{200a}'
    || c == '\U{2028}' || c == '\U{2029}'
    || c == '\U{202f}' || c == '\U{205f}'
    || c == '\U{3000}'
  }

  /** The NUL padding character removed by `strip('\x00')`. */
  predicate IsNul(c: char) {
    c == '\0'
  }

  /** Drops the leading characters that satisfy `drop`. */
  function TrimStart(s: string, drop: char -> bool): (r: string)
    ensures |r| <= |s|
  {
    if s != [] && drop(s[0]) then TrimStart(s[1..], drop) else s
  }

  /** Drops the trailing characters that satisfy `drop`. */
  function TrimEnd(s: string, drop: char -> bool): (r: string)
    ensures |r| <= |s|
  {
    if s != [] && drop(s[|s| - 1]) then TrimEnd(s[..|s| - 1], drop) else s
  }

  /** What `TrimStart` keeps: a suffix that does not start with a droppable character, after only droppable ones. */
  lemma {:induction false} TrimStartSpec(s: string, drop: char -> bool)
    ensures var r := TrimStart(s, drop);
      && r == s[|s| - |r|..]
      && (r != [] ==> !drop(r[0]))
      && (forall i :: 0 <= i < |s| - |r| ==> drop(s[i]))
  {
    if s != [] && drop(s[0]) {
      TrimStartSpec(s[1..], drop);
      var r := TrimStart(s, drop);
      forall i | 0 <= i < |s| - |r| ensures drop(s[i]) {
        if i > 0 {
          assert s[i] == s[1..][i - 1];
        }
      }
    }
  }

  /** What `TrimEnd` keeps: a prefix that does not end with a droppable character, before only droppable ones. */
  lemma {:induction false} TrimEndSpec(s: string, drop: char -> bool)
    ensures var r := TrimEnd(s, drop);
      && r == s[..|r|]
      && (r != [] ==> !drop(r[|r| - 1]))
      && (forall i :: |r| <= i < |s| ==> drop(s[i]))
  {
    if s != [] && drop(s[|s| - 1]) {
      TrimEndSpec(s[..|s| - 1], drop);
      var r := TrimEnd(s, drop);
      forall i | |r| <= i < |s| ensures drop(s[i]) {
        if i < |s| - 1 {
          assert s[i] == s[..|s| - 1][i];
        }
      }
    }
  }

  /** Python's `s.strip(chars)`: trims both ends. */
  function Trim(s: string, drop: char -> bool): string {
    TrimEnd(TrimStart(s, drop), drop)
  }

  /** Python's `s.strip()` with no argument. */
  function Strip(s: string): string {
    Trim(s, IsSpace)
  }

  /**
   * What a trim keeps: the slice `s[i..j]`, whose two end characters are
   * kept, with every character outside it droppable.
   */
  lemma TrimIsSlice(s: string, drop: char -> bool) returns (i: nat, j: nat)
    ensures i <= j <= |s| && Trim(s, drop) == s[i..j]
    ensures forall k :: 0 <= k < i ==> drop(s[k])
    ensures forall k :: j <= k < |s| ==> drop(s[k])
    ensures i < j ==> !drop(s[i]) && !drop(s[j - 1])
  {
    var t := TrimStart(s, drop);
    var u := TrimEnd(t, drop);
    TrimStartSpec(s, drop);
    TrimEndSpec(t, drop);
    i := |s| - |t|;
    j := i + |u|;
    assert t == s[i..];
    assert u == t[..|u|];
    forall k | j <= k < |s| ensures drop(s[k]) {
      assert s[k] == t[k - i];
    }
    if i < j {
      assert s[i] == u[0] && s[j - 1] == u[|u| - 1];
    }
  }

  /** ASCII upper-casing of one character. */
  function UpperChar(c: char): char {
    if 'a' <= c <= 'z' then (c as int - 32) as char else c
  }

  /** ASCII lower-casing of one character. */
  function LowerChar(c: char): char {
    if 'A' <= c <= 'Z' then (c as int + 32) as char else c
  }

  /** Python's `s.upper()` restricted to the ASCII letters. */
  function Upper(s: string): string
  {
    seq(|s|, i requires 0 <= i < |s| => UpperChar(s[i]))
  }

  /** Python's `s.lower()` restricted to the ASCII letters. */
  function Lower(s: string): string
  {
    seq(|s|, i requires 0 <= i < |s| => LowerChar(s[i]))
  }

  /**
   * Upper-casing leaves no lower-case ASCII letter, turns each one into its
   * capital, keeps every other character, changes nothing when repeated,
   * and loses nothing that lower-casing would keep.
   */
  lemma UpperSpec(s: string)
    ensures forall c :: c in Upper(s) ==> !('a' <= c <= 'z')
    ensures forall i :: 0 <= i < |s| && 'a' <= s[i] <= 'z' ==> Upper(s)[i] as int == s[i] as int - 32
    ensures forall i :: 0 <= i < |s| && !('a' <= s[i] <= 'z') ==> Upper(s)[i] == s[i]
    ensures Upper(Upper(s)) == Upper(s)
    ensures Lower(Upper(s)) == Lower(s)
  {
    var u := Upper(s);
    forall c | c in u ensures !('a' <= c <= 'z') {
      var i :| 0 <= i < |u| && u[i] == c;
    }
  }

  /**
   * Lower-casing leaves no upper-case ASCII letter, turns each one into its
   * small letter, keeps every other character, changes nothing when
   * repeated, and loses nothing that upper-casing would keep.
   */
  lemma LowerSpec(s: string)
    ensures forall c :: c in Lower(s) ==> !('A' <= c <= 'Z')
    ensures forall i :: 0 <= i < |s| && 'A' <= s[i] <= 'Z' ==> Lower(s)[i] as int == s[i] as int + 32
    ensures forall i :: 0 <= i < |s| && !('A' <= s[i] <= 'Z') ==> Lower(s)[i] == s[i]
    ensures Lower(Lower(s)) == Lower(s)
    ensures Upper(Lower(s)) == Upper(s)
  {
    var l := Lower(s);
    forall c | c in l ensures !('A' <= c <= 'Z') {
      var i :| 0 <= i < |l| && l[i] == c;
    }
  }

  /** `sub` occurs in `s` starting at index `i`. */
  predicate OccursAt(s: string, sub: string, i: int) {
    0 <= i <= |s| - |sub| && s[i..i + |sub|] == sub
  }

  /** Python's `sub in s`. */
  predicate Contains(s: string, sub: string) {
    exists i | 0 <= i <= |s| - |sub| :: OccursAt(s, sub, i)
  }

  /** A string that contains `sub` contains every slice of `sub`. */
  lemma ContainsSlice(s: string, sub: string, a: nat, b: nat)
    requires a <= b <= |sub|
    requires Contains(s, sub)
    ensures Contains(s, sub[a..b])
  {
    var i :| 0 <= i <= |s| - |sub| && OccursAt(s, sub, i);
    var lo, hi := i + a, i + b;
    forall k | 0 <= k < b - a ensures s[lo..hi][k] == sub[a..b][k] {
      assert sub[a + k] == s[i..i + |sub|][a + k];
    }
    assert s[lo..hi] == sub[a..b];
    assert OccursAt(s, sub[a..b], lo);
  }

  /** Python's `s.replace(old, new)` for single characters. */
  function Replace(s: string, from: char, to: char): string
  {
    seq(|s|, i requires 0 <= i < |s| => if s[i] == from then to else s[i])
  }

  /**
   * After replacing, `from` no longer occurs (unless it is also `to`), every
   * other character stays where it was, a string without `from` comes back
   * unchanged, and replacing again changes nothing.
   */
  lemma ReplaceSpec(s: string, from: char, to: char)
    ensures from != to ==> from !in Replace(s, from, to)
    ensures forall i :: 0 <= i < |s| && s[i] != from ==> Replace(s, from, to)[i] == s[i]
    ensures from !in s ==> Replace(s, from, to) == s
    ensures Replace(Replace(s, from, to), from, to) == Replace(s, from, to)
  {
    var r := Replace(s, from, to);
    if from != to {
      forall i | 0 <= i < |r| ensures r[i] != from {
      }
    }
    if from !in s {
      forall i | 0 <= i < |s| ensures r[i] == s[i] {
        assert s[i] in s;
      }
    }
  }

  predicate IsDigit(c: char) {
    '0' <= c <= '9'
  }

  predicate AllDigits(s: string) {
    forall i :: 0 <= i < |s| ==> IsDigit(s[i])
  }

  function DigitChar(d: nat): (c: char)
    requires d < 10
    ensures IsDigit(c)
  {
    ('0' as int + d) as char
  }

  /** `str(n)` for a natural number: its decimal digits, no leading zero. */
  function Decimal(n: nat): (r: string)
    ensures 1 <= |r|
    ensures |r| == 1 <==> n < 10
    ensures n >= 10 ==> r[0] != '0'
  {
    if n < 10 then [DigitChar(n)] else Decimal(n / 10) + [DigitChar(n % 10)]
  }

  /** `f"{n:02d}"`: zero-padded on the left to at least two digits. */
  function Pad2(n: nat): string {
    if n < 10 then "0" + Decimal(n) else Decimal(n)
  }

  /** Below 100, `f"{n:02d}"` is the tens digit then the units digit. */
  lemma Pad2TwoDigits(n: nat)
    requires n < 100
    ensures Pad2(n) == [DigitChar(n / 10), DigitChar(n % 10)]
  {
    if n >= 10 {
      assert Decimal(n) == Decimal(n / 10) + [DigitChar(n % 10)];
    }
  }

  /** The decimal text of a number consists of digits only. */
  lemma {:induction false} DecimalDigits(n: nat)
    ensures AllDigits(Decimal(n))
  {
    if n >= 10 {
      DecimalDigits(n / 10);
    }
  }

  /** `int(s)` on a non-empty string of decimal digits. */
  function ParseDecimal(s: string): nat
    requires AllDigits(s)
  {
    if s == [] then 0 else ParseDecimal(s[..|s| - 1]) * 10 + (s[|s| - 1] as int - '0' as int)
  }

  /** Reading the decimal text of `n` back gives `n`. */
  lemma {:induction false} ParseDecimalOfDecimal(n: nat)
    ensures AllDigits(Decimal(n)) && ParseDecimal(Decimal(n)) == n
  {
    DecimalDigits(n);
    if n >= 10 {
      var r := Decimal(n);
      assert r[..|r| - 1] == Decimal(n / 10);
      ParseDecimalOfDecimal(n / 10);
    }
  }

  /** A leading zero does not change the value `int()` reads. */
  lemma {:induction false} ParseDecimalLeadingZero(s: string)
    requires AllDigits(s)
    ensures ParseDecimal("0" + s) == ParseDecimal(s)
  {
    if s != [] {
      assert ("0" + s)[..|s|] == "0" + s[..|s| - 1];
      ParseDecimalLeadingZero(s[..|s| - 1]);
    }
  }

  /**
   * `int(f"{n:02d}") == n`, and the text is two digits below 100 and
   * three from 100 to 999.
   */
  lemma Pad2RoundTrip(n: nat)
    ensures AllDigits(Pad2(n)) && ParseDecimal(Pad2(n)) == n
    ensures n < 100 ==> |Pad2(n)| == 2
    ensures 100 <= n < 1000 ==> |Pad2(n)| == 3
  {
    ParseDecimalOfDecimal(n);
    if n < 10 {
      assert AllDigits("0" + Decimal(n));
      ParseDecimalLeadingZero(Decimal(n));
    }
    if n >= 10 {
      assert |Decimal(n)| == |Decimal(n / 10)| + 1;
      if n >= 100 {
        assert |Decimal(n / 10)| == |Decimal(n / 100)| + 1;
      }
    }
  }

  /** Different numbers never print the same `02d` text. */
  lemma Pad2Injective(a: nat, b: nat)
    requires Pad2(a) == Pad2(b)
    ensures a == b
  {
    Pad2RoundTrip(a);
    Pad2RoundTrip(b);
  }

  /**
   * Python's `bytes.decode('utf-8', errors='ignore')` on the bytes the
   * model keeps: each ASCII byte is its character; every other byte is
   * dropped.
   */
  function DecodeAscii(bytes: seq<byte>): (r: string)
    ensures |r| <= |bytes|
    ensures forall i :: 0 <= i < |r| ==> r[i] < '\U{80}'
    ensures (forall i :: 0 <= i < |bytes| ==> bytes[i] < 0x80) ==>
              |r| == |bytes| && forall i :: 0 <= i < |r| ==> r[i] as int == bytes[i]
  {
    if bytes == [] then []
    else (if bytes[0] < 0x80 then [bytes[0] as char] else []) + DecodeAscii(bytes[1..])
  }
}
