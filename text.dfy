/** The few pieces of Python's string behaviour that main.py relies on:
    the `in` substring test, `str.split()`, `str.split(sep)`, `str(int)`
    and `int(str)`. */
module Text {
  import opened Wrappers
  import opened Sequences

  // ---------------------------------------------------------------------
  // Substring test: `p in s`
  // ---------------------------------------------------------------------

  predicate IsPrefix(p: string, s: string) {
    |p| <= |s| && s[..|p|] == p
  }

  /** Python's `p in s` for strings: p occurs somewhere in s as a block. */
  predicate Contains(s: string, p: string)
    decreases |s|
  {
    IsPrefix(p, s) || (|s| > 0 && Contains(s[1..], p))
  }

  /** Every character of an occurring pattern occurs in the string. */
  lemma {:induction false} ContainsChar(s: string, p: string, i: nat)
    requires Contains(s, p) && i < |p|
    ensures p[i] in s
    decreases |s|
  {
    if IsPrefix(p, s) {
      assert s[i] == p[i];
    } else {
      ContainsChar(s[1..], p, i);
      assert p[i] in s[1..];
    }
  }

  /** A pattern holding a character the string lacks does not occur in it. */
  lemma NotContains(s: string, p: string, c: char)
    requires c in p && c !in s
    ensures !Contains(s, p)
  {
    if Contains(s, p) {
      var i :| 0 <= i < |p| && p[i] == c;
      ContainsChar(s, p, i);
    }
  }

  /** An occurring pattern occurs at some index i. */
  lemma {:induction false} ContainsAt(s: string, p: string) returns (i: nat)
    requires Contains(s, p)
    ensures i + |p| <= |s|
    ensures forall m :: 0 <= m < |p| ==> s[i + m] == p[m]
    decreases |s|
  {
    if IsPrefix(p, s) {
      i := 0;
      assert forall m :: 0 <= m < |p| ==> s[m] == s[..|p|][m];
    } else {
      var k := ContainsAt(s[1..], p);
      i := k + 1;
      forall m | 0 <= m < |p| ensures s[i + m] == p[m] {
        assert s[1..][k + m] == s[i + m];
      }
    }
  }

  /** When the last character of p occurs in s only at j, and the
      character before j is not the one before p's last, p does not occur. */
  lemma NotContainsPair(s: string, p: string, j: nat)
    requires |p| >= 2 && 0 < j < |s|
    requires forall i :: 0 <= i < |s| && s[i] == p[|p| - 1] ==> i == j
    requires s[j - 1] != p[|p| - 2]
    ensures !Contains(s, p)
  {
    if Contains(s, p) {
      var i := ContainsAt(s, p);
      assert false;
    }
  }

  lemma PrefixContains(p: string, rest: string)
    ensures Contains(p + rest, p)
  {
    assert (p + rest)[..|p|] == p;
  }

  // ---------------------------------------------------------------------
  // Whitespace splitting: `s.split()`
  // ---------------------------------------------------------------------

  /** The characters Python's `str.isspace()` accepts. */
  predicate IsSpace(c: char) {
    || (9 <= c as int <= 13) || (28 <= c as int <= 32)
    || c as int == 0x85 || c as int == 0xA0 || c as int == 0x1680
    || (0x2000 <= c as int <= 0x200A) || c as int == 0x2028 || c as int == 0x2029
    || c as int == 0x202F || c as int == 0x205F || c as int == 0x3000
  }

  predicate NoSpace(s: string) {
    forall i :: 0 <= i < |s| ==> !IsSpace(s[i])
  }

  /** The longest prefix of s without whitespace; WordMeaning states that
      it is one. */
  function Word(s: string): (w: string)
    ensures |w| <= |s|
    ensures |s| > 0 && !IsSpace(s[0]) ==> |w| > 0
  {
    if s == [] || IsSpace(s[0]) then [] else [s[0]] + Word(s[1..])
  }

  lemma {:induction false} WordMeaning(s: string)
    ensures Word(s) == s[..|Word(s)|] && NoSpace(Word(s))
    ensures |Word(s)| == |s| || IsSpace(s[|Word(s)|])
  {
    if s != [] && !IsSpace(s[0]) {
      WordMeaning(s[1..]);
      var w := Word(s[1..]);
      assert Word(s) == [s[0]] + w;
      assert s[..|w| + 1] == [s[0]] + s[1..][..|w|];
    }
  }

  /** Python's `s.split()`: the maximal whitespace-free blocks of s, in order. */
  function Split(s: string): (words: seq<string>)
    decreases |s|
  {
    if s == [] then []
    else if IsSpace(s[0]) then Split(s[1..])
    else
      var w := Word(s);
      [w] + Split(s[|w|..])
  }

  /** Every piece `split()` returns is a nonempty block without whitespace. */
  lemma {:induction false} SplitWords(s: string)
    ensures forall i :: 0 <= i < |Split(s)| ==> Split(s)[i] != [] && NoSpace(Split(s)[i])
    decreases |s|
  {
    if s != [] {
      if IsSpace(s[0]) {
        SplitWords(s[1..]);
      } else {
        WordMeaning(s);
        SplitWords(s[|Word(s)|..]);
      }
    }
  }

  lemma WordOf(w: string, rest: string)
    requires NoSpace(w)
    requires rest == [] || IsSpace(rest[0])
    ensures Word(w + rest) == w
  {
    var x := w + rest;
    WordMeaning(x);
    var v := Word(x);
    assert v == x[..|w|] == w;
  }

  /** A single word splits to itself. */
  lemma SplitWord(w: string)
    requires w != [] && NoSpace(w)
    ensures Split(w) == [w]
  {
    WordOf(w, []);
    assert w + [] == w;
    assert w[|w|..] == [];
  }

  /** Splitting `w + " " + rest` yields w followed by the split of rest. */
  lemma SplitJoin(w: string, rest: string)
    requires w != [] && NoSpace(w)
    ensures Split(w + " " + rest) == [w] + Split(rest)
  {
    JoinParts(w, rest);
    WordOf(w, " " + rest);
  }

  lemma JoinParts(w: string, rest: string)
    ensures w + " " + rest == w + (" " + rest)
    ensures (w + " " + rest)[|w|..] == " " + rest
    ensures (" " + rest)[0] == ' ' && (" " + rest)[1..] == rest
  {
    assert w + " " + rest == w + (" " + rest);
  }

  /** Four words joined by single spaces split back into those four. */
  lemma SplitFour(a: string, b: string, c: string, d: string)
    requires a != [] && NoSpace(a) && b != [] && NoSpace(b)
    requires c != [] && NoSpace(c) && d != [] && NoSpace(d)
    ensures Split(a + " " + b + " " + c + " " + d) == [a, b, c, d]
  {
    JoinFour(a, b, c, d);
    SplitJoin(a, b + " " + (c + " " + d));
    SplitJoin(b, c + " " + d);
    SplitJoin(c, d);
    SplitWord(d);
    ConsFour(a, b, c, d);
  }

  lemma JoinFour(a: string, b: string, c: string, d: string)
    ensures a + " " + b + " " + c + " " + d == a + " " + (b + " " + (c + " " + d))
  {
  }

  lemma NoSpaceConcat(s: string, t: string)
    requires NoSpace(s) && NoSpace(t)
    ensures NoSpace(s + t)
  {
    forall i | 0 <= i < |s + t| ensures !IsSpace((s + t)[i]) {
      if i >= |s| { assert (s + t)[i] == t[i - |s|]; }
    }
  }

  // ---------------------------------------------------------------------
  // Separator splitting: `s.split(c)` for a one-character separator
  // ---------------------------------------------------------------------

  /** Python's `s.split(c)`: the pieces between occurrences of c, empty
      pieces kept, so there is always one piece more than separators. */
  function SplitOn(s: string, c: char): (pieces: seq<string>)
    ensures |pieces| >= 1
  {
    if s == [] then [[]]
    else
      var rest := SplitOn(s[1..], c);
      if s[0] == c then [[]] + rest else [[s[0]] + rest[0]] + rest[1..]
  }

  lemma {:induction false} SplitOnNoSeparator(s: string, c: char)
    requires c !in s
    ensures SplitOn(s, c) == [s]
  {
    if s != [] {
      SplitOnNoSeparator(s[1..], c);
      assert [s[0]] + s[1..] == s;
    }
  }

  lemma {:induction false} SplitOnFirst(a: string, c: char, b: string)
    requires c !in a
    ensures SplitOn(a + [c] + b, c) == [a] + SplitOn(b, c)
  {
    if a == [] {
      assert ([c] + b)[1..] == b;
    } else {
      SplitOnFirst(a[1..], c, b);
      assert (a + [c] + b)[1..] == a[1..] + [c] + b;
      assert [a[0]] + a[1..] == a;
    }
  }

  /** A string holding the separator splits into at least two pieces. */
  lemma {:induction false} SplitOnSeveral(s: string, c: char)
    requires c in s
    ensures |SplitOn(s, c)| >= 2
  {
    if s[0] != c {
      SplitOnSeveral(s[1..], c);
    }
  }

  // ---------------------------------------------------------------------
  // Integers: `str(n)` and `int(s)`
  // ---------------------------------------------------------------------

  predicate IsDigit(c: char) {
    '0' <= c <= '9'
  }

  predicate AllDigits(s: string) {
    forall i :: 0 <= i < |s| ==> IsDigit(s[i])
  }

  function DigitChar(d: nat): (c: char)
    requires d < 10
    ensures IsDigit(c) && c as int - '0' as int == d
  {
    ('0' as int + d) as char
  }

  /** Decimal digits of n, most significant first, no leading zeros. */
  function NatStr(n: nat): (s: string)
    ensures s != [] && AllDigits(s)
    ensures s[0] == '0' ==> n == 0
  {
    if n < 10 then [DigitChar(n)] else NatStr(n / 10) + [DigitChar(n % 10)]
  }

  /** Python's `str(n)` for an int. */
  function IntStr(n: int): string {
    if n < 0 then "-" + NatStr(-n) else NatStr(n)
  }

  /** The value of a block of decimal digits. */
  function DigitsValue(s: string): nat
    requires AllDigits(s)
  {
    if s == [] then 0 else DigitsValue(s[..|s| - 1]) * 10 + (s[|s| - 1] as int - '0' as int)
  }

  /** Python's `int(s)` on a string: an optional sign then at least one
      ASCII digit; anything else raises ValueError, modelled as None. */
  function ParseInt(s: string): Option<int> {
    if |s| > 0 && (s[0] == '-' || s[0] == '+') then
      if |s| > 1 && AllDigits(s[1..]) then
        var magnitude: int := DigitsValue(s[1..]);
        Some(if s[0] == '-' then -magnitude else magnitude)
      else None
    else if |s| > 0 && AllDigits(s) then Some(DigitsValue(s))
    else None
  }

  lemma {:induction false} DigitsValueOfNatStr(n: nat)
    ensures DigitsValue(NatStr(n)) == n
  {
    if n >= 10 {
      DigitsValueOfNatStr(n / 10);
      var s := NatStr(n);
      assert s[..|s| - 1] == NatStr(n / 10);
    }
  }

  /** `int(str(n)) == n`. */
  lemma ParseIntStr(n: int)
    ensures ParseInt(IntStr(n)) == Some(n)
  {
    if n < 0 {
      DigitsValueOfNatStr(-n);
      ParseNegative(NatStr(-n));
    } else {
      DigitsValueOfNatStr(n);
      ParseUnsigned(NatStr(n));
    }
  }

  lemma ParseUnsigned(s: string)
    requires s != [] && AllDigits(s)
    ensures ParseInt(s) == Some(DigitsValue(s))
  {
    assert IsDigit(s[0]);
  }

  lemma ParseNegative(s: string)
    requires s != [] && AllDigits(s)
    ensures ParseInt("-" + s) == Some(-(DigitsValue(s) as int))
  {
    assert ("-" + s)[1..] == s;
  }

  /** `str(n)` holds only digits and perhaps a leading minus sign. */
  lemma IntStrChars(n: int)
    ensures IntStr(n) != []
    ensures forall i :: 0 <= i < |IntStr(n)| ==> IsDigit(IntStr(n)[i]) || (i == 0 && IntStr(n)[i] == '-')
  {
  }
}
