/** The pieces of Ruby's core library that the generator's string and integer
    computations rely on: the two regular expressions it matches, `tr` of the
    space character, `str[2..-1]`, `Integer#to_s` and floored division. */
module Ruby {
  import opened Results

  // ---------------------------------------------------------------------
  // Character classes of Ruby regular expressions
  // ---------------------------------------------------------------------

  /** `\s`: space, tab, line feed, vertical tab, form feed, carriage return. */
  predicate IsSpaceChar(c: char) {
    c == ' ' || c == '\t' || c == '\n' || c == '\r' || c as int == 0x0B || c as int == 0x0C
  }

  /** `\w`: an ASCII letter, digit or underscore. */
  predicate IsWordChar(c: char) {
    ('a' <= c <= 'z') || ('A' <= c <= 'Z') || ('0' <= c <= '9') || c == '_'
  }

  /** Where `^` matches: the start of the string or just after a line feed. */
  predicate AtLineStart(s: string, i: int) {
    0 <= i <= |s| && (i == 0 || s[i - 1] == '\n')
  }

  /** `unsigned\s+\w` matches at position `i`: the word "unsigned", one or
      more `\s` characters, then a `\w` character (the rest of `\w+` may be
      anything, the pattern is not anchored at the end). */
  predicate UnsignedAt(s: string, i: nat)
    requires i <= |s|
  {
    && i + 8 < |s|
    && s[i..i + 8] == "unsigned"
    && exists j | i + 8 < j < |s| ::
         IsWordChar(s[j]) && forall k | i + 8 <= k < j :: IsSpaceChar(s[k])
  }

  /** `s =~ /^unsigned\s+\w+/`. */
  predicate MatchesUnsigned(s: string): (b: bool)
    ensures b ==> |s| >= 10
  {
    exists i | 0 <= i <= |s| :: AtLineStart(s, i) && UnsignedAt(s, i)
  }

  /** `s =~ /^\_{2}/`: some line of `s` starts with two underscores. */
  predicate LeadingDoubleUnderscore(s: string): (b: bool)
    ensures b ==> |s| >= 2
  {
    exists i | 0 <= i <= |s| :: AtLineStart(s, i) && i + 2 <= |s| && s[i] == '_' && s[i + 1] == '_'
  }

  /** On a one-line string the `unsigned` pattern matches exactly when the
      string itself begins with it. */
  lemma MatchesUnsignedOneLine(s: string)
    requires '\n' !in s
    ensures MatchesUnsigned(s) <==> UnsignedAt(s, 0)
  {
    if MatchesUnsigned(s) {
      var i :| 0 <= i <= |s| && AtLineStart(s, i) && UnsignedAt(s, i);
      assert i == 0;
    }
    if UnsignedAt(s, 0) {
      assert AtLineStart(s, 0);
    }
  }

  /** On a one-line string `^\_{2}` matches exactly when the string begins
      with two underscores. */
  lemma LeadingDoubleUnderscoreOneLine(s: string)
    requires '\n' !in s
    ensures LeadingDoubleUnderscore(s) <==> "__" <= s
  {
    if LeadingDoubleUnderscore(s) {
      var i :| 0 <= i <= |s| && AtLineStart(s, i) && i + 2 <= |s| && s[i] == '_' && s[i + 1] == '_';
      assert i == 0;
    }
    if "__" <= s {
      assert AtLineStart(s, 0) && s[0] == '_' && s[1] == '_';
    }
  }

  /** "unsigned", a space and a word, the way the API spells its unsigned
      types, is recognised by the pattern. */
  lemma UnsignedWordMatches(w: string)
    requires |w| > 0 && IsWordChar(w[0])
    ensures MatchesUnsigned("unsigned " + w)
  {
    var s := "unsigned " + w;
    assert s[..8] == "unsigned";
    assert s[9] == w[0];
    assert IsWordChar(s[9]) && forall k | 8 <= k < 9 :: IsSpaceChar(s[k]);
    assert UnsignedAt(s, 0);
    assert AtLineStart(s, 0);
  }

  // ---------------------------------------------------------------------
  // String#tr("\s", '_') and String#[2..-1]
  // ---------------------------------------------------------------------

  /** `s.tr("\s", '_')`. In a double-quoted Ruby string `"\s"` is the space
      character alone, so only spaces are replaced, each by "_", and every
      other character stays where it is. */
  function TrSpace(s: string): (r: string)
    ensures |r| == |s|
    ensures ' ' !in r
  {
    seq(|s|, i requires 0 <= i < |s| => if s[i] == ' ' then '_' else s[i])
  }

  /** A name without spaces passes through `tr` unchanged. */
  lemma TrSpaceIdentity(s: string)
    requires ' ' !in s
    ensures TrSpace(s) == s
  {
    forall i | 0 <= i < |s| ensures TrSpace(s)[i] == s[i] {
      assert s[i] in s;
    }
  }

  /** `tr` works character by character, so it distributes over
      concatenation. */
  lemma TrSpaceConcat(a: string, b: string)
    ensures TrSpace(a + b) == TrSpace(a) + TrSpace(b)
  {
    forall i | 0 <= i < |a| + |b| ensures TrSpace(a + b)[i] == (TrSpace(a) + TrSpace(b))[i] {
      if i >= |a| {
        assert (a + b)[i] == b[i - |a|];
      }
    }
  }

  /** Two space-free words around one space come out joined by "_". */
  lemma TrSpaceOneSpace(a: string, b: string)
    requires ' ' !in a && ' ' !in b
    ensures TrSpace(a + " " + b) == a + "_" + b
  {
    var s := a + " " + b;
    var r := TrSpace(s);
    forall i | 0 <= i < |s| ensures r[i] == (a + "_" + b)[i] {
      if i < |a| {
        assert s[i] == a[i] && a[i] in a;
      } else if i > |a| {
        assert s[i] == b[i - |a| - 1] && b[i - |a| - 1] in b;
      }
    }
  }

  /** `s[2..-1]`: the string without its first two characters, or `nil`
      when `s` is shorter than two characters. */
  function DropTwo(s: string): (r: Option<string>)
    ensures r.Some? <==> |s| >= 2
    ensures r.Some? ==> s == s[..2] + r.value
  {
    if |s| >= 2 then Some(s[2..]) else None
  }

  // ---------------------------------------------------------------------
  // Integer#to_s and its inverse
  // ---------------------------------------------------------------------

  predicate IsDigit(c: char) {
    '0' <= c <= '9'
  }

  function DigitChar(d: nat): (c: char)
    requires d < 10
    ensures IsDigit(c)
  {
    ('0' as int + d) as char
  }

  function DigitValue(c: char): (d: nat)
    requires IsDigit(c)
    ensures d < 10
  {
    c as int - '0' as int
  }

  /** Decimal digits of a natural number, most significant first. */
  function NatToString(n: nat): (r: string)
    ensures |r| >= 1
    ensures forall i | 0 <= i < |r| :: IsDigit(r[i])
    ensures |r| > 1 ==> r[0] != '0'
  {
    if n < 10 then [DigitChar(n)] else NatToString(n / 10) + [DigitChar(n % 10)]
  }

  /** `n.to_s`: a minus sign for negative numbers, then the digits. */
  function IntToString(n: int): (r: string)
    ensures IsIntText(r)
    ensures r[0] == '-' <==> n < 0
  {
    if n < 0 then "-" + NatToString(-n) else NatToString(n)
  }

  /** Reads back a string of decimal digits. */
  function ParseNat(s: string): nat
    requires forall i | 0 <= i < |s| :: IsDigit(s[i])
  {
    if s == [] then 0 else ParseNat(s[..|s| - 1]) * 10 + DigitValue(s[|s| - 1])
  }

  /** An optional minus sign followed by decimal digits. */
  predicate IsIntText(s: string) {
    && |s| > 0
    && (s[0] == '-' ==> forall i | 1 <= i < |s| :: IsDigit(s[i]))
    && (s[0] != '-' ==> forall i | 0 <= i < |s| :: IsDigit(s[i]))
  }

  /** Reads back an optionally negative decimal numeral. */
  function ParseInt(s: string): int
    requires IsIntText(s)
  {
    if s[0] == '-' then -(ParseNat(s[1..]) as int) else ParseNat(s)
  }

  lemma {:induction false} NatToStringRoundTrip(n: nat)
    ensures ParseNat(NatToString(n)) == n
  {
    if n >= 10 {
      var s := NatToString(n / 10);
      var d := DigitChar(n % 10);
      assert NatToString(n) == s + [d];
      assert (s + [d])[..|s|] == s;
      NatToStringRoundTrip(n / 10);
    }
  }

  /** `Integer#to_s` loses nothing: the numeral reads back as the number,
      so two different integers never render alike. */
  lemma IntToStringRoundTrip(n: int)
    ensures ParseInt(IntToString(n)) == n
  {
    if n < 0 {
      NatToStringRoundTrip(-n);
      assert IntToString(n)[1..] == NatToString(-n);
    } else {
      NatToStringRoundTrip(n);
    }
  }

  lemma IntToStringInjective(m: int, n: int)
    requires IntToString(m) == IntToString(n)
    ensures m == n
  {
    IntToStringRoundTrip(m);
    IntToStringRoundTrip(n);
  }

  // ---------------------------------------------------------------------
  // Integer#/ and Integer#% (floored, unlike Dafny's Euclidean operators)
  // ---------------------------------------------------------------------

  /** `a / b` on Ruby integers: rounds toward negative infinity. */
  function FloorDiv(a: int, b: int): (q: int)
    requires b != 0
    ensures b > 0 ==> b * q <= a < b * q + b
    ensures b < 0 ==> b * q + b < a <= b * q
  {
    if b > 0 then a / b else (-a) / (-b)
  }

  /** `a % b` on Ruby integers: the remainder takes the sign of `b`. */
  function FloorMod(a: int, b: int): (m: int)
    requires b != 0
    ensures a == b * FloorDiv(a, b) + m
    ensures b > 0 ==> 0 <= m < b
    ensures b < 0 ==> b < m <= 0
  {
    a - b * FloorDiv(a, b)
  }
}
