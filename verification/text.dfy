/** Strings as the C library sees them: strsep on commas, strstr, strtol, and the
    decimal and hexadecimal conversions of printf. */
module Text {
  import opened CArithmetic

  // ---- comma-separated tokens ----

  /** Where strsep cuts: the first comma, or the end. */
  function CommaIndex(s: string): (i: nat)
    ensures i <= |s| && ',' !in s[..i] && (i < |s| ==> s[i] == ',')
  {
    if s == "" || s[0] == ',' then 0
    else
      var j := CommaIndex(s[1..]);
      assert s[..1 + j] == [s[0]] + s[1..][..j];
      1 + j
  }

  function Split(s: string): (tokens: seq<string>)
    ensures |tokens| > 0
    decreases |s|
  {
    var i := CommaIndex(s);
    if i == |s| then [s] else [s[..i]] + Split(s[i + 1..])
  }

  function Join(tokens: seq<string>): string
    requires |tokens| > 0
  {
    if |tokens| == 1 then tokens[0] else tokens[0] + "," + Join(tokens[1..])
  }

  ghost predicate CommaFree(tokens: seq<string>) {
    forall i :: 0 <= i < |tokens| ==> ',' !in tokens[i]
  }

  lemma {:induction false} SplitIsFaithful(s: string)
    ensures CommaFree(Split(s)) && Join(Split(s)) == s
    decreases |s|
  {
    var i := CommaIndex(s);
    if i < |s| {
      SplitIsFaithful(s[i + 1..]);
      assert s == s[..i] + "," + s[i + 1..];
      assert Split(s)[1..] == Split(s[i + 1..]);
    }
  }

  lemma {:induction false} CommaIndexAt(t: string, rest: string)
    requires ',' !in t
    ensures CommaIndex(t) == |t|
    ensures CommaIndex(t + "," + rest) == |t|
  {
    var s := t + "," + rest;
    if t != "" {
      assert s[0] == t[0] && t[0] in t;
      assert s[1..] == t[1..] + "," + rest;
      CommaIndexAt(t[1..], rest);
    } else {
      assert s[0] == ',';
    }
  }

  lemma {:induction false} SplitOfJoin(tokens: seq<string>)
    requires |tokens| > 0 && CommaFree(tokens)
    ensures Split(Join(tokens)) == tokens
  {
    if |tokens| == 1 {
      CommaIndexAt(tokens[0], "");
    } else {
      var rest := Join(tokens[1..]);
      CommaIndexAt(tokens[0], rest);
      SplitOfJoin(tokens[1..]);
      assert Join(tokens)[|tokens[0]| + 1..] == rest;
      assert Join(tokens)[..|tokens[0]|] == tokens[0];
    }
  }

  lemma Associates(a: string, b: string, c: string)
    ensures a + b + c == a + (b + c)
  {
  }

  /** A suffix of a joined line belongs to its last token. */
  lemma {:induction false} JoinSuffix(tokens: seq<string>, suffix: string)
    requires |tokens| > 0
    ensures var n := |tokens| - 1; Join(tokens[..n] + [tokens[n] + suffix]) == Join(tokens) + suffix
  {
    var n := |tokens| - 1;
    var longer := tokens[..n] + [tokens[n] + suffix];
    if n > 0 {
      JoinSuffix(tokens[1..], suffix);
      assert longer[1..] == tokens[1..][..n - 1] + [tokens[1..][n - 1] + suffix];
      Associates(tokens[0] + ",", Join(tokens[1..]), suffix);
    }
  }

  /** A line has one token more than it has commas. */
  lemma {:induction false} TokensAreCommasPlusOne(s: string)
    ensures |Split(s)| == multiset(s)[','] + 1
    decreases |s|
  {
    var i := CommaIndex(s);
    if i == |s| {
      assert s[..i] == s;
    } else {
      TokensAreCommasPlusOne(s[i + 1..]);
      assert s == s[..i] + [','] + s[i + 1..];
      assert ',' !in multiset(s[..i]);
    }
  }

  // ---- searching ----

  predicate OccursAt(s: string, sub: string, i: int) {
    0 <= i <= |s| - |sub| && s[i..i + |sub|] == sub
  }

  /** strstr(s, sub) != NULL */
  predicate Contains(s: string, sub: string) {
    exists i :: 0 <= i <= |s| && OccursAt(s, sub, i)
  }

  lemma MissingChar(s: string, sub: string, c: char)
    requires c in sub && c !in s
    ensures !Contains(s, sub)
  {
    var k :| 0 <= k < |sub| && sub[k] == c;
    forall i | 0 <= i <= |s| - |sub| ensures !OccursAt(s, sub, i) {
      assert s[i..i + |sub|][k] == s[i + k];
    }
  }

  /** A pattern whose first character occurs only at the front is found only there. */
  lemma OnlyAtFront(s: string, sub: string)
    requires 0 < |sub| && s != ""
    requires sub[0] !in s[1..]
    ensures Contains(s, sub) <==> sub <= s
  {
    if sub <= s {
      assert OccursAt(s, sub, 0);
    }
    forall i | 0 < i <= |s| - |sub| ensures !OccursAt(s, sub, i) {
      assert s[i..i + |sub|][0] == s[1..][i - 1];
    }
    if Contains(s, sub) {
      var i :| 0 <= i <= |s| && OccursAt(s, sub, i);
      assert s[0..|sub|] == sub;
      assert forall k :: 0 <= k < |sub| ==> s[k] == s[0..|sub|][k];
    }
  }

  // ---- decimal ----

  predicate IsDigit(c: char) { '0' <= c <= '9' }

  predicate AllDigits(s: string) { forall i :: 0 <= i < |s| ==> IsDigit(s[i]) }

  function DigitChar(d: nat): (c: char)
    requires d < 10
    ensures IsDigit(c)
  {
    ('0' as int + d) as char
  }

  function DigitValue(c: char): (d: nat)
    requires IsDigit(c)
    ensures d < 10
  {
    c as int - '0' as int
  }

  /** printf's %u. */
  function Decimal(n: nat): (s: string)
    ensures |s| > 0 && AllDigits(s)
  {
    if n < 10 then [DigitChar(n)] else Decimal(n / 10) + [DigitChar(n % 10)]
  }

  /** printf's %d. */
  function PrintInt(n: int): (s: string)
    ensures |s| > 0
  {
    if n < 0 then "-" + Decimal(-n) else Decimal(n)
  }

  function ParseNat(s: string): (n: int)
    requires AllDigits(s)
    ensures n >= 0
  {
    if s == "" then 0 else 10 * ParseNat(s[..|s| - 1]) + DigitValue(s[|s| - 1])
  }

  lemma {:induction false} ParseOfDecimal(n: nat)
    ensures ParseNat(Decimal(n)) == n
  {
    if n >= 10 {
      ParseOfDecimal(n / 10);
      var s := Decimal(n);
      assert s[..|s| - 1] == Decimal(n / 10);
    }
  }

  function PowerOf10(k: nat): (p: nat)
    ensures p > 0
  {
    if k == 0 then 1 else 10 * PowerOf10(k - 1)
  }

  lemma {:induction false} DecimalLength(n: nat, k: nat)
    requires k > 0 && n < PowerOf10(k)
    ensures |Decimal(n)| <= k
  {
    assert PowerOf10(k) == 10 * PowerOf10(k - 1);
    if n >= 10 {
      DecimalLength(n / 10, k - 1);
    }
  }

  lemma PrintIntChars(n: int)
    ensures forall c :: c in PrintInt(n) ==> IsDigit(c) || c == '-'
  {
    var s := PrintInt(n);
    forall c | c in s ensures IsDigit(c) || c == '-' {
      var i :| 0 <= i < |s| && s[i] == c;
      if n < 0 && i > 0 { assert c == Decimal(-n)[i - 1]; }
    }
  }

  lemma PrintedInt16IsShort(n: int)
    requires FitsInt16(n)
    ensures |PrintInt(n)| <= 6
  {
    assert PowerOf10(5) == 10 * PowerOf10(4) == 100 * PowerOf10(3) == 1000 * PowerOf10(2)
      == 10000 * PowerOf10(1) == 100000 * PowerOf10(0);
    DecimalLength(Abs(n), 5);
  }

  // ---- strtol ----

  predicate IsSpace(c: char) {
    c == ' ' || '\t' <= c <= '\r'
  }

  function SkipSpaces(s: string): (t: string)
    ensures t != "" ==> !IsSpace(t[0])
  {
    if s != "" && IsSpace(s[0]) then SkipSpaces(s[1..]) else s
  }

  function DigitPrefix(s: string): (p: string)
    ensures AllDigits(p)
  {
    if s == "" || !IsDigit(s[0]) then "" else [s[0]] + DigitPrefix(s[1..])
  }

  lemma {:induction false} DigitPrefixOf(digits: string, rest: string)
    requires AllDigits(digits) && (rest != "" ==> !IsDigit(rest[0]))
    ensures DigitPrefix(digits + rest) == digits
  {
    if digits != "" {
      assert (digits + rest)[1..] == digits[1..] + rest;
      DigitPrefixOf(digits[1..], rest);
    } else {
      assert digits + rest == rest;
    }
  }

  // ---- hexadecimal ----

  function HexChar(d: nat): (c: char)
    requires d < 16
  {
    if d < 10 then DigitChar(d) else ('A' as int + d - 10) as char
  }

  /** printf's %X: upper case, no leading zeros. */
  function Hex(n: nat): (s: string)
    ensures |s| > 0
  {
    if n < 16 then [HexChar(n)] else Hex(n / 16) + [HexChar(n % 16)]
  }

  lemma {:induction false} HexChars(n: nat)
    ensures forall c :: c in Hex(n) ==> IsDigit(c) || 'A' <= c <= 'F'
  {
    if n >= 16 { HexChars(n / 16); }
  }

  lemma HexLengthOfWord(w: nat)
    requires w < 0x1_0000
    ensures |Hex(w)| == if w < 0x10 then 1 else if w < 0x100 then 2 else if w < 0x1000 then 3 else 4
  {
    if w >= 0x10 {
      assert |Hex(w)| == |Hex(w / 16)| + 1;
      if w >= 0x100 {
        assert |Hex(w / 16)| == |Hex(w / 256)| + 1;
        if w >= 0x1000 { assert |Hex(w / 256)| == |Hex(w / 4096)| + 1; }
      }
    }
  }
}
