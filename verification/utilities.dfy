/** SMD_Utilities.c: text to integer, the thousands/units word split, the comma tokeniser
    and the hexadecimal-to-binary expander. */
module Utilities {
  import opened CArithmetic
  import opened Text

  // ---- convert_string_to_long_int ----

  const LONG_MAX := 0x7FFF_FFFF_FFFF_FFFF

  datatype Option<T> = None | Some(value: T) {
    function GetOr(default: T): T { if Some? then value else default }
  }

  /** The number strtol reads in base 10, or None when there are no digits. */
  function ReadNumber(s: string): Option<int>
  {
    var t := SkipSpaces(s);
    var u := if t != "" && (t[0] == '-' || t[0] == '+') then t[1..] else t;
    var digits := DigitPrefix(u);
    if t == "" || digits == "" then None
    else Some(if t[0] == '-' then -ParseNat(digits) else ParseNat(digits))
  }

  /** strtol with a 64-bit long, narrowed to 32 bits. No digits, or a value outside long
      (ERANGE), gives -1. */
  function ConvertStringToLongInt(s: string): (v: int)
    ensures FitsInt32(v)
  {
    match ReadNumber(s)
    case None => -1
    case Some(v) => if v < -LONG_MAX - 1 || LONG_MAX < v then -1 else Int32(v)
  }

  /** What follows the digits does not matter. */
  lemma DigitsRead(digits: string, rest: string)
    requires digits != "" && AllDigits(digits) && (rest != "" ==> !IsDigit(rest[0]))
    ensures ReadNumber(digits + rest) == Some(ParseNat(digits))
  {
    DigitPrefixOf(digits, rest);
    var s := digits + rest;
    assert s[0] == digits[0];
  }

  lemma NegatedDigitsRead(digits: string, rest: string)
    requires digits != "" && AllDigits(digits) && (rest != "" ==> !IsDigit(rest[0]))
    ensures ReadNumber("-" + (digits + rest)) == Some(-ParseNat(digits))
  {
    DigitPrefixOf(digits, rest);
    var s := "-" + (digits + rest);
    assert s[0] == '-' && s[1..] == digits + rest;
  }

  lemma PrintedIntRead(n: int, rest: string)
    requires rest != "" ==> !IsDigit(rest[0])
    ensures ReadNumber(PrintInt(n) + rest) == Some(n)
  {
    hide ReadNumber, Decimal, ParseNat;
    if n < 0 {
      ParseOfDecimal(-n);
      NegatedDigitsRead(Decimal(-n), rest);
      assert PrintInt(n) + rest == "-" + (Decimal(-n) + rest);
    } else {
      ParseOfDecimal(n);
      DigitsRead(Decimal(n), rest);
    }
  }

  lemma NumberFits(s: string, n: int)
    requires ReadNumber(s) == Some(n) && FitsInt32(n)
    ensures ConvertStringToLongInt(s) == n
  {
  }

  /** Every 32-bit integer printed with %d reads back as itself, whatever text follows. */
  lemma PrintedIntParses(n: int, rest: string)
    requires FitsInt32(n) && (rest != "" ==> !IsDigit(rest[0]))
    ensures ConvertStringToLongInt(PrintInt(n) + rest) == n
  {
    PrintedIntRead(n, rest);
    NumberFits(PrintInt(n) + rest, n);
  }

  /** Text that does not begin with a number, after white space and one sign, counts as -1. */
  lemma NoNumberIsMinusOne(s: string)
    requires var t := SkipSpaces(s);
      var u := if t != "" && (t[0] == '-' || t[0] == '+') then t[1..] else t;
      u == "" || !IsDigit(u[0])
    ensures ConvertStringToLongInt(s) == -1
  {
  }

  /** A plus sign is allowed, and white space before the number. */
  lemma PlusAndSpacesAreAllowed(n: nat, rest: string)
    requires n < 0x8000_0000 && (rest != "" ==> !IsDigit(rest[0]))
    ensures ConvertStringToLongInt("+" + (Decimal(n) + rest)) == n
    ensures ConvertStringToLongInt("\t" + (Decimal(n) + rest)) == n
  {
    var digits := Decimal(n);
    DigitPrefixOf(digits, rest);
    ParseOfDecimal(n);
    var s, t := "+" + (digits + rest), "\t" + (digits + rest);
    assert s[0] == '+' && s[1..] == digits + rest;
    assert t[0] == '\t' && t[1..] == digits + rest;
    assert SkipSpaces(digits + rest) == digits + rest by { assert (digits + rest)[0] == digits[0]; }
  }

  /** Beyond 32 bits a number wraps; beyond the 64 of a long it counts as -1. */
  lemma BigNumbers(n: nat)
    ensures n > LONG_MAX ==> ConvertStringToLongInt(Decimal(n)) == -1
    ensures n <= LONG_MAX ==> (ConvertStringToLongInt(Decimal(n)) - n) % 0x1_0000_0000 == 0
  {
    ParseOfDecimal(n);
    DigitsRead(Decimal(n), "");
    assert Decimal(n) + "" == Decimal(n);
    hide ReadNumber, Int32;
  }

  // ---- convert_int_to_words ----

  /** Two 16-bit halves of a position or a speed: thousands and units. */
  datatype Words = Words(lower: int, upper: int) {
    function Recombined(): int { 1000 * upper + lower }
  }

  function ConvertIntToWords(number: int): (w: Words)
    ensures FitsInt16(w.lower) && FitsInt16(w.upper)
  {
    var big := Abs(DivTrunc(number, 1000)) > 0;
    var lower := if big then Abs(RemTrunc(number, 1000)) else Abs(number);
    var upper := if big then Abs(number - RemTrunc(number, 1000)) / 1000 else 0;
    Words(Int16(if number < 0 then lower * -1 else lower), Int16(if number < 0 then upper * -1 else upper))
  }

  /** The numbers whose thousands fit a 16-bit word. */
  predicate Encodable(n: int) { -32768999 <= n <= 32767999 }

  /** The split loses nothing exactly on the encodable numbers; then the units are below
      a thousand and the two words never have opposite signs. */
  lemma WordsRoundTrip(n: int)
    requires FitsInt32(n)
    ensures ConvertIntToWords(n).Recombined() == n <==> Encodable(n)
    ensures Encodable(n) ==>
      var w := ConvertIntToWords(n);
      -999 <= w.lower <= 999 && (n >= 0 ==> w.lower >= 0 && w.upper >= 0) && (n <= 0 ==> w.lower <= 0 && w.upper <= 0)
  {
    var m := Abs(n);
    assert m == 1000 * (m / 1000) + m % 1000;
    assert ConvertIntToWords(n) ==
      Words(if n < 0 then -(m % 1000) else m % 1000, Int16(if n < 0 then -(m / 1000) else m / 1000));
  }

  /** The split written out in SMD_jog and SMD_set_configuration, for speeds. */
  function SplitInline(speed: int): Words
  {
    if DivTrunc(speed, 1000) > 0 then
      Words(Int16(RemTrunc(speed, 1000)), Int16(DivTrunc(speed - RemTrunc(speed, 1000), 1000)))
    else
      Words(Int16(speed), 0)
  }

  lemma InlineSplitAgrees(speed: int)
    requires 0 <= speed <= 2999999
    ensures SplitInline(speed) == ConvertIntToWords(speed)
  {
  }

  // ---- number_of_tokens, tokenize_client_input ----

  /** -1 if the line has a space, else its number of comma-separated tokens. */
  function TokenCount(s: string): int
  {
    if ' ' in s then -1 else |Split(s)|
  }

  /** One strsep call: the token up to the next comma, and what is left if there was one. */
  method StrSep(s: string) returns (token: string, more: bool, rest: string)
    ensures ',' !in token
    ensures more ==> s == token + "," + rest && Split(s) == [token] + Split(rest)
    ensures !more ==> s == token && Split(s) == [token]
  {
    var i := 0;
    while i < |s| && s[i] != ','
      invariant i <= |s| && ',' !in s[..i]
    {
      assert s[..i + 1] == s[..i] + [s[i]];
      i := i + 1;
    }
    token := s[..i];
    more := i < |s|;
    if more {
      rest := s[i + 1..];
      assert s == token + "," + rest;
      CommaIndexAt(token, rest);
    } else {
      rest := "";
      assert s == token;
      CommaIndexAt(token, rest);
    }
  }

  method NumberOfTokens(s: string) returns (n: int)
    ensures n == TokenCount(s)
    ensures n == if ' ' in s then -1 else multiset(s)[','] + 1
  {
    TokensAreCommasPlusOne(s);
    if ' ' in s {
      return -1;
    }
    n := 0;
    var more, left := true, s;
    while more
      invariant 0 <= n
      invariant |Split(s)| == n + if more then |Split(left)| else 0
      decreases more, |left|
    {
      var token;
      token, more, left := StrSep(left);
      n := n + 1;
    }
  }

  /** Stores token after token; the size of the destination is looked at only afterwards.
      (A store past the end is not modelled; every caller rules it out with the count.) */
  method TokenizeClientInput(destination: array<string>, s: string) returns (rc: int)
    modifies destination
    ensures rc == if |Split(s)| <= destination.Length then 0 else -1
    ensures forall i :: 0 <= i < destination.Length ==>
      destination[i] == if i < |Split(s)| then Split(s)[i] else old(destination[i])
  {
    var n := 0;
    var more, left := true, s;
    while more
      invariant 0 <= n <= |Split(s)|
      invariant if more then Split(left) == Split(s)[n..] else n == |Split(s)|
      invariant forall i :: 0 <= i < destination.Length ==>
        destination[i] == if i < n then Split(s)[i] else old(destination[i])
      decreases more, |left|
    {
      var token;
      ghost var before := Split(left);
      token, more, left := StrSep(left);
      assert before[0] == token && Split(s)[n] == token;
      assert Split(s)[n + 1..] == before[1..];
      if n < destination.Length {
        destination[n] := token;
      }
      n := n + 1;
    }
    rc := if n > destination.Length then -1 else 0;
  }

  // ---- hex_string_to_bin_string ----

  predicate IsHexDigit(c: char) { '0' <= c <= '9' || 'A' <= c <= 'F' }

  predicate AllHex(s: string) { forall i :: 0 <= i < |s| ==> IsHexDigit(s[i]) }

  /** The four characters written for each hexadecimal digit. */
  const NIBBLES: seq<string> := [
    "0000", "0001", "0010", "0011", "0100", "0101", "0110", "0111",
    "1000", "1001", "1010", "1011", "1100", "1101", "1110", "1111"]

  function HexDigitValue(c: char): (d: nat)
    requires IsHexDigit(c)
    ensures d < 16
  {
    if c <= '9' then c as int - '0' as int else c as int - 'A' as int + 10
  }

  function Nibble(c: char): (bits: string)
    requires IsHexDigit(c)
    ensures |bits| == 4
  {
    NibbleLength(HexDigitValue(c));
    NIBBLES[HexDigitValue(c)]
  }

  lemma NibbleLength(d: nat)
    requires d < 16
    ensures |NIBBLES| == 16 && |NIBBLES[d]| == 4
  {
    if d < 8 {
      assert d == 0 || d == 1 || d == 2 || d == 3 || d == 4 || d == 5 || d == 6 || d == 7;
    } else {
      assert d == 8 || d == 9 || d == 10 || d == 11 || d == 12 || d == 13 || d == 14 || d == 15;
    }
  }

  function Expand(digits: string): (bits: string)
    requires AllHex(digits)
    ensures |bits| == 4 * |digits|
  {
    if digits == "" then "" else Expand(digits[..|digits| - 1]) + Nibble(digits[|digits| - 1])
  }

  function WithoutPrefix(s: string): string
  {
    if |s| >= 2 && s[0] == '0' && s[1] == 'x' then s[2..] else s
  }

  /** How many leading hexadecimal digits fit a buffer of the given size, four bits each. */
  function Accepted(digits: string, size: nat): (k: nat)
    ensures k <= |digits| && 4 * k <= size && AllHex(digits[..k])
    ensures k < |digits| ==> !IsHexDigit(digits[k]) || size < 4 * (k + 1)
  {
    if digits == "" || !IsHexDigit(digits[0]) || size < 4 then 0
    else 1 + Accepted(digits[1..], size - 4)
  }

  function BinString(size: nat, input: string): string
  {
    var digits := WithoutPrefix(input);
    Expand(digits[..Accepted(digits, size)])
  }

  lemma AcceptedIs(digits: string, size: nat, k: nat)
    requires k <= |digits| && 4 * k <= size && AllHex(digits[..k])
    requires k < |digits| ==> !IsHexDigit(digits[k]) || size < 4 * (k + 1)
    ensures Accepted(digits, size) == k
  {
    var a := Accepted(digits, size);
    assert forall i :: 0 <= i < k ==> IsHexDigit(digits[..k][i]) && digits[..k][i] == digits[i];
    assert forall i :: 0 <= i < a ==> IsHexDigit(digits[..a][i]) && digits[..a][i] == digits[i];
  }

  /** The result buffer starts out zeroed, as at both call sites; on failure it keeps the
      bits expanded so far. */
  method HexStringToBinString(size: nat, input: string) returns (rc: int, bits: string)
    ensures bits == BinString(size, input)
    ensures rc == 0 <==> input != "" && AllHex(WithoutPrefix(input)) && 4 * |WithoutPrefix(input)| <= size
    ensures rc == 0 || rc == -1
  {
    bits := "";
    if input == "" {
      return -1, "";
    }
    var digits := WithoutPrefix(input);
    var i, counter := 0, 0;
    while i < |digits|
      invariant 0 <= i <= |digits| && counter == 4 * i <= size
      invariant AllHex(digits[..i]) && bits == Expand(digits[..i])
    {
      if !IsHexDigit(digits[i]) {
        AcceptedIs(digits, size, i);
        return -1, bits;
      }
      counter := counter + 4;
      if counter > size {
        AcceptedIs(digits, size, i);
        return -1, bits;
      }
      assert digits[..i + 1][..i] == digits[..i];
      bits := bits + Nibble(digits[i]);
      i := i + 1;
    }
    assert digits[..i] == digits;
    AcceptedIs(digits, size, i);
    rc := 0;
  }

  /** Counting from the right, character k of the expansion is bit k of the number. */
  ghost predicate ShowsBits(digits: string, n: nat) {
    && AllHex(digits)
    && forall k :: 0 <= k < 4 * |digits| ==> FromRight(Expand(digits), k) == DigitChar(Bit(n, k))
  }

  function FromRight(s: string, k: nat): char
    requires k < |s|
  {
    s[|s| - 1 - k]
  }

  lemma {:induction false} ExpandedHexShowsBits(n: nat)
    ensures ShowsBits(Hex(n), n)
  {
    var q, last := n / 16, HexChar(n % 16);
    NibbleIsBinary(n % 16);
    if n < 16 {
      AppendShowsBits("", n, last, 0);
      assert "" + [last] == [last];
    } else {
      ExpandedHexShowsBits(q);
      AppendShowsBits(Hex(q), n, last, q);
    }
  }

  lemma AppendShowsBits(digits: string, n: nat, last: char, q: nat)
    requires q == n / 16 && IsHexDigit(last) && last == HexChar(n % 16)
    requires ShowsBits(digits, q)
    ensures ShowsBits(digits + [last], n)
  {
    ExpandAppend(digits, last);
    var front := Expand(digits);
    forall k | 0 <= k < 4 * |digits| + 4
      ensures FromRight(front + Nibble(last), k) == DigitChar(Bit(n, k))
    {
      FromTheRight(front, Nibble(last), k);
      if k < 4 {
        LastHexBits(n, k);
      } else {
        HighBit(n, k);
        assert FromRight(front, k - 4) == DigitChar(Bit(q, k - 4));
      }
    }
  }

  lemma ExpandAppend(digits: string, c: char)
    requires AllHex(digits) && IsHexDigit(c)
    ensures AllHex(digits + [c]) && Expand(digits + [c]) == Expand(digits) + Nibble(c)
  {
    assert (digits + [c])[..|digits|] == digits;
  }

  lemma FromTheRight(front: string, last: string, k: nat)
    requires |last| == 4 && k < |front| + 4
    ensures (front + last)[|front| + 3 - k] == if k < 4 then last[3 - k] else front[|front| - 1 - (k - 4)]
  {
  }

  /** The expander's table agrees with binary notation. */
  lemma NibbleIsBinary(d: nat)
    requires d < 16
    ensures IsHexDigit(HexChar(d))
    ensures Nibble(HexChar(d)) == [DigitChar(d / 8), DigitChar(d / 4 % 2), DigitChar(d / 2 % 2), DigitChar(d % 2)]
  {
    if d < 8 {
      if d < 4 {
        assert d == 0 || d == 1 || d == 2 || d == 3;
      } else {
        assert d == 4 || d == 5 || d == 6 || d == 7;
      }
    } else if d < 12 {
      assert d == 8 || d == 9 || d == 10 || d == 11;
    } else {
      assert d == 12 || d == 13 || d == 14 || d == 15;
    }
  }

  lemma LastHexBits(n: nat, k: nat)
    requires k < 4
    ensures IsHexDigit(HexChar(n % 16))
    ensures Nibble(HexChar(n % 16))[3 - k] == DigitChar(Bit(n, k))
  {
    var q, d := n / 16, n % 16;
    NibbleIsBinary(d);
    assert n == 16 * q + d;
    LowBit(q, d, k);
  }

  lemma LowBit(q: nat, d: nat, k: nat)
    requires d < 16 && k < 4
    ensures Bit(16 * q + d, k) == if k == 0 then d % 2 else if k == 1 then d / 2 % 2
      else if k == 2 then d / 4 % 2 else d / 8
  {
    var n := 16 * q + d;
    assert n / 2 == 8 * q + d / 2;
    if k >= 1 {
      assert Bit(n, k) == Bit(8 * q + d / 2, k - 1);
      assert (8 * q + d / 2) / 2 == 4 * q + d / 4;
      if k >= 2 {
        assert Bit(8 * q + d / 2, k - 1) == Bit(4 * q + d / 4, k - 2);
        assert (4 * q + d / 4) / 2 == 2 * q + d / 8;
        if k == 3 {
          assert Bit(4 * q + d / 4, 1) == Bit(2 * q + d / 8, 0);
        }
      }
    }
  }

  lemma HighBit(n: nat, k: nat)
    requires k >= 4
    ensures Bit(n, k) == Bit(n / 16, k - 4)
  {
    assert n / 2 / 2 == n / 4 && n / 4 / 2 == n / 8 && n / 8 / 2 == n / 16;
    assert Bit(n, k) == Bit(n / 2, k - 1);
    assert Bit(n / 2, k - 1) == Bit(n / 4, k - 2);
    assert Bit(n / 4, k - 2) == Bit(n / 8, k - 3);
    assert Bit(n / 8, k - 3) == Bit(n / 16, k - 4);
  }
}
