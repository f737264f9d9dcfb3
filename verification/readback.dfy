/** What the reader of a register line recovers from it: status bits and positions. */
module Readback {
  import opened CArithmetic
  import opened Text
  import opened Utilities
  import opened Registers

  // ---- the tokens of a line ----

  lemma JoinEmptyFirst(tokens: seq<string>)
    requires |tokens| > 0
    ensures Join([""] + tokens) == "," + Join(tokens)
  {
    assert ([""] + tokens)[1..] == tokens;
  }

  lemma JoinTwoEmpty(tokens: seq<string>)
    requires |tokens| > 0
    ensures Join(["", ""] + tokens) == ",," + Join(tokens)
  {
    hide Join;
    JoinEmptyFirst(tokens);
    JoinEmptyFirst([""] + tokens);
    assert [""] + ([""] + tokens) == ["", ""] + tokens;
  }

  function LineTokens(words: TenWords): seq<string>
  {
    ["", ""] + (Rendered(words)[..9] + [Rendered(words)[9] + "\n"])
  }

  lemma LineTokensCommaFree(words: TenWords)
    ensures CommaFree(LineTokens(words))
  {
    forall i | 0 <= i < 10 ensures ',' !in Rendered(words)[i] {
      RenderedLength(i, words[i]);
    }
    var last := Rendered(words)[9];
    assert ',' !in last + "\n";
  }

  /** A status line splits into two empty tokens and the ten rendered words. */
  lemma LineSplits(words: TenWords)
    ensures Split(PlainLine(INPUT_PREFIX, words)) == LineTokens(words)
  {
    var texts := Rendered(words)[..9] + [Rendered(words)[9] + "\n"];
    JoinSuffix(Rendered(words), "\n");
    JoinTwoEmpty(texts);
    Associates(INPUT_PREFIX, Join(Rendered(words)), "\n");
    LineTokensCommaFree(words);
    SplitOfJoin(LineTokens(words));
  }

  // ---- status bits ----

  /** bin_string[i] in a zeroed buffer. */
  function CharAt(s: string, i: nat): char
  {
    if i < |s| then s[i] else '\0'
  }

  lemma StatusText(w: Word, size: nat)
    requires 16 <= size
    ensures ShowsBits(Hex(w), w)
    ensures BinString(size, "0x" + Hex(w)) == Expand(Hex(w))
  {
    ExpandedHexShowsBits(w);
    HexLengthOfWord(w);
    var s := "0x" + Hex(w);
    assert s[0] == '0' && s[1] == 'x' && s[2..] == Hex(w);
    assert Hex(w)[..|Hex(w)|] == Hex(w);
    AcceptedIs(Hex(w), size, |Hex(w)|);
  }

  /** The sixteen-character string whose index 15 - k is bit k. */
  ghost predicate IsBinaryWord(bits: string, w: Word) {
    && |bits| == 16
    && forall k {:trigger Bit(w, k)} :: 0 <= k < 16 ==> bits[15 - k] == DigitChar(Bit(w, k))
  }

  /** %X does not pad, so the text of a word is its sixteen bits exactly from 0x1000 up. */
  lemma TextIsBinaryWord(w: Word, size: nat)
    requires 16 <= size
    ensures IsBinaryWord(BinString(size, "0x" + Hex(w)), w) <==> w >= 0x1000
  {
    StatusText(w, size);
    HexLengthOfWord(w);
    var bits := Expand(Hex(w));
    if w >= 0x1000 {
      forall k | 0 <= k < 16 ensures bits[15 - k] == DigitChar(Bit(w, k)) {
        assert FromRight(bits, k) == bits[15 - k];
      }
    }
  }

  /** From the drive's status word to the characters the server tests, through the line it
      built: render, join, tokenise, take token 2, expand. */
  lemma StatusBitsEndToEnd(words: TenWords, line: string, size: nat)
    requires 16 <= size && words[0] >= 0x1000
    requires IsRegisterLine(INPUT_PREFIX, words, line)
    ensures |Split(line)| == 12
    ensures IsBinaryWord(BinString(size, Split(line)[2]), words[0])
  {
    LineSplits(words);
    TextIsBinaryWord(words[0], size);
    assert LineTokens(words)[2] == Rendered(words)[0];
  }

  /** Below 0x1000 the same index tests another bit: 5, 1 or nothing. */
  lemma BitTestedAtIndex6(w: Word, size: nat)
    requires 16 <= size
    ensures CharAt(BinString(size, "0x" + Hex(w)), 6) ==
      if w >= 0x1000 then DigitChar(Bit(w, 9)) else if w >= 0x100 then DigitChar(Bit(w, 5))
      else if w >= 0x10 then DigitChar(Bit(w, 1)) else '\0'
  {
    StatusText(w, size);
    HexLengthOfWord(w);
    var bits := Expand(Hex(w));
    if w >= 0x1000 {
      assert bits[6] == FromRight(bits, 9);
    } else if w >= 0x100 {
      assert bits[6] == FromRight(bits, 5);
    } else if w >= 0x10 {
      assert bits[6] == FromRight(bits, 1);
    }
  }

  // ---- positions ----

  lemma LastTokenParses(n: int)
    requires FitsInt32(n)
    ensures ConvertStringToLongInt(PrintInt(n)) == n
  {
    PrintedIntParses(n, "");
    assert PrintInt(n) + "" == PrintInt(n);
  }

  /** The tokens of a line that lost its comma: the second and third word run together. */
  function ShortTokens(words: TenWords): seq<string>
  {
    var texts := Rendered(words);
    ["", ""] + ([texts[0], texts[1] + texts[2]] + texts[3..9] + [texts[9] + "\n"])
  }

  lemma ShortTokensCommaFree(words: TenWords)
    ensures CommaFree(ShortTokens(words))
  {
    hide Render;
    var texts := Rendered(words);
    forall i | 0 <= i < 10 ensures ',' !in texts[i] { RenderedLength(i, words[i]); }
    forall i | 0 <= i < 11 ensures ',' !in ShortTokens(words)[i] {
      if 4 <= i < 10 { assert ShortTokens(words)[i] == texts[i - 1]; }
    }
  }

  /** Joining two texts without a comma between them. */
  lemma JoinRunTogether(first: string, second: string, rest: seq<string>)
    requires |rest| > 0
    ensures Join([first + second] + rest) == first + Join([second] + rest)
  {
    hide Join;
    JoinHead(first + second, rest);
    JoinHead(second, rest);
    Associates(first, second, ",");
    Associates(first, second + ",", Join(rest));
  }

  lemma ShortLineIsJoin(words: TenWords)
    ensures LineWithoutComma(INPUT_PREFIX, words) == Join(ShortTokens(words))
  {
    hide Join, Render;
    var texts := Rendered(words);
    var tail := texts[3..9] + [texts[9] + "\n"];
    var rest := [texts[0], texts[1] + texts[2]] + tail;
    JoinTwoEmpty(rest);
    JoinHead(texts[0], [texts[1] + texts[2]] + tail);
    assert rest == [texts[0]] + ([texts[1] + texts[2]] + tail);
    JoinRunTogether(texts[1], texts[2], tail);
    JoinSuffix(texts[2..], "\n");
    assert texts[2..][..7] + [texts[2..][7] + "\n"] == [texts[2]] + tail;
    var joined := Join(texts[2..]);
    assert rest == [texts[0], texts[1] + texts[2]] + texts[3..9] + [texts[9] + "\n"];
    FourParts(texts[0], texts[1], joined);
  }

  lemma JoinHead(first: string, rest: seq<string>)
    requires |rest| > 0
    ensures Join([first] + rest) == first + "," + Join(rest)
  {
    assert ([first] + rest)[1..] == rest;
  }

  lemma FourParts(a: string, b: string, c: string)
    ensures INPUT_PREFIX + a + "," + b + c + "\n" == ",," + (a + "," + (b + (c + "\n")))
  {
  }

  /** A status line that lost its comma has one token less, and everything from the third
      word on is one place to the left. */
  lemma ShortLineSplits(words: TenWords)
    ensures Split(LineWithoutComma(INPUT_PREFIX, words)) == ShortTokens(words)
  {
    hide Split, Join, LineWithoutComma, ShortTokens;
    ShortLineIsJoin(words);
    ShortTokensCommaFree(words);
    NotEmpty(words);
    SplitOfJoin(ShortTokens(words));
  }

  lemma NotEmpty(words: TenWords)
    ensures |ShortTokens(words)| == 11
  {
  }

  /** The tokens of any status line the server builds. */
  lemma StatusLineSplits(words: TenWords)
    ensures Split(RegisterLine(INPUT_PREFIX, words))
      == if LosesComma(INPUT_PREFIX, words) then ShortTokens(words) else LineTokens(words)
  {
    hide PlainLine, LineWithoutComma;
    LineSplits(words);
    ShortLineSplits(words);
  }

  /** What a client reads as the position: tokens 4 and 5, recombined. */
  function PositionRead(line: string): int
    requires |Split(line)| > 5
  {
    1000 * ConvertStringToLongInt(Split(line)[4]) + ConvertStringToLongInt(Split(line)[5])
  }

  /** A position split into words, stored in unsigned registers and reported in words 2 and 3
      of a status line is read back exactly when it is encodable; but on a line that lost its
      comma, its units are read as thousands, and the next word as units. */
  lemma PositionRoundTrip(n: int, words: TenWords, line: string)
    requires FitsInt32(n) && IsRegisterLine(INPUT_PREFIX, words, line)
    requires words[2] == Uint16(ConvertIntToWords(n).upper) && words[3] == Uint16(ConvertIntToWords(n).lower)
    ensures |Split(line)| == if LosesComma(INPUT_PREFIX, words) then 11 else 12
    ensures !LosesComma(INPUT_PREFIX, words) ==> (PositionRead(line) == n <==> Encodable(n))
    ensures LosesComma(INPUT_PREFIX, words) ==>
      PositionRead(line) == 1000 * ConvertIntToWords(n).lower + Int16(words[4])
  {
    hide ConvertIntToWords, ConvertStringToLongInt, PlainLine, LineWithoutComma, Int16, Uint16;
    var w := ConvertIntToWords(n);
    StatusLineSplits(words);
    var tokens := Split(line);
    if LosesComma(INPUT_PREFIX, words) {
      assert tokens[4] == Render(3, words[3]) && tokens[5] == Render(4, words[4]);
      Int16Fits(words[4]);
      LastTokenParses(Int16(words[4]));
    } else {
      assert tokens[4] == Render(2, words[2]) && tokens[5] == Render(3, words[3]);
      LastTokenParses(w.upper);
      WordsRoundTrip(n);
    }
    RegisterKeepsInt16(w.upper);
    RegisterKeepsInt16(w.lower);
    LastTokenParses(w.lower);
  }

  lemma Int16Fits(n: int)
    ensures FitsInt32(Int16(n))
  {
  }

  // ---- the other words ----

  /** The token reads as the two's complement number of the word. */
  predicate ReadsAs(token: string, w: Word) {
    var n := ConvertStringToLongInt(token);
    -32768 <= n <= 32767 && (n - w) % 65536 == 0
  }

  lemma WordReads(i: nat, w: Word, rest: string)
    requires i >= 2 && (rest != "" ==> !IsDigit(rest[0]))
    ensures ReadsAs(Render(i, w) + rest, w)
  {
    hide ConvertStringToLongInt, PrintInt, Int16;
    PrintedIntParses(Int16(w), rest);
  }

  /** A status line in full: two empty tokens, the two status words in hexadecimal, and the
      eight others as the numbers they stand for. */
  ghost predicate ReportsStatus(line: string, words: TenWords) {
    && |Split(line)| == 12 && Split(line)[0] == "" && Split(line)[1] == ""
    && Split(line)[2] == "0x" + Hex(words[0]) && Split(line)[3] == "0x" + Hex(words[1])
    && forall i :: 2 <= i < 10 ==> ReadsAs(Split(line)[i + 2], words[i])
  }

  /** ... and a configuration line, whose first token carries the three marks. */
  ghost predicate ReportsConfig(line: string, words: TenWords) {
    && |Split(line)| == 10
    && Split(line)[0] == "###" + ("0x" + Hex(words[0])) && Split(line)[1] == "0x" + Hex(words[1])
    && forall i :: 2 <= i < 10 ==> ReadsAs(Split(line)[i], words[i])
  }

  lemma StatusLineReports(words: TenWords)
    requires !LosesComma(INPUT_PREFIX, words)
    ensures ReportsStatus(RegisterLine(INPUT_PREFIX, words), words)
  {
    hide Render, ReadsAs, PlainLine, Hex;
    LineSplits(words);
    var tokens := LineTokens(words);
    assert tokens[2] == Render(0, words[0]) && tokens[3] == Render(1, words[1]);
    FirstTwoRender(words);
    forall i | 2 <= i < 10 ensures ReadsAs(tokens[i + 2], words[i]) {
      WordReads(i, words[i], if i == 9 then "\n" else "");
      assert Render(i, words[i]) + "" == Render(i, words[i]);
    }
  }

  lemma FirstTwoRender(words: TenWords)
    ensures Render(0, words[0]) == "0x" + Hex(words[0]) && Render(1, words[1]) == "0x" + Hex(words[1])
  {
  }

  function ConfigTokens(words: TenWords): seq<string>
  {
    var texts := Rendered(words);
    [CONFIG_PREFIX + texts[0]] + texts[1..9] + [texts[9] + "\n"]
  }

  lemma ConfigTokensCommaFree(words: TenWords)
    ensures CommaFree(ConfigTokens(words)) && |ConfigTokens(words)| == 10
  {
    hide Render;
    var texts := Rendered(words);
    forall i | 0 <= i < 10 ensures ',' !in texts[i] { RenderedLength(i, words[i]); }
    forall i | 0 <= i < 10 ensures ',' !in ConfigTokens(words)[i] {
      if 0 < i < 9 { assert ConfigTokens(words)[i] == texts[i]; }
    }
  }

  lemma ConfigLineIsJoin(words: TenWords)
    ensures RegisterLine(CONFIG_PREFIX, words) == Join(ConfigTokens(words))
  {
    hide Join, Render;
    var texts := Rendered(words);
    JoinSuffix(texts, "\n");
    var tail := texts[1..9] + [texts[9] + "\n"];
    assert texts[..9] + [texts[9] + "\n"] == [texts[0]] + tail;
    assert ConfigTokens(words) == [CONFIG_PREFIX + texts[0]] + tail;
    JoinRunTogether(CONFIG_PREFIX, texts[0], tail);
    Associates(CONFIG_PREFIX, Join(texts), "\n");
    assert !LosesComma(CONFIG_PREFIX, words) by { PrefixesDiffer(); }
  }

  lemma PrefixesDiffer()
    ensures CONFIG_PREFIX != INPUT_PREFIX
  {
    assert |CONFIG_PREFIX| == 3 && |INPUT_PREFIX| == 2;
  }

  lemma ConfigLineReports(words: TenWords)
    ensures ReportsConfig(RegisterLine(CONFIG_PREFIX, words), words)
  {
    hide Render, ReadsAs, RegisterLine, Hex, Join, Split;
    ConfigLineIsJoin(words);
    ConfigTokensCommaFree(words);
    SplitOfJoin(ConfigTokens(words));
    FirstTwoRender(words);
    var tokens := ConfigTokens(words);
    forall i | 2 <= i < 10 ensures ReadsAs(tokens[i], words[i]) {
      WordReads(i, words[i], if i == 9 then "\n" else "");
      assert Render(i, words[i]) + "" == Render(i, words[i]);
    }
  }
}
