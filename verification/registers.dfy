/** The register line of _read_modbus_registers in SMD_Modbus.c: ten 16-bit words rendered
    as text, joined with strncat, and read back by the server and its clients. */
module Registers {
  import opened CArithmetic
  import opened Text

  type Word = w: int | 0 <= w < 0x1_0000

  type TenWords = ws: seq<Word> | |ws| == 10 witness [0, 0, 0, 0, 0, 0, 0, 0, 0, 0]

  const INPUT_PREFIX := ",,"
  const CONFIG_PREFIX := "###"

  /** The first two words are status words and print in hexadecimal; the others are signed. */
  function Render(i: nat, w: Word): string
  {
    if i < 2 then "0x" + Hex(w) else PrintInt(Int16(w))
  }

  function Rendered(words: TenWords): (texts: seq<string>)
    ensures |texts| == 10 && forall i :: 0 <= i < 10 ==> texts[i] == Render(i, words[i])
  {
    seq(10, i requires 0 <= i < 10 => Render(i, words[i]))
  }

  /** What the line is meant to be. */
  function PlainLine(prefix: string, words: TenWords): string
  {
    prefix + Join(Rendered(words)) + "\n"
  }

  /** strncat(client_write_string, temp, strlen(client_write_string)) cuts what it appends
      when the line so far is shorter: the second word then loses its comma. */
  predicate LosesComma(prefix: string, words: TenWords) {
    prefix == INPUT_PREFIX && words[0] < 0x10 && words[1] >= 0x1000
  }

  function LineWithoutComma(prefix: string, words: TenWords): string
  {
    var texts := Rendered(words);
    prefix + texts[0] + "," + texts[1] + Join(texts[2..]) + "\n"
  }

  /** strncat(destination, source, n) */
  function StrNCat(destination: string, source: string, n: nat): string
  {
    destination + if |source| <= n then source else source[..n]
  }

  lemma RenderedLength(i: nat, w: Word)
    ensures if i < 2 then |Render(i, w)| == 2 + |Hex(w)| && |Hex(w)| <= 4 else |Render(i, w)| <= 6
    ensures ',' !in Render(i, w)
  {
    HexLengthOfWord(w);
    HexChars(w);
    PrintedInt16IsShort(Int16(w));
    PrintIntChars(Int16(w));
  }

  /** What is appended for word i: the last word has no comma, and the second may lose its. */
  function Piece(texts: seq<string>, lost: bool, i: nat): string
    requires i < |texts|
  {
    if i == |texts| - 1 || (lost && i == 1) then texts[i] else texts[i] + ","
  }

  ghost function Built(prefix: string, texts: seq<string>, lost: bool, k: nat): string
    requires k <= |texts|
  {
    if k == 0 then prefix else Built(prefix, texts, lost, k - 1) + Piece(texts, lost, k - 1)
  }

  lemma JoinStep(texts: seq<string>, i: nat)
    requires i < |texts| - 1
    ensures Join(texts[i..]) == texts[i] + "," + Join(texts[i + 1..])
  {
    assert texts[i..][1..] == texts[i + 1..];
  }

  lemma {:induction false} BuiltIsJoin(prefix: string, texts: seq<string>, lost: bool, from: nat, k: nat)
    requires from <= k < |texts| && (lost ==> from >= 2)
    ensures Built(prefix, texts, lost, k) + Join(texts[k..]) == Built(prefix, texts, lost, from) + Join(texts[from..])
  {
    if k > from {
      BuiltIsJoin(prefix, texts, lost, from, k - 1);
      JoinStep(texts, k - 1);
      Associates(Built(prefix, texts, lost, k - 1), texts[k - 1] + ",", Join(texts[k..]));
    }
  }

  /** One strncat step when the line is at least as long as the text: only a comma can be cut. */
  lemma CatPiece(line: string, text: string, comma: bool)
    requires 0 < |text| <= |line|
    ensures var temp := if comma then StrNCat(text, ",", |text|) else text;
      StrNCat(line, temp, |line|) == line + if comma && |line| != |text| then text + "," else text
  {
    assert (text + ",")[..|text|] == text;
  }

  ghost predicate LineSoFar(prefix: string, words: TenWords, i: nat, line: string) {
    && 1 <= i <= 10
    && line == Built(prefix, Rendered(words), LosesComma(prefix, words), i)
    && (if i == 1 then |line| == |prefix| + |Hex(words[0])| + 3 else 9 <= |line|)
    && |line| <= |prefix| + 7 * i
    && (i == 10 ==> |line| <= |prefix| + 69)
  }

  lemma FirstRegister(prefix: string, words: TenWords)
    ensures LineSoFar(prefix, words, 1, prefix + Render(0, words[0]) + ",")
  {
    var texts, lost := Rendered(words), LosesComma(prefix, words);
    RenderedLength(0, words[0]);
    Associates(prefix, texts[0], ",");
    assert Built(prefix, texts, lost, 0) == prefix;
  }

  lemma NextRegister(prefix: string, words: TenWords, i: nat, line: string)
    requires prefix == INPUT_PREFIX || prefix == CONFIG_PREFIX
    requires i < 10 && LineSoFar(prefix, words, i, line)
    ensures var text := Render(i, words[i]);
      var temp := if i != 9 then StrNCat(text, ",", |text|) else text;
      LineSoFar(prefix, words, i + 1, StrNCat(line, temp, |line|))
  {
    var texts, lost := Rendered(words), LosesComma(prefix, words);
    HexLengthOfWord(words[0]);
    HexLengthOfWord(words[1]);
    RenderedLength(i, words[i]);
    assert i == 1 ==> (|line| == |texts[1]| <==> lost);
    CatPiece(line, texts[i], i != 9);
  }

  function RegisterLine(prefix: string, words: TenWords): string
  {
    if LosesComma(prefix, words) then LineWithoutComma(prefix, words) else PlainLine(prefix, words)
  }

  ghost predicate IsRegisterLine(prefix: string, words: TenWords, line: string) {
    && line == RegisterLine(prefix, words)
    && (line == PlainLine(prefix, words) <==> !LosesComma(prefix, words))
    && |line| <= 73
  }

  method CloseLine(prefix: string, words: TenWords, line: string) returns (closed: string)
    requires prefix == INPUT_PREFIX || prefix == CONFIG_PREFIX
    requires LineSoFar(prefix, words, 10, line)
    ensures IsRegisterLine(prefix, words, closed)
  {
    BuiltPlain(prefix, words);
    BuiltWithoutComma(prefix, words);
    closed := StrNCat(line, "\n", |line|);
    assert closed == line + "\n";
  }

  /** One pass of the loop: render word i and append it to the line. */
  method AppendRegister(prefix: string, words: TenWords, i: nat, line: string) returns (text: string, longer: string)
    requires prefix == INPUT_PREFIX || prefix == CONFIG_PREFIX
    requires i < 10 && (i > 0 ==> LineSoFar(prefix, words, i, line))
    ensures text == Render(i, words[i]) && LineSoFar(prefix, words, i + 1, longer)
  {
    text := Render(i, words[i]);
    if i == 0 {
      FirstRegister(prefix, words);
      longer := prefix + text + ",";
    } else {
      NextRegister(prefix, words, i, line);
      var temp := if i != 9 then StrNCat(text, ",", |text|) else text;
      longer := StrNCat(line, temp, |line|);
    }
  }

  method BuildLine(prefix: string, words: TenWords) returns (registers: seq<string>, line: string)
    requires prefix == INPUT_PREFIX || prefix == CONFIG_PREFIX
    ensures registers == Rendered(words)
    ensures IsRegisterLine(prefix, words, line)
  {
    registers, line := [], "";
    for i := 0 to 10
      invariant registers == Rendered(words)[..i]
      invariant i > 0 ==> LineSoFar(prefix, words, i, line)
    {
      var text;
      text, line := AppendRegister(prefix, words, i, line);
      registers := registers + [text];
    }
    line := CloseLine(prefix, words, line);
  }

  lemma BuiltTwo(prefix: string, texts: seq<string>, lost: bool)
    requires |texts| == 10
    ensures Built(prefix, texts, lost, 2)
      == if lost then prefix + texts[0] + "," + texts[1] else prefix + texts[0] + "," + texts[1] + ","
  {
    assert Built(prefix, texts, lost, 0) == prefix;
    assert Built(prefix, texts, lost, 1) == prefix + (texts[0] + ",");
  }

  lemma BuiltWhole(prefix: string, texts: seq<string>, lost: bool, from: nat)
    requires |texts| == 10 && from < 9 && (lost ==> from >= 2)
    ensures Built(prefix, texts, lost, 10) == Built(prefix, texts, lost, from) + Join(texts[from..])
  {
    BuiltIsJoin(prefix, texts, lost, from, 9);
    assert texts[9..] == [texts[9]];
  }

  lemma BuiltPlain(prefix: string, words: TenWords)
    ensures Built(prefix, Rendered(words), false, 10) + "\n" == PlainLine(prefix, words)
  {
    var texts := Rendered(words);
    BuiltWhole(prefix, texts, false, 0);
    assert texts[0..] == texts;
    assert Built(prefix, texts, false, 0) == prefix;
  }

  lemma BuiltWithoutComma(prefix: string, words: TenWords)
    ensures Built(prefix, Rendered(words), true, 10) + "\n" == LineWithoutComma(prefix, words)
    ensures |LineWithoutComma(prefix, words)| < |PlainLine(prefix, words)|
  {
    var texts := Rendered(words);
    BuiltWhole(prefix, texts, true, 2);
    BuiltTwo(prefix, texts, true);
    BuiltWhole(prefix, texts, false, 2);
    BuiltTwo(prefix, texts, false);
    BuiltPlain(prefix, words);
  }
}
