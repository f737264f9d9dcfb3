/** The two client steps of an assembled move seen from the drive: entering the program mode
    (_SMD_program_block_first_block) and the upload of a profile. */
module ProgramMode {
  import opened CArithmetic
  import opened Text
  import opened Utilities
  import opened Registers
  import opened Readback
  import opened Drive
  import opened Modbus
  import opened Upload
  import opened Handshake
  import opened UploadRuns

  // ---- reading the two status bits off the line ----

  lemma {:induction false} JoinLacks(texts: seq<string>, c: char)
    requires |texts| > 0 && c != ',' && forall i :: 0 <= i < |texts| ==> c !in texts[i]
    ensures c !in Join(texts)
  {
    if |texts| > 1 { JoinLacks(texts[1..], c); }
  }

  lemma NoSpaceInRegister(i: nat, w: Word)
    ensures ' ' !in Render(i, w)
  {
    hide PrintInt, Hex;
    HexChars(w);
    PrintIntChars(Int16(w));
  }

  lemma NoSpaceInLine(words: TenWords)
    ensures ' ' !in PlainLine(INPUT_PREFIX, words)
  {
    hide Render;
    forall i | 0 <= i < 10 ensures ' ' !in Rendered(words)[i] { NoSpaceInRegister(i, words[i]); }
    JoinLacks(Rendered(words), ' ');
  }

  lemma TwoBits(w: Word)
    requires w >= 0x1000
    ensures var bits := BinString(16, "0x" + Hex(w));
      CharAt(bits, 6) == DigitChar(Bit(w, 9)) && CharAt(bits, 7) == DigitChar(Bit(w, 8))
  {
    hide BinString, Hex;
    TextIsBinaryWord(w, 16);
    var bits := BinString(16, "0x" + Hex(w));
    assert bits[15 - 9] == DigitChar(Bit(w, 9)) && bits[15 - 8] == DigitChar(Bit(w, 8));
  }

  lemma WordTextIsHex(w: Word)
    ensures var text := "0x" + Hex(w);
      text != "" && WithoutPrefix(text) == Hex(w) && AllHex(Hex(w)) && 4 * |Hex(w)| <= 16
  {
    StatusText(w, 16);
    HexLengthOfWord(w);
    assert ("0x" + Hex(w))[0] == '0' && ("0x" + Hex(w))[1] == 'x';
    assert ("0x" + Hex(w))[2..] == Hex(w);
  }

  lemma LineShowsWord(words: TenWords)
    requires words[0] >= 0x1000
    ensures var line := RegisterLine(INPUT_PREFIX, words);
      && |Split(line)| == 12 && Split(line)[2] == "0x" + Hex(words[0]) && ' ' !in line
      && CharAt(BinString(16, Split(line)[2]), 6) == DigitChar(Bit(words[0], 9))
      && CharAt(BinString(16, Split(line)[2]), 7) == DigitChar(Bit(words[0], 8))
  {
    hide BinString, Hex, Bit, PlainLine;
    NoSpaceInLine(words);
    LineSplits(words);
    assert LineTokens(words)[2] == Rendered(words)[0] == "0x" + Hex(words[0]);
    TwoBits(words[0]);
  }

  /** The whole-line test at the start of an upload is the test of status bits 9 and 8. */
  lemma LineTestIsBitTest(words: TenWords)
    requires words[0] >= 0x1000
    ensures ReadyForSegments(RegisterLine(INPUT_PREFIX, words)) <==> Bit(words[0], 9) == 1 && Bit(words[0], 8) == 1
  {
    hide BinString, Hex, Bit, RegisterLine;
    LineShowsWord(words);
    WordTextIsHex(words[0]);
  }

  // ---- entering the program mode ----

  lemma ReadyLine(l: LinkState)
    requires Answers(l.pending, 0)
    ensures !ReadingOf(l).NoRoute? && (ReadyForSegments(LineOf(ReadingOf(l))) <==> Asking(l.drive))
  {
    hide ReadyForSegments, RegisterLine, Bit;
    var words := ReadingOf(l).words;
    StatusBits(l.drive, l.pending[0].reply.noise);
    LineTestIsBitTest(words);
  }

  /** What the line of a read has to say for programming to begin: that the drive asks for a
      segment, or, if the read failed, what fresh memory happens to say. */
  ghost predicate Invites(reply: Reply, asking: bool) {
    match reply
    case Registers(_, _) => asking
    case ReadError(_, line) => ReadyForSegments(line)
  }

  /** programAssembledMove is granted exactly when both its connections come up and the line
      read on the second one says so. The drive then asks for a segment if the write of 2048
      arrived, with an empty program unless it was already being programmed; otherwise it is
      as it was. */
  lemma FirstBlockGranted(l: LinkState)
    ensures FirstBlockAccepted(l) <==>
      ConnectsFor(l.pending, 2) && Invites(l.pending[1].reply, Keeps(l.pending, 0, 1) || Asking(l.drive))
    ensures var sent := Send(l, PREPARE_WRITES, FIRST_BLOCK_NAME);
      FirstBlockAccepted(l) ==>
        FirstBlock(l).pending == l.pending[2..] && FirstBlock(l).drive == sent.drive && AskedAgain(l, sent)
  {
    hide ReadyForSegments, ReadingOf, Send, Delivered;
    UploadNamesSendable();
    SentOnce(l, PREPARE_WRITES, FIRST_BLOCK_NAME);
    var sent := Send(l, PREPARE_WRITES, FIRST_BLOCK_NAME);
    if ConnectsFirst(l.pending) {
      Prepared(l.drive, l.pending[0].dropped);
      assert sent.pending == l.pending[1..];
      if ConnectsFirst(sent.pending) {
        assert l.pending[1].Connected?;
        if Answers(sent.pending, 0) { ReadyLine(sent); } else { FailedRead(sent); }
      } else {
        NothingRead(sent);
      }
    }
  }

  lemma FailedRead(l: LinkState)
    requires ConnectsFirst(l.pending) && !Answers(l.pending, 0)
    ensures ReadingOf(l).Garbage? && LineOf(ReadingOf(l)) == l.pending[0].reply.line
  {
  }

  lemma NothingRead(l: LinkState)
    requires !ConnectsFirst(l.pending)
    ensures ReadingOf(l).NoRoute?
  {
  }

  // ---- the profile in the drive ----

  /** The fields fit the C types of the struct. */
  ghost predicate Typed(s: Profile) {
    && FitsInt32(s.position) && FitsInt32(s.speed)
    && FitsInt16(s.accel) && FitsInt16(s.decel) && FitsInt16(s.jerk)
  }

  ghost predicate AllTyped(segments: seq<Profile>) {
    forall i :: 0 <= i < |segments| ==> Typed(segments[i])
  }

  /** Every position and speed is one the drive can hold. */
  ghost predicate AllEncodable(segments: seq<Profile>) {
    forall i :: 0 <= i < |segments| ==> Encodable(segments[i].position) && Encodable(segments[i].speed)
  }

  function Decoded(program: seq<Block>): (segments: seq<Profile>)
    ensures |segments| == |program|
  {
    seq(|program|, i requires 0 <= i < |program| => Decode(program[i]))
  }

  lemma StoredMeansSent(segments: seq<Profile>)
    requires AllTyped(segments)
    ensures Decoded(BlocksOf(segments)) == segments <==> AllEncodable(segments)
  {
    hide Decode, BlockOf, Encodable;
    forall i | 0 <= i < |segments|
      ensures Decode(BlockOf(segments[i])) == segments[i] <==>
        Encodable(segments[i].position) && Encodable(segments[i].speed)
    {
      BlockMeansSegment(segments[i]);
    }
    var decoded := Decoded(BlocksOf(segments));
    assert forall i :: 0 <= i < |segments| ==> decoded[i] == Decode(BlockOf(segments[i]));
  }

  lemma ProgramsLatch(segments: seq<Profile>)
    ensures AllLatch(ProgramsOf(segments), BlocksOf(segments))
  {
    hide Latches, WritesOf, BlockOf;
    forall i | 0 <= i < |segments| ensures Latches(ProgramsOf(segments)[i], BlocksOf(segments)[i]) {
      SegmentLatches(segments[i]);
    }
  }

  /** The profile was added to what the drive held. */
  ghost predicate HoldsProfile(l: LinkState, p: Progress, segments: seq<Profile>) {
    Decoded(p.link.drive.program) == Decoded(l.drive.program) + segments
  }

  lemma DecodedJoins(a: seq<Block>, b: seq<Block>)
    ensures Decoded(a + b) == Decoded(a) + Decoded(b)
  {
    hide Decode;
  }

  /** Whether n blocks more are held. */
  ghost predicate Longer(l: LinkState, p: Progress, n: nat) {
    |p.link.drive.program| == |l.drive.program| + n
  }

  /** An upload to any drive is given up exactly when some round does not go through. Otherwise
      it adds as many blocks as there are segments exactly when the drive asked at the start,
      every prepare but the last arrived, and so did every latch no read has checked; and, if
      the segments' fields arrive, it adds the profile exactly when moreover all its numbers
      are encodable. */
  lemma ProfileStoredExactlyWhen(l: LinkState, segments: seq<Profile>)
    requires segments != [] && AllTyped(segments) && l.drive.Coherent()
    ensures var p, n := UploadAll(l, segments), |segments|;
      && (p.failed <==> !AllGo(l.drive.ready, l.pending, n))
      && (!p.failed ==> p.acks == Acknowledged(l.drive.ready, l.pending, n))
      && (!p.failed ==> (Longer(l, p, n) <==>
            l.drive.ready && LatchedWhereUnread(l.pending, n) && PreparesKept(l.pending, n - 1)))
      && (!p.failed && AllFieldsArrive(l.pending, n) ==>
            (HoldsProfile(l, p, segments) <==> Longer(l, p, n) && AllEncodable(segments)))
  {
    hide Typed, AllEncodable, UploadRun, AllLatch, AllFieldsArrive, LatchedWhereUnread, PreparesKept, RoundGoes;
    var programs, blocks, p := ProgramsOf(segments), BlocksOf(segments), UploadAll(l, segments);
    ProgramsLatch(segments);
    UploadIs(l, programs, blocks, |segments|);
    if !p.failed {
      CompleteExactlyWhen(l, programs, blocks, |segments|);
      if Longer(l, p, |segments|) && AllFieldsArrive(l.pending, |segments|) {
        StoredMeansSent(segments);
        assert blocks[..|segments|] == blocks;
        DecodedJoins(l.drive.program, blocks);
        SameTail(Decoded(l.drive.program), Decoded(blocks), segments);
      }
      if HoldsProfile(l, p, segments) { assert |Decoded(p.link.drive.program)| == |l.drive.program| + |segments|; }
    }
  }

  lemma SameTail(a: seq<Profile>, b: seq<Profile>, c: seq<Profile>)
    ensures a + b == a + c <==> b == c
  {
    if a + b == a + c {
      assert (a + b)[|a|..] == b && (a + c)[|a|..] == c;
    }
  }

  /** What the acknowledgements tell, when the drive asked for the first segment. */
  lemma ProfileAcknowledged(l: LinkState, segments: seq<Profile>)
    requires segments != [] && Asking(l.drive) && !UploadAll(l, segments).failed
    ensures var p, n := UploadAll(l, segments), |segments|;
      && (Numbers(n - 1) <= p.acks ==> (Longer(l, p, n) <==> LatchedWhereUnread(l.pending, n)))
      && (SecondReadsAnswered(l.pending, n - 1) && Longer(l, p, n) ==> Numbers(n - 1) <= p.acks)
  {
    hide UploadRun, AllLatch, LatchedWhereUnread, PreparesKept;
    ProgramsLatch(segments);
    CompleteExactlyWhen(l, ProgramsOf(segments), BlocksOf(segments), |segments|);
    CompleteExactlyWhenAcknowledged(l, ProgramsOf(segments), BlocksOf(segments), |segments|);
  }

  /** Over working connections: not given up means stored and fully acknowledged, and four
      connections for each segment are enough. */
  lemma WorkingProfile(l: LinkState, segments: seq<Profile>)
    requires segments != [] && AllTyped(segments) && AllEncodable(segments)
    requires Working(l.pending) && Asking(l.drive)
    ensures var p := UploadAll(l, segments);
      && (!p.failed ==> HoldsProfile(l, p, segments) && p.acks == Numbers(|segments|))
      && (ConnectsFor(l.pending, 4 * |segments|) ==> !p.failed)
  {
    hide Typed, AllEncodable, UploadRun, AllLatch;
    ProgramsLatch(segments);
    WorkingUpload(l, ProgramsOf(segments), BlocksOf(segments), |segments|);
    StoredMeansSent(segments);
    assert BlocksOf(segments)[..|segments|] == BlocksOf(segments);
    DecodedJoins(l.drive.program, BlocksOf(segments));
  }
}
