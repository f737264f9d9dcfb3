/** From client lines to the registers of the drive and back to the client. */
module EndToEnd {
  import opened Text
  import opened Utilities
  import opened CArithmetic
  import opened Registers
  import opened Readback
  import opened Drive
  import opened Modbus
  import opened MotorCommands
  import opened Upload
  import opened Handshake
  import opened UploadRuns
  import opened ProgramMode
  import opened Dispatch
  import opened Session
  import opened Recognition
  import opened WireValues

  // ---- an assembled move ----

  /** A line that asks for an upload. */
  ghost predicate AsksToProgram(e: Event) { e.Line? && "programAssembledMove" <= e.text && NoSearchedWord(e.text) }

  lemma FirstBlockLogs(l: LinkState)
    ensures FirstBlockAccepted(l) ==>
      FirstBlock(l).log == l.log + [Frame("program_first_block", [Write(1025, 32768), Write(1024, 2048)])]
  {
    hide ReadyForSegments, LineOf, ReadingOf, Delivered;
    UploadNamesSendable();
  }

  /** programAssembledMove is granted exactly when both of its connections come up and the line
      read on the second one says so: the drive asks for a segment, or, if the read failed,
      fresh memory happens to say it. */
  lemma ProgramLineGranted(s: Status, e: Event)
    requires IsIdle(s) && s.clientOpen && AsksToProgram(e)
    ensures var t, before := Served(s, e), s.link.drive; var asked := Keeps(s.link.pending, 0, 1);
      && (t.waiting == 1 <==>
            ConnectsFor(s.link.pending, 2) && Invites(s.link.pending[1].reply, asked || Asking(before)))
      && (t.waiting == 1 ==>
            && t == Told(s.(waiting := 1, link := t.link), [Answer(ReadyForAssembledMove)], e.writeOk)
            && t.link.pending == s.link.pending[2..]
            && t.link.log == s.link.log + [Frame("program_first_block", [Write(1025, 32768), Write(1024, 2048)])]
            && (t.link.drive.ready <==> before.ready || asked)
            && (t.link.drive.programming <==> before.programming || asked)
            && t.link.drive.program == if asked && !before.programming then [] else before.program)
  {
    hide RequestOf, FirstBlockAccepted, FirstBlock, Issue, Invites, Send, NoSearchedWord;
    ProgramLine(e.text);
    FirstBlockGranted(s.link);
    FirstBlockLogs(s.link);
  }

  /** A document the server uploads: sixteen segments at most, before all other members, of
      the declared C types, and a known move type. */
  ghost predicate Uploadable(document: Document) {
    var segments := SegmentsOf(document.members);
    && 1 <= |segments| <= MAX_SEGMENTS && Leading(document.members) && AllTyped(segments)
    && ("dwell" <= document.moveType || "blend" <= document.moveType)
  }

  /** The full texts of acknowledgements 1_OF_n .. n_OF_n. */
  function Acks(n: nat): (messages: seq<Message>)
    ensures |messages| == n
  {
    seq(n, i requires 0 <= i < n =>
      SegmentText("MOVE_SEGMENT_ACCEPTED_" + PrintInt(i + 1) + "_OF_" + PrintInt(n) + "\n"))
  }

  lemma ShortNumber(n: nat)
    requires n <= 16
    ensures |PrintInt(n)| <= 2
  {
    assert PowerOf10(2) == 10 * PowerOf10(1) == 100;
    DecimalLength(n, 2);
  }

  lemma PrefixLength()
    ensures |"MOVE_SEGMENT_ACCEPTED_"| == 22 && |"_OF_"| == 4
  {
  }

  /** No acknowledgement is cut by its 32-byte buffer. */
  lemma AckFits(number: nat, n: nat)
    requires number <= n <= MAX_SEGMENTS
    ensures AckText(number, n) == "MOVE_SEGMENT_ACCEPTED_" + PrintInt(number) + "_OF_" + PrintInt(n) + "\n"
  {
    hide PrintInt;
    PrefixLength();
    ShortNumber(n);
    ShortNumber(number);
  }

  /** A client can read the number of an acknowledgement off its text. */
  lemma AckTellsItsNumber(i: nat, j: nat, n: nat)
    requires i <= n <= MAX_SEGMENTS && j <= n && AckText(i, n) == AckText(j, n)
    ensures i == j
  {
    AckFits(i, n);
    AckFits(j, n);
    NumberInAck(i, n);
    NumberInAck(j, n);
  }

  lemma NumberInAck(i: nat, n: nat)
    requires i <= n <= MAX_SEGMENTS
    ensures |AckText(i, n)| > 22 && ConvertStringToLongInt(AckText(i, n)[22..]) == i
  {
    hide PrintInt, ConvertStringToLongInt;
    AckFits(i, n);
    PrefixLength();
    var rest := "_OF_" + PrintInt(n) + "\n";
    assert AckText(i, n) == "MOVE_SEGMENT_ACCEPTED_" + (PrintInt(i) + rest);
    assert AckText(i, n)[22..] == PrintInt(i) + rest;
    assert rest[0] == '_';
    PrintedIntParses(i, rest);
  }

  /** The client has acknowledgements 1..m first exactly when those numbers were sent first. */
  lemma AcksReceivedExactlyWhen(acks: seq<nat>, m: nat, n: nat, code: Response)
    requires m <= n <= MAX_SEGMENTS && forall a :: a in acks ==> a <= n
    ensures Acks(n)[..m] <= AckTexts(acks, n) + [Answer(code)] <==> Numbers(m) <= acks
  {
    hide AckText, PrintInt;
    var got := AckTexts(acks, n) + [Answer(code)];
    forall i | 0 <= i < n ensures Acks(n)[i] == SegmentText(AckText(i + 1, n)) { AckFits(i + 1, n); }
    forall i | 0 <= i < m && i < |acks| ensures got[i] == Acks(n)[i] <==> acks[i] == i + 1 {
      if got[i] == Acks(n)[i] {
        assert acks[i] in acks;
        AckTellsItsNumber(acks[i], i + 1, n);
      }
    }
    if m > 0 && Acks(n)[..m] <= got {
      assert got[m - 1] == Acks(n)[..m][m - 1] == Acks(n)[m - 1];
      assert got[m - 1].SegmentText? && m <= |acks|;
      forall i | 0 <= i < m ensures acks[i] == Numbers(m)[i] {
        assert got[i] == Acks(n)[..m][i] == Acks(n)[i];
      }
    }
    if Numbers(m) <= acks {
      forall i | 0 <= i < m ensures got[i] == Acks(n)[..m][i] { assert acks[i] == Numbers(m)[i]; }
    }
  }

  /** The client has received acknowledgements 1 .. n-1, first thing since s. */
  ghost predicate HeardAll(s: Status, t: Status, n: nat) {
    n > 0 && |s.sent| <= |t.sent| && Acks(n)[..n - 1] <= t.sent[|s.sent|..]
  }

  lemma TypeNamed(d: Document)
    requires Uploadable(d)
    ensures TypeOf(d.moveType) == (if "dwell" <= d.moveType then Dwell else Blend)
  {
  }

  ghost predicate HasLonger(s: Status, t: Status, n: nat) {
    |t.link.drive.program| == |s.link.drive.program| + n
  }

  /** The old program, and after it exactly these segments. */
  ghost predicate HasProfile(s: Status, t: Status, segments: seq<Profile>) {
    Decoded(t.link.drive.program) == Decoded(s.link.drive.program) + segments
  }

  /** After an upload answered with ASSEMBLED_MOVE_ACCEPTED: what the drive holds, and what the
      client can tell of it. */
  ghost predicate ClientCanTell(s: Status, segments: seq<Profile>, t: Status, ok: bool) {
    var n, pending := |segments|, s.link.pending;
    && n > 0
    && (HasLonger(s, t, n) <==> s.link.drive.ready && LatchedWhereUnread(pending, n) && PreparesKept(pending, n - 1))
    && (AllFieldsArrive(pending, n) ==> (HasProfile(s, t, segments) <==> HasLonger(s, t, n) && AllEncodable(segments)))
    && (ok && Asking(s.link.drive) ==>
          && (HeardAll(s, t, n) ==> (HasLonger(s, t, n) <==> LatchedWhereUnread(pending, n)))
          && (SecondReadsAnswered(pending, n - 1) && HasLonger(s, t, n) ==> HeardAll(s, t, n)))
  }

  /** After the upload of a document: which answer was given, what was sent with it, what is
      true if it was the good one. */
  ghost predicate UploadEnds(s: Status, document: Document, t: Status, code: Response, ok: bool) {
    var segments := SegmentsOf(document.members);
    var ready, pending, n := s.link.drive.ready, s.link.pending, |segments|;
    && code == (if AllGo(ready, pending, n) then AssembledMoveAccepted else CommandFailed)
    && t.moveType == (if "dwell" <= document.moveType then Dwell else Blend) && t.waiting == 0
    && (code == AssembledMoveAccepted ==>
          && t == Told(s.(waiting := 0, moveType := t.moveType, link := t.link),
                       AckTexts(Acknowledged(ready, pending, n), n) + [Answer(code)], ok)
          && ClientCanTell(s, segments, t, ok))
  }

  lemma ClientTells(s: Status, segments: seq<Profile>, t: Status, ok: bool)
    requires 0 < |segments| <= MAX_SEGMENTS && AllTyped(segments) && s.link.drive.Coherent()
    requires !UploadAll(s.link, segments).failed && t.link == UploadAll(s.link, segments).link
    requires var acks := Acknowledged(s.link.drive.ready, s.link.pending, |segments|);
      ok ==> t.sent == s.sent + (AckTexts(acks, |segments|) + [Answer(AssembledMoveAccepted)])
    ensures ClientCanTell(s, segments, t, ok)
  {
    hide UploadAll, AckTexts, Acks, Decoded, AllTyped, AllEncodable, AllFieldsArrive, AllGo, Acknowledged,
      LatchedWhereUnread, PreparesKept, SecondReadsAnswered;
    var n := |segments|;
    ProfileStoredExactlyWhen(s.link, segments);
    if Asking(s.link.drive) { ProfileAcknowledged(s.link, segments); }
    var acks := Acknowledged(s.link.drive.ready, s.link.pending, n);
    AcknowledgedNumbers(s.link.drive.ready, s.link.pending, n);
    AcksReceivedExactlyWhen(acks, n - 1, n, AssembledMoveAccepted);
    AppendedTexts(s.sent, AckTexts(acks, n), [Answer(AssembledMoveAccepted)]);
  }

  lemma ProfileLoads(s: Status, e: Event)
    requires e.Line? && e.document.Some? && Uploadable(e.document.value) && s.link.drive.Coherent()
    ensures var (t, code) := Loaded(s, e);
      UploadEnds(s, e.document.value, Answered(t, code, e.writeOk), code, e.writeOk)
  {
    hide UploadAll, TableOf, SegmentsOf, Issue, AckTexts, AllTyped, Leading, TypeOf, AllGo, Acknowledged, ClientCanTell;
    var d := e.document.value;
    var segments := SegmentsOf(d.members);
    TypeNamed(d);
    LeadingTable(d.members, e.stack);
    assert SegmentsSent(d, e.stack) == segments;
    ProfileStoredExactlyWhen(s.link, segments);
    var acks := Acknowledged(s.link.drive.ready, s.link.pending, |segments|);
    AppendedTexts(s.sent, AckTexts(acks, |segments|), [Answer(AssembledMoveAccepted)]);
    if !UploadAll(s.link, segments).failed {
      var (t, code) := Loaded(s, e);
      ClientTells(s, segments, Answered(t, code, e.writeOk), e.writeOk);
    }
  }

  lemma AppendedTexts(sent: seq<Message>, texts: seq<Message>, answer: seq<Message>)
    ensures sent + texts + answer == sent + (texts + answer)
    ensures (sent + (texts + answer))[|sent|..] == texts + answer
  {
  }

  /** The upload of a document, whichever attempts fail, whichever writes are lost and whichever
      reads fail. ASSEMBLED_MOVE_ACCEPTED alone does not tell that the drive holds the profile.
      With acknowledgements 1 .. n-1 it does, provided every latch that no answered read has
      checked arrived; without one of them it does not hold it, unless a read failed. */
  lemma ProfileLineUploads(s: Status, e: Event)
    requires IsWaiting(s) && s.clientOpen && s.link.drive.Coherent()
    requires e.Line? && e.document.Some? && Uploadable(e.document.value)
    ensures UploadEnds(s, e.document.value, Served(s, e), Dispatched(s, e).1, e.writeOk)
  {
    hide Loaded, Uploadable, UploadEnds, SegmentsOf;
    ProfileLoads(s, e);
  }

  /** If all reads are answered, the client can tell for sure. */
  lemma AnsweredReadsTellAll(s: Status, e: Event)
    requires IsWaiting(s) && s.clientOpen && Asking(s.link.drive) && Answering(s.link.pending)
    requires e.Line? && e.document.Some? && Uploadable(e.document.value) && e.writeOk
    ensures var t, n := Served(s, e), |SegmentsOf(e.document.value.members)|;
      Dispatched(s, e).1 == AssembledMoveAccepted ==> (HasLonger(s, t, n) <==> HeardAll(s, t, n))
  {
    hide Served, Dispatched, Uploadable, SegmentsOf, AllGo, LatchedWhereUnread, PreparesKept, SecondReadsAnswered,
      HasLonger, HeardAll, Answering, AckTexts, Acknowledged;
    ProfileLineUploads(s, e);
    var n := |SegmentsOf(e.document.value.members)|;
    if AllGo(s.link.drive.ready, s.link.pending, n) {
      ReadsTellAll(s.link.drive.ready, s.link.pending, n);
      FewerAnswered(s.link.pending, n);
    }
  }

  lemma FewerAnswered(pending: seq<Outcome>, n: nat)
    requires SecondReadsAnswered(pending, n)
    ensures n > 0 ==> SecondReadsAnswered(pending, n - 1)
  {
  }

  /** Numbers k of acknowledgements make exactly the texts a client expects. */
  lemma AcksFit(n: nat)
    requires n <= MAX_SEGMENTS
    ensures AckTexts(Numbers(n), n) == Acks(n)
  {
    hide PrintInt, AckText;
    forall i | 0 <= i < n ensures AckTexts(Numbers(n), n)[i] == Acks(n)[i] { AckFits(i + 1, n); }
  }

  /** Where the profile has arrived, with its type and all its acknowledgements. */
  ghost predicate Arrived(s: Status, document: Document, t: Status, ok: bool) {
    var segments := SegmentsOf(document.members);
    && HasProfile(s, t, segments)
    && t.moveType == (if "dwell" <= document.moveType then Dwell else Blend)
    && t == Told(s.(waiting := 0, moveType := t.moveType, link := t.link),
                 Acks(|segments|) + [Answer(AssembledMoveAccepted)], ok)
  }

  lemma ProfileArrives(s: Status, e: Event)
    requires IsWaiting(s) && s.clientOpen && Working(s.link.pending) && Asking(s.link.drive)
    requires e.Line? && e.document.Some? && Uploadable(e.document.value)
    requires AllEncodable(SegmentsOf(e.document.value.members))
    requires ConnectsFor(s.link.pending, 4 * |SegmentsOf(e.document.value.members)|)
    ensures Arrived(s, e.document.value, Served(s, e), e.writeOk)
  {
    hide UploadAll, TableOf, SegmentsOf, Issue, AckTexts, Acks, Asking, Decoded, AllTyped, AllEncodable, Leading,
      TypeOf, Working, ConnectsFor;
    var d := e.document.value;
    var segments := SegmentsOf(d.members);
    TypeNamed(d);
    LeadingTable(d.members, e.stack);
    assert SegmentsSent(d, e.stack) == segments;
    WorkingProfile(s.link, segments);
    AcksFit(|segments|);
    AppendedTexts(s.sent, Acks(|segments|), [Answer(AssembledMoveAccepted)]);
  }

  lemma UploadableLeads(d: Document)
    requires Uploadable(d)
    ensures Leading(d.members)
  {
  }

  /** From block `from` on, the program holds the numbers of the document's members: position
      and speed as they are, the others cut to 16 bits. */
  ghost predicate StoredFields(program: seq<Block>, from: nat, d: Document) {
    && |program| == from + |SegmentsOf(d.members)| && |SegmentsOf(d.members)| <= |d.members|
    && (forall i :: 0 <= i < |d.members| ==> ("segment" <= d.members[i].key <==> i < |SegmentsOf(d.members)|))
    && forall i :: 0 <= i < |SegmentsOf(d.members)| ==>
         var f := d.members[i].fields;
         BlockCarries(program[from + i], f.targetPosition, f.programmedSpeed,
                      f.accel % 65536, f.decel % 65536, f.jerk % 65536)
  }

  /** A block that decodes to a segment carries its member's numbers. */
  lemma DecodedCarries(b: Block, f: Fields)
    requires HasFields(Decode(b), f)
    ensures BlockCarries(b, f.targetPosition, f.programmedSpeed, f.accel % 65536, f.decel % 65536, f.jerk % 65536)
  {
    SignedIsInt16(b.positionUpper); SignedIsInt16(b.positionLower);
    SignedIsInt16(b.speedUpper); SignedIsInt16(b.speedLower);
    CutWord(b.accel, f.accel); CutWord(b.decel, f.decel); CutWord(b.jerk, f.jerk);
    hide Int16, Signed;
  }

  lemma CutWord(w: int, n: int)
    requires 0 <= w < 65536 && (Int16(w) - n) % 65536 == 0
    ensures w == n % 65536
  {
  }

  lemma ProfileMeansFields(before: seq<Block>, after: seq<Block>, d: Document)
    requires Leading(d.members) && Decoded(after) == Decoded(before) + SegmentsOf(d.members)
    ensures StoredFields(after, |before|, d)
  {
    hide Decode, BlockCarries, HasFields;
    var segments := SegmentsOf(d.members);
    assert |Decoded(after)| == |before| + |segments|;
    SegmentsAreNamed(d.members);
    forall i | 0 <= i < |segments|
      ensures var f := d.members[i].fields;
        BlockCarries(after[|before| + i], f.targetPosition, f.programmedSpeed,
                     f.accel % 65536, f.decel % 65536, f.jerk % 65536)
    {
      LeadingFields(d.members, i);
      assert Decoded(after)[|before| + i] == segments[i];
      assert Decode(after[|before| + i]) == segments[i];
      DecodedCarries(after[|before| + i], d.members[i].fields);
    }
  }

  /** The whole exchange: programAssembledMove, then the profile, to an idle session, with two
      connections and then four for each segment. A drive still in the program mode from an
      earlier upload keeps what it has, and the profile comes after it. What is written to the
      client during either line reaches it or not. */
  lemma AssembledMoveIsStored(s: Status, ask: Event, profile: Event)
    requires IsIdle(s) && s.clientOpen && Working(s.link.pending)
    requires AsksToProgram(ask)
    requires profile.Line? && profile.document.Some? && Uploadable(profile.document.value)
    requires AllEncodable(SegmentsOf(profile.document.value.members))
    requires ConnectsFor(s.link.pending, 2 + 4 * |SegmentsOf(profile.document.value.members)|)
    ensures var t := Served(Served(s, ask), profile); var d := profile.document.value;
      && Decoded(t.link.drive.program)
         == Decoded(if s.link.drive.programming then s.link.drive.program else []) + SegmentsOf(d.members)
      && StoredFields(t.link.drive.program, if s.link.drive.programming then |s.link.drive.program| else 0, d)
      && IsIdle(t) && t.moveType == (if "dwell" <= d.moveType then Dwell else Blend)
      && t.sent == s.sent + (if ask.writeOk then [Answer(ReadyForAssembledMove)] else [])
           + (if profile.writeOk then Acks(|SegmentsOf(d.members)|) + [Answer(AssembledMoveAccepted)] else [])
  {
    hide Served, Uploadable, Decoded, Acks, SegmentsOf, AllEncodable, NoSearchedWord, StoredFields;
    assert ConnectsFor(s.link.pending, 2) && Keeps(s.link.pending, 0, 1);
    ProgramLineGranted(s, ask);
    var granted, d := Served(s, ask), profile.document.value;
    ProfileArrives(granted, profile);
    TypeNamed(d);
    UploadableLeads(d);
    ProfileMeansFields(granted.link.drive.program, Served(granted, profile).link.drive.program, d);
  }

  // ---- refusals ----

  /** From l on, the errors of the drive are reset, if the next connection works. */
  ghost predicate Reset(l: LinkState, m: LinkState) {
    NextWorks(l) ==>
      m.drive.Reg(1024) == 1024 && m.drive.Reg(1025) == 32768 && !m.drive.programming && m.pending == l.pending[1..]
  }

  lemma ResetIs(l: LinkState)
    ensures Reset(l, Issue(l, ResetErrors))
  {
    hide State.Reg, Delivered;
    if NextWorks(l) {
      IssuedWhole(l, ResetErrors);
      PlainCommandsKeepTheProfile(l.drive, ResetErrors);
    }
    hide AfterAll;
  }

  /** A refused programAssembledMove resets the errors of the drive, and the session stays idle. */
  lemma RefusedProgramResets(s: Status, e: Event)
    requires IsIdle(s) && s.clientOpen && AsksToProgram(e) && !FirstBlockAccepted(s.link)
    ensures var t := Served(s, e);
      && t == Told(s.(link := t.link), [Answer(CommandFailed)], e.writeOk) && Reset(FirstBlock(s.link), t.link)
  {
    hide RequestOf, FirstBlockAccepted, FirstBlock, Issue, NoSearchedWord, Reset;
    ProgramLine(e.text);
    ResetIs(FirstBlock(s.link));
  }

  /** A text that is no profile: not JSON, without segments or with more than sixteen, or of no
      known type. */
  ghost predicate NoProfile(document: Option<Document>) {
    || document.None? || |SegmentsOf(document.value.members)| == 0 || |SegmentsOf(document.value.members)| > 16
    || !("dwell" <= document.value.moveType || "blend" <= document.value.moveType)
  }

  /** It is refused at once: nothing is uploaded, the errors are reset, the wait is over, and the
      move type stays. */
  lemma NoProfileIsRefused(s: Status, e: Event)
    requires IsWaiting(s) && s.clientOpen && e.Line? && NoProfile(e.document)
    ensures var t := Served(s, e);
      && t == Told(s.(waiting := 0, link := t.link), [Answer(CommandFailed)], e.writeOk) && Reset(s.link, t.link)
  {
    hide Issue, UploadAll, SegmentsSent, AckTexts, SegmentsOf, Reset;
    ResetIs(s.link);
  }

  /** An upload that is given up resets the errors from where it stopped, and the client is told
      of the segments acknowledged so far, and of the failure. */
  lemma GivenUpUploadResets(s: Status, e: Event)
    requires IsWaiting(s) && s.clientOpen && e.Line? && e.document.Some? && Uploadable(e.document.value)
    requires !AllGo(s.link.drive.ready, s.link.pending, |SegmentsOf(e.document.value.members)|)
    requires s.link.drive.Coherent()
    ensures var t, n := Served(s, e), |SegmentsOf(e.document.value.members)|;
      var p := UploadAll(s.link, SegmentsOf(e.document.value.members));
      && t == Told(s.(waiting := 0, moveType := t.moveType, link := t.link),
                   AckTexts(p.acks, n) + [Answer(CommandFailed)], e.writeOk)
      && Reset(p.link, t.link)
  {
    hide UploadAll, TableOf, SegmentsOf, Issue, AckTexts, AllTyped, Leading, TypeOf, AllGo, Reset;
    var d := e.document.value;
    var segments := SegmentsOf(d.members);
    TypeNamed(d);
    LeadingTable(d.members, e.stack);
    assert SegmentsSent(d, e.stack) == segments;
    ProfileStoredExactlyWhen(s.link, segments);
    var p := UploadAll(s.link, segments);
    ResetIs(p.link);
    AppendedTexts(s.sent, AckTexts(p.acks, |segments|), [Answer(CommandFailed)]);
  }
}
