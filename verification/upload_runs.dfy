/** What a run of the upload handshake means, whichever attempts fail, whichever writes are
    lost, and whichever reads fail over old text. */
module UploadRuns {
  import opened CArithmetic
  import opened Text
  import opened Utilities
  import opened Readback
  import opened Drive
  import opened Modbus
  import opened Delivery
  import opened Upload
  import opened Handshake

  // ---- attempts ----

  predicate Connects(pending: seq<Outcome>, i: nat) { i < |pending| && pending[i].Connected? }

  /** Attempt i comes up and keeps write w. */
  predicate Keeps(pending: seq<Outcome>, i: nat, w: nat) { Connects(pending, i) && w !in pending[i].dropped }

  /** Attempt i comes up and its read is answered. */
  predicate Answers(pending: seq<Outcome>, i: nat) { Connects(pending, i) && pending[i].reply.Registers? }

  /** If attempt i comes up, it keeps every field of a segment. */
  ghost predicate FieldsArrive(pending: seq<Outcome>, i: nat) {
    Connects(pending, i) ==> FieldsKept(pending[i].dropped)
  }

  lemma Bit9IsReady(l: LinkState, status: Option<string>)
    requires Answers(l.pending, 0)
    ensures ReadingOf(l).Read?
    ensures Bit9Char(StatusTextOf(ReadingOf(l), status)) == if l.drive.ready then '1' else '0'
  {
    var words := ReadingOf(l).words;
    StatusBits(l.drive, l.pending[0].reply.noise);
    BitTestedAtIndex6(words[0], 17);
  }

  /** The drive is in program mode and asks for a segment. */
  ghost predicate Asking(d: State) { d.programming && d.ready }

  /** A write program that hands block b to a drive. */
  ghost predicate Latches(writes: seq<Write>, b: Block) {
    forall d: State, dropped: set<nat> :: d.Coherent() ==>
      Latched(d, Delivered(d, writes, dropped, |writes|), dropped, b)
  }

  lemma SegmentLatches(s: Profile)
    ensures Latches(WritesOf(s), BlockOf(s))
  {
    hide ConvertIntToWords, Latched, Delivered;
    var p, w := ConvertIntToWords(s.position), ConvertIntToWords(s.speed);
    forall d: State, dropped: set<nat> | d.Coherent()
      ensures Latched(d, Delivered(d, WritesOf(s), dropped, |WritesOf(s)|), dropped, BlockOf(s))
    {
      SegmentLatched(d, p, w, s.accel, s.decel, s.jerk, dropped);
    }
  }

  ghost predicate AllLatch(programs: seq<seq<Write>>, blocks: seq<Block>) {
    |programs| == |blocks| && forall i :: 0 <= i < |programs| ==> Latches(programs[i], blocks[i])
  }

  // ---- one round ----

  lemma SentOnce(l: LinkState, writes: seq<Write>, name: string)
    requires !IsStop(name)
    ensures var sent := Send(l, writes, name);
      && sent.pending == Consume(l).pending
      && sent.drive == if Connects(l.pending, 0) then
           Delivered(l.drive, writes, l.pending[0].dropped, |writes|) else l.drive
  {
  }

  /** From before to after exactly one block was stored, or none; with the fields kept, b. */
  ghost predicate Extended(before: seq<Block>, after: seq<Block>, stored: bool, exact: bool, b: Block) {
    if stored then before <= after && |after| == |before| + 1 && (exact ==> after == before + [b])
    else after == before
  }

  /** The first half of a round: the segment is sent. */
  ghost predicate Handed(l: LinkState, m: LinkState, b: Block) {
    && m.pending == Consume(l).pending
    && m.drive.programming == l.drive.programming
    && (m.drive.ready <==> l.drive.ready && !Keeps(l.pending, 0, 8))
    && Extended(l.drive.program, m.drive.program,
                l.drive.ready && Keeps(l.pending, 0, 8), FieldsArrive(l.pending, 0), b)
  }

  lemma SegmentHanded(l: LinkState, writes: seq<Write>, b: Block)
    requires l.drive.Coherent() && Latches(writes, b)
    ensures Handed(l, Send(l, writes, SEGMENT_NAME), b)
  {
    hide Send, Delivered;
    UploadNamesSendable();
    SentOnce(l, writes, SEGMENT_NAME);
    if Connects(l.pending, 0) {
      assert Latched(l.drive, Delivered(l.drive, writes, l.pending[0].dropped, |writes|), l.pending[0].dropped, b);
    }
  }

  /** The second half: the drive is asked for the next segment, which starts a new program if
      it was not in program mode. */
  ghost predicate AskedAgain(l: LinkState, m: LinkState) {
    && m.pending == Consume(l).pending
    && (m.drive.programming <==> l.drive.programming || Keeps(l.pending, 0, 1))
    && (m.drive.ready <==> l.drive.ready || Keeps(l.pending, 0, 1))
    && m.drive.program == if Keeps(l.pending, 0, 1) && !l.drive.programming then [] else l.drive.program
  }

  lemma PreparedAgain(l: LinkState)
    ensures AskedAgain(l, Send(l, PREPARE_WRITES, PREPARE_NAME))
  {
    hide Send, Delivered;
    UploadNamesSendable();
    SentOnce(l, PREPARE_WRITES, PREPARE_NAME);
    if Connects(l.pending, 0) { Prepared(l.drive, l.pending[0].dropped); }
  }

  /** A round gets past its first read when that connects and shows bit 9 down: an answered
      read does when the drive was not asking or has latched the segment; one that fails, when
      the old text happens to. The four attempts of the round are those from o on. */
  predicate GetsPast(ready: bool, pending: seq<Outcome>, o: nat) {
    && Connects(pending, o + 1)
    && match pending[o + 1].reply
       case Registers(_, _) => ready ==> Keeps(pending, o, 8)
       case ReadError(word0, _) => Bit9Char(word0) == '0'
  }

  predicate GoesThrough(ready: bool, pending: seq<Outcome>, o: nat) {
    GetsPast(ready, pending, o) && Connects(pending, o + 2) && Connects(pending, o + 3)
  }

  /** The drive asks for a segment after the round: it asked and latched none, or was asked. */
  predicate AsksAfter(ready: bool, pending: seq<Outcome>, o: nat) {
    (ready && !Keeps(pending, o, 8)) || (GetsPast(ready, pending, o) && Keeps(pending, o + 2, 1))
  }

  /** One round, exactly: when it is given up, what the drive is left with, and when it is
      acknowledged. Reads have no part in what is stored. */
  ghost predicate OneRound(p: Progress, q: Progress, b: Block, number: nat) {
    var pending, before, after := p.link.pending, p.link.drive, q.link.drive;
    var prepared := GetsPast(before.ready, pending, 0) && Keeps(pending, 2, 1);
    && (q.failed <==> !GoesThrough(before.ready, pending, 0))
    && (after.ready <==> AsksAfter(before.ready, pending, 0))
    && (after.programming <==> before.programming || prepared)
    && Extended(if prepared && !before.programming then [] else before.program, after.program,
                before.ready && Keeps(pending, 0, 8), FieldsArrive(pending, 0), b)
    && (!q.failed ==> q.link.pending == pending[4..])
    && q.acks == p.acks + if !q.failed && after.ready && Answers(pending, 3) then [number] else []
  }

  /** An array that shows bit 9 down still does after a read that fails. */
  lemma OldTextStays(l: LinkState, text: string)
    requires Connects(l.pending, 0) && !Answers(l.pending, 0)
    ensures ReadingOf(l).Garbage? && StatusTextOf(ReadingOf(l), Some(text)) == text
  {
  }

  lemma FirstReadIs(l: LinkState, sent: LinkState, b: Block)
    requires l.drive.Coherent() && Handed(l, sent, b)
    ensures GetsPast(l.drive.ready, l.pending, 0) <==>
      !ReadingOf(sent).NoRoute? && Bit9Char(StatusTextOf(ReadingOf(sent), None)) == '0'
  {
    hide Bit9Char;
    if Answers(sent.pending, 0) { Bit9IsReady(sent, None); }
  }

  lemma SecondReadIs(l: LinkState, text: string)
    requires Bit9Char(text) == '0'
    ensures Connects(l.pending, 0) <==> !ReadingOf(l).NoRoute?
    ensures Connects(l.pending, 0) ==>
      (Bit9Char(StatusTextOf(ReadingOf(l), Some(text))) == '1' <==> Answers(l.pending, 0) && l.drive.ready)
  {
    hide Bit9Char;
    if Answers(l.pending, 0) { Bit9IsReady(l, Some(text)); }
    else if Connects(l.pending, 0) { OldTextStays(l, text); }
  }

  lemma RoundIs(p: Progress, writes: seq<Write>, b: Block, number: nat)
    requires p.link.drive.Coherent() && Latches(writes, b)
    ensures OneRound(p, UploadOne(p, writes, number), b, number)
  {
    hide Send, Bit9Char, StatusTextOf, Latches, FieldsArrive;
    SegmentHanded(p.link, writes, b);
    var sent := Send(p.link, writes, SEGMENT_NAME);
    FirstReadIs(p.link, sent, b);
    assert p.acks + [] == p.acks;
    if GetsPast(p.link.drive.ready, p.link.pending, 0) {
      hide GetsPast;
      var text := StatusTextOf(ReadingOf(sent), None);
      var l := Consume(sent);
      PreparedAgain(l);
      SecondReadIs(Send(l, PREPARE_WRITES, PREPARE_NAME), text);
    }
  }

  // ---- whole runs ----

  /** Whether the drive asks for a segment before round i (from 0). */
  function AsksBefore(ready: bool, pending: seq<Outcome>, i: nat): bool
  {
    if i == 0 then ready else AsksAfter(AsksBefore(ready, pending, i - 1), pending, 4 * (i - 1))
  }

  /** Round i sends its prepare, and it reaches the drive. */
  predicate PrepareArrives(ready: bool, pending: seq<Outcome>, i: nat) {
    GetsPast(AsksBefore(ready, pending, i), pending, 4 * i) && Keeps(pending, 4 * i + 2, 1)
  }

  predicate AnyArrives(ready: bool, pending: seq<Outcome>, k: nat) {
    k > 0 && (AnyArrives(ready, pending, k - 1) || PrepareArrives(ready, pending, k - 1))
  }

  predicate StoresIn(ready: bool, pending: seq<Outcome>, i: nat) {
    AsksBefore(ready, pending, i) && Keeps(pending, 4 * i, 8)
  }

  predicate AcksIn(ready: bool, pending: seq<Outcome>, i: nat) {
    AsksBefore(ready, pending, i + 1) && Answers(pending, 4 * i + 3)
  }

  predicate RoundGoes(ready: bool, pending: seq<Outcome>, i: nat) {
    GoesThrough(AsksBefore(ready, pending, i), pending, 4 * i)
  }

  ghost predicate AllGo(ready: bool, pending: seq<Outcome>, k: nat) {
    forall i :: 0 <= i < k ==> RoundGoes(ready, pending, i)
  }

  /** The numbers acknowledged in the first k rounds. */
  function Acknowledged(ready: bool, pending: seq<Outcome>, k: nat): seq<nat>
  {
    if k == 0 then []
    else Acknowledged(ready, pending, k - 1) + if AcksIn(ready, pending, k - 1) then [k] else []
  }

  /** The blocks stored in the first k rounds. */
  function Stored(ready: bool, pending: seq<Outcome>, blocks: seq<Block>, k: nat): seq<Block>
    requires k <= |blocks|
  {
    if k == 0 then []
    else Stored(ready, pending, blocks, k - 1) + if StoresIn(ready, pending, k - 1) then [blocks[k - 1]] else []
  }

  /** What the blocks are added to: the old program, unless a prepare started a new one. */
  function Base(d: State, pending: seq<Outcome>, k: nat): seq<Block>
  {
    if d.programming || !AnyArrives(d.ready, pending, k) then d.program else []
  }

  ghost predicate AllFieldsArrive(pending: seq<Outcome>, k: nat) {
    forall i :: 0 <= i < k ==> FieldsArrive(pending, 4 * i)
  }

  /** The drive that started as d0, after k rounds. */
  ghost predicate DriveIs(d0: State, pending: seq<Outcome>, blocks: seq<Block>, k: nat, d: State)
    requires k <= |blocks|
  {
    var base, stored := Base(d0, pending, k), Stored(d0.ready, pending, blocks, k);
    && d.Coherent()
    && (d.ready <==> AsksBefore(d0.ready, pending, k))
    && (d.programming <==> d0.programming || AnyArrives(d0.ready, pending, k))
    && base <= d.program && |d.program| == |base| + |stored|
    && (!d.programming ==> stored == [])
    && (AllFieldsArrive(pending, k) ==> d.program == base + stored)
  }

  /** k rounds have all gone through ... */
  ghost predicate Going(l: LinkState, blocks: seq<Block>, k: nat, p: Progress)
    requires k <= |blocks|
  {
    && AllGo(l.drive.ready, l.pending, k)
    && 4 * k <= |l.pending| && p.link.pending == l.pending[4 * k..]
    && p.acks == Acknowledged(l.drive.ready, l.pending, k) && DriveIs(l.drive, l.pending, blocks, k, p.link.drive)
  }

  /** ... or round j is the first that did not. */
  ghost predicate GivenUp(l: LinkState, blocks: seq<Block>, j: nat, p: Progress)
    requires j < |blocks|
  {
    && AllGo(l.drive.ready, l.pending, j) && !RoundGoes(l.drive.ready, l.pending, j)
    && p.acks == Acknowledged(l.drive.ready, l.pending, j) && DriveIs(l.drive, l.pending, blocks, j + 1, p.link.drive)
  }

  ghost predicate RunIs(l: LinkState, blocks: seq<Block>, k: nat, p: Progress)
    requires k <= |blocks|
  {
    if p.failed then exists j :: 0 <= j < k && GivenUp(l, blocks, j, p) else Going(l, blocks, k, p)
  }

  lemma Shifted(ready: bool, pending: seq<Outcome>, o: nat)
    requires o <= |pending|
    ensures GetsPast(ready, pending[o..], 0) <==> GetsPast(ready, pending, o)
    ensures GoesThrough(ready, pending[o..], 0) <==> GoesThrough(ready, pending, o)
    ensures AsksAfter(ready, pending[o..], 0) <==> AsksAfter(ready, pending, o)
    ensures Keeps(pending[o..], 0, 8) <==> Keeps(pending, o, 8)
    ensures Keeps(pending[o..], 2, 1) <==> Keeps(pending, o + 2, 1)
    ensures Answers(pending[o..], 3) <==> Answers(pending, o + 3)
    ensures FieldsArrive(pending[o..], 0) <==> FieldsArrive(pending, o)
    ensures GoesThrough(ready, pending, o) ==> o + 4 <= |pending| && pending[o..][4..] == pending[o + 4..]
  {
    hide FieldsKept, Bit9Char;
  }

  /** The program after one more round. */
  lemma ProgramGrows(d0: State, pending: seq<Outcome>, blocks: seq<Block>, k: nat, before: State, after: State)
    requires k < |blocks| && DriveIs(d0, pending, blocks, k, before)
    requires var prepared := PrepareArrives(d0.ready, pending, k);
      Extended(if prepared && !before.programming then [] else before.program, after.program,
               StoresIn(d0.ready, pending, k), FieldsArrive(pending, 4 * k), blocks[k])
    ensures var base, stored := Base(d0, pending, k + 1), Stored(d0.ready, pending, blocks, k + 1);
      && base <= after.program && |after.program| == |base| + |stored|
      && (AllFieldsArrive(pending, k + 1) ==> after.program == base + stored)
  {
    hide PrepareArrives, StoresIn, FieldsArrive, AsksBefore;
    var stored := Stored(d0.ready, pending, blocks, k);
    var base := Base(d0, pending, k + 1);
    assert AllFieldsArrive(pending, k + 1) ==> AllFieldsArrive(pending, k) && FieldsArrive(pending, 4 * k);
    assert base + (stored + [blocks[k]]) == base + stored + [blocks[k]];
    assert base + (stored + []) == base + stored;
  }

  lemma OneMoreRound(l: LinkState, blocks: seq<Block>, k: nat, p: Progress, q: Progress)
    requires k < |blocks| && Going(l, blocks, k, p) && OneRound(p, q, blocks[k], k + 1)
    ensures if q.failed then GivenUp(l, blocks, k, q) else Going(l, blocks, k + 1, q)
  {
    hide GetsPast, GoesThrough, AsksAfter, Keeps, FieldsArrive, Extended, Stored, Base, AllFieldsArrive;
    var ready, pending := l.drive.ready, l.pending;
    Shifted(AsksBefore(ready, pending, k), pending, 4 * k);
    ProgramGrows(l.drive, pending, blocks, k, p.link.drive, q.link.drive);
    CoherentAfter(AsksBefore(ready, pending, k), p.link.drive.programming, pending, 4 * k);
    NothingStoredBefore(l.drive, pending, blocks, k, p.link.drive);
    assert 4 * (k + 1) == 4 * k + 4;
  }

  lemma CoherentAfter(ready: bool, programming: bool, pending: seq<Outcome>, o: nat)
    requires ready ==> programming
    ensures AsksAfter(ready, pending, o) ==> programming || (GetsPast(ready, pending, o) && Keeps(pending, o + 2, 1))
  {
  }

  lemma NothingStoredBefore(d0: State, pending: seq<Outcome>, blocks: seq<Block>, k: nat, before: State)
    requires k < |blocks| && DriveIs(d0, pending, blocks, k, before)
    ensures !before.programming ==> Stored(d0.ready, pending, blocks, k + 1) == []
  {
  }

  /** The whole truth about an upload to any drive: it is given up in the first round that does
      not go through; the drive stores a block in exactly the rounds before which it asks for
      one and whose last write arrives; and the client is told of exactly the rounds after
      which it asks again and says so. */
  lemma {:induction false} UploadIs(l: LinkState, programs: seq<seq<Write>>, blocks: seq<Block>, k: nat)
    requires AllLatch(programs, blocks) && k <= |programs| && l.drive.Coherent()
    ensures RunIs(l, blocks, k, UploadRun(l, programs, k))
  {
    hide UploadOne, Latches, OneRound, Going, GivenUp;
    if k == 0 {
      NothingYet(l, blocks);
    } else {
      UploadIs(l, programs, blocks, k - 1);
      var p := UploadRun(l, programs, k - 1);
      if !p.failed {
        GoingIsCoherent(l, blocks, k - 1, p);
        RoundIs(p, programs[k - 1], blocks[k - 1], k);
        OneMoreRound(l, blocks, k - 1, p, UploadRun(l, programs, k));
      }
    }
  }

  lemma NothingYet(l: LinkState, blocks: seq<Block>)
    requires l.drive.Coherent()
    ensures Going(l, blocks, 0, Progress(l, [], false))
  {
    assert l.drive.program + [] == l.drive.program;
  }

  lemma GoingIsCoherent(l: LinkState, blocks: seq<Block>, k: nat, p: Progress)
    requires k <= |blocks| && Going(l, blocks, k, p)
    ensures p.link.drive.Coherent()
  {
  }

  // ---- what the client can tell ----

  function Numbers(k: nat): seq<nat>
  {
    seq(k, i requires 0 <= i => i + 1)
  }

  lemma {:induction false} AcknowledgedNumbers(ready: bool, pending: seq<Outcome>, k: nat)
    ensures forall n :: n in Acknowledged(ready, pending, k) <==> 1 <= n <= k && AcksIn(ready, pending, n - 1)
  {
    hide AcksIn;
    if k > 0 { AcknowledgedNumbers(ready, pending, k - 1); }
  }

  ghost predicate AllAck(ready: bool, pending: seq<Outcome>, k: nat) {
    forall i :: 0 <= i < k ==> AcksIn(ready, pending, i)
  }

  lemma {:induction false} AllAcknowledged(ready: bool, pending: seq<Outcome>, m: nat, k: nat)
    requires m <= k && AllAck(ready, pending, m)
    ensures Numbers(m) <= Acknowledged(ready, pending, k)
    ensures m == k ==> Acknowledged(ready, pending, k) == Numbers(k)
    decreases k
  {
    hide AcksIn;
    if m < k {
      AllAcknowledged(ready, pending, m, k - 1);
    } else if k > 0 {
      AllAcknowledged(ready, pending, k - 1, k - 1);
      assert Numbers(k) == Numbers(k - 1) + [k];
    }
  }

  /** Acknowledgements 1..m come first in k rounds exactly when rounds 1..m were acknowledged. */
  lemma AcknowledgedExactlyWhen(ready: bool, pending: seq<Outcome>, m: nat, k: nat)
    requires m <= k
    ensures Numbers(m) <= Acknowledged(ready, pending, k) <==> AllAck(ready, pending, m)
  {
    hide AcksIn;
    AcknowledgedNumbers(ready, pending, k);
    if AllAck(ready, pending, m) {
      AllAcknowledged(ready, pending, m, k);
    } else if Numbers(m) <= Acknowledged(ready, pending, k) {
      forall i | 0 <= i < m ensures AcksIn(ready, pending, i) {
        assert Acknowledged(ready, pending, k)[i] == Numbers(m)[i] == i + 1;
        assert i + 1 in Acknowledged(ready, pending, k);
        assert AcksIn(ready, pending, (i + 1) - 1);
      }
    }
  }

  ghost predicate AllStore(ready: bool, pending: seq<Outcome>, k: nat) {
    forall i :: 0 <= i < k ==> StoresIn(ready, pending, i)
  }

  /** One block more, or none. */
  lemma StoredStep(ready: bool, pending: seq<Outcome>, blocks: seq<Block>, k: nat)
    requires k < |blocks|
    ensures var before := Stored(ready, pending, blocks, k);
      Stored(ready, pending, blocks, k + 1) == if StoresIn(ready, pending, k) then before + [blocks[k]] else before
    ensures blocks[..k + 1] == blocks[..k] + [blocks[k]]
  {
    hide StoresIn;
  }

  lemma {:induction false} StoredExactlyWhen(ready: bool, pending: seq<Outcome>, blocks: seq<Block>, k: nat)
    requires k <= |blocks|
    ensures |Stored(ready, pending, blocks, k)| <= k
    ensures |Stored(ready, pending, blocks, k)| == k <==> AllStore(ready, pending, k)
    ensures AllStore(ready, pending, k) ==> Stored(ready, pending, blocks, k) == blocks[..k]
  {
    hide StoresIn;
    if k > 0 {
      StoredExactlyWhen(ready, pending, blocks, k - 1);
      StoredStep(ready, pending, blocks, k - 1);
      hide Stored;
      assert AllStore(ready, pending, k) <==> AllStore(ready, pending, k - 1) && StoresIn(ready, pending, k - 1);
    }
  }

  /** Round i latched its segment, if no answered read looked. */
  predicate LatchSure(pending: seq<Outcome>, i: nat) { Answers(pending, 4 * i + 1) || Keeps(pending, 4 * i, 8) }

  predicate PrepareKept(pending: seq<Outcome>, i: nat) { Keeps(pending, 4 * i + 2, 1) }

  predicate SecondReadAnswered(pending: seq<Outcome>, i: nat) { Answers(pending, 4 * i + 3) }

  ghost predicate LatchedWhereUnread(pending: seq<Outcome>, k: nat) {
    forall i :: 0 <= i < k ==> LatchSure(pending, i)
  }

  ghost predicate PreparesKept(pending: seq<Outcome>, k: nat) {
    forall i :: 0 <= i < k ==> PrepareKept(pending, i)
  }

  ghost predicate SecondReadsAnswered(pending: seq<Outcome>, k: nat) {
    forall i :: 0 <= i < k ==> SecondReadAnswered(pending, i)
  }

  /** A round that went on, and latched if nobody looked, stores if it was asked to, and leaves
      the drive asking exactly if its prepare arrived. */
  lemma OneGoes(ready: bool, pending: seq<Outcome>, i: nat)
    requires RoundGoes(ready, pending, i) && LatchSure(pending, i)
    ensures AsksBefore(ready, pending, i) ==> StoresIn(ready, pending, i)
    ensures AsksBefore(ready, pending, i + 1) <==> PrepareKept(pending, i)
    ensures AcksIn(ready, pending, i) <==> PrepareKept(pending, i) && SecondReadAnswered(pending, i)
  {
    hide Bit9Char;
    assert 4 * ((i + 1) - 1) == 4 * i;
  }

  /** A round that stored leaves the drive asking only if its prepare arrived. */
  lemma OneStored(ready: bool, pending: seq<Outcome>, i: nat)
    requires StoresIn(ready, pending, i)
    ensures LatchSure(pending, i) && AsksBefore(ready, pending, i)
    ensures AsksBefore(ready, pending, i + 1) ==> PrepareKept(pending, i)
  {
    hide Bit9Char;
    assert 4 * ((i + 1) - 1) == 4 * i;
  }

  /** Of rounds that all went through, all stored a block exactly when the drive asked at the
      start, every prepare between them arrived, and every latch that nobody checked did. */
  lemma AllStoreExactlyWhen(ready: bool, pending: seq<Outcome>, k: nat)
    requires k > 0 && AllGo(ready, pending, k)
    ensures AllStore(ready, pending, k) <==> ready && LatchedWhereUnread(pending, k) && PreparesKept(pending, k - 1)
  {
    hide AsksBefore, RoundGoes, StoresIn, LatchSure, PrepareKept;
    StartAsks(ready, pending);
    if AllStore(ready, pending, k) {
      forall i | 0 <= i < k ensures LatchSure(pending, i) && AsksBefore(ready, pending, i) {
        OneStored(ready, pending, i);
      }
      forall i | 0 <= i < k - 1 ensures PrepareKept(pending, i) {
        OneStored(ready, pending, i);
        assert AsksBefore(ready, pending, i + 1);
      }
      assert AsksBefore(ready, pending, 0);
    }
    if ready && LatchedWhereUnread(pending, k) && PreparesKept(pending, k - 1) {
      forall i | 0 <= i < k ensures StoresIn(ready, pending, i) {
        if i > 0 { OneGoes(ready, pending, i - 1); }
        OneGoes(ready, pending, i);
      }
    }
  }

  lemma StartAsks(ready: bool, pending: seq<Outcome>)
    ensures AsksBefore(ready, pending, 0) == ready
  {
  }

  /** With the unchecked latches in place, rounds 1..m were acknowledged exactly when their
      prepares arrived and their second reads were answered. */
  lemma AllAckExactlyWhen(ready: bool, pending: seq<Outcome>, m: nat)
    requires AllGo(ready, pending, m) && LatchedWhereUnread(pending, m)
    ensures AllAck(ready, pending, m) <==> PreparesKept(pending, m) && SecondReadsAnswered(pending, m)
  {
    hide RoundGoes, AcksIn, LatchSure, PrepareKept, SecondReadAnswered;
    forall i | 0 <= i < m
      ensures AcksIn(ready, pending, i) <==> PrepareKept(pending, i) && SecondReadAnswered(pending, i)
    {
      OneGoes(ready, pending, i);
    }
  }

  /** Acknowledged rounds were all asked for. */
  lemma AcknowledgedWereAsked(ready: bool, pending: seq<Outcome>, k: nat)
    requires k > 0 && ready && AllGo(ready, pending, k) && AllAck(ready, pending, k - 1)
    ensures AllStore(ready, pending, k) <==> LatchedWhereUnread(pending, k)
  {
    AllStoreExactlyWhen(ready, pending, k);
    if LatchedWhereUnread(pending, k) { AllAckExactlyWhen(ready, pending, k - 1); }
  }

  /** k blocks, the segments' own if their fields arrive, were added to the program. */
  ghost predicate Complete(l: LinkState, blocks: seq<Block>, k: nat, p: Progress)
    requires k <= |blocks|
  {
    && l.drive.program <= p.link.drive.program && |p.link.drive.program| == |l.drive.program| + k
    && (AllFieldsArrive(l.pending, k) ==> p.link.drive.program == l.drive.program + blocks[..k])
  }

  lemma GoingIsCompleteExactlyWhen(l: LinkState, blocks: seq<Block>, k: nat, p: Progress)
    requires 0 < k <= |blocks| && Going(l, blocks, k, p) && l.drive.Coherent()
    ensures Complete(l, blocks, k, p) <==> AllStore(l.drive.ready, l.pending, k)
    ensures |p.link.drive.program| == |l.drive.program| + k ==> Complete(l, blocks, k, p)
  {
    hide AllGo, AllFieldsArrive, StoresIn, Acknowledged, AnyArrives;
    var ready, pending := l.drive.ready, l.pending;
    StoredExactlyWhen(ready, pending, blocks, k);
    if AllStore(ready, pending, k) {
      assert StoresIn(ready, pending, 0);
      FirstStored(ready, pending);
    }
  }

  lemma FirstStored(ready: bool, pending: seq<Outcome>)
    requires StoresIn(ready, pending, 0)
    ensures ready
  {
  }

  /** An upload of k segments that was not given up is complete exactly when the drive asked at
      the start, every prepare but the last arrived, and so did every latch that no answered
      read has checked. */
  lemma CompleteExactlyWhen(l: LinkState, programs: seq<seq<Write>>, blocks: seq<Block>, k: nat)
    requires AllLatch(programs, blocks) && 1 <= k <= |programs| && l.drive.Coherent()
    requires !UploadRun(l, programs, k).failed
    ensures var p := UploadRun(l, programs, k);
      && (Complete(l, blocks, k, p) <==>
            l.drive.ready && LatchedWhereUnread(l.pending, k) && PreparesKept(l.pending, k - 1))
      && (|p.link.drive.program| == |l.drive.program| + k ==> Complete(l, blocks, k, p))
  {
    hide UploadRun, Latches, Complete, AllGo;
    UploadIs(l, programs, blocks, k);
    GoingIsCompleteExactlyWhen(l, blocks, k, UploadRun(l, programs, k));
    AllStoreExactlyWhen(l.drive.ready, l.pending, k);
  }

  /** What a client can check, on a drive that asked for the first segment: if acknowledgements
      1 .. k-1 were sent, the upload is complete exactly when every latch that no read checked
      arrived; and if one of them was not, it is incomplete, unless a read failed. */
  lemma CompleteExactlyWhenAcknowledged(l: LinkState, programs: seq<seq<Write>>, blocks: seq<Block>, k: nat)
    requires AllLatch(programs, blocks) && 1 <= k <= |programs|
    requires Asking(l.drive) && !UploadRun(l, programs, k).failed
    ensures var p := UploadRun(l, programs, k);
      && (Numbers(k - 1) <= p.acks ==> (Complete(l, blocks, k, p) <==> LatchedWhereUnread(l.pending, k)))
      && (SecondReadsAnswered(l.pending, k - 1) && Complete(l, blocks, k, p) ==> Numbers(k - 1) <= p.acks)
  {
    hide UploadRun, Latches, Complete;
    UploadIs(l, programs, blocks, k);
    CompleteExactlyWhen(l, programs, blocks, k);
    AcknowledgedExactlyWhen(true, l.pending, k - 1, k);
    if AllAck(true, l.pending, k - 1) { AcknowledgedWereAsked(true, l.pending, k); }
    AllStoreExactlyWhen(true, l.pending, k);
    if LatchedWhereUnread(l.pending, k) { AllAckExactlyWhen(true, l.pending, k - 1); }
  }

  /** Every read on a connection is answered. Writes may be dropped. */
  ghost predicate Answering(pending: seq<Outcome>) {
    forall i :: 0 <= i < |pending| && pending[i].Connected? ==> pending[i].reply.Registers?
  }

  /** If all reads are answered, the acknowledgements tell everything. */
  lemma ReadsTellAll(ready: bool, pending: seq<Outcome>, k: nat)
    requires Answering(pending) && AllGo(ready, pending, k)
    ensures LatchedWhereUnread(pending, k) && SecondReadsAnswered(pending, k)
  {
    hide Bit9Char;
    forall i | 0 <= i < k ensures LatchSure(pending, i) && SecondReadAnswered(pending, i) {
      assert RoundGoes(ready, pending, i);
    }
  }

  // ---- uploads that look done and are not ----

  /** Two segments of which the second was never stored: the write that should ask for it is
      lost. The client hears 2_OF_2 only. */
  lemma DoneWithASegmentMissing(l: LinkState, programs: seq<seq<Write>>, blocks: seq<Block>)
    requires AllLatch(programs, blocks) && |programs| == 2
    requires Answering(l.pending) && Asking(l.drive)
    requires |l.pending| == 8 && forall i :: 0 <= i < 8 ==>
      l.pending[i].Connected? && l.pending[i].dropped == if i == 2 then {1} else {}
    ensures var p := UploadRun(l, programs, 2);
      !p.failed && p.acks == [2] && |p.link.drive.program| == |l.drive.program| + 1
  {
    hide UploadRun, Latches, Bit9Char;
    var pending := l.pending;
    UploadIs(l, programs, blocks, 2);
    assert AsksBefore(true, pending, 0) && RoundGoes(true, pending, 0) && StoresIn(true, pending, 0);
    assert 4 * (1 - 1) == 0 && !AsksBefore(true, pending, 1) && RoundGoes(true, pending, 1);
    assert 4 * (2 - 1) == 4 && AsksBefore(true, pending, 2);
    assert Acknowledged(true, pending, 1) == Acknowledged(true, pending, 0) == [];
    assert Stored(true, pending, blocks, 1) == Stored(true, pending, blocks, 0) + [blocks[0]];
    assert Stored(true, pending, blocks, 2) == Stored(true, pending, blocks, 1) + [];
  }

  /** A round acknowledged though its segment was never sent: the connection for it does not
      come up, the read after it fails over old text that shows bit 9 down, and the second
      read finds the bit still up from before. */
  lemma AcknowledgedButNotSent(l: LinkState, writes: seq<Write>, b: Block, number: nat)
    requires Asking(l.drive) && Latches(writes, b)
    requires |l.pending| == 4 && l.pending[0] == Unreachable
    requires l.pending[1].Connected? && l.pending[1].reply == ReadError("0x4100", "")
    requires l.pending[2].Connected? && Answers(l.pending, 3)
    ensures var q := UploadOne(Progress(l, [], false), writes, number);
      !q.failed && q.acks == [number] && q.link.drive.program == l.drive.program
  {
    hide UploadOne, Latches, Bit9Char;
    RoundIs(Progress(l, [], false), writes, b, number);
    Bit9Down();
  }

  lemma Bit9Down()
    ensures Bit9Char("0x4100") == '0'
  {
    HexOf4100();
    BitBytes(0x41, 0, 1);
    BitTestedAtIndex6(0x4100, 17);
    hide Hex, BinString;
  }

  lemma HexOf4100()
    ensures "0x" + Hex(0x4100) == "0x4100" && Bit(0x41, 1) == 0
  {
    assert Hex(0x4) == "4" && Hex(0x41) == "41" && Hex(0x410) == "410";
    assert Bit(0x41, 1) == Bit(0x20, 0);
  }

  // ---- nothing lost ----

  /** Every connection that is made works: no write is dropped and every read is answered. */
  ghost predicate Working(pending: seq<Outcome>) {
    Answering(pending) && forall i :: 0 <= i < |pending| && pending[i].Connected? ==> pending[i].dropped == {}
  }

  ghost predicate ConnectsFor(pending: seq<Outcome>, k: nat) {
    k <= |pending| && forall i :: 0 <= i < k ==> pending[i].Connected?
  }

  lemma {:induction false} WorkingRoundsGo(pending: seq<Outcome>, k: nat)
    requires Working(pending) && ConnectsFor(pending, 4 * k)
    ensures AllGo(true, pending, k) && AsksBefore(true, pending, k)
  {
    hide Bit9Char;
    if k > 0 {
      WorkingRoundsGo(pending, k - 1);
      assert RoundGoes(true, pending, k - 1);
    }
  }

  lemma WorkingRoundsComplete(pending: seq<Outcome>, k: nat)
    requires k > 0 && Working(pending) && AllGo(true, pending, k)
    ensures AllStore(true, pending, k) && AllAck(true, pending, k)
  {
    hide Bit9Char;
    ReadsTellAll(true, pending, k);
    forall i | 0 <= i < k ensures PrepareKept(pending, i) { assert RoundGoes(true, pending, i); }
    AllStoreExactlyWhen(true, pending, k);
    AllAckExactlyWhen(true, pending, k);
  }

  /** Over working connections an upload not given up is complete and fully acknowledged;
      four connections for each segment are enough for that. */
  lemma WorkingUpload(l: LinkState, programs: seq<seq<Write>>, blocks: seq<Block>, k: nat)
    requires AllLatch(programs, blocks) && 1 <= k <= |programs|
    requires Working(l.pending) && Asking(l.drive)
    ensures var p := UploadRun(l, programs, k);
      && (!p.failed ==> p.link.drive.program == l.drive.program + blocks[..k] && p.acks == Numbers(k))
      && (ConnectsFor(l.pending, 4 * k) ==> !p.failed && p.link.pending == l.pending[4 * k..])
  {
    hide UploadRun, Latches, RoundGoes, StoresIn, AcksIn, Connects;
    var p := UploadRun(l, programs, k);
    UploadIs(l, programs, blocks, k);
    if !p.failed {
      WorkingRoundsComplete(l.pending, k);
      AllAcknowledged(true, l.pending, k, k);
      GoingIsCompleteExactlyWhen(l, blocks, k, p);
      FieldsOfWorking(l.pending, k);
    }
    if ConnectsFor(l.pending, 4 * k) {
      WorkingRoundsGo(l.pending, k);
    }
  }

  lemma FieldsOfWorking(pending: seq<Outcome>, k: nat)
    requires Working(pending)
    ensures AllFieldsArrive(pending, k)
  {
  }

  /** What the log shows of a round that goes through and whose segment is sent. */
  lemma RoundLogs(p: Progress, writes: seq<Write>, b: Block, number: nat)
    requires p.link.drive.Coherent() && Latches(writes, b)
    requires Connects(p.link.pending, 0) && GoesThrough(p.link.drive.ready, p.link.pending, 0)
    ensures UploadOne(p, writes, number).link.log == p.link.log
      + [Frame("program_move_segment", writes), Frame("prepare_for_next_segment", PREPARE_WRITES)]
  {
    hide Bit9Char, StatusTextOf, Latches, FieldsArrive, Delivered;
    UploadNamesSendable();
    SegmentHanded(p.link, writes, b);
    var sent := Send(p.link, writes, SEGMENT_NAME);
    FirstReadIs(p.link, sent, b);
    assert sent.log == p.link.log + [Frame(SEGMENT_NAME, writes)];
  }
}
