/** The assembled-move upload of SMD_Motor_Commands.c: entering the program mode, collecting
    the segments of a profile, and the handshake that stores them one by one. */
module Upload {
  import opened CArithmetic
  import opened Utilities
  import opened Drive
  import opened Modbus
  import opened Delivery
  import opened MotorCommands

  // ---- the profile document ----

  /** The integer members of one segment object, as cJSON reads them. */
  datatype Fields = Fields(targetPosition: int, programmedSpeed: int, accel: int, decel: int, jerk: int)

  datatype Member = Member(key: string, fields: Fields)

  /** A parsed profile: its members in order, and the value of its "type" member. */
  datatype Document = Document(members: seq<Member>, moveType: string)

  const MAX_SEGMENTS := 16

  predicate IsSegment(m: Member) { "segment" <= m.key }

  /** Accelerations, decelerations and jerks are cut to 16 bits by the struct. */
  function SegmentOf(f: Fields): Profile
  {
    Profile(f.targetPosition, f.programmedSpeed, Int16(f.accel), Int16(f.decel), Int16(f.jerk))
  }

  /** A segment has a member's own numbers, the last three cut to 16 bits. */
  predicate HasFields(s: Profile, f: Fields) {
    && s.position == f.targetPosition && s.speed == f.programmedSpeed
    && FitsInt16(s.accel) && (s.accel - f.accel) % 65536 == 0
    && FitsInt16(s.decel) && (s.decel - f.decel) % 65536 == 0
    && FitsInt16(s.jerk) && (s.jerk - f.jerk) % 65536 == 0
  }

  lemma SegmentHasFields(f: Fields)
    ensures HasFields(SegmentOf(f), f)
  {
    hide Int16;
  }

  /** The segments of a profile, in order. */
  function SegmentsOf(members: seq<Member>): (segments: seq<Profile>)
    ensures |segments| <= |members|
  {
    if members == [] then []
    else
      var m := members[|members| - 1];
      SegmentsOf(members[..|members| - 1]) + if IsSegment(m) then [SegmentOf(m.fields)] else []
  }

  /** What the stack array segments[16] holds after the collecting loop. */
  function TableOf(members: seq<Member>, initial: seq<Profile>): seq<Profile>
  {
    seq(|initial|, i requires 0 <= i < |initial| =>
      if i < |members| && IsSegment(members[i]) then SegmentOf(members[i].fields) else initial[i])
  }

  /** Segments are stored under their index in the document, not under their own number.
      (A store at index 16 or more is outside the array and not modelled.) */
  method CollectSegments(members: seq<Member>, table: array<Profile>) returns (n: nat)
    modifies table
    ensures n == |SegmentsOf(members)|
    ensures forall j :: 0 <= j < table.Length && j < |members| && IsSegment(members[j]) ==>
      HasFields(table[j], members[j].fields)
    ensures table[..] == TableOf(members, old(table[..]))
  {
    hide HasFields, SegmentOf;
    n := 0;
    for i := 0 to |members|
      invariant n == |SegmentsOf(members[..i])|
      invariant forall j :: 0 <= j < table.Length ==>
        table[j] == if j < i && IsSegment(members[j]) then SegmentOf(members[j].fields) else old(table[j])
    {
      assert members[..i + 1][..i] == members[..i];
      if IsSegment(members[i]) {
        if i < table.Length {
          table[i] := SegmentOf(members[i].fields);
        }
        n := n + 1;
      }
    }
    assert members[..|members|] == members;
    forall j | 0 <= j < |members| ensures HasFields(SegmentOf(members[j].fields), members[j].fields) {
      SegmentHasFields(members[j].fields);
    }
  }

  predicate Leading(members: seq<Member>) {
    forall i :: 0 <= i < |SegmentsOf(members)| ==> IsSegment(members[i])
  }

  lemma {:induction false} SegmentsGrow(members: seq<Member>, k: nat)
    requires k <= |members|
    ensures SegmentsOf(members[..k]) <= SegmentsOf(members)
    decreases |members|
  {
    if k < |members| {
      var front := members[..|members| - 1];
      SegmentsGrow(front, k);
      assert front[..k] == members[..k];
    } else {
      assert members[..k] == members;
    }
  }

  lemma {:induction false} AllSegments(members: seq<Member>)
    requires forall i :: 0 <= i < |members| ==> IsSegment(members[i])
    ensures |SegmentsOf(members)| == |members|
    ensures forall i :: 0 <= i < |members| ==> SegmentsOf(members)[i] == SegmentOf(members[i].fields)
  {
    if members != [] { AllSegments(members[..|members| - 1]); }
  }

  lemma {:induction false} SegmentsJoin(a: seq<Member>, b: seq<Member>)
    ensures SegmentsOf(a + b) == SegmentsOf(a) + SegmentsOf(b)
    decreases |b|
  {
    hide IsSegment;
    if b == [] {
      assert a + b == a;
    } else {
      var last := |b| - 1;
      assert (a + b)[..|a + b| - 1] == a + b[..last];
      SegmentsJoin(a, b[..last]);
    }
  }

  /** If the segments lead, they are the members whose keys begin with "segment", and no others. */
  lemma SegmentsAreNamed(members: seq<Member>)
    requires Leading(members)
    ensures |SegmentsOf(members)| <= |members|
    ensures forall i :: 0 <= i < |members| ==> ("segment" <= members[i].key <==> i < |SegmentsOf(members)|)
  {
    var n := |SegmentsOf(members)|;
    forall i | n <= i < |members| ensures !IsSegment(members[i]) {
      if IsSegment(members[i]) {
        AllSegments(members[..n]);
        var rest := members[n..];
        assert members == members[..n] + rest;
        SegmentsJoin(members[..n], rest);
        OneSegment(rest, i - n);
      }
    }
  }

  lemma {:induction false} OneSegment(members: seq<Member>, i: nat)
    requires i < |members| && IsSegment(members[i])
    ensures |SegmentsOf(members)| > 0
    decreases |members|
  {
    hide IsSegment;
    if i < |members| - 1 { OneSegment(members[..|members| - 1], i); }
  }

  /** Segment i of a profile whose segments lead is member i. */
  lemma LeadingFields(members: seq<Member>, i: nat)
    requires Leading(members) && i < |SegmentsOf(members)|
    ensures HasFields(SegmentsOf(members)[i], members[i].fields)
  {
    hide HasFields, SegmentOf;
    var n := |SegmentsOf(members)|;
    AllSegments(members[..n]);
    SegmentsGrow(members, n);
    assert SegmentsOf(members[..n])[i] == SegmentOf(members[i].fields);
    SegmentHasFields(members[i].fields);
  }

  lemma LeadingTable(members: seq<Member>, initial: seq<Profile>)
    requires |SegmentsOf(members)| <= |initial| && Leading(members)
    ensures TableOf(members, initial)[..|SegmentsOf(members)|] == SegmentsOf(members)
  {
    var n := |SegmentsOf(members)|;
    AllSegments(members[..n]);
    SegmentsGrow(members, n);
  }

  /** Whatever the array held before, its first n cells are the profile's n segments exactly
      when the segment members come first in the document. */
  lemma TableIsProfileWhenLeading(members: seq<Member>)
    requires |SegmentsOf(members)| <= MAX_SEGMENTS
    ensures Leading(members) <==>
      forall initial: seq<Profile> :: |initial| == MAX_SEGMENTS ==>
        TableOf(members, initial)[..|SegmentsOf(members)|] == SegmentsOf(members)
  {
    var n := |SegmentsOf(members)|;
    if Leading(members) {
      forall initial: seq<Profile> | |initial| == MAX_SEGMENTS
        ensures TableOf(members, initial)[..n] == SegmentsOf(members)
      {
        LeadingTable(members, initial);
      }
    } else {
      var i :| 0 <= i < n && !IsSegment(members[i]);
      var zeros := seq(MAX_SEGMENTS, _ => Profile(0, 0, 0, 0, 0));
      var ones := seq(MAX_SEGMENTS, _ => Profile(1, 0, 0, 0, 0));
      assert TableOf(members, zeros)[..n][i] == zeros[i];
      assert TableOf(members, ones)[..n][i] == ones[i];
    }
  }

  // ---- the write programs of the upload ----

  const PREPARE_WRITES := [Write(1025, 32768), Write(1024, 2048)]
  const FIRST_BLOCK_NAME := "program_first_block"
  const PREPARE_NAME := "prepare_for_next_segment"
  const SEGMENT_NAME := "program_move_segment"

  function SegmentWrites(p: Words, w: Words, accel: int, decel: int, jerk: int): seq<Write>
  {
    [Write(1025, 32768), Write(1026, p.upper), Write(1027, p.lower), Write(1028, w.upper), Write(1029, w.lower),
     Write(1030, accel), Write(1031, decel), Write(1033, jerk), Write(1024, 6144)]
  }

  function WritesOf(s: Profile): seq<Write>
  {
    SegmentWrites(ConvertIntToWords(s.position), ConvertIntToWords(s.speed), s.accel, s.decel, s.jerk)
  }

  /** The block a drive should store for a segment. */
  function BlockOf(s: Profile): Block
  {
    var p, w := ConvertIntToWords(s.position), ConvertIntToWords(s.speed);
    Block(Uint16(p.upper), Uint16(p.lower), Uint16(w.upper), Uint16(w.lower),
          Uint16(s.accel), Uint16(s.decel), Uint16(s.jerk))
  }

  function BlocksOf(segments: seq<Profile>): (blocks: seq<Block>)
    ensures |blocks| == |segments|
  {
    seq(|segments|, i requires 0 <= i < |segments| => BlockOf(segments[i]))
  }

  /** A stored block means its segment exactly when both numbers are encodable. */
  lemma BlockMeansSegment(s: Profile)
    requires FitsInt32(s.position) && FitsInt32(s.speed)
    requires FitsInt16(s.accel) && FitsInt16(s.decel) && FitsInt16(s.jerk)
    ensures Decode(BlockOf(s)) == s <==> Encodable(s.position) && Encodable(s.speed)
  {
    var p, w := ConvertIntToWords(s.position), ConvertIntToWords(s.speed);
    WordsRoundTrip(s.position);
    WordsRoundTrip(s.speed);
    StoredMotion(p, w, Profile(p.Recombined(), w.Recombined(), s.accel, s.decel, s.jerk));
  }

  lemma {:induction false} OffCommand(d: State, writes: seq<Write>, dropped: set<nat>, k: nat)
    requires k <= |writes| && forall i :: 0 <= i < k && i !in dropped ==> writes[i].reg != COMMAND
    ensures var after := Delivered(d, writes, dropped, k);
      after.programming == d.programming && after.ready == d.ready && after.program == d.program
  {
    if k > 0 { OffCommand(d, writes, dropped, k - 1); }
  }

  /** The prepare writes do their work exactly when the second one is kept. */
  lemma Prepared(d: State, dropped: set<nat>)
    ensures var after := Delivered(d, PREPARE_WRITES, dropped, 2);
      if 1 in dropped then after.programming == d.programming && after.ready == d.ready && after.program == d.program
      else after.programming && after.ready && after.program == if d.programming then d.program else []
  {
    OffCommand(d, PREPARE_WRITES, dropped, 1);
    if 1 in dropped { OffCommand(d, PREPARE_WRITES, dropped, 2); }
  }

  /** The seven writes between the first and the last of a segment: its fields. */
  ghost predicate FieldsKept(dropped: set<nat>) {
    forall i :: 1 <= i <= 7 ==> i !in dropped
  }

  /** A kept field is in its register when the latch is written. */
  lemma FieldKept(d: State, p: Words, w: Words, accel: int, decel: int, jerk: int, dropped: set<nat>, i: nat)
    requires 1 <= i <= 7 && i !in dropped
    ensures var ws := SegmentWrites(p, w, accel, decel, jerk);
      Delivered(d, ws, dropped, 8).Reg(ws[i].reg) == Uint16(ws[i].value)
  {
    var ws := SegmentWrites(p, w, accel, decel, jerk);
    assert forall j :: 0 < j < 7 ==> ws[j].reg == 1025 + j;
    LastWrite(d, ws, dropped, 8, i);
  }

  lemma FieldsInPlace(d: State, p: Words, w: Words, accel: int, decel: int, jerk: int, dropped: set<nat>)
    requires FieldsKept(dropped)
    ensures Delivered(d, SegmentWrites(p, w, accel, decel, jerk), dropped, 8).Motion()
      == Block(Uint16(p.upper), Uint16(p.lower), Uint16(w.upper), Uint16(w.lower), Uint16(accel), Uint16(decel),
        Uint16(jerk))
  {
    hide Delivered;
    FieldKept(d, p, w, accel, decel, jerk, dropped, 1); FieldKept(d, p, w, accel, decel, jerk, dropped, 2);
    FieldKept(d, p, w, accel, decel, jerk, dropped, 3); FieldKept(d, p, w, accel, decel, jerk, dropped, 4);
    FieldKept(d, p, w, accel, decel, jerk, dropped, 5); FieldKept(d, p, w, accel, decel, jerk, dropped, 6);
    FieldKept(d, p, w, accel, decel, jerk, dropped, 7);
  }

  /** Exactly when a drive asks for a segment and the last write is kept, one block is stored
      and bit 9 lowered; it is the segment's block if its fields are kept. */
  ghost predicate Latched(d: State, after: State, dropped: set<nat>, b: Block) {
    && after.programming == d.programming
    && (after.ready <==> d.ready && 8 in dropped)
    && (if d.ready && 8 !in dropped then
          d.program <= after.program && |after.program| == |d.program| + 1
          && (FieldsKept(dropped) ==> after.program == d.program + [b])
        else after.program == d.program)
  }

  lemma SegmentLatched(d: State, p: Words, w: Words, accel: int, decel: int, jerk: int, dropped: set<nat>)
    requires d.Coherent()
    ensures Latched(d, Delivered(d, SegmentWrites(p, w, accel, decel, jerk), dropped, 9), dropped,
      Block(Uint16(p.upper), Uint16(p.lower), Uint16(w.upper), Uint16(w.lower), Uint16(accel), Uint16(decel),
        Uint16(jerk)))
  {
    hide Uint16;
    var ws := SegmentWrites(p, w, accel, decel, jerk);
    OffCommand(d, ws, dropped, 8);
    if FieldsKept(dropped) { FieldsInPlace(d, p, w, accel, decel, jerk, dropped); }
    var before := Delivered(d, ws, dropped, 8);
    SmallLatch();
    assert Delivered(d, ws, dropped, 9) == if 8 in dropped then before else before.Written(ws[8]);
  }

  lemma SmallLatch()
    ensures Uint16(LATCH) == LATCH && Uint16(PROGRAM_BIT) == PROGRAM_BIT
  {
  }
}
