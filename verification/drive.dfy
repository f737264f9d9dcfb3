/** A small model of the AMCI drive seen through its Modbus registers: the output registers
    1024..1033, and the part of the program mode that the upload handshake relies on. */
module Drive {
  import opened CArithmetic
  import opened Utilities
  import opened Registers

  datatype Write = Write(reg: int, value: int)

  /** One latched segment: registers 1026..1031 and 1033. */
  datatype Block = Block(
    positionUpper: Word, positionLower: Word, speedUpper: Word, speedLower: Word,
    accel: Word, decel: Word, jerk: Word)

  /** What the motion registers mean once the words are put together again. */
  datatype Profile = Profile(position: int, speed: int, accel: int, decel: int, jerk: int)

  function Decode(b: Block): Profile
  {
    Profile(
      Words(Int16(b.positionLower), Int16(b.positionUpper)).Recombined(),
      Words(Int16(b.speedLower), Int16(b.speedUpper)).Recombined(),
      Int16(b.accel), Int16(b.decel), Int16(b.jerk))
  }

  const COMMAND := 1024
  const PROGRAM_BIT := 2048
  const LATCH := 6144

  /** `programming` is status bit 8 and `ready` ("transmit move segment") is bit 9. */
  datatype State = State(regs: map<int, Word>, programming: bool, ready: bool, program: seq<Block>) {

    /** A drive asks for a segment only in the program mode. */
    predicate Coherent() { ready ==> programming }

    function Reg(r: int): Word
    {
      if r in regs then regs[r] else 0
    }

    function Motion(): Block
    {
      Block(Reg(1026), Reg(1027), Reg(1028), Reg(1029), Reg(1030), Reg(1031), Reg(1033))
    }

    /** The effect of one register write. Writing 2048 to the command register enters the
        program mode (with an empty program, unless it is on already) and asks for a segment;
        6144 latches the motion registers as the next segment if one was asked for; any
        other command leaves the program mode. */
    function Written(w: Write): State
    {
      var d := this.(regs := regs[w.reg := Uint16(w.value)]);
      if w.reg != COMMAND then d
      else if Uint16(w.value) == PROGRAM_BIT then
        d.(programming := true, ready := true, program := if programming then program else [])
      else if Uint16(w.value) == LATCH then
        if programming && ready then d.(ready := false, program := program + [d.Motion()]) else d
      else d.(programming := false, ready := false)
    }

    /** Status word 0. Bits 14, 9 and 8 are the drive's; the environment picks the others. */
    function StatusWord(noise: Noise): Word
    {
      (if noise.bit15 then 0x8000 else 0) + 0x4000 + 0x400 * noise.bits10to13
      + (if ready then 0x200 else 0) + (if programming then 0x100 else 0) + noise.bits0to7
    }
  }

  // ---- reading registers as numbers ----

  /** A word as the two's complement number it stands for. */
  function Signed(w: Word): int { if w < 0x8000 then w else w - 0x1_0000 }

  /** Two registers as thousands and units. */
  function Thousands(upper: Word, lower: Word): int { 1000 * Signed(upper) + Signed(lower) }

  /** The motion registers, read as position, speed, acceleration, deceleration and jerk. */
  predicate Carries(d: State, position: int, speed: int, accel: int, decel: int, jerk: int) {
    && Thousands(d.Reg(1026), d.Reg(1027)) == position && Thousands(d.Reg(1028), d.Reg(1029)) == speed
    && d.Reg(1030) == accel && d.Reg(1031) == decel && d.Reg(1033) == jerk
  }

  /** A stored segment, read the same way. */
  predicate BlockCarries(b: Block, position: int, speed: int, accel: int, decel: int, jerk: int) {
    && Thousands(b.positionUpper, b.positionLower) == position && Thousands(b.speedUpper, b.speedLower) == speed
    && b.accel == accel && b.decel == decel && b.jerk == jerk
  }

  type Nibble16 = n: int | 0 <= n < 16
  type Byte = n: int | 0 <= n < 256

  datatype Noise = Noise(bit15: bool, bits10to13: Nibble16, bits0to7: Byte)

  lemma StatusBits(d: State, noise: Noise)
    ensures var w := d.StatusWord(noise);
      w >= 0x4000 && Bit(w, 9) == (if d.ready then 1 else 0) && Bit(w, 8) == (if d.programming then 1 else 0)
  {
    var w := d.StatusWord(noise);
    var high := (if noise.bit15 then 32 else 0) + 16 + noise.bits10to13;
    var r, p := if d.ready then 1 else 0, if d.programming then 1 else 0;
    assert w == 1024 * high + 512 * r + 256 * p + noise.bits0to7;
    BitBytes(4 * high + 2 * r + p, noise.bits0to7, 1);
    BitBytes(4 * high + 2 * r + p, noise.bits0to7, 0);
    assert Bit(4 * high + 2 * r + p, 1) == Bit(2 * high + r, 0);
  }

  /** Bits 8 and up are the bits of the upper part. */
  lemma BitBytes(upper: nat, lower: Byte, k: nat)
    ensures Bit(256 * upper + lower, 8 + k) == Bit(upper, k)
  {
    var n := 256 * upper + lower;
    HighBit(n, 8 + k);
    assert n / 16 == 16 * upper + lower / 16;
    HighBit(n / 16, 4 + k);
    assert n / 16 / 16 == upper;
  }
}
