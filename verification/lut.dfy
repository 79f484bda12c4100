/**
 FlexSPI LUT instructions and the slot-0 sequence the driver builds for one command. An
 instruction is two bytes: an operand value and an opcode/pad-mode byte whose top six bits are
 the LUT opcode and whose low two bits are the pad mode. `BuildSequence` mirrors the driver's
 offset-by-offset construction; `Parse` reads a sequence back into its phases independently of
 it, and `ParseBuild` shows the two agree for every command word and CAS width.
 */
module Lut {
  import opened SpiCommand
  import opened Option

  datatype Insn = Insn(value: bv8, opcodeMode: bv8)

  const OpStop: bv8 := 0x00
  const OpCommand: bv8 := 0x01
  const OpRaddr: bv8 := 0x02
  const OpCaddr: bv8 := 0x03
  const OpWrite: bv8 := 0x08
  const OpRead: bv8 := 0x09
  const OpDummyCycles: bv8 := 0x0c

  const ModeSerial: bv8 := 0x0
  const ModeDual: bv8 := 0x1
  const ModeQuad: bv8 := 0x2
  const ModeOct: bv8 := 0x3

  const SequenceSlots: nat := 8

  /** The all-zero instruction: STOP, which ends a sequence. */
  const Stop: Insn := Insn(0, 0)

  /** The opcode/pad-mode byte of an instruction. */
  function OpcodeMode(op: bv8, mode: bv8): (m: bv8)
    ensures mode < 4 ==> m >> 2 == op & 0x3f && m & 0x3 == mode
  {
    ((op & 0x3f) << 2) | mode
  }

  function OpcodeOfMode(m: bv8): bv8 {
    m >> 2
  }

  function PadsOfMode(m: bv8): bv8 {
    m & 0x3
  }

  /** Opcode and pad mode can be read back from the packed byte. */
  lemma OpcodeModeRoundTrip(op: bv8, mode: bv8)
    requires op < 0x40 && mode < 4
    ensures OpcodeOfMode(OpcodeMode(op, mode)) == op
    ensures PadsOfMode(OpcodeMode(op, mode)) == mode
  {
  }

  /** A single-wire instruction. */
  function Serial(op: bv8, value: bv8): Insn {
    Insn(value, OpcodeMode(op, ModeSerial))
  }

  /** Number of address instructions: none, RADDR, or RADDR then CADDR. */
  function AddressSlots(command: bv32, cas: bv8): nat {
    if !HasAddress(command) then 0 else if cas != 0 then 2 else 1
  }

  /** Position of the DUMMY instruction. */
  function DummySlot(command: bv32, cas: bv8): nat {
    1 + AddressSlots(command, cas)
  }

  /** Number of instructions before the first STOP. */
  function UsedSlots(command: bv32, cas: bv8, length: nat): nat {
    DummySlot(command, cas) + 1 + (if length != 0 then 1 else 0)
  }

  function DataOp(command: bv32): bv8 {
    if IsDataOut(command) then OpWrite else OpRead
  }

  /**
   The sequence for `command` with a CAS width of `cas` column bits and a transfer of `length`
   bytes, built as the driver builds it: a zeroed array filled at a moving offset.
   */
  function BuildSequence(command: bv32, cas: bv8, length: nat): (s: seq<Insn>)
    requires cas < 16
    ensures |s| == SequenceSlots
    ensures s[0] == Serial(OpCommand, OpcodeOf(command))
    ensures HasAddress(command) ==> s[1] == Serial(OpRaddr, 24 - cas) && 9 <= 24 - cas <= 24
    ensures HasAddress(command) && cas != 0 ==> s[2] == Serial(OpCaddr, cas)
    ensures s[DummySlot(command, cas)] == Serial(OpDummyCycles, DummyCyclesOf(command))
    ensures length != 0 ==> s[DummySlot(command, cas) + 1] == Serial(DataOp(command), 0)
    ensures UsedSlots(command, cas, length) <= 5
    ensures forall i :: 0 <= i < |s| ==> (s[i] == Stop <==> UsedSlots(command, cas, length) <= i)
  {
    var s0 := seq(SequenceSlots, _ => Stop)[0 := Serial(OpCommand, OpcodeOf(command))];
    var s1 :=
      if !HasAddress(command) then s0
      else if cas != 0 then s0[1 := Serial(OpRaddr, 24 - cas)][2 := Serial(OpCaddr, cas)]
      else s0[1 := Serial(OpRaddr, 24 - cas)];
    var offset := DummySlot(command, cas);
    var s2 := s1[offset := Serial(OpDummyCycles, DummyCyclesOf(command))];
    if length != 0 then s2[offset + 1 := Serial(DataOp(command), 0)] else s2
  }

  /** An opcode-only command never reads the CAS width. */
  lemma BuildIgnoresCasWithoutAddress(command: bv32, cas: bv8, length: nat)
    requires cas < 16 && !HasAddress(command)
    ensures BuildSequence(command, cas, length) == BuildSequence(command, 0, length)
  {
  }

  datatype AddressPhase = NoAddress | Row(rowBits: bv8) | RowColumn(rowBits: bv8, columnBits: bv8)
  datatype DataPhase = NoData | ReadData | WriteData

  /** The wire phases a slot-0 sequence describes. */
  datatype Phases = Phases(opcode: bv8, address: AddressPhase, dummyCycles: bv8, data: DataPhase)

  predicate IsSerial(i: Insn, op: bv8) {
    i.opcodeMode == OpcodeMode(op, ModeSerial)
  }

  /**
   Reads a sequence back: COMMAND, optional RADDR with optional CADDR, DUMMY, optional READ or
   WRITE, then STOP to the end. Anything else does not parse.
   */
  function Parse(s: seq<Insn>): Option<Phases> {
    if |s| != SequenceSlots || !IsSerial(s[0], OpCommand) then None
    else
      var k: nat :=
        if !IsSerial(s[1], OpRaddr) then 1 else if IsSerial(s[2], OpCaddr) then 3 else 2;
      var address :=
        if k == 3 then RowColumn(s[1].value, s[2].value)
        else if k == 2 then Row(s[1].value)
        else NoAddress;
      if !IsSerial(s[k], OpDummyCycles) then None
      else
        var data :=
          if IsSerial(s[k + 1], OpRead) then ReadData
          else if IsSerial(s[k + 1], OpWrite) then WriteData
          else NoData;
        var used := if data == NoData then k + 1 else k + 2;
        if forall i :: used <= i < SequenceSlots ==> s[i] == Stop then
          Some(Phases(s[0].value, address, s[k].value, data))
        else None
  }

  /** The phases a command word calls for, given the CAS width and the transfer length. */
  function Described(command: bv32, cas: bv8, length: nat): Phases
    requires cas < 16
  {
    var c := Decode(command);
    Phases(
      c.opcode,
      if c.address == OpcodeOnly then NoAddress
      else if cas == 0 then Row(24)
      else RowColumn(24 - cas, cas),
      c.dummyCycles,
      if length == 0 then NoData else if c.direction == DataOut then WriteData else ReadData)
  }

  /** The built sequence says exactly what the command word asks for, and nothing else. */
  lemma ParseBuild(command: bv32, cas: bv8, length: nat)
    requires cas < 16
    ensures Parse(BuildSequence(command, cas, length)) == Some(Described(command, cas, length))
  {
  }

  /** The bytes of a sequence as laid out in the LUT: value first, then opcode/mode. */
  function Bytes(s: seq<Insn>): (b: seq<bv8>)
    ensures |b| == 2 * |s|
  {
    if s == [] then [] else [s[0].value, s[0].opcodeMode] + Bytes(s[1..])
  }

  /** Instruction `i` occupies bytes `2i` (value) and `2i + 1` (opcode/mode). */
  lemma {:induction false} BytesLayout(s: seq<Insn>, i: nat)
    requires i < |s|
    ensures Bytes(s)[2 * i] == s[i].value && Bytes(s)[2 * i + 1] == s[i].opcodeMode
  {
    if i > 0 {
      BytesLayout(s[1..], i - 1);
      assert Bytes(s) == [s[0].value, s[0].opcodeMode] + Bytes(s[1..]);
    }
  }

  /** Reads LUT bytes back as instructions, two bytes each. */
  function Insns(b: seq<bv8>): (s: seq<Insn>)
    requires |b| % 2 == 0
    ensures |s| == |b| / 2
  {
    if b == [] then [] else [Insn(b[0], b[1])] + Insns(b[2..])
  }

  lemma {:induction false} InsnsOfBytes(s: seq<Insn>)
    ensures Insns(Bytes(s)) == s
  {
    if s != [] {
      var b := Bytes(s);
      var rest := Bytes(s[1..]);
      assert b == [s[0].value, s[0].opcodeMode] + rest;
      assert b[2..] == rest;
      InsnsOfBytes(s[1..]);
      assert Insns(b) == [Insn(b[0], b[1])] + Insns(rest);
      assert s == [s[0]] + s[1..];
    }
  }

  lemma {:induction false} BytesOfInsns(b: seq<bv8>)
    requires |b| % 2 == 0
    ensures Bytes(Insns(b)) == b
  {
    if b != [] {
      var s := Insns(b);
      var rest := Insns(b[2..]);
      assert s == [Insn(b[0], b[1])] + rest;
      assert s[1..] == rest;
      BytesOfInsns(b[2..]);
      assert Bytes(s) == [b[0], b[1]] + Bytes(rest);
      assert b == [b[0], b[1]] + b[2..];
    }
  }

  /** Byte 0 of a built slot is the flash opcode, and the slot fills one LUT sequence. */
  lemma SlotBytes(command: bv32, cas: bv8, length: nat)
    requires cas < 16
    ensures |Bytes(BuildSequence(command, cas, length))| == 16
    ensures Bytes(BuildSequence(command, cas, length))[0] == OpcodeOf(command)
  {
  }
}
