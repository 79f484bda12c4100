/**
 The 32-bit SPI flash command word shared by every FlexSPI-based driver: opcode in bits 7:0,
 dummy-cycle count in bits 15:8, the 3-byte-address flag in bit 16 and the data-out flag in
 bit 17. `Command` is the field-wise view of such a word; `Encode` and `Decode` convert between
 the two and are inverse to each other.
 */
module SpiCommand {

  const OpcodeMask: bv32 := 0x0000_00ff
  const DummyMask: bv32 := 0x0000_ff00
  const DummyShift: bv32 := 8
  const OpcodeModeMask: bv32 := 0x0001_0000
  const OpcodeOnlyFlag: bv32 := 0
  const ThreeByteAddrFlag: bv32 := 0x0001_0000
  const DataInFlag: bv32 := 0
  const DataOutFlag: bv32 := 0x0002_0000

  /** The bits a command word may use. */
  const UsedBits: bv32 := 0x0003_ffff

  function OpcodeBits(x: bv32): bv32 {
    x & OpcodeMask
  }

  function DummyLen(x: bv32): bv32 {
    (x << DummyShift) & DummyMask
  }

  const WriteEnable: bv32 := OpcodeOnlyFlag | DummyLen(0) | OpcodeBits(0x06)
  const ChipErase: bv32 := OpcodeOnlyFlag | DummyLen(0) | OpcodeBits(0x60)
  const ReadStatus: bv32 := OpcodeOnlyFlag | DataInFlag | DummyLen(0) | OpcodeBits(0x05)
  const ReadJedecId: bv32 := OpcodeOnlyFlag | DataInFlag | DummyLen(0) | OpcodeBits(0x9f)
  /** Read SFDP (JEDEC JESD216): 3-byte address, 8 dummy cycles, data in. */
  const ReadSfdp: bv32 := ThreeByteAddrFlag | DataInFlag | DummyLen(8) | OpcodeBits(0x5a)

  const SectorEraseOpcode: bv8 := 0x20

  /** Flash status-register bits. */
  const StatusBusy: bv8 := 0x01
  const StatusWriteEnabled: bv8 := 0x02

  /** The address-phase test the sequencer makes. */
  predicate HasAddress(command: bv32) {
    (command & OpcodeModeMask) == ThreeByteAddrFlag
  }

  /** The data-direction test the sequencer makes. */
  predicate IsDataOut(command: bv32) {
    (command & DataOutFlag) != 0
  }

  function OpcodeOf(command: bv32): bv8 {
    (command & OpcodeMask) as bv8
  }

  function DummyCyclesOf(command: bv32): bv8 {
    ((command & DummyMask) >> DummyShift) as bv8
  }

  datatype AddressMode = OpcodeOnly | ThreeByteAddress
  datatype Direction = DataIn | DataOut

  /** A flash operation described field by field. */
  datatype Command =
    Command(opcode: bv8, dummyCycles: bv8, address: AddressMode, direction: Direction)

  function Encode(c: Command): (w: bv32)
    ensures (w & !UsedBits) == 0
    ensures OpcodeOf(w) == c.opcode && DummyCyclesOf(w) == c.dummyCycles
    ensures HasAddress(w) <==> c.address == ThreeByteAddress
    ensures IsDataOut(w) <==> c.direction == DataOut
  {
    AddressFlag(c.address) | DirectionFlag(c.direction)
    | DummyLen(c.dummyCycles as bv32) | OpcodeBits(c.opcode as bv32)
  }

  function AddressFlag(a: AddressMode): bv32 {
    if a == ThreeByteAddress then ThreeByteAddrFlag else OpcodeOnlyFlag
  }

  function DirectionFlag(d: Direction): bv32 {
    if d == DataOut then DataOutFlag else DataInFlag
  }

  /** Reads a command word the way the sequencer does. */
  function Decode(w: bv32): Command {
    Command(
      OpcodeOf(w),
      DummyCyclesOf(w),
      if HasAddress(w) then ThreeByteAddress else OpcodeOnly,
      if IsDataOut(w) then DataOut else DataIn)
  }

  lemma DecodeEncode(c: Command)
    ensures Decode(Encode(c)) == c
  {
  }

  /** Every word that uses only bits 17:0 is the encoding of its decode. */
  lemma EncodeDecode(w: bv32)
    requires (w & !UsedBits) == 0
    ensures Encode(Decode(w)) == w
  {
  }

  /** The fixed commands the driver issues, field by field. */
  lemma FixedCommands()
    ensures Decode(WriteEnable) == Command(0x06, 0, OpcodeOnly, DataIn)
    ensures Decode(ChipErase) == Command(0x60, 0, OpcodeOnly, DataIn)
    ensures Decode(ReadStatus) == Command(0x05, 0, OpcodeOnly, DataIn)
    ensures Decode(ReadJedecId) == Command(0x9f, 0, OpcodeOnly, DataIn)
    ensures Decode(ReadSfdp) == Command(0x5a, 8, ThreeByteAddress, DataIn)
    ensures ReadSfdp == 0x0001_085a
  {
  }
}
