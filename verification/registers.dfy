/**
 The FlexSPI1 register file of the i.MX RT10xx as the driver sees it over the debug link.

 Plain registers are fields of `Controller`: a write stores the value and a read returns it. The
 interrupt register and the read FIFO are driven by the hardware, so they have no field here;
 what the driver reads from them is supplied as an input to each operation, and what it writes
 to them is recorded in the `writes` log, as every other write is. `lut` holds the 16 bytes of
 LUT sequence 0, the only part of the table the driver ever accesses, and `ran` lists the slot-0
 sequences the controller executed, one per PRG_CMD run trigger.
 */
module Registers {

  /** The FlexSPI1 registers the driver accesses. Each is named rather than given its bus
      address: the driver only ever writes a register by its fixed address, so the name is
      enough to say what a write does. */
  datatype Reg =
    | ModCtrl0 | Intr | LutKey | LutCtrl | Ctrl1
    | PrgCtrl0 | PrgCtrl1 | PrgCmd | PrgReadFifoCtrl | PrgWriteFifoCtrl
    | PrgReadFifo | PrgWriteFifo | LutBase

  const ModCtrl0Suspend: bv32 := 0x0000_0002
  const IntPrgCmdDone: bv32 := 0x0000_0001
  const IntReadFifoFull: bv32 := 0x0000_0020
  const IntWriteFifoEmpty: bv32 := 0x0000_0040
  const LutKeyValue: bv32 := 0x5af0_5af0
  const LutCtrlLock: bv32 := 0x0000_0001
  const LutCtrlUnlock: bv32 := 0x0000_0002
  const Ctrl1CasMask: bv32 := 0x0000_7800
  const Ctrl1CasShift: bv32 := 11
  const PrgLutIndex0: bv32 := 0
  const PrgRun: bv32 := 0x0000_0001
  const FifoCtrlClear: bv32 := 0x0000_0001

  /** Capacity of each programmable FIFO in bytes (32 words). */
  const FifoBytes: nat := 128
  /** Size of one LUT sequence: eight two-byte instructions. */
  const SequenceBytes: nat := 16

  /** The PRG_CTRL1 data-length field (bits 15:0) of a transfer of `length` bytes. */
  function PrgLength(length: nat): (f: bv32)
    ensures (f & !0xffff) == 0
    ensures length < 0x1_0000 ==> f == length as bv32
  {
    (length % 0x1_0000) as bv32
  }

  /** The FIFO watermark field for a watermark of `x` bytes, in units of 8 bytes less one. */
  function Watermark(x: bv32): (f: bv32)
    ensures (f & !0x3c) == 0
  {
    ((((x + 7) >> 3) - 1) & 0xf) << 2
  }

  /** The watermark used for both FIFOs is the whole 128-byte FIFO. */
  lemma WatermarkOfFullFifo()
    ensures Watermark(FifoBytes as bv32) == 0x3c
    ensures (Watermark(FifoBytes as bv32) | FifoCtrlClear) == 0x3d
  {
  }

  /** For a whole number `k` of 8-byte units up to the FIFO size, the field holds `k - 1`. */
  lemma WatermarkCountsDoubleWords(k: bv32)
    requires 1 <= k <= 16
    ensures Watermark(8 * k) >> 2 == k - 1
    ensures (Watermark(8 * k) & 0x3) == 0
  {
  }

  /** The column-address width CTRL1[14:11]. */
  function Cas(ctrl1: bv32): (cas: bv8)
    ensures cas < 16
  {
    ((ctrl1 & Ctrl1CasMask) >> Ctrl1CasShift) as bv8
  }

  /** One write the driver issues over the debug link. */
  datatype Write = Write32(reg: Reg, value: bv32) | WriteBlock(reg: Reg, data: seq<bv8>)

  datatype Controller = Controller(
    modCtrl0: bv32,
    lutKey: bv32,
    lutCtrl: bv32,
    ctrl1: bv32,
    prgCtrl0: bv32,
    prgCtrl1: bv32,
    prgCmd: bv32,
    readFifoCtrl: bv32,
    writeFifoCtrl: bv32,
    lut: seq<bv8>,
    txFifo: seq<bv8>,
    ran: seq<seq<bv8>>,
    writes: seq<Write>)

  /**
   The effect of one driver write on the register file: a plain register takes the value, and a
   PRG_CMD write with the run bit set executes LUT sequence 0. Writes to the interrupt register
   (write-1-to-clear) change no modelled field.
   */
  function Apply(c: Controller, w: Write): Controller {
    match w
    case Write32(reg, v) =>
      (match reg
       case ModCtrl0 => c.(modCtrl0 := v)
       case LutKey => c.(lutKey := v)
       case LutCtrl => c.(lutCtrl := v)
       case Ctrl1 => c.(ctrl1 := v)
       case PrgCtrl0 => c.(prgCtrl0 := v)
       case PrgCtrl1 => c.(prgCtrl1 := v)
       case PrgCmd => c.(prgCmd := v, ran := if (v & PrgRun) != 0 then c.ran + [c.lut] else c.ran)
       case PrgReadFifoCtrl => c.(readFifoCtrl := v)
       case PrgWriteFifoCtrl => c.(writeFifoCtrl := v)
       case _ => c)
    case WriteBlock(reg, data) =>
      (match reg
       case LutBase => c.(lut := data)
       case PrgWriteFifo => c.(txFifo := data)
       case _ => c)
  }

  /** One driver write: its effect, and its entry in the log. */
  function Store(c: Controller, w: Write): Controller {
    Apply(c, w).(writes := c.writes + [w])
  }

  /** A 32-bit write never changes the LUT or the write FIFO, and executes a sequence exactly
      when it is a PRG_CMD write with the run bit. */
  lemma WordEffects(c: Controller, reg: Reg, v: bv32)
    ensures Apply(c, Write32(reg, v)).lut == c.lut
    ensures Apply(c, Write32(reg, v)).txFifo == c.txFifo
    ensures Apply(c, Write32(reg, v)).ran == c.ran
      + (if reg == PrgCmd && (v & PrgRun) != 0 then [c.lut] else [])
  {
    match reg {
      case ModCtrl0 =>
      case Intr =>
      case LutKey =>
      case LutCtrl =>
      case Ctrl1 =>
      case PrgCtrl0 =>
      case PrgCtrl1 =>
      case PrgCmd =>
      case PrgReadFifoCtrl =>
      case PrgWriteFifoCtrl =>
      case PrgReadFifo =>
      case PrgWriteFifo =>
      case LutBase =>
    }
  }

  /** A block write changes only the LUT or the write FIFO it is addressed to. */
  lemma BlockEffects(c: Controller, reg: Reg, data: seq<bv8>)
    ensures Apply(c, WriteBlock(reg, data)).lut == (if reg == LutBase then data else c.lut)
    ensures Apply(c, WriteBlock(reg, data)).txFifo
      == (if reg == PrgWriteFifo then data else c.txFifo)
    ensures Apply(c, WriteBlock(reg, data)).ran == c.ran
  {
    match reg {
      case ModCtrl0 =>
      case Intr =>
      case LutKey =>
      case LutCtrl =>
      case Ctrl1 =>
      case PrgCtrl0 =>
      case PrgCtrl1 =>
      case PrgCmd =>
      case PrgReadFifoCtrl =>
      case PrgWriteFifoCtrl =>
      case PrgReadFifo =>
      case PrgWriteFifo =>
      case LutBase =>
    }
  }

  /** Every write is logged; only a PRG_CMD write with the run bit executes a sequence, and only
      block writes to the LUT and the write FIFO change them. */
  lemma StoreEffects(c: Controller, w: Write)
    ensures Store(c, w).writes == c.writes + [w]
    ensures Store(c, w).ran == c.ran
      + (if w.Write32? && w.reg == PrgCmd && (w.value & PrgRun) != 0 then [c.lut] else [])
    ensures Store(c, w).lut == (if w.WriteBlock? && w.reg == LutBase then w.data else c.lut)
    ensures Store(c, w).txFifo
      == (if w.WriteBlock? && w.reg == PrgWriteFifo then w.data else c.txFifo)
  {
    match w
    case Write32(reg, v) => WordEffects(c, reg, v);
    case WriteBlock(reg, data) => BlockEffects(c, reg, data);
  }

  /** `c1` was reached from `c0` by further writes. */
  predicate Extends(c0: Controller, c1: Controller) {
    c0.writes <= c1.writes
  }

  /** The writes issued on the way from `c0` to `c1`. */
  function Added(c0: Controller, c1: Controller): seq<Write>
    requires Extends(c0, c1)
  {
    c1.writes[|c0.writes|..]
  }

  lemma AddedIs(c0: Controller, c1: Controller, ws: seq<Write>)
    requires c1.writes == c0.writes + ws
    ensures Extends(c0, c1) && Added(c0, c1) == ws
  {
  }

  /** Some write in `t` goes to register `r`. */
  predicate Touches(t: seq<Write>, r: Reg) {
    exists w :: w in t && w.reg == r
  }

  /** The mode, lock and FIFO-control registers are as they were. */
  predicate ModeRegsUnchanged(c0: Controller, c1: Controller) {
    && c1.modCtrl0 == c0.modCtrl0
    && c1.lutKey == c0.lutKey
    && c1.lutCtrl == c0.lutCtrl
    && c1.ctrl1 == c0.ctrl1
    && c1.readFifoCtrl == c0.readFifoCtrl
    && c1.writeFifoCtrl == c0.writeFifoCtrl
  }

  /** The sequencer registers, LUT, write FIFO and execution history are as they were. */
  predicate SequencerUnchanged(c0: Controller, c1: Controller) {
    && c1.ctrl1 == c0.ctrl1
    && c1.prgCtrl0 == c0.prgCtrl0
    && c1.prgCtrl1 == c0.prgCtrl1
    && c1.prgCmd == c0.prgCmd
    && c1.lut == c0.lut
    && c1.txFifo == c0.txFifo
    && c1.ran == c0.ran
  }
}
