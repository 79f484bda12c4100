/**
 One SPI flash transaction through the FlexSPI IP-command sequencer: save LUT sequence 0,
 program the command's sequence and the PRG registers, run it and wait for PRG_CMD_DONE, move
 the data through the FIFO, and put the saved sequence back.

 The hardware's side of a transaction is a `Response`: the successive values the driver's polls
 of the interrupt register return, and the 128 bytes it drains from the read FIFO.
 */
module Sequencer {
  import opened SpiCommand
  import opened Lut
  import opened Registers
  import opened FlashMode
  import opened Option

  datatype Response = Response(polls: seq<bv32>, rx: seq<bv8>)

  /** Some poll sees PRG_CMD_DONE: the command completes. */
  predicate Completes(polls: seq<bv32>) {
    exists i :: 0 <= i < |polls| && (polls[i] & IntPrgCmdDone) != 0
  }

  predicate WellFormed(r: Response) {
    Completes(r.polls) && |r.rx| == FifoBytes
  }

  /** The CAS width the sequence uses: CTRL1 is consulted only for commands with an address. */
  function ColumnBits(command: bv32, ctrl1: bv32): (cas: bv8)
    ensures cas < 16
  {
    if HasAddress(command) then Cas(ctrl1) else 0
  }

  /** The LUT sequence-0 bytes the driver programs for this transaction. */
  function SlotFor(command: bv32, ctrl1: bv32, length: nat): seq<bv8> {
    Bytes(BuildSequence(command, ColumnBits(command, ctrl1), length))
  }

  /** The single writes a transaction issues, each with its effect on the controller. */
  function LoadLut(c: Controller, bytes: seq<bv8>): (r: Controller)
    ensures r == c.(lut := bytes, writes := c.writes + [WriteBlock(LutBase, bytes)])
  {
    Store(c, WriteBlock(LutBase, bytes))
  }

  function SetPrgCtrl0(c: Controller, v: bv32): (r: Controller)
    ensures r == c.(prgCtrl0 := v, writes := c.writes + [Write32(PrgCtrl0, v)])
  {
    Store(c, Write32(PrgCtrl0, v))
  }

  function SetPrgCtrl1(c: Controller, v: bv32): (r: Controller)
    ensures r == c.(prgCtrl1 := v, writes := c.writes + [Write32(PrgCtrl1, v)])
  {
    Store(c, Write32(PrgCtrl1, v))
  }

  function FillTxFifo(c: Controller, data: seq<bv8>): (r: Controller)
    ensures r == c.(txFifo := data, writes := c.writes + [WriteBlock(PrgWriteFifo, data)])
  {
    Store(c, WriteBlock(PrgWriteFifo, data))
  }

  /** A write-1-to-clear of interrupt flags changes no modelled register. */
  function ClearInterrupts(c: Controller, flags: bv32): (r: Controller)
    ensures r == c.(writes := c.writes + [Write32(Intr, flags)])
  {
    Store(c, Write32(Intr, flags))
  }

  /** Setting PRG_CMD's run bit executes the sequence currently in the LUT. */
  function Trigger(c: Controller): (r: Controller)
    ensures r == c.(prgCmd := PrgRun, ran := c.ran + [c.lut],
                    writes := c.writes + [Write32(PrgCmd, PrgRun)])
  {
    Store(c, Write32(PrgCmd, PrgRun))
  }

  /**
   What configuring a transaction programs: the sequence-0 bytes, whether PRG_CTRL0 receives the
   address, the address, and the PRG_CTRL1 value.
   */
  datatype Plan = Plan(slot: seq<bv8>, addressed: bool, address: bv32, prgCtrl1: bv32)

  function PlanFor(command: bv32, ctrl1: bv32, address: bv32, length: nat): (p: Plan)
    ensures |p.slot| == SequenceBytes && p.slot == SlotFor(command, ctrl1, length)
    ensures p.addressed <==> HasAddress(command)
    ensures p.address == address && p.prgCtrl1 == PrgLength(length)
  {
    SlotBytes(command, ColumnBits(command, ctrl1), length);
    Plan(SlotFor(command, ctrl1, length), HasAddress(command), address,
         PrgLutIndex0 | PrgLength(length))
  }

  function ConfigureWrites(p: Plan): seq<Write> {
    [WriteBlock(LutBase, p.slot)]
    + (if p.addressed then [Write32(PrgCtrl0, p.address)] else [])
    + [Write32(PrgCtrl1, p.prgCtrl1)]
  }

  lemma ConfigureWritesTouch(p: Plan)
    ensures Touches(ConfigureWrites(p), PrgCtrl0) <==> p.addressed
    ensures !Touches(ConfigureWrites(p), PrgWriteFifo)
    ensures !Touches(ConfigureWrites(p), Intr)
  {
  }

  /** The controller side of configuring a transaction. */
  function Program(c: Controller, p: Plan): (r: Controller)
    ensures r == c.(
      lut := p.slot,
      prgCtrl0 := if p.addressed then p.address else c.prgCtrl0,
      prgCtrl1 := p.prgCtrl1,
      writes := c.writes + ConfigureWrites(p))
  {
    var c1 := LoadLut(c, p.slot);
    var c2 := if p.addressed then SetPrgCtrl0(c1, p.address) else c1;
    SetPrgCtrl1(c2, p.prgCtrl1)
  }

  /** Saves sequence 0, writes the new one, and programs PRG_CTRL0 (for addressed commands only)
      and PRG_CTRL1 (LUT index 0 and the data length). */
  function ConfigureSequence(d: Driver, command: bv32, address: bv32, length: nat): (r: Driver)
    ensures r.ctrl == Program(d.ctrl, PlanFor(command, d.ctrl.ctrl1, address, length))
    ensures r.priv == d.priv.(lutSeq := d.ctrl.lut)
    ensures r.ctrl.lut == SlotFor(command, d.ctrl.ctrl1, length)
    ensures r.ctrl.prgCtrl0 == (if HasAddress(command) then address else d.ctrl.prgCtrl0)
    ensures r.ctrl.prgCtrl1 == PrgLength(length)
    ensures Extends(d.ctrl, r.ctrl)
    ensures Touches(Added(d.ctrl, r.ctrl), PrgCtrl0) <==> HasAddress(command)
  {
    var p := PlanFor(command, d.ctrl.ctrl1, address, length);
    var c := Program(d.ctrl, p);
    AddedIs(d.ctrl, c, ConfigureWrites(p));
    ConfigureWritesTouch(p);
    Driver(c, d.priv.(lutSeq := d.ctrl.lut))
  }

  /** Writes the saved sequence-0 bytes back to the LUT. */
  function Restore(d: Driver): (r: Driver)
    ensures r.ctrl.lut == d.priv.lutSeq
    ensures r.ctrl.writes == d.ctrl.writes + [WriteBlock(LutBase, d.priv.lutSeq)]
    ensures r == Driver(d.ctrl.(lut := r.ctrl.lut, writes := r.ctrl.writes), d.priv)
  {
    Driver(LoadLut(d.ctrl, d.priv.lutSeq), d.priv)
  }

  const WaitWrites: seq<Write> := [Write32(PrgCmd, PrgRun), Write32(Intr, IntPrgCmdDone)]

  /** The controller effect of running the programmed sequence to completion. */
  function Run(c: Controller): (r: Controller)
    ensures r == c.(prgCmd := PrgRun, ran := c.ran + [c.lut], writes := c.writes + WaitWrites)
  {
    ClearInterrupts(Trigger(c), IntPrgCmdDone)
  }

  /**
   Triggers the programmed sequence and polls the interrupt register until PRG_CMD_DONE is set,
   then clears it. `done` is the index of the poll that saw the flag: the first such poll.
   */
  method WaitComplete(c: Controller, polls: seq<bv32>) returns (r: Controller, done: nat)
    requires Completes(polls)
    ensures done < |polls| && (polls[done] & IntPrgCmdDone) != 0
    ensures forall j :: 0 <= j < done ==> (polls[j] & IntPrgCmdDone) == 0
    ensures r == Run(c)
  {
    r := Trigger(c);
    ghost var k :| 0 <= k < |polls| && (polls[k] & IntPrgCmdDone) != 0;
    done := 0;
    while (polls[done] & IntPrgCmdDone) == 0
      invariant done <= k
      invariant forall j :: 0 <= j < done ==> (polls[j] & IntPrgCmdDone) == 0
      decreases k - done
    {
      done := done + 1;
    }
    r := ClearInterrupts(r, IntPrgCmdDone);
  }

  lemma WaitWritesTouch()
    ensures !Touches(WaitWrites, PrgWriteFifo)
    ensures Write32(Intr, IntReadFifoFull) !in WaitWrites
    ensures Write32(Intr, IntWriteFifoEmpty) !in WaitWrites
  {
  }

  function ReadWrites(p: Plan, saved: seq<bv8>): seq<Write> {
    ConfigureWrites(p) + WaitWrites + [Write32(Intr, IntReadFifoFull), WriteBlock(LutBase, saved)]
  }

  /**
   The controller after a read transaction, stated declaratively: the PRG registers hold what
   the plan says, exactly the planned sequence was run, and the LUT is as before.
   */
  function AfterRead(c: Controller, p: Plan): Controller {
    c.(
      prgCtrl0 := if p.addressed then p.address else c.prgCtrl0,
      prgCtrl1 := p.prgCtrl1,
      prgCmd := PrgRun,
      ran := c.ran + [p.slot],
      writes := c.writes + ReadWrites(p, c.lut))
  }

  /** Configure, run, acknowledge and restore add up to `AfterRead`. */
  lemma ReadComposition(c: Controller, p: Plan)
    ensures LoadLut(ClearInterrupts(Run(Program(c, p)), IntReadFifoFull), c.lut) == AfterRead(c, p)
  {
  }

  /** A read transaction acknowledges the read FIFO, never touches the write FIFO, and ends by
      putting the saved sequence back. */
  lemma ReadWritesTouch(p: Plan, saved: seq<bv8>)
    ensures !Touches(ReadWrites(p, saved), PrgWriteFifo)
    ensures Write32(Intr, IntReadFifoFull) in ReadWrites(p, saved)
    ensures ReadWrites(p, saved)[|ReadWrites(p, saved)| - 1] == WriteBlock(LutBase, saved)
  {
  }

  /**
   `c1` is `c0` after one transaction that ran exactly `slot`: the LUT is back as it was, the
   mode, lock and FIFO-control registers are untouched, and the write log only grew.
   */
  predicate OneTransaction(c0: Controller, c1: Controller, slot: seq<bv8>) {
    && c1.lut == c0.lut
    && c1.ran == c0.ran + [slot]
    && ModeRegsUnchanged(c0, c1)
    && Extends(c0, c1)
  }

  /** A read is one transaction running the planned slot; it leaves the TX FIFO alone. */
  lemma AfterReadFacts(c: Controller, p: Plan)
    ensures var r := AfterRead(c, p);
      && OneTransaction(c, r, p.slot)
      && r.txFifo == c.txFifo
      && Added(c, r) == ReadWrites(p, c.lut)
  {
  }

  /**
   A read transaction of `length` bytes. The whole 128-byte read FIFO is drained and the first
   `length` bytes are returned.
   */
  method SpiRead(d: Driver, command: bv32, address: bv32, length: nat, resp: Response)
    returns (r: Driver, data: seq<bv8>)
    requires length <= FifoBytes && WellFormed(resp)
    ensures data == resp.rx[..length]
    ensures r.ctrl == AfterRead(d.ctrl, PlanFor(command, d.ctrl.ctrl1, address, length))
    ensures r.priv == d.priv.(lutSeq := d.ctrl.lut)
  {
    var cfg := ConfigureSequence(d, command, address, length);
    var c, doneAt := WaitComplete(cfg.ctrl, resp.polls);
    var fifo := resp.rx;
    data := fifo[..length];
    c := ClearInterrupts(c, IntReadFifoFull);
    r := Restore(Driver(c, cfg.priv));
    ReadComposition(d.ctrl, PlanFor(command, d.ctrl.ctrl1, address, length));
  }

  /** `length` rounded up to a whole number of 32-bit words. */
  function RoundUpToWord(length: nat): (n: nat)
    ensures n % 4 == 0 && length <= n < length + 4
  {
    (length + 3) - (length + 3) % 4
  }

  /** What the driver writes to the TX FIFO: a zeroed 128-byte buffer holding the payload,
      cut to the payload's length rounded up to a word. */
  function Padded(buffer: seq<bv8>, length: nat): (p: seq<bv8>)
    requires length <= |buffer| && length <= FifoBytes
    ensures |p| == RoundUpToWord(length)
    ensures p[..length] == buffer[..length]
    ensures forall i :: length <= i < |p| ==> p[i] == 0
  {
    var data := buffer[..length] + seq(FifoBytes - length, _ => 0);
    data[..RoundUpToWord(length)]
  }

  function FillWrites(payload: Option<seq<bv8>>): seq<Write> {
    match payload
    case Some(bytes) => [WriteBlock(PrgWriteFifo, bytes), Write32(Intr, IntWriteFifoEmpty)]
    case None => []
  }

  function WriteWrites(p: Plan, payload: Option<seq<bv8>>, saved: seq<bv8>): seq<Write> {
    ConfigureWrites(p) + FillWrites(payload) + WaitWrites + [WriteBlock(LutBase, saved)]
  }

  /** The TX FIFO step of a write: load the payload and flag the FIFO filled, if there is one. */
  function Fill(c: Controller, payload: Option<seq<bv8>>): (r: Controller)
    ensures r == c.(txFifo := if payload.Some? then payload.value else c.txFifo,
                    writes := c.writes + FillWrites(payload))
  {
    match payload
    case Some(bytes) => ClearInterrupts(FillTxFifo(c, bytes), IntWriteFifoEmpty)
    case None => c
  }

  /** The controller after a write transaction, stated declaratively; `payload` is what goes to
      the TX FIFO, if anything does. */
  function AfterWrite(c: Controller, p: Plan, payload: Option<seq<bv8>>): Controller {
    c.(
      prgCtrl0 := if p.addressed then p.address else c.prgCtrl0,
      prgCtrl1 := p.prgCtrl1,
      prgCmd := PrgRun,
      txFifo := if payload.Some? then payload.value else c.txFifo,
      ran := c.ran + [p.slot],
      writes := c.writes + WriteWrites(p, payload, c.lut))
  }

  /** Configure, fill, run and restore add up to `AfterWrite`. */
  lemma WriteComposition(c: Controller, p: Plan, payload: Option<seq<bv8>>)
    ensures LoadLut(Run(Fill(Program(c, p), payload)), c.lut) == AfterWrite(c, p, payload)
  {
  }

  lemma FillWritesTouch(payload: Option<seq<bv8>>)
    ensures Touches(FillWrites(payload), PrgWriteFifo) <==> payload.Some?
    ensures Write32(Intr, IntWriteFifoEmpty) in FillWrites(payload) <==> payload.Some?
    ensures Write32(Intr, IntReadFifoFull) !in FillWrites(payload)
  {
  }

  /** A write transaction fills the TX FIFO, and acknowledges the fill, exactly when it has a
      payload, and ends by putting the saved sequence back. */
  lemma WriteWritesTouch(p: Plan, payload: Option<seq<bv8>>, saved: seq<bv8>)
    ensures Touches(WriteWrites(p, payload, saved), PrgWriteFifo) <==> payload.Some?
    ensures Write32(Intr, IntWriteFifoEmpty) in WriteWrites(p, payload, saved) <==> payload.Some?
    ensures WriteWrites(p, payload, saved)[|WriteWrites(p, payload, saved)| - 1]
      == WriteBlock(LutBase, saved)
  {
  }

  /** A write is one transaction running the planned slot. */
  lemma AfterWriteFacts(c: Controller, p: Plan, payload: Option<seq<bv8>>)
    ensures var r := AfterWrite(c, p, payload);
      && OneTransaction(c, r, p.slot)
      && Added(c, r) == WriteWrites(p, payload, c.lut)
  {
  }

  /** The TX FIFO payload of a write of `length` bytes from `buffer`: none for an empty write. */
  function PayloadFor(buffer: seq<bv8>, length: nat): (o: Option<seq<bv8>>)
    requires length <= |buffer| && length <= FifoBytes
    ensures o.Some? <==> length != 0
  {
    if length != 0 then Some(Padded(buffer, length)) else None
  }

  /**
   A write transaction of `length` bytes from `buffer`. The TX FIFO is filled, and its fill
   signalled, only when there is data to send.
   */
  method SpiWrite(d: Driver, command: bv32, address: bv32, buffer: seq<bv8>, length: nat,
                  resp: Response)
    returns (r: Driver)
    requires length <= FifoBytes && length <= |buffer| && Completes(resp.polls)
    ensures r.ctrl == AfterWrite(d.ctrl, PlanFor(command, d.ctrl.ctrl1, address, length),
                                 PayloadFor(buffer, length))
    ensures r.priv == d.priv.(lutSeq := d.ctrl.lut)
  {
    ghost var payload := PayloadFor(buffer, length);
    var cfg := ConfigureSequence(d, command, address, length);
    var c := cfg.ctrl;
    if length != 0 {
      c := FillTxFifo(c, Padded(buffer, length));
      c := ClearInterrupts(c, IntWriteFifoEmpty);
    }
    assert c == Fill(cfg.ctrl, payload);
    var doneAt;
    c, doneAt := WaitComplete(c, resp.polls);
    r := Restore(Driver(c, cfg.priv));
    WriteComposition(d.ctrl, PlanFor(command, d.ctrl.ctrl1, address, length), payload);
  }

  /** Reads the flash status register: the first byte the read FIFO returns. */
  method ReadStatusRegister(d: Driver, resp: Response) returns (r: Driver, status: bv8)
    requires WellFormed(resp)
    ensures status == resp.rx[0]
    ensures r.ctrl == AfterRead(d.ctrl, PlanFor(ReadStatus, d.ctrl.ctrl1, 0, 1))
    ensures OneTransaction(d.ctrl, r.ctrl, SlotFor(ReadStatus, d.ctrl.ctrl1, 1))
    ensures r.priv == d.priv.(lutSeq := d.ctrl.lut)
  {
    var data;
    r, data := SpiRead(d, ReadStatus, 0, 1, resp);
    status := data[0];
    AfterReadFacts(d.ctrl, PlanFor(ReadStatus, d.ctrl.ctrl1, 0, 1));
  }

  /** Issues a command that has no data phase: nothing goes through the TX FIFO. */
  method RunCommand(d: Driver, command: bv32, resp: Response) returns (r: Driver)
    requires Completes(resp.polls)
    ensures r.ctrl == AfterWrite(d.ctrl, PlanFor(command, d.ctrl.ctrl1, 0, 0), None)
    ensures OneTransaction(d.ctrl, r.ctrl, SlotFor(command, d.ctrl.ctrl1, 0))
    ensures r.ctrl.txFifo == d.ctrl.txFifo && !Touches(Added(d.ctrl, r.ctrl), PrgWriteFifo)
    ensures r.priv == d.priv.(lutSeq := d.ctrl.lut)
  {
    r := SpiWrite(d, command, 0, [], 0, resp);
    var p := PlanFor(command, d.ctrl.ctrl1, 0, 0);
    AfterWriteFacts(d.ctrl, p, None);
    WriteWritesTouch(p, None, d.ctrl.lut);
  }

  /**
   The read callback handed to the SFDP parser: Read SFDP at `address`. The sequence that runs
   has a row address of `24 - CAS` bits, a column address when CAS is non-zero, 8 dummy cycles
   and, for a non-empty read, a read phase.
   */
  method SpiReadSfdp(d: Driver, address: bv32, length: nat, resp: Response)
    returns (r: Driver, data: seq<bv8>)
    requires length <= FifoBytes && WellFormed(resp)
    ensures data == resp.rx[..length]
    ensures OneTransaction(d.ctrl, r.ctrl, SlotFor(ReadSfdp, d.ctrl.ctrl1, length))
    ensures r.ctrl.prgCtrl0 == address
    ensures Parse(Insns(SlotFor(ReadSfdp, d.ctrl.ctrl1, length))) == Some(Phases(
      0x5a,
      if Cas(d.ctrl.ctrl1) == 0 then Row(24)
      else RowColumn(24 - Cas(d.ctrl.ctrl1), Cas(d.ctrl.ctrl1)),
      8,
      if length == 0 then NoData else ReadData))
  {
    r, data := SpiRead(d, ReadSfdp, address, length, resp);
    var cas := ColumnBits(ReadSfdp, d.ctrl.ctrl1);
    AfterReadFacts(d.ctrl, PlanFor(ReadSfdp, d.ctrl.ctrl1, address, length));
    InsnsOfBytes(BuildSequence(ReadSfdp, cas, length));
    ParseBuild(ReadSfdp, cas, length);
    FixedCommands();
  }
}
