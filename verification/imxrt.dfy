/**
 The i.MX RT10xx target driver proper: chip erase through the FlexSPI sequencer, flash
 registration from the JEDEC ID and the SFDP parameters, and the probe that recognises the part.

 The debug-probe side of the target (its RAM and flash maps and the hooks it installs) is the
 `Target` record; the hardware's answers are inputs: `Response`s for sequencer transactions, the
 SRC boot-configuration word, the interrupt-register value read on flash-mode entry, whether each
 allocation succeeds, and the SFDP parser's outcome.
 */
module Imxrt {
  import opened Option
  import opened BootSource
  import opened SpiCommand
  import opened Registers
  import opened FlashMode
  import opened Sequencer
  import Lut

  /** `n` copies of `x`. */
  function Repeat<T>(x: T, n: nat): (s: seq<T>)
    ensures |s| == n && forall i :: 0 <= i < n ==> s[i] == x
  {
    if n == 0 then [] else Repeat(x, n - 1) + [x]
  }

  /** `x` repeated `n + 1` times is `x` repeated `n` times followed by `x`. */
  lemma RepeatSnoc<T>(x: T, n: nat)
    ensures Repeat(x, n + 1) == Repeat(x, n) + [x]
  {
  }

  /**
   The LUT sequences mass erase runs, byte for byte: COMMAND with the flash opcode, DUMMY with no
   cycles, and for the status read a READ instruction; STOP fills the rest.
   */
  const WriteEnableSlot: seq<bv8> := [0x06, 0x04, 0x00, 0x30, 0, 0, 0, 0, 0, 0, 0, 0, 0, 0, 0, 0]
  const StatusSlot: seq<bv8> := [0x05, 0x04, 0x00, 0x30, 0x00, 0x24, 0, 0, 0, 0, 0, 0, 0, 0, 0, 0]
  const ChipEraseSlot: seq<bv8> := [0x60, 0x04, 0x00, 0x30, 0, 0, 0, 0, 0, 0, 0, 0, 0, 0, 0, 0]
  /** The sequence probing runs to read the three JEDEC ID bytes. */
  const JedecIdSlot: seq<bv8> := [0x9f, 0x04, 0x00, 0x30, 0x00, 0x24, 0, 0, 0, 0, 0, 0, 0, 0, 0, 0]

  /** What the sequence builder makes of the three opcode-only commands, whatever CTRL1 holds. */
  lemma SlotsAre(ctrl1: bv32)
    ensures SlotFor(WriteEnable, ctrl1, 0) == WriteEnableSlot
    ensures SlotFor(ReadStatus, ctrl1, 1) == StatusSlot
    ensures SlotFor(ChipErase, ctrl1, 0) == ChipEraseSlot
  {
    WriteEnableSlotIs(ctrl1);
    StatusSlotIs(ctrl1);
    ChipEraseSlotIs(ctrl1);
  }

  lemma WriteEnableSlotIs(ctrl1: bv32)
    ensures SlotFor(WriteEnable, ctrl1, 0) == WriteEnableSlot
  {
    SlotIs(WriteEnable, ctrl1, 0, WriteEnableSlot);
  }

  lemma StatusSlotIs(ctrl1: bv32)
    ensures SlotFor(ReadStatus, ctrl1, 1) == StatusSlot
  {
    SlotIs(ReadStatus, ctrl1, 1, StatusSlot);
  }

  lemma ChipEraseSlotIs(ctrl1: bv32)
    ensures SlotFor(ChipErase, ctrl1, 0) == ChipEraseSlot
  {
    SlotIs(ChipErase, ctrl1, 0, ChipEraseSlot);
  }

  lemma JedecIdSlotIs(ctrl1: bv32)
    ensures SlotFor(ReadJedecId, ctrl1, 3) == JedecIdSlot
  {
    SlotIs(ReadJedecId, ctrl1, 3, JedecIdSlot);
  }

  lemma SlotIs(command: bv32, ctrl1: bv32, length: nat, bytes: seq<bv8>)
    requires !HasAddress(command) && |bytes| == 16
    requires forall i :: 0 <= i < 8 ==>
      bytes[2 * i] == Lut.BuildSequence(command, 0, length)[i].value
    requires forall i :: 0 <= i < 8 ==>
      bytes[2 * i + 1] == Lut.BuildSequence(command, 0, length)[i].opcodeMode
    ensures SlotFor(command, ctrl1, length) == bytes
  {
    var s := Lut.BuildSequence(command, 0, length);
    forall j | 0 <= j < 16
      ensures Lut.Bytes(s)[j] == bytes[j]
    {
      Lut.BytesLayout(s, j / 2);
    }
  }

  /** The write-enable check on the status byte read after Write Enable. */
  function WriteEnabled(status: bv8): (enabled: bool)
    ensures enabled <==> (status >> 1) % 2 == 1
  {
    (status & StatusWriteEnabled) != 0
  }

  /** The busy check on a status byte read while the erase runs. */
  function Busy(status: bv8): (busy: bool)
    ensures busy <==> status % 2 == 1
  {
    (status & StatusBusy) != 0
  }

  /** The first status byte a response carries. */
  function StatusOf(r: Response): bv8
    requires WellFormed(r)
  {
    r.rx[0]
  }

  /**
   `b` is `a` after transactions that ran the LUT sequences `slots`, in order: the LUT is back as
   it was, the mode, lock and FIFO-control registers are untouched, and the flash-mode state
   saved on entry is kept.
   */
  predicate Ran(a: Driver, b: Driver, slots: seq<seq<bv8>>) {
    && b.ctrl.lut == a.ctrl.lut
    && b.ctrl.ran == a.ctrl.ran + slots
    && ModeRegsUnchanged(a.ctrl, b.ctrl)
    && b.priv.moduleState == a.priv.moduleState
    && b.priv.lutState == a.priv.lutState
  }

  lemma RanTrans(a: Driver, b: Driver, c: Driver, s1: seq<seq<bv8>>, s2: seq<seq<bv8>>)
    requires Ran(a, b, s1) && Ran(b, c, s2)
    ensures Ran(a, c, s1 + s2)
  {
  }

  lemma TransactionRan(a: Driver, b: Driver, slot: seq<bv8>)
    requires OneTransaction(a.ctrl, b.ctrl, slot) && b.priv == a.priv.(lutSeq := a.ctrl.lut)
    ensures Ran(a, b, [slot])
  {
  }

  /**
   Transactions run inside the flash-mode bracket: after exit, MOD_CTRL0, LUT_CTRL and the LUT
   are as they were before entry, and the controller ran exactly the transactions' sequences.
   */
  lemma Bracket(d: Driver, pending: bv32, mid: Driver, slots: seq<seq<bv8>>)
    requires Ran(EnterFlashMode(d, pending), mid, slots)
    ensures var r := ExitFlashMode(mid);
      && r.ctrl.modCtrl0 == d.ctrl.modCtrl0 && r.ctrl.lutCtrl == d.ctrl.lutCtrl
      && r.ctrl.lut == d.ctrl.lut
      && r.ctrl.ran == d.ctrl.ran + slots
  {
    FlashModeRoundTrip(d, pending, mid);
  }

  /** Reads the status register. */
  method Status(d: Driver, resp: Response) returns (r: Driver, status: bv8)
    requires WellFormed(resp)
    ensures status == StatusOf(resp)
    ensures Ran(d, r, [StatusSlot])
  {
    r, status := ReadStatusRegister(d, resp);
    SlotsAre(d.ctrl.ctrl1);
    TransactionRan(d, r, StatusSlot);
  }

  /** Sends Write Enable or Chip Erase. */
  method Command(d: Driver, command: bv32, resp: Response) returns (r: Driver)
    requires Completes(resp.polls) && (command == WriteEnable || command == ChipErase)
    ensures Ran(d, r, [if command == WriteEnable then WriteEnableSlot else ChipEraseSlot])
  {
    r := RunCommand(d, command, resp);
    SlotsAre(d.ctrl.ctrl1);
    TransactionRan(d, r, SlotFor(command, d.ctrl.ctrl1, 0));
  }

  /** Every response from `from` on completes, and one of them reports the flash not busy. */
  predicate PollResponses(responses: seq<Response>, from: nat) {
    && (forall i :: from <= i < |responses| ==> WellFormed(responses[i]))
    && exists j :: from <= j < |responses| && !Busy(StatusOf(responses[j]))
  }

  /** The index of the first response from `from` on that reports the flash not busy. */
  function FirstReady(responses: seq<Response>, from: nat): (k: nat)
    requires PollResponses(responses, from)
    ensures from <= k < |responses| && !Busy(StatusOf(responses[k]))
    ensures forall j :: from <= j < k ==> Busy(StatusOf(responses[j]))
    decreases |responses| - from
  {
    if !Busy(StatusOf(responses[from])) then from else FirstReady(responses, from + 1)
  }

  /**
   The erase poll: reads the status register, one response after another from `from` on, until
   the busy bit is clear. `next` is the index after the response that reported ready.
   */
  method WaitReady(d: Driver, responses: seq<Response>, from: nat) returns (r: Driver, next: nat)
    requires PollResponses(responses, from)
    ensures next == FirstReady(responses, from) + 1
    ensures Ran(d, r, Repeat(StatusSlot, next - from))
  {
    ghost var k := FirstReady(responses, from);
    var i := from;
    var status;
    r, status := Status(d, responses[i]);
    while Busy(status)
      invariant from <= i <= k
      invariant status == StatusOf(responses[i])
      invariant Ran(d, r, Repeat(StatusSlot, i + 1 - from))
      decreases k - i
    {
      i := i + 1;
      var r';
      r', status := Status(r, responses[i]);
      RanTrans(d, r, r', Repeat(StatusSlot, i - from), [StatusSlot]);
      RepeatSnoc(StatusSlot, i - from);
      r := r';
    }
    next := i + 1;
  }

  /**
   What mass erase asks of the hardware: every transaction completes; and, if the write-enable
   check passes, some status read after Chip Erase (the fourth transaction on) reports not busy.
   */
  predicate EraseResponses(responses: seq<Response>) {
    && |responses| >= 2
    && (forall i :: 0 <= i < |responses| ==> WellFormed(responses[i]))
    && (WriteEnabled(StatusOf(responses[1])) ==> PollResponses(responses, 3))
  }

  /** The sequences an erase that ran `used` transactions ran: Write Enable and a status read;
      then, if the erase went ahead, Chip Erase and the remaining status reads. */
  function EraseTrace(ok: bool, used: nat): seq<seq<bv8>> {
    if ok && used >= 3 then
      [WriteEnableSlot, StatusSlot, ChipEraseSlot] + Repeat(StatusSlot, used - 3)
    else [WriteEnableSlot, StatusSlot]
  }

  /**
   The transactions of chip erase, run with flash mode already entered: Write Enable, then a
   status read; if the write-enable latch is set, Chip Erase and the busy poll follow.
   */
  method EraseSteps(d: Driver, responses: seq<Response>) returns (r: Driver, ok: bool, used: nat)
    requires EraseResponses(responses)
    ensures ok <==> WriteEnabled(StatusOf(responses[1]))
    ensures !ok ==> used == 2
    ensures ok ==> used == FirstReady(responses, 3) + 1
    ensures Ran(d, r, EraseTrace(ok, used))
  {
    var d1 := Command(d, WriteEnable, responses[0]);
    var d2, status := Status(d1, responses[1]);
    RanTrans(d, d1, d2, [WriteEnableSlot], [StatusSlot]);
    assert [WriteEnableSlot] + [StatusSlot] == EraseTrace(false, 2);
    if !WriteEnabled(status) {
      return d2, false, 2;
    }
    var d3 := Command(d2, ChipErase, responses[2]);
    RanTrans(d, d2, d3, EraseTrace(false, 2), [ChipEraseSlot]);
    r, used := WaitReady(d3, responses, 3);
    RanTrans(d, d3, r, EraseTrace(false, 2) + [ChipEraseSlot], Repeat(StatusSlot, used - 3));
    assert EraseTrace(false, 2) + [ChipEraseSlot] + Repeat(StatusSlot, used - 3)
      == EraseTrace(true, used);
    ok := true;
  }

  /**
   Chip erase. Enters flash mode, sends Write Enable and reads the status register. If the
   write-enable latch is not set it leaves flash mode and fails without sending Chip Erase.
   Otherwise it sends Chip Erase, reads the status register until the busy bit clears, and leaves
   flash mode. `used` is the number of transactions the erase ran.
   */
  method MassErase(d: Driver, pending: bv32, responses: seq<Response>)
    returns (r: Driver, ok: bool, used: nat)
    requires EraseResponses(responses)
    ensures ok <==> WriteEnabled(StatusOf(responses[1]))
    ensures !ok ==> used == 2
    ensures ok ==> used == FirstReady(responses, 3) + 1
    ensures r.ctrl.ran == d.ctrl.ran + EraseTrace(ok, used)
    ensures r.ctrl.modCtrl0 == d.ctrl.modCtrl0 && r.ctrl.lutCtrl == d.ctrl.lutCtrl
    ensures r.ctrl.lut == d.ctrl.lut
  {
    var entered := EnterFlashMode(d, pending);
    var mid;
    mid, ok, used := EraseSteps(entered, responses);
    Bracket(d, pending, mid, EraseTrace(ok, used));
    r := ExitFlashMode(mid);
  }

  /** Chip Erase is sent exactly when the erase goes ahead, and then only as the third
      transaction. */
  lemma ChipEraseOnlyWhenEnabled(ok: bool, used: nat, i: nat)
    requires i < |EraseTrace(ok, used)|
    ensures EraseTrace(ok, used)[i] == ChipEraseSlot <==> ok && used >= 3 && i == 2
  {
  }

  /** Flash size from the JEDEC capacity code: `1 << code` bytes. The shift is only defined for
      codes below 32. */
  function Capacity(code: bv8): (bytes: bv32)
    requires code < 32
    ensures bytes != 0 && (bytes & (bytes - 1)) == 0
    ensures (bytes >> code) == 1
  {
    (1 as bv32) << code
  }

  /** Each step of the code doubles the size. */
  lemma CapacityDoubles(code: bv8)
    requires code < 31
    ensures Capacity(code + 1) == Capacity(code) * 2
  {
  }

  lemma CapacityExamples()
    ensures Capacity(0) == 1
    ensures Capacity(0x14) == 0x0010_0000
    ensures Capacity(0x18) == 0x0100_0000
  {
  }

  /** The parameters the SFDP parser reports. */
  datatype SpiParameters =
    SpiParameters(pageSize: bv32, sectorSize: bv32, capacity: bv32, sectorEraseOpcode: bv8)

  const DefaultPageSize: bv32 := 256
  const DefaultSectorSize: bv32 := 4096

  /** The parameters the driver uses: the parser's, or fixed defaults with the JEDEC size when
      SFDP readout fails. */
  function Geometry(sfdp: Option<SpiParameters>, length: bv32): (p: SpiParameters)
    ensures sfdp.Some? ==> p == sfdp.value
    ensures sfdp.None? ==> p.pageSize == 256 && p.sectorSize == 4096 && p.capacity == length
    ensures sfdp.None? ==> p.sectorEraseOpcode == 0x20
  {
    match sfdp
    case Some(params) => params
    case None => SpiParameters(DefaultPageSize, DefaultSectorSize, length, SectorEraseOpcode)
  }

  /** Where the FlexSPI flash is memory-mapped. */
  const FlexspiMemoryBase: bv32 := 0x6000_0000
  const ErasedValue: bv8 := 0xff

  datatype FlashRegion = FlashRegion(start: bv32, length: bv32, blocksize: bv32, erased: bv8)
  datatype RamRegion = RamRegion(start: bv32, length: bv32)

  const Ocram1: RamRegion := RamRegion(0x2028_0000, 0x0008_0000)
  const Ocram2: RamRegion := RamRegion(0x2020_0000, 0x0008_0000)

  /** The target hooks the driver installs. */
  datatype Hook = MassEraseHook | EnterFlashModeHook | ExitFlashModeHook

  const FlashHooks: set<Hook> := {MassEraseHook, EnterFlashModeHook, ExitFlashModeHook}

  /** What the debug probe knows about the target. */
  datatype Target = Target(
    partId: bv16,
    ram: seq<RamRegion>,
    flash: seq<FlashRegion>,
    hooks: set<Hook>,
    storage: Option<Priv>,
    ctrl: Controller)

  const ImxrtPartId: bv16 := 0x088c

  /** The flash region registered for a flash of `length` bytes, given the SFDP outcome. */
  function RegionFor(sfdp: Option<SpiParameters>, length: bv32): (f: FlashRegion)
    ensures f.start == FlexspiMemoryBase && f.erased == ErasedValue
    ensures f.length == (if sfdp.Some? then sfdp.value.capacity else length)
    ensures f.blocksize == (if sfdp.Some? then sfdp.value.sectorSize else DefaultSectorSize)
  {
    var params := Geometry(sfdp, length);
    FlashRegion(FlexspiMemoryBase, params.capacity, params.sectorSize, ErasedValue)
  }

  /**
   Registers the flash behind FlexSPI. `obtained` says whether the region could be allocated;
   if not, nothing is added. The SFDP parser's traffic through `SpiReadSfdp` is not modelled.
   */
  function AddFlash(t: Target, length: bv32, obtained: bool, sfdp: Option<SpiParameters>)
    : (r: Target)
    ensures r.flash == (if obtained then t.flash + [RegionFor(sfdp, length)] else t.flash)
    ensures r == t.(flash := r.flash)
  {
    if !obtained then t else t.(flash := t.flash + [RegionFor(sfdp, length)])
  }

  /** The three JEDEC ID bytes (manufacturer, type, capacity code) identify a flash only when
      none of them reads back as 0xff. */
  function ValidId(id: seq<bv8>): (valid: bool)
    requires |id| == 3
    ensures valid <==> 0xff !in id
  {
    id[0] != 0xff && id[1] != 0xff && id[2] != 0xff
  }

  /** The private storage as allocated (zeroed) and given its boot source. */
  function FreshPriv(bootCfg: bv32): (p: Priv)
    ensures p.bootSource == Classify(bootCfg)
    ensures p.moduleState == 0 && p.lutState == 0
    ensures |p.lutSeq| == SequenceBytes && forall i | 0 <= i < |p.lutSeq| :: p.lutSeq[i] == 0
  {
    Priv(Classify(bootCfg), 0, 0, seq(SequenceBytes, _ => 0))
  }

  /**
   What probing needs of the hardware: the JEDEC ID read completes, and when it would be used to
   size the flash its capacity code is below 32.
   */
  predicate ProbeInputs(t: Target, bootCfg: bv32, idResp: Response) {
    && WellFormed(idResp)
    && (t.partId == ImxrtPartId && IsSpiFlash(Classify(bootCfg)) && ValidId(idResp.rx[..3])
        ==> idResp.rx[2] < 32)
  }

  /**
   Reads the JEDEC ID inside a flash-mode bracket: one transaction, after which MOD_CTRL0,
   LUT_CTRL and the LUT are as they were.
   */
  method ReadId(d: Driver, pending: bv32, idResp: Response) returns (r: Driver, id: seq<bv8>)
    requires WellFormed(idResp)
    ensures id == idResp.rx[..3]
    ensures r.ctrl.ran == d.ctrl.ran + [JedecIdSlot]
    ensures r.ctrl.modCtrl0 == d.ctrl.modCtrl0 && r.ctrl.lutCtrl == d.ctrl.lutCtrl
    ensures r.ctrl.lut == d.ctrl.lut
    ensures r.priv.bootSource == d.priv.bootSource
  {
    var entered := EnterFlashMode(d, pending);
    var mid;
    mid, id := SpiRead(entered, ReadJedecId, 0, 3, idResp);
    AfterReadFacts(entered.ctrl, PlanFor(ReadJedecId, entered.ctrl.ctrl1, 0, 3));
    JedecIdSlotIs(entered.ctrl.ctrl1);
    TransactionRan(entered, mid, JedecIdSlot);
    Bracket(d, pending, mid, [JedecIdSlot]);
    r := ExitFlashMode(mid);
  }

  /**
   Recognises the part by its part number, allocates the driver's storage, classifies the boot
   source, adds both OCRAM banks, and, when booting from SPI flash, reads the JEDEC ID inside a
   flash-mode bracket, installs the flash hooks and registers the flash if the ID is valid.
   */
  method Probe(t: Target, privAllocated: bool, bootCfg: bv32, pending: bv32, idResp: Response,
               flashAllocated: bool, sfdp: Option<SpiParameters>)
    returns (r: Target, ok: bool)
    requires ProbeInputs(t, bootCfg, idResp)
    ensures ok <==> t.partId == ImxrtPartId && privAllocated
    ensures !ok ==> r == t
    ensures ok ==> r.partId == t.partId && r.ram == t.ram + [Ocram1, Ocram2]
    ensures ok ==> r.storage.Some? && r.storage.value.bootSource == Classify(bootCfg)
    ensures ok ==>
      r.hooks == (if IsSpiFlash(Classify(bootCfg)) then t.hooks + FlashHooks else t.hooks)
    ensures ok && !IsSpiFlash(Classify(bootCfg)) ==> r.ctrl == t.ctrl && r.flash == t.flash
    ensures ok && IsSpiFlash(Classify(bootCfg)) ==>
      r.ctrl.ran == t.ctrl.ran + [JedecIdSlot]
      && r.flash == (if ValidId(idResp.rx[..3]) && flashAllocated
                     then t.flash + [RegionFor(sfdp, Capacity(idResp.rx[2]))]
                     else t.flash)
    ensures r.ctrl.modCtrl0 == t.ctrl.modCtrl0 && r.ctrl.lutCtrl == t.ctrl.lutCtrl
      && r.ctrl.lut == t.ctrl.lut
  {
    if t.partId != ImxrtPartId || !privAllocated {
      return t, false;
    }
    var priv := FreshPriv(bootCfg);
    r := t.(storage := Some(priv), ram := t.ram + [Ocram1, Ocram2]);
    if IsSpiFlash(priv.bootSource) {
      var d, id := ReadId(Driver(r.ctrl, priv), pending, idResp);
      r := r.(hooks := r.hooks + FlashHooks);
      if id[0] != 0xff && id[1] != 0xff && id[2] != 0xff {
        r := AddFlash(r, Capacity(id[2]), flashAllocated, sfdp);
      }
      r := r.(ctrl := d.ctrl, storage := Some(d.priv));
    }
    ok := true;
  }
}
