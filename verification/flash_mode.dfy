/**
 The driver-private state and the flash-mode bracket. Entering flash mode saves MOD_CTRL0 and
 LUT_CTRL, takes the controller out of suspend, clears pending interrupts, sets both FIFO
 watermarks to the whole FIFO and unlocks the LUT; leaving it puts the saved lock state and
 module state back, in the opposite order.
 */
module FlashMode {
  import opened BootSource
  import opened Registers

  /** The driver's private storage: boot source, the saved MOD_CTRL0 and LUT_CTRL values, and
      the saved 16 bytes of LUT sequence 0. */
  datatype Priv = Priv(bootSource: BootSource, moduleState: bv32, lutState: bv32, lutSeq: seq<bv8>)

  /** A controller together with the private state of the driver that owns it. */
  datatype Driver = Driver(ctrl: Controller, priv: Priv)

  /** The value both FIFO control registers receive on entry. */
  const FullFifoCtrl: bv32 := Watermark(FifoBytes as bv32) | FifoCtrlClear

  /** Step one of entry: clear MOD_CTRL0's suspend bit, writing the register only if it was set. */
  function Resume(c: Controller): (r: Controller)
    ensures r.modCtrl0 == c.modCtrl0 & !ModCtrl0Suspend
    ensures r.writes == c.writes
      + (if (c.modCtrl0 & ModCtrl0Suspend) != 0 then [Write32(ModCtrl0, r.modCtrl0)] else [])
    ensures r == c.(modCtrl0 := r.modCtrl0, writes := r.writes)
  {
    if (c.modCtrl0 & ModCtrl0Suspend) != 0 then
      Store(c, Write32(ModCtrl0, c.modCtrl0 & !ModCtrl0Suspend))
    else c
  }

  /** Step two: clear the pending interrupts and give both FIFOs their full watermark. */
  function ResetFifos(c: Controller, pending: bv32): (r: Controller)
    ensures r.writes == c.writes
      + [Write32(Intr, pending), Write32(PrgReadFifoCtrl, FullFifoCtrl),
         Write32(PrgWriteFifoCtrl, FullFifoCtrl)]
    ensures r == c.(readFifoCtrl := FullFifoCtrl, writeFifoCtrl := FullFifoCtrl, writes := r.writes)
  {
    var c1 := Store(c, Write32(Intr, pending));
    var c2 := Store(c1, Write32(PrgReadFifoCtrl, FullFifoCtrl));
    Store(c2, Write32(PrgWriteFifoCtrl, FullFifoCtrl))
  }

  /** Step three: unlock the LUT with the key, unless it is already unlocked. */
  function Unlock(c: Controller): (r: Controller)
    ensures r.lutCtrl == LutCtrlUnlock
    ensures r.writes == c.writes
      + (if c.lutCtrl != LutCtrlUnlock
         then [Write32(LutKey, LutKeyValue), Write32(LutCtrl, LutCtrlUnlock)]
         else [])
    ensures r == c.(lutKey := r.lutKey, lutCtrl := r.lutCtrl, writes := r.writes)
    ensures r.lutKey == (if c.lutCtrl != LutCtrlUnlock then LutKeyValue else c.lutKey)
  {
    if c.lutCtrl != LutCtrlUnlock then
      Store(Store(c, Write32(LutKey, LutKeyValue)), Write32(LutCtrl, LutCtrlUnlock))
    else c
  }

  /** The writes entry issues, in order. */
  function EntryWrites(c: Controller, pending: bv32): seq<Write> {
    (if (c.modCtrl0 & ModCtrl0Suspend) != 0
     then [Write32(ModCtrl0, c.modCtrl0 & !ModCtrl0Suspend)]
     else [])
    + [Write32(Intr, pending), Write32(PrgReadFifoCtrl, FullFifoCtrl),
       Write32(PrgWriteFifoCtrl, FullFifoCtrl)]
    + (if c.lutCtrl != LutCtrlUnlock
       then [Write32(LutKey, LutKeyValue), Write32(LutCtrl, LutCtrlUnlock)]
       else [])
  }

  lemma EntryWritesTouch(c: Controller, pending: bv32)
    ensures Touches(EntryWrites(c, pending), ModCtrl0) <==> (c.modCtrl0 & ModCtrl0Suspend) != 0
    ensures Touches(EntryWrites(c, pending), LutCtrl) <==> c.lutCtrl != LutCtrlUnlock
    ensures Write32(Intr, pending) in EntryWrites(c, pending)
  {
  }

  /** The controller after entry. */
  function Entered(c: Controller, pending: bv32): (r: Controller)
    ensures r == c.(
      modCtrl0 := c.modCtrl0 & !ModCtrl0Suspend,
      lutKey := if c.lutCtrl != LutCtrlUnlock then LutKeyValue else c.lutKey,
      lutCtrl := LutCtrlUnlock,
      readFifoCtrl := FullFifoCtrl,
      writeFifoCtrl := FullFifoCtrl,
      writes := c.writes + EntryWrites(c, pending))
  {
    Unlock(ResetFifos(Resume(c), pending))
  }

  /** `pending` is the value the driver reads from the interrupt register and writes back to
      clear it. */
  function EnterFlashMode(d: Driver, pending: bv32): (r: Driver)
    ensures Extends(d.ctrl, r.ctrl)
    ensures r.priv == d.priv.(moduleState := d.ctrl.modCtrl0, lutState := d.ctrl.lutCtrl)
    ensures r.ctrl.modCtrl0 == d.ctrl.modCtrl0 & !ModCtrl0Suspend
    ensures Touches(Added(d.ctrl, r.ctrl), ModCtrl0) <==> (d.ctrl.modCtrl0 & ModCtrl0Suspend) != 0
    ensures Write32(Intr, pending) in Added(d.ctrl, r.ctrl)
    ensures r.ctrl.readFifoCtrl == FullFifoCtrl && r.ctrl.writeFifoCtrl == FullFifoCtrl
    ensures r.ctrl.lutCtrl == LutCtrlUnlock
    ensures Touches(Added(d.ctrl, r.ctrl), LutCtrl) <==> d.ctrl.lutCtrl != LutCtrlUnlock
    ensures r.ctrl.lutKey
      == (if d.ctrl.lutCtrl != LutCtrlUnlock then LutKeyValue else d.ctrl.lutKey)
    ensures SequencerUnchanged(d.ctrl, r.ctrl)
  {
    var c3 := Entered(d.ctrl, pending);
    AddedIs(d.ctrl, c3, EntryWrites(d.ctrl, pending));
    EntryWritesTouch(d.ctrl, pending);
    Driver(c3, d.priv.(moduleState := d.ctrl.modCtrl0, lutState := d.ctrl.lutCtrl))
  }

  /** The writes exit issues, in order: the saved lock state (keyed) unless it was unlocked,
      then the saved module state. */
  function ExitWrites(priv: Priv): seq<Write> {
    (if priv.lutState != LutCtrlUnlock
     then [Write32(LutKey, LutKeyValue), Write32(LutCtrl, priv.lutState)]
     else [])
    + [Write32(ModCtrl0, priv.moduleState)]
  }

  lemma ExitWritesTouch(priv: Priv)
    ensures Touches(ExitWrites(priv), LutCtrl) <==> priv.lutState != LutCtrlUnlock
  {
  }

  /** The controller after exit. */
  function Exited(c: Controller, priv: Priv): (r: Controller)
    ensures r == c.(
      modCtrl0 := priv.moduleState,
      lutKey := if priv.lutState != LutCtrlUnlock then LutKeyValue else c.lutKey,
      lutCtrl := if priv.lutState != LutCtrlUnlock then priv.lutState else c.lutCtrl,
      writes := c.writes + ExitWrites(priv))
  {
    var c1 :=
      if priv.lutState != LutCtrlUnlock then
        Store(Store(c, Write32(LutKey, LutKeyValue)), Write32(LutCtrl, priv.lutState))
      else c;
    Store(c1, Write32(ModCtrl0, priv.moduleState))
  }

  function ExitFlashMode(d: Driver): (r: Driver)
    ensures Extends(d.ctrl, r.ctrl)
    ensures r.priv == d.priv
    ensures r.ctrl.modCtrl0 == d.priv.moduleState
    ensures r.ctrl.lutCtrl
      == (if d.priv.lutState != LutCtrlUnlock then d.priv.lutState else d.ctrl.lutCtrl)
    ensures Touches(Added(d.ctrl, r.ctrl), LutCtrl) <==> d.priv.lutState != LutCtrlUnlock
    ensures r.ctrl.lutKey
      == (if d.priv.lutState != LutCtrlUnlock then LutKeyValue else d.ctrl.lutKey)
    ensures r.ctrl.readFifoCtrl == d.ctrl.readFifoCtrl
    ensures r.ctrl.writeFifoCtrl == d.ctrl.writeFifoCtrl
    ensures SequencerUnchanged(d.ctrl, r.ctrl)
  {
    var c := Exited(d.ctrl, d.priv);
    AddedIs(d.ctrl, c, ExitWrites(d.priv));
    ExitWritesTouch(d.priv);
    Driver(c, d.priv)
  }

  /** What an operation between entry and exit must leave alone: the LUT_CTRL value entry set
      and the saved state. */
  predicate Bracketed(entered: Driver, mid: Driver) {
    && mid.ctrl.lutCtrl == entered.ctrl.lutCtrl
    && mid.priv.moduleState == entered.priv.moduleState
    && mid.priv.lutState == entered.priv.lutState
  }

  /** Entry followed, after any bracketed operation, by exit restores MOD_CTRL0 and LUT_CTRL to
      their values before entry, whatever the operation in between did otherwise. */
  lemma FlashModeRoundTrip(d: Driver, pending: bv32, mid: Driver)
    requires Bracketed(EnterFlashMode(d, pending), mid)
    ensures ExitFlashMode(mid).ctrl.modCtrl0 == d.ctrl.modCtrl0
    ensures ExitFlashMode(mid).ctrl.lutCtrl == d.ctrl.lutCtrl
  {
  }

  /** With nothing in between, the bracket changes no sequencer state either. */
  lemma EnterExitLeavesSequencer(d: Driver, pending: bv32)
    ensures var r := ExitFlashMode(EnterFlashMode(d, pending));
      && r.ctrl.modCtrl0 == d.ctrl.modCtrl0
      && r.ctrl.lutCtrl == d.ctrl.lutCtrl
      && SequencerUnchanged(d.ctrl, r.ctrl)
  {
  }
}
