# i.MX RT10xx FlexSPI flash driver

A Dafny model of the i.MX RT10xx target driver of a debug probe (`src/target/imxrt.c`). The
driver recognises the part, decides from the boot-configuration word where the part boots from,
and, when it boots from SPI flash, reaches the flash through the FlexSPI controller's
IP-command sequencer. For each SPI flash command it builds a LUT sequence, runs it, moves the
data through the FIFOs and puts the firmware's sequence back. Around that it has a flash-mode
bracket that wakes and unlocks the controller and restores it afterwards. On top sit chip erase
and the flash registration from the JEDEC ID and the SFDP parameters.

Modules, one per file:

- `BootSource` (`boot_source.dfy`) is the boot-source cascade, checked against an independent
  16-row decode table.
- `SpiCommand` (`spi_command.dfy`) is the 32-bit command word: opcode, dummy cycles, address
  flag and direction flag. It has a field-wise `Command` view with `Encode` and `Decode`
  proved inverse.
- `Lut` (`lut.dfy`) holds the LUT instructions and the slot-0 sequence builder. `Parse` reads a
  sequence back into its phases, independently of the builder. `ParseBuild` shows the builder
  emits exactly what the command word asks for.
- `Registers` (`registers.dfy`) is the FlexSPI1 register file as a `Controller` record. It has
  a log of every write, and `ran` lists the sequences the controller executed.
- `FlashMode` (`flash_mode.dfy`) is the driver's private state, with flash-mode entry and exit
  and their round trip.
- `Sequencer` (`sequencer.dfy`) is one transaction: configure, run and wait, the FIFO transfer,
  and restore. It covers `SpiRead`, `SpiWrite`, the status read, opcode-only commands and the
  SFDP read callback.
- `Imxrt` (`imxrt.dfy`) covers chip erase, flash sizing and registration, and the probe.
- `Option` (`option.dfy`) is the optional-value type.

The hardware's side is an input throughout:
- each transaction gets a `Response`, holding the values successive polls of the interrupt
  register return and the 128 bytes drained from the read FIFO;
- entry gets the interrupt-register value it writes back;
- the probe gets the boot-configuration word, whether each allocation succeeds, and the SFDP
  parser's outcome.

## Model

| member | source | states |
|---|---|---|
| BootSource.Classify | src/target/imxrt.c:269-289 | each of the six boot sources is chosen exactly when BOOT_CFG1[7:4] has its pattern: 0000, 0001, 001x, 01xx, 10xx, 11xx |
| BootSource.IsSpiFlash | src/target/imxrt.c:244 | the driver probes for flash exactly when the part boots from SPI NOR or SPI NAND, that is from none of parallel NOR, SLC NAND, SD card and eMMC |
| BootSource.ClassifyMatchesTable | src/target/imxrt.c:276-288 | the ordered cascade agrees with the reference decode table, indexed by BOOT_CFG1[7:4], on every 32-bit word |
| BootSource.ClassifyReadsOnlyBits7To4 | src/target/imxrt.c:276 | words that agree on bits 7:4 get the same boot source |
| BootSource.RemainderIsTopBitsSet | src/target/imxrt.c:287-288 | the fall-through case (SPI NAND) is reached only with both top bits of BOOT_CFG1 set |
| BootSource.ClassifyExamples | src/target/imxrt.c:277-288 | representative words decode to each source |
| SpiCommand.Encode | src/target/imxrt.c:106-115 | an encoded command word uses only bits 17:0, and the sequencer's opcode, dummy, address and direction tests read back the fields it was built from |
| SpiCommand.DecodeEncode | src/target/imxrt.c:106-115 | decoding an encoded command gives the command back |
| SpiCommand.EncodeDecode | src/target/imxrt.c:106-115 | every word confined to bits 17:0 is the encoding of its decode |
| SpiCommand.FixedCommands | src/target/imxrt.c:117-130 | Write Enable, Chip Erase, Read Status, Read JEDEC ID and Read SFDP have opcodes 06, 60, 05, 9f and 5a; only Read SFDP carries a 3-byte address and 8 dummy cycles |
| Lut.OpcodeMode | src/target/imxrt.c:92 | for a pad mode below 4, the packed byte holds the low six opcode bits in bits 7:2 and the pad mode in bits 1:0 |
| Lut.OpcodeModeRoundTrip | src/target/imxrt.c:92-96 | the LUT opcode and the pad mode can be read back from the packed byte |
| Lut.BuildSequence | src/target/imxrt.c:336-368 | the sequence is COMMAND with the opcode; RADDR of 24-CAS bits and CADDR of CAS bits for addressed commands; DUMMY with the command's cycle count; READ or WRITE when the length is non-zero; STOP from the first unused slot to the end and nowhere before |
| Lut.BuildIgnoresCasWithoutAddress | src/target/imxrt.c:342-354 | the CAS width shapes only addressed commands' sequences |
| Lut.ParseBuild | src/target/imxrt.c:336-368 | parsing the built sequence yields exactly the phases the command word describes (opcode, address shape, dummy cycles, data direction or none) |
| Lut.BytesLayout | src/target/imxrt.c:144-147 | instruction i occupies byte 2i (operand) and byte 2i+1 (opcode and mode) of the LUT |
| Lut.InsnsOfBytes | src/target/imxrt.c:144-147 | reading the LUT bytes back as instructions recovers the sequence |
| Lut.BytesOfInsns | src/target/imxrt.c:144-147 | laying out the instructions read from an even-length byte string gives the bytes back |
| Lut.SlotBytes | src/target/imxrt.c:338-339 | a built sequence fills one 16-byte LUT slot whose first byte is the flash opcode |
| Registers.WordEffects | src/target/imxrt.c:388-394 | a 32-bit register write never changes the LUT or the write FIFO, and executes LUT sequence 0 exactly when it is a PRG_CMD write with the run bit |
| Registers.BlockEffects | src/target/imxrt.c:371 | a block write replaces the LUT or the write FIFO it is addressed to, and executes nothing |
| Registers.StoreEffects | src/target/imxrt.c:371-424 | `Store`, the model of each target_mem_write32 and target_mem_write the driver issues: the write is appended to the log, only a PRG_CMD run appends the current LUT sequence to the run history, and only block writes to the LUT and the write FIFO change them |
| Registers.Watermark | src/target/imxrt.c:90 | the FIFO watermark field lies in bits 5:2 of the register |
| Registers.PrgLength | src/target/imxrt.c:86 | the PRG_CTRL1 length field uses bits 15:0 only, and holds the length itself whenever it fits |
| Registers.WatermarkOfFullFifo | src/target/imxrt.c:90 | the 128-byte watermark is field value 0x3c, and 0x3d with the clear bit |
| Registers.WatermarkCountsDoubleWords | src/target/imxrt.c:90 | for 8k bytes, with k from 1 to 16, the watermark field holds k-1 in bits 5:2 |
| Registers.Cas | src/target/imxrt.c:84-85 | the column-address width read from CTRL1 is below 16 |
| FlashMode.Resume | src/target/imxrt.c:294-298 | MOD_CTRL0 loses its suspend bit, and is written only if that bit was set |
| FlashMode.ResetFifos | src/target/imxrt.c:299-306 | the interrupt flags read are written back, then both FIFO controls get the full-FIFO watermark with the clear bit |
| FlashMode.Unlock | src/target/imxrt.c:307-312 | LUT_CTRL ends unlocked; the key and the unlock value are written only if it was not already unlocked |
| FlashMode.EntryWritesTouch | src/target/imxrt.c:296-312 | entry writes MOD_CTRL0 exactly when suspended and LUT_CTRL exactly when not unlocked, and always acknowledges the pending interrupts |
| FlashMode.Entered | src/target/imxrt.c:291-313 | the three entry steps compose to one controller update with the entry writes in order |
| FlashMode.EnterFlashMode | src/target/imxrt.c:291-314 | entry saves MOD_CTRL0 and LUT_CTRL, resumes, unlocks, sets both watermarks and leaves the sequencer state alone |
| FlashMode.ExitWritesTouch | src/target/imxrt.c:320-323 | exit writes LUT_CTRL exactly when the saved lock state was not "unlocked" |
| FlashMode.Exited | src/target/imxrt.c:316-325 | exit restores the saved lock state (keyed) if needed, then the saved module state |
| FlashMode.ExitFlashMode | src/target/imxrt.c:316-326 | after exit MOD_CTRL0 holds the saved state, LUT_CTRL holds it unless it was "unlocked", the FIFO controls and sequencer are untouched |
| FlashMode.FlashModeRoundTrip | src/target/imxrt.c:291-326 | entry, any operation that keeps LUT_CTRL and the saved state, then exit puts MOD_CTRL0 and LUT_CTRL back to their values before entry |
| FlashMode.EnterExitLeavesSequencer | src/target/imxrt.c:291-326 | entry directly followed by exit restores MOD_CTRL0 and LUT_CTRL and changes no sequencer register, LUT or run history |
| Sequencer.ColumnBits | src/target/imxrt.c:342-345 | the CAS width the builder uses is below 16 |
| Sequencer.PlanFor | src/target/imxrt.c:328-377 | a transaction programs a 16-byte built sequence, the address into PRG_CTRL0 only for addressed commands, and the length into PRG_CTRL1 |
| Sequencer.ConfigureWritesTouch | src/target/imxrt.c:371-377 | configuring writes PRG_CTRL0 exactly for addressed commands and never the TX FIFO or the interrupt register |
| Sequencer.Program | src/target/imxrt.c:370-377 | configuring sets the LUT, PRG_CTRL0 (addressed commands only) and PRG_CTRL1 and nothing else, logging the writes in order |
| Sequencer.ConfigureSequence | src/target/imxrt.c:328-378 | the old sequence 0 is saved in the private state, the LUT holds the built sequence, PRG_CTRL0 changes exactly for addressed commands, PRG_CTRL1 has the length |
| Sequencer.Restore | src/target/imxrt.c:380-385 | the saved sequence is written back to the LUT and nothing else changes |
| Sequencer.Run | src/target/imxrt.c:387-396 | running executes the sequence in the LUT once, then acknowledges PRG_CMD_DONE |
| Sequencer.WaitComplete | src/target/imxrt.c:387-396 | the wait ends at the first poll that sees PRG_CMD_DONE, and the sequence ran once |
| Sequencer.WaitWritesTouch | src/target/imxrt.c:390-395 | running and acknowledging touches neither the TX FIFO nor the read-full or write-empty flags |
| Sequencer.ReadComposition | src/target/imxrt.c:398-411 | configure, run, acknowledge read-full and restore compose to the declarative after-read state |
| Sequencer.ReadWritesTouch | src/target/imxrt.c:398-411 | a read acknowledges the read FIFO, never writes the TX FIFO, and its last write restores the saved sequence |
| Sequencer.AfterReadFacts | src/target/imxrt.c:398-411 | a read is one transaction: the LUT is as before, exactly the planned sequence ran, and mode, lock and FIFO-control registers and the TX FIFO are untouched |
| Sequencer.SpiRead | src/target/imxrt.c:398-411 | a read returns the first `length` bytes of the drained FIFO and leaves the controller in the after-read state |
| Sequencer.RoundUpToWord | src/target/imxrt.c:422 | the TX byte count is the least multiple of 4 not below the length |
| Sequencer.Padded | src/target/imxrt.c:420-422 | the TX FIFO receives the payload followed by zeros, cut to the word-rounded length |
| Sequencer.Fill | src/target/imxrt.c:419-425 | the TX FIFO is loaded and its fill acknowledged only when there is a payload |
| Sequencer.FillWritesTouch | src/target/imxrt.c:419-425 | the fill step writes the TX FIFO, and signals write-empty, exactly when there is a payload |
| Sequencer.WriteComposition | src/target/imxrt.c:413-429 | configure, fill, run and restore compose to the declarative after-write state |
| Sequencer.WriteWritesTouch | src/target/imxrt.c:413-429 | a write touches the TX FIFO and signals write-empty exactly when it has a payload, and ends by restoring the saved sequence |
| Sequencer.AfterWriteFacts | src/target/imxrt.c:413-429 | a write is one transaction running the planned sequence, with the LUT restored |
| Sequencer.PayloadFor | src/target/imxrt.c:419 | a write has a TX payload exactly when its length is non-zero |
| Sequencer.SpiWrite | src/target/imxrt.c:413-429 | a write leaves the controller in the after-write state for its plan and payload |
| Sequencer.ReadStatusRegister | src/target/imxrt.c:431-436 | the status is the first FIFO byte, and the status read is one transaction of the Read Status sequence |
| Sequencer.RunCommand | src/target/imxrt.c:438-441 | an opcode-only command is one transaction that never writes the TX FIFO |
| Sequencer.SpiReadSfdp | src/target/imxrt.c:164-167 | the SFDP callback returns the FIFO bytes, writes the address to PRG_CTRL0, and runs a sequence that parses as opcode 5a, a row (and column) address summing to 24 bits, 8 dummy cycles, and a read phase if the length is non-zero |
| Imxrt.SlotsAre | src/target/imxrt.c:336-368 | the Write Enable, Read Status and Chip Erase sequences are fixed 16-byte strings, whatever CTRL1 holds |
| Imxrt.WriteEnableSlotIs | src/target/imxrt.c:118-119 | Write Enable runs COMMAND 06, DUMMY 0, then STOP |
| Imxrt.StatusSlotIs | src/target/imxrt.c:122-124 | Read Status runs COMMAND 05, DUMMY 0, READ, then STOP |
| Imxrt.ChipEraseSlotIs | src/target/imxrt.c:120-121 | Chip Erase runs COMMAND 60, DUMMY 0, then STOP |
| Imxrt.JedecIdSlotIs | src/target/imxrt.c:248 | the JEDEC ID read runs a fixed 16-byte sequence, whatever CTRL1 holds |
| Imxrt.Bracket | src/target/imxrt.c:291-326 | transactions run between entry and exit leave MOD_CTRL0, LUT_CTRL and the LUT as before entry and add exactly their sequences to the run history |
| Imxrt.WriteEnabled | src/target/imxrt.c:449 | the write-enable check passes exactly when bit 1 (0x02) of the status byte is set |
| Imxrt.Busy | src/target/imxrt.c:455 | the busy check holds exactly when bit 0 (0x01) of the status byte is set |
| Imxrt.Status | src/target/imxrt.c:431-436 | a status read returns the first FIFO byte and runs the Read Status sequence once |
| Imxrt.Command | src/target/imxrt.c:438-441 | Write Enable or Chip Erase runs its own sequence once |
| Imxrt.FirstReady | src/target/imxrt.c:455-456 | the reference index of the first status read reporting not busy: every earlier one reports busy |
| Imxrt.WaitReady | src/target/imxrt.c:455-456 | the poll stops right after the first not-busy status and ran one status read per response consumed |
| Imxrt.EraseSteps | src/target/imxrt.c:448-456 | the erase goes ahead exactly when the write-enable latch reads set; it then sends Chip Erase and polls until the first not-busy status, and otherwise stops after two transactions |
| Imxrt.MassErase | src/target/imxrt.c:443-459 | as EraseSteps, inside the flash-mode bracket: MOD_CTRL0, LUT_CTRL and the LUT end as they began, and the run history grows by the erase trace |
| Imxrt.ChipEraseOnlyWhenEnabled | src/target/imxrt.c:448-454 | the Chip Erase sequence appears in the erase trace exactly when the erase went ahead, and only as the third transaction |
| Imxrt.Capacity | src/target/imxrt.c:256 | the flash size from a capacity code below 32 is a power of two whose only set bit is at the code's position |
| Imxrt.CapacityDoubles | src/target/imxrt.c:256 | each step of the capacity code doubles the size |
| Imxrt.CapacityExamples | src/target/imxrt.c:256 | codes 0, 0x14 and 0x18 give 1 byte, 1 MiB and 16 MiB |
| Imxrt.Geometry | src/target/imxrt.c:177-184 | the parser's parameters are used when SFDP readout succeeds, and otherwise 256-byte pages, 4 KiB sectors, the JEDEC size and opcode 0x20 |
| Imxrt.RegionFor | src/target/imxrt.c:186-191 | the flash region starts at the FlexSPI memory window, reads erased as 0xff, and has the SFDP capacity and sector size, or the JEDEC size and 4 KiB |
| Imxrt.AddFlash | src/target/imxrt.c:169-193 | a region is appended exactly when its allocation succeeds, and nothing else about the target changes |
| Imxrt.ValidId | src/target/imxrt.c:255 | the JEDEC ID is used exactly when none of its three bytes reads 0xff |
| Imxrt.FreshPriv | src/target/imxrt.c:203-218 | the zero-filled private storage, with the boot source decoded from BOOT_CFG1: both saved registers 0 and the saved 16-byte sequence all zeros |
| Imxrt.ReadId | src/target/imxrt.c:246-248 | the ID read returns the first three FIFO bytes and, inside the bracket, runs the JEDEC ID sequence once with MOD_CTRL0, LUT_CTRL and the LUT restored |
| Imxrt.Probe | src/target/imxrt.c:195-267 | probing succeeds exactly for part 0x88c when storage is allocated; it adds both OCRAM banks, records the boot source, installs the flash hooks exactly for SPI-flash boot, registers a flash exactly for a valid ID and successful allocation, sized by RegionFor: the SFDP capacity, or 1 << code when SFDP readout fails; and otherwise changes nothing |

## Left out

- Target memory access is a record update. Reads of the hardware-driven registers (the interrupt register and the read FIFO) are inputs. The LUT is modelled only as sequence 0, the only part the driver touches.
- WaitComplete: models only transactions that complete (some poll sees PRG_CMD_DONE). The source spins for ever otherwise, and an endless loop is not modelled.
- WaitReady: likewise requires some status read to report not busy. The source polls for ever, printing progress against its 500 ms timeout. Progress printing and the timer are output and time, so they are left out.
- SpiRead, SpiWrite, SpiReadSfdp: require a length of at most 128 bytes, the FIFO size. The source copies through a 128-byte buffer without a check.
- Capacity: requires a capacity code below 32. In C, `1U << code` is undefined beyond that, so the probe's inputs exclude it.
- AddFlash: the SFDP parser is an input (`sfdp.c` is not part of this model). Its Read SFDP transactions through `SpiReadSfdp` are not chained into the probe.
- Probe: the controller trace after probing holds only the JEDEC ID read, not the parser's Read SFDP transactions. The write log is not stated.
- Probe: `calloc` is reduced to a success flag per allocation. The reset-inhibit option, the driver name, the ENABLE_DEBUG boot-mode read and the debug messages have no bearing on the flash logic and are left out.
- Probe: the JEDEC ID record is taken as three bytes: manufacturer, type, capacity code. Its declaration in `spi.h` is not part of this model.
- EnterFlashMode, ExitFlashMode: the source's boolean results are always true, so they are not modelled.
- Registers are identified by name (`Reg`), not by bus address. The driver writes each register only through its fixed address macro, so the offsets add nothing to what a write does.
- CTRL0, CTRL2 and STAT1 are defined by the source but never used, so they are not modelled.
