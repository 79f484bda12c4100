/**
 The boot-source classifier of the i.MX RT10xx driver. The low byte of the SRC boot-mode word is
 BOOT_CFG1, and BOOT_CFG1[7:4] says which peripheral the part boots from. The driver decides this
 by an ordered cascade of mask tests; this module states the decoded patterns independently and
 proves the cascade agrees with them.
 */
module BootSource {

  datatype BootSource = SpiFlashNor | SdCard | Emmc | SlcNand | ParallelNor | SpiFlashNand

  /** BOOT_CFG1[7:4] as a number in 0..15. */
  function Field(bootCfg: bv32): (f: bv8)
    ensures f < 16
  {
    ((bootCfg >> 4) & 0xf) as bv8
  }

  /** The driver's order-dependent cascade over `bootCfg & 0xf0`. */
  function Classify(bootCfg: bv32): (r: BootSource)
    ensures r == SpiFlashNor <==> Field(bootCfg) == 0
    ensures r == ParallelNor <==> Field(bootCfg) == 1
    ensures r == SlcNand <==> Field(bootCfg) >> 1 == 1
    ensures r == SdCard <==> Field(bootCfg) >> 2 == 1
    ensures r == Emmc <==> Field(bootCfg) >> 2 == 2
    ensures r == SpiFlashNand <==> Field(bootCfg) >> 2 == 3
  {
    var src := (bootCfg & 0xf0) as bv8;
    if src == 0x00 then SpiFlashNor
    else if (src & 0xc0) == 0x40 then SdCard
    else if (src & 0xc0) == 0x80 then Emmc
    else if (src & 0xe0) == 0x20 then SlcNand
    else if src == 0x10 then ParallelNor
    else SpiFlashNand
  }

  /** The boot sources whose flash sits behind FlexSPI, so the driver probes for it. */
  function IsSpiFlash(b: BootSource): (spi: bool)
    ensures spi <==> b !in {ParallelNor, SlcNand, SdCard, Emmc}
  {
    b == SpiFlashNor || b == SpiFlashNand
  }

  /** The reference decode table, indexed by BOOT_CFG1[7:4]. */
  const Table: seq<BootSource> := [
    SpiFlashNor, ParallelNor, SlcNand, SlcNand,
    SdCard, SdCard, SdCard, SdCard,
    Emmc, Emmc, Emmc, Emmc,
    SpiFlashNand, SpiFlashNand, SpiFlashNand, SpiFlashNand
  ]

  /** The cascade is total and agrees with the table on every input word. */
  lemma ClassifyMatchesTable(bootCfg: bv32)
    ensures Classify(bootCfg) == Table[Field(bootCfg) as int]
  {
  }

  /** Only BOOT_CFG1[7:4] matters: words that agree there classify alike. */
  lemma ClassifyReadsOnlyBits7To4(a: bv32, b: bv32)
    requires (a & 0xf0) == (b & 0xf0)
    ensures Classify(a) == Classify(b)
  {
  }

  /** Every pattern left after the first five tests is 0b11xx. */
  lemma RemainderIsTopBitsSet(bootCfg: bv32)
    requires Classify(bootCfg) == SpiFlashNand
    ensures (bootCfg & 0xc0) == 0xc0
  {
  }

  /** The documented examples of the decode. */
  lemma ClassifyExamples()
    ensures Classify(0x00) == SpiFlashNor
    ensures Classify(0x50) == SdCard
    ensures Classify(0x90) == Emmc
    ensures Classify(0x20) == SlcNand
    ensures Classify(0x10) == ParallelNor
    ensures Classify(0xc0) == SpiFlashNand
  {
  }
}
