/**
 * The register layouts of litepcie_int.h: the DMA descriptor word with its
 * `config` bitfield union, the loop-status union, and the SPI flash control
 * constants. Bitfields are laid out little-endian, least significant bit
 * first, as the comments in the header state.
 */
module Layout {

  import opened Words

  /** Number of polls of the SPI status before giving up. */
  const SPI_TIMEOUT: nat := 100000
  const SPI_CTRL_START: bv32 := 0x1
  const SPI_CTRL_LENGTH: bv32 := 1 << 8
  const SPI_STATUS_DONE: bv32 := 0x1

  const LENGTH_MASK: bv32 := 0xFF_FFFF

  // ---------------------------------------------------------------------------
  // DMADescriptor.config: length in bits 0..23, disableIRQ in bit 24, last in
  // bit 25, an unnamed 6-bit field in bits 26..31.

  /** The fields of `config.reg`, each within its declared width. */
  datatype DescriptorConfig = DescriptorConfig(length: bv32, disableIrq: bv32, last: bv32, reserved: bv32)
  {
    ghost predicate Valid() {
      length < 0x100_0000 && disableIrq < 2 && last < 2 && reserved < 0x40
    }
  }

  function ConfigLength(raw: bv32): (length: bv32)
    ensures length < 0x100_0000
    ensures length == raw % 0x100_0000
  {
    raw & LENGTH_MASK
  }

  function ConfigDisableIrq(raw: bv32): (b: bv32)
    ensures b < 2
    ensures b == 1 <==> raw & (1 << 24) != 0
  {
    (raw >> 24) & 1
  }

  function ConfigLast(raw: bv32): (b: bv32)
    ensures b < 2
    ensures b == 1 <==> raw & (1 << 25) != 0
  {
    (raw >> 25) & 1
  }

  function ConfigReserved(raw: bv32): (b: bv32)
    ensures b < 0x40
  {
    raw >> 26
  }

  /** Reading `config.reg` out of `config.raw`. */
  function DecodeConfig(raw: bv32): (c: DescriptorConfig)
    ensures c.Valid()
    ensures EncodeConfig(c) == raw
  {
    DescriptorConfig(ConfigLength(raw), ConfigDisableIrq(raw), ConfigLast(raw), ConfigReserved(raw))
  }

  /** The `config.raw` word whose bitfields hold the given field values. */
  function EncodeConfig(c: DescriptorConfig): (raw: bv32)
    requires c.Valid()
    ensures ConfigLength(raw) == c.length
    ensures ConfigDisableIrq(raw) == c.disableIrq
    ensures ConfigLast(raw) == c.last
    ensures ConfigReserved(raw) == c.reserved
  {
    c.length | (c.disableIrq << 24) | (c.last << 25) | (c.reserved << 26)
  }

  /** Assigning `config.reg.length = value`: C truncates to 24 bits and leaves the other fields alone. */
  function SetConfigLength(raw: bv32, value: bv32): (raw': bv32)
    ensures ConfigLength(raw') == value % 0x100_0000
    ensures ConfigDisableIrq(raw') == ConfigDisableIrq(raw)
    ensures ConfigLast(raw') == ConfigLast(raw)
    ensures ConfigReserved(raw') == ConfigReserved(raw)
  {
    (raw & !LENGTH_MASK) | (value & LENGTH_MASK)
  }

  /** Assigning a one-bit flag at `bit` (24 for disableIRQ, 25 for last): only its low bit is kept. */
  function SetConfigFlag(raw: bv32, bit: nat, value: bv32): (raw': bv32)
    requires bit == 24 || bit == 25
    ensures ConfigLength(raw') == ConfigLength(raw)
    ensures ConfigReserved(raw') == ConfigReserved(raw)
    ensures bit == 24 ==> ConfigDisableIrq(raw') == value & 1 && ConfigLast(raw') == ConfigLast(raw)
    ensures bit == 25 ==> ConfigLast(raw') == value & 1 && ConfigDisableIrq(raw') == ConfigDisableIrq(raw)
  {
    var mask: bv32 := 1 << bit;
    (raw & !mask) | ((value & 1) << bit)
  }

  /** A descriptor: `config` is the low 32 bits of the 64-bit descriptor, `lsb` bits 32..63. */
  datatype DmaDescriptor = DmaDescriptor(config: bv32, lsb: bv32)

  function DescriptorWord(d: DmaDescriptor): (w: bv64)
    ensures LowWord(w) == d.config && HighWord(w) == d.lsb
  {
    JoinWords(d.lsb, d.config)
  }

  function DescriptorOfWord(w: bv64): (d: DmaDescriptor)
    ensures DescriptorWord(d) == w
  {
    SplitJoin(w);
    DmaDescriptor(LowWord(w), HighWord(w))
  }

  // ---------------------------------------------------------------------------
  // DMALoopStatus: `count` is the low half-word and `index` the high one.

  datatype LoopStatus = LoopStatus(count: bv32, index: bv32)
  {
    ghost predicate Valid() { count < 0x1_0000 && index < 0x1_0000 }
  }

  function DecodeLoopStatus(raw: bv32): (s: LoopStatus)
    ensures s.Valid()
    ensures s.count == raw & 0xFFFF && s.index == raw >> 16
    ensures EncodeLoopStatus(s) == raw
  {
    LoopStatus(raw & 0xFFFF, raw >> 16)
  }

  function EncodeLoopStatus(s: LoopStatus): (raw: bv32)
    requires s.Valid()
    ensures raw >> 16 == s.index && raw & 0xFFFF == s.count
  {
    (s.index << 16) | s.count
  }

  lemma LoopStatusRoundTrip(s: LoopStatus)
    requires s.Valid()
    ensures DecodeLoopStatus(EncodeLoopStatus(s)) == s
  {
  }

  // ---------------------------------------------------------------------------
  // SPI flash control word.

  /** The word written to the SPI control register to start a transfer of `txLen` bits. */
  function SpiControlWord(txLen: bv32): (w: bv32)
    requires txLen <= 40
    ensures w & SPI_CTRL_START != 0
    ensures (w >> 8) & 0xFF == txLen
    ensures w >> 16 == 0 && (w >> 1) & 0x7F == 0
  {
    SPI_CTRL_START | (txLen * SPI_CTRL_LENGTH)
  }

  predicate SpiDone(status: bv32) {
    status & SPI_STATUS_DONE != 0
  }
}
