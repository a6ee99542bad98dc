/**
 * The user-space DMA helper of liblitepcie (litepcie_dma.c): the control
 * record `struct litepcie_dma_ctrl`, the reconciliation of its software
 * buffer counters with the hardware totals the driver publishes, and the
 * hand-out of consecutive ring slots to the application.
 *
 * All counters are `uint64_t`; their arithmetic is modelled modulo 2^64.
 * The hardware totals are device-written shared memory; each processing step
 * takes one snapshot of them as a parameter.
 */
module DmaLib {

  import opened Words
  import opened Wrappers

  /** Ring geometry of the build configuration. */
  const DMA_BUFFER_COUNT: nat := 256
  const DMA_BUFFER_SIZE: nat := 8192
  const EXIT_FAILURE: int := 1

  /** `DMACounts`, the record the driver maps read-only into the process. */
  datatype DmaCounts = DmaCounts(
    hwReaderCountTotal: u64, hwReaderCountPrev: u64,
    hwWriterCountTotal: u64, hwWriterCountPrev: u64)

  datatype MemoryKind = WriterMemory | ReaderMemory | CountsMemory

  /** The calls the library makes into the driver, in the order it makes them.
      A mapping request carries the channel of its memory-type word. */
  datatype Request =
    | ConfigReaderChannel(channel: u8, enable: bool)
    | ConfigWriterChannel(channel: u8, enable: bool)
    | WriteLoopback(channel: u8, value: u32)
    | MapMemory(kind: MemoryKind, channel: u8)

  // ---------------------------------------------------------------------------
  // Counter reconciliation (litepcie_dma_process)

  /** The outcome of reconciling one direction: buffers to hand out, the first
      slot to hand out, and the new software count. */
  datatype RingPlan = RingPlan(available: u64, offset: u64, swCount: u64)

  /** Read side: buffers the hardware writer has filled since `swCount`. */
  function ReadAccounting(swCount: u64, hwTotal: u64, offset: u64): (p: RingPlan)
    ensures p.available <= DMA_BUFFER_COUNT
    ensures p.available <= Sub64(hwTotal, swCount)
    ensures p.available != 0 <==> Sub64(hwTotal, swCount) > 2
    ensures p.available != 0 ==> p.available == Min(Sub64(hwTotal, swCount), DMA_BUFFER_COUNT)
    ensures p.available != 0 ==> p.offset == swCount % DMA_BUFFER_COUNT
    ensures p.available == 0 ==> p.offset == offset && p.swCount == swCount
    ensures Sub64(p.swCount, swCount) == p.available
  {
    var pending := Sub64(hwTotal, swCount);
    if pending > 2 then
      // MAX(MIN(pending, DMA_BUFFER_COUNT), 0): the MAX is the identity on unsigned values
      var n := Min(pending, DMA_BUFFER_COUNT);
      RingPlan(n, swCount % DMA_BUFFER_COUNT, Add64(swCount, n))
    else
      RingPlan(0, offset, swCount)
  }

  /** The guard of the write side: `(int64_t)sw - (int64_t)hw < DMA_BUFFER_COUNT / 2`,
      with the signed difference wrapping as two's complement. */
  predicate WriteGuard(swCount: u64, hwTotal: u64) {
    Signed64(Sub64(swCount, hwTotal)) < DMA_BUFFER_COUNT / 2
  }

  /** Write side: buffers the hardware reader has drained, while the software
      is less than half a ring ahead of it. */
  function WriteAccounting(swCount: u64, hwTotal: u64, offset: u64): (p: RingPlan)
    ensures p.available <= DMA_BUFFER_COUNT
    ensures !WriteGuard(swCount, hwTotal) ==> p == RingPlan(0, offset, swCount)
    ensures WriteGuard(swCount, hwTotal) ==>
      p.available == Min(Sub64(hwTotal, swCount), DMA_BUFFER_COUNT) && p.offset == swCount % DMA_BUFFER_COUNT
    ensures Sub64(p.swCount, swCount) == p.available
  {
    if WriteGuard(swCount, hwTotal) then
      var n := Min(Sub64(hwTotal, swCount), DMA_BUFFER_COUNT);
      RingPlan(n, swCount % DMA_BUFFER_COUNT, Add64(swCount, n))
    else
      RingPlan(0, offset, swCount)
  }

  /** A read-side software count at or below the hardware total stays so, and never decreases. */
  lemma ReadCountStaysBehindHardware(swCount: u64, hwTotal: u64, offset: u64)
    requires swCount <= hwTotal
    ensures var p := ReadAccounting(swCount, hwTotal, offset);
      swCount <= p.swCount <= hwTotal && p.swCount == swCount + p.available
  {
  }

  /** When the software is behind the hardware reader, the write side catches up
      by at most a full ring, without passing the hardware. */
  lemma WriteCountBehindCatchesUp(swCount: u64, hwTotal: u64, offset: u64)
    requires swCount <= hwTotal <= swCount + TWO_63
    ensures var p := WriteAccounting(swCount, hwTotal, offset);
      p.available == Min(hwTotal - swCount, DMA_BUFFER_COUNT) && swCount <= p.swCount <= hwTotal
  {
  }

  /** The ring slot of buffer count `c`. */
  function SlotOf(c: nat): nat {
    c % DMA_BUFFER_COUNT
  }

  /** When the software is ahead of the hardware reader by less than half a ring
      (and far from wrap-around), the write side hands out a whole ring. Every
      buffer counted from `hwTotal` up to `swCount`, filled but not yet read by
      the hardware, has its slot handed out again. */
  lemma WriteAheadHandsOutWholeRing(swCount: u64, hwTotal: u64, offset: u64)
    requires hwTotal < swCount < hwTotal + DMA_BUFFER_COUNT / 2
    requires swCount + DMA_BUFFER_COUNT < TWO_63
    ensures var p := WriteAccounting(swCount, hwTotal, offset);
      p.available == DMA_BUFFER_COUNT && p.swCount == swCount + DMA_BUFFER_COUNT
    ensures forall c :: hwTotal <= c < swCount ==> SlotOf(c) in BatchSlots(swCount, DMA_BUFFER_COUNT)
  {
    forall c | hwTotal <= c < swCount
      ensures SlotOf(c) in BatchSlots(swCount, DMA_BUFFER_COUNT)
    {
      var j := c + DMA_BUFFER_COUNT - swCount;
      assert 0 <= j < DMA_BUFFER_COUNT && swCount + j == c + DMA_BUFFER_COUNT;
      assert BatchSlots(swCount, DMA_BUFFER_COUNT)[j] == SlotOf(c);
    }
  }

  /** The write side never lets the software run more than one and a half rings
      ahead of a hardware total that does not go backwards. */
  lemma WriteLeadBounded(swCount: u64, hwTotal: u64, hwTotal': u64, offset: u64)
    requires swCount < TWO_63 - 2 * DMA_BUFFER_COUNT && hwTotal' < TWO_63 && hwTotal' - swCount <= TWO_63
    requires hwTotal <= hwTotal'
    requires swCount < hwTotal + DMA_BUFFER_COUNT + DMA_BUFFER_COUNT / 2
    ensures var p := WriteAccounting(swCount, hwTotal', offset);
      swCount <= p.swCount < hwTotal' + DMA_BUFFER_COUNT + DMA_BUFFER_COUNT / 2
  {
  }

  // ---------------------------------------------------------------------------
  // Slot hand-out (litepcie_dma_next_read_buffer / _next_write_buffer)

  /** What is left to hand out in one direction. */
  datatype Cursor = Cursor(available: u64, offset: u64)

  /** One hand-out: the slot index and the advanced cursor, or nothing when the
      count is exhausted. */
  function Take(c: Cursor): (r: (Option<u64>, Cursor))
    ensures c.available == 0 <==> r.0 == None
    ensures c.available == 0 ==> r.1 == c
    ensures c.available != 0 ==> r.0 == Some(c.offset) && r.1.available == c.available - 1
    ensures c.available != 0 ==> r.1.offset < DMA_BUFFER_COUNT
    ensures c.available != 0 && c.offset < DMA_BUFFER_COUNT ==> r.1.offset == (c.offset + 1) % DMA_BUFFER_COUNT
  {
    if c.available == 0 then (None, c)
    else (Some(c.offset), Cursor(c.available - 1, Add64(c.offset, 1) % DMA_BUFFER_COUNT))
  }

  /** `k` successive hand-outs: the slots returned (stopping at the first NULL) and the final cursor. */
  function TakeMany(c: Cursor, k: nat): (r: (seq<u64>, Cursor))
    ensures |r.0| <= k
    decreases k
  {
    if k == 0 then ([], c)
    else
      match Take(c)
      case (None, c') => ([], c')
      case (Some(slot), c') =>
        var rest := TakeMany(c', k - 1);
        ([slot] + rest.0, rest.1)
  }

  lemma ModStep(s: nat)
    ensures (s % DMA_BUFFER_COUNT + 1) % DMA_BUFFER_COUNT == (s + 1) % DMA_BUFFER_COUNT
  {
  }

  /** The ring slots of the `k` buffers counted from `s` on. */
  function BatchSlots(s: nat, k: nat): (b: seq<nat>)
    ensures |b| == k
    ensures forall j :: 0 <= j < k ==> b[j] == (s + j) % DMA_BUFFER_COUNT
  {
    seq(k, j => (s + j) % DMA_BUFFER_COUNT)
  }

  /** Starting at the slot of count `s`, `k` hand-outs (no more than are
      available) return the slots of counts `s`, `s + 1`, ..., `s + k - 1`. */
  lemma {:induction false} TakeManySlots(c: Cursor, k: nat, s: nat)
    requires c.offset == s % DMA_BUFFER_COUNT && k <= c.available
    ensures TakeMany(c, k) == (BatchSlots(s, k), Cursor(c.available - k, (s + k) % DMA_BUFFER_COUNT))
    decreases k
  {
    if k > 0 {
      var c' := Take(c).1;
      ModStep(s);
      TakeManySlots(c', k - 1, s + 1);
      var rest := TakeMany(c', k - 1);
      assert TakeMany(c, k) == ([c.offset] + rest.0, rest.1);
      assert [c.offset] + BatchSlots(s + 1, k - 1) == BatchSlots(s, k);
    }
  }

  /** Within one batch of at most a ring's worth, no slot is handed out twice. */
  lemma SlotsDistinct(s: nat, i: nat, j: nat)
    requires i < j < DMA_BUFFER_COUNT
    ensures (s + i) % DMA_BUFFER_COUNT != (s + j) % DMA_BUFFER_COUNT
  {
  }

  /** 2^64 is a whole number of rings, so slot numbering survives counter wrap-around. */
  lemma Add64ModRing(a: u64, b: u64)
    ensures Add64(a, b) % DMA_BUFFER_COUNT == (a + b) % DMA_BUFFER_COUNT
  {
  }

  /** After a read-side reconciliation, taking every available buffer returns the
      slots of the newly counted buffers, in order and each once, and leaves the
      cursor at the slot of the new software count. */
  lemma {:induction false} ReadBatchSlots(swCount: u64, hwTotal: u64, offset: u64)
    requires ReadAccounting(swCount, hwTotal, offset).available != 0
    ensures var p := ReadAccounting(swCount, hwTotal, offset);
      var r := TakeMany(Cursor(p.available, p.offset), p.available);
      && r.0 == BatchSlots(swCount, p.available)
      && (forall i, j :: 0 <= i < j < |r.0| ==> r.0[i] != r.0[j])
      && r.1 == Cursor(0, p.swCount % DMA_BUFFER_COUNT)
  {
    var p := ReadAccounting(swCount, hwTotal, offset);
    TakeManySlots(Cursor(p.available, p.offset), p.available, swCount);
    Add64ModRing(swCount, p.available);
    var b := BatchSlots(swCount, p.available);
    forall i, j | 0 <= i < j < |b|
      ensures b[i] != b[j]
    {
      SlotsDistinct(swCount, i, j);
    }
  }

  // ---------------------------------------------------------------------------
  // Initialisation (litepcie_dma_init): mappings are attempted writer, reader,
  // counts, and the first one that returns address 0 ends the call.

  predicate WriterMapped(useWriter: bool, writerAddr: u64) {
    !useWriter || writerAddr != 0
  }

  /** The counts mapping is attempted only when some buffer is used and every
      buffer mapping before it succeeded. */
  predicate CountsMapped(useWriter: bool, useReader: bool, writerAddr: u64, readerAddr: u64) {
    WriterMapped(useWriter, writerAddr) && (!useReader || readerAddr != 0) && (useWriter || useReader)
  }

  /** The mapping requests init makes, in order. Each maps channel 0 (`TYPE | 0`),
      whatever the channel of the record. */
  function MapRequests(useWriter: bool, useReader: bool, writerAddr: u64, readerAddr: u64): (rs: seq<Request>)
    ensures |rs| <= 3
    ensures (MapMemory(WriterMemory, 0) in rs) == useWriter
    ensures (MapMemory(ReaderMemory, 0) in rs) == (useReader && WriterMapped(useWriter, writerAddr))
    ensures (MapMemory(CountsMemory, 0) in rs) == CountsMapped(useWriter, useReader, writerAddr, readerAddr)
    ensures forall i :: 0 <= i < |rs| ==> rs[i].MapMemory? && rs[i].channel == 0
  {
    (if useWriter then [MapMemory(WriterMemory, 0)] else [])
    + (if WriterMapped(useWriter, writerAddr) && useReader then [MapMemory(ReaderMemory, 0)] else [])
    + (if CountsMapped(useWriter, useReader, writerAddr, readerAddr) then [MapMemory(CountsMemory, 0)] else [])
  }

  /** init's return value: 0 exactly when every mapping it needed returned a non-zero address. */
  function InitStatus(useWriter: bool, useReader: bool, writerAddr: u64, readerAddr: u64, countsAddr: u64): (status: int)
    ensures status == 0 || status == EXIT_FAILURE
    ensures status == 0 <==>
      (useWriter ==> writerAddr != 0) && (useReader ==> readerAddr != 0) && (useWriter || useReader ==> countsAddr != 0)
  {
    if !WriterMapped(useWriter, writerAddr) || (useReader && readerAddr == 0) then EXIT_FAILURE
    else if (useWriter || useReader) && countsAddr == 0 then EXIT_FAILURE
    else 0
  }

  // ---------------------------------------------------------------------------
  // The control record

  class DmaCtrl {
    // Configuration the caller fills in before litepcie_dma_init.
    const dmaChannel: u8
    const useReader: bool
    const useWriter: bool
    const loopback: bool

    var fd: u32
    var zeroCopy: bool
    var bufRd: u64
    var bufWr: u64
    var hwCounts: u64
    var readerEnabled: bool
    var writerEnabled: bool
    var readerSwCount: u64
    var writerSwCount: u64
    var readerHwCount: u64
    var writerHwCount: u64
    var buffersAvailableRead: u64
    var buffersAvailableWrite: u64
    var usrReadBufOffset: u64
    var usrWriteBufOffset: u64

    /** Driver calls made so far, oldest first. */
    var requests: seq<Request>

    /** Offsets are ring slots and no more than a ring is ever available. */
    ghost predicate Valid()
      reads this
    {
      && usrReadBufOffset < DMA_BUFFER_COUNT && usrWriteBufOffset < DMA_BUFFER_COUNT
      && buffersAvailableRead <= DMA_BUFFER_COUNT && buffersAvailableWrite <= DMA_BUFFER_COUNT
    }

    /** A zero-initialised record with the caller's configuration. */
    constructor (channel: u8, useReader: bool, useWriter: bool, loopback: bool)
      ensures Valid()
      ensures dmaChannel == channel && this.useReader == useReader && this.useWriter == useWriter
      ensures this.loopback == loopback
      ensures fd == 0 && !zeroCopy && bufRd == 0 && bufWr == 0 && hwCounts == 0
      ensures !readerEnabled && !writerEnabled && requests == []
      ensures readerSwCount == 0 && writerSwCount == 0 && readerHwCount == 0 && writerHwCount == 0
      ensures buffersAvailableRead == 0 && buffersAvailableWrite == 0
      ensures usrReadBufOffset == 0 && usrWriteBufOffset == 0
    {
      dmaChannel, this.useReader, this.useWriter, this.loopback := channel, useReader, useWriter, loopback;
      fd, zeroCopy, bufRd, bufWr, hwCounts := 0, false, 0, 0, 0;
      readerEnabled, writerEnabled := false, false;
      readerSwCount, writerSwCount, readerHwCount, writerHwCount := 0, 0, 0, 0;
      buffersAvailableRead, buffersAvailableWrite := 0, 0;
      usrReadBufOffset, usrWriteBufOffset := 0, 0;
      requests := [];
    }

    /** litepcie_dma_set_loopback: one CSR write on builds that define the
        loopback register of this channel (`defined` lists those channels). */
    method SetLoopback(enable: bool, defined: set<nat>)
      modifies this`requests
      ensures requests == old(requests) +
        (if dmaChannel < 8 && dmaChannel in defined then [WriteLoopback(dmaChannel, if enable then 1 else 0)] else [])
    {
      if dmaChannel < 8 && dmaChannel in defined {
        requests := requests + [WriteLoopback(dmaChannel, if enable then 1 else 0)];
      }
    }

    /** litepcie_dma_writer: the driver's return code is only printed, so the flag
        follows the request whatever the driver answered. */
    method Writer(enable: bool)
      modifies this`requests, this`writerEnabled
      ensures requests == old(requests) + [ConfigWriterChannel(dmaChannel, enable)]
      ensures writerEnabled == enable
    {
      requests := requests + [ConfigWriterChannel(dmaChannel, enable)];
      writerEnabled := enable;
    }

    /** litepcie_dma_reader, the same for the reader channel. */
    method Reader(enable: bool)
      modifies this`requests, this`readerEnabled
      ensures requests == old(requests) + [ConfigReaderChannel(dmaChannel, enable)]
      ensures readerEnabled == enable
    {
      requests := requests + [ConfigReaderChannel(dmaChannel, enable)];
      readerEnabled := enable;
    }

    /** litepcie_dma_init. `fd` is what opening the device returned; the three
        addresses are what the driver's memory mappings returned (0 on failure). */
    method Init(fd: u32, zeroCopy: bool, loopbackDefined: set<nat>, writerAddr: u64, readerAddr: u64, countsAddr: u64)
      returns (status: int)
      requires Valid()
      modifies this`readerSwCount, this`writerSwCount, this`zeroCopy, this`fd, this`requests
      modifies this`bufRd, this`bufWr, this`hwCounts
      ensures Valid()
      ensures readerSwCount == 0 && writerSwCount == 0 && this.zeroCopy == zeroCopy && this.fd == fd
      ensures requests == old(requests)
        + (if dmaChannel < 8 && dmaChannel in loopbackDefined then [WriteLoopback(dmaChannel, if loopback then 1 else 0)] else [])
        + MapRequests(useWriter, useReader, writerAddr, readerAddr)
      ensures bufRd == (if useWriter && writerAddr != 0 then writerAddr else old(bufRd))
      ensures bufWr == (if WriterMapped(useWriter, writerAddr) && useReader && readerAddr != 0 then readerAddr else old(bufWr))
      ensures hwCounts == (if CountsMapped(useWriter, useReader, writerAddr, readerAddr) && countsAddr != 0 then countsAddr else old(hwCounts))
      ensures status == InitStatus(useWriter, useReader, writerAddr, readerAddr, countsAddr)
    {
      readerSwCount := 0;
      writerSwCount := 0;
      this.zeroCopy := zeroCopy;
      this.fd := fd;
      SetLoopback(loopback, loopbackDefined);
      status := MapBuffers(writerAddr, readerAddr, countsAddr);
    }

    /** The memory-mapping half of litepcie_dma_init, which returns at the first failed mapping. */
    method MapBuffers(writerAddr: u64, readerAddr: u64, countsAddr: u64) returns (status: int)
      modifies this`requests, this`bufRd, this`bufWr, this`hwCounts
      ensures requests == old(requests) + MapRequests(useWriter, useReader, writerAddr, readerAddr)
      ensures bufRd == (if useWriter && writerAddr != 0 then writerAddr else old(bufRd))
      ensures bufWr == (if WriterMapped(useWriter, writerAddr) && useReader && readerAddr != 0 then readerAddr else old(bufWr))
      ensures hwCounts == (if CountsMapped(useWriter, useReader, writerAddr, readerAddr) && countsAddr != 0 then countsAddr else old(hwCounts))
      ensures status == InitStatus(useWriter, useReader, writerAddr, readerAddr, countsAddr)
    {
      if useWriter {
        requests := requests + [MapMemory(WriterMemory, 0)];
        if writerAddr != 0 {
          bufRd := writerAddr;
        } else {
          return EXIT_FAILURE;
        }
      }
      if useReader {
        requests := requests + [MapMemory(ReaderMemory, 0)];
        if readerAddr != 0 {
          bufWr := readerAddr;
        } else {
          return EXIT_FAILURE;
        }
      }
      if useWriter || useReader {
        requests := requests + [MapMemory(CountsMemory, 0)];
        if countsAddr != 0 {
          hwCounts := countsAddr;
        } else {
          return EXIT_FAILURE;
        }
      }
      return 0;
    }

    /** litepcie_dma_cleanup: only a channel that is both used and enabled is disabled. */
    method Cleanup()
      modifies this`requests, this`readerEnabled, this`writerEnabled
      ensures requests == old(requests)
        + (if useReader && old(readerEnabled) then [ConfigReaderChannel(dmaChannel, false)] else [])
        + (if useWriter && old(writerEnabled) then [ConfigWriterChannel(dmaChannel, false)] else [])
      ensures readerEnabled == (old(readerEnabled) && !useReader)
      ensures writerEnabled == (old(writerEnabled) && !useWriter)
    {
      if useReader && readerEnabled {
        Reader(false);
      }
      if useWriter && writerEnabled {
        Writer(false);
      }
    }

    /** litepcie_dma_process against one snapshot `hw` of the hardware totals. */
    method Process(hw: DmaCounts)
      requires Valid()
      modifies this`requests, this`readerEnabled, this`writerEnabled
      modifies this`buffersAvailableRead, this`usrReadBufOffset, this`writerSwCount
      modifies this`buffersAvailableWrite, this`usrWriteBufOffset, this`readerSwCount
      modifies this`writerHwCount, this`readerHwCount
      ensures Valid()
      ensures requests == old(requests)
        + (if useReader && !old(readerEnabled) then [ConfigReaderChannel(dmaChannel, true)] else [])
        + (if useWriter && !old(writerEnabled) then [ConfigWriterChannel(dmaChannel, true)] else [])
      ensures readerEnabled == (old(readerEnabled) || useReader)
      ensures writerEnabled == (old(writerEnabled) || useWriter)
      ensures RingPlan(buffersAvailableRead, usrReadBufOffset, writerSwCount)
        == ReadAccounting(old(writerSwCount), hw.hwWriterCountTotal, old(usrReadBufOffset))
      ensures RingPlan(buffersAvailableWrite, usrWriteBufOffset, readerSwCount)
        == WriteAccounting(old(readerSwCount), hw.hwReaderCountTotal, old(usrWriteBufOffset))
      ensures writerHwCount == hw.hwWriterCountTotal && readerHwCount == hw.hwReaderCountTotal
    {
      if useReader && !readerEnabled {
        Reader(true);
      }
      if useWriter && !writerEnabled {
        Writer(true);
      }
      var rd := ReadAccounting(writerSwCount, hw.hwWriterCountTotal, usrReadBufOffset);
      buffersAvailableRead, usrReadBufOffset, writerSwCount := rd.available, rd.offset, rd.swCount;
      var wr := WriteAccounting(readerSwCount, hw.hwReaderCountTotal, usrWriteBufOffset);
      buffersAvailableWrite, usrWriteBufOffset, readerSwCount := wr.available, wr.offset, wr.swCount;
      writerHwCount := hw.hwWriterCountTotal;
      readerHwCount := hw.hwReaderCountTotal;
    }

    /** litepcie_dma_next_read_buffer: the address of the next filled buffer in
        the ring at `bufRd`, or NULL (None) when none is available. */
    method NextReadBuffer() returns (buf: Option<nat>)
      requires Valid()
      modifies this`buffersAvailableRead, this`usrReadBufOffset
      ensures Valid()
      ensures var (slot, c) := Take(Cursor(old(buffersAvailableRead), old(usrReadBufOffset)));
        && Cursor(buffersAvailableRead, usrReadBufOffset) == c
        && buf == (if slot.Some? then Some(bufRd + slot.value * DMA_BUFFER_SIZE) else None)
      ensures buf.Some? ==>
        bufRd <= buf.value < bufRd + DMA_BUFFER_COUNT * DMA_BUFFER_SIZE && (buf.value - bufRd) % DMA_BUFFER_SIZE == 0
    {
      if buffersAvailableRead == 0 {
        return None;
      }
      buffersAvailableRead := buffersAvailableRead - 1;
      buf := Some(bufRd + usrReadBufOffset * DMA_BUFFER_SIZE);
      usrReadBufOffset := (usrReadBufOffset + 1) % DMA_BUFFER_COUNT;
    }

    /** litepcie_dma_next_write_buffer: the same over the ring at `bufWr`. */
    method NextWriteBuffer() returns (buf: Option<nat>)
      requires Valid()
      modifies this`buffersAvailableWrite, this`usrWriteBufOffset
      ensures Valid()
      ensures var (slot, c) := Take(Cursor(old(buffersAvailableWrite), old(usrWriteBufOffset)));
        && Cursor(buffersAvailableWrite, usrWriteBufOffset) == c
        && buf == (if slot.Some? then Some(bufWr + slot.value * DMA_BUFFER_SIZE) else None)
      ensures buf.Some? ==>
        bufWr <= buf.value < bufWr + DMA_BUFFER_COUNT * DMA_BUFFER_SIZE && (buf.value - bufWr) % DMA_BUFFER_SIZE == 0
    {
      if buffersAvailableWrite == 0 {
        return None;
      }
      buffersAvailableWrite := buffersAvailableWrite - 1;
      buf := Some(bufWr + usrWriteBufOffset * DMA_BUFFER_SIZE);
      usrWriteBufOffset := (usrWriteBufOffset + 1) % DMA_BUFFER_COUNT;
    }
  }
}
