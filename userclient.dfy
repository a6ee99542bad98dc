/**
 * The driver's user client (litepcie_userclient.cpp): the external-method
 * switch with its argument checks and register accesses, and the per-channel
 * tables of memory descriptors handed out by CopyClientMemoryForType and
 * released by Stop.
 *
 * The device is abstract: every register access is appended to a bus log, and
 * the values the device returns on reads arrive as parameters. Calls into the
 * driver's DMA channel functions are appended to a separate log. Memory
 * descriptors are abstract ids with a reference count each.
 */
module UserClient {

  import opened Wrappers
  import opened Words
  import Layout

  // ---------------------------------------------------------------------------
  // Constants

  /** `LitePCIeMessageType`: the CSR selectors are the first two enumerators. */
  const LITEPCIE_READ_CSR: bv64 := 0
  const LITEPCIE_WRITE_CSR: bv64 := 1
  /** The remaining selectors come from a header that is not part of this
      model; any values distinct from each other and from the two above do. */
  const LITEPCIE_CONFIG_DMA_READER_CHANNEL: bv64 := 2
  const LITEPCIE_CONFIG_DMA_WRITER_CHANNEL: bv64 := 3
  const LITEPCIE_ICAP: bv64 := 4
  const LITEPCIE_FLASH: bv64 := 5

  /** Memory-type flag bits, above the 4-bit channel number (values assumed). */
  const LITEPCIE_DMA_READER: bv64 := 0x10
  const LITEPCIE_DMA_WRITER: bv64 := 0x20
  const LITEPCIE_DMA_COUNTS: bv64 := 0x40

  const IO_USER_CLIENT_MEMORY_READ_ONLY: bv64 := 0x1

  /** Number of entries in each of `rdma`, `wdma` and `cdma`. */
  const CHANNELS: nat := 16

  /** CSR register offsets (`CSR_TO_OFFSET(...)`) of the generated csr.h (values assumed). */
  const FLASH_SPI_CONTROL: bv64 := 0x3800
  const FLASH_SPI_MOSI: bv64 := 0x3808
  const FLASH_SPI_MISO: bv64 := 0x3810
  const ICAP_ADDR: bv64 := 0x4000
  const ICAP_DATA: bv64 := 0x4004
  const ICAP_WRITE: bv64 := 0x4008

  // ---------------------------------------------------------------------------
  // Values crossing the user-client boundary

  /** `kern_return_t`: success, `kIOReturnBadArgument`, or any other code. */
  datatype IOReturn = Success | BadArgument | OtherError(code: bv32)

  datatype ConfigDmaChannelData = ConfigDmaChannelData(channel: u32, enable: bool)
  datatype FlashCallData = FlashCallData(txLen: bv32, txData: bv64, rxData: bv64)
  datatype IcapCallData = IcapCallData(addr: bv32, data: bv32)

  /** The bytes of a structure input, read through the layout of each call. */
  datatype StructBytes = StructBytes(config: ConfigDmaChannelData, flash: FlashCallData, icap: IcapCallData)

  /** `arguments->structureInput`: a null pointer, an object whose
      `getBytesNoCopy()` is null, or bytes. */
  datatype StructureInput = NoStructure | NullBytes | Bytes(bytes: StructBytes)

  /** `IOUserClientMethodArguments*`; `scalarInput` is None for a null pointer,
      otherwise the `scalarInputCount` values it points to. */
  datatype Arguments =
    | NullArguments
    | Arguments(structureInput: StructureInput, scalarInput: Option<seq<bv64>>)

  /** One access on the device's BAR 0. */
  datatype BusOp = Write(offset: bv64, value: bv32) | Read(offset: bv64)

  /** One call on the driver's DMA channel functions. */
  datatype ChannelCall =
    | SetupChannel(isReader: bool, channel: u32)
    | StartChannel(isReader: bool, channel: u32, flag: bool)
    | StopChannel(isReader: bool, channel: u32)

  /** What the device answers on reads during one external method: the CSR
      value, the n-th status poll, and the two MISO words. */
  datatype DeviceReplies = DeviceReplies(csrValue: bv32, spiStatus: nat -> bv32, misoHigh: bv32, misoLow: bv32)

  // ---------------------------------------------------------------------------
  // The selector switch

  datatype Handler = ConfigDmaChannel(isReader: bool) | ReadCsr | WriteCsr | Icap | Flash | Unhandled

  function HandlerFor(selector: bv64): (h: Handler)
    ensures h == ConfigDmaChannel(true) <==> selector == LITEPCIE_CONFIG_DMA_READER_CHANNEL
    ensures h == ConfigDmaChannel(false) <==> selector == LITEPCIE_CONFIG_DMA_WRITER_CHANNEL
    ensures h == ReadCsr <==> selector == LITEPCIE_READ_CSR
    ensures h == WriteCsr <==> selector == LITEPCIE_WRITE_CSR
    ensures h == Icap <==> selector == LITEPCIE_ICAP
    ensures h == Flash <==> selector == LITEPCIE_FLASH
  {
    if selector == LITEPCIE_CONFIG_DMA_READER_CHANNEL then ConfigDmaChannel(true)
    else if selector == LITEPCIE_CONFIG_DMA_WRITER_CHANNEL then ConfigDmaChannel(false)
    else if selector == LITEPCIE_READ_CSR then ReadCsr
    else if selector == LITEPCIE_WRITE_CSR then WriteCsr
    else if selector == LITEPCIE_ICAP then Icap
    else if selector == LITEPCIE_FLASH then Flash
    else Unhandled
  }

  // ---------------------------------------------------------------------------
  // Argument checks

  /** The three checks shared by the structure-input handlers. */
  function StructInput(args: Arguments): (r: Result<StructBytes, IOReturn>)
    ensures r.Ok? <==> args.Arguments? && args.structureInput.Bytes?
    ensures r.Ok? ==> args.structureInput == Bytes(r.value)
    ensures r.Err? ==> r.error == BadArgument
  {
    if args.NullArguments? then Err(BadArgument)
    else match args.structureInput
      case NoStructure => Err(BadArgument)
      case NullBytes => Err(BadArgument)
      case Bytes(b) => Ok(b)
  }

  /** The scalar check of the CSR handlers: a non-null array of exactly `count` values. */
  function ScalarInput(args: Arguments, count: nat): (r: Result<seq<bv64>, IOReturn>)
    ensures r.Ok? <==> args.Arguments? && args.scalarInput.Some? && |args.scalarInput.value| == count
    ensures r.Ok? ==> r.value == args.scalarInput.value && |r.value| == count
    ensures r.Err? ==> r.error == BadArgument
  {
    if args.Arguments? && args.scalarInput.Some? && |args.scalarInput.value| == count then Ok(args.scalarInput.value)
    else Err(BadArgument)
  }

  predicate TxLenAccepted(txLen: bv32) {
    8 <= txLen <= 40
  }

  /** The checks of HandleFlash as written: the input fields are copied into
      the output before the null test on the bytes. */
  datatype FlashEntry = Proceed(input: FlashCallData) | Reject(ret: IOReturn) | NullDereference

  function FlashInputAsWritten(args: Arguments): (e: FlashEntry)
    ensures e == NullDereference <==> args.Arguments? && args.structureInput == NullBytes
  {
    if args.NullArguments? then Reject(BadArgument)
    else match args.structureInput
      case NoStructure => Reject(BadArgument)
      case NullBytes => NullDereference
      case Bytes(b) => if TxLenAccepted(b.flash.txLen) then Proceed(b.flash) else Reject(BadArgument)
  }

  /** The checks of HandleFlash with the copy moved behind the null test. */
  function FlashInput(args: Arguments): (r: Result<FlashCallData, IOReturn>)
    ensures r.Ok? <==> StructInput(args).Ok? && TxLenAccepted(StructInput(args).value.flash.txLen)
    ensures r.Ok? ==> r.value == StructInput(args).value.flash
    ensures r.Err? ==> r.error == BadArgument
  {
    match StructInput(args)
    case Err(e) => Err(e)
    case Ok(b) => if TxLenAccepted(b.flash.txLen) then Ok(b.flash) else Err(BadArgument)
  }

  /** The early read of the input bytes at lines 220-222 dereferences a null
      pointer when `getBytesNoCopy()` returns null; the null test below it
      cannot run. The corrected checks return kIOReturnBadArgument. */
  lemma FlashNullBytesDereferenced(scalars: Option<seq<bv64>>)
    ensures FlashInputAsWritten(Arguments(NullBytes, scalars)) == NullDereference
    ensures FlashInput(Arguments(NullBytes, scalars)) == Err(BadArgument)
  {
  }

  /** Away from the null-bytes case the two versions of the checks agree. */
  lemma FlashChecksAgree(args: Arguments)
    requires !(args.Arguments? && args.structureInput == NullBytes)
    ensures FlashInput(args).Ok? <==> FlashInputAsWritten(args).Proceed?
    ensures FlashInput(args).Ok? ==> FlashInputAsWritten(args).input == FlashInput(args).value
    ensures FlashInput(args).Err? ==> FlashInputAsWritten(args) == Reject(FlashInput(args).error)
  {
  }

  // ---------------------------------------------------------------------------
  // Channel configuration

  /** The driver calls HandleConfigDmaChannel makes, given whether the channel is enabled now. */
  function ConfigCalls(isReader: bool, enabledNow: bool, d: ConfigDmaChannelData): (calls: seq<ChannelCall>)
    ensures calls == [] <==> enabledNow == d.enable
    ensures enabledNow != d.enable && d.enable ==>
      calls == [SetupChannel(isReader, d.channel), StartChannel(isReader, d.channel, true)]
    ensures enabledNow != d.enable && !d.enable ==> calls == [StopChannel(isReader, d.channel)]
  {
    if enabledNow == d.enable then []
    else if d.enable then [SetupChannel(isReader, d.channel), StartChannel(isReader, d.channel, true)]
    else [StopChannel(isReader, d.channel)]
  }

  /** The enabled channels of one direction after the driver runs `calls`:
      a start enables its channel and a stop disables it. */
  function ChannelsAfter(on: set<u32>, isReader: bool, calls: seq<ChannelCall>): (on': set<u32>)
    ensures forall ch :: ch in on' && ch !in on ==>
      StartChannel(isReader, ch, true) in calls || StartChannel(isReader, ch, false) in calls
    ensures forall ch :: ch in on && ch !in on' ==> StopChannel(isReader, ch) in calls
  {
    if calls == [] then on
    else
      var c := calls[|calls| - 1];
      var before := ChannelsAfter(on, isReader, calls[..|calls| - 1]);
      assert calls == calls[..|calls| - 1] + [c];
      if c.StartChannel? && c.isReader == isReader then before + {c.channel}
      else if c.StopChannel? && c.isReader == isReader then before - {c.channel}
      else before
  }

  /** After the calls, the channel is enabled exactly when it was asked to be,
      and no other channel of either direction changes. */
  lemma ConfigReachesRequest(on: set<u32>, isReader: bool, d: ConfigDmaChannelData)
    ensures var calls := ConfigCalls(isReader, d.channel in on, d);
      var on' := ChannelsAfter(on, isReader, calls);
      (d.channel in on' <==> d.enable)
      && on' - {d.channel} == on - {d.channel}
      && ChannelsAfter(on, !isReader, calls) == on
  {
  }

  /** Repeating a configuration request makes no further driver call. */
  lemma ConfigIdempotent(on: set<u32>, isReader: bool, d: ConfigDmaChannelData)
    ensures var on' := ChannelsAfter(on, isReader, ConfigCalls(isReader, d.channel in on, d));
      ConfigCalls(isReader, d.channel in on', d) == []
  {
  }

  // ---------------------------------------------------------------------------
  // Flash transfer

  /** The three register writes that start a transfer of `input`. */
  function FlashStartWrites(input: FlashCallData): (ws: seq<BusOp>)
    requires TxLenAccepted(input.txLen)
    ensures |ws| == 3
    ensures ws[0] == Write(FLASH_SPI_MOSI, HighWord(input.txData))
    ensures ws[1] == Write(FLASH_SPI_MOSI + 4, LowWord(input.txData))
    ensures ws[2] == Write(FLASH_SPI_CONTROL, Layout.SpiControlWord(input.txLen))
    ensures JoinWords(ws[0].value, ws[1].value) == input.txData
  {
    SplitJoin(input.txData);
    [Write(FLASH_SPI_MOSI, HighWord(input.txData)),
     Write(FLASH_SPI_MOSI + 4, LowWord(input.txData)),
     Write(FLASH_SPI_CONTROL, Layout.SpiControlWord(input.txLen))]
  }

  /** The whole bus traffic of one transfer that took `polls` status reads.
      The poll loop reads the MOSI register, as the source does. */
  function FlashBus(input: FlashCallData, polls: nat): (ops: seq<BusOp>)
    requires TxLenAccepted(input.txLen)
    ensures |ops| == polls + 5
    ensures ops[..3] == FlashStartWrites(input)
    ensures forall j :: 3 <= j < 3 + polls ==> ops[j] == Read(FLASH_SPI_MOSI)
    ensures ops[polls + 3..] == [Read(FLASH_SPI_MISO), Read(FLASH_SPI_MISO + 4)]
  {
    FlashStartWrites(input) + seq(polls, _ => Read(FLASH_SPI_MOSI)) + [Read(FLASH_SPI_MISO), Read(FLASH_SPI_MISO + 4)]
  }

  /** `polls` status reads are what the bounded loop performs on the status
      sequence `status`: it stops at the first done status, or after SPI_TIMEOUT reads. */
  ghost predicate PollCount(status: nat -> bv32, polls: nat) {
    1 <= polls <= Layout.SPI_TIMEOUT
    && (forall j :: 0 <= j < polls - 1 ==> !Layout.SpiDone(status(j)))
    && (Layout.SpiDone(status(polls - 1)) || polls == Layout.SPI_TIMEOUT)
  }

  /** The loop's read count is determined by the status sequence. */
  lemma PollCountUnique(status: nat -> bv32, a: nat, b: nat)
    requires PollCount(status, a) && PollCount(status, b)
    ensures a == b
  {
  }

  /** The poll loop of HandleFlash on the status values the device returns. */
  method PollSpiDone(status: nat -> bv32) returns (polls: nat)
    ensures PollCount(status, polls)
  {
    var i := 0;
    while i < Layout.SPI_TIMEOUT
      invariant 0 <= i <= Layout.SPI_TIMEOUT
      invariant forall j :: 0 <= j < i ==> !Layout.SpiDone(status(j))
    {
      if Layout.SpiDone(status(i)) {
        return i + 1;
      }
      i := i + 1;
    }
    return Layout.SPI_TIMEOUT;
  }

  // ---------------------------------------------------------------------------
  // Memory descriptor tables

  type DescId = nat

  datatype MemoryTable = ReaderTable | WriterTable | CountsTable

  /** Position of a table in the list [rdma, wdma, cdma]. */
  function TableIndex(t: MemoryTable): (k: nat)
    ensures k < 3
  {
    match t
    case ReaderTable => 0
    case WriterTable => 1
    case CountsTable => 2
  }

  /** `uint8_t dma_channel = memType & 0xF`. */
  function ChannelOf(memType: bv64): (ch: nat)
    ensures ch < CHANNELS
    ensures ch as bv64 == memType & 0xF
  {
    (memType & 0xF) as nat
  }

  /** The table a memory type selects; None sends the request to the superclass. */
  function TableFor(memType: bv64): (t: Option<MemoryTable>)
    ensures t == Some(ReaderTable) <==> memType & LITEPCIE_DMA_READER != 0
    ensures t == Some(WriterTable) <==> memType & LITEPCIE_DMA_READER == 0 && memType & LITEPCIE_DMA_WRITER != 0
    ensures t == Some(CountsTable) <==>
      memType & LITEPCIE_DMA_READER == 0 && memType & LITEPCIE_DMA_WRITER == 0 && memType & LITEPCIE_DMA_COUNTS != 0
  {
    if memType & LITEPCIE_DMA_READER != 0 then Some(ReaderTable)
    else if memType & LITEPCIE_DMA_WRITER != 0 then Some(WriterTable)
    else if memType & LITEPCIE_DMA_COUNTS != 0 then Some(CountsTable)
    else None
  }

  /** The three tables hold 16 slots each; every held descriptor is alive
      (has a positive count) and no descriptor sits in two slots. */
  ghost predicate TablesValid(ts: seq<seq<Option<DescId>>>, refs: map<DescId, int>) {
    |ts| == 3
    && (forall k :: 0 <= k < 3 ==> |ts[k]| == CHANNELS)
    && (forall k, i :: 0 <= k < 3 && 0 <= i < CHANNELS && ts[k][i].Some? ==>
          ts[k][i].value in refs && refs[ts[k][i].value] >= 1)
    && (forall k, i, l, j ::
          0 <= k < 3 && 0 <= i < CHANNELS && 0 <= l < 3 && 0 <= j < CHANNELS && (k != l || i != j) && ts[k][i].Some? ==>
          ts[k][i] != ts[l][j])
  }

  /** Caching a newly created descriptor in an empty slot keeps the tables valid. */
  lemma InstallKeepsValid(ts: seq<seq<Option<DescId>>>, refs: map<DescId, int>, k: nat, ch: nat, newId: DescId)
    requires TablesValid(ts, refs) && k < 3 && ch < CHANNELS && ts[k][ch].None? && newId !in refs
    ensures TablesValid(ts[k := ts[k][ch := Some(newId)]], refs[newId := 2])
  {
  }

  /** Retaining a live descriptor keeps the tables valid. */
  lemma RetainKeepsValid(ts: seq<seq<Option<DescId>>>, refs: map<DescId, int>, d: DescId)
    requires TablesValid(ts, refs) && d in refs
    ensures TablesValid(ts, refs[d := refs[d] + 1])
  {
  }

  /** `release()` of a non-null slot. */
  function Release(refs: map<DescId, int>, slot: Option<DescId>): (refs': map<DescId, int>)
    ensures refs'.Keys == refs.Keys
    ensures slot.Some? && slot.value in refs ==> refs' == refs[slot.value := refs[slot.value] - 1]
    ensures slot.None? || slot.value !in refs ==> refs' == refs
  {
    if slot.Some? && slot.value in refs then refs[slot.value := refs[slot.value] - 1] else refs
  }

  /** The counts after Stop's loop has run over the first `n` channels. */
  function ReleaseSlots(refs: map<DescId, int>, ts: seq<seq<Option<DescId>>>, n: nat): (refs': map<DescId, int>)
    requires |ts| == 3 && n <= |ts[0]| && n <= |ts[1]| && n <= |ts[2]|
    ensures refs'.Keys == refs.Keys
  {
    if n == 0 then refs
    else Release(Release(Release(ReleaseSlots(refs, ts, n - 1), ts[0][n - 1]), ts[1][n - 1]), ts[2][n - 1])
  }

  /** Descriptors held in the first `n` slots of the tables. */
  ghost function Held(ts: seq<seq<Option<DescId>>>, n: nat): set<DescId>
    requires |ts| == 3 && n <= |ts[0]| && n <= |ts[1]| && n <= |ts[2]|
  {
    set k, i | 0 <= k < 3 && 0 <= i < n && ts[k][i].Some? :: ts[k][i].value
  }

  /** Releasing the first `n` channels lowers each held descriptor's count by
      exactly one and leaves every other count alone. */
  lemma {:induction false} ReleaseSlotsOnce(refs: map<DescId, int>, ts: seq<seq<Option<DescId>>>, n: nat)
    requires TablesValid(ts, refs) && n <= CHANNELS
    ensures forall d :: d in refs ==>
      ReleaseSlots(refs, ts, n)[d] == refs[d] - (if d in Held(ts, n) then 1 else 0)
  {
    if n > 0 {
      ReleaseSlotsOnce(refs, ts, n - 1);
      forall d | d in refs
        ensures ReleaseSlots(refs, ts, n)[d] == refs[d] - (if d in Held(ts, n) then 1 else 0)
      {
        var slot := [ts[0][n - 1], ts[1][n - 1], ts[2][n - 1]];
        if d in Held(ts, n - 1) {
          var k, i :| 0 <= k < 3 && 0 <= i < n - 1 && ts[k][i].Some? && ts[k][i].value == d;
          assert ts[k][i] != ts[0][n - 1] && ts[k][i] != ts[1][n - 1] && ts[k][i] != ts[2][n - 1];
          assert d in Held(ts, n);
        } else if exists k :: 0 <= k < 3 && slot[k] == Some(d) {
          var k :| 0 <= k < 3 && slot[k] == Some(d);
          assert ts[k][n - 1] == Some(d);
          assert forall l :: 0 <= l < 3 && l != k ==> ts[l][n - 1] != Some(d);
          assert d in Held(ts, n);
        } else {
          forall k, i | 0 <= k < 3 && 0 <= i < n && ts[k][i].Some?
            ensures ts[k][i].value != d
          {
            if i == n - 1 {
              assert slot[k] == ts[k][i];
            }
          }
          assert d !in Held(ts, n);
        }
      }
    }
  }

  // ---------------------------------------------------------------------------
  // The user client object

  class UserClient {
    /** Register accesses made so far. */
    var bus: seq<BusOp>
    /** Calls made so far on the driver's DMA channel functions. */
    var calls: seq<ChannelCall>
    /** Channels the driver reports enabled, per direction. */
    var readerOn: set<u32>
    var writerOn: set<u32>

    const rdma: array<Option<DescId>>
    const wdma: array<Option<DescId>>
    const cdma: array<Option<DescId>>
    /** The reference count of every descriptor the client has seen. */
    var refs: map<DescId, int>

    function Table(t: MemoryTable): array<Option<DescId>> {
      match t
      case ReaderTable => rdma
      case WriterTable => wdma
      case CountsTable => cdma
    }

    ghost function Tables(): seq<seq<Option<DescId>>>
      reads rdma, wdma, cdma
    {
      [rdma[..], wdma[..], cdma[..]]
    }

    ghost predicate Valid()
      reads this, rdma, wdma, cdma
    {
      rdma != wdma && wdma != cdma && rdma != cdma
      && rdma.Length == CHANNELS && wdma.Length == CHANNELS && cdma.Length == CHANNELS
      && TablesValid(Tables(), refs)
    }

    /** `init`: the tables start out empty. The driver's channels may already be
        enabled, as given by `readerOn` and `writerOn`. */
    constructor (readerOn: set<u32>, writerOn: set<u32>)
      ensures Valid()
      ensures bus == [] && calls == [] && this.readerOn == readerOn && this.writerOn == writerOn && refs == map[]
      ensures forall i :: 0 <= i < CHANNELS ==> rdma[i] == None && wdma[i] == None && cdma[i] == None
      ensures fresh(rdma) && fresh(wdma) && fresh(cdma)
    {
      bus := [];
      calls := [];
      this.readerOn := readerOn;
      this.writerOn := writerOn;
      refs := map[];
      rdma := new Option<DescId>[CHANNELS](_ => None);
      wdma := new Option<DescId>[CHANNELS](_ => None);
      cdma := new Option<DescId>[CHANNELS](_ => None);
    }

    // -------------------------------------------------------------------------
    // External methods: each handler's effect, stated once.

    twostate predicate ChannelsUnchanged()
      reads this
    {
      calls == old(calls) && readerOn == old(readerOn) && writerOn == old(writerOn)
    }

    twostate predicate ConfigDone(args: Arguments, isReader: bool, ret: IOReturn)
      reads this
    {
      bus == old(bus)
      && match StructInput(args)
        case Err(e) => ret == e && ChannelsUnchanged()
        case Ok(b) =>
          var d := b.config;
          var made := ConfigCalls(isReader, d.channel in (if isReader then old(readerOn) else old(writerOn)), d);
          ret == Success
          && calls == old(calls) + made
          && readerOn == ChannelsAfter(old(readerOn), true, made)
          && writerOn == ChannelsAfter(old(writerOn), false, made)
    }

    twostate predicate FlashDone(args: Arguments, hasSpiFlash: bool, replies: DeviceReplies,
                                 ret: IOReturn, new output: Option<FlashCallData>)
      reads this
    {
      ChannelsUnchanged()
      && match FlashInput(args)
        case Err(e) => ret == e && output == None && bus == old(bus)
        case Ok(input) =>
          ret == Success
          && if hasSpiFlash then
            output == Some(input.(rxData := JoinWords(replies.misoHigh, replies.misoLow)))
            && exists polls :: PollCount(replies.spiStatus, polls) && bus == old(bus) + FlashBus(input, polls)
          else
            output == Some(input) && bus == old(bus)
    }

    twostate predicate IcapDone(args: Arguments, ret: IOReturn)
      reads this
    {
      ChannelsUnchanged()
      && match StructInput(args)
        case Err(e) => ret == e && bus == old(bus)
        case Ok(b) =>
          ret == Success
          && bus == old(bus) + [Write(ICAP_ADDR, b.icap.addr), Write(ICAP_DATA, b.icap.data), Write(ICAP_WRITE, 1)]
    }

    twostate predicate ReadCsrDone(args: Arguments, value: bv32, ret: IOReturn, new output: Option<bv32>)
      reads this
    {
      ChannelsUnchanged()
      && match ScalarInput(args, 1)
        case Err(e) => ret == e && output == None && bus == old(bus)
        case Ok(input) => ret == Success && output == Some(value) && bus == old(bus) + [Read(input[0])]
    }

    twostate predicate WriteCsrDone(args: Arguments, ret: IOReturn)
      reads this
    {
      ChannelsUnchanged()
      && match ScalarInput(args, 2)
        case Err(e) => ret == e && bus == old(bus)
        case Ok(input) => ret == Success && bus == old(bus) + [Write(input[0], LowWord(input[1]))]
    }

    method HandleConfigDmaChannel(args: Arguments, isReader: bool) returns (ret: IOReturn)
      modifies this`calls, this`readerOn, this`writerOn
      ensures ConfigDone(args, isReader, ret)
    {
      match StructInput(args)
      case Err(e) =>
        ret := e;
      case Ok(b) =>
        var d := b.config;
        var made := ConfigCalls(isReader, d.channel in (if isReader then readerOn else writerOn), d);
        calls := calls + made;
        readerOn := ChannelsAfter(readerOn, true, made);
        writerOn := ChannelsAfter(writerOn, false, made);
        ret := Success;
    }

    /** `hasSpiFlash` stands for the build defining CSR_FLASH_SPI_MOSI_ADDR. */
    method HandleFlash(args: Arguments, hasSpiFlash: bool, replies: DeviceReplies)
      returns (ret: IOReturn, output: Option<FlashCallData>)
      modifies this`bus
      ensures FlashDone(args, hasSpiFlash, replies, ret, output)
    {
      match FlashInput(args)
      case Err(e) =>
        ret, output := e, None;
      case Ok(input) =>
        if hasSpiFlash {
          bus := bus + FlashStartWrites(input);
          var polls := PollSpiDone(replies.spiStatus);
          bus := bus + seq(polls, _ => Read(FLASH_SPI_MOSI));
          bus := bus + [Read(FLASH_SPI_MISO), Read(FLASH_SPI_MISO + 4)];
          assert bus == old(bus) + FlashBus(input, polls);
          output := Some(input.(rxData := JoinWords(replies.misoHigh, replies.misoLow)));
        } else {
          output := Some(input);
        }
        ret := Success;
    }

    method HandleIcap(args: Arguments) returns (ret: IOReturn)
      modifies this`bus
      ensures IcapDone(args, ret)
    {
      match StructInput(args)
      case Err(e) =>
        ret := e;
      case Ok(b) =>
        bus := bus + [Write(ICAP_ADDR, b.icap.addr)];
        bus := bus + [Write(ICAP_DATA, b.icap.data)];
        bus := bus + [Write(ICAP_WRITE, 1)];
        ret := Success;
    }

    method HandleReadCsr(args: Arguments, value: bv32) returns (ret: IOReturn, output: Option<bv32>)
      modifies this`bus
      ensures ReadCsrDone(args, value, ret, output)
    {
      match ScalarInput(args, 1)
      case Err(e) =>
        ret, output := e, None;
      case Ok(input) =>
        bus := bus + [Read(input[0])];
        ret, output := Success, Some(value);
    }

    method HandleWriteCsr(args: Arguments) returns (ret: IOReturn)
      modifies this`bus
      ensures WriteCsrDone(args, ret)
    {
      match ScalarInput(args, 2)
      case Err(e) =>
        ret := e;
      case Ok(input) =>
        bus := bus + [Write(input[0], LowWord(input[1]))];
        ret := Success;
    }

    /** The selector switch. `csrOutput` is the low word of `scalarOutput[0]`
        and `structureOutput` the flash result. */
    method ExternalMethod(selector: bv64, args: Arguments, hasSpiFlash: bool, replies: DeviceReplies)
      returns (ret: IOReturn, csrOutput: Option<bv32>, structureOutput: Option<FlashCallData>)
      modifies this`bus, this`calls, this`readerOn, this`writerOn
      ensures HandlerFor(selector).ConfigDmaChannel? ==>
        ConfigDone(args, HandlerFor(selector).isReader, ret) && csrOutput == None && structureOutput == None
      ensures HandlerFor(selector) == ReadCsr ==>
        ReadCsrDone(args, replies.csrValue, ret, csrOutput) && structureOutput == None
      ensures HandlerFor(selector) == WriteCsr ==>
        WriteCsrDone(args, ret) && csrOutput == None && structureOutput == None
      ensures HandlerFor(selector) == Icap ==>
        IcapDone(args, ret) && csrOutput == None && structureOutput == None
      ensures HandlerFor(selector) == Flash ==>
        FlashDone(args, hasSpiFlash, replies, ret, structureOutput) && csrOutput == None
      ensures HandlerFor(selector) == Unhandled ==>
        ret == Success && csrOutput == None && structureOutput == None && bus == old(bus) && ChannelsUnchanged()
    {
      csrOutput, structureOutput := None, None;
      match HandlerFor(selector)
      case ConfigDmaChannel(isReader) =>
        ret := HandleConfigDmaChannel(args, isReader);
      case ReadCsr =>
        ret, csrOutput := HandleReadCsr(args, replies.csrValue);
      case WriteCsr =>
        ret := HandleWriteCsr(args);
      case Icap =>
        ret := HandleIcap(args);
      case Flash =>
        ret, structureOutput := HandleFlash(args, hasSpiFlash, replies);
      case Unhandled =>
        ret := Success;
    }

    // -------------------------------------------------------------------------
    // Memory mapping

    /** The effect of serving one table slot: a cached descriptor is retained
        and returned; an empty slot is filled by the driver's create call
        (`createRet`, new descriptor `newId`), which on success leaves it
        cached, retained, and returned. */
    twostate predicate SlotServed(t: array<Option<DescId>>, ch: nat, newId: DescId, createRet: IOReturn,
                                  ret: IOReturn, new memory: Option<DescId>)
      requires ch < t.Length
      reads this, t
    {
      if old(t[ch]).Some? then
        var d := old(t[ch]).value;
        ret == Success && memory == Some(d) && t[..] == old(t[..])
        && d in old(refs) && refs == old(refs)[d := old(refs)[d] + 1]
      else if createRet == Success then
        ret == Success && memory == Some(newId) && t[..] == old(t[..])[ch := Some(newId)]
        && refs == old(refs)[newId := 2]
      else
        ret == createRet && memory == None && t[..] == old(t[..]) && refs == old(refs)
    }

    method ServeSlot(t: MemoryTable, ch: nat, newId: DescId, createRet: IOReturn)
      returns (ret: IOReturn, memory: Option<DescId>)
      requires Valid() && ch < CHANNELS && newId !in refs
      modifies Table(t), this`refs
      ensures Valid()
      ensures SlotServed(Table(t), ch, newId, createRet, ret, memory)
    {
      var a := Table(t);
      ghost var ts := Tables();
      assert ts[TableIndex(t)] == a[..];
      if a[ch].Some? {
        var d := a[ch].value;
        RetainKeepsValid(ts, refs, d);
        refs := refs[d := refs[d] + 1];
        ret, memory := Success, Some(d);
      } else if createRet == Success {
        InstallKeepsValid(ts, refs, TableIndex(t), ch, newId);
        a[ch] := Some(newId);
        refs := refs[newId := 2];
        assert Tables() == ts[TableIndex(t) := ts[TableIndex(t)][ch := Some(newId)]];
        ret, memory := Success, Some(newId);
      } else {
        ret, memory := createRet, None;
      }
    }

    /** CopyClientMemoryForType. `newId` is the descriptor a create call would
        make (one the client has not seen), `createRet` that call's result, and
        `superRet`, `superOptions` and `superMemory` the superclass's answer. */
    method CopyClientMemoryForType(memType: bv64, options: bv64, newId: DescId, createRet: IOReturn,
                                   superRet: IOReturn, superOptions: bv64, superMemory: Option<DescId>)
      returns (ret: IOReturn, options': bv64, memory: Option<DescId>)
      requires Valid() && newId !in refs
      modifies rdma, wdma, cdma, this`refs
      ensures Valid()
      ensures TableFor(memType).None? ==>
        ret == superRet && options' == superOptions && memory == superMemory && refs == old(refs)
        && rdma[..] == old(rdma[..]) && wdma[..] == old(wdma[..]) && cdma[..] == old(cdma[..])
      ensures TableFor(memType).Some? ==>
        var t := TableFor(memType).value;
        SlotServed(Table(t), ChannelOf(memType), newId, createRet, ret, memory)
        && (forall u :: u != t ==> Table(u)[..] == old(Table(u)[..]))
        && options' == if t == CountsTable && ret == Success then options | IO_USER_CLIENT_MEMORY_READ_ONLY else options
    {
      options' := options;
      match TableFor(memType)
      case None =>
        ret, options', memory := superRet, superOptions, superMemory;
      case Some(t) =>
        ret, memory := ServeSlot(t, ChannelOf(memType), newId, createRet);
        if t == CountsTable && ret == Success {
          options' := options | IO_USER_CLIENT_MEMORY_READ_ONLY;
        }
    }

    /** Stop: every descriptor held in a table is released exactly once; the
        tables themselves are left as they are. */
    method Stop() returns (ret: IOReturn)
      requires Valid()
      modifies this`refs
      ensures ret == Success
      ensures refs == ReleaseSlots(old(refs), Tables(), CHANNELS)
      ensures refs.Keys == old(refs).Keys
      ensures forall d :: d in old(refs) ==> refs[d] == old(refs)[d] - (if d in Held(Tables(), CHANNELS) then 1 else 0)
    {
      ghost var ts := Tables();
      var i := 0;
      while i < CHANNELS
        invariant 0 <= i <= CHANNELS
        invariant refs == ReleaseSlots(old(refs), ts, i)
      {
        assert ts[0][i] == rdma[i] && ts[1][i] == wdma[i] && ts[2][i] == cdma[i];
        refs := Release(refs, rdma[i]);
        refs := Release(refs, wdma[i]);
        refs := Release(refs, cdma[i]);
        i := i + 1;
      }
      ReleaseSlotsOnce(old(refs), ts, CHANNELS);
      ret := Success;
    }
  }
}
