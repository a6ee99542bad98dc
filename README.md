# LitePCIe macOS driver: a verified model of its core

This project models, in Dafny, the logic at the centre of a DriverKit driver
for LitePCIe FPGA boards and of its user-space helpers:

- **DMA helper library** (`liblitepcie/litepcie_dma.c`, module `DmaLib`). The
  control record `struct litepcie_dma_ctrl` is the class `DmaLib.DmaCtrl`.
  Its methods reconcile the software buffer counters with the totals the
  hardware publishes and hand out ring slots one at a time. All counters are
  `uint64_t` and wrap modulo 2^64; the write-side guard compares a signed
  64-bit difference.
- **Driver user client** (`litepcie/litepcie_userclient.cpp`, module
  `UserClient`). The selector switch and its argument checks are pure
  functions. The handlers append register accesses to a bus log and calls on
  the driver's DMA channel functions to a call log. The three 16-entry
  descriptor tables `rdma`, `wdma` and `cdma` are arrays of abstract
  descriptor ids, each with a reference count.
- **Register layouts** (`litepcie/litepcie_int.h`, module `Layout`). These
  are the descriptor `config` bitfields, the loop-status union and the SPI
  control word, written as encode/decode functions on `bv32`/`bv64`.
- **Manager command line** (`litepcie-manager/main.swift`, module
  `Manager`). A first-match scan of the arguments picks one of three
  extension-manager actions, or prints the usage text.

`Words` holds the fixed-width arithmetic (wrap-around add and subtract, the
two's-complement reading, splitting and joining 32-bit halves). `Wrappers`
holds `Option` and `Result`.

What the device returns on a read is a parameter of the method that reads:
the CSR value, the sequence of SPI status words, and the two MISO words. The
addresses that the memory mappings of `litepcie_dma_init` return are
parameters too. `litepcie_dma_process` takes one snapshot of the hardware
totals as a parameter.

The flash poll loop reads the MOSI register's offset to look for the done
bit (litepcie_userclient.cpp:248). The model does the same.

## Model

| member | source | states |
|---|---|---|
| Words.Add64 | liblitepcie/litepcie_dma.c:218 | the `uint64_t` sum is the true sum or the sum less 2^64, and exact when no overflow occurs |
| Words.Sub64 | liblitepcie/litepcie_dma.c:214 | the `uint64_t` difference is the inverse of Add64; it is exact when `b <= a` and raised by 2^64 otherwise |
| Words.Signed64 | liblitepcie/litepcie_dma.c:223 | the `(int64_t)` cast lies in [-2^63, 2^63) and is congruent to the unsigned value mod 2^64 |
| Words.Min | liblitepcie/litepcie_dma.c:216 | `MIN` returns one of its arguments and is at most both |
| Words.HighWord | litepcie/litepcie_userclient.cpp:242 | `tx_data >> 32`, the upper 32 bits |
| Words.LowWord | litepcie/litepcie_userclient.cpp:243 | `(uint32_t)(tx_data & 0xFFFFFFFF)`, the lower 32 bits |
| Words.JoinWords | litepcie/litepcie_userclient.cpp:257 | `(msb << 32) \| lsb` has `msb` as its high word and `lsb` as its low word |
| Words.SplitJoin | litepcie/litepcie_userclient.cpp:242-243 | joining the high word `x >> 32` with the low word `(uint32_t)x` gives back `x` |
| Layout.ConfigLength | litepcie/litepcie_int.h:14 | the `length` field is below 2^24 and is the raw word mod 2^24 |
| Layout.ConfigDisableIrq | litepcie/litepcie_int.h:15 | `disableIRQ` is 0 or 1, and 1 exactly when bit 24 is set |
| Layout.ConfigLast | litepcie/litepcie_int.h:16 | `last` is 0 or 1, and 1 exactly when bit 25 is set |
| Layout.ConfigReserved | litepcie/litepcie_int.h:17 | the unnamed field, bits 26..31, is below 2^6 |
| Layout.DecodeConfig | litepcie/litepcie_int.h:12-20 | every raw word decodes to fields within their widths, and encoding them gives the word back |
| Layout.EncodeConfig | litepcie/litepcie_int.h:12-20 | field values within their widths encode to a word that decodes back to exactly those fields, so the flags never overlap the length |
| Layout.SetConfigLength | litepcie/litepcie_int.h:14 | assigning `length` stores the value truncated to 24 bits and leaves both flags and the unnamed field alone |
| Layout.SetConfigFlag | litepcie/litepcie_int.h:15-16 | assigning `disableIRQ` or `last` stores the low bit of the value and leaves the other three fields alone |
| Layout.DescriptorWord | litepcie/litepcie_int.h:11-22 | in the 64-bit descriptor, `config` is bits 0..31 and `lsb` bits 32..63 |
| Layout.DescriptorOfWord | litepcie/litepcie_int.h:21 | splitting a 64-bit descriptor and packing it again gives back the same word |
| Layout.DecodeLoopStatus | litepcie/litepcie_int.h:24-30 | `count` is `raw & 0xFFFF` and `index` is `raw >> 16`, each below 2^16, and encoding them gives `raw` back |
| Layout.EncodeLoopStatus | litepcie/litepcie_int.h:24-30 | the raw word carries `index` in its high half and `count` in its low half |
| Layout.LoopStatusRoundTrip | litepcie/litepcie_int.h:24-30 | decoding an encoded loop status returns the same fields |
| Layout.SpiControlWord | litepcie/litepcie_int.h:7-8 | for `tx_len <= 40`, `START \| tx_len*LENGTH` has bit 0 set, `tx_len` in bits 8..15, and nothing in bits 1..7 or above bit 15 |
| Manager.IsVerb | litepcie-manager/main.swift:8-14 | an argument is a verb exactly when it equals "activate", "forceActivate" or "deactivate" |
| Manager.VerbCommand | litepcie-manager/main.swift:8-16 | "activate" selects Activate, "forceActivate" selects ForceActivate and "deactivate" selects Deactivate, each if and only if; no verb selects the usage path |
| Manager.Dispatch | litepcie-manager/main.swift:7-18 | the usage path is taken exactly when no argument, index 0 included, is a verb; otherwise the earliest verb decides |
| Manager.FirstVerbExists | litepcie-manager/main.swift:7-18 | whenever some argument is a verb, an earliest one exists at or before it |
| Manager.ActionOf | litepcie-manager/main.swift:8-16 | "activate" calls `activate(forceReplace: false)`, "forceActivate" calls `activate(forceReplace: true)`, "deactivate" calls `deactivate()`, and the usage path calls nothing |
| Manager.Run | litepcie-manager/main.swift:6-22 | at most one action is invoked; with no verb, exactly the two usage lines are printed and the exit status is 0; with a verb, the earliest verb's action runs, nothing is printed and the block returns without exiting |
| DmaLib.ReadAccounting | liblitepcie/litepcie_dma.c:214-221 | buffers become available exactly when the wrapped `hw - sw` exceeds 2; their number is `MIN(hw - sw, DMA_BUFFER_COUNT)`, starting at slot `sw % DMA_BUFFER_COUNT`, and the software count advances by that number; otherwise the offset and the count are unchanged |
| DmaLib.WriteGuard | liblitepcie/litepcie_dma.c:223 | the write side's guard: the `(int64_t)` difference `sw - hw`, wrapped as two's complement, is below half a ring |
| DmaLib.WriteAccounting | liblitepcie/litepcie_dma.c:223-230 | when the signed `sw - hw` is below half a ring, `MIN(hw - sw, DMA_BUFFER_COUNT)` buffers become available from slot `sw % DMA_BUFFER_COUNT`; otherwise none, with offset and count unchanged; the count always advances by exactly the number made available |
| DmaLib.ReadCountStaysBehindHardware | liblitepcie/litepcie_dma.c:214-221 | a read-side software count at or below the hardware total never decreases and never passes it |
| DmaLib.WriteCountBehindCatchesUp | liblitepcie/litepcie_dma.c:223-230 | a write-side software count behind the hardware catches up by at most a ring and never passes the hardware |
| DmaLib.WriteAheadHandsOutWholeRing | liblitepcie/litepcie_dma.c:223-227 | a software count ahead of the hardware by less than half a ring makes the wrapped `hw - sw` huge, so a whole ring is handed out, so every buffer counted from `hw` up to `sw`, filled but not yet read by the hardware, has its slot handed out again |
| DmaLib.WriteLeadBounded | liblitepcie/litepcie_dma.c:223-230 | against a hardware total that does not go backwards, the write side keeps the software count below one and a half rings ahead of it |
| DmaLib.Take | liblitepcie/litepcie_dma.c:247-253 | with nothing available no slot is returned and nothing changes; otherwise the current slot is returned, the count drops by one and the offset advances modulo DMA_BUFFER_COUNT |
| DmaLib.TakeMany | liblitepcie/litepcie_dma.c:247-253 | `k` successive calls return at most `k` slots |
| DmaLib.BatchSlots | liblitepcie/litepcie_dma.c:217 | the `k` ring slots counted from `s` are `(s + j) % DMA_BUFFER_COUNT` |
| DmaLib.TakeManySlots | liblitepcie/litepcie_dma.c:247-253 | `k` calls starting at the slot of count `s` return the slots of counts `s .. s+k-1` in order and leave the cursor at the slot of `s + k` |
| DmaLib.SlotsDistinct | liblitepcie/litepcie_dma.c:253 | within one ring's worth of consecutive counts no slot repeats |
| DmaLib.Add64ModRing | liblitepcie/litepcie_dma.c:217-218 | slot numbers survive the 2^64 wrap of the software count, because the ring size divides 2^64 |
| DmaLib.ReadBatchSlots | liblitepcie/litepcie_dma.c:214-254 | after a read-side reconciliation, draining every available buffer returns the newly counted slots in order, each once, and leaves the offset at the slot of the new software count |
| DmaLib.MapRequests | liblitepcie/litepcie_dma.c:140-184 | the writer mapping is requested when the writer is used; the reader mapping only if the writer mapping did not fail; the counts mapping only if a buffer is used and no buffer mapping failed; every mapping names channel 0, whatever the record's channel |
| DmaLib.InitStatus | liblitepcie/litepcie_dma.c:140-186 | init returns 0 exactly when every mapping it needed returned a non-zero address, and EXIT_FAILURE otherwise |
| DmaLib.DmaCtrl.constructor | liblitepcie/litepcie_dma.h:24-36 | a zeroed record (fd, zero_copy, both buffer pointers, the counts pointer, all counters and both enabled flags) carrying the caller's channel and use/loopback configuration |
| DmaLib.DmaCtrl.SetLoopback | liblitepcie/litepcie_dma.c:21-63 | one loopback CSR write of 1 or 0, only for channels 0..7 whose loopback register the build defines |
| DmaLib.DmaCtrl.Writer | liblitepcie/litepcie_dma.c:65-80 | one writer-channel configuration request, and the enabled flag follows the request whatever the driver answers |
| DmaLib.DmaCtrl.Reader | liblitepcie/litepcie_dma.c:82-97 | the same for the reader channel |
| DmaLib.DmaCtrl.Init | liblitepcie/litepcie_dma.c:121-187 | both software counts are zeroed; the loopback write comes first, then the mapping requests of MapRequests; each buffer pointer is set only from a non-zero mapping; the status is InitStatus |
| DmaLib.DmaCtrl.MapBuffers | liblitepcie/litepcie_dma.c:140-186 | writer memory goes to `buf_rd`, reader memory to `buf_wr`, counts to `hw_counts`, each requested for channel 0; the first zero address ends the sequence with EXIT_FAILURE |
| DmaLib.DmaCtrl.Cleanup | liblitepcie/litepcie_dma.c:189-194 | a disable request is issued exactly for the directions that are both used and enabled, reader first |
| DmaLib.DmaCtrl.Process | liblitepcie/litepcie_dma.c:206-234 | used but disabled directions are enabled, reader first; both directions are reconciled by ReadAccounting and WriteAccounting; the hardware totals are recorded; offsets stay within the ring |
| DmaLib.DmaCtrl.NextReadBuffer | liblitepcie/litepcie_dma.c:236-255 | behaves as Take on the read cursor; a returned address lies inside the ring at `buf_rd` on a buffer boundary |
| DmaLib.DmaCtrl.NextWriteBuffer | liblitepcie/litepcie_dma.c:257-276 | behaves as Take on the write cursor; a returned address lies inside the ring at `buf_wr` on a buffer boundary |
| UserClient.HandlerFor | litepcie/litepcie_userclient.cpp:121-143 | each known selector reaches its own handler; the two channel-configuration selectors differ only in the direction flag; any other selector is unhandled |
| UserClient.StructInput | litepcie/litepcie_userclient.cpp:158-176 | null arguments, a null `structureInput`, or null bytes give kIOReturnBadArgument; otherwise the bytes are used |
| UserClient.ScalarInput | litepcie/litepcie_userclient.cpp:320-326 | the scalars are accepted exactly when the pointer is non-null and the count is the one required; otherwise kIOReturnBadArgument |
| UserClient.TxLenAccepted | litepcie/litepcie_userclient.cpp:235 | a flash transfer length is accepted exactly when `8 <= tx_len <= 40` |
| UserClient.FlashInputAsWritten | litepcie/litepcie_userclient.cpp:212-239 | the checks as written dereference the input exactly when `structureInput` is present but its bytes are null |
| UserClient.FlashInput | litepcie/litepcie_userclient.cpp:212-239 | the flash request proceeds exactly when the structure checks pass and `8 <= tx_len <= 40`; in every other case the result is kIOReturnBadArgument |
| UserClient.FlashNullBytesDereferenced | litepcie/litepcie_userclient.cpp:218-233 | null bytes reach the dereference as written, while the corrected checks reject them |
| UserClient.FlashChecksAgree | litepcie/litepcie_userclient.cpp:212-239 | apart from null bytes, the as-written and corrected checks accept the same requests and give the same errors |
| UserClient.ConfigCalls | litepcie/litepcie_userclient.cpp:178-196 | no call when the channel is already in the requested state; otherwise Setup then Start(channel, true) to enable, or Stop to disable |
| UserClient.ChannelsAfter | litepcie/litepcie_userclient.cpp:181-193 | a channel becomes enabled only through a Start call and disabled only through a Stop call of its direction |
| UserClient.ConfigReachesRequest | litepcie/litepcie_userclient.cpp:178-196 | after the calls, the channel is enabled exactly when requested, and no other channel of either direction changes |
| UserClient.ConfigIdempotent | litepcie/litepcie_userclient.cpp:179 | repeating a configuration request makes no further driver call |
| UserClient.FlashStartWrites | litepcie/litepcie_userclient.cpp:242-244 | the high word of `tx_data` goes to MOSI, the low word to MOSI+4, then the control word to CONTROL; the two halves rejoin to `tx_data` |
| UserClient.FlashBus | litepcie/litepcie_userclient.cpp:242-256 | a transfer is the three start writes, one status read per poll, then the MISO and MISO+4 reads |
| Layout.SpiDone | litepcie/litepcie_userclient.cpp:249 | a status word reports completion exactly when its SPI_STATUS_DONE bit is set |
| UserClient.PollCount | litepcie/litepcie_userclient.cpp:246-253 | `n` polls are what the loop performs: between 1 and SPI_TIMEOUT, none but the last reading done, and the last reading done unless the timeout was reached |
| UserClient.PollCountUnique | litepcie/litepcie_userclient.cpp:246-253 | the number of polls is determined by the status words the device returns |
| UserClient.PollSpiDone | litepcie/litepcie_userclient.cpp:246-253 | the loop polls between 1 and SPI_TIMEOUT times, stopping at the first done status or at the timeout |
| UserClient.ChannelOf | litepcie/litepcie_userclient.cpp:372 | `type & 0xF` is always an index below 16 into the tables |
| UserClient.TableFor | litepcie/litepcie_userclient.cpp:374-417 | the READER bit takes precedence over WRITER and WRITER over COUNTS; without any of them the superclass handles the request |
| UserClient.InstallKeepsValid | litepcie/litepcie_userclient.cpp:379-385 | caching a new descriptor in an empty slot keeps every held descriptor alive and in one slot only |
| UserClient.RetainKeepsValid | litepcie/litepcie_userclient.cpp:375-377 | retaining a cached descriptor keeps the tables valid |
| UserClient.Release | litepcie/litepcie_userclient.cpp:86-88 | releasing a non-null slot lowers that descriptor's count by one; a null slot changes nothing |
| UserClient.ReleaseSlots | litepcie/litepcie_userclient.cpp:85-97 | Stop's loop changes counts only, never which descriptors exist |
| UserClient.ReleaseSlotsOnce | litepcie/litepcie_userclient.cpp:85-97 | over the first `n` channels, every held descriptor loses exactly one reference and every other count is unchanged |
| UserClient.UserClient.constructor | litepcie/litepcie_userclient.cpp:20-25 | the tables start with every slot null and nothing logged; the driver's enabled channels are whatever they already are |
| UserClient.UserClient.HandleConfigDmaChannel | litepcie/litepcie_userclient.cpp:150-201 | rejected arguments give kIOReturnBadArgument and no driver call; otherwise the calls of ConfigCalls are made, the enabled sets follow them, and the result is success |
| UserClient.UserClient.HandleFlash | litepcie/litepcie_userclient.cpp:203-266 | follows the corrected checks of FlashInput (see Findings): a rejected request returns kIOReturnBadArgument with no output and no register access; otherwise, with the SPI flash present, the bus sees the writes and reads of FlashBus for the poll count of PollSpiDone, and the output copies `tx_len` and `tx_data` with `rx_data = (msb << 32) \| lsb`; without it, the input is copied out unchanged |
| UserClient.UserClient.HandleIcap | litepcie/litepcie_userclient.cpp:268-303 | rejected arguments give kIOReturnBadArgument and no access; otherwise exactly three writes in order: addr, data, then 1 to the write register |
| UserClient.UserClient.HandleReadCsr | litepcie/litepcie_userclient.cpp:305-335 | without exactly one scalar, kIOReturnBadArgument and no access; otherwise one read at `input[0]`, whose value is the output |
| UserClient.UserClient.HandleWriteCsr | litepcie/litepcie_userclient.cpp:337-364 | without exactly two scalars, kIOReturnBadArgument and no access; otherwise one write of `input[1]` truncated to 32 bits at offset `input[0]` |
| UserClient.UserClient.ExternalMethod | litepcie/litepcie_userclient.cpp:115-148 | each known selector has exactly its handler's effect and result; an unknown selector touches nothing and returns success |
| UserClient.UserClient.ServeSlot | litepcie/litepcie_userclient.cpp:374-414 | a cached descriptor is retained and returned as the same id; an empty slot is filled by a successful create, then cached, retained and returned; a failed create leaves the slot empty and passes its error on |
| UserClient.UserClient.CopyClientMemoryForType | litepcie/litepcie_userclient.cpp:366-422 | the selected table slot is served as ServeSlot states, and only that slot can change; COUNTS mappings add kIOUserClientMemoryReadOnly to the options on success; any other type returns the superclass's result, options and descriptor, with the tables and counts unchanged |
| UserClient.UserClient.Stop | litepcie/litepcie_userclient.cpp:78-102 | every non-null entry of the three tables, over all 16 channels, is released exactly once, and the tables are left as they are |

## Left out

- UserClient.UserClient.HandleFlash: follows the corrected checks of `FlashInput`. A `structureInput` whose bytes are null gets kIOReturnBadArgument. The source instead dereferences null at litepcie_userclient.cpp:220; that path is modelled only by `FlashInputAsWritten` (see Findings).
- UserClient.StructInput: a structure input always holds a whole struct of the call's layout. The source never compares the OSData length with `sizeof` (litepcie_userclient.cpp:165, 219, 283), so a short input is read past its end; that case is not modelled.
- UserClient.UserClient.HandleReadCsr: the write of `scalarOutput[0]` (litepcie_userclient.cpp:330) is taken to succeed. The source checks neither the output pointer nor the output count.
- UserClient.UserClient.ServeSlot: a create call is taken to return a new descriptor with one reference, which the table owns, so the retain leaves it with two.
- IOKit and DriverKit calls are left out: `IOConnectCallStructMethod`, `IOConnectMapMemory64`, `IOConnectUnmapMemory`, `OSData`, `os_log` and `printf`. Calls into the driver are appended to logs, and their results are parameters.
- The unmapping at the end of `litepcie_dma_cleanup` (litepcie_dma.c:198-203) is I/O plumbing and is not modelled.
- `litepcie_open` is not modelled: the file descriptor it returns is a parameter of `Init`.
- The hardware totals change concurrently with `litepcie_dma_process`, which reads them several times. The model reads one snapshot.
- litepcie/litepcie.cpp is not part of this model. It holds PCI access, probing, service registration and a concurrent `Stop`. The effect of the driver's channel Start and Stop on `IsDMA*ChannelEnabled` is an assumption stated by `ChannelsAfter`: a start enables its channel and a stop disables it.
- liblitepcie/litepcie_helpers.c (IOKit wrappers, clock) and litepcie-client/main.cpp (a benchmark using timing, random data and floating point) are not part of this model.
- `IODelay` timing in `HandleFlash` is left out. Only the poll count and the word packing are modelled.
- UserClient.UserClient.HandleReadCsr: only the low 32 bits of `scalarOutput[0]` are modelled. The upper bits come from an uninitialised `uint64_t` (litepcie_userclient.cpp:328).
- `init`, `free` and the user client's `Start` are runtime plumbing (`IONewZero`, `OSDynamicCast`, `super` calls). Only the zeroed tables of `init` are modelled, in the constructor.
- The `ExtensionManager` singleton and the `RunLoop` scheduling in main.swift are outside the source. The manager is modelled as two abstract actions.
- Several constants come from headers that are not part of this model (the build's config.h and csr.h, and the full selector enum). Their values are assumed: DMA_BUFFER_COUNT is 256, DMA_BUFFER_SIZE is 8192, the four extra selectors are 2..5, the memory-type bits are 0x10, 0x20 and 0x40, and the CSR offsets are placeholders. The proofs need only that the selectors are distinct, that the type bits lie above the channel nibble, and that the ring size divides 2^64. The litepcie_ext.h shown in the repository declares only the two CSR selectors.
- The `reader_enabled` and `writer_enabled` fields used throughout litepcie_dma.c are missing from `struct litepcie_dma_ctrl` in litepcie_dma.h. They are modelled as the fields `readerEnabled` and `writerEnabled`.
- The `(int64_t)` difference at litepcie_dma.c:223 can overflow, which is undefined behaviour in C. It is modelled as two's-complement wrap-around.
- Failed create calls in `CopyClientMemoryForType` are taken to leave the table slot null.
- After an action, main.swift returns to the run loop without calling `exit`. The model follows the code (`exitStatus` is None), not a description that says the process terminates.

## Findings

| source | as written | input that shows it | evidently intended | confidence | as-written member | corrected member |
|---|---|---|---|---|---|---|
| litepcie/litepcie_userclient.cpp:218-233 | `HandleFlash` copies `input->tx_len`, `tx_data` and `rx_data` into the output right after `getBytesNoCopy()`, before the test `input == nullptr` | a non-null `structureInput` whose `getBytesNoCopy()` returns null: the copy dereferences a null pointer and the null test is never reached | check `input` for null first and return kIOReturnBadArgument, as `HandleConfigDmaChannel` and `HandleICAP` do | medium, not executed | UserClient.FlashNullBytesDereferenced | UserClient.FlashInput |
