# bladeRF receiver block, modelled in Dafny

This project models the receive side of the bladeRF source block of
gr-osmosdr (`lib/bladerf/bladerf_source_c.cc`): the GNU Radio block that
pulls sample buffers from a bladeRF through libbladeRF's synchronous
interface, converts them, and hands them to the flowgraph.

What is modelled:

- **Sample conversion** (`samples.dfy`, module `Samples`). The loop in
  `work()` reads the 16-bit words of the transfer buffer in pairs. The low
  bytes of a pair give one complex sample and the high bytes give the next.
  Each byte is sign-extended as an `int8_t`. `UnpackSlot` maps a complex-slot
  index to its word pair and byte selector. `Unpack` is the loop itself.
  `UnpackPairRoundTrip` proves that the two slots of a pair give both words
  back.
- **Copy to the output ports** (`routing.dfy`, module `Routing`). With two
  streams the conversion buffer is round-robin and `work()` demultiplexes it
  with nested loops (`Deinterleave`, `CopyFrame`). With one stream it is a
  block copy. `Channel` is the index law. `Interleave` is an independent,
  frame-by-frame definition of the multiplex. Lemmas prove that the two are
  inverse to each other.
- **Failure counter** (`failures.dfy`, module `Failures`). One receive call
  is a `FailureStep`. `Replay` runs a sequence of calls. The lemmas prove
  that the counter equals the failures since the last success, and that
  from a cleared counter the limit-th consecutive failure ends the stream.
- **Configuration** (`config.dfy`, module `Config`). This covers the mode
  strings of the bias-tee, loopback and RX-mux setters, and their shared
  three-way status check. It also covers the "sampling" option and the
  option chain of the constructor (bias tee, loopback, RX mux and gain mode,
  the first that throws aborting the construction), the AGC table search, antenna validity,
  the alignment constraint, and the channel-to-port wiring.
- **Session state** (`source.dfy`, module `Source`). The class
  `BladerfSource` holds the block's state: running flag, failure counter,
  the two conversion buffers, the channel map, enable flags and AGC mode.
  Its methods are the constructor's wiring, `start()`, `stop()`, `work()`,
  `set_antenna()` and `set_agc_mode()`. `Valid()` states the invariant: a
  running block has both buffers, sized 2·samples-per-buffer words and
  samples-per-buffer samples, and has switched on every enabled channel.

Device calls are replaced by the status they return, given as parameters.
The per-channel calls take a function from channel to status. The samples
`bladerf_sync_rx` delivers are a parameter too. Constants taken from
outside the file: BLADERF_ERR_UNSUPPORTED is -8 (libbladeRF). WORK_DONE is
-1 (GNU Radio). BLADERF_CHANNEL_RX(ch) is 2·ch (libbladeRF).
`sizeof(gr_complex)` is 8. MAX_CONSECUTIVE_FAILURES and samples-per-buffer
are constructor parameters.

Points where the code does something other than what a GNU Radio source
block's `work()` and `start()` usually do; the model follows the code:

- A failed receive call below the failure limit does not produce zero
  items. It still converts and copies the buffer and returns
  `noutput_items`.
- WORK_DONE is returned by the limit-th consecutive failure itself.
- `start()` does not check the running flag. Starting a running block is
  not refused because it is running: it allocates new buffers again (the
  configuration and enable statuses can still make it throw).
- `start()` does not reset the failure counter.
- The conversion reads the buffer as 8-bit components, not as 16-bit ones.

## Model

| member | source | states |
|---|---|---|
| Samples.SignExtend8 | lib/bladerf/bladerf_source_c.cc:353-356 | the `(int8_t)` cast gives a value in [-128, 127] with the same low eight bits as the byte |
| Samples.HighByte | lib/bladerf/bladerf_source_c.cc:355-356 | `(w >> 8) & 0xFF` is a byte that, put above the low byte, gives the word back modulo 2^16 |
| Samples.LowByte | lib/bladerf/bladerf_source_c.cc:353-354 | `w & 0xFF` is a byte congruent to the word modulo 256 |
| Samples.UnpackSlot | lib/bladerf/bladerf_source_c.cc:351-356 | each component of a converted sample lies in [-128, 127] before scaling |
| Samples.SlotsWritten | lib/bladerf/bladerf_source_c.cc:351 | a loop stepping by two over n writes n slots when n is even and n + 1 when it is odd |
| Samples.ByteSplit | lib/bladerf/bladerf_source_c.cc:353-356 | a word is 256 times its sign-extended high byte plus its low byte |
| Samples.UnpackPairRoundTrip | lib/bladerf/bladerf_source_c.cc:351-356 | the low-byte slot and the high-byte slot built from a word pair together give both words back |
| Samples.UnpackExample | lib/bladerf/bladerf_source_c.cc:353-356 | the words 0x0180, 0xFFFF convert to (-128, -1) and (1, -1) |
| Samples.Unpack | lib/bladerf/bladerf_source_c.cc:351-357 | the loop writes exactly slots [0, n rounded up to even), slot k from the pair of words at k rounded down to even, and leaves the rest of the buffer alone |
| Routing.Channel | lib/bladerf/bladerf_source_c.cc:366-374 | port c gets |buffer| / ns samples, sample i being buffer position i·ns + c, which lies inside the buffer |
| Routing.FrameInside | lib/bladerf/bladerf_source_c.cc:370-372 | every position the nested loops read lies below n |
| Routing.InterleaveAt | lib/bladerf/bladerf_source_c.cc:366-374 | position i·ns + c of the round-robin multiplex holds sample i of stream c |
| Routing.InterleaveChannels | lib/bladerf/bladerf_source_c.cc:366-374 | demultiplexing then multiplexing again gives back every complete frame of the buffer |
| Routing.ChannelOfInterleave | lib/bladerf/bladerf_source_c.cc:366-374 | multiplexing streams then demultiplexing gives each stream back |
| Routing.TwoStreams | lib/bladerf/bladerf_source_c.cc:366-374 | with two streams, a0 b0 a1 b1 a2 b2 goes to the ports as a0 a1 a2 and b0 b1 b2 |
| Routing.SingleChannel | lib/bladerf/bladerf_source_c.cc:375-378 | with one stream, the port gets the buffer unchanged |
| Routing.CopyFrame | lib/bladerf/bladerf_source_c.cc:371-373 | the inner loop writes position i of each of the first ns ports from consecutive buffer positions and nothing else |
| Routing.DemuxFrames | lib/bladerf/bladerf_source_c.cc:366-374 | the nested loops put buffer position i·ns + c at position i of port c for every complete frame, and touch no later position and no port past ns |
| Routing.IsChannel | lib/bladerf/bladerf_source_c.cc:366-378 | a port whose first n / ns samples obey the index law for stream c holds exactly `Channel` c of the buffer |
| Routing.Deinterleave | lib/bladerf/bladerf_source_c.cc:366-378 | port c, position i < n / ns gets buffer position i·ns + c, so each port holds its `Channel`; later positions and ports past ns are untouched |
| Failures.FailureStep | lib/bladerf/bladerf_source_c.cc:339-350 | a failed receive increments the counter and a successful one clears it; the call ends the stream exactly when it failed and the incremented counter reached the limit |
| Failures.ReplaySnoc | lib/bladerf/bladerf_source_c.cc:339-350 | the counter after one more receive call is one more step from the counter before it |
| Failures.ReplayCountsTrailingFailures | lib/bladerf/bladerf_source_c.cc:339-350 | after a run that contains a success the counter is the number of failures since the last success; after failures only it is the old count plus their number |
| Failures.ThresholdReached | lib/bladerf/bladerf_source_c.cc:342-347 | from a cleared counter, call k of a run of failures returns WORK_DONE exactly when k + 1 reaches the limit |
| Failures.SuccessResets | lib/bladerf/bladerf_source_c.cc:348-349 | a successful call clears the counter, whatever came before |
| Config.Classify | lib/bladerf/bladerf_source_c.cc:601-606 | status 0 sets the mode, BLADERF_ERR_UNSUPPORTED only warns, any other status throws that status |
| Config.SetBiasTeeMode | lib/bladerf/bladerf_source_c.cc:589-607 | the bias tee is enabled exactly for "on", "1" and "rx"; the status is classified three ways |
| Config.ParseLoopback | lib/bladerf/bladerf_source_c.cc:614-636 | a parsed name is the name of the mode it gives |
| Config.LoopbackRoundTrip | lib/bladerf/bladerf_source_c.cc:614-636 | each of the ten modes is reached from its own name, so the names are distinct |
| Config.ParseLoopbackTotal | lib/bladerf/bladerf_source_c.cc:614-636 | the parse rejects exactly the strings that are no loopback name |
| Config.SetLoopbackMode | lib/bladerf/bladerf_source_c.cc:609-645 | an unknown name throws before the device is called, and only an unknown name does that; for a known name, status 0 sets that mode, BLADERF_ERR_UNSUPPORTED only warns, and any other status throws that status |
| Config.ParseRxMux | lib/bladerf/bladerf_source_c.cc:652-662 | a parsed name is the name of the mode it gives |
| Config.RxMuxRoundTrip | lib/bladerf/bladerf_source_c.cc:652-662 | each of the four modes is reached from its own name |
| Config.ParseRxMuxTotal | lib/bladerf/bladerf_source_c.cc:652-662 | the parse rejects exactly the strings that are no RX-mux name |
| Config.SetRxMuxMode | lib/bladerf/bladerf_source_c.cc:647-671 | an unknown name throws before the device is called, and only an unknown name does that; for a known name, status 0 sets that mode, BLADERF_ERR_UNSUPPORTED only warns, and any other status throws that status |
| Config.SamplingOption | lib/bladerf/bladerf_source_c.cc:84-102 | only "internal" and "external" reach the device, any other value only warns, and a device failure only warns |
| Config.FirstError | lib/bladerf/bladerf_source_c.cc:103-118 | of a run of steps that may throw, the error that escapes is that of the earliest step that throws, and none escapes exactly when no step throws |
| Config.ApplyOptions | lib/bladerf/bladerf_source_c.cc:83-118 | on success each setter's outcome is recorded: the bias tee as set from the "biastee" value when given, loopback (default "none") and RX mux (default "baseband") as set or only warned UNSUPPORTED by their statuses, the gain mode the default unless "agc_mode" is given; an unknown-mode error always names a value the user gave, and a device error is one of the statuses, never 0 |
| Config.ApplyOptionsFirstError | lib/bladerf/bladerf_source_c.cc:103-118 | the option handling fails exactly when one of bias tee, loopback, RX mux or gain mode throws, and with the error of the first of them in that order |
| Config.DefaultOptions | lib/bladerf/bladerf_source_c.cc:83-118 | with no options and succeeding device calls, loopback is off, the RX mux is baseband and the gain mode is the default |
| Config.AgcModeAfter | lib/bladerf/bladerf_source_c.cc:673-704 | a negative table count throws that status; otherwise the gain mode becomes that of the first of the counted rows with the name, and stays as it was when none has it |
| Config.FirstMatch | lib/bladerf/bladerf_source_c.cc:689-697 | the index found holds the name and no earlier row does; no index means no row holds it |
| Config.FindGainMode | lib/bladerf/bladerf_source_c.cc:689-697 | the search loop over the first `count` rows returns the mode of the first row with the name, or nothing |
| Config.IsAntennaValid | lib/bladerf/bladerf_source_c.cc:181-190 | true exactly when the antenna is one of the device's antennas |
| Config.Alignment | lib/bladerf/bladerf_source_c.cc:164-165 | the alignment is at least one sample and is the number of whole complex samples in the volk alignment when there is at least one |
| Config.NumStreams | lib/bladerf/bladerf_source_c.cc:320 | the RX_X1 layout carries one stream in the transfer buffer and RX_X2 two (`num_streams` is defined outside this file) |
| Config.WiredPort | lib/bladerf/bladerf_source_c.cc:147-176 | a channel is wired to port ch exactly when it is RX(ch) with ch below the channel count, and to -1 otherwise |
| Config.WiringInjective | lib/bladerf/bladerf_source_c.cc:173-176 | no two channels feed the same port |
| Source.FirstFailure | lib/bladerf/bladerf_source_c.cc:231-239 | the channel found is enabled and fails, and every enabled channel before it succeeds; none found means every enabled channel succeeds |
| Source.ChannelLoop | lib/bladerf/bladerf_source_c.cc:231-239 | the channel loop of `start()`, and the same loop of `stop()` at 294-302, ends normally exactly when every enabled channel's call succeeds, and otherwise throws the status of the first enabled channel that fails |
| Source.BladerfSource.constructor | lib/bladerf/bladerf_source_c.cc:67-179 | a new block is stopped with no buffers and the gain mode the options left; its channel count is clamped to the device's; exactly channels 0 .. count - 1 are enabled; its layout is RX_X2 exactly with more than one channel; every antenna's channel maps to -1 except RX(ch) to ch |
| Source.BladerfSource.Create | lib/bladerf/bladerf_source_c.cc:67-179 | construction throws exactly when the option handling throws, with its error; otherwise a fresh, stopped block with the gain mode the options left and the constructor's clamped channel count, alignment, enable set and channel wiring |
| Source.BladerfSource.Start | lib/bladerf/bladerf_source_c.cc:216-277 | the running flag is set and fresh buffers allocated only when the configuration and every enabled channel's enable call succeed; a failure throws its status and leaves the flag and buffers as they were |
| Source.BladerfSource.Stop | lib/bladerf/bladerf_source_c.cc:279-311 | stopping a stopped block changes nothing; otherwise the flag is cleared first, each enabled channel is switched off, and both buffers are freed unless a switch-off throws |
| Source.BladerfSource.Work | lib/bladerf/bladerf_source_c.cc:313-381 | a stopped block returns 0 and touches nothing; otherwise the device's samples fill the first 2n words and no others, the counter is stepped, WORK_DONE comes exactly at the limit, and else n is returned with slots [0, n rounded up to even) converted (slot n too for odd n), later slots untouched, and every port filled by the index law |
| Source.BladerfSource.SetAntenna | lib/bladerf/bladerf_source_c.cc:480-496 | a stopped block keeps its flag, buffers and switched-on channels and takes the new wiring and enable flags; a running block is stopped, rewired, and started again over the new enable flags, ending running with fresh buffers when both succeed; a failed stop leaves the old wiring and the buffers, a failed restart leaves the new wiring, stopped without buffers |
| Source.BladerfSource.SetAgcMode | lib/bladerf/bladerf_source_c.cc:673-704 | a negative table count throws; otherwise the gain mode becomes that of the first row with the name, and stays as it was when there is none |

## Left out

- The division by 127.0 into floats (lines 353-356): the buffers hold the integer components, and float rounding is not modelled.
- The device I/O itself: libbladeRF calls are replaced by the statuses they return, and the delivered samples by a parameter. After a failed receive the first 2n words are whatever the device left, which that parameter stands for.
- The RFIC register writes in `start()` (lines 246-273): fixed hardware writes with no logic.
- The `d_mutex` locks: each public call is modelled as atomic. `set_antenna()` reads the running flag without the lock; that race is not modelled.
- `volk_malloc`, `volk_free` and the buffers' memory alignment: buffers are arrays. The volk alignment is a parameter.
- Gain, frequency, bandwidth, sample-rate, clock, DC-offset and IQ-balance getters and setters (lines 383-587): they forward to `bladerf_common`, which is not part of this model.
- GNU Radio block plumbing: io signatures, `set_output_multiple`, `set_max_noutput_items` and `make_bladerf_source_c`. Their effect appears as `Work`'s preconditions: n is at most samples-per-buffer and a multiple of the channel count, and each port has room for n samples.
- The metadata set-up for the SC16_Q11_META format (lines 329-334): it only selects a flag passed to the device.
- The "agc" option loop, the FPGA version warning and `init()` in the constructor (lines 81, 120-144): they call into `bladerf_common` or only log. `init()` and the "agc" loop can also throw (its `boost::lexical_cast<bool>` rejects any value but "0" and "1"), so `Create` fails exactly when one of the modelled option steps throws, not on these.
- Source.BladerfSource.SetAntenna: `bladerf_common::set_antenna` is not part of this model, so the channel map and enable flags it leaves are parameters, not computed from the antenna name; the returned `get_antenna` string is not modelled.
- Source.BladerfSource.SetAgcMode: the refresh of gain modes on automatic channels (lines 706-711) is not modelled. The `BLADERF_COMPATIBILITY` build, where the body is empty, is not modelled either.
- Source.BladerfSource.constructor: the antennas are given as channel numbers, because `str2channel` is not part of this model. The option handling runs in `Create` before it, and its gain mode is passed in.
- Config.AgcModeAfter: for the "agc_mode" option the refresh of gain modes on automatic channels (lines 706-711) is not modelled; it goes through `bladerf_common`.
- The failure counter is an unbounded natural number; its C integer width is not modelled.
- Samples-per-buffer is taken to be even (libbladeRF asks for a multiple of 1024). So with an odd n, slot n, which the conversion loop also writes, is still inside the buffer.
- With two streams `work()` fills n / 2 samples of each port but returns n. The model states this as written and does not judge it against GNU Radio's per-port count.
