/**
 * The receiver block itself: the state it keeps between calls (running flag,
 * failure counter, the two conversion buffers, the channel map, the AGC mode)
 * and the calls that change it: construction, `start()`, `stop()`, `work()`,
 * `set_antenna()` and `set_agc_mode()`.
 *
 * Every device call is replaced by the status it returns, given as a
 * parameter (a function of the channel for the per-channel calls), and the
 * samples `bladerf_sync_rx` delivers are a parameter too.
 */
module Source {
  import opened Wrappers
  import opened Samples
  import opened Routing
  import opened Failures
  import opened Config

  /** GNU Radio's WORK_DONE: the block will produce no more output. */
  const WorkDone: int := -1

  /** How `start()`, `stop()` and the calls that wrap them end: normally, or by throwing. */
  datatype Outcome = Done | Threw(error: Error)

  /** The first channel from `from` up to `limit` that is enabled and whose device call fails. */
  function FirstFailure(enabled: set<nat>, status: nat -> int, from: nat, limit: nat): (r: Option<nat>)
    decreases limit - from
    ensures r.Some? ==> from <= r.value < limit && r.value in enabled && status(r.value) != 0
    ensures r.Some? ==> forall ch :: from <= ch < r.value && ch in enabled ==> status(ch) == 0
    ensures r.None? ==> forall ch :: from <= ch < limit && ch in enabled ==> status(ch) == 0
  {
    if from >= limit then None
    else if from in enabled && status(from) != 0 then Some(from)
    else FirstFailure(enabled, status, from + 1, limit)
  }

  /**
   * The channel loops of `start()` and `stop()`: call the device for every
   * enabled channel below `limit` and throw the status of the first failure.
   */
  function ChannelLoop(enabled: set<nat>, status: nat -> int, limit: nat): (r: Outcome)
    ensures r.Done? <==> forall ch :: 0 <= ch < limit && ch in enabled ==> status(ch) == 0
    ensures r.Threw? ==> exists ch :: 0 <= ch < limit && ch in enabled && status(ch) != 0 &&
                                      r.error == DeviceError(status(ch)) &&
                                      forall d :: 0 <= d < ch && d in enabled ==> status(d) == 0
  {
    match FirstFailure(enabled, status, 0, limit)
    case None => Done
    case Some(ch) => Threw(DeviceError(status(ch)))
  }

  /** The enabled channels below `limit`. */
  function EnabledBelow(enabled: set<nat>, limit: nat): set<nat>
  {
    set ch | ch in enabled && ch < limit
  }

  /** Where the channel loop stopped: the failing channel, or the end. */
  function LoopEnd(enabled: set<nat>, status: nat -> int, limit: nat): nat
  {
    match FirstFailure(enabled, status, 0, limit)
    case None => limit
    case Some(ch) => ch
  }

  class BladerfSource {
    /** Receive channels the device has. */
    const maxChannels: nat
    /** Output ports of the block, after clamping to maxChannels. */
    const numChannels: nat
    /** Samples per transfer buffer, also the most `work()` is asked for. */
    const samplesPerBuffer: nat
    /** MAX_CONSECUTIVE_FAILURES. */
    const maxFailures: nat
    /** The alignment, in samples, asked of the scheduler. */
    const alignment: nat
    const layout: Layout

    /** Device channel to output port, -1 for an unwired channel. */
    var chanmap: map<int, int>
    /** The channels whose enable flag is set. */
    var enabled: set<nat>
    var agcMode: GainMode
    var running: bool
    var failures: nat
    /** `_16icbuf`: the transfer buffer, null outside a session. */
    var rawBuf: array?<Int16>
    /** `_32fcbuf`: the conversion buffer, null outside a session. */
    var convBuf: array?<IQ>
    /** The channels this block has switched on in the device and not yet off. */
    var modules: set<nat>

    ghost predicate Valid()
      reads this
    {
      1 <= numChannels <= maxChannels &&
      0 < samplesPerBuffer && samplesPerBuffer % 2 == 0 &&
      (layout == RxX2 <==> numChannels > 1) &&
      (running ==> rawBuf != null && convBuf != null &&
                   rawBuf.Length == 2 * samplesPerBuffer && convBuf.Length == samplesPerBuffer &&
                   EnabledBelow(enabled, maxChannels) <= modules)
    }

    /**
     * The state the constructor sets up: the stopped session, the clamped
     * channel count, alignment and layout, the enable flags, and the channel
     * map (every antenna's channel unwired, then RX(ch) wired to port ch).
     * `gainMode` is the gain mode the option handling leaves.
     */
    constructor (antennaChannels: seq<int>, requestedChannels: nat, maxChannels: nat,
                 samplesPerBuffer: nat, maxFailures: nat, volkAlignment: nat, gainMode: GainMode)
      requires 1 <= requestedChannels && 1 <= maxChannels
      requires 0 < samplesPerBuffer && samplesPerBuffer % 2 == 0
      ensures Valid()
      ensures this.maxChannels == maxChannels && this.samplesPerBuffer == samplesPerBuffer
      ensures this.maxFailures == maxFailures
      ensures numChannels == if requestedChannels > maxChannels then maxChannels else requestedChannels
      ensures alignment == Alignment(volkAlignment)
      ensures !running && failures == 0 && rawBuf == null && convBuf == null
      ensures agcMode == gainMode && modules == {}
      ensures forall ch: nat :: ch in enabled <==> ch < numChannels
      ensures chanmap.Keys == (set k | 0 <= k < |antennaChannels| :: antennaChannels[k])
                            + (set ch: nat | ch < numChannels :: RxChannel(ch))
      ensures forall c :: c in chanmap ==> chanmap[c] == WiredPort(c, numChannels)
    {
      var m: map<int, int> := map[];
      var k := 0;
      while k < |antennaChannels|
        invariant k <= |antennaChannels|
        invariant m.Keys == set j | 0 <= j < k :: antennaChannels[j]
        invariant forall c :: c in m ==> m[c] == -1
      {
        m := m[antennaChannels[k] := -1];
        k := k + 1;
      }
      var n := if requestedChannels > maxChannels then maxChannels else requestedChannels;
      var en: set<nat> := {};
      var ch := 0;
      while ch < n
        invariant ch <= n
        invariant m.Keys == (set j | 0 <= j < |antennaChannels| :: antennaChannels[j])
                          + (set d: nat | d < ch :: RxChannel(d))
        invariant forall c :: c in m ==> m[c] == WiredPort(c, ch)
        invariant forall d: nat :: d in en <==> d < ch
      {
        en := en + {ch};
        m := m[RxChannel(ch) := ch];
        ch := ch + 1;
      }
      this.maxChannels := maxChannels;
      this.numChannels := n;
      this.samplesPerBuffer := samplesPerBuffer;
      this.maxFailures := maxFailures;
      alignment := Alignment(volkAlignment);
      layout := if n > 1 then RxX2 else RxX1;
      chanmap := m;
      enabled := en;
      agcMode := gainMode;
      running := false;
      failures := 0;
      rawBuf := null;
      convBuf := null;
      modules := {};
    }

    /**
     * The whole construction: the options are applied first, and the first
     * step that throws aborts it, so no block exists; otherwise the block is
     * set up with the gain mode the options left.
     */
    static method Create(options: map<string, string>, samplingStatus: int, biasTeeStatus: int,
                         loopbackStatus: int, rxMuxStatus: int, listStatus: int, table: seq<GainModeEntry>,
                         antennaChannels: seq<int>, requestedChannels: nat, maxChannels: nat,
                         samplesPerBuffer: nat, maxFailures: nat, volkAlignment: nat)
      returns (r: Result<BladerfSource, Error>)
      requires listStatus >= 0 ==> listStatus <= |table|
      requires 1 <= requestedChannels && 1 <= maxChannels
      requires 0 < samplesPerBuffer && samplesPerBuffer % 2 == 0
      ensures var applied := ApplyOptions(options, samplingStatus, biasTeeStatus, loopbackStatus,
                                          rxMuxStatus, listStatus, table);
              (r.Failure? <==> applied.Failure?) &&
              (r.Failure? ==> r.error == applied.error) &&
              (r.Success? ==> fresh(r.value) && r.value.Valid() && !r.value.running &&
                              r.value.rawBuf == null && r.value.convBuf == null &&
                              r.value.agcMode == applied.value.agcMode)
      ensures r.Success? ==>
                r.value.maxChannels == maxChannels && r.value.samplesPerBuffer == samplesPerBuffer &&
                r.value.maxFailures == maxFailures && r.value.failures == 0 && r.value.modules == {} &&
                r.value.numChannels == (if requestedChannels > maxChannels then maxChannels else requestedChannels) &&
                r.value.alignment == Alignment(volkAlignment)
      ensures r.Success? ==> forall ch: nat :: ch in r.value.enabled <==> ch < r.value.numChannels
      ensures r.Success? ==>
                r.value.chanmap.Keys == (set k | 0 <= k < |antennaChannels| :: antennaChannels[k])
                                      + (set ch: nat | ch < r.value.numChannels :: RxChannel(ch))
      ensures r.Success? ==> forall c :: c in r.value.chanmap ==> r.value.chanmap[c] == WiredPort(c, r.value.numChannels)
    {
      var applied := ApplyOptions(options, samplingStatus, biasTeeStatus, loopbackStatus,
                                  rxMuxStatus, listStatus, table);
      if applied.Failure? {
        return Failure(applied.error);
      }
      var block := new BladerfSource(antennaChannels, requestedChannels, maxChannels,
                                     samplesPerBuffer, maxFailures, volkAlignment, applied.value.agcMode);
      return Success(block);
    }

    /**
     * `start()`: apply the stream configuration, switch on every enabled
     * channel, allocate both buffers, and only then set the running flag. A
     * failing device call throws and leaves the flag and the buffers as they
     * were. The flag is not checked first: starting a running block
     * allocates new buffers again.
     */
    method Start(configStatus: int, enableStatus: nat -> int) returns (r: Outcome)
      requires Valid()
      modifies this
      ensures Valid()
      ensures r == if configStatus != 0 then Threw(DeviceError(configStatus))
                   else ChannelLoop(enabled, enableStatus, maxChannels)
      ensures r.Done? ==> running && fresh(rawBuf) && fresh(convBuf)
      ensures r.Threw? ==> running == old(running) && rawBuf == old(rawBuf) && convBuf == old(convBuf)
      ensures modules == if configStatus != 0 then old(modules)
                         else old(modules) + EnabledBelow(enabled, LoopEnd(enabled, enableStatus, maxChannels))
      ensures failures == old(failures) && enabled == old(enabled)
      ensures chanmap == old(chanmap) && agcMode == old(agcMode)
    {
      if configStatus != 0 {
        return Threw(DeviceError(configStatus));
      }
      var powered := modules;
      var ch := 0;
      while ch < maxChannels
        invariant ch <= maxChannels
        invariant forall d :: 0 <= d < ch && d in enabled ==> enableStatus(d) == 0
        invariant powered == old(modules) + EnabledBelow(enabled, ch)
      {
        if ch in enabled {
          var status := enableStatus(ch);
          if status != 0 {
            modules := powered;
            return Threw(DeviceError(status));
          }
          powered := powered + {ch};
        }
        ch := ch + 1;
      }
      modules := powered;
      rawBuf := new Int16[2 * samplesPerBuffer];
      convBuf := new IQ[samplesPerBuffer];
      running := true;
      return Done;
    }

    /**
     * `stop()`: nothing to do on a stopped block. Otherwise clear the
     * running flag first, switch off every enabled channel (a failure throws
     * and leaves the buffers allocated), then free both buffers.
     */
    method Stop(disableStatus: nat -> int) returns (r: Outcome)
      requires Valid()
      modifies this
      ensures Valid()
      ensures !old(running) ==> r == Done && unchanged(this)
      ensures old(running) ==> !running && r == ChannelLoop(enabled, disableStatus, maxChannels)
      ensures old(running) ==> modules == old(modules) - EnabledBelow(enabled, LoopEnd(enabled, disableStatus, maxChannels))
      ensures old(running) && r.Done? ==> rawBuf == null && convBuf == null
      ensures old(running) && r.Threw? ==> rawBuf == old(rawBuf) && convBuf == old(convBuf)
      ensures failures == old(failures) && enabled == old(enabled)
      ensures chanmap == old(chanmap) && agcMode == old(agcMode)
    {
      if !running {
        return Done;
      }
      running := false;
      var powered := modules;
      var ch := 0;
      while ch < maxChannels
        invariant ch <= maxChannels
        invariant forall d :: 0 <= d < ch && d in enabled ==> disableStatus(d) == 0
        invariant powered == old(modules) - EnabledBelow(enabled, ch)
      {
        if ch in enabled {
          var status := disableStatus(ch);
          if status != 0 {
            modules := powered;
            return Threw(DeviceError(status));
          }
          powered := powered - {ch};
        }
        ch := ch + 1;
      }
      modules := powered;
      rawBuf := null;
      convBuf := null;
      return Done;
    }

    /**
     * `work()`. A stopped block produces nothing and touches nothing.
     * Otherwise one `bladerf_sync_rx` call, which leaves `received` in the
     * first 2n words of the transfer buffer (after a failure these are
     * whatever the device left there, so `received` is arbitrary). A success
     * clears the counter; a failure increments it, and once it reaches
     * maxFailures the call returns WORK_DONE. Below that limit a failed call
     * goes on like a successful one, over whatever the buffer holds: the
     * buffer is converted, copied to the ports, and n is returned.
     */
    method Work(n: nat, rxStatus: int, received: seq<Int16>, out: seq<array<IQ>>) returns (r: int)
      requires Valid()
      requires n <= samplesPerBuffer && n % numChannels == 0
      requires |received| == 2 * n
      requires |out| == numChannels
      requires forall k :: 0 <= k < |out| ==> n <= out[k].Length
      requires forall j, k :: 0 <= j < k < |out| ==> out[j] != out[k]
      requires forall k :: 0 <= k < |out| ==> out[k] != convBuf
      modifies this, rawBuf, convBuf, set k | 0 <= k < |out| :: out[k]
      ensures Valid()
      ensures running == old(running) && rawBuf == old(rawBuf) && convBuf == old(convBuf)
      ensures modules == old(modules) && enabled == old(enabled)
      ensures chanmap == old(chanmap) && agcMode == old(agcMode)
      ensures !old(running) ==> r == 0 && failures == old(failures)
      ensures !old(running) && rawBuf != null ==> rawBuf[..] == old(rawBuf[..])
      ensures !old(running) && convBuf != null ==> convBuf[..] == old(convBuf[..])
      ensures !old(running) || r == WorkDone ==>
                forall k, i :: 0 <= k < |out| && 0 <= i < out[k].Length ==> out[k][i] == old(out[k][i])
      ensures old(running) ==> failures == FailureStep(old(failures), rxStatus, maxFailures).failures
      ensures old(running) ==> (r == WorkDone <==> FailureStep(old(failures), rxStatus, maxFailures).done)
      ensures old(running) && r != WorkDone ==> r == n
      ensures old(running) ==> rawBuf[..2 * n] == received && rawBuf[2 * n..] == old(rawBuf[2 * n..])
      ensures old(running) && r == WorkDone ==> convBuf[..] == old(convBuf[..])
      ensures old(running) && r == n ==>
                forall k :: 0 <= k < SlotsWritten(n) ==> convBuf[k] == UnpackSlot(rawBuf[..], k)
      ensures old(running) && r == n ==>
                forall k :: SlotsWritten(n) <= k < convBuf.Length ==> convBuf[k] == old(convBuf[k])
      ensures old(running) && r == n ==>
                forall c, i :: 0 <= c < NumStreams(layout) && 0 <= i < n / NumStreams(layout) ==>
                  Pos(i, NumStreams(layout), c) < n && out[c][i] == UnpackSlot(rawBuf[..], Pos(i, NumStreams(layout), c))
      ensures old(running) && r == n ==>
                forall c, i :: 0 <= c < |out| && 0 <= i < out[c].Length && (c >= NumStreams(layout) || i >= n / NumStreams(layout)) ==>
                  out[c][i] == old(out[c][i])
    {
      if !running {
        return 0;
      }
      var raw, conv := rawBuf, convBuf;
      forall k | 0 <= k < 2 * n {
        raw[k] := received[k];
      }
      if rxStatus != 0 {
        failures := failures + 1;
        if failures >= maxFailures {
          return WorkDone;
        }
      } else {
        failures := 0;
      }
      Unpack(raw, conv, n);
      var ns := NumStreams(layout);
      Deinterleave(conv, n, ns, out);
      return n;
    }

    /**
     * `set_antenna()`: a running block is stopped around the antenna change
     * and started again; a stopped block only takes the change. The change
     * itself happens outside this block: `newChanmap` and `newEnabled` are
     * the channel map and enable flags it leaves. An exception from `stop()`
     * comes before the change; one from `start()` comes after it.
     */
    method SetAntenna(disableStatus: nat -> int, newChanmap: map<int, int>, newEnabled: set<nat>,
                      configStatus: int, enableStatus: nat -> int) returns (r: Outcome)
      requires Valid()
      modifies this
      ensures Valid()
      ensures !old(running) ==>
                r == Done && !running && rawBuf == old(rawBuf) && convBuf == old(convBuf) &&
                modules == old(modules) && chanmap == newChanmap && enabled == newEnabled
      ensures old(running) && ChannelLoop(old(enabled), disableStatus, maxChannels).Threw? ==>
                r == ChannelLoop(old(enabled), disableStatus, maxChannels) && !running &&
                chanmap == old(chanmap) && enabled == old(enabled) &&
                rawBuf == old(rawBuf) && convBuf == old(convBuf) &&
                modules == old(modules) - EnabledBelow(old(enabled), LoopEnd(old(enabled), disableStatus, maxChannels))
      ensures old(running) && ChannelLoop(old(enabled), disableStatus, maxChannels).Done? ==>
                chanmap == newChanmap && enabled == newEnabled &&
                r == if configStatus != 0 then Threw(DeviceError(configStatus))
                     else ChannelLoop(newEnabled, enableStatus, maxChannels)
      ensures old(running) && r.Done? ==>
                running && fresh(rawBuf) && fresh(convBuf) &&
                modules == old(modules) - EnabledBelow(old(enabled), maxChannels) + EnabledBelow(newEnabled, maxChannels)
      ensures old(running) && ChannelLoop(old(enabled), disableStatus, maxChannels).Done? && r.Threw? ==>
                !running && rawBuf == null && convBuf == null &&
                modules == old(modules) - EnabledBelow(old(enabled), maxChannels)
                           + (if configStatus != 0 then {} else EnabledBelow(newEnabled, LoopEnd(newEnabled, enableStatus, maxChannels)))
      ensures failures == old(failures) && agcMode == old(agcMode)
    {
      var wasRunning := running;
      if wasRunning {
        r := Stop(disableStatus);
        if r.Threw? {
          return;
        }
      }
      chanmap := newChanmap;
      enabled := newEnabled;
      if wasRunning {
        r := Start(configStatus, enableStatus);
        return;
      }
      return Done;
    }

    /**
     * `set_agc_mode()`: read the device's table of gain modes (a negative
     * count throws), take the mode of the first row with the given name, and
     * leave the mode as it was when no row has it.
     */
    method SetAgcMode(name: string, listStatus: int, table: seq<GainModeEntry>) returns (r: Outcome)
      requires Valid()
      requires listStatus >= 0 ==> listStatus <= |table|
      modifies this`agcMode
      ensures Valid()
      ensures listStatus < 0 ==> r == Threw(DeviceError(listStatus)) && agcMode == old(agcMode)
      ensures listStatus >= 0 ==> r == Done
      ensures r.Threw? <==> AgcModeAfter(name, listStatus, table, old(agcMode)).Failure?
      ensures r.Done? ==> AgcModeAfter(name, listStatus, table, old(agcMode)) == Success(agcMode)
    {
      if listStatus < 0 {
        return Threw(DeviceError(listStatus));
      }
      var found := FindGainMode(table, listStatus, name);
      if found.Some? {
        agcMode := found.value;
      }
      return Done;
    }
  }
}
