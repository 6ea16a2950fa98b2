/**
 * The server-side audio device loop: the two control flags (`control_loop`
 * and `stream_loop`) driven by setting updates, the stream callbacks that run
 * the conversion and feed the monitor queue, the monitor callback that drains
 * that queue, and the gating decisions of one pass of the start loop (device
 * lookup, sample-rate unification and check, the lists of available rates).
 *
 * Device enumeration, the sample-rate probe and the conversion callback are
 * parameters; every `emitTo` call is appended to `emissions`, every buffer
 * written to the output or the monitor stream to `played` or `monitored`.
 */
module ServerDevice {
  import opened Common
  import opened Settings

  const ErrGenericServerAudioCode: string := "ERR_GENERIC_SERVER_AUDIO_ERROR"
  const ErrGenericServerAudioMessage: string := "A server audio error occurred."
  const ErrSampleRateNotSupportedCode: string := "ERR_SAMPLE_RATE_NOT_SUPPORTED"

  /** Keys whose update breaks the running stream so that it is reconfigured. */
  const StreamKeys: set<string> :=
    {"serverAudioStated", "serverInputDeviceId", "serverOutputDeviceId", "serverMonitorDeviceId",
     "serverReadChunkSize", "serverAudioSampleRate"}

  datatype ErrorReport = ErrorReport(code: string, message: string)

  /** What `on_request` returns: the converted audio, its volume, the performance vector and an optional error. */
  datatype Processed = Processed(audio: seq<real>, vol: real, perf: seq<real>, err: Option<ErrorReport>)

  /** One `emitTo(volume, performance, err)` call. */
  datatype Emission = Emission(volume: real, performance: seq<real>, err: Option<ErrorReport>)

  datatype AudioDevice = AudioDevice(index: int, name: string, hostAPI: string, maxInputChannels: nat, maxOutputChannels: nat)

  datatype Direction = Input | Output

  /** How one pass of the start loop ends. */
  datatype StartOutcome =
    | Idle
    | DeviceMissing
    | RatesUnsupported(input: seq<nat>, output: seq<nat>, monitor: seq<nat>)
    | Streaming(withMonitor: bool)
    | StreamFailed

  /** The report of any failure inside a callback or the start loop: volume 0 and the last performance vector. */
  function GenericError(performance: seq<real>): Emission
  {
    Emission(0.0, performance, Some(ErrorReport(ErrGenericServerAudioCode, ErrGenericServerAudioMessage)))
  }

  /** `x.index == index`, with Python's comparison of the configured id. */
  predicate Matches(d: AudioDevice, index: Value)
  {
    PyEq(Int(d.index), index)
  }

  /** `[x for x in devices if x.index == index]`. */
  function Matching(devices: seq<AudioDevice>, index: Value): (r: seq<AudioDevice>)
    ensures |r| <= |devices|
    ensures forall d :: d in r ==> d in devices && Matches(d, index)
    ensures forall d :: d in devices && Matches(d, index) ==> d in r
  {
    if |devices| == 0 then []
    else (if Matches(devices[0], index) then [devices[0]] else []) + Matching(devices[1..], index)
  }

  /** The comprehension keeps list order: the matches of two lists in turn are those of the first, then the second. */
  lemma {:induction false} MatchingAppend(a: seq<AudioDevice>, b: seq<AudioDevice>, index: Value)
    ensures Matching(a + b, index) == Matching(a, index) + Matching(b, index)
  {
    if |a| > 0 {
      assert (a + b)[1..] == a[1..] + b;
      MatchingAppend(a[1..], b, index);
    } else {
      assert a + b == b;
    }
  }

  /** `getServerInputAudioDevice` / `getServerOutputAudioDevice` over an enumerated device list. */
  function FindDevice(devices: seq<AudioDevice>, index: Value): Option<AudioDevice>
  {
    var m := Matching(devices, index);
    if |m| > 0 then Some(m[0]) else None
  }

  /** The lookup finds nothing exactly when no listed device has a matching index. */
  lemma {:induction false} FindDeviceNone(devices: seq<AudioDevice>, index: Value)
    ensures FindDevice(devices, index).None? <==> forall i :: 0 <= i < |devices| ==> !Matches(devices[i], index)
  {
    if |devices| > 0 {
      var tail := devices[1..];
      FindDeviceNone(tail, index);
      if !Matches(devices[0], index) {
        assert Matching(devices, index) == Matching(tail, index);
        forall i | 0 < i < |devices| ensures devices[i] == tail[i - 1] { }
      }
    }
  }

  /** What the lookup finds is the first listed device whose index matches. */
  lemma {:induction false} FindDeviceFirst(devices: seq<AudioDevice>, index: Value)
    ensures FindDevice(devices, index).Some? ==>
      exists i :: 0 <= i < |devices| && devices[i] == FindDevice(devices, index).value && Matches(devices[i], index)
                  && forall j :: 0 <= j < i ==> !Matches(devices[j], index)
  {
    if |devices| > 0 {
      var tail := devices[1..];
      if Matches(devices[0], index) {
        assert Matching(devices, index)[0] == devices[0];
      } else {
        assert Matching(devices, index) == Matching(tail, index);
        FindDeviceFirst(tail, index);
        if FindDevice(tail, index).Some? {
          var i :| 0 <= i < |tail| && tail[i] == FindDevice(tail, index).value && Matches(tail[i], index)
                   && forall j :: 0 <= j < i ==> !Matches(tail[j], index);
          assert devices[i + 1] == tail[i];
          forall j | 0 < j < i + 1 ensures !Matches(devices[j], index) {
            assert devices[j] == tail[j - 1];
          }
        }
      }
    }
  }

  /**
   * The block written to a `frames`-row output buffer by `outdata[:] = ...`:
   * a buffer of `frames` samples is written as is, a one-sample buffer is
   * broadcast to every row, and any other length makes the assignment raise.
   */
  function Fit(audio: seq<real>, frames: nat): (r: Option<seq<real>>)
    ensures r.Some? <==> |audio| == frames || |audio| == 1
    ensures r.Some? ==> |r.value| == frames
    ensures r.Some? ==> forall k :: 0 <= k < frames ==> r.value[k] == if |audio| == frames then audio[k] else audio[0]
  {
    if |audio| == frames then Some(audio)
    else if |audio| == 1 then Some(seq(frames, _ => audio[0]))
    else None
  }

  /** The available rates of one device: `rates` filtered by the probe, in order. */
  function SupportedRates(rates: seq<nat>, id: Value, dir: Direction, supports: (Value, Value, Direction) -> bool): seq<nat>
  {
    if |rates| == 0 then []
    else
      var last := rates[|rates| - 1];
      SupportedRates(rates[..|rates| - 1], id, dir, supports) + (if supports(id, Int(last), dir) then [last] else [])
  }

  /** The available-rate list holds exactly the probed-supported rates of the candidate list. */
  lemma {:induction false} SupportedRatesMembers(rates: seq<nat>, id: Value, dir: Direction, supports: (Value, Value, Direction) -> bool)
    ensures |SupportedRates(rates, id, dir, supports)| <= |rates|
    ensures forall x :: x in SupportedRates(rates, id, dir, supports) <==> x in rates && supports(id, Int(x), dir)
  {
    if |rates| > 0 {
      var init := rates[..|rates| - 1];
      SupportedRatesMembers(init, id, dir, supports);
      assert rates == init + [rates[|rates| - 1]];
    }
  }

  /** Filtering keeps the candidate order: the available rates of two candidate lists in turn are those of the first, then the second. */
  lemma {:induction false} SupportedRatesAppend(a: seq<nat>, b: seq<nat>, id: Value, dir: Direction,
                                                supports: (Value, Value, Direction) -> bool)
    ensures SupportedRates(a + b, id, dir, supports) == SupportedRates(a, id, dir, supports) + SupportedRates(b, id, dir, supports)
  {
    if |b| == 0 {
      assert a + b == a;
    } else {
      var init := b[..|b| - 1];
      assert (a + b)[..|a + b| - 1] == a + init;
      assert (a + b)[|a + b| - 1] == b[|b| - 1];
      SupportedRatesAppend(a, init, id, dir, supports);
    }
  }

  /** An ascending candidate list gives an ascending available list. */
  lemma {:induction false} SupportedRatesAscending(rates: seq<nat>, id: Value, dir: Direction, supports: (Value, Value, Direction) -> bool)
    requires forall i, j :: 0 <= i < j < |rates| ==> rates[i] < rates[j]
    ensures var r := SupportedRates(rates, id, dir, supports);
            forall i, j :: 0 <= i < j < |r| ==> r[i] < r[j]
  {
    if |rates| > 0 {
      var init := rates[..|rates| - 1];
      var last := rates[|rates| - 1];
      SupportedRatesAscending(init, id, dir, supports);
      SupportedRatesMembers(init, id, dir, supports);
      var r0 := SupportedRates(init, id, dir, supports);
      forall x | x in r0 ensures x < last {
        var i :| 0 <= i < |init| && init[i] == x;
        assert rates[i] == x;
      }
      var r := SupportedRates(rates, id, dir, supports);
      forall i, j | 0 <= i < j < |r| ensures r[i] < r[j] {
        if j >= |r0| {
          assert r[i] == r0[i] && r[j] == last;
          assert r0[i] in r0;
        }
      }
    }
  }

  /** When every candidate rate is supported, the available list is the candidate list itself. */
  lemma {:induction false} SupportedRatesAll(rates: seq<nat>, id: Value, dir: Direction, supports: (Value, Value, Direction) -> bool)
    requires forall x :: x in rates ==> supports(id, Int(x), dir)
    ensures SupportedRates(rates, id, dir, supports) == rates
  {
    if |rates| > 0 {
      var init := rates[..|rates| - 1];
      assert forall x :: x in init ==> x in rates;
      SupportedRatesAll(init, id, dir, supports);
      assert rates == init + [rates[|rates| - 1]];
    }
  }

  /** Python's `str()` of a list of ints: `[a, b, c]`. */
  function ListRepr(xs: seq<nat>): string
  {
    "[" + JoinRates(xs) + "]"
  }

  function JoinRates(xs: seq<nat>): string
  {
    if |xs| == 0 then "" else if |xs| == 1 then NatToString(xs[0]) else NatToString(xs[0]) + ", " + JoinRates(xs[1..])
  }

  const RatesMessageHead: string :=
    "Specified sample rate is not supported by all selected audio devices.\nAvailable sample rates:\n  [Input]: "
  const OutputLabel: string := "\n  [Output]: "
  const MonitorLabel: string := "\n  [Monitor]: "

  /** ERR_SAMPLE_RATE_NOT_SUPPORTED's message template filled with the three lists. */
  function RatesMessage(input: seq<nat>, output: seq<nat>, monitor: seq<nat>): string
  {
    RatesMessageHead + ListRepr(input) + OutputLabel + ListRepr(output) + MonitorLabel + ListRepr(monitor)
  }

  /** The ERR_SAMPLE_RATE_NOT_SUPPORTED report: volume 0, the last performance vector and the three lists. */
  function RatesReport(performance: seq<real>, input: seq<nat>, output: seq<nat>, monitor: seq<nat>): Emission
  {
    Emission(0.0, performance, Some(ErrorReport(ErrSampleRateNotSupportedCode, RatesMessage(input, output, monitor))))
  }

  class ServerDevice {
    const settings: SettingsStore
    var monQueue: seq<seq<real>>
    var performance: seq<real>
    var controlLoop: Value
    var streamLoop: bool
    var emissions: seq<Emission>
    var played: seq<seq<real>>
    var monitored: seq<seq<real>>

    constructor (settings: SettingsStore)
      ensures this.settings == settings
      ensures monQueue == [] && performance == [0.0, 0.0, 0.0]
      ensures controlLoop == Bool(false) && !streamLoop
      ensures emissions == [] && played == [] && monitored == []
    {
      this.settings := settings;
      monQueue := [];
      performance := [0.0, 0.0, 0.0];
      controlLoop := Bool(false);
      streamLoop := false;
      emissions := [];
      played := [];
      monitored := [];
    }

    /**
     * `update_settings`: `serverAudioStated` sets the control flag to the new
     * value; every stream-affecting key clears the stream flag; other keys
     * leave both flags alone.
     */
    method UpdateSettings(key: string, val: Value)
      modifies this`controlLoop, this`streamLoop
      ensures controlLoop == if key == "serverAudioStated" then val else old(controlLoop)
      ensures streamLoop == if key in StreamKeys then false else old(streamLoop)
    {
      if key == "serverAudioStated" {
        controlLoop := val;
      }
      if key in StreamKeys {
        streamLoop := false;
      }
    }

    /** `_processDataWithTime` after `on_request` returned: keep the performance vector and report it. */
    method ProcessWithTime(p: Processed)
      modifies this`performance, this`emissions
      ensures performance == p.perf
      ensures emissions == old(emissions) + [Emission(p.vol, p.perf, p.err)]
    {
      performance := p.perf;
      emissions := emissions + [Emission(p.vol, performance, p.err)];
    }

    /**
     * `audio_stream_callback`: `result` is what `on_request` returned (None
     * when it raised), `frames` the row count of the output buffer. Any
     * exception is reported with volume 0 and the last performance vector.
     */
    method AudioStreamCallback(result: Option<Processed>, frames: nat)
      modifies this`performance, this`emissions, this`played
      ensures result.None? ==>
        performance == old(performance) && played == old(played)
        && emissions == old(emissions) + [GenericError(old(performance))]
      ensures result.Some? ==>
        var p := result.value;
        && performance == p.perf
        && (Fit(p.audio, frames).Some? ==>
              played == old(played) + [Fit(p.audio, frames).value]
              && emissions == old(emissions) + [Emission(p.vol, p.perf, p.err)])
        && (Fit(p.audio, frames).None? ==>
              played == old(played)
              && emissions == old(emissions) + [Emission(p.vol, p.perf, p.err), GenericError(p.perf)])
    {
      if result.None? {
        emissions := emissions + [GenericError(performance)];
        return;
      }
      ProcessWithTime(result.value);
      var out := Fit(result.value.audio, frames);
      if out.Some? {
        played := played + [out.value];
      } else {
        emissions := emissions + [GenericError(performance)];
      }
    }

    /**
     * `audio_stream_callback_mon_queue`: as the plain callback, and the
     * converted buffer is queued for the monitor, once, before it is written
     * to the output.
     */
    method AudioStreamCallbackMonQueue(result: Option<Processed>, frames: nat)
      modifies this`performance, this`emissions, this`played, this`monQueue
      ensures result.None? ==>
        performance == old(performance) && played == old(played) && monQueue == old(monQueue)
        && emissions == old(emissions) + [GenericError(old(performance))]
      ensures result.Some? ==>
        var p := result.value;
        && performance == p.perf
        && monQueue == old(monQueue) + [p.audio]
        && (Fit(p.audio, frames).Some? ==>
              played == old(played) + [Fit(p.audio, frames).value]
              && emissions == old(emissions) + [Emission(p.vol, p.perf, p.err)])
        && (Fit(p.audio, frames).None? ==>
              played == old(played)
              && emissions == old(emissions) + [Emission(p.vol, p.perf, p.err), GenericError(p.perf)])
    {
      if result.None? {
        emissions := emissions + [GenericError(performance)];
        return;
      }
      ProcessWithTime(result.value);
      monQueue := monQueue + [result.value.audio];
      var out := Fit(result.value.audio, frames);
      if out.Some? {
        played := played + [out.value];
      } else {
        emissions := emissions + [GenericError(performance)];
      }
    }

    /**
     * `audio_monitor_callback`: take the oldest queued buffer, discard the
     * rest so that the monitor never lags, and write the taken one to the
     * monitor stream. With an empty queue the callback would wait for the next
     * buffer; that wait is not modelled, and the call changes nothing.
     */
    method AudioMonitorCallback(frames: nat)
      modifies this`monQueue, this`monitored, this`emissions
      ensures old(monQueue) == [] ==>
        monQueue == [] && monitored == old(monitored) && emissions == old(emissions)
      ensures old(monQueue) != [] ==>
        var monWav := old(monQueue)[0];
        && monQueue == []
        && (Fit(monWav, frames).Some? ==> monitored == old(monitored) + [Fit(monWav, frames).value]
                                          && emissions == old(emissions))
        && (Fit(monWav, frames).None? ==> monitored == old(monitored)
                                          && emissions == old(emissions) + [GenericError(performance)])
    {
      if monQueue == [] {
        return;
      }
      var monWav := monQueue[0];
      monQueue := monQueue[1..];
      while |monQueue| > 0
        modifies this`monQueue
        decreases |monQueue|
      {
        monQueue := monQueue[1..];
      }
      var out := Fit(monWav, frames);
      if out.Some? {
        monitored := monitored + [out.value];
      } else {
        emissions := emissions + [GenericError(performance)];
      }
    }

    /**
     * The rate-listing loop of `start`: for every candidate rate, in order,
     * probe the input, the output and (only when a monitor device exists) the
     * monitor device.
     */
    method AvailableSampleRates(rates: seq<nat>, inputId: Value, outputId: Value, monitorId: Value,
                                hasMonitor: bool, supports: (Value, Value, Direction) -> bool)
      returns (inputRates: seq<nat>, outputRates: seq<nat>, monitorRates: seq<nat>)
      ensures inputRates == SupportedRates(rates, inputId, Input, supports)
      ensures outputRates == SupportedRates(rates, outputId, Output, supports)
      ensures monitorRates == if hasMonitor then SupportedRates(rates, monitorId, Output, supports) else []
    {
      inputRates, outputRates, monitorRates := [], [], [];
      for k := 0 to |rates|
        invariant inputRates == SupportedRates(rates[..k], inputId, Input, supports)
        invariant outputRates == SupportedRates(rates[..k], outputId, Output, supports)
        invariant monitorRates == if hasMonitor then SupportedRates(rates[..k], monitorId, Output, supports) else []
      {
        assert rates[..k + 1][..k] == rates[..k];
        var sr := rates[k];
        if supports(inputId, Int(sr), Input) {
          inputRates := inputRates + [sr];
        }
        if supports(outputId, Int(sr), Output) {
          outputRates := outputRates + [sr];
        }
        if hasMonitor {
          if supports(monitorId, Int(sr), Output) {
            monitorRates := monitorRates + [sr];
          }
        }
      }
      assert rates[..|rates|] == rates;
    }

    /** The three available-rate lists of the unsupported-rate report; the monitor list is empty without a monitor. */
    function AvailableRates(rates: seq<nat>, inputId: Value, outputId: Value, monitorId: Value, hasMonitor: bool,
                            supports: (Value, Value, Direction) -> bool): StartOutcome
    {
      RatesUnsupported(SupportedRates(rates, inputId, Input, supports),
                       SupportedRates(rates, outputId, Output, supports),
                       if hasMonitor then SupportedRates(rates, monitorId, Output, supports) else [])
    }

    /** The unsupported-rate branch of `start`: list the available rates of every device and report them. */
    method ReportRates(inputId: Value, outputId: Value, monitorId: Value, hasMonitor: bool,
                       supports: (Value, Value, Direction) -> bool, rates: seq<nat>)
      returns (outcome: StartOutcome)
      modifies this`emissions
      ensures outcome == AvailableRates(rates, inputId, outputId, monitorId, hasMonitor, supports)
      ensures emissions == old(emissions) + [RatesReport(performance, outcome.input, outcome.output, outcome.monitor)]
    {
      var inputRates, outputRates, monitorRates :=
        AvailableSampleRates(rates, inputId, outputId, monitorId, hasMonitor, supports);
      emissions := emissions + [RatesReport(performance, inputRates, outputRates, monitorRates)];
      outcome := RatesUnsupported(inputRates, outputRates, monitorRates);
    }

    /**
     * How the rate gate and stream start of `start` end, from the stream flag
     * and the report list before them: a rate refused by the input, the output
     * or a present monitor device yields the available-rate report and leaves
     * the flag alone; otherwise the flag is raised and the stream opens (with
     * the monitor exactly when one exists) or its failure is reported.
     */
    ghost predicate Gated(outcome: StartOutcome, inputId: Value, outputId: Value, monitorId: Value, hasMonitor: bool,
                          sr: Value, supports: (Value, Value, Direction) -> bool, rates: seq<nat>, streamRaises: bool,
                          streamLoop0: bool, emissions0: seq<Emission>)
      reads this
    {
      && (outcome.RatesUnsupported? || outcome.Streaming? || outcome.StreamFailed?)
      && (outcome.RatesUnsupported? <==>
          !(supports(inputId, sr, Input) && supports(outputId, sr, Output) && (hasMonitor ==> supports(monitorId, sr, Output))))
      && (outcome.RatesUnsupported? ==>
          && outcome == AvailableRates(rates, inputId, outputId, monitorId, hasMonitor, supports)
          && streamLoop == streamLoop0
          && emissions == emissions0 + [RatesReport(performance, outcome.input, outcome.output, outcome.monitor)])
      && (outcome.Streaming? ==> streamLoop && !streamRaises && emissions == emissions0 && outcome.withMonitor == hasMonitor)
      && (outcome.StreamFailed? ==> streamLoop && streamRaises && emissions == emissions0 + [GenericError(performance)])
    }

    /**
     * The rate gate and stream start of `start`, once both devices were found
     * and the three stream rates were set to `sr`. The rate is probed on every
     * device (an absent monitor counts as supported); if one refuses it, the
     * available-rate lists are reported and no stream starts. Otherwise the
     * stream flag is raised and the stream opened, with the monitor stream
     * exactly when a monitor device exists; `streamRaises` says whether
     * opening it fails.
     */
    method ProbeAndOpen(inputId: Value, outputId: Value, monitorId: Value, hasMonitor: bool, sr: Value,
                        supports: (Value, Value, Direction) -> bool, rates: seq<nat>, streamRaises: bool)
      returns (outcome: StartOutcome)
      modifies this`streamLoop, this`emissions
      ensures Gated(outcome, inputId, outputId, monitorId, hasMonitor, sr, supports, rates, streamRaises,
                    old(streamLoop), old(emissions))
    {
      var inputOk := supports(inputId, sr, Input);
      var outputOk := supports(outputId, sr, Output);
      var monitorOk := if hasMonitor then supports(monitorId, sr, Output) else true;
      if !inputOk || !outputOk || !monitorOk {
        outcome := ReportRates(inputId, outputId, monitorId, hasMonitor, supports, rates);
        return;
      }
      streamLoop := true;
      if streamRaises {
        emissions := emissions + [GenericError(performance)];
        return StreamFailed;
      }
      return Streaming(hasMonitor);
    }

    /**
     * One pass of the `start` loop up to its rate gate. Idle while the control
     * flag is falsy. A missing input or output device is reported and no
     * stream starts. Otherwise the input, output and monitor stream rates are
     * all set to `serverAudioSampleRate` before anything is probed, and the
     * pass goes on as `ProbeAndOpen` says.
     */
    method StartPass(inputs: seq<AudioDevice>, outputs: seq<AudioDevice>,
                     supports: (Value, Value, Direction) -> bool, rates: seq<nat>, streamRaises: bool)
      returns (outcome: StartOutcome)
      modifies settings, this`streamLoop, this`emissions
      ensures outcome == Idle <==> !Truthy(controlLoop)
      ensures outcome.DeviceMissing? <==>
        Truthy(controlLoop)
        && (FindDevice(inputs, Get(old(settings.values), "serverInputDeviceId")).None?
            || FindDevice(outputs, Get(old(settings.values), "serverOutputDeviceId")).None?)
      ensures outcome == Idle ==> settings.values == old(settings.values) && emissions == old(emissions)
      ensures outcome.DeviceMissing? ==> settings.values == old(settings.values)
                                         && emissions == old(emissions) + [GenericError(performance)]
      ensures outcome == Idle || outcome.DeviceMissing? ==> streamLoop == old(streamLoop)
      ensures !(outcome == Idle || outcome.DeviceMissing?) ==>
        var sr := Get(old(settings.values), "serverAudioSampleRate");
        settings.values == old(settings.values)["serverInputAudioSampleRate" := sr]
                                               ["serverOutputAudioSampleRate" := sr]
                                               ["serverMonitorAudioSampleRate" := sr]
      ensures !(outcome == Idle || outcome.DeviceMissing?) ==>
        var values := old(settings.values);
        Gated(outcome, Get(values, "serverInputDeviceId"), Get(values, "serverOutputDeviceId"),
              Get(values, "serverMonitorDeviceId"), FindDevice(outputs, Get(values, "serverMonitorDeviceId")).Some?,
              Get(values, "serverAudioSampleRate"), supports, rates, streamRaises, old(streamLoop), old(emissions))
    {
      if !Truthy(controlLoop) {
        return Idle;
      }
      var values := settings.values;
      var inputId := Get(values, "serverInputDeviceId");
      var outputId := Get(values, "serverOutputDeviceId");
      var monitorId := Get(values, "serverMonitorDeviceId");
      var inputDevice := FindDevice(inputs, inputId);
      var outputDevice := FindDevice(outputs, outputId);
      var monitorDevice := FindDevice(outputs, monitorId);
      if inputDevice.None? || outputDevice.None? {
        emissions := emissions + [GenericError(performance)];
        return DeviceMissing;
      }
      var sr := Get(values, "serverAudioSampleRate");
      settings.values := values["serverInputAudioSampleRate" := sr]
                               ["serverOutputAudioSampleRate" := sr]
                               ["serverMonitorAudioSampleRate" := sr];
      outcome := ProbeAndOpen(inputId, outputId, monitorId, monitorDevice.Some?, sr, supports, rates, streamRaises);
    }
  }
}
