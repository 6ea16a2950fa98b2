/**
 * The server's voice-changer manager: the setting-update dispatcher (type
 * conversion, the no-change short cut, the sample-rate cascade and the
 * forwarding to the server audio device and the loaded voice changer), the
 * application of a model slot's defaults, the classification of a conversion
 * request's outcome, and the process-wide single instance.
 *
 * The setting record's type conversion is the `cast` parameter (None when
 * the value is refused); the model-slot table is `slots`; persisting the
 * record, device-manager calls and the voice changer's own update are
 * appended to `effects`.
 */
module VoiceChangerManager {
  import opened Common
  import opened Settings
  import SD = ServerDevice

  const NoVoiceChangerCode: string := "NoVoiceChangerLoaded"
  const NoVoiceChangerMessage: string := "Voice Change is not loaded. Did you load a correct model?"

  /** The fields of a model slot that the manager reads. */
  datatype SlotInfo = SlotInfo(voiceChangerType: Option<string>, defaultTune: Value, defaultFormantShift: Value,
                               defaultIndexRatio: Value, defaultProtect: Value)

  /** The loaded voice-changer model: its type and the slot it was set up from. */
  datatype LoadedModel = LoadedModel(voiceChangerType: string, slot: SlotInfo)

  /** How the loaded voice changer's `on_request` ended. */
  datatype Inference =
    | Inferred(audio: seq<real>, vol: real, perf: seq<real>)
    | NotSelected(trace: string)
    | NotInitialized(trace: string)
    | Failed(trace: string)

  datatype Effect =
    | StoreSetting(values: map<string, Value>)
    | DeviceManagerCall(key: string, val: Value)
    | ServerDeviceNotified(key: string, val: Value, oldValue: Value)
    | VoiceChangerNotified(key: string, val: Value, oldValue: Value)
    | ModelReloaded(slot: SlotInfo)
    | ModelLoaded(slot: SlotInfo)

  /** Keys handed to the device manager. */
  const DeviceKeys: set<string> := {"gpu", "forceFp32", "disableJit"}

  /** Keys whose update re-derives the input and output sample rates. */
  const CascadeKeys: set<string> := {"enableServerAudio", "serverAudioSampleRate"}

  /** The depth of the update cascade a key starts. */
  function Rank(key: string): nat
  {
    if key in CascadeKeys then 1 else 0
  }

  /** The exception name reported for a failed conversion. */
  function ExceptionCode(inference: Inference): (code: string)
    requires !inference.Inferred?
    ensures code == "VoiceChangerIsNotSelectedException" <==> inference.NotSelected?
    ensures code == "PipelineNotInitializedException" <==> inference.NotInitialized?
    ensures code == "Exception" <==> inference.Failed?
  {
    match inference
    case NotSelected(_) => "VoiceChangerIsNotSelectedException"
    case NotInitialized(_) => "PipelineNotInitializedException"
    case Failed(_) => "Exception"
  }

  /** The slot `initialize(val)` applies: a known slot index whose slot has a type. */
  function SlotToApply(slots: map<int, SlotInfo>, val: Value): (r: Option<SlotInfo>)
    ensures r.Some? <==> val.Int? && val.i in slots && slots[val.i].voiceChangerType.Some?
    ensures r.Some? ==> r.value == slots[val.i]
  {
    if val.Int? && val.i in slots && slots[val.i].voiceChangerType.Some? then Some(slots[val.i]) else None
  }

  /** The setting record with a slot's default tune, formant shift, index ratio and protect. */
  function WithDefaults(values: map<string, Value>, slot: SlotInfo): (r: map<string, Value>)
    ensures Get(r, "tran") == slot.defaultTune && Get(r, "formantShift") == slot.defaultFormantShift
    ensures Get(r, "indexRatio") == slot.defaultIndexRatio && Get(r, "protect") == slot.defaultProtect
    ensures forall k :: k !in {"tran", "formantShift", "indexRatio", "protect"} ==> Get(r, k) == Get(values, k)
  {
    values["tran" := slot.defaultTune]["formantShift" := slot.defaultFormantShift]
          ["indexRatio" := slot.defaultIndexRatio]["protect" := slot.defaultProtect]
  }

  /**
   * Initialising from a slot leaves the four tune settings at that slot's
   * defaults, and re-applying the slot's defaults leaves the record
   * unchanged; a slot index that is not an int selects no slot.
   */
  lemma SlotDefaultsApplied(slots: map<int, SlotInfo>, val: Value, values: map<string, Value>)
    ensures !val.Int? ==> SlotToApply(slots, val).None?
    ensures SlotToApply(slots, val).Some? ==>
      var slot := slots[val.i];
      var r := WithDefaults(values, SlotToApply(slots, val).value);
      && Get(r, "tran") == slot.defaultTune && Get(r, "formantShift") == slot.defaultFormantShift
      && Get(r, "indexRatio") == slot.defaultIndexRatio && Get(r, "protect") == slot.defaultProtect
      && WithDefaults(r, SlotToApply(slots, val).value) == r
  {
  }

  /** The forwarding of an effective change: to the server device, then to the voice changer when one is loaded. */
  function Forwards(key: string, val: Value, oldValue: Value, loaded: bool): seq<Effect>
  {
    [ServerDeviceNotified(key, val, oldValue)] + (if loaded then [VoiceChangerNotified(key, val, oldValue)] else [])
  }

  /**
   * The model and the effects of `initialize` for a typed slot, from the
   * model loaded before: a model of the same type is reused with the new
   * slot, an RVC slot loads a new model, and any other type is only logged.
   */
  function Reinitialized(model: Option<LoadedModel>, slot: SlotInfo): (Option<LoadedModel>, seq<Effect>)
    requires slot.voiceChangerType.Some?
  {
    var t := slot.voiceChangerType.value;
    if model.Some? && model.value.voiceChangerType == t then (Some(LoadedModel(t, slot)), [ModelReloaded(slot)])
    else if t == "RVC" then (Some(LoadedModel("RVC", slot)), [ModelLoaded(slot)])
    else (model, [])
  }

  class VoiceChangerManager {
    const settings: SettingsStore
    const serverDevice: SD.ServerDevice
    const slots: map<int, SlotInfo>
    const cast: (string, Value) -> Option<Value>
    var model: Option<LoadedModel>
    var effects: seq<Effect>

    /**
     * `__init__`: the setting record (defaults merged with the stored file),
     * the server device sharing that record, and the slot named by
     * `modelSlotIndex` initialised.
     */
    constructor (stored: map<string, Value>, slots: map<int, SlotInfo>, cast: (string, Value) -> Option<Value>)
      ensures fresh(settings) && fresh(serverDevice) && serverDevice.settings == settings
      ensures this.slots == slots && this.cast == cast
      ensures var slot := SlotToApply(slots, Get(stored, "modelSlotIndex"));
              && (slot.None? ==> settings.values == stored && model == None && effects == [])
              && (slot.Some? ==> settings.values == WithDefaults(stored, slot.value)
                                 && (slot.value.voiceChangerType == Some("RVC") <==> model.Some?)
                                 && (model.Some? ==> model == Some(LoadedModel("RVC", slot.value)) && effects == [ModelLoaded(slot.value)])
                                 && (model.None? ==> effects == []))
    {
      var store := new SettingsStore(stored);
      settings := store;
      serverDevice := new SD.ServerDevice(store);
      this.slots := slots;
      this.cast := cast;
      model := None;
      effects := [];
      new;
      Initialize(Get(settings.values, "modelSlotIndex"));
    }

    /** The converted value of an update that changes the setting; None when it is refused or equal to the current one. */
    function Effective(values: map<string, Value>, key: string, val: Value): (r: Option<Value>)
      ensures r.Some? <==> cast(key, val).Some? && !PyEq(Get(values, key), cast(key, val).value)
      ensures r.Some? ==> r == cast(key, val)
    {
      var converted := cast(key, val);
      if converted.Some? && !PyEq(Get(values, key), converted.value) then converted else None
    }

    /** The record after `update_settings(k, target)` when `k` starts no cascade: the converted value is stored when accepted. */
    function Followed(values: map<string, Value>, k: string, target: Value): map<string, Value>
    {
      if cast(k, target).Some? then values[k := cast(k, target).value] else values
    }

    /**
     * The effects of `update_settings(k, target)` for a key that starts no
     * follow-up: when the update is effective, the record is persisted and
     * the change forwarded; otherwise nothing.
     */
    function LeafEffects(values: map<string, Value>, k: string, target: Value, loaded: bool): seq<Effect>
    {
      var e := Effective(values, k, target);
      if e.Some? then [StoreSetting(values[k := e.value])] + Forwards(k, e.value, Get(values, k), loaded) else []
    }

    /** The effects of the cascade: the input-rate update, then the output-rate update on the record it left. */
    function CascadeEffects(values: map<string, Value>, target: Value, loaded: bool): seq<Effect>
    {
      LeafEffects(values, "inputSampleRate", target, loaded)
      + LeafEffects(Followed(values, "inputSampleRate", target), "outputSampleRate", target, loaded)
    }

    /**
     * `initialize(val)`: an unknown slot, or one without a type, changes
     * nothing. Otherwise the slot's defaults are written into the record; a
     * loaded model of the same type is reused with the new slot; an RVC slot
     * loads a new model; any other type is only logged.
     */
    method Initialize(val: Value)
      modifies settings, this`model, this`effects
      ensures SlotToApply(slots, val).None? ==>
        settings.values == old(settings.values) && model == old(model) && effects == old(effects)
      ensures SlotToApply(slots, val).Some? ==>
        var slot := SlotToApply(slots, val).value;
        var t := slot.voiceChangerType.value;
        && settings.values == WithDefaults(old(settings.values), slot)
        && (old(model).Some? && old(model).value.voiceChangerType == t ==>
              model == Some(LoadedModel(t, slot)) && effects == old(effects) + [ModelReloaded(slot)])
        && (!(old(model).Some? && old(model).value.voiceChangerType == t) && t == "RVC" ==>
              model == Some(LoadedModel("RVC", slot)) && effects == old(effects) + [ModelLoaded(slot)])
        && (!(old(model).Some? && old(model).value.voiceChangerType == t) && t != "RVC" ==>
              model == old(model) && effects == old(effects))
        && model == Reinitialized(old(model), slot).0 && effects == old(effects) + Reinitialized(old(model), slot).1
    {
      var slotInfo := SlotToApply(slots, val);
      if slotInfo.None? {
        return;
      }
      var slot := slotInfo.value;
      settings.values := WithDefaults(settings.values, slot);
      var t := slot.voiceChangerType.value;
      if model.Some? && model.value.voiceChangerType == t {
        model := Some(LoadedModel(t, slot));
        effects := effects + [ModelReloaded(slot)];
        return;
      }
      if t == "RVC" {
        model := Some(LoadedModel("RVC", slot));
        effects := effects + [ModelLoaded(slot)];
      }
    }

    /**
     * `update_settings(key, val)`. A refused value changes nothing. The
     * converted value is stored; if it equals the old one the update stops
     * there, with nothing persisted or forwarded. Otherwise the record is
     * persisted, the key-specific follow-up runs (slot initialisation,
     * device-manager call, or the sample-rate cascade), and only then is the
     * change forwarded to the server device and, when a model is loaded, to
     * the voice changer.
     */
    method UpdateSettings(key: string, val: Value)
      modifies settings, serverDevice`controlLoop, serverDevice`streamLoop, this`model, this`effects
      decreases Rank(key), 2
      ensures cast(key, val).None? ==>
        settings.values == old(settings.values) && effects == old(effects) && model == old(model)
        && serverDevice.controlLoop == old(serverDevice.controlLoop) && serverDevice.streamLoop == old(serverDevice.streamLoop)
      ensures cast(key, val).Some? && Effective(old(settings.values), key, val).None? ==>
        settings.values == old(settings.values)[key := cast(key, val).value] && effects == old(effects) && model == old(model)
        && serverDevice.controlLoop == old(serverDevice.controlLoop) && serverDevice.streamLoop == old(serverDevice.streamLoop)
      ensures Effective(old(settings.values), key, val).Some? ==>
        var w := cast(key, val).value;
        var fw := Forwards(key, w, Get(old(settings.values), key), model.Some?);
        && Get(settings.values, key) == w
        && serverDevice.controlLoop == (if key == "serverAudioStated" then w else old(serverDevice.controlLoop))
        && serverDevice.streamLoop == (if key in SD.StreamKeys then false else old(serverDevice.streamLoop))
        && |effects| >= |old(effects)| + 1 + |fw|
        && effects[..|old(effects)| + 1] == old(effects) + [StoreSetting(old(settings.values)[key := w])]
        && effects[|effects| - |fw|..] == fw
      ensures Effective(old(settings.values), key, val).Some? && key != "modelSlotIndex" && key !in CascadeKeys ==>
        var w := cast(key, val).value;
        && settings.values == old(settings.values)[key := w] && model == old(model)
        && effects == old(effects) + [StoreSetting(old(settings.values)[key := w])]
                      + (if key in DeviceKeys then [DeviceManagerCall(key, w)] else [])
                      + Forwards(key, w, Get(old(settings.values), key), model.Some?)
      ensures Effective(old(settings.values), key, val).Some? && key in CascadeKeys ==>
        var w := cast(key, val).value;
        var target := if key == "serverAudioSampleRate" then w
                      else if Truthy(w) then Get(old(settings.values), "serverAudioSampleRate") else Int(48000);
        && model == old(model)
        && settings.values == Followed(Followed(old(settings.values)[key := w], "inputSampleRate", target), "outputSampleRate", target)
        && effects == old(effects) + [StoreSetting(old(settings.values)[key := w])]
                      + CascadeEffects(old(settings.values)[key := w], target, model.Some?)
                      + Forwards(key, w, Get(old(settings.values), key), model.Some?)
      ensures Effective(old(settings.values), key, val).Some? && key == "modelSlotIndex" ==>
        var w := cast(key, val).value;
        var slot := SlotToApply(slots, w);
        && settings.values == (if slot.Some? then WithDefaults(old(settings.values)[key := w], slot.value)
                               else old(settings.values)[key := w])
        && model == (if slot.Some? then Reinitialized(old(model), slot.value).0 else old(model))
        && effects == old(effects) + [StoreSetting(old(settings.values)[key := w])]
                      + (if slot.Some? then Reinitialized(old(model), slot.value).1 else [])
                      + Forwards(key, w, Get(old(settings.values), key), model.Some?)
    {
      var converted := cast(key, val);
      if converted.None? {
        return;
      }
      var oldValue := Get(settings.values, key);
      var w := converted.value;
      settings.values := settings.values[key := w];
      if PyEq(oldValue, w) {
        return;
      }
      ApplyChange(key, w, oldValue);
    }

    /**
     * The effective part of `update_settings`, once the changed value `w` is
     * in the record: persist the record, run the key's follow-up, then
     * forward the change (old value `oldValue`).
     */
    method ApplyChange(key: string, w: Value, oldValue: Value)
      modifies settings, serverDevice`controlLoop, serverDevice`streamLoop, this`model, this`effects
      decreases Rank(key), 1
      ensures Get(settings.values, key) == Get(old(settings.values), key)
      ensures serverDevice.controlLoop == (if key == "serverAudioStated" then w else old(serverDevice.controlLoop))
      ensures serverDevice.streamLoop == (if key in SD.StreamKeys then false else old(serverDevice.streamLoop))
      ensures key != "modelSlotIndex" && key !in CascadeKeys ==>
        && settings.values == old(settings.values) && model == old(model)
        && effects == old(effects) + [StoreSetting(old(settings.values))]
                      + (if key in DeviceKeys then [DeviceManagerCall(key, w)] else [])
                      + Forwards(key, w, oldValue, model.Some?)
      ensures key in CascadeKeys ==>
        var target := if key == "serverAudioSampleRate" then Get(old(settings.values), "serverAudioSampleRate")
                      else if Truthy(w) then Get(old(settings.values), "serverAudioSampleRate") else Int(48000);
        && model == old(model)
        && settings.values == Followed(Followed(old(settings.values), "inputSampleRate", target), "outputSampleRate", target)
        && effects == old(effects) + [StoreSetting(old(settings.values))]
                      + CascadeEffects(old(settings.values), target, model.Some?)
                      + Forwards(key, w, oldValue, model.Some?)
      ensures key == "modelSlotIndex" ==>
        var slot := SlotToApply(slots, w);
        && settings.values == (if slot.Some? then WithDefaults(old(settings.values), slot.value) else old(settings.values))
        && model == (if slot.Some? then Reinitialized(old(model), slot.value).0 else old(model))
        && effects == old(effects) + [StoreSetting(old(settings.values))]
                      + (if slot.Some? then Reinitialized(old(model), slot.value).1 else [])
                      + Forwards(key, w, oldValue, model.Some?)
    {
      effects := effects + [StoreSetting(settings.values)];
      FollowUp(key, w);
      serverDevice.UpdateSettings(key, w);
      effects := effects + Forwards(key, w, oldValue, model.Some?);
    }

    /**
     * The key-specific part of an effective update, run after the record is
     * persisted and before the change is forwarded: a new slot index
     * initialises that slot, a device key goes to the device manager, and the
     * two cascade keys re-derive the input and output rates (from the server
     * rate, or 48000 when server audio is switched off).
     */
    method FollowUp(key: string, w: Value)
      modifies settings, serverDevice`controlLoop, serverDevice`streamLoop, this`model, this`effects
      decreases Rank(key), 0
      ensures serverDevice.controlLoop == old(serverDevice.controlLoop) && serverDevice.streamLoop == old(serverDevice.streamLoop)
      ensures |effects| >= |old(effects)| && effects[..|old(effects)|] == old(effects)
      ensures Get(settings.values, key) == Get(old(settings.values), key)
      ensures key == "modelSlotIndex" ==>
        var slot := SlotToApply(slots, w);
        settings.values == if slot.Some? then WithDefaults(old(settings.values), slot.value) else old(settings.values)
      ensures key == "modelSlotIndex" ==>
        var slot := SlotToApply(slots, w);
        && (slot.None? ==> model == old(model) && effects == old(effects))
        && (slot.Some? ==> model == Reinitialized(old(model), slot.value).0
                           && effects == old(effects) + Reinitialized(old(model), slot.value).1)
      ensures key != "modelSlotIndex" ==> model == old(model)
      ensures key in DeviceKeys ==> settings.values == old(settings.values) && effects == old(effects) + [DeviceManagerCall(key, w)]
      ensures key in CascadeKeys ==>
        var target := if key == "serverAudioSampleRate" then Get(old(settings.values), "serverAudioSampleRate")
                      else if Truthy(w) then Get(old(settings.values), "serverAudioSampleRate") else Int(48000);
        && settings.values == Followed(Followed(old(settings.values), "inputSampleRate", target), "outputSampleRate", target)
        && effects == old(effects) + CascadeEffects(old(settings.values), target, model.Some?)
      ensures key != "modelSlotIndex" && key !in DeviceKeys && key !in CascadeKeys ==>
        settings.values == old(settings.values) && effects == old(effects)
    {
      if key == "modelSlotIndex" {
        Initialize(w);
      } else if key in DeviceKeys {
        effects := effects + [DeviceManagerCall(key, w)];
      } else if key == "enableServerAudio" {
        Cascade(if Truthy(w) then Get(settings.values, "serverAudioSampleRate") else Int(48000));
      } else if key == "serverAudioSampleRate" {
        Cascade(Get(settings.values, "serverAudioSampleRate"));
      }
    }

    /** `update_settings('inputSampleRate', target)` then `update_settings('outputSampleRate', target)`. */
    method Cascade(target: Value)
      modifies settings, serverDevice`controlLoop, serverDevice`streamLoop, this`model, this`effects
      decreases 0, 4
      ensures serverDevice.controlLoop == old(serverDevice.controlLoop) && serverDevice.streamLoop == old(serverDevice.streamLoop)
      ensures |effects| >= |old(effects)| && effects[..|old(effects)|] == old(effects)
      ensures model == old(model)
      ensures settings.values == Followed(Followed(old(settings.values), "inputSampleRate", target), "outputSampleRate", target)
      ensures effects == old(effects) + CascadeEffects(old(settings.values), target, model.Some?)
    {
      RateUpdate("inputSampleRate", target);
      RateUpdate("outputSampleRate", target);
    }

    /**
     * `update_settings(k, target)` for one of the two rate keys: they start
     * no follow-up and do not disturb the server device's loops, so the
     * update only stores the converted value and, when it changes the
     * record, persists and forwards it.
     */
    method RateUpdate(k: string, target: Value)
      requires k == "inputSampleRate" || k == "outputSampleRate"
      modifies settings, serverDevice`controlLoop, serverDevice`streamLoop, this`model, this`effects
      decreases 0, 3
      ensures serverDevice.controlLoop == old(serverDevice.controlLoop) && serverDevice.streamLoop == old(serverDevice.streamLoop)
      ensures model == old(model)
      ensures settings.values == Followed(old(settings.values), k, target)
      ensures effects == old(effects) + LeafEffects(old(settings.values), k, target, model.Some?)
    {
      assert k !in CascadeKeys && k !in DeviceKeys && k !in SD.StreamKeys && k != "modelSlotIndex" && k != "serverAudioStated";
      UpdateSettings(k, target);
    }

    /**
     * `changeVoice`: in pass-through mode the input comes back unchanged with
     * its volume (`rms`) and a zero performance vector. Without a loaded
     * model, or when the conversion raised, a one-sample silent buffer comes
     * back with volume 0, a zero performance vector and an error naming the
     * cause. Otherwise the conversion's own result comes back.
     */
    function ChangeVoice(received: seq<real>, rms: real, inference: Inference): (r: SD.Processed)
      reads this, settings
      ensures r.err.None? <==> Truthy(Get(settings.values, "passThrough")) || (model.Some? && inference.Inferred?)
      ensures Truthy(Get(settings.values, "passThrough")) ==> r == SD.Processed(received, rms, [0.0, 0.0, 0.0], None)
      ensures !Truthy(Get(settings.values, "passThrough")) && model.Some? && inference.Inferred? ==>
        r == SD.Processed(inference.audio, inference.vol, inference.perf, None)
      ensures r.err.Some? ==> r.audio == [0.0] && r.vol == 0.0 && r.perf == [0.0, 0.0, 0.0]
      ensures r.err.Some? && model.None? ==> r.err.value == SD.ErrorReport(NoVoiceChangerCode, NoVoiceChangerMessage)
      ensures r.err.Some? && model.Some? ==> r.err.value == SD.ErrorReport(ExceptionCode(inference), inference.trace)
    {
      if Truthy(Get(settings.values, "passThrough")) then SD.Processed(received, rms, [0.0, 0.0, 0.0], None)
      else if model.None? then
        SD.Processed([0.0], 0.0, [0.0, 0.0, 0.0], Some(SD.ErrorReport(NoVoiceChangerCode, NoVoiceChangerMessage)))
      else match inference
        case Inferred(audio, vol, perf) => SD.Processed(audio, vol, perf, None)
        case _ => SD.Processed([0.0], 0.0, [0.0, 0.0, 0.0], Some(SD.ErrorReport(ExceptionCode(inference), inference.trace)))
    }

    /** Repeating an update that took effect is a no-op: the stored value already equals the converted one. */
    lemma UpdateIdempotent(values: map<string, Value>, key: string, val: Value)
      requires Effective(values, key, val).Some?
      ensures Effective(values[key := cast(key, val).value], key, val).None?
    {
      PyEqIsEquivalence(cast(key, val).value, cast(key, val).value, cast(key, val).value);
    }

    /**
     * The sample-rate cascade makes the input and output rates equal to the
     * server rate whenever the record's conversion keeps that rate as it is.
     */
    lemma CascadeAligns(values: map<string, Value>, w: Value)
      requires cast("inputSampleRate", w) == Some(w) && cast("outputSampleRate", w) == Some(w)
      ensures var r := Followed(Followed(values["serverAudioSampleRate" := w], "inputSampleRate", w), "outputSampleRate", w);
              Get(r, "inputSampleRate") == Get(r, "outputSampleRate") == Get(r, "serverAudioSampleRate") == w
    {
    }
  }

  /**
   * A failed conversion's one-sample buffer can always be written to the
   * device: the output assignment broadcasts it to every row.
   */
  lemma ErrorOutputPlays(m: VoiceChangerManager, received: seq<real>, rms: real, inference: Inference, frames: nat)
    ensures var r := m.ChangeVoice(received, rms, inference);
            r.err.Some? ==> SD.Fit(r.audio, frames) == Some(seq(frames, _ => 0.0))
  {
    var r := m.ChangeVoice(received, rms, inference);
    if r.err.Some? {
      var f := SD.Fit(r.audio, frames);
      assert f.Some?;
      assert f.value == seq(frames, _ => 0.0);
    }
  }

  /** The process-wide holder of the single manager (`get_instance`). */
  class ManagerRegistry {
    var instance: VoiceChangerManager?
    var constructions: nat

    ghost predicate Valid()
      reads this
    {
      constructions <= 1 && (instance == null <==> constructions == 0)
    }

    constructor ()
      ensures Valid() && instance == null
    {
      instance := null;
      constructions := 0;
    }

    /** The first call constructs the manager; every later call returns that same one. */
    method GetInstance(stored: map<string, Value>, slots: map<int, SlotInfo>, cast: (string, Value) -> Option<Value>)
      returns (m: VoiceChangerManager)
      requires Valid()
      modifies this
      ensures Valid() && instance == m
      ensures old(instance) != null ==> m == old(instance) && constructions == old(constructions)
      ensures old(instance) == null ==> fresh(m) && constructions == 1
    {
      if instance == null {
        instance := new VoiceChangerManager(stored, slots, cast);
        constructions := constructions + 1;
      }
      m := instance;
    }
  }
}
