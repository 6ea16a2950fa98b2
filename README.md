# Voice changer audio pipeline: a Dafny model

This project models the audio-frame pipeline of a real-time voice-conversion
client and three pieces of its server.

**Client: `VoiceChangerWorkletNode`** (`worklet_node.dfy`, `sample_codec.dfy`)
- Float samples from the audio worklet are encoded into a fixed
  `Int16Array` request frame of `inputChunkNum * 128` slots.
- One frame goes out over socket.io or REST every `inputChunkNum` blocks.
- Converted audio comes back as little-endian 16-bit PCM. It is decoded and
  posted to the node's own worklet, or to a relay node when one is set.
- Decoded buffers can be recorded and concatenated on stop.
- Start/stop acknowledgements resolve one pending promise each.
- Backend errors are classified: `ERR_SAMPLE_RATE_NOT_SUPPORTED` passes
  through, every other code becomes a generic one.

**Server audio device** (`server_device.dfy`)
- Two control flags (`control_loop`, `stream_loop`).
- The stream callbacks run the conversion and feed a monitor queue; the
  monitor callback drains that queue.
- One pass of the start loop: device lookup, sample-rate unification and
  probing, and the available-rate report.

**Voice-changer manager** (`voice_changer_manager.dfy`, `settings.dfy`)
- The setting-update dispatcher: type conversion, the no-change short cut,
  the sample-rate cascade, and forwarding after the cascade.
- Model-slot initialisation.
- The classification of a conversion request's result.
- The process-wide single instance.

**Asset downloader** (`downloader.dfy`)
- The decision procedure of `download`: accept the local file, trust a
  complete one, resume a partial one, or fetch it again.
- The running hash over the local prefix and the received chunks.
- The hash cache of `write_file_entry`.

Modelling choices:
- Outgoing interactions are appended to an `effects` (or `emissions`,
  `requests`) list on the object that performs them. These are `postMessage`,
  socket emits, listener notifications, promise resolutions, `emitTo` calls
  and HTTP requests.
- Clock readings (`Date.now()`) are parameters. A handler that reads the clock several times (`handleMessage` for `inputData`: the send timestamp, the buffering-time report and the new `bufferStart`) is given one reading, `now`.
- Device enumeration, the sample-rate probe, the conversion itself, HTTP
  responses and the digest function are parameters.
- Float samples are Dafny reals.
- The Int16Array store is written out as truncation toward zero followed by
  16-bit wrap-around (ECMAScript ToInt16).
- Python values are a small dynamically typed `Value`, with Python's
  truthiness and numeric `==`.

Behaviour of the code that a reader might not expect, and which the model keeps:
- `start()` always reallocates the frame buffer, replaces the pending start
  resolver and posts `start` again; it is not idempotent.
- A payload of odd length is not rejected: it decodes to `floor(len / 2)`
  samples, and the trailing byte is ignored.
- On the REST path, a too-short payload is reported, and the performance
  statistics are still sent afterwards. Only the error path skips them.
- `stopOutputRecording` does not clear the recorded chunks; only
  `startOutputRecording` does.

## Model

| member | source | states |
|---|---|---|
| SampleCodec.Clamp | client/lib/src/client/VoiceChangerWorkletNode.ts:201 | the clamped sample lies in [-1, 1], is the input when that is in range, and saturates to -1 / 1 outside |
| SampleCodec.ToInt16 | client/lib/src/client/VoiceChangerWorkletNode.ts:202 | an Int16Array store yields a value in [-32768, 32767] congruent to the truncation mod 2^16, and equal to it when it fits |
| SampleCodec.EncodeSample | client/lib/src/client/VoiceChangerWorkletNode.ts:201-202 | the stored value is trunc(s·32768) for negative clamped s and trunc(s·32767) otherwise; it never wraps, keeps the sign, and saturates to -32768 / 32767 |
| SampleCodec.EncodeBlockAppend | client/lib/src/client/VoiceChangerWorkletNode.ts:199-203 | encoding distributes over concatenation, so a frame is the encoding of its blocks in order |
| SampleCodec.DecodeWord | client/lib/src/client/VoiceChangerWorkletNode.ts:168 | a decoded word lies in [-1, 1], is negative exactly when x ≥ 0x8000, and 0x8000 ↦ -1, 0x7fff ↦ 1 |
| SampleCodec.DecodeAll | client/lib/src/client/VoiceChangerWorkletNode.ts:163-169 | a payload decodes to exactly floor(len/2) samples, each in [-1, 1] |
| SampleCodec.DecodeInto | client/lib/src/client/VoiceChangerWorkletNode.ts:163-169 | the decoding loop fills a fresh Float32Array of floor(len/2) samples equal to the little-endian decoding of each byte pair |
| SampleCodec.WireValue | client/lib/src/client/VoiceChangerWorkletNode.ts:167-168 | decoding the two bytes of a stored int16 v gives v/32768 for negative v and v/32767 otherwise |
| SampleCodec.SampleRoundTrip | client/lib/src/client/VoiceChangerWorkletNode.ts:200-203 | encoding a sample in [-1, 1] and decoding its wire bytes reproduces it within 1/32767 |
| SampleCodec.FrameRoundTrip | client/lib/src/client/VoiceChangerWorkletNode.ts:199-203 | decoding the byte buffer of an encoded frame gives one sample per input sample, each within 1/32767 |
| WorkletNode.ClassifyError | client/lib/src/client/VoiceChangerWorkletNode.ts:120-130 | ERR_SAMPLE_RATE_NOT_SUPPORTED is forwarded with its message, every other code becomes ERR_GENERIC_VOICE_CHANGER_EXCEPTION with the generic message (both directions) |
| WorkletNode.RunCounts | client/lib/src/client/VoiceChangerWorkletNode.ts:206-212 | with inputChunkNum N ≥ 1, after k blocks the counter is below N and k = N·frames + counter: one frame per N blocks |
| WorkletNode.RunWithoutChunks | client/lib/src/client/VoiceChangerWorkletNode.ts:206-212 | with inputChunkNum 0 the counter stays 0 and every block sends a frame |
| WorkletNode.Reconnected | client/lib/src/client/VoiceChangerWorkletNode.ts:96-101 | after recreation a socket is open exactly under socket.io, on serverUrl + "/test"; under REST the old socket is only closed |
| WorkletNode.Concatenate | client/lib/src/client/VoiceChangerWorkletNode.ts:318-329 | the copy loop yields an array whose length is the folded sum of chunk lengths and whose contents are the chunks in arrival order |
| WorkletNode.VoiceChangerWorkletNode.constructor | client/lib/src/client/VoiceChangerWorkletNode.ts:26-43 | a new node has a zeroed frame of inputChunkNum·128 slots, counter 0, no socket, relay, resolver or recording |
| WorkletNode.VoiceChangerWorkletNode.SetOutputNode | client/lib/src/client/VoiceChangerWorkletNode.ts:52-54 | the relay target is replaced |
| WorkletNode.VoiceChangerWorkletNode.CreateSocketIO | client/lib/src/client/VoiceChangerWorkletNode.ts:96-101 | any old socket is closed and, under socket.io, a new one opened on serverUrl + "/test" |
| WorkletNode.VoiceChangerWorkletNode.UpdateSetting | client/lib/src/client/VoiceChangerWorkletNode.ts:57-85 | the setting is always replaced; the frame is reallocated to zeros with counter 0 exactly when inputChunkNum changes; the socket is recreated exactly when no relay is set and the URL or protocol changed; the frame invariant is kept |
| WorkletNode.VoiceChangerWorkletNode.AcknowledgeStart | client/lib/src/client/VoiceChangerWorkletNode.ts:184-188 | start_ok fires the pending resolver at most once and clears it; with none pending nothing happens |
| WorkletNode.VoiceChangerWorkletNode.AcknowledgeStop | client/lib/src/client/VoiceChangerWorkletNode.ts:189-193 | stop_ok fires the pending resolver at most once and clears it; with none pending nothing happens |
| WorkletNode.VoiceChangerWorkletNode.WriteBlock | client/lib/src/client/VoiceChangerWorkletNode.ts:199-203 | the encoding loop stores the encoded block at offset..offset+len and leaves every other slot unchanged |
| WorkletNode.VoiceChangerWorkletNode.FrameAfterBlock | client/lib/src/client/VoiceChangerWorkletNode.ts:199-203 | after a block is written at 128·counter, the filled prefix is the encoding of all accumulated blocks, and at the last block it is the whole frame |
| WorkletNode.VoiceChangerWorkletNode.AcceptInputData | client/lib/src/client/VoiceChangerWorkletNode.ts:194-215 | the block is written at 128·counter; the counter advances while below inputChunkNum-1, otherwise the frame, which is then the encoding of the last inputChunkNum blocks, is sent, the counter reset, the buffering time reported; the frame invariant is kept |
| WorkletNode.VoiceChangerWorkletNode.SendBuffer | client/lib/src/client/VoiceChangerWorkletNode.ts:211-215 | the frame is emitted (socket.io with a socket) or posted (REST), the counter reset, and now - bufferStart reported before bufferStart := now |
| WorkletNode.VoiceChangerWorkletNode.HandleMessage | client/lib/src/client/VoiceChangerWorkletNode.ts:182-222 | start_ok / stop_ok fire their resolver and leave the frame, counter, pending blocks and bufferStart alone; inputData writes the encoded block at 128·counter, then either advances the counter and appends the block or sends the frame and reports the buffering time; unknown types change nothing; the frame invariant is kept |
| WorkletNode.VoiceChangerWorkletNode.Start | client/lib/src/client/VoiceChangerWorkletNode.ts:278-291 | start reallocates a zeroed frame, resets the counter, installs a fresh resolver and posts start, on every call |
| WorkletNode.VoiceChangerWorkletNode.Stop | client/lib/src/client/VoiceChangerWorkletNode.ts:292-302 | stop installs a fresh resolver and posts stop |
| WorkletNode.VoiceChangerWorkletNode.TrancateBuffer | client/lib/src/client/VoiceChangerWorkletNode.ts:303-309 | posts the trancateBuffer directive and nothing else |
| WorkletNode.VoiceChangerWorkletNode.Configure | client/lib/src/client/VoiceChangerWorkletNode.ts:270-276 | posts the config directive and nothing else |
| WorkletNode.VoiceChangerWorkletNode.PostReceivedVoice | client/lib/src/client/VoiceChangerWorkletNode.ts:161-180 | the payload is decoded, a copy recorded exactly while recording, and the decoded buffer posted to the worklet |
| WorkletNode.VoiceChangerWorkletNode.Dispatch | client/lib/src/client/VoiceChangerWorkletNode.ts:150-154 | with a relay set, the audio reaches the relay and not this node; otherwise this node |
| WorkletNode.VoiceChangerWorkletNode.HandleResponse | client/lib/src/client/VoiceChangerWorkletNode.ts:139-157 | a payload under 256 bytes raises ERR_SIO_INVALID_RESPONSE and is not dispatched; otherwise it is dispatched and the stats with ping now - sendTimestamp + ping reported |
| WorkletNode.VoiceChangerWorkletNode.HandleRestResponse | client/lib/src/client/VoiceChangerWorkletNode.ts:233-263 | an error answer is classified and reported with no audio and no stats; a short payload is reported and not dispatched; every non-error answer sends stats |
| WorkletNode.VoiceChangerWorkletNode.HandleSocketError | client/lib/src/client/VoiceChangerWorkletNode.ts:120-130 | the socket error is reported as classified |
| WorkletNode.VoiceChangerWorkletNode.HandleConnectError | client/lib/src/client/VoiceChangerWorkletNode.ts:102-107 | a connection failure reports ERR_SIO_CONNECT_FAILED |
| WorkletNode.VoiceChangerWorkletNode.HandleServerStats | client/lib/src/client/VoiceChangerWorkletNode.ts:133-137 | server statistics are reported with ping 0 |
| WorkletNode.VoiceChangerWorkletNode.StartOutputRecording | client/lib/src/client/VoiceChangerWorkletNode.ts:311-314 | recording starts with an empty chunk list |
| WorkletNode.VoiceChangerWorkletNode.StopOutputRecording | client/lib/src/client/VoiceChangerWorkletNode.ts:315-330 | recording stops and the result is the in-order concatenation, as long as the sum of the chunk lengths |
| Settings.PyEqIsEquivalence | server/voice_changer/VoiceChangerManager.py:183 | the value comparison is an equivalence that identifies True with 1 and 1 with 1.0 |
| ServerDevice.Matching | server/voice_changer/Local/ServerDevice.py:48 | the comprehension keeps exactly the listed devices whose index matches (sound and complete) |
| ServerDevice.MatchingAppend | server/voice_changer/Local/ServerDevice.py:48 | the comprehension keeps list order: the matches of a + b are those of a followed by those of b |
| ServerDevice.FindDeviceNone | server/voice_changer/Local/ServerDevice.py:46-60 | the lookup returns None exactly when no listed device has a matching index |
| ServerDevice.FindDeviceFirst | server/voice_changer/Local/ServerDevice.py:46-60 | a device the lookup returns is the first listed one whose index matches |
| ServerDevice.Fit | server/voice_changer/Local/ServerDevice.py:81 | the output assignment succeeds exactly for a buffer of `frames` samples or of one sample (broadcast), writing `frames` rows |
| ServerDevice.SupportedRatesMembers | server/voice_changer/Local/ServerDevice.py:192-199 | an available-rate list holds exactly the candidate rates the device accepts |
| ServerDevice.SupportedRatesAppend | server/voice_changer/Local/ServerDevice.py:192-199 | for any candidate list the filter keeps order: the available rates of a + b are those of a followed by those of b |
| ServerDevice.SupportedRatesAscending | server/voice_changer/Local/ServerDevice.py:192-199 | for a strictly ascending candidate list the available-rate list is strictly ascending |
| ServerDevice.SupportedRatesAll | server/voice_changer/Local/ServerDevice.py:192-199 | when every candidate is accepted, the list is the candidate list |
| ServerDevice.ServerDevice.constructor | server/voice_changer/Local/ServerDevice.py:34-44 | a new device shares the setting record, has an empty queue, zero performance and both flags off |
| ServerDevice.ServerDevice.UpdateSettings | server/voice_changer/Local/ServerDevice.py:241-247 | serverAudioStated sets the control flag to the value; the six stream keys clear the stream flag; other keys change neither |
| ServerDevice.ServerDevice.ProcessWithTime | server/voice_changer/Local/ServerDevice.py:71-75 | the returned performance vector is kept and reported with the volume and error |
| ServerDevice.ServerDevice.AudioStreamCallback | server/voice_changer/Local/ServerDevice.py:77-84 | a raising conversion or a failing output write is reported with volume 0, the last performance vector and ERR_GENERIC_SERVER_AUDIO_ERROR |
| ServerDevice.ServerDevice.AudioStreamCallbackMonQueue | server/voice_changer/Local/ServerDevice.py:86-94 | as the plain callback, and exactly the converted buffer is queued once for the monitor |
| ServerDevice.ServerDevice.AudioMonitorCallback | server/voice_changer/Local/ServerDevice.py:96-105 | the oldest queued buffer is played and the queue is left empty |
| ServerDevice.ServerDevice.AvailableSampleRates | server/voice_changer/Local/ServerDevice.py:188-199 | the loop builds the three available-rate lists as order-preserving filters; the monitor list stays empty without a monitor |
| ServerDevice.ServerDevice.ReportRates | server/voice_changer/Local/ServerDevice.py:188-208 | the unsupported-rate report carries ERR_SAMPLE_RATE_NOT_SUPPORTED and the three lists |
| ServerDevice.ServerDevice.ProbeAndOpen | server/voice_changer/Local/ServerDevice.py:172-222 | a rate refused by any present device is reported and no stream starts (an absent monitor counts as supported); otherwise the stream flag is raised and the stream opened, with the monitor exactly when one exists |
| ServerDevice.ServerDevice.StartPass | server/voice_changer/Local/ServerDevice.py:128-222 | idle exactly while the control flag is falsy; a missing input or output device is reported and changes no setting; otherwise the three stream rates are set to serverAudioSampleRate and the pass ends as the rate gate says for the configured ids and that rate: a rate refused by the input, the output or a found monitor is reported with the available lists and opens nothing, otherwise the stream flag is raised and the stream opens (with the monitor exactly when one is found) or its failure is reported |
| VoiceChangerManager.ExceptionCode | server/voice_changer/VoiceChangerManager.py:233-241 | each exception kind has its own error code |
| VoiceChangerManager.WithDefaults | server/voice_changer/VoiceChangerManager.py:154-159 | tran, formantShift, indexRatio and protect take the slot's defaults and every other setting is kept |
| VoiceChangerManager.SlotDefaultsApplied | server/voice_changer/VoiceChangerManager.py:148-159 | after initialising from a slot the four tune settings hold that slot's defaults, and re-applying the slot's defaults leaves the settings record unchanged; a non-int index selects no slot |
| VoiceChangerManager.VoiceChangerManager.constructor | server/voice_changer/VoiceChangerManager.py:49-78 | the server device shares the new setting record and the stored slot index is initialised: with no usable slot nothing is loaded and nothing happens; with one, its defaults are applied and an RVC slot (only) loads its model, the one effect |
| VoiceChangerManager.VoiceChangerManager.Initialize | server/voice_changer/VoiceChangerManager.py:148-174 | an unknown or untyped slot changes nothing; otherwise the defaults are applied, then a same-type model is reused, an RVC model is loaded, or nothing more happens (the model and effects given by `Reinitialized`) |
| VoiceChangerManager.VoiceChangerManager.UpdateSettings | server/voice_changer/VoiceChangerManager.py:176-216 | a refused value changes nothing; an equal one is stored but neither persisted nor forwarded; an effective one is persisted first, then per key: a slot index initialises the slot (model and effects as `Initialize`), a device key calls the device manager, a cascade key runs both rate updates with their own persists and forwards (`CascadeEffects`); the change is forwarded last, with the device flags updated |
| VoiceChangerManager.VoiceChangerManager.FollowUp | server/voice_changer/VoiceChangerManager.py:188-210 | the key-specific step, with its exact record, model and effects: slot initialisation (as `Reinitialized`), device-manager call, or input/output rates from serverAudioSampleRate (48000 when server audio is switched off); any other key changes nothing |
| VoiceChangerManager.VoiceChangerManager.Cascade | server/voice_changer/VoiceChangerManager.py:208-210 | input then output sample rate are updated to the target, leaving flags and model alone; the effects are exactly each rate's persist and forwards when that update is effective, in that order |
| VoiceChangerManager.VoiceChangerManager.RateUpdate | server/voice_changer/VoiceChangerManager.py:203-210 | one rate update inside the cascade: the record gets the converted target, and the effects are its persist and forwards exactly when it changes the record; flags and model are left alone |
| VoiceChangerManager.VoiceChangerManager.ApplyChange | server/voice_changer/VoiceChangerManager.py:185-214 | an effective change is persisted, followed up per key and forwarded, with the exact record, model, effects and device flags |
| VoiceChangerManager.VoiceChangerManager.ChangeVoice | server/voice_changer/VoiceChangerManager.py:218-241 | pass-through returns the input with zero perf and no error; no model or an exception gives a one-sample silent buffer, volume 0, zero perf and an error naming the cause (error iff neither pass-through nor a successful conversion) |
| VoiceChangerManager.VoiceChangerManager.UpdateIdempotent | server/voice_changer/VoiceChangerManager.py:178-184 | once an effective update is stored, the same update is no longer effective: repeating it is a no-op |
| VoiceChangerManager.VoiceChangerManager.CascadeAligns | server/voice_changer/VoiceChangerManager.py:208-210 | after a serverAudioSampleRate change, input and output sample rates equal it when conversion keeps the value |
| VoiceChangerManager.ErrorOutputPlays | server/voice_changer/VoiceChangerManager.py:225-241 | the one-sample buffer of a failed conversion is always writable to the device, as silence on every row |
| VoiceChangerManager.ManagerRegistry.constructor | server/voice_changer/VoiceChangerManager.py:35 | the registry starts with no instance |
| VoiceChangerManager.ManagerRegistry.GetInstance | server/voice_changer/VoiceChangerManager.py:84-88 | the first call constructs exactly one manager and every later call returns that same one |
| Downloader.CompleteWithExpectedIsRejected | server/downloader/Downloader.py:61-66 | with an expected hash a complete local file is never cached; it is rejected exactly when the HEAD announces its size and its digest differs |
| Downloader.FetchOnlyWhenIncomplete | server/downloader/Downloader.py:41-76 | a body is fetched exactly when the local file is not accepted and the HEAD answered with a length other than the local size; resuming needs a shorter local file and Accept-Ranges: bytes |
| Downloader.AssetStore.constructor | server/downloader/Downloader.py:17-21 | the cache starts as loaded |
| Downloader.AssetStore.WriteFileEntry | server/downloader/Downloader.py:104-108 | the cache maps the path to the digest, every other entry is unchanged, and the whole cache is dumped |
| Downloader.AssetStore.WriteChunks | server/downloader/Downloader.py:89-94 | every delivered chunk is appended to the file and fed to the hasher, in order |
| Downloader.AssetStore.FetchBody | server/downloader/Downloader.py:67-102 | resume requests a range from the local size and appends, otherwise the hasher is reset and the file overwritten; a response without content-length raises before the file is touched; a broken stream leaves the delivered chunks in the file and caches nothing; a digest mismatch raises; only a verified download with an expected hash is cached and dumped |
| Downloader.AssetStore.Download | server/downloader/Downloader.py:24-102 | a locally verified file returns before any request and changes no file, cache or dump; otherwise exactly one HEAD is sent, followed by exactly one GET (ranged from the local size when resuming) only when fetching; a HEAD without content-length raises; a complete file is rejected or cached (and dumped); a fetched file holds the local prefix exactly when resuming, then the delivered chunks; the cache and its dumps change only for a verified download with an expected hash |

## Left out

- Socket.io connection setup, `ServerRestClient` HTTP calls and the worklet's `port.postMessage` are foreign I/O. They appear only as entries in the node's effects list; `Date.now()` is a parameter.
- The asynchronous overlap of REST `sendBuffer` calls and of the downloader's lock is concurrency. Each handler is one atomic step; the REST answer is a separate `HandleRestResponse` call.
- WorkletNode.VoiceChangerWorkletNode.SendBuffer: the frame is recorded as a snapshot of its contents. The source passes the live `ArrayBuffer`, so later blocks could overwrite what a slow transport still holds; that aliasing is not modelled.
- WorkletNode.VoiceChangerWorkletNode.AcceptInputData: requires 128-sample blocks, the audio worklet's render quantum. Blocks of other lengths, whose out-of-range stores a typed array drops, are not modelled by the frame invariant.
- WorkletNode.VoiceChangerWorkletNode.HandleMessage: requires the same 128-sample blocks for `inputData`.
- The `throw "unknown protocol"` branch of `sendBuffer` cannot be reached: the protocol is a two-valued datatype.
- Float32 rounding, NaN and infinities are left out; samples are exact reals.
- The enum members of `VOICE_CHANGER_CLIENT_EXCEPTION` are taken to equal their names, since const.ts is not part of this model.
- `sd.Stream` / `OutputStream`, `time.sleep` polling, `sd._terminate` / `_initialize`, `list_audio_device` and `checkSamplingRate` are device I/O. Their results are parameters; a pass of the start loop is one call of `StartPass`.
- ServerDevice.ServerDevice.AudioMonitorCallback: with an empty queue the source blocks until a buffer arrives. The model changes nothing in that case.
- ServerDevice.ServerDevice.AudioStreamCallbackMonQueue: the monitor queue is shared between the stream callback thread and the monitor callback thread. The model runs each callback as one atomic step, so interleavings inside a callback are not captured.
- SupportedRatesAscending: assumes the candidate rate constant `SERVER_DEVICE_SAMPLE_RATES` is strictly ascending, since const.py is not part of this model. Order for any candidate list is stated by `SupportedRatesAppend`.
- Input gain, output and monitor gain, `librosa.to_mono`, the pass-through RMS volume and the `block_frame` expression are floating-point numerics. The played buffer is recorded before gain, and the pass-through volume is a parameter.
- WASAPI extra settings and channel counts only configure the stream. They are not modelled.
- `get_info`, `load_model`, `merge_models`, `export2onnx`, `store_setting`'s file write and the device manager's own behaviour are filesystem work or collaborators that are not shown. They appear as effects or are omitted.
- VoiceChangerSettings is not part of this model.
  - `set_property`'s conversion is the `cast` parameter (None for a refused value).
  - `set_properties` in `initialize` stores the slot defaults as given.
  - A missing attribute reads as None.
- VoiceChangerManager.SlotToApply: ModelSlotManager is not part of this model. Slots are a map keyed by int, and a non-int index finds no slot.
- VoiceChangerManager.VoiceChangerManager.ChangeVoice: the traceback text of `format_exc()` is a parameter of the exception outcome.
- HTTP HEAD/GET transport, tqdm, the internals of xxh128 and the JSON file format are left out. The digest is an arbitrary function of all bytes fed to the hasher, and a failed `raise_for_status` is the `HttpFailure` outcome. A present `content-length` header is taken as a parsed integer; a non-numeric one, which also makes `int()` raise, is not distinguished.
- React UI files, the `useClient` hook, the RVC inferencer and `app.py` start-up are outside the modelled core.
