/**
 * The client-side audio frame pipeline of `VoiceChangerWorkletNode`: the frame
 * accumulator fed by the audio worklet, the start/stop acknowledgement slots,
 * the setting update with its buffer reallocation and reconnect decision, the
 * socket and REST response handlers with the optional output relay, and the
 * output recorder.
 *
 * Every outgoing interaction (a `port.postMessage`, a socket emit, opening or
 * closing the socket, a REST call, a listener notification, a promise
 * resolution) is appended to the node's `effects` list; `Date.now()` is the
 * `now` parameter of the handler that reads it.
 */
module WorkletNode {
  import opened Common
  import opened SampleCodec

  /** Samples per audio-worklet callback block (the render quantum). */
  const BlockSize: nat := 128
  /** Responses with fewer audio bytes than this are rejected. */
  const MinResponseBytes: nat := 128 * 2

  const ErrSioConnectFailed: string := "ERR_SIO_CONNECT_FAILED"
  const ErrSioInvalidResponse: string := "ERR_SIO_INVALID_RESPONSE"
  const ErrSampleRateNotSupported: string := "ERR_SAMPLE_RATE_NOT_SUPPORTED"
  const ErrGenericVoiceChangerException: string := "ERR_GENERIC_VOICE_CHANGER_EXCEPTION"
  const GenericVoiceChangerMessage: string :=
    "An error occurred during voice conversion. Check command line window for more details."

  datatype Protocol = Sio | Rest

  /** The fields of `WorkletNodeSetting` that the node reads. */
  datatype WorkletNodeSetting = WorkletNodeSetting(serverUrl: string, protocol: Protocol, inputChunkNum: nat)

  /** What the worklet processor posts back (`event.data.responseType`). */
  datatype WorkletResponse =
    | StartOk
    | StopOk
    | InputData(inputData: seq<real>)
    | Unknown(responseType: string)

  /** What the node posts to the worklet processor (`requestType`). */
  datatype ProcessorRequest =
    | StartRequest
    | StopRequest
    | ConfigRequest
    | TrancateBufferRequest
    | VoiceRequest(voice: seq<real>)

  /** The socket.io connection: its URL and whether it is still open. */
  datatype Socket = Socket(url: string, open: bool)

  datatype Effect =
    | PostMessage(request: ProcessorRequest)
    | CloseSocket(url: string)
    | OpenSocket(url: string)
    | EmitRequestMessage(timestamp: int, frame: seq<int>)
    | RestPostVoice(serverUrl: string, timestamp: int, frame: seq<int>)
    | NotifySendBufferingTime(time: int)
    | NotifyPerformanceStats(ping: int, vol: real, perf: seq<real>)
    | NotifyException(code: string, message: string)
    | ResolvePromise(promise: nat)

  /** The answer of `ServerRestClient.postVoice`. */
  datatype RestResponse =
    | RestFailure(sendTimestamp: int, ping: int, code: string, message: string)
    | RestAudio(sendTimestamp: int, audio: seq<byte>, ping: int, vol: real, perf: seq<real>)

  function Zeros(n: nat): seq<int>
  {
    seq(n, _ => 0)
  }

  /**
   * The error mapping of the socket `error` handler and of the REST error path:
   * ERR_SAMPLE_RATE_NOT_SUPPORTED passes through with its message, every other
   * code becomes the generic voice-changer exception.
   */
  function ClassifyError(code: string, message: string): (r: (string, string))
    ensures r.0 == ErrSampleRateNotSupported <==> code == ErrSampleRateNotSupported
    ensures code == ErrSampleRateNotSupported ==> r == (code, message)
    ensures code != ErrSampleRateNotSupported ==> r == (ErrGenericVoiceChangerException, GenericVoiceChangerMessage)
  {
    if code == ErrSampleRateNotSupported then (code, message)
    else (ErrGenericVoiceChangerException, GenericVoiceChangerMessage)
  }

  /**
   * The counter decision after a block is written: keep accumulating while
   * `chunkCounter < inputChunkNum - 1`, otherwise send the frame and restart at 0.
   */
  function AccumulateStep(counter: nat, inputChunkNum: nat): (r: (nat, bool))
  {
    if counter as int < inputChunkNum as int - 1 then (counter + 1, false) else (0, true)
  }

  /** The counter and the number of frames sent after `k` blocks since a reset. */
  function Run(k: nat, inputChunkNum: nat): (nat, nat)
  {
    if k == 0 then (0, 0)
    else
      var prev := Run(k - 1, inputChunkNum);
      var step := AccumulateStep(prev.0, inputChunkNum);
      (step.0, if step.1 then prev.1 + 1 else prev.1)
  }

  /**
   * With `inputChunkNum = N >= 1`, after k blocks `k = N * frames + counter` with
   * `counter < N`: the counter is `k mod N` and exactly one frame has gone out per
   * N blocks (`frames = k div N`).
   */
  lemma {:induction false} RunCounts(k: nat, n: nat)
    requires n >= 1
    ensures Run(k, n).0 < n
    ensures k == n * Run(k, n).1 + Run(k, n).0
  {
    if k > 0 {
      RunCounts(k - 1, n);
      var c, f := Run(k - 1, n).0, Run(k - 1, n).1;
      if c == n - 1 {
        assert n * (f + 1) == n * f + n;
      }
    }
  }

  /** With `inputChunkNum = 0` the counter never moves and every block sends a frame. */
  lemma {:induction false} RunWithoutChunks(k: nat)
    ensures Run(k, 0) == (0, k)
  {
    if k > 0 {
      RunWithoutChunks(k - 1);
    }
  }

  /**
   * The synchronous part of `sendBuffer`: over socket.io the frame is emitted
   * when a socket exists (otherwise only a warning is logged); over REST a
   * `postVoice` call is issued to the server URL.
   */
  function SendEffects(setting: WorkletNodeSetting, socket: Option<Socket>, timestamp: int, frame: seq<int>): seq<Effect>
  {
    match setting.protocol
    case Sio => if socket.None? then [] else [EmitRequestMessage(timestamp, frame)]
    case Rest => [RestPostVoice(setting.serverUrl, timestamp, frame)]
  }

  /**
   * The socket after `createSocketIO`: an old socket is closed; under socket.io a
   * new open socket on `serverUrl + "/test"` replaces it; under REST the closed
   * one stays referenced. No stale open socket survives.
   */
  function Reconnected(socket: Option<Socket>, setting: WorkletNodeSetting): (r: Option<Socket>)
    ensures (r.Some? && r.value.open) <==> setting.protocol == Sio
    ensures setting.protocol == Sio ==> r == Some(Socket(setting.serverUrl + "/test", true))
    ensures setting.protocol == Rest ==> (r.None? <==> socket.None?)
    ensures setting.protocol == Rest && socket.Some? ==> r == Some(socket.value.(open := false))
  {
    if setting.protocol == Sio then Some(Socket(setting.serverUrl + "/test", true))
    else if socket.Some? then Some(socket.value.(open := false))
    else None
  }

  function ReconnectEffects(socket: Option<Socket>, setting: WorkletNodeSetting): seq<Effect>
  {
    (if socket.Some? then [CloseSocket(socket.value.url)] else [])
    + (if setting.protocol == Sio then [OpenSocket(setting.serverUrl + "/test")] else [])
  }

  function ResolveEffects(resolver: Option<nat>): seq<Effect>
  {
    if resolver.Some? then [ResolvePromise(resolver.value)] else []
  }

  function Recorded(isRecording: bool, voice: seq<real>): seq<seq<real>>
  {
    if isRecording then [voice] else []
  }

  function TooShortMessage(transport: string, byteLength: nat): string
  {
    "[" + transport + "] Received data is too short " + NatToString(byteLength)
  }

  /**
   * The nested copy loop of `stopOutputRecording`: a fresh array sized by the
   * folded sum of chunk lengths, holding the chunks concatenated in arrival order.
   */
  method Concatenate(chunks: seq<seq<real>>) returns (samples: array<real>)
    ensures samples.Length == TotalLength(chunks)
    ensures samples[..] == Flatten(chunks)
  {
    var dataSize := TotalLength(chunks);
    samples := new real[dataSize];
    var sampleIndex := 0;
    var i := 0;
    while i < |chunks|
      invariant 0 <= i <= |chunks|
      invariant sampleIndex == TotalLength(chunks[..i])
      invariant sampleIndex <= samples.Length
      invariant samples[..sampleIndex] == Flatten(chunks[..i])
    {
      TotalLengthPrefix(chunks, i + 1);
      FlattenSnoc(chunks[..i], chunks[i]);
      assert chunks[..i + 1] == chunks[..i] + [chunks[i]];
      var j := 0;
      while j < |chunks[i]|
        invariant 0 <= j <= |chunks[i]|
        invariant sampleIndex == TotalLength(chunks[..i]) + j
        invariant sampleIndex <= samples.Length
        invariant samples[..sampleIndex] == Flatten(chunks[..i]) + chunks[i][..j]
      {
        samples[sampleIndex] := chunks[i][j];
        sampleIndex := sampleIndex + 1;
        j := j + 1;
      }
      assert chunks[i][..j] == chunks[i];
      i := i + 1;
    }
    assert chunks[..i] == chunks;
    FlattenLength(chunks);
    assert samples[..] == samples[..sampleIndex];
  }

  class VoiceChangerWorkletNode {
    var setting: WorkletNodeSetting
    /** The Int16Array request frame being filled. */
    var requestChunks: array<int>
    var chunkCounter: nat
    var socket: Option<Socket>
    var bufferStart: int
    var isOutputRecording: bool
    var recordingOutputChunk: seq<seq<real>>
    var outputNode: VoiceChangerWorkletNode?
    /** The pending resolver of the last `start()` / `stop()` promise, by promise number. */
    var startPromiseResolve: Option<nat>
    var stopPromiseResolve: Option<nat>
    /** Promises created so far; the next promise gets this number. */
    var promiseCount: nat
    var effects: seq<Effect>
    /** The blocks written into the frame since it was last sent or reallocated. */
    ghost var pending: seq<seq<real>>

    /**
     * The buffer holds `inputChunkNum * 128` slots, the counter stays below
     * `inputChunkNum` (or at 0), and the filled prefix is the encoding of the
     * blocks accumulated so far, in order.
     */
    ghost predicate Valid()
      reads this, requestChunks
    {
      && requestChunks.Length == setting.inputChunkNum * BlockSize
      && chunkCounter == |pending|
      && (chunkCounter == 0 || chunkCounter < setting.inputChunkNum)
      && (forall k :: 0 <= k < |pending| ==> |pending[k]| == BlockSize)
      && BlockSize * chunkCounter <= requestChunks.Length
      && requestChunks[..BlockSize * chunkCounter] == EncodeBlock(Flatten(pending))
    }

    constructor (initial: WorkletNodeSetting)
      ensures Valid()
      ensures setting == initial && fresh(requestChunks)
      ensures requestChunks[..] == Zeros(initial.inputChunkNum * BlockSize) && chunkCounter == 0
      ensures socket == None && outputNode == null
      ensures startPromiseResolve == None && stopPromiseResolve == None && promiseCount == 0
      ensures !isOutputRecording && recordingOutputChunk == [] && effects == [] && bufferStart == 0
    {
      setting := initial;
      requestChunks := new int[initial.inputChunkNum * BlockSize](_ => 0);
      chunkCounter := 0;
      socket := None;
      bufferStart := 0;
      isOutputRecording := false;
      recordingOutputChunk := [];
      outputNode := null;
      startPromiseResolve := None;
      stopPromiseResolve := None;
      promiseCount := 0;
      effects := [];
      pending := [];
    }

    method SetOutputNode(node: VoiceChangerWorkletNode?)
      modifies this`outputNode
      ensures outputNode == node
    {
      outputNode := node;
    }

    /** Closes any socket and, under socket.io, opens a new one. */
    method CreateSocketIO()
      modifies this`socket, this`effects
      ensures socket == Reconnected(old(socket), setting)
      ensures effects == old(effects) + ReconnectEffects(old(socket), setting)
    {
      if socket.Some? {
        effects := effects + [CloseSocket(socket.value.url)];
        socket := Some(socket.value.(open := false));
      }
      if setting.protocol == Sio {
        var url := setting.serverUrl + "/test";
        socket := Some(Socket(url, true));
        effects := effects + [OpenSocket(url)];
      }
    }

    /**
     * Stores the new setting. The frame buffer is reallocated and the counter
     * zeroed only when `inputChunkNum` changes; the socket is recreated only when
     * no output node is set and the URL or the protocol changed.
     */
    method UpdateSetting(newSetting: WorkletNodeSetting)
      requires Valid()
      modifies this`setting, this`requestChunks, this`chunkCounter, this`pending, this`socket, this`effects
      ensures Valid()
      ensures setting == newSetting
      ensures newSetting.inputChunkNum != old(setting.inputChunkNum) ==>
        fresh(requestChunks) && requestChunks[..] == Zeros(newSetting.inputChunkNum * BlockSize) && chunkCounter == 0
      ensures newSetting.inputChunkNum == old(setting.inputChunkNum) ==>
        requestChunks == old(requestChunks) && chunkCounter == old(chunkCounter) && pending == old(pending)
      ensures var recreate := outputNode == null &&
                (old(setting.serverUrl) != newSetting.serverUrl || old(setting.protocol) != newSetting.protocol);
              && socket == (if recreate then Reconnected(old(socket), newSetting) else old(socket))
              && effects == old(effects) + (if recreate then ReconnectEffects(old(socket), newSetting) else [])
    {
      if newSetting.inputChunkNum != setting.inputChunkNum {
        requestChunks := new int[newSetting.inputChunkNum * BlockSize](_ => 0);
        chunkCounter := 0;
        pending := [];
      }
      if outputNode == null {
        var recreateSocketIoRequired :=
          setting.serverUrl != newSetting.serverUrl || setting.protocol != newSetting.protocol;
        setting := newSetting;
        if recreateSocketIoRequired {
          CreateSocketIO();
        }
      } else {
        setting := newSetting;
      }
    }

    /** A `start_ok` / `stop_ok` acknowledgement: fire the pending resolver once, then clear it. */
    method AcknowledgeStart()
      modifies this`startPromiseResolve, this`effects
      ensures startPromiseResolve == None
      ensures effects == old(effects) + ResolveEffects(old(startPromiseResolve))
    {
      if startPromiseResolve.Some? {
        effects := effects + [ResolvePromise(startPromiseResolve.value)];
        startPromiseResolve := None;
      }
    }

    method AcknowledgeStop()
      modifies this`stopPromiseResolve, this`effects
      ensures stopPromiseResolve == None
      ensures effects == old(effects) + ResolveEffects(old(stopPromiseResolve))
    {
      if stopPromiseResolve.Some? {
        effects := effects + [ResolvePromise(stopPromiseResolve.value)];
        stopPromiseResolve := None;
      }
    }

    /**
     * An `inputData` block: encode it into the frame at offset `128 * chunkCounter`,
     * then either advance the counter or send the frame, reset the counter and
     * report the buffering time.
     */
    method AcceptInputData(inputData: seq<real>, now: int)
      requires Valid()
      requires |inputData| == BlockSize
      modifies requestChunks, this`chunkCounter, this`pending, this`effects, this`bufferStart
      ensures Valid()
      ensures forall k :: 0 <= k < requestChunks.Length ==>
        requestChunks[k] == if BlockSize * old(chunkCounter) <= k < BlockSize * (old(chunkCounter) + 1)
                            then EncodeSample(inputData[k - BlockSize * old(chunkCounter)])
                            else old(requestChunks[k])
      ensures var step := AccumulateStep(old(chunkCounter), setting.inputChunkNum);
              && chunkCounter == step.0
              && (step.1 ==> && effects == old(effects) + SendEffects(setting, socket, now, requestChunks[..])
                                                         + [NotifySendBufferingTime(now - old(bufferStart))]
                             && bufferStart == now && pending == [])
              && (!step.1 ==> effects == old(effects) && bufferStart == old(bufferStart)
                              && pending == old(pending) + [inputData])
      ensures AccumulateStep(old(chunkCounter), setting.inputChunkNum).1 && setting.inputChunkNum > 0 ==>
        requestChunks[..] == EncodeBlock(Flatten(old(pending) + [inputData]))
    {
      var offset := BlockSize * chunkCounter;
      WriteBlock(offset, inputData);
      ghost var filled := pending + [inputData];
      if setting.inputChunkNum > 0 {
        FrameAfterBlock(offset, inputData, old(requestChunks[..]));
      }
      if chunkCounter < setting.inputChunkNum - 1 {
        chunkCounter := chunkCounter + 1;
        pending := filled;
      } else {
        SendBuffer(now);
      }
    }

    /** `sendBuffer` followed by the counter reset and the buffering-time report. */
    method SendBuffer(now: int)
      modifies this`chunkCounter, this`pending, this`effects, this`bufferStart
      ensures effects == old(effects) + SendEffects(setting, socket, now, requestChunks[..])
                                      + [NotifySendBufferingTime(now - old(bufferStart))]
      ensures chunkCounter == 0 && pending == [] && bufferStart == now
    {
      effects := effects + SendEffects(setting, socket, now, requestChunks[..]);
      chunkCounter := 0;
      pending := [];
      effects := effects + [NotifySendBufferingTime(now - bufferStart)];
      bufferStart := now;
    }

    /**
     * The encoding loop: sample i of the block, clamped and scaled, is stored at
     * `offset + i`; a typed-array store past the end of the buffer is dropped.
     */
    method WriteBlock(offset: nat, inputData: seq<real>)
      modifies requestChunks
      ensures forall k :: 0 <= k < requestChunks.Length ==>
        requestChunks[k] == if offset <= k < offset + |inputData| then EncodeSample(inputData[k - offset])
                            else old(requestChunks[k])
    {
      var i := 0;
      while i < |inputData|
        invariant 0 <= i <= |inputData|
        invariant forall k :: 0 <= k < requestChunks.Length ==>
          requestChunks[k] == if offset <= k < offset + i then EncodeSample(inputData[k - offset]) else old(requestChunks[k])
      {
        var s := Clamp(inputData[i]);
        if offset + i < requestChunks.Length {
          requestChunks[offset + i] := ToInt16(if s < 0.0 then s * 32768.0 else s * 32767.0);
        }
        i := i + 1;
      }
    }

    /** After one block is written, the filled prefix covers the accumulated blocks and this one. */
    lemma FrameAfterBlock(offset: nat, inputData: seq<real>, before: seq<int>)
      requires setting.inputChunkNum > 0
      requires chunkCounter == |pending| < setting.inputChunkNum
      requires |inputData| == BlockSize && offset == BlockSize * chunkCounter
      requires forall k :: 0 <= k < |pending| ==> |pending[k]| == BlockSize
      requires |before| == requestChunks.Length == setting.inputChunkNum * BlockSize
      requires before[..offset] == EncodeBlock(Flatten(pending))
      requires forall k :: 0 <= k < requestChunks.Length ==>
        requestChunks[k] == if offset <= k < offset + BlockSize then EncodeSample(inputData[k - offset]) else before[k]
      ensures offset + BlockSize <= requestChunks.Length
      ensures requestChunks[..offset + BlockSize] == EncodeBlock(Flatten(pending + [inputData]))
      ensures chunkCounter == setting.inputChunkNum - 1 ==> requestChunks[..] == EncodeBlock(Flatten(pending + [inputData]))
    {
      FlattenSnoc(pending, inputData);
      EncodeBlockAppend(Flatten(pending), inputData);
      FlattenUniform(pending, BlockSize);
      var got := requestChunks[..offset + BlockSize];
      var want := EncodeBlock(Flatten(pending)) + EncodeBlock(inputData);
      assert |got| == |want|;
      forall k | 0 <= k < |got|
        ensures got[k] == want[k]
      {
        if k < offset {
          assert before[..offset][k] == before[k];
        }
      }
      if chunkCounter == setting.inputChunkNum - 1 {
        assert requestChunks[..] == got;
      }
    }

    /** `handleMessage`: dispatch on the worklet's response type; unknown types change nothing. */
    method HandleMessage(msg: WorkletResponse, now: int)
      requires Valid()
      requires msg.InputData? ==> |msg.inputData| == BlockSize
      modifies requestChunks, this`chunkCounter, this`pending, this`effects, this`bufferStart
      modifies this`startPromiseResolve, this`stopPromiseResolve
      ensures Valid()
      ensures msg.StartOk? ==>
        && startPromiseResolve == None && stopPromiseResolve == old(stopPromiseResolve)
        && effects == old(effects) + ResolveEffects(old(startPromiseResolve))
        && chunkCounter == old(chunkCounter) && unchanged(requestChunks)
        && bufferStart == old(bufferStart) && pending == old(pending)
      ensures msg.StopOk? ==>
        && stopPromiseResolve == None && startPromiseResolve == old(startPromiseResolve)
        && effects == old(effects) + ResolveEffects(old(stopPromiseResolve))
        && chunkCounter == old(chunkCounter) && unchanged(requestChunks)
        && bufferStart == old(bufferStart) && pending == old(pending)
      ensures msg.InputData? ==>
        startPromiseResolve == old(startPromiseResolve) && stopPromiseResolve == old(stopPromiseResolve)
      ensures msg.InputData? ==> forall k :: 0 <= k < requestChunks.Length ==>
        requestChunks[k] == if BlockSize * old(chunkCounter) <= k < BlockSize * (old(chunkCounter) + 1)
                            then EncodeSample(msg.inputData[k - BlockSize * old(chunkCounter)])
                            else old(requestChunks[k])
      ensures msg.InputData? ==>
        var step := AccumulateStep(old(chunkCounter), setting.inputChunkNum);
        && chunkCounter == step.0
        && (step.1 ==> && effects == old(effects) + SendEffects(setting, socket, now, requestChunks[..])
                                                   + [NotifySendBufferingTime(now - old(bufferStart))]
                       && bufferStart == now && pending == [])
        && (!step.1 ==> effects == old(effects) && bufferStart == old(bufferStart)
                        && pending == old(pending) + [msg.inputData])
        && (step.1 && setting.inputChunkNum > 0 ==>
              requestChunks[..] == EncodeBlock(Flatten(old(pending) + [msg.inputData])))
      ensures msg.Unknown? ==> unchanged(this) && unchanged(requestChunks)
    {
      match msg
      case StartOk => AcknowledgeStart();
      case StopOk => AcknowledgeStop();
      case InputData(block) => AcceptInputData(block, now);
      case Unknown(_) =>
    }

    /**
     * `start()`: reallocate a zeroed frame buffer, reset the counter, install a new
     * start resolver (replacing any pending one) and post `start`. Not idempotent.
     */
    method Start() returns (promise: nat)
      requires Valid()
      modifies this`requestChunks, this`chunkCounter, this`pending, this`startPromiseResolve
      modifies this`promiseCount, this`effects
      ensures Valid()
      ensures fresh(requestChunks) && requestChunks[..] == Zeros(setting.inputChunkNum * BlockSize)
      ensures chunkCounter == 0
      ensures promise == old(promiseCount) && promiseCount == promise + 1
      ensures startPromiseResolve == Some(promise)
      ensures effects == old(effects) + [PostMessage(StartRequest)]
    {
      requestChunks := new int[setting.inputChunkNum * BlockSize](_ => 0);
      chunkCounter := 0;
      pending := [];
      promise := promiseCount;
      promiseCount := promiseCount + 1;
      startPromiseResolve := Some(promise);
      effects := effects + [PostMessage(StartRequest)];
    }

    /** `stop()`: install a new stop resolver and post `stop`; the frame is left as it is. */
    method Stop() returns (promise: nat)
      modifies this`stopPromiseResolve, this`promiseCount, this`effects
      ensures promise == old(promiseCount) && promiseCount == promise + 1
      ensures stopPromiseResolve == Some(promise)
      ensures effects == old(effects) + [PostMessage(StopRequest)]
    {
      promise := promiseCount;
      promiseCount := promiseCount + 1;
      stopPromiseResolve := Some(promise);
      effects := effects + [PostMessage(StopRequest)];
    }

    method TrancateBuffer()
      modifies this`effects
      ensures effects == old(effects) + [PostMessage(TrancateBufferRequest)]
    {
      effects := effects + [PostMessage(TrancateBufferRequest)];
    }

    method Configure()
      modifies this`effects
      ensures effects == old(effects) + [PostMessage(ConfigRequest)]
    {
      effects := effects + [PostMessage(ConfigRequest)];
    }

    /** Decode a payload, keep a copy while recording, and post it to this node's worklet. */
    method PostReceivedVoice(u8data: seq<byte>)
      modifies this`recordingOutputChunk, this`effects
      ensures recordingOutputChunk == old(recordingOutputChunk) + Recorded(isOutputRecording, DecodeAll(u8data))
      ensures effects == old(effects) + [PostMessage(VoiceRequest(DecodeAll(u8data)))]
    {
      var f32Data := DecodeInto(u8data);
      if isOutputRecording {
        recordingOutputChunk := recordingOutputChunk + [f32Data[..]];
      }
      effects := effects + [PostMessage(VoiceRequest(f32Data[..]))];
    }

    /** Send decoded audio to the relay node when one is set, otherwise to this node. */
    method Dispatch(audio: seq<byte>)
      modifies this`recordingOutputChunk, this`effects
      modifies (if outputNode == null then {} else {outputNode})`recordingOutputChunk
      modifies (if outputNode == null then {} else {outputNode})`effects
      ensures var d := DecodeAll(audio);
              outputNode == null || outputNode == this ==>
                && recordingOutputChunk == old(recordingOutputChunk) + Recorded(isOutputRecording, d)
                && effects == old(effects) + [PostMessage(VoiceRequest(d))]
      ensures var d := DecodeAll(audio);
              outputNode != null && outputNode != this ==>
                && recordingOutputChunk == old(recordingOutputChunk) && effects == old(effects)
                && outputNode.recordingOutputChunk
                   == old(outputNode.recordingOutputChunk) + Recorded(outputNode.isOutputRecording, d)
                && outputNode.effects == old(outputNode.effects) + [PostMessage(VoiceRequest(d))]
    {
      if outputNode != null {
        outputNode.PostReceivedVoice(audio);
      } else {
        PostReceivedVoice(audio);
      }
    }

    /**
     * The socket `response` handler: a payload shorter than 256 bytes raises
     * ERR_SIO_INVALID_RESPONSE and is not dispatched; otherwise the audio is
     * dispatched and the round trip `now - sendTimestamp + ping` is reported.
     */
    method HandleResponse(sendTimestamp: int, audio: seq<byte>, ping: int, vol: real, perf: seq<real>, now: int)
      modifies this`recordingOutputChunk, this`effects
      modifies (if outputNode == null then {} else {outputNode})`recordingOutputChunk
      modifies (if outputNode == null then {} else {outputNode})`effects
      ensures |audio| < MinResponseBytes ==>
        && effects == old(effects) + [NotifyException(ErrSioInvalidResponse, TooShortMessage("SIO", |audio|))]
        && recordingOutputChunk == old(recordingOutputChunk)
        && (outputNode != null && outputNode != this ==>
              outputNode.effects == old(outputNode.effects)
              && outputNode.recordingOutputChunk == old(outputNode.recordingOutputChunk))
      ensures var d := DecodeAll(audio);
              var stats := NotifyPerformanceStats(now - sendTimestamp + ping, vol, perf);
              |audio| >= MinResponseBytes && (outputNode == null || outputNode == this) ==>
                && recordingOutputChunk == old(recordingOutputChunk) + Recorded(isOutputRecording, d)
                && effects == old(effects) + [PostMessage(VoiceRequest(d)), stats]
      ensures var d := DecodeAll(audio);
              var stats := NotifyPerformanceStats(now - sendTimestamp + ping, vol, perf);
              |audio| >= MinResponseBytes && outputNode != null && outputNode != this ==>
                && recordingOutputChunk == old(recordingOutputChunk)
                && effects == old(effects) + [stats]
                && outputNode.recordingOutputChunk
                   == old(outputNode.recordingOutputChunk) + Recorded(outputNode.isOutputRecording, d)
                && outputNode.effects == old(outputNode.effects) + [PostMessage(VoiceRequest(d))]
    {
      var totalPing := now - sendTimestamp + ping;
      if |audio| < MinResponseBytes {
        effects := effects + [NotifyException(ErrSioInvalidResponse, TooShortMessage("SIO", |audio|))];
      } else {
        Dispatch(audio);
        effects := effects + [NotifyPerformanceStats(totalPing, vol, perf)];
      }
    }

    /**
     * The REST half of `sendBuffer`, once `postVoice` has answered. An error is
     * classified and reported, with no audio dispatched and no statistics sent. A
     * short payload is reported and not dispatched; statistics are sent for every
     * answer that is not an error.
     */
    method HandleRestResponse(data: RestResponse, now: int)
      modifies this`recordingOutputChunk, this`effects
      modifies (if outputNode == null then {} else {outputNode})`recordingOutputChunk
      modifies (if outputNode == null then {} else {outputNode})`effects
      ensures data.RestFailure? ==>
        && effects == old(effects) + [NotifyException(ClassifyError(data.code, data.message).0,
                                                      ClassifyError(data.code, data.message).1)]
        && recordingOutputChunk == old(recordingOutputChunk)
        && (outputNode != null && outputNode != this ==>
              outputNode.effects == old(outputNode.effects)
              && outputNode.recordingOutputChunk == old(outputNode.recordingOutputChunk))
      ensures data.RestAudio? && |data.audio| < MinResponseBytes ==>
        && effects == old(effects) + [NotifyException(ErrSioInvalidResponse, TooShortMessage("REST", |data.audio|)),
                                      NotifyPerformanceStats(now - data.sendTimestamp + data.ping, data.vol, data.perf)]
        && recordingOutputChunk == old(recordingOutputChunk)
        && (outputNode != null && outputNode != this ==>
              outputNode.effects == old(outputNode.effects)
              && outputNode.recordingOutputChunk == old(outputNode.recordingOutputChunk))
      ensures data.RestAudio? && |data.audio| >= MinResponseBytes && (outputNode == null || outputNode == this) ==>
        var d := DecodeAll(data.audio);
        && recordingOutputChunk == old(recordingOutputChunk) + Recorded(isOutputRecording, d)
        && effects == old(effects) + [PostMessage(VoiceRequest(d)),
                                      NotifyPerformanceStats(now - data.sendTimestamp + data.ping, data.vol, data.perf)]
      ensures data.RestAudio? && |data.audio| >= MinResponseBytes && outputNode != null && outputNode != this ==>
        var d := DecodeAll(data.audio);
        && recordingOutputChunk == old(recordingOutputChunk)
        && effects == old(effects) + [NotifyPerformanceStats(now - data.sendTimestamp + data.ping, data.vol, data.perf)]
        && outputNode.recordingOutputChunk
           == old(outputNode.recordingOutputChunk) + Recorded(outputNode.isOutputRecording, d)
        && outputNode.effects == old(outputNode.effects) + [PostMessage(VoiceRequest(d))]
    {
      var totalPing := now - data.sendTimestamp + data.ping;
      if data.RestFailure? {
        var notice := ClassifyError(data.code, data.message);
        effects := effects + [NotifyException(notice.0, notice.1)];
        return;
      }
      var audio := data.audio;
      if |audio| < MinResponseBytes {
        effects := effects + [NotifyException(ErrSioInvalidResponse, TooShortMessage("REST", |audio|))];
      } else {
        Dispatch(audio);
      }
      effects := effects + [NotifyPerformanceStats(totalPing, data.vol, data.perf)];
    }

    /** The socket `error` handler. */
    method HandleSocketError(code: string, message: string)
      modifies this`effects
      ensures effects == old(effects) + [NotifyException(ClassifyError(code, message).0, ClassifyError(code, message).1)]
    {
      var notice := ClassifyError(code, message);
      effects := effects + [NotifyException(notice.0, notice.1)];
    }

    /** The socket `connect_error` handler. */
    method HandleConnectError(err: string)
      modifies this`effects
      ensures effects == old(effects) + [NotifyException(ErrSioConnectFailed, "[SIO] rconnection failed " + err)]
    {
      effects := effects + [NotifyException(ErrSioConnectFailed, "[SIO] rconnection failed " + err)];
    }

    /** The socket `server_stats` handler: server-side audio has no round trip, so the ping is 0. */
    method HandleServerStats(vol: real, perf: seq<real>)
      modifies this`effects
      ensures effects == old(effects) + [NotifyPerformanceStats(0, vol, perf)]
    {
      effects := effects + [NotifyPerformanceStats(0, vol, perf)];
    }

    method StartOutputRecording()
      modifies this`recordingOutputChunk, this`isOutputRecording
      ensures recordingOutputChunk == [] && isOutputRecording
    {
      recordingOutputChunk := [];
      isOutputRecording := true;
    }

    /**
     * Turn recording off and return the recorded chunks concatenated in arrival
     * order. The chunk list itself is kept.
     */
    method StopOutputRecording() returns (samples: array<real>)
      modifies this`isOutputRecording
      ensures !isOutputRecording
      ensures samples.Length == TotalLength(recordingOutputChunk)
      ensures samples[..] == Flatten(recordingOutputChunk)
    {
      isOutputRecording := false;
      samples := Concatenate(recordingOutputChunk);
    }
  }
}
