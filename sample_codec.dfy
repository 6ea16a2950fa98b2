/**
 * The client's sample conversions between normalised float samples and the
 * 16-bit PCM wire format: the encoder that fills the request `Int16Array`
 * (VoiceChangerWorkletNode.handleMessage) and the little-endian decoder of the
 * converted audio (VoiceChangerWorkletNode.postReceivedVoice).
 */
module SampleCodec {
  import opened Common

  const Int16Min: int := -0x8000
  const Int16Max: int := 0x7fff

  /** `Math.max(-1, Math.min(1, x))`. */
  function Clamp(x: real): (s: real)
    ensures -1.0 <= s <= 1.0
    ensures -1.0 <= x <= 1.0 ==> s == x
    ensures x < -1.0 ==> s == -1.0
    ensures x > 1.0 ==> s == 1.0
  {
    if x < -1.0 then -1.0 else if x > 1.0 then 1.0 else x
  }

  /** Truncation toward zero, the rounding a typed-array store applies. */
  function Trunc(r: real): (t: int)
    ensures r >= 0.0 ==> t as real <= r < t as real + 1.0
    ensures r < 0.0 ==> t as real - 1.0 < r <= t as real
  {
    if r < 0.0 then -((-r).Floor) else r.Floor
  }

  /** The value an `Int16Array` element holds after `a[k] = r` (ECMAScript ToInt16). */
  function ToInt16(r: real): (v: int)
    ensures Int16Min <= v <= Int16Max
    ensures (v - Trunc(r)) % 0x10000 == 0
    ensures Int16Min <= Trunc(r) <= Int16Max ==> v == Trunc(r)
  {
    var m := Trunc(r) % 0x10000;
    if m >= 0x8000 then m - 0x10000 else m
  }

  /** Negative samples are scaled by 0x8000, the others by 0x7fff. */
  function Scale(s: real): real
  {
    if s < 0.0 then s * 32768.0 else s * 32767.0
  }

  /**
   * One encoded sample: clamp, scale, store into an Int16Array slot. The store
   * never wraps around: the value is the truncation toward zero of the scaled sample.
   */
  function EncodeSample(x: real): (v: int)
    ensures Int16Min <= v <= Int16Max
    ensures v == Trunc(Scale(Clamp(x)))
    ensures Clamp(x) < 0.0 ==> v <= 0
    ensures Clamp(x) >= 0.0 ==> v >= 0
    ensures x <= -1.0 ==> v == Int16Min
    ensures x >= 1.0 ==> v == Int16Max
  {
    ToInt16(Scale(Clamp(x)))
  }

  /** Sample-wise encoding of a block. */
  function EncodeBlock(xs: seq<real>): seq<int>
  {
    seq(|xs|, i requires 0 <= i < |xs| => EncodeSample(xs[i]))
  }

  /** Encoding distributes over concatenation, so a frame is the encoding of its blocks in order. */
  lemma EncodeBlockAppend(a: seq<real>, b: seq<real>)
    ensures EncodeBlock(a + b) == EncodeBlock(a) + EncodeBlock(b)
  {
    assert forall i :: 0 <= i < |a + b| ==> EncodeBlock(a + b)[i] == (EncodeBlock(a) + EncodeBlock(b))[i];
  }

  /** `(hi << 8) | lo`: an unsigned little-endian 16-bit word. */
  function Word(lo: byte, hi: byte): (x: int)
    ensures 0 <= x < 0x10000
    ensures x % 0x100 == lo && x / 0x100 == hi
  {
    hi * 0x100 + lo
  }

  /** `x >= 0x8000 ? -(0x10000 - x) / 0x8000 : x / 0x7fff`. */
  function DecodeWord(x: int): (f: real)
    requires 0 <= x < 0x10000
    ensures -1.0 <= f <= 1.0
    ensures f < 0.0 <==> x >= 0x8000
    ensures x == 0x8000 ==> f == -1.0
    ensures x == 0x7fff ==> f == 1.0
  {
    if x >= 0x8000 then -(0x10000 - x) as real / 32768.0 else x as real / 32767.0
  }

  /**
   * The decoded samples of a payload: `floor(len / 2)` samples, a trailing odd
   * byte being ignored rather than rejected.
   */
  function DecodeAll(u8: seq<byte>): (f: seq<real>)
    ensures |f| == |u8| / 2
    ensures forall i :: 0 <= i < |f| ==> -1.0 <= f[i] <= 1.0
  {
    seq(|u8| / 2, i requires 0 <= i < |u8| / 2 => DecodeWord(Word(u8[2 * i], u8[2 * i + 1])))
  }

  /**
   * The decoding loop of `postReceivedVoice`: fills a fresh Float32Array of
   * `floor(len / 2)` samples, each in [-1, 1].
   */
  method DecodeInto(u8: seq<byte>) returns (f32: array<real>)
    ensures f32.Length == |u8| / 2
    ensures f32[..] == DecodeAll(u8)
    ensures forall i :: 0 <= i < f32.Length ==> -1.0 <= f32[i] <= 1.0
  {
    var dataLength := |u8| / 2;
    f32 := new real[dataLength];
    var i := 0;
    while i < dataLength
      invariant 0 <= i <= dataLength
      invariant forall k :: 0 <= k < i ==> f32[k] == DecodeWord(Word(u8[2 * k], u8[2 * k + 1]))
    {
      var x := Word(u8[i * 2], u8[i * 2 + 1]);
      f32[i] := if x >= 0x8000 then -(0x10000 - x) as real / 32768.0 else x as real / 32767.0;
      i := i + 1;
    }
  }

  /** The two bytes an Int16Array element occupies in its (little-endian) ArrayBuffer. */
  function Int16Bytes(v: int): (b: seq<byte>)
    requires Int16Min <= v <= Int16Max
    ensures |b| == 2
    ensures Word(b[0], b[1]) == v % 0x10000
  {
    var m := v % 0x10000;
    [m % 0x100, m / 0x100]
  }

  /** The ArrayBuffer of an Int16Array frame: two bytes per sample. */
  function FrameBytes(frame: seq<int>): (b: seq<byte>)
    requires forall i :: 0 <= i < |frame| ==> Int16Min <= frame[i] <= Int16Max
    ensures |b| == 2 * |frame|
  {
    seq(2 * |frame|, j requires 0 <= j < 2 * |frame| => Int16Bytes(frame[j / 2])[j % 2])
  }

  /** Decoding the wire bytes of a stored value v gives v / 0x8000 when v < 0 and v / 0x7fff otherwise. */
  lemma WireValue(v: int)
    requires Int16Min <= v <= Int16Max
    ensures var b := Int16Bytes(v);
            DecodeWord(Word(b[0], b[1])) == if v < 0 then v as real / 32768.0 else v as real / 32767.0
  {
    var b := Int16Bytes(v);
    if v < 0 {
      assert v % 0x10000 == v + 0x10000;
    } else {
      assert v % 0x10000 == v;
    }
  }

  /**
   * Round trip of one sample through the wire: for s in [-1, 1], decoding the
   * bytes of the encoded sample reproduces s within one quantisation step.
   */
  lemma SampleRoundTrip(s: real)
    requires -1.0 <= s <= 1.0
    ensures var b := Int16Bytes(EncodeSample(s));
            var y := DecodeWord(Word(b[0], b[1]));
            -1.0 / 32767.0 <= y - s <= 1.0 / 32767.0
  {
    var v := EncodeSample(s);
    WireValue(v);
    if s < 0.0 {
      assert v as real - 1.0 < s * 32768.0 <= v as real;
    } else {
      assert v as real <= s * 32767.0 < v as real + 1.0;
    }
  }

  /**
   * Round trip of a whole frame: decoding the ArrayBuffer of an encoded block
   * yields one sample per input sample, each within one quantisation step.
   */
  lemma FrameRoundTrip(xs: seq<real>)
    requires forall i :: 0 <= i < |xs| ==> -1.0 <= xs[i] <= 1.0
    ensures var ys := DecodeAll(FrameBytes(EncodeBlock(xs)));
            |ys| == |xs| &&
            forall i :: 0 <= i < |xs| ==> -1.0 / 32767.0 <= ys[i] - xs[i] <= 1.0 / 32767.0
  {
    var frame := EncodeBlock(xs);
    var bytes := FrameBytes(frame);
    var ys := DecodeAll(bytes);
    forall i | 0 <= i < |xs|
      ensures -1.0 / 32767.0 <= ys[i] - xs[i] <= 1.0 / 32767.0
    {
      assert (2 * i) / 2 == i && (2 * i + 1) / 2 == i;
      assert (2 * i) % 2 == 0 && (2 * i + 1) % 2 == 1;
      assert bytes[2 * i] == Int16Bytes(frame[i])[0];
      assert bytes[2 * i + 1] == Int16Bytes(frame[i])[1];
      SampleRoundTrip(xs[i]);
    }
  }
}
