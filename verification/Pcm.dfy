/** The audio utilities of the live-voice path (utils/audio.ts): moving raw
    bytes through base64, quantising float samples to 16-bit PCM, linear
    resampling, and decoding little-endian 16-bit PCM back to samples.

    Sample values are exact reals: the rounding of a Float32Array store is
    not modelled. */
module Pcm {
  import opened Wrappers
  import Base64

  type byte = Base64.byte

  /** The values an `Int16Array` element can hold. */
  type int16 = x: int | -32768 <= x < 32768

  // ---------------------------------------------------------------------
  // Bytes and base64 (utils/audio.ts:1-19)

  /** `base64ToUint8Array`: `atob`, then one byte per character code.
      An `atob` failure is the exception the function lets escape. */
  method Base64ToUint8Array(base64: string) returns (r: Result<array<byte>, Base64.DomException>)
    ensures r.Failure? <==> Base64.Atob(base64).Failure?
    ensures r.Success? ==> fresh(r.value) && Base64.BinaryString(r.value[..]) == Base64.Atob(base64).value
  {
    var decoded := Base64.Atob(base64);
    if decoded.Failure? {
      return Failure(decoded.error);
    }
    var binaryString := decoded.value;
    var len := |binaryString|;
    var bytes := new byte[len];
    for i := 0 to len
      invariant forall j :: 0 <= j < i ==> bytes[j] == binaryString[j] as int
    {
      // a Uint8Array store keeps the character code modulo 256
      bytes[i] := (binaryString[i] as int) % 256;
    }
    assert Base64.BinaryString(bytes[..]) == binaryString;
    return Success(bytes);
  }

  /** `arrayBufferToBase64`: build the binary string one character per byte,
      then `btoa` it. `btoa` never throws here, since every character code is
      a byte. */
  method ArrayBufferToBase64(buffer: array<byte>) returns (b64: string)
    ensures b64 == Base64.Encode(buffer[..])
  {
    var binary := "";
    var len := buffer.Length;
    for i := 0 to len
      invariant binary == Base64.BinaryString(buffer[..i])
    {
      binary := binary + [buffer[i] as char];
    }
    assert buffer[..len] == buffer[..];
    Base64.BtoaAtobRoundTrip(buffer[..]);
    var encoded := Base64.Btoa(binary);
    b64 := encoded.value;
  }

  /** What the live session does with the two functions: bytes sent through
      base64 come back unchanged, for every buffer including the empty one. */
  method TransportRoundTrip(buffer: array<byte>) returns (received: array<byte>)
    ensures received[..] == buffer[..]
  {
    var b64 := ArrayBufferToBase64(buffer);
    Base64.BtoaAtobRoundTrip(buffer[..]);
    var decoded := Base64ToUint8Array(b64);
    received := decoded.value;
  }

  // ---------------------------------------------------------------------
  // Float to 16-bit PCM (utils/audio.ts:22-29)

  function RealMax(a: real, b: real): real { if a >= b then a else b }
  function RealMin(a: real, b: real): real { if a <= b then a else b }

  /** `Math.max(-1, Math.min(1, x))`. */
  function Clamp(x: real): (s: real)
    ensures -1.0 <= s <= 1.0
    ensures -1.0 <= x <= 1.0 ==> s == x
    ensures x < -1.0 ==> s == -1.0
    ensures x > 1.0 ==> s == 1.0
  {
    RealMax(-1.0, RealMin(1.0, x))
  }

  /** The asymmetric scale: 0x8000 below zero, 0x7FFF from zero up. */
  function Scale(s: real): real
  {
    if s < 0.0 then s * 32768.0 else s * 32767.0
  }

  /** Truncation toward zero, the first half of an `Int16Array` store. */
  function Trunc(x: real): int
  {
    if x >= 0.0 then x.Floor else -((-x).Floor)
  }

  /** Reduction modulo 2^16 into the signed range, the second half. */
  function ToInt16(n: int): int16
  {
    var m := n % 65536;
    if m >= 32768 then m - 65536 else m
  }

  /** The value `float32ToInt16` stores for input sample x. The store into
      the Int16Array never wraps: the stored value is the truncated scaled
      sample itself. */
  function Quantise(x: real): (q: int16)
    ensures q == Trunc(Scale(Clamp(x)))
  {
    QuantiseNeverWraps(x);
    ToInt16(Trunc(Scale(Clamp(x))))
  }

  /** The samples quantised one by one. Only samples at or beyond full
      scale reach the ends of the 16-bit range. */
  function QuantiseAll(s: seq<real>): (q: seq<int16>)
    ensures |q| == |s|
    ensures forall i :: 0 <= i < |s| ==> q[i] == Quantise(s[i])
    ensures forall i :: 0 <= i < |s| ==> (q[i] == -32768 <==> s[i] <= -1.0) && (q[i] == 32767 <==> s[i] >= 1.0)
  {
    assert forall i :: 0 <= i < |s| ==> (Quantise(s[i]) == -32768 <==> s[i] <= -1.0) && (Quantise(s[i]) == 32767 <==> s[i] >= 1.0) by {
      forall i | 0 <= i < |s| {
        QuantiseExtremes(s[i]);
      }
    }
    seq(|s|, i requires 0 <= i < |s| => Quantise(s[i]))
  }

  /** `float32ToInt16`: an array of the same length, element i the
      quantised value of input element i. */
  method Float32ToInt16(float32Array: array<real>) returns (int16Array: array<int16>)
    ensures fresh(int16Array)
    ensures int16Array[..] == QuantiseAll(float32Array[..])
  {
    int16Array := new int16[float32Array.Length];
    for i := 0 to float32Array.Length
      invariant forall j :: 0 <= j < i ==> int16Array[j] == Quantise(float32Array[j])
    {
      var s := RealMax(-1.0, RealMin(1.0, float32Array[i]));
      int16Array[i] := ToInt16(Trunc(if s < 0.0 then s * 32768.0 else s * 32767.0));
    }
  }

  /** The scaled value already lies in the 16-bit range, so the store never
      wraps: the stored value is the truncated scaled sample. */
  lemma QuantiseNeverWraps(x: real)
    ensures -32768 <= Trunc(Scale(Clamp(x))) <= 32767
  {
    var s := Clamp(x);
    if s < 0.0 {
      assert -32768.0 <= s * 32768.0 < 0.0;
    } else {
      assert 0.0 <= s * 32767.0 <= 32767.0;
    }
  }

  /** The extremes: everything at or below -1 maps to -32768, everything at
      or above 1 maps to 32767, and nothing else reaches either value. */
  lemma QuantiseExtremes(x: real)
    ensures Quantise(x) == -32768 <==> x <= -1.0
    ensures Quantise(x) == 32767 <==> x >= 1.0
  {
    QuantiseNeverWraps(x);
    var s := Clamp(x);
    if -1.0 < s < 0.0 {
      assert 0.0 < -(s * 32768.0) < 32768.0;
    } else if 0.0 <= s < 1.0 {
      assert 0.0 <= s * 32767.0 < 32767.0;
    }
  }

  /** Quantisation keeps the sign and the order of samples. */
  lemma QuantiseMonotone(x: real, y: real)
    requires x <= y
    ensures Quantise(x) <= Quantise(y)
    ensures x < 0.0 ==> Quantise(x) <= 0
    ensures x >= 0.0 ==> Quantise(x) >= 0
  {
    QuantiseNeverWraps(x);
    QuantiseNeverWraps(y);
    var a, b := Clamp(x), Clamp(y);
    assert a <= b;
    if b < 0.0 {
      assert a * 32768.0 <= b * 32768.0;
      assert (-(b * 32768.0)).Floor <= (-(a * 32768.0)).Floor;
    } else if a >= 0.0 {
      assert a * 32767.0 <= b * 32767.0;
    }
  }

  /** The quantisation error, measured by the decoder's divisor 32768: below
      zero the decoded value is at most one step above the clamped sample;
      from zero up it is below it by less than two steps, because the scale
      there is 0x7FFF rather than 0x8000. */
  lemma QuantiseError(x: real)
    ensures var s, q := Clamp(x), Quantise(x) as real / 32768.0;
      && (s < 0.0 ==> 0.0 <= q - s < 1.0 / 32768.0)
      && (s >= 0.0 ==> 0.0 <= s - q < 2.0 / 32768.0)
  {
    QuantiseNeverWraps(x);
    var s := Clamp(x);
    var n := Trunc(Scale(s));
    if s < 0.0 {
      var m := (-(s * 32768.0)).Floor;
      assert n == -m;
      assert m as real <= -(s * 32768.0) < m as real + 1.0;
    } else {
      assert n as real <= s * 32767.0 < n as real + 1.0;
      assert s * 32767.0 <= s * 32768.0;
    }
  }

  /** The one-step bound does not hold from zero up: 1 - 2^-16 decodes
      1.5 steps below itself. */
  lemma QuantiseErrorCanExceedOneStep()
    ensures var s := 1.0 - 1.0 / 65536.0;
      s - Quantise(s) as real / 32768.0 > 1.0 / 32768.0
  {
    var s := 1.0 - 1.0 / 65536.0;
    assert s * 32767.0 == 32766.5 + 1.0 / 65536.0;
    assert Trunc(Scale(s)) == 32766;
  }

  // ---------------------------------------------------------------------
  // Resampling (utils/audio.ts:31-57)

  /** `Math.round` on an exact value: halves go up. */
  function Round(x: real): int
  {
    (x + 0.5).Floor
  }

  /** `Math.round(length / ratio)`, the output length. */
  function OutputLength(len: nat, ratio: real): nat
    requires ratio > 0.0
  {
    Round(len as real / ratio)
  }

  /** Every index the loop reads, `floor(i * ratio)`, lies inside the input. */
  lemma ReadIndexInBounds(len: nat, ratio: real, i: nat)
    requires ratio > 0.0 && i < OutputLength(len, ratio)
    ensures 0 <= (i as real * ratio).Floor < len
  {
    var x := len as real / ratio;
    assert (i + 1) as real <= x + 0.5;
    QuotientTimesDivisor(len as real, ratio);
    BelowQuotient(i as real, x, ratio, len as real);
  }

  lemma QuotientTimesDivisor(n: real, d: real)
    requires d > 0.0
    ensures (n / d) * d == n
  {
  }

  lemma BelowQuotient(i: real, x: real, ratio: real, n: real)
    requires ratio > 0.0 && i + 0.5 <= x && x * ratio == n
    ensures 0.0 <= i * ratio || i < 0.0
    ensures i * ratio < n
  {
    assert (x - i) * ratio >= 0.5 * ratio;
  }

  /** The linear blend `a * (1 - f) + b * f` of two neighbouring samples. */
  function Blend(a: real, b: real, f: real): real
  {
    a * (1.0 - f) + b * f
  }

  /** The sample read at source position pos: linear interpolation between
      the two neighbours, or the sample itself at the last index. */
  function Interpolate(s: seq<real>, pos: real): (v: real)
    requires 0.0 <= pos && pos.Floor < |s|
    ensures pos.Floor + 1 < |s| ==> IsBetween(s[pos.Floor], s[pos.Floor + 1], v)
    ensures pos.Floor + 1 == |s| ==> v == s[pos.Floor]
    ensures pos == pos.Floor as real ==> v == s[pos.Floor]
  {
    var index := pos.Floor;
    var fraction := pos - index as real;
    if index + 1 < |s| then
      InterpolateBetween(s[index], s[index + 1], fraction);
      Blend(s[index], s[index + 1], fraction)
    else s[index]
  }

  /** Output sample i of a rate change by the given ratio. */
  function ResampledAt(s: seq<real>, ratio: real, i: nat): real
    requires ratio > 0.0 && i < OutputLength(|s|, ratio)
  {
    ReadIndexInBounds(|s|, ratio, i);
    Interpolate(s, i as real * ratio)
  }

  /** A rate change by ratio = inputRate / outputRate. */
  function ResampledBy(s: seq<real>, ratio: real): seq<real>
    requires ratio > 0.0
  {
    var n := OutputLength(|s|, ratio);
    seq(n, i requires 0 <= i < n => ResampledAt(s, ratio, i))
  }

  /** What `downsampleBuffer` returns, as a sequence. */
  function Resampled(s: seq<real>, inputRate: real, outputRate: real): seq<real>
    requires inputRate > 0.0 && outputRate > 0.0
  {
    if outputRate == inputRate then s else ResampledBy(s, inputRate / outputRate)
  }

  /** `downsampleBuffer`: equal rates return the very same buffer; otherwise
      a fresh buffer of resampled values. */
  method DownsampleBuffer(buffer: array<real>, inputRate: real, outputRate: real) returns (result: array<real>)
    requires inputRate > 0.0 && outputRate > 0.0
    ensures outputRate == inputRate ==> result == buffer
    ensures outputRate != inputRate ==> fresh(result)
    ensures result[..] == Resampled(buffer[..], inputRate, outputRate)
  {
    if outputRate == inputRate {
      return buffer;
    }
    var sampleRateRatio := inputRate / outputRate;
    var newLength := Round(buffer.Length as real / sampleRateRatio);
    result := new real[newLength];
    ghost var expected := ResampledBy(buffer[..], sampleRateRatio);
    assert |expected| == newLength;
    for i := 0 to newLength
      invariant forall j :: 0 <= j < i ==> result[j] == expected[j]
    {
      var nextItem := i as real * sampleRateRatio;
      var index := nextItem.Floor;
      var fraction := nextItem - index as real;
      LoopItem(buffer[..], sampleRateRatio, i, index, fraction);
      if index + 1 < buffer.Length {
        result[i] := Blend(buffer[index], buffer[index + 1], fraction);
      } else {
        result[i] := buffer[index];
      }
    }
  }

  /** Iteration i of the `downsampleBuffer` loop computes output sample i. */
  lemma LoopItem(s: seq<real>, ratio: real, i: nat, index: int, fraction: real)
    requires ratio > 0.0 && i < |ResampledBy(s, ratio)|
    requires index == (i as real * ratio).Floor && fraction == i as real * ratio - index as real
    ensures 0 <= index < |s|
    ensures ResampledBy(s, ratio)[i]
      == if index + 1 < |s| then Blend(s[index], s[index + 1], fraction) else s[index]
  {
    ResampledIsInterpolated(s, ratio, i);
  }

  /** Equal rates are the identity; otherwise the output length is the
      input length times outputRate / inputRate, rounded half up. */
  lemma ResampledLength(s: seq<real>, inputRate: real, outputRate: real)
    requires inputRate > 0.0 && outputRate > 0.0
    ensures outputRate == inputRate ==> Resampled(s, inputRate, outputRate) == s
    ensures outputRate != inputRate ==>
      |Resampled(s, inputRate, outputRate)| == Round(|s| as real * outputRate / inputRate)
  {
    var ratio := inputRate / outputRate;
    assert |s| as real / ratio == |s| as real * outputRate / inputRate;
  }

  /** x lies between a and b, whichever of the two is larger. */
  predicate IsBetween(a: real, b: real, x: real)
  {
    (a <= x <= b) || (b <= x <= a)
  }

  lemma BlendAscending(a: real, b: real, f: real)
    requires a <= b && 0.0 <= f <= 1.0
    ensures a <= Blend(a, b, f) <= b
  {
    var d := b - a;
    assert Blend(a, b, f) == a + d * f;
    assert 0.0 <= d * f <= d * 1.0;
  }

  lemma BlendDescending(a: real, b: real, f: real)
    requires b <= a && 0.0 <= f <= 1.0
    ensures b <= Blend(a, b, f) <= a
  {
    BlendAscending(b, a, 1.0 - f);
    assert Blend(a, b, f) == Blend(b, a, 1.0 - f);
  }

  /** An interpolated value lies between its two neighbours. */
  lemma InterpolateBetween(a: real, b: real, f: real)
    requires 0.0 <= f < 1.0
    ensures IsBetween(a, b, Blend(a, b, f))
  {
    if a <= b {
      BlendAscending(a, b, f);
    } else {
      BlendDescending(a, b, f);
    }
  }

  /** Sample i of a rate change reads source position i * ratio. */
  lemma ResampledIsInterpolated(s: seq<real>, ratio: real, i: nat)
    requires ratio > 0.0 && i < |ResampledBy(s, ratio)|
    ensures 0 <= (i as real * ratio).Floor < |s|
    ensures ResampledBy(s, ratio)[i] == Interpolate(s, i as real * ratio)
  {
    ReadIndexInBounds(|s|, ratio, i);
    assert ResampledBy(s, ratio)[i] == ResampledAt(s, ratio, i);
  }

  /** Output sample i of a rate change: with k = floor(i * ratio) and f the
      fractional part, it is the blend of samples k and k+1 and so lies
      between them, or exactly sample k when k is the last index. */
  lemma ResampledSample(s: seq<real>, ratio: real, i: nat)
    requires ratio > 0.0 && i < |ResampledBy(s, ratio)|
    ensures var k := (i as real * ratio).Floor;
      var f := i as real * ratio - k as real;
      var r := ResampledBy(s, ratio)[i];
      && 0 <= k < |s|
      && (k + 1 < |s| ==> r == Blend(s[k], s[k + 1], f)
                          && IsBetween(s[k], s[k + 1], r))
      && (k + 1 == |s| ==> r == s[k])
  {
    var pos := i as real * ratio;
    ResampledIsInterpolated(s, ratio, i);
    var k := pos.Floor;
    var f := pos - k as real;
    assert 0.0 <= f < 1.0;
    if k + 1 < |s| {
      assert Interpolate(s, pos) == Blend(s[k], s[k + 1], f);
      InterpolateBetween(s[k], s[k + 1], f);
    }
  }

  // ---------------------------------------------------------------------
  // Decoding 16-bit little-endian PCM (utils/audio.ts:59-77)

  /** The (channels, length, rate) record `createBuffer` makes, with the
      samples copied into channel 0. */
  datatype AudioBuffer = AudioBuffer(numberOfChannels: nat, sampleRate: real, channelData: seq<real>)
  {
    function Length(): nat { |channelData| }

    /** Playing time in seconds. */
    function Duration(): real
      requires sampleRate > 0.0
    {
      |channelData| as real / sampleRate
    }
  }

  /** The rate inbound audio is tagged with unless the caller says otherwise. */
  const OutputSampleRate: real := 24000.0

  /** `DataView.getInt16(offset, true)`: low byte first, two's complement. */
  function Int16LE(lo: byte, hi: byte): (v: int16)
    ensures LowByte(v) == lo && HighByte(v) == hi
  {
    var u := lo + 256 * hi;
    if u >= 32768 then u - 65536 else u
  }

  /** The samples `decodeAudioData` computes: one per whole pair of bytes
      (a trailing odd byte is ignored), each divided by 32768. */
  function DecodePcm16(data: seq<byte>): (samples: seq<real>)
    ensures |samples| == |data| / 2
    ensures forall i :: 0 <= i < |data| / 2 ==>
      && samples[i] * 32768.0 == Int16LE(data[2 * i], data[2 * i + 1]) as real
      && -1.0 <= samples[i] < 1.0
  {
    seq(|data| / 2, i requires 0 <= i < |data| / 2 => Int16LE(data[2 * i], data[2 * i + 1]) as real / 32768.0)
  }

  /** The DOMException `createBuffer` throws when asked for a buffer of no
      frames. */
  datatype AudioError = NotSupportedError

  /** `decodeAudioData`: one channel of decoded samples tagged with the
      given rate (24000 by default). Fewer than two bytes give no sample,
      and `createBuffer` refuses a buffer of length zero. */
  method DecodeAudioData(data: array<byte>, sampleRate: real := OutputSampleRate)
    returns (r: Result<AudioBuffer, AudioError>)
    ensures r.Failure? <==> data.Length < 2
    ensures r.Success? ==> r.value == AudioBuffer(1, sampleRate, DecodePcm16(data[..]))
  {
    var float32Data := new real[data.Length / 2];
    for i := 0 to float32Data.Length
      invariant forall j :: 0 <= j < i ==> float32Data[j] == Int16LE(data[2 * j], data[2 * j + 1]) as real / 32768.0
    {
      var int16 := Int16LE(data[i * 2], data[i * 2 + 1]);
      float32Data[i] := int16 as real / 32768.0;
    }
    if float32Data.Length == 0 {
      return Failure(NotSupportedError);
    }
    return Success(AudioBuffer(1, sampleRate, float32Data[..]));
  }

  // ---------------------------------------------------------------------
  // The bytes of an Int16Array (its `.buffer`), little-endian

  function LowByte(v: int16): byte { (if v < 0 then v + 65536 else v) % 256 }
  function HighByte(v: int16): byte { (if v < 0 then v + 65536 else v) / 256 }

  /** The bytes underneath an `Int16Array`, on a little-endian platform. */
  function Pcm16Bytes(q: seq<int16>): (b: seq<byte>)
    ensures |b| == 2 * |q|
  {
    if |q| == 0 then [] else [LowByte(q[0]), HighByte(q[0])] + Pcm16Bytes(q[1..])
  }

  lemma {:induction false} Pcm16BytesAt(q: seq<int16>, i: nat)
    requires i < |q|
    ensures Pcm16Bytes(q)[2 * i] == LowByte(q[i]) && Pcm16Bytes(q)[2 * i + 1] == HighByte(q[i])
  {
    if i > 0 {
      Pcm16BytesAt(q[1..], i - 1);
    }
  }

  /** The decoder inverts the encoder: decoding the bytes of 16-bit samples
      gives each sample over 32768. */
  lemma DecodePcm16Bytes(q: seq<int16>)
    ensures |DecodePcm16(Pcm16Bytes(q))| == |q|
    ensures forall i :: 0 <= i < |q| ==> DecodePcm16(Pcm16Bytes(q))[i] == q[i] as real / 32768.0
  {
    var b := Pcm16Bytes(q);
    forall i | 0 <= i < |q|
      ensures DecodePcm16(b)[i] == q[i] as real / 32768.0
    {
      Pcm16BytesAt(q, i);
      assert Int16LE(LowByte(q[i]), HighByte(q[i])) == q[i];
    }
  }
}
