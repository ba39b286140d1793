/**
 * The byte-level helpers of the live conversation: the loops on either side
 * of base64 (section 4 of RFC 4648), the 16-bit little-endian PCM view of a
 * byte buffer, and the de-interleaving of samples into channels.
 */
module AudioCodec {
  import opened Wrappers

  type Byte = x: int | 0 <= x < 0x100
  /** A UTF-16 code unit: one element of a JavaScript string. */
  type CodeUnit = x: int | 0 <= x < 0x1_0000
  type Int16 = x: int | -0x8000 <= x < 0x8000

  /** A binary string: every character is a byte value, as `atob` produces and `btoa` accepts. */
  predicate IsBinaryString(s: seq<CodeUnit>) {
    forall i :: 0 <= i < |s| ==> s[i] < 0x100
  }

  /** What `decode` stores: a `Uint8Array` keeps each character code modulo 256. */
  function BytesOf(binary: seq<CodeUnit>): (b: seq<Byte>)
    ensures |b| == |binary|
    ensures IsBinaryString(binary) ==> forall i :: 0 <= i < |b| ==> b[i] == binary[i]
  {
    seq(|binary|, i requires 0 <= i < |binary| => binary[i] % 0x100)
  }

  /** What `encode` builds before `btoa`: one character per byte, with that byte as its code. */
  function BinaryOf(bytes: seq<Byte>): (s: seq<CodeUnit>)
    ensures |s| == |bytes| && IsBinaryString(s)
  {
    seq(|bytes|, i requires 0 <= i < |bytes| => bytes[i] as CodeUnit)
  }

  /** The loop of `decode`, applied to the result of `atob`. */
  method Decode(binary: seq<CodeUnit>) returns (bytes: array<Byte>)
    ensures bytes.Length == |binary|
    ensures forall i :: 0 <= i < |binary| ==> bytes[i] == binary[i] % 0x100
  {
    bytes := new Byte[|binary|];
    for i := 0 to |binary|
      invariant forall j :: 0 <= j < i ==> bytes[j] == binary[j] % 0x100
    {
      bytes[i] := binary[i] % 0x100;
    }
  }

  /** The loop of `encode`, whose result is handed to `btoa`. */
  method EncodeBinary(bytes: array<Byte>) returns (binary: seq<CodeUnit>)
    ensures binary == BinaryOf(bytes[..])
  {
    binary := [];
    for i := 0 to bytes.Length
      invariant binary == BinaryOf(bytes[..i])
    {
      binary := binary + [bytes[i] as CodeUnit];
    }
  }

  /** Below base64, decoding what was encoded gives back the bytes. */
  lemma BytesRoundTrip(bytes: seq<Byte>)
    ensures BytesOf(BinaryOf(bytes)) == bytes
  {
  }

  /** Encoding what was decoded gives back any binary string. */
  lemma BinaryRoundTrip(binary: seq<CodeUnit>)
    requires IsBinaryString(binary)
    ensures BinaryOf(BytesOf(binary)) == binary
  {
  }

  /** The two loops composed: `decode(encode(b))` has the bytes of `b`, before base64. */
  method EncodeThenDecode(bytes: array<Byte>) returns (decoded: array<Byte>)
    ensures decoded[..] == bytes[..]
  {
    var binary := EncodeBinary(bytes);
    decoded := Decode(binary);
    assert decoded[..] == BytesOf(binary);
  }

  /**
   * The 16-bit signed little-endian value of a pair of bytes: the one
   * 16-bit value congruent to `lo + 256 * hi`, negative exactly when the
   * top bit of the high byte is set.
   */
  function Int16At(lo: Byte, hi: Byte): (x: Int16)
    ensures (x + 0x1_0000) % 0x1_0000 == lo + 0x100 * hi
    ensures x < 0 <==> hi >= 0x80
  {
    var u := lo + 0x100 * hi;
    if u >= 0x8000 then u - 0x1_0000 else u
  }

  function LowByte(x: Int16): Byte {
    (if x < 0 then x + 0x1_0000 else x) % 0x100
  }

  function HighByte(x: Int16): Byte {
    (if x < 0 then x + 0x1_0000 else x) / 0x100
  }

  lemma Int16SplitRoundTrip(x: Int16)
    ensures Int16At(LowByte(x), HighByte(x)) == x
  {
  }

  /**
   * `new Int16Array(buffer)`: `None` when the byte length is odd (the
   * constructor throws a RangeError), otherwise the samples, two bytes each.
   */
  function Int16View(data: seq<Byte>): (r: Option<seq<Int16>>)
    ensures r.Some? <==> |data| % 2 == 0
    ensures r.Some? ==> 2 * |r.value| == |data|
  {
    if |data| % 2 != 0 then None
    else Some(seq(|data| / 2, k requires 0 <= k < |data| / 2 => Int16At(data[2 * k], data[2 * k + 1])))
  }

  /** `new Uint8Array(int16.buffer)` on the capture side: each sample as two little-endian bytes. */
  function Int16Bytes(samples: seq<Int16>): (b: seq<Byte>)
    ensures |b| == 2 * |samples|
  {
    seq(2 * |samples|, k requires 0 <= k < 2 * |samples| =>
      if k % 2 == 0 then LowByte(samples[k / 2]) else HighByte(samples[k / 2]))
  }

  /** Captured samples read back through the playback view are unchanged. */
  lemma Int16RoundTrip(samples: seq<Int16>)
    ensures Int16View(Int16Bytes(samples)) == Some(samples)
  {
    var b := Int16Bytes(samples);
    assert |b| % 2 == 0;
    var v := Int16View(b).value;
    forall k | 0 <= k < |samples| ensures v[k] == samples[k] {
      assert (2 * k) % 2 == 0 && (2 * k) / 2 == k;
      assert (2 * k + 1) % 2 == 1 && (2 * k + 1) / 2 == k;
      assert b[2 * k] == LowByte(samples[k]) && b[2 * k + 1] == HighByte(samples[k]);
      assert v[k] == Int16At(b[2 * k], b[2 * k + 1]);
      Int16SplitRoundTrip(samples[k]);
    }
    assert |v| == |samples|;
    assert v == samples;
  }

  /**
   * Every read of a whole frame, one below `length / numChannels` rounded
   * down, lands inside the sample data.
   */
  lemma InterleavedIndexInBounds(length: nat, numChannels: nat, i: nat, channel: nat)
    requires channel < numChannels && i < length / numChannels
    ensures i * numChannels + channel < length
  {
    var frames := length / numChannels;
    assert (i + 1) * numChannels <= frames * numChannels by {
      assert i + 1 <= frames;
    }
    assert frames * numChannels <= length;
  }

  /** When the channel count divides the sample count, every sample is read, by exactly one (frame, channel). */
  lemma EverySampleIsRead(length: nat, numChannels: nat, k: nat)
    requires 0 < numChannels && length % numChannels == 0 && k < length
    ensures k / numChannels < length / numChannels && k % numChannels < numChannels
    ensures (k / numChannels) * numChannels + k % numChannels == k
    ensures forall i: nat, channel: nat | channel < numChannels && SampleIndex(numChannels, i, channel) == k ::
              i == k / numChannels && channel == k % numChannels
  {
    assert (length / numChannels) * numChannels == length;
    OnlyOnePairReads(numChannels, k);
  }

  /** The position in the interleaved samples of frame `i` of `channel`. */
  function SampleIndex(numChannels: nat, i: nat, channel: nat): nat {
    i * numChannels + channel
  }

  /** A sample index is `i * numChannels + channel` for one (frame, channel) pair at most. */
  lemma OnlyOnePairReads(numChannels: nat, k: nat)
    ensures forall i: nat, channel: nat | channel < numChannels && SampleIndex(numChannels, i, channel) == k ::
              i == k / numChannels && channel == k % numChannels
  {
    forall i: nat, channel: nat | channel < numChannels && SampleIndex(numChannels, i, channel) == k
      ensures i == k / numChannels && channel == k % numChannels
    {
      FrameAndChannelAreUnique(numChannels, i, channel);
    }
  }

  /** No other (frame, channel) pair reads sample `i * numChannels + channel`. */
  lemma FrameAndChannelAreUnique(numChannels: nat, i: nat, channel: nat)
    requires channel < numChannels
    ensures (i * numChannels + channel) / numChannels == i
    ensures (i * numChannels + channel) % numChannels == channel
  {
    var k := i * numChannels + channel;
    var q := k / numChannels;
    assert q * numChannels + k % numChannels == k;
    assert (q - i) * numChannels == q * numChannels - i * numChannels;
    MultipleIsZeroOrLarge(q - i, numChannels);
  }

  /** A non-zero multiple of `n` is at least `n` away from zero. */
  lemma MultipleIsZeroOrLarge(d: int, n: nat)
    ensures d >= 1 ==> d * n >= n
    ensures d <= -1 ==> d * n + n <= 0
  {
  }

  /** The value written for `channel` at frame `i`: the 16-bit sample scaled into [-1, 1). */
  function ChannelSample(samples: seq<Int16>, numChannels: nat, channel: nat, i: nat): (x: real)
    requires channel < numChannels && i < |samples| / numChannels
    ensures -1.0 <= x < 1.0
  {
    InterleavedIndexInBounds(|samples|, numChannels, i, channel);
    samples[i * numChannels + channel] as real / 32768.0
  }

  datatype AudioError =
    | OddByteLength      // `new Int16Array` on an odd number of bytes
    | UnsupportedBuffer  // `createBuffer` with no channels or no frames

  /** A playable buffer: one row of samples per channel. */
  datatype AudioBuffer = AudioBuffer(sampleRate: nat, data: array2<real>)

  /** The number of frames `createBuffer` allocates: the fractional part of the frame count is dropped. */
  function FrameCount(samples: nat, numChannels: nat): (f: nat)
    ensures numChannels == 0 ==> f == 0
    ensures numChannels > 0 ==> f * numChannels <= samples < (f + 1) * numChannels
  {
    if numChannels == 0 then 0
    else
      var f := samples / numChannels;
      assert f * numChannels + samples % numChannels == samples;
      assert (f + 1) * numChannels == f * numChannels + numChannels;
      f
  }

  /**
   * `decodeAudioData`: the Int16 view of `data`, split into `numChannels`
   * channels of `frames` samples each, each sample divided by 32768.
   */
  method DecodeAudioData(data: seq<Byte>, sampleRate: nat, numChannels: nat)
    returns (r: Result<AudioBuffer, AudioError>)
    ensures r.Failure? <==> |data| % 2 != 0 || FrameCount(|data| / 2, numChannels) == 0
    ensures r.Failure? ==> r.error == if |data| % 2 != 0 then OddByteLength else UnsupportedBuffer
    ensures r.Success? ==>
              var samples := Int16View(data).value;
              var frames := FrameCount(|samples|, numChannels);
              var buffer := r.value.data;
              r.value.sampleRate == sampleRate &&
              buffer.Length0 == numChannels && buffer.Length1 == frames &&
              forall c, i :: 0 <= c < numChannels && 0 <= i < frames ==>
                buffer[c, i] == ChannelSample(samples, numChannels, c, i)
  {
    var view := Int16View(data);
    if view.None? {
      return Failure(OddByteLength);
    }
    var samples := view.value;
    var frames := FrameCount(|samples|, numChannels);
    if frames == 0 {
      return Failure(UnsupportedBuffer);
    }
    var buffer := new real[numChannels, frames];
    var channel := 0;
    while channel < numChannels
      invariant 0 <= channel <= numChannels
      invariant forall c, i :: 0 <= c < channel && 0 <= i < frames ==>
                  buffer[c, i] == ChannelSample(samples, numChannels, c, i)
    {
      var i := 0;
      while i < frames
        invariant 0 <= i <= frames
        invariant forall c, j :: 0 <= c < channel && 0 <= j < frames ==>
                    buffer[c, j] == ChannelSample(samples, numChannels, c, j)
        invariant forall j :: 0 <= j < i ==> buffer[channel, j] == ChannelSample(samples, numChannels, channel, j)
      {
        buffer[channel, i] := ChannelSample(samples, numChannels, channel, i);
        i := i + 1;
      }
      channel := channel + 1;
    }
    return Success(AudioBuffer(sampleRate, buffer));
  }

  /** `AudioBuffer.duration`: frames over the sample rate, in seconds. */
  function Duration(frames: nat, sampleRate: nat): (d: real)
    requires sampleRate > 0
    ensures frames > 0 ==> d > 0.0
    ensures d * sampleRate as real == frames as real
  {
    frames as real / sampleRate as real
  }
}
