/** The audio utilities of the Gemini service: base64 transport of byte
    buffers, 16-bit little-endian PCM, de-interleaving of channels, and the
    capture-side blob builder. Float samples are modelled as reals: every
    16-bit sample divided by 32768 is exact in single precision, so the
    scaling loses nothing in the model. */
module PcmCodec {
  import opened Wrappers
  import opened Base64

  /** What the utilities throw: `atob`'s DOMException, the RangeError of an
      `Int16Array` view over an odd number of bytes, and the
      NotSupportedError of `createBuffer` for zero channels or zero frames. */
  datatype CodecError = InvalidBase64 | OddByteLength | NotSupported

  /** `String.fromCharCode` on a byte. */
  function FromCharCode(b: byte): char {
    b as char
  }

  lemma BinaryStringSnoc(b: seq<byte>, i: nat)
    requires i < |b|
    ensures BinaryString(b[..i + 1]) == BinaryString(b[..i]) + [FromCharCode(b[i])]
  {
  }

  /** `encode`: the bytes, one character each, through `btoa`. */
  method Encode(bytes: array<byte>) returns (s: string)
    ensures s == EncodeBytes(bytes[..])
    ensures Atob(s) == Some(BinaryString(bytes[..]))
  {
    var binary := "";
    var len := bytes.Length;
    var i := 0;
    while i < len
      invariant 0 <= i <= len
      invariant binary == BinaryString(bytes[..i])
    {
      BinaryStringSnoc(bytes[..], i);
      assert bytes[..i + 1] == bytes[..][..i + 1] && bytes[..i] == bytes[..][..i];
      binary := binary + [FromCharCode(bytes[i])];
      i := i + 1;
    }
    assert bytes[..i] == bytes[..];
    AtobBtoa(bytes[..]);
    var r := Btoa(binary);
    s := r.value;
  }

  /** `encodeAudio`: the same loop as `encode`, kept as a second export. */
  method EncodeAudio(bytes: array<byte>) returns (s: string)
    ensures s == EncodeBytes(bytes[..])
    ensures Atob(s) == Some(BinaryString(bytes[..]))
  {
    var binary := "";
    var len := bytes.Length;
    var i := 0;
    while i < len
      invariant 0 <= i <= len
      invariant binary == BinaryString(bytes[..i])
    {
      BinaryStringSnoc(bytes[..], i);
      assert bytes[..i + 1] == bytes[..][..i + 1] && bytes[..i] == bytes[..][..i];
      binary := binary + [FromCharCode(bytes[i])];
      i := i + 1;
    }
    assert bytes[..i] == bytes[..];
    AtobBtoa(bytes[..]);
    var r := Btoa(binary);
    s := r.value;
  }

  /** The loop of `decode` and `decodeAudio`: one byte per character of a
      binary string, each the character's code (stored through a
      `Uint8Array`, so modulo 256). */
  method BytesOf(binaryString: string) returns (bytes: array<byte>)
    requires IsBinaryString(binaryString)
    ensures bytes[..] == Codes(binaryString)
  {
    var len := |binaryString|;
    bytes := new byte[len];
    for i := 0 to len
      invariant forall k :: 0 <= k < i ==> bytes[k] == binaryString[k] as int
    {
      bytes[i] := (binaryString[i] as int) % 256;
    }
  }

  /** `decode`: `atob`, then the bytes of the binary string. */
  method Decode(base64: string) returns (r: Result<array<byte>, CodecError>)
    ensures r.Ok? <==> Atob(base64).Some?
    ensures r.Ok? ==> r.value[..] == Codes(Atob(base64).value)
    ensures r.Err? ==> r.error == InvalidBase64
  {
    var decoded := Atob(base64);
    if decoded.None? {
      return Err(InvalidBase64);
    }
    var bytes := BytesOf(decoded.value);
    r := Ok(bytes);
  }

  /** `decodeAudio`: the same steps as `decode`, kept as a second export. */
  method DecodeAudio(base64: string) returns (r: Result<array<byte>, CodecError>)
    ensures r.Ok? <==> Atob(base64).Some?
    ensures r.Ok? ==> r.value[..] == Codes(Atob(base64).value)
    ensures r.Err? ==> r.error == InvalidBase64
  {
    var decoded := Atob(base64);
    if decoded.None? {
      return Err(InvalidBase64);
    }
    var bytes := BytesOf(decoded.value);
    r := Ok(bytes);
  }

  /** What `encode` writes, `decode` reads back byte for byte. */
  lemma BytesRoundTrip(b: seq<byte>)
    ensures Atob(EncodeBytes(b)).Some?
    ensures Codes(Atob(EncodeBytes(b)).value) == b
  {
    AtobBtoa(b);
    CodesOfBinaryString(b);
  }

  // ---------------------------------------------------------------------
  // 16-bit PCM

  predicate IsInt16(x: int) {
    -32768 <= x < 32768
  }

  /** The signed 16-bit value of a little-endian byte pair. */
  function Int16FromBytes(lo: byte, hi: byte): (x: int)
    ensures IsInt16(x)
  {
    var u := lo + 256 * hi;
    if u >= 32768 then u - 65536 else u
  }

  /** `new Int16Array(bytes.buffer)`: sample k is bytes 2k and 2k+1, little end
      first (the byte order of every platform the app runs on). */
  function Int16View(data: seq<byte>): (s: seq<int>)
    requires |data| % 2 == 0
    ensures |s| == |data| / 2
    ensures forall k :: 0 <= k < |s| ==> s[k] == Int16FromBytes(data[2 * k], data[2 * k + 1])
  {
    seq(|data| / 2, k requires 0 <= k < |data| / 2 => Int16FromBytes(data[2 * k], data[2 * k + 1]))
  }

  /** The two's-complement 16-bit pattern of a sample, as an unsigned number. */
  function Unsigned16(x: int): (u: nat)
    requires IsInt16(x)
    ensures u < 65536
  {
    if x < 0 then x + 65536 else x
  }

  /** `new Uint8Array(int16.buffer)`: each sample as its low byte, then its
      high byte. */
  function LittleEndianBytes(samples: seq<int>): (b: seq<byte>)
    requires forall k :: 0 <= k < |samples| ==> IsInt16(samples[k])
    ensures |b| == 2 * |samples|
    ensures forall k :: 0 <= k < |samples| ==>
      b[2 * k] == Unsigned16(samples[k]) % 256 && b[2 * k + 1] == Unsigned16(samples[k]) / 256
  {
    seq(2 * |samples|, j requires 0 <= j < 2 * |samples| =>
      if j % 2 == 0 then Unsigned16(samples[j / 2]) % 256 else Unsigned16(samples[j / 2]) / 256)
  }

  lemma SampleRoundTrip(x: int)
    requires IsInt16(x)
    ensures Int16FromBytes(Unsigned16(x) % 256, Unsigned16(x) / 256) == x
  {
  }

  /** Writing samples to bytes and viewing the bytes as samples gives them back. */
  lemma Int16RoundTrip(samples: seq<int>)
    requires forall k :: 0 <= k < |samples| ==> IsInt16(samples[k])
    ensures |LittleEndianBytes(samples)| % 2 == 0
    ensures Int16View(LittleEndianBytes(samples)) == samples
  {
    var b := LittleEndianBytes(samples);
    var v := Int16View(b);
    forall k | 0 <= k < |samples| ensures v[k] == samples[k] {
      SampleRoundTrip(samples[k]);
    }
  }

  /** `sample / 32768.0`. */
  function Scale(sample: int): real {
    sample as real / 32768.0
  }

  /** Every 16-bit sample scales into [-1, 1). */
  lemma ScaleRange(sample: int)
    requires IsInt16(sample)
    ensures -1.0 <= Scale(sample) < 1.0
  {
  }

  // ---------------------------------------------------------------------
  // decodeAudioData

  /** The buffer `createBuffer` returns: its sample rate, its length in frames,
      and one array of values per channel. */
  datatype AudioBuffer = AudioBuffer(sampleRate: nat, length: nat, channels: seq<seq<real>>)

  lemma FrameIndex(i: nat, c: nat, numChannels: nat, frames: nat)
    requires i < frames && c < numChannels
    ensures i * numChannels + c < frames * numChannels
  {
    calc {
      i * numChannels + c;
    <
      (i + 1) * numChannels;
    <= { MulMonotone(i + 1, frames, numChannels); }
      frames * numChannels;
    }
  }

  lemma MulMonotone(a: nat, b: nat, n: nat)
    requires a <= b
    ensures a * n <= b * n
  {
  }

  lemma FramesFit(count: nat, numChannels: nat)
    requires numChannels > 0
    ensures (count / numChannels) * numChannels <= count
  {
  }

  /** Value i of channel c is interleaved sample `i * numChannels + c`, scaled. */
  function Deinterleave(samples: seq<int>, numChannels: nat, frames: nat): (r: seq<seq<real>>)
    requires frames * numChannels <= |samples|
    ensures |r| == numChannels
    ensures forall c :: 0 <= c < numChannels ==> r[c] == Channel(samples, numChannels, frames, c)
  {
    seq(numChannels, c requires 0 <= c < numChannels => Channel(samples, numChannels, frames, c))
  }

  /** Channel c of the interleaved samples: every `numChannels`-th sample from
      position c, scaled. */
  function Channel(samples: seq<int>, numChannels: nat, frames: nat, c: nat): (r: seq<real>)
    requires c < numChannels && frames * numChannels <= |samples|
    ensures |r| == frames
  {
    seq(frames, i requires 0 <= i < frames => ScaledAt(samples, numChannels, frames, c, i))
  }

  function ScaledAt(samples: seq<int>, numChannels: nat, frames: nat, c: nat, i: nat): real
    requires c < numChannels && i < frames && frames * numChannels <= |samples|
  {
    FrameIndex(i, c, numChannels, frames);
    Scale(samples[i * numChannels + c])
  }

  /** What `decodeAudioData` resolves to or rejects with. The frame count is
      `(bytes / 2) / numChannels`, rounded down as `createBuffer` converts its
      length argument. */
  function DecodedBuffer(data: seq<byte>, sampleRate: nat, numChannels: nat): Result<AudioBuffer, CodecError> {
    if |data| % 2 != 0 then Err(OddByteLength)
    else if numChannels == 0 then Err(NotSupported)
    else
      var samples := Int16View(data);
      var frames := |samples| / numChannels;
      if frames == 0 then Err(NotSupported)
      else
        FramesFit(|samples|, numChannels);
        Ok(AudioBuffer(sampleRate, frames, Deinterleave(samples, numChannels, frames)))
  }

  /** `decodeAudioData`: view the bytes as 16-bit samples, then fill each
      channel of a fresh buffer with every `numChannels`-th sample, scaled. */
  method DecodeAudioData(data: array<byte>, sampleRate: nat, numChannels: nat)
    returns (r: Result<AudioBuffer, CodecError>)
    ensures r == DecodedBuffer(data[..], sampleRate, numChannels)
  {
    if data.Length % 2 != 0 {
      return Err(OddByteLength);
    }
    var dataInt16 := Int16View(data[..]);
    if numChannels == 0 {
      return Err(NotSupported);
    }
    var frameCount := |dataInt16| / numChannels;
    if frameCount == 0 {
      return Err(NotSupported);
    }
    FramesFit(|dataInt16|, numChannels);
    var channels: seq<seq<real>> := [];
    for channel := 0 to numChannels
      invariant |channels| == channel
      invariant forall c :: 0 <= c < channel ==> channels[c] == Channel(dataInt16, numChannels, frameCount, c)
    {
      var channelData := new real[frameCount];
      for i := 0 to frameCount
        invariant forall k :: 0 <= k < i ==> channelData[k] == ScaledAt(dataInt16, numChannels, frameCount, channel, k)
      {
        FrameIndex(i, channel, numChannels, frameCount);
        channelData[i] := Scale(dataInt16[i * numChannels + channel]);
      }
      assert channelData[..] == Channel(dataInt16, numChannels, frameCount, channel);
      channels := channels + [channelData[..]];
    }
    assert channels == Deinterleave(dataInt16, numChannels, frameCount);
    r := Ok(AudioBuffer(sampleRate, frameCount, channels));
  }

  /** The shape of a decoded buffer: `numChannels` channels of
      `(bytes / 2) / numChannels` values each. */
  lemma DecodedBufferShape(data: seq<byte>, sampleRate: nat, numChannels: nat)
    requires DecodedBuffer(data, sampleRate, numChannels).Ok?
    ensures var buf := DecodedBuffer(data, sampleRate, numChannels).value;
      && |data| % 2 == 0 && numChannels > 0
      && buf.sampleRate == sampleRate
      && buf.length == (|data| / 2) / numChannels > 0
      && |buf.channels| == numChannels
      && forall c :: 0 <= c < numChannels ==> |buf.channels[c]| == buf.length
  {
  }

  /** Value i of channel c is interleaved sample `i * numChannels + c`, scaled
      into [-1, 1). */
  lemma DecodedSample(data: seq<byte>, sampleRate: nat, numChannels: nat, c: nat, i: nat)
    requires DecodedBuffer(data, sampleRate, numChannels).Ok?
    requires c < numChannels && i < DecodedBuffer(data, sampleRate, numChannels).value.length
    ensures |data| % 2 == 0 && i * numChannels + c < |data| / 2
    ensures var v := DecodedBuffer(data, sampleRate, numChannels).value.channels[c][i];
      && v == Scale(Int16View(data)[i * numChannels + c])
      && -1.0 <= v < 1.0
  {
    var frames := (|data| / 2) / numChannels;
    FrameIndex(i, c, numChannels, frames);
    FramesFit(|data| / 2, numChannels);
    ScaleRange(Int16View(data)[i * numChannels + c]);
  }

  /** For mono audio the one channel is the sample sequence itself, in order. */
  lemma MonoKeepsOrder(data: seq<byte>, sampleRate: nat)
    requires |data| % 2 == 0 && |data| >= 2
    ensures DecodedBuffer(data, sampleRate, 1).Ok?
    ensures DecodedBuffer(data, sampleRate, 1).value.channels
      == [seq(|data| / 2, k requires 0 <= k < |data| / 2 => Scale(Int16View(data)[k]))]
  {
    var samples := Int16View(data);
    var mono := seq(|data| / 2, k requires 0 <= k < |data| / 2 => Scale(samples[k]));
    var ch := Channel(samples, 1, |samples|, 0);
    forall k | 0 <= k < |samples| ensures ch[k] == mono[k] {
      assert k * 1 + 0 == k;
    }
    assert ch == mono;
  }

  /** A byte buffer of odd length is refused before any channel is filled. */
  lemma OddLengthRejected(data: seq<byte>, sampleRate: nat, numChannels: nat)
    requires |data| % 2 == 1
    ensures DecodedBuffer(data, sampleRate, numChannels) == Err(OddByteLength)
  {
  }

  // ---------------------------------------------------------------------
  // createBlobFromPCM

  /** Truncation toward zero, as the conversion to an integer type does. */
  function Truncate(x: real): (n: int)
    ensures x >= 0.0 ==> n as real <= x < n as real + 1.0
    ensures x < 0.0 ==> n as real - 1.0 < x <= n as real
  {
    if x >= 0.0 then x.Floor else -((-x).Floor)
  }

  /** Wrap-around into the signed 16-bit range (ToInt16). */
  function Wrap16(n: int): (r: int)
    ensures IsInt16(r)
    ensures (r - n) % 65536 == 0
  {
    var m := n % 65536;
    if m >= 32768 then m - 65536 else m
  }

  /** Storing `x` into an `Int16Array`: truncate, then wrap; never clamp. */
  function ToInt16(x: real): (r: int)
    ensures IsInt16(r)
  {
    Wrap16(Truncate(x))
  }

  /** The 16-bit samples `createBlobFromPCM` computes: `sample * 32768`, stored. */
  function Quantize(samples: seq<real>): (q: seq<int>)
    ensures |q| == |samples|
    ensures forall k :: 0 <= k < |q| ==> q[k] == ToInt16(samples[k] * 32768.0) && IsInt16(q[k])
  {
    seq(|samples|, k requires 0 <= k < |samples| => ToInt16(samples[k] * 32768.0))
  }

  /** The `{ data, mimeType }` object sent as realtime input. */
  datatype PcmBlob = PcmBlob(data: string, mimeType: string)

  const PcmMimeType: string := "audio/pcm;rate=16000"

  /** `createBlobFromPCM`: quantize into an `Int16Array`, view its buffer as
      bytes, encode them. */
  method CreateBlobFromPcm(data: array<real>) returns (blob: PcmBlob)
    ensures blob.mimeType == PcmMimeType
    ensures blob.data == EncodeBytes(PcmBytes(data[..]))
  {
    var l := data.Length;
    var int16 := new int[l];
    for i := 0 to l
      invariant forall k :: 0 <= k < i ==> int16[k] == ToInt16(data[k] * 32768.0)
    {
      int16[i] := ToInt16(data[i] * 32768.0);
    }
    assert int16[..] == Quantize(data[..]);
    var le := LittleEndianBytes(int16[..]);
    var bytes := new byte[|le|](k requires 0 <= k < |le| => le[k]);
    assert bytes[..] == le;
    var encoded := EncodeAudio(bytes);
    blob := PcmBlob(encoded, PcmMimeType);
  }

  /** The bytes of the `Int16Array` built from float samples. */
  function PcmBytes(samples: seq<real>): (b: seq<byte>)
    ensures |b| == 2 * |samples|
  {
    LittleEndianBytes(Quantize(samples))
  }

  /** The blob carries exactly two bytes per input sample, and reading it back
      through `atob` and an `Int16Array` view gives the stored samples. */
  lemma BlobRoundTrip(samples: seq<real>)
    ensures |PcmBytes(samples)| % 2 == 0
    ensures Int16View(PcmBytes(samples)) == Quantize(samples)
    ensures Atob(EncodeBytes(PcmBytes(samples))) == Some(BinaryString(PcmBytes(samples)))
    ensures Codes(BinaryString(PcmBytes(samples))) == PcmBytes(samples)
  {
    var le := PcmBytes(samples);
    AtobBtoa(le);
    CodesOfBinaryString(le);
    Int16RoundTrip(Quantize(samples));
  }

  /** A full-scale sample 1.0 wraps to -32768 instead of being clamped to 32767. */
  lemma FullScaleWraps()
    ensures ToInt16(1.0 * 32768.0) == -32768
  {
    assert Truncate(32768.0) == 32768;
  }

  /** Inside [-1, 1) nothing wraps, and decoding a stored sample gives the
      input back to within one quantization step. */
  lemma QuantizeWithinStep(x: real)
    requires -1.0 <= x < 1.0
    ensures ToInt16(x * 32768.0) == Truncate(x * 32768.0)
    ensures -1.0 / 32768.0 < Scale(ToInt16(x * 32768.0)) - x < 1.0 / 32768.0
  {
    var t := Truncate(x * 32768.0);
    assert -32768 <= t < 32768;
    assert Wrap16(t) == t;
  }
}
