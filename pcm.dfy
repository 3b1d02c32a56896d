/**
  Quantisation of captured audio to 16-bit PCM, as done by `createPcmBlob`.

  A captured sample is a Float32 value, modelled exactly as a `real`. Multiplying by
  32768 (a power of two) is exact in IEEE arithmetic, so the only conversions are the
  ones an `Int16Array` store applies: truncation toward zero, then wrap-around modulo
  2^16 into [-32768, 32767], without clamping.
*/
module Pcm {

  type int16 = x: int | -32768 <= x < 32768
  type byte = x: int | 0 <= x < 256

  const Int16Modulus: int := 65536
  const SampleScale: real := 32768.0
  const MimeType: string := "audio/pcm;rate=16000"

  /** The payload handed to the transport: the raw bytes of the Int16 buffer and its type. */
  datatype Blob = Blob(data: seq<byte>, mimeType: string)

  /** Truncation toward zero, the first step of an integer-typed-array store. */
  function Trunc(x: real): (r: int)
    ensures 0.0 <= x ==> r as real <= x < r as real + 1.0
    ensures x < 0.0 ==> r as real - 1.0 < x <= r as real
  {
    if x >= 0.0 then x.Floor else -((-x).Floor)
  }

  /** The wrap of an Int16Array store: reduce modulo 2^16, then map [2^15, 2^16) down. */
  function ToInt16(n: int): (r: int16)
    ensures -32768 <= n < 32768 ==> r == n
    ensures r == n - Int16Modulus * ((n + 32768) / Int16Modulus)
  {
    var m := n % Int16Modulus;
    if m >= 32768 then m - Int16Modulus else m
  }

  /** The value stored for one sample: `int16[i] = data[i] * 32768`. */
  function Quantize(x: real): (r: int16)
    ensures -1.0 <= x < 1.0 ==> r == Trunc(x * SampleScale)
    ensures -1.0 <= x < 1.0 ==> -1.0 < x * SampleScale - r as real < 1.0
  {
    ToInt16(Trunc(x * SampleScale))
  }

  /** Full-scale +1.0 does not clamp to 32767: it wraps to the most negative value. */
  lemma PositiveFullScaleWraps()
    ensures Quantize(1.0) == -32768
    ensures Quantize(-1.0) == -32768
  {
    assert Trunc(1.0 * SampleScale) == 32768;
    assert Trunc(-1.0 * SampleScale) == -32768;
  }

  /** One quantised value per sample, in order. */
  function Quantized(xs: seq<real>): (r: seq<int16>)
    ensures |r| == |xs|
    ensures forall i :: 0 <= i < |xs| ==> r[i] == Quantize(xs[i])
  {
    seq(|xs|, i requires 0 <= i < |xs| => Quantize(xs[i]))
  }

  /** Low and high byte of the two's-complement encoding of a 16-bit value. */
  function LowByte(w: int16): byte { (w % Int16Modulus) % 256 }
  function HighByte(w: int16): byte { (w % Int16Modulus) / 256 }

  /** The bytes behind an Int16Array (little-endian platform byte order). */
  function LittleEndian(v: seq<int16>): (r: seq<byte>)
    ensures |r| == 2 * |v|
  {
    if v == [] then [] else [LowByte(v[0]), HighByte(v[0])] + LittleEndian(v[1..])
  }

  /** Reading 16-bit signed values back out of a little-endian byte buffer. */
  function FromLittleEndian(b: seq<byte>): (r: seq<int16>)
    requires |b| % 2 == 0
    ensures 2 * |r| == |b|
  {
    if b == [] then [] else [ToInt16(b[0] as int + 256 * (b[1] as int))] + FromLittleEndian(b[2..])
  }

  lemma WordRoundTrip(w: int16)
    ensures ToInt16(LowByte(w) as int + 256 * (HighByte(w) as int)) == w
  {
    var u := w % Int16Modulus;
    assert LowByte(w) as int + 256 * (HighByte(w) as int) == u;
    if w >= 0 {
      assert u == w;
    } else {
      assert u == w + Int16Modulus;
    }
  }

  /** Reinterpreting the bytes as 16-bit PCM gives back exactly the stored values. */
  lemma {:induction false} BytesRoundTrip(v: seq<int16>)
    ensures FromLittleEndian(LittleEndian(v)) == v
  {
    if v != [] {
      var b := LittleEndian(v);
      assert b[2..] == LittleEndian(v[1..]);
      WordRoundTrip(v[0]);
      BytesRoundTrip(v[1..]);
    }
  }

  /** The blob that `createPcmBlob` describes, as a function of the samples. */
  function PcmBlob(xs: seq<real>): (r: Blob)
    ensures |r.data| == 2 * |xs|
    ensures r.mimeType == "audio/pcm;rate=16000"
    ensures FromLittleEndian(r.data) == Quantized(xs)
  {
    BytesRoundTrip(Quantized(xs));
    Blob(LittleEndian(Quantized(xs)), MimeType)
  }

  /** Fill an Int16Array sample by sample, then wrap its bytes in a blob. */
  method CreatePcmBlob(data: seq<real>) returns (blob: Blob)
    ensures blob == PcmBlob(data)
  {
    var l := |data|;
    var int16s := new int16[l];
    for i := 0 to l
      invariant forall k :: 0 <= k < i ==> int16s[k] == Quantize(data[k])
    {
      int16s[i] := Quantize(data[i]);
    }
    assert int16s[..] == Quantized(data);
    blob := Blob(LittleEndian(int16s[..]), MimeType);
  }
}
