/** The sample encoder of the audio recorder: every block of normalised
    floating-point samples is converted to signed 16-bit integers and packed
    into a little-endian byte buffer.

    Samples are modelled as `real`. A Float32 sample promoted to a double and
    multiplied by 0x8000 or 0x7FFF needs at most 39 significant bits, so the
    product is exact and truncating the real product agrees with the
    TypeScript code's double arithmetic on every finite input. */
module AudioEncoding {

  const Int16Min: int := -0x8000
  const Int16Max: int := 0x7FFF

  /** Scale applied to negative samples (0x8000) and to the others (0x7FFF). */
  const NegativeScale: real := 32768.0
  const PositiveScale: real := 32767.0

  predicate IsInt16(v: int) {
    Int16Min <= v <= Int16Max
  }

  predicate AllInt16(vs: seq<int>) {
    forall i :: 0 <= i < |vs| ==> IsInt16(vs[i])
  }

  /** One octet of the packed buffer. */
  type Byte = b: int | 0 <= b < 256

  // ---------------------------------------------------------------------
  // Number conversion
  // ---------------------------------------------------------------------

  /** Rounding toward zero: the integer between 0 and `x` that is less than
      one away from `x`. */
  function Truncate(x: real): (n: int)
    ensures 0.0 <= x ==> 0 <= n && n as real <= x < n as real + 1.0
    ensures x < 0.0 ==> n <= 0 && n as real - 1.0 < x <= n as real
  {
    if x >= 0.0 then x.Floor else -((-x).Floor)
  }

  /** The ToInt16 abstract operation (section 7.1.8 of ECMA-262) on a finite
      number: truncate, reduce modulo 2^16, and map the upper half of the
      residues to negatives. This is what storing into an `Int16Array` does. */
  function ToInt16(x: real): (r: int)
    ensures IsInt16(r)
    ensures (r - Truncate(x)) % 0x1_0000 == 0
  {
    var m := Truncate(x) % 0x1_0000;
    if m >= 0x8000 then m - 0x1_0000 else m
  }

  /** ToInt16 leaves a number alone once its truncation already fits in 16
      bits, so no wrap-around can occur in the conversion below. */
  lemma ToInt16InRange(x: real)
    requires IsInt16(Truncate(x))
    ensures ToInt16(x) == Truncate(x)
  {
  }

  /** `Math.max(-1, Math.min(1, x))` */
  function Clamp(x: real): (s: real)
    ensures -1.0 <= s <= 1.0
    ensures -1.0 <= x <= 1.0 ==> s == x
    ensures x > 1.0 ==> s == 1.0
    ensures x < -1.0 ==> s == -1.0
  {
    var upper := if x < 1.0 then x else 1.0;
    if upper > -1.0 then upper else -1.0
  }

  /** The conversion of one sample: clamp to [-1, 1], scale negatives by
      0x8000 and the rest by 0x7FFF, and store as an Int16. The ensures give
      the result independently of that recipe: the saturation points, the
      sign, and the rounding toward zero of the scaled amplitude. */
  function ConvertSample(x: real): (r: int)
    ensures IsInt16(r)
    ensures x >= 1.0 ==> r == Int16Max
    ensures x <= -1.0 ==> r == Int16Min
    ensures x == 0.0 ==> r == 0
    ensures 0.0 <= x <= 1.0 ==> r as real <= x * PositiveScale < r as real + 1.0
    ensures -1.0 <= x < 0.0 ==> r as real - 1.0 < x * NegativeScale <= r as real
    ensures r > 0 ==> x > 0.0
    ensures r < 0 ==> x < 0.0
  {
    var s := Clamp(x);
    var scaled := if s < 0.0 then s * NegativeScale else s * PositiveScale;
    ToInt16InRange(scaled);
    ToInt16(scaled)
  }

  /** The conversion never reverses the order of two samples. */
  lemma ConvertSampleMonotone(x: real, y: real)
    requires x <= y
    ensures ConvertSample(x) <= ConvertSample(y)
  {
  }

  /** The converted block, element by element. */
  function Samples(input: seq<real>): seq<int> {
    seq(|input|, i requires 0 <= i < |input| => ConvertSample(input[i]))
  }

  /** The conversion loop of the `onaudioprocess` handler: a zero-filled
      Int16 block of the input's length, written one sample at a time. */
  method ConvertBlock(input: seq<real>) returns (output: seq<int>)
    ensures |output| == |input|
    ensures AllInt16(output)
    ensures forall i :: 0 <= i < |input| ==> output[i] == ConvertSample(input[i])
    ensures output == Samples(input)
  {
    output := seq(|input|, _ => 0);
    for i := 0 to |input|
      invariant |output| == |input|
      invariant forall k :: 0 <= k < i ==> output[k] == ConvertSample(input[k])
      invariant forall k :: i <= k < |input| ==> output[k] == 0
    {
      output := output[i := ConvertSample(input[i])];
    }
  }

  // ---------------------------------------------------------------------
  // Little-endian packing
  // ---------------------------------------------------------------------

  /** The two bytes of a 16-bit two's-complement value, low byte first. */
  function Int16Bytes(v: int): (bs: seq<Byte>)
    requires IsInt16(v)
    ensures |bs| == 2
  {
    var u := if v < 0 then v + 0x1_0000 else v;
    [u % 256, u / 256]
  }

  /** Reads two bytes, low byte first, as a two's-complement 16-bit value. */
  function DecodeInt16(lo: Byte, hi: Byte): (v: int)
    ensures IsInt16(v)
  {
    var u := lo + 256 * hi;
    if u >= 0x8000 then u - 0x1_0000 else u
  }

  lemma Int16BytesRoundTrip(v: int)
    requires IsInt16(v)
    ensures DecodeInt16(Int16Bytes(v)[0], Int16Bytes(v)[1]) == v
  {
  }

  lemma BytesInt16RoundTrip(lo: Byte, hi: Byte)
    ensures Int16Bytes(DecodeInt16(lo, hi)) == [lo, hi]
  {
  }

  /** The byte view of an Int16 block: `2 * n` bytes for `n` samples. */
  function Pack(samples: seq<int>): (bytes: seq<Byte>)
    requires AllInt16(samples)
    ensures |bytes| == 2 * |samples|
  {
    if |samples| == 0 then [] else Int16Bytes(samples[0]) + Pack(samples[1..])
  }

  /** Reads a byte buffer of even length back as little-endian Int16 values. */
  function Unpack(bytes: seq<Byte>): (samples: seq<int>)
    requires |bytes| % 2 == 0
    ensures |samples| == |bytes| / 2
    ensures AllInt16(samples)
  {
    if |bytes| == 0 then [] else [DecodeInt16(bytes[0], bytes[1])] + Unpack(bytes[2..])
  }

  /** Sample `i` occupies bytes `2i` (low) and `2i + 1` (high). */
  lemma {:induction false} PackAt(samples: seq<int>, i: int)
    requires AllInt16(samples)
    requires 0 <= i < |samples|
    ensures Pack(samples)[2 * i .. 2 * i + 2] == Int16Bytes(samples[i])
  {
    if i > 0 {
      PackAt(samples[1..], i - 1);
      assert Pack(samples) == Int16Bytes(samples[0]) + Pack(samples[1..]);
    }
  }

  lemma {:induction false} UnpackPack(samples: seq<int>)
    requires AllInt16(samples)
    ensures Unpack(Pack(samples)) == samples
  {
    if |samples| > 0 {
      var bytes := Pack(samples);
      assert bytes == Int16Bytes(samples[0]) + Pack(samples[1..]);
      assert bytes[2..] == Pack(samples[1..]);
      Int16BytesRoundTrip(samples[0]);
      UnpackPack(samples[1..]);
    }
  }

  lemma {:induction false} PackUnpack(bytes: seq<Byte>)
    requires |bytes| % 2 == 0
    ensures Pack(Unpack(bytes)) == bytes
  {
    if |bytes| > 0 {
      var samples := Unpack(bytes);
      assert samples[1..] == Unpack(bytes[2..]);
      BytesInt16RoundTrip(bytes[0], bytes[1]);
      PackUnpack(bytes[2..]);
    }
  }

  /** The payload of one `data` event before base64: the packed conversion
      of the block. Decoding it gives back exactly the converted samples. */
  function EncodeBlock(input: seq<real>): (bytes: seq<Byte>)
    ensures |bytes| == 2 * |input|
    ensures Unpack(bytes) == Samples(input)
  {
    var samples := Samples(input);
    UnpackPack(samples);
    Pack(samples)
  }
}
