/** Canonical PCM: 16-bit samples and their little-endian bytes. */
module Pcm {
  import opened Arithmetic
  import opened Frames

  type Sample = s: int | -32768 <= s < 32768

  /** int16(v), for any int v: wrap-around modulo 2^16. */
  function Int16(v: int): (s: Sample)
    ensures -32768 <= v < 32768 ==> s == v
  {
    var m := v % 65536;
    if m < 32768 then m else m - 65536
  }

  /** byte(s) and byte(s >> 8); the shift is arithmetic. */
  function LowByte(s: Sample): byte {
    s % 256
  }

  function HighByte(s: Sample): byte {
    s / 256 % 256
  }

  function FromBytes(low: byte, high: byte): Sample {
    var v: int := low + 256 * high;
    Int16(v)
  }

  /** The bytes of the samples, low byte first. */
  function Bytes(pcm: seq<Sample>): (r: seq<byte>)
    ensures |r| == 2 * |pcm|
    ensures forall i :: 0 <= i < |pcm| ==> r[2 * i] == LowByte(pcm[i]) && r[2 * i + 1] == HighByte(pcm[i])
  {
    if pcm == [] then []
    else
      var last := |pcm| - 1;
      var front := Bytes(pcm[..last]);
      assert forall i :: 0 <= i < last ==> pcm[..last][i] == pcm[i];
      front + [LowByte(pcm[last]), HighByte(pcm[last])]
  }

  /** The samples of a byte buffer; an odd last byte is dropped. */
  function Samples(data: seq<byte>): (r: seq<Sample>)
    ensures |r| == |data| / 2
    ensures forall i :: 0 <= i < |r| ==> r[i] == FromBytes(data[2 * i], data[2 * i + 1])
  {
    seq(|data| / 2, i requires 0 <= i < |data| / 2 => FromBytes(data[2 * i], data[2 * i + 1]))
  }

  /** The sample has these two bytes, the low one first, in two's complement. */
  ghost predicate HasBytes(s: int, low: int, high: int) {
    low + 256 * high == if s >= 0 then s else s + 65536
  }

  lemma BytesOfSample(s: Sample)
    ensures HasBytes(s, LowByte(s), HighByte(s))
  {
    var q, r := s / 256, s % 256;
    DivMod(s, 256);
    if s >= 0 {
      QuotientUnique(q, 256, 0, q);
    } else {
      QuotientUnique(q, 256, -1, q + 256);
    }
  }

  lemma SampleOfBytes(low: byte, high: byte)
    ensures HasBytes(FromBytes(low, high), low, high)
  {
    QuotientUnique(low + 256 * high, 65536, 0, low + 256 * high);
  }

  /** The canonical bytes of each sample. */
  lemma BytesAreTwosComplement(pcm: seq<Sample>)
    ensures |Bytes(pcm)| == 2 * |pcm|
    ensures forall i :: 0 <= i < |pcm| ==> HasBytes(pcm[i], Bytes(pcm)[2 * i], Bytes(pcm)[2 * i + 1])
  {
    forall i | 0 <= i < |pcm|
      ensures HasBytes(pcm[i], Bytes(pcm)[2 * i], Bytes(pcm)[2 * i + 1])
    {
      BytesOfSample(pcm[i]);
    }
  }

  /** And the sample of each byte pair. */
  lemma SamplesAreTwosComplement(data: seq<byte>)
    ensures |Samples(data)| == |data| / 2
    ensures forall i :: 0 <= i < |data| / 2 ==> HasBytes(Samples(data)[i], data[2 * i], data[2 * i + 1])
  {
    forall i | 0 <= i < |data| / 2
      ensures HasBytes(Samples(data)[i], data[2 * i], data[2 * i + 1])
    {
      SampleOfBytes(data[2 * i], data[2 * i + 1]);
    }
  }

  method NormalizePcm(pcm: seq<Sample>) returns (bytes: seq<byte>)
    ensures bytes == Bytes(pcm)
  {
    if |pcm| == 0 {
      return [];
    }
    var result := new byte[2 * |pcm|];
    for i := 0 to |pcm|
      invariant forall k :: 0 <= k < i ==> result[2 * k] == LowByte(pcm[k]) && result[2 * k + 1] == HighByte(pcm[k])
    {
      result[i * 2] := pcm[i] % 256;
      result[i * 2 + 1] := pcm[i] / 256 % 256;
    }
    bytes := result[..];
    BytesAreUnique(pcm, bytes);
  }

  lemma BytesAreUnique(pcm: seq<Sample>, bytes: seq<byte>)
    requires |bytes| == 2 * |pcm|
    requires forall k :: 0 <= k < |pcm| ==> bytes[2 * k] == LowByte(pcm[k]) && bytes[2 * k + 1] == HighByte(pcm[k])
    ensures bytes == Bytes(pcm)
  {
    forall i | 0 <= i < |bytes|
      ensures bytes[i] == Bytes(pcm)[i]
    {
      var k := i / 2;
      assert 0 <= k < |pcm|;
      if i % 2 == 0 {
        assert i == 2 * k && bytes[2 * k] == LowByte(pcm[k]);
      } else {
        assert i == 2 * k + 1 && bytes[2 * k + 1] == HighByte(pcm[k]);
      }
    }
  }

  /** The loop of the MP3 and ffmpeg decoders. */
  method DecodeSamples(data: seq<byte>) returns (pcm: seq<Sample>)
    ensures pcm == Samples(data)
  {
    var result := new Sample[|data| / 2];
    var i := 0;
    while i < |data|
      invariant 0 <= i <= |data| + 1 && i % 2 == 0
      invariant forall k :: 0 <= k < i / 2 && k < result.Length ==> result[k] == FromBytes(data[2 * k], data[2 * k + 1])
    {
      if i + 1 < |data| {
        result[i / 2] := FromBytes(data[i], data[i + 1]);
      }
      i := i + 2;
    }
    pcm := result[..];
  }

  // ---- Two-sided inverse ----

  lemma SampleRoundTrip(s: Sample)
    ensures FromBytes(LowByte(s), HighByte(s)) == s
  {
    var q, r := s / 256, s % 256;
    DivMod(s, 256);
    if s >= 0 {
      QuotientUnique(q, 256, 0, q);
    } else {
      QuotientUnique(q, 256, -1, q + 256);
    }
  }

  lemma BytePairRoundTrip(low: byte, high: byte)
    ensures LowByte(FromBytes(low, high)) == low && HighByte(FromBytes(low, high)) == high
  {
    var v: int := low + 256 * high;
    QuotientUnique(v, 65536, 0, v);
    if v < 32768 {
      QuotientUnique(v, 256, high, low);
      QuotientUnique(high, 256, 0, high);
    } else {
      QuotientUnique(v - 65536, 256, high - 256, low);
      QuotientUnique(high - 256, 256, -1, high);
    }
  }

  /** Decoding the canonical bytes gives the samples back. */
  lemma SamplesOfBytes(pcm: seq<Sample>)
    ensures Samples(Bytes(pcm)) == pcm
  {
    forall i | 0 <= i < |pcm|
      ensures Samples(Bytes(pcm))[i] == pcm[i]
    {
      SampleRoundTrip(pcm[i]);
    }
  }

  /** Encoding a decoded buffer gives back its bytes up to the last even length. */
  lemma BytesOfSamples(data: seq<byte>)
    ensures Bytes(Samples(data)) == data[..2 * (|data| / 2)]
  {
    var even := data[..2 * (|data| / 2)];
    forall k | 0 <= k < |data| / 2
      ensures even[2 * k] == LowByte(Samples(data)[k]) && even[2 * k + 1] == HighByte(Samples(data)[k])
    {
      BytePairRoundTrip(data[2 * k], data[2 * k + 1]);
    }
    BytesAreUnique(Samples(data), even);
  }

  /** CTIDs are equal exactly when the PCM is, as far as the hash does not collide. */
  lemma EqualCtidIffEqualPcm(sha: seq<byte> -> string, a: seq<Sample>, b: seq<Sample>)
    requires sha(Bytes(a)) == sha(Bytes(b)) ==> Bytes(a) == Bytes(b)
    ensures sha(Bytes(a)) == sha(Bytes(b)) <==> a == b
  {
    SamplesOfBytes(a);
    SamplesOfBytes(b);
  }
}
