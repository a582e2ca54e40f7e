/** The records that flow through the pipeline (`deafine/events.py`) and the
    16-bit little-endian PCM encoding every audio frame carries. */
module Events {
  import opened Wrappers

  newtype byte = x: int | 0 <= x < 256
  newtype int16 = x: int | -32768 <= x < 32768

  /** One block of captured audio: when it was captured (seconds since the
      start of the session), its 16-bit PCM bytes and its sample rate. */
  datatype AudioFrame = AudioFrame(timestamp: real, pcm: seq<byte>, sampleRate: int)

  /** A stretch of speech attributed to one speaker. The source's `words`
      field is always the empty list, so it is not carried. */
  datatype TranscriptSegment = TranscriptSegment(speakerId: string, text: string, startTime: real, endTime: real)

  /** Declared by the pipeline but never produced by the coordinator. */
  datatype OverlapEvent = OverlapEvent(activeSpeakers: seq<string>, startTime: real, endTime: real)

  // ---------------------------------------------------------------- PCM

  /** The two bytes of one sample, low byte first (two's complement). */
  function EncodeSample(s: int16): (r: seq<byte>)
    ensures |r| == 2
    ensures (r[0] as int + 256 * r[1] as int) % 65536 == (s as int) % 65536
  {
    var u := if s < 0 then s as int + 65536 else s as int;
    [(u % 256) as byte, (u / 256) as byte]
  }

  /** The sample two bytes hold, low byte first. */
  function DecodeSample(lo: byte, hi: byte): (s: int16)
    ensures (s as int) % 65536 == (lo as int + 256 * hi as int) % 65536
  {
    var u := lo as int + 256 * hi as int;
    (if u >= 32768 then u - 65536 else u) as int16
  }

  /** `samples.tobytes()` for an int16 array. */
  function ToBytes(samples: seq<int16>): (r: seq<byte>)
    ensures |r| == 2 * |samples|
  {
    if samples == [] then [] else EncodeSample(samples[0]) + ToBytes(samples[1..])
  }

  /** `np.frombuffer(pcm, dtype=np.int16)`: `None` where numpy raises, which
      is when the byte count is odd. */
  function FromBytes(pcm: seq<byte>): (r: Option<seq<int16>>)
    ensures r.Some? <==> |pcm| % 2 == 0
    ensures r.Some? ==> 2 * |r.value| == |pcm|
  {
    if |pcm| % 2 != 0 then None else Some(Samples(pcm))
  }

  function Samples(pcm: seq<byte>): (r: seq<int16>)
    requires |pcm| % 2 == 0
    ensures 2 * |r| == |pcm|
  {
    if pcm == [] then [] else [DecodeSample(pcm[0], pcm[1])] + Samples(pcm[2..])
  }

  lemma DecodeEncode(s: int16)
    ensures var b := EncodeSample(s); DecodeSample(b[0], b[1]) == s
  {
  }

  lemma EncodeDecode(lo: byte, hi: byte)
    ensures EncodeSample(DecodeSample(lo, hi)) == [lo, hi]
  {
  }

  /** Encoding samples and reading them back gives the same samples. */
  lemma {:induction false} FromToBytes(samples: seq<int16>)
    ensures FromBytes(ToBytes(samples)) == Some(samples)
  {
    if samples != [] {
      var b := ToBytes(samples);
      FromToBytes(samples[1..]);
      DecodeEncode(samples[0]);
      var e := EncodeSample(samples[0]);
      assert b[0] == e[0] && b[1] == e[1];
      assert b[2..] == ToBytes(samples[1..]);
      assert Samples(b) == [samples[0]] + samples[1..];
      assert [samples[0]] + samples[1..] == samples;
      assert FromBytes(b) == Some(Samples(b));
    }
  }

  /** Every even-length byte string is the encoding of the samples read from it. */
  lemma {:induction false} ToFromBytes(pcm: seq<byte>)
    requires |pcm| % 2 == 0
    ensures ToBytes(FromBytes(pcm).value) == pcm
  {
    if pcm != [] {
      ToFromBytes(pcm[2..]);
      EncodeDecode(pcm[0], pcm[1]);
      var s := Samples(pcm);
      assert s[1..] == Samples(pcm[2..]);
      assert pcm == [pcm[0], pcm[1]] + pcm[2..];
    }
  }

  /** Reading a concatenation reads the parts one after the other. */
  lemma {:induction false} SamplesAppend(a: seq<byte>, b: seq<byte>)
    requires |a| % 2 == 0 && |b| % 2 == 0
    ensures Samples(a + b) == Samples(a) + Samples(b)
    decreases |a|
  {
    if a == [] {
      assert a + b == b;
    } else {
      assert (a + b)[2..] == a[2..] + b;
      SamplesAppend(a[2..], b);
    }
  }
}
