/** Microphone capture with the optional voice-activity gate
    (`audio_access/audio_capture.py`, `AudioCapture`): the frame sizes, the
    speech test over 30 ms sub-windows, and the sliding window that turns
    captured blocks into frames.

    The device stream, its callback and the queue are not modelled: each
    captured block is an input to `OnBlock`. The classifier is a parameter
    (`Classifier`), and so is the clock that stamps each yielded frame. */
module AudioCapturing {
  import opened Wrappers
  import opened Events
  import opened Configuration

  // ---------------------------------------------------------------- sizes

  /** Python's `int(a / b)` for a positive divisor: the quotient truncated
      toward zero. */
  function TruncDiv(a: int, b: int): (q: int)
    requires b > 0
    ensures a >= 0 ==> b * q <= a < b * (q + 1)
    ensures a < 0 ==> b * (q - 1) < a <= b * q
  {
    if a >= 0 then a / b else -((-a) / b)
  }

  /** `int(sample_rate * chunk_ms / 1000)`: samples per examined chunk. */
  function ChunkSize(c: Config): int {
    TruncDiv(c.sampleRate * c.chunkMs, 1000)
  }

  /** `int(sample_rate * hop_ms / 1000)`: samples dropped after each chunk. */
  function HopSize(c: Config): int {
    TruncDiv(c.sampleRate * c.hopMs, 1000)
  }

  /** `int(sample_rate * 0.03)`: samples per 30 ms classifier window. */
  function VadFrameSize(sampleRate: int): int {
    TruncDiv(sampleRate * 3, 100)
  }

  /** At the default 16 kHz, 320 ms and 160 ms: chunks of 5120 samples, a
      hop of 2560 and classifier windows of 480. */
  lemma DefaultSizes(apiKey: string)
    ensures ChunkSize(Defaults(apiKey)) == 5120 && HopSize(Defaults(apiKey)) == 2560
    ensures VadFrameSize(Defaults(apiKey).sampleRate) == 480
  {
  }

  // ---------------------------------------------------------------- the speech test

  /** What `webrtcvad.Vad.is_speech` does with one window: answer, or raise. */
  datatype Verdict = Speech | Silence | Raises

  type Classifier = (seq<byte>, int) -> Verdict

  /** The `k`-th complete aligned window of `chunk` is examined and not
      judged silent (speech, or the classifier raised). */
  predicate VoicedWindow(c: Classifier, chunk: seq<int16>, size: int, sr: int, k: int)
    requires size > 0
  {
    0 <= k && k * size + size <= |chunk| && c(ToBytes(chunk[k * size..k * size + size]), sr) != Silence
  }

  /** The loop of `_is_speech` from offset `i` on: the windows start at
      `i`, `i + size`, ...; one that does not fit is skipped. */
  function AnyVoiced(c: Classifier, chunk: seq<int16>, size: int, sr: int, i: nat): bool
    requires size > 0
    decreases |chunk| - i
  {
    if i >= |chunk| then false
    else if i + size <= |chunk| && c(ToBytes(chunk[i..i + size]), sr) != Silence then true
    else AnyVoiced(c, chunk, size, sr, i + size)
  }

  /** `_is_speech(chunk)`: without a classifier every chunk is speech. With
      one, a 30 ms size of 0 makes `range` raise, which accepts the chunk; a
      negative size makes the range empty, which rejects it; otherwise the
      chunk is speech when some complete window is not judged silent. */
  function IsSpeechSpec(vad: Option<Classifier>, chunk: seq<int16>, sr: int): (r: bool)
    ensures vad.None? ==> r
  {
    match vad
    case None => true
    case Some(c) =>
      var size := VadFrameSize(sr);
      if size == 0 then true
      else if size < 0 then false
      else AnyVoiced(c, chunk, size, sr, 0)
  }

  /** From window `j` on, the loop answers true exactly when some window at
      or after `j` is voiced. */
  lemma {:induction false} AnyVoicedFrom(c: Classifier, chunk: seq<int16>, size: int, sr: int, j: nat)
    requires size > 0
    ensures AnyVoiced(c, chunk, size, sr, j * size) <==> exists k :: j <= k && VoicedWindow(c, chunk, size, sr, k)
    decreases |chunk| - j * size
  {
    if j * size >= |chunk| {
      forall k | j <= k
        ensures !VoicedWindow(c, chunk, size, sr, k)
      {
        assert k * size >= j * size by {
          MulMono(j, k, size);
        }
      }
    } else {
      assert (j + 1) * size == j * size + size;
      AnyVoicedFrom(c, chunk, size, sr, j + 1);
      if VoicedWindow(c, chunk, size, sr, j) {
      } else if exists k :: j < k && VoicedWindow(c, chunk, size, sr, k) {
      } else {
        forall k | j <= k
          ensures !VoicedWindow(c, chunk, size, sr, k)
        {
        }
      }
    }
  }

  lemma MulMono(j: int, k: int, size: int)
    requires j <= k && size > 0
    ensures j * size <= k * size
  {
  }

  /** With a classifier and a positive window size, a chunk is speech
      exactly when some complete window starting at a multiple of the size
      is judged speech or makes the classifier raise. */
  lemma IsSpeechWindows(c: Classifier, chunk: seq<int16>, sr: int)
    requires VadFrameSize(sr) > 0
    ensures IsSpeechSpec(Some(c), chunk, sr)
      <==> exists k :: VoicedWindow(c, chunk, VadFrameSize(sr), sr, k)
  {
    AnyVoicedFrom(c, chunk, VadFrameSize(sr), sr, 0);
  }

  /** A trailing partial window is never consulted: only the complete
      windows decide. */
  lemma IsSpeechIgnoresTail(c: Classifier, chunk: seq<int16>, tail: seq<int16>, sr: int)
    requires VadFrameSize(sr) > 0 && |chunk| % VadFrameSize(sr) == 0 && |tail| < VadFrameSize(sr)
    ensures IsSpeechSpec(Some(c), chunk + tail, sr) == IsSpeechSpec(Some(c), chunk, sr)
  {
    var size := VadFrameSize(sr);
    IsSpeechWindows(c, chunk, sr);
    IsSpeechWindows(c, chunk + tail, sr);
    forall k
      ensures VoicedWindow(c, chunk + tail, size, sr, k) <==> VoicedWindow(c, chunk, size, sr, k)
    {
      SameWindow(c, chunk, tail, size, sr, k);
    }
  }

  /** Window `k` of `chunk + tail` is voiced exactly when window `k` of
      `chunk` is, when the tail is shorter than a window. */
  lemma SameWindow(c: Classifier, chunk: seq<int16>, tail: seq<int16>, size: int, sr: int, k: int)
    requires size > 0 && |chunk| % size == 0 && |tail| < size
    ensures VoicedWindow(c, chunk + tail, size, sr, k) <==> VoicedWindow(c, chunk, size, sr, k)
  {
    var lo := k * size;
    if 0 <= k && lo + size <= |chunk| + |tail| {
      WindowInside(|chunk|, |tail|, size, k);
      PrefixSlice(chunk, tail, lo, lo + size);
    }
  }

  lemma PrefixSlice(x: seq<int16>, y: seq<int16>, lo: int, hi: int)
    requires 0 <= lo <= hi <= |x|
    ensures (x + y)[lo..hi] == x[lo..hi]
  {
  }

  /** A complete window of `n + t` samples, `n` a multiple of the window
      size and `t` less than it, lies within the first `n`. */
  lemma WindowInside(n: nat, t: nat, size: int, k: int)
    requires size > 0 && n % size == 0 && t < size && 0 <= k && k * size + size <= n + t
    ensures k * size + size <= n
  {
    var m := n / size;
    assert n == m * size;
    MulLess(k, m, size);
    MulMono(k + 1, m, size);
    assert (k + 1) * size == k * size + size;
  }

  lemma MulLess(k: int, m: int, size: int)
    requires size > 0 && k * size < m * size
    ensures k < m
  {
    if k >= m {
      MulMono(m, k, size);
    }
  }

  // ---------------------------------------------------------------- the sliding window

  /** `buffer[hop:]`, which is empty when the hop passes the end. */
  function Drop(b: seq<int16>, hop: int): (r: seq<int16>)
    requires hop > 0
    ensures |r| < |b| || b == []
  {
    if hop <= |b| then b[hop..] else []
  }

  /** The chunks the inner loop examines, in order. */
  function Windows(b: seq<int16>, chunk: int, hop: int): seq<seq<int16>>
    requires chunk > 0 && hop > 0
    decreases |b|
  {
    if |b| < chunk then [] else [b[..chunk]] + Windows(Drop(b, hop), chunk, hop)
  }

  /** What the buffer holds when the inner loop stops. */
  function Leftover(b: seq<int16>, chunk: int, hop: int): (r: seq<int16>)
    requires chunk > 0 && hop > 0
    decreases |b|
  {
    if |b| < chunk then b else Leftover(Drop(b, hop), chunk, hop)
  }

  /** The loop stops with fewer samples than a chunk, and what stays is a
      suffix of the buffer. */
  lemma {:induction false} LeftoverShort(b: seq<int16>, chunk: int, hop: int)
    requires chunk > 0 && hop > 0
    ensures var r := Leftover(b, chunk, hop); |r| < chunk && |r| <= |b| && r == b[|b| - |r|..]
    decreases |b|
  {
    if |b| >= chunk {
      LeftoverShort(Drop(b, hop), chunk, hop);
      LeftoverStep(b, chunk, hop);
    }
  }

  /** One hop keeps the leftover a suffix of the buffer. */
  lemma LeftoverStep(b: seq<int16>, chunk: int, hop: int)
    requires chunk > 0 && hop > 0 && |b| >= chunk
    requires var d := Drop(b, hop); var r := Leftover(d, chunk, hop); |r| <= |d| && r == d[|d| - |r|..]
    ensures var r := Leftover(b, chunk, hop); |r| <= |b| && r == b[|b| - |r|..]
  {
    var d := Drop(b, hop);
    var r := Leftover(d, chunk, hop);
    assert Leftover(b, chunk, hop) == r;
    if hop <= |b| {
      assert d == b[hop..];
      SuffixAfterDrop(b, hop, |r|);
    } else {
      assert r == [];
    }
  }

  lemma SuffixAfterDrop(b: seq<int16>, hop: int, n: int)
    requires 0 <= hop <= |b| && 0 <= n <= |b| - hop
    ensures b[hop..][|b| - hop - n..] == b[|b| - n..]
  {
  }

  /** The `k`-th examined chunk is the `chunk` samples starting at `k * hop`. */
  lemma {:induction false} WindowsAt(b: seq<int16>, chunk: int, hop: int, k: nat)
    requires chunk > 0 && hop > 0 && k < |Windows(b, chunk, hop)|
    ensures k * hop + chunk <= |b| && Windows(b, chunk, hop)[k] == b[k * hop..k * hop + chunk]
    decreases |b|
  {
    if k > 0 {
      var d := Drop(b, hop);
      WindowsShift(b, chunk, hop, k);
      WindowsAt(d, chunk, hop, k - 1);
      var lo := (k - 1) * hop;
      assert lo + hop == k * hop;
      MulMono(0, k - 1, hop);
      WindowsAtStep(b, chunk, hop, k, lo);
    }
  }

  /** Past the first chunk, the chunks are those of the buffer after one hop. */
  lemma WindowsShift(b: seq<int16>, chunk: int, hop: int, k: nat)
    requires chunk > 0 && hop > 0 && 0 < k < |Windows(b, chunk, hop)|
    ensures hop < |b| && |Windows(Drop(b, hop), chunk, hop)| == |Windows(b, chunk, hop)| - 1
    ensures Windows(b, chunk, hop)[k] == Windows(Drop(b, hop), chunk, hop)[k - 1]
  {
    assert Windows(b, chunk, hop) == [b[..chunk]] + Windows(Drop(b, hop), chunk, hop);
  }

  /** Chunk `k - 1` after a hop at offset `lo` is chunk `k` at `lo + hop`. */
  lemma WindowsAtStep(b: seq<int16>, chunk: int, hop: int, k: nat, lo: int)
    requires chunk > 0 && 0 < hop < |b| && 0 < k < |Windows(b, chunk, hop)| && 0 <= lo
    requires Windows(b, chunk, hop)[k] == Windows(Drop(b, hop), chunk, hop)[k - 1]
    requires lo + chunk <= |Drop(b, hop)| && Windows(Drop(b, hop), chunk, hop)[k - 1] == Drop(b, hop)[lo..lo + chunk]
    ensures lo + hop + chunk <= |b| && Windows(b, chunk, hop)[k] == b[lo + hop..lo + hop + chunk]
  {
    assert Drop(b, hop) == b[hop..];
  }

  /** How many chunks a buffer of `n >= chunk` samples yields: one, plus one
      per whole hop that fits after it. */
  lemma {:induction false} WindowCount(b: seq<int16>, chunk: int, hop: int)
    requires chunk > 0 && hop > 0
    ensures |Windows(b, chunk, hop)| == if |b| < chunk then 0 else (|b| - chunk) / hop + 1
    decreases |b|
  {
    if |b| >= chunk {
      var d := Drop(b, hop);
      WindowCount(d, chunk, hop);
      if hop <= |b| {
        assert |d| == |b| - hop;
        if |d| >= chunk {
          assert (|b| - chunk) / hop == (|d| - chunk) / hop + 1 by {
            DivShift(|d| - chunk, hop);
          }
        } else {
          assert (|b| - chunk) / hop == 0;
        }
      } else {
        assert (|b| - chunk) / hop == 0;
      }
    }
  }

  lemma DivShift(a: nat, h: int)
    requires h > 0
    ensures (a + h) / h == a / h + 1
  {
    var q, r := a / h, a % h;
    assert a + h == h * (q + 1) + r;
    DivOf(a + h, h, q + 1, r);
  }

  lemma DivOf(x: int, h: int, q: int, r: int)
    requires h > 0 && x == h * q + r && 0 <= r < h
    ensures x / h == q
  {
    var d := q - x / h;
    assert h * d == h * q - h * (x / h);
    assert h * d == x % h - r;
    if d > 0 {
      MulMono(1, d, h);
    } else if d < 0 {
      MulMono(d, -1, h);
    }
  }

  /** The accepted chunks, in the order examined. */
  function Voiced(vad: Option<Classifier>, sr: int, ws: seq<seq<int16>>): seq<seq<int16>> {
    if ws == [] then []
    else Voiced(vad, sr, ws[..|ws| - 1]) + (if IsSpeechSpec(vad, ws[|ws| - 1], sr) then [ws[|ws| - 1]] else [])
  }

  /** The frames yielded for the examined chunks `ws`: each accepted chunk,
      stamped by the clock at its yield (`clock(k)` for the `k`-th one). */
  function Emitted(vad: Option<Classifier>, sr: int, clock: nat -> real, ws: seq<seq<int16>>): (r: seq<AudioFrame>)
    ensures |r| <= |ws|
  {
    if ws == [] then []
    else
      var prev := Emitted(vad, sr, clock, ws[..|ws| - 1]);
      var w := ws[|ws| - 1];
      if IsSpeechSpec(vad, w, sr) then prev + [AudioFrame(clock(|prev|), ToBytes(w), sr)] else prev
  }

  /** The yielded frames are exactly the accepted chunks, in order, with
      their bytes, the configured sample rate and the clock's stamps. */
  lemma {:induction false} EmittedVoiced(vad: Option<Classifier>, sr: int, clock: nat -> real, ws: seq<seq<int16>>)
    ensures var r := Emitted(vad, sr, clock, ws); var v := Voiced(vad, sr, ws);
      |r| == |v| && forall k :: 0 <= k < |r| ==> r[k] == AudioFrame(clock(k), ToBytes(v[k]), sr)
  {
    if ws != [] {
      var init, w := ws[..|ws| - 1], ws[|ws| - 1];
      EmittedVoiced(vad, sr, clock, init);
      var prev, v := Emitted(vad, sr, clock, init), Voiced(vad, sr, init);
      var r := Emitted(vad, sr, clock, ws);
      if IsSpeechSpec(vad, w, sr) {
        var v' := Voiced(vad, sr, ws);
        assert v' == v + [w];
        assert r == prev + [AudioFrame(clock(|prev|), ToBytes(w), sr)];
        forall k | 0 <= k < |r|
          ensures r[k] == AudioFrame(clock(k), ToBytes(v'[k]), sr)
        {
          if k < |prev| {
            assert r[k] == prev[k] && v'[k] == v[k];
          }
        }
      }
    }
  }

  /** Without a classifier every examined chunk is yielded. */
  lemma {:induction false} VoicedAll(sr: int, ws: seq<seq<int16>>)
    ensures Voiced(None, sr, ws) == ws
  {
    if ws != [] {
      VoicedAll(sr, ws[..|ws| - 1]);
      assert ws[..|ws| - 1] + [ws[|ws| - 1]] == ws;
    }
  }

  /** One pass of the inner loop examines the first chunk and drops a hop. */
  lemma SlideStep(b0: seq<int16>, done: seq<seq<int16>>, b: seq<int16>, chunk: int, hop: int)
    requires chunk > 0 && hop > 0 && |b| >= chunk
    requires Windows(b0, chunk, hop) == done + Windows(b, chunk, hop)
    requires Leftover(b0, chunk, hop) == Leftover(b, chunk, hop)
    ensures Windows(b0, chunk, hop) == (done + [b[..chunk]]) + Windows(Drop(b, hop), chunk, hop)
    ensures Leftover(b0, chunk, hop) == Leftover(Drop(b, hop), chunk, hop)
  {
    var first, rest := b[..chunk], Windows(Drop(b, hop), chunk, hop);
    assert Windows(b, chunk, hop) == [first] + rest;
    assert Leftover(b, chunk, hop) == Leftover(Drop(b, hop), chunk, hop);
    assert done + ([first] + rest) == (done + [first]) + rest;
  }

  /** Examining one more chunk yields one more frame exactly when the chunk
      is accepted. */
  lemma EmittedStep(vad: Option<Classifier>, sr: int, clock: nat -> real, done: seq<seq<int16>>, w: seq<int16>)
    ensures var prev := Emitted(vad, sr, clock, done);
      Emitted(vad, sr, clock, done + [w])
        == if IsSpeechSpec(vad, w, sr) then prev + [AudioFrame(clock(|prev|), ToBytes(w), sr)] else prev
  {
    assert (done + [w])[..|done|] == done;
  }

  // ---------------------------------------------------------------- the object

  class AudioCapture {
    const sampleRate: int
    const chunkSize: int
    const hopSize: int
    const vad: Option<Classifier>
    var buffer: seq<int16>

    /** `__init__`: the sizes come from the settings; the gate is on when
        the settings ask for it and the classifier library is present. */
    constructor(config: Config, vadAvailable: bool, classifier: Classifier)
      ensures sampleRate == config.sampleRate
      ensures chunkSize == ChunkSize(config) && hopSize == HopSize(config)
      ensures vad == (if config.useVad && vadAvailable then Some(classifier) else None)
      ensures buffer == []
    {
      sampleRate := config.sampleRate;
      chunkSize := TruncDiv(config.sampleRate * config.chunkMs, 1000);
      hopSize := TruncDiv(config.sampleRate * config.hopMs, 1000);
      vad := if config.useVad && vadAvailable then Some(classifier) else None;
      buffer := [];
    }

    /** `_is_speech(chunk)`. */
    method IsSpeech(chunk: seq<int16>) returns (r: bool)
      ensures r == IsSpeechSpec(vad, chunk, sampleRate)
    {
      if vad.None? {
        return true;
      }
      var size := TruncDiv(sampleRate * 3, 100);
      if size == 0 {
        return true;
      }
      var i := 0;
      while i < |chunk|
        invariant 0 <= i
        invariant size > 0 ==> IsSpeechSpec(vad, chunk, sampleRate) == AnyVoiced(vad.value, chunk, size, sampleRate, i)
        decreases if size > 0 then |chunk| - i else 0
      {
        if size < 0 {
          return false;
        }
        if i + size <= |chunk| && vad.value(ToBytes(chunk[i..i + size]), sampleRate) != Silence {
          return true;
        }
        i := i + size;
      }
      return false;
    }

    /** One captured block through `frames()`. With the gate on, the block
        joins the buffer and every chunk that fits is examined, the buffer
        moving on by one hop each time; accepted chunks become frames. With
        the gate off, the block becomes one frame as it is. The gate's loop
        only ends when the chunk size and the hop are positive. */
    method OnBlock(block: seq<int16>, clock: nat -> real) returns (frames: seq<AudioFrame>)
      requires vad.Some? ==> chunkSize > 0 && hopSize > 0
      modifies this
      ensures vad.None? ==> frames == [AudioFrame(clock(0), ToBytes(block), sampleRate)] && buffer == old(buffer)
      ensures vad.Some? ==>
        frames == Emitted(vad, sampleRate, clock, Windows(old(buffer) + block, chunkSize, hopSize))
        && buffer == Leftover(old(buffer) + block, chunkSize, hopSize)
    {
      if vad.None? {
        return [AudioFrame(clock(0), ToBytes(block), sampleRate)];
      }
      buffer := buffer + block;
      ghost var b0 := buffer;
      ghost var done: seq<seq<int16>> := [];
      frames := [];
      while |buffer| >= chunkSize
        invariant Windows(b0, chunkSize, hopSize) == done + Windows(buffer, chunkSize, hopSize)
        invariant Leftover(b0, chunkSize, hopSize) == Leftover(buffer, chunkSize, hopSize)
        invariant frames == Emitted(vad, sampleRate, clock, done)
        decreases |buffer|
      {
        var chunk := buffer[..chunkSize];
        SlideStep(b0, done, buffer, chunkSize, hopSize);
        EmittedStep(vad, sampleRate, clock, done, chunk);
        buffer := Drop(buffer, hopSize);
        var speech := IsSpeech(chunk);
        if speech {
          frames := frames + [AudioFrame(clock(|frames|), ToBytes(chunk), sampleRate)];
        }
        done := done + [chunk];
      }
      assert done + [] == done;
    }
  }
}
