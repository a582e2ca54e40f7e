/** The upload side of the HTTP service (`audio_access/api.py`): the settings
    of a request, the cutting of an uploaded recording into frames that go
    through a transcriber (`process_audio_file`), and the answer of
    `POST /transcribe`.

    The recording arrives here already decoded, mixed down to mono and
    resampled to 16 kHz as 16-bit samples. */
module ApiBatch {
  import opened Wrappers
  import opened Events
  import opened Configuration
  import opened OrderedMaps
  import ElevenLabs
  import Summarization
  import Seqs

  /** The rate uploads are resampled to before they are cut. */
  const Rate: nat := 16000

  /** An error answer: HTTP status and detail text. */
  datatype HttpError = HttpError(status: int, detail: string)

  const KeyRequired: string := "ELEVEN_API_KEY required (set in .env or pass as parameter)"

  /** The message of the `ValueError` `range()` raises for a zero step. */
  const ZeroStep: string := "range() arg 3 must not be zero"

  // ---------------------------------------------------------------- request settings

  /** The request key, when one was given and is not empty. */
  predicate GivenKey(formKey: Option<string>) {
    formKey.Some? && formKey.value != []
  }

  /** The settings of a request as the handlers build them: `Config()` is
      validated first, which fails without a server key, and only then does
      the request's key replace the server's. */
  function RequestConfigAsWritten(env: Config, formKey: Option<string>): (r: Result<Config, string>)
    ensures r.Err? <==> env.elevenApiKey == []
    ensures r.Err? ==> r.error == MissingKey
    ensures r.Ok? ==> r.value.elevenApiKey != []
  {
    match PostInit(env)
    case Err(e) => Err(e)
    case Ok(c) => Ok(if GivenKey(formKey) then c.(elevenApiKey := formKey.value) else c)
  }

  /** Without a server key no request gets through, whatever key it
      carries: the request key the handlers document as an alternative is
      never reached. */
  lemma RequestKeyIgnored(env: Config, formKey: Option<string>)
    requires env.elevenApiKey == []
    ensures RequestConfigAsWritten(env, formKey) == Err(PostInit(env).error)
  {
  }

  lemma RequestKeyIgnoredExample()
    ensures RequestConfigAsWritten(Defaults(""), Some("sk-1")).Err?
    ensures RequestConfig(Defaults(""), Some("sk-1")).Ok?
  {
  }

  /** The settings of a request as the handlers evidently intend them: the
      request's key stands in for the server's before validation, so the
      request fails only when neither key is there. */
  function RequestConfig(env: Config, formKey: Option<string>): (r: Result<Config, string>)
    ensures r.Err? <==> env.elevenApiKey == [] && !GivenKey(formKey)
    ensures r.Ok? ==> r.value.elevenApiKey == if GivenKey(formKey) then formKey.value else env.elevenApiKey
    ensures r.Ok? ==> ValidVad(r.value.vadAggressiveness)
  {
    PostInit(if GivenKey(formKey) then env.(elevenApiKey := formKey.value) else env)
  }

  /** Where the server has a key, both orders give the same settings. */
  lemma RequestConfigAgrees(env: Config, formKey: Option<string>)
    requires env.elevenApiKey != []
    ensures RequestConfig(env, formKey) == RequestConfigAsWritten(env, formKey)
  {
  }

  // ---------------------------------------------------------------- chunking

  function Min(a: int, b: int): int {
    if a <= b then a else b
  }

  /** `audio_int16[i:i + step]`. */
  function ChunkAt(samples: seq<int16>, i: nat, step: nat): seq<int16>
    requires i <= |samples|
  {
    samples[i..Min(i + step, |samples|)]
  }

  /** Chunks shorter than half a second are skipped. */
  predicate LongEnough(chunk: seq<int16>) {
    |chunk| as real >= 16000.0 * 0.5
  }

  /** The frame of the chunk that starts at sample `i`, stamped with its
      offset in seconds. */
  function ChunkFrame(samples: seq<int16>, i: nat, step: nat): (f: AudioFrame)
    requires i <= |samples|
    ensures f.sampleRate == Rate && |f.pcm| == 2 * |ChunkAt(samples, i, step)|
  {
    AudioFrame(i as real / 16000.0, ToBytes(ChunkAt(samples, i, step)), Rate)
  }

  /** The frames of the chunks starting at `i`, `i + step`, … */
  function FramesFrom(samples: seq<int16>, i: nat, step: nat): seq<AudioFrame>
    requires step > 0
    decreases |samples| - i
  {
    if i >= |samples| then []
    else
      (if LongEnough(ChunkAt(samples, i, step)) then [ChunkFrame(samples, i, step)] else [])
      + FramesFrom(samples, i + step, step)
  }

  /** `range(0, len(audio), step)` and the frames cut along it: `None` where
      `range` raises (a zero step), no frame for a negative step. */
  function Chunked(samples: seq<int16>, step: int): Option<seq<AudioFrame>> {
    if step == 0 then None
    else if step < 0 then Some([])
    else Some(FramesFrom(samples, 0, step))
  }

  /** Frames come out in time order, no earlier than their starting sample,
      and each holds at least half a second of 16 kHz audio. */
  lemma FramesFromOrdered(samples: seq<int16>, i: nat, step: nat)
    requires step > 0
    ensures var fs := FramesFrom(samples, i, step);
      ElevenLabs.Sorted(fs)
      && forall j :: 0 <= j < |fs| ==>
        i as real / 16000.0 <= fs[j].timestamp && fs[j].sampleRate == Rate && |fs[j].pcm| >= Rate
  {
    FramesFromSorted(samples, i, step);
    FramesFromBounds(samples, i, step);
  }

  /** Every frame starts at or after `t`, is at 16 kHz and holds at least
      half a second of audio. */
  predicate FramesAfter(fs: seq<AudioFrame>, t: real) {
    forall j :: 0 <= j < |fs| ==> t <= fs[j].timestamp && fs[j].sampleRate == Rate && |fs[j].pcm| >= Rate
  }

  lemma {:induction false} FramesFromBounds(samples: seq<int16>, i: nat, step: nat)
    requires step > 0
    ensures FramesAfter(FramesFrom(samples, i, step), i as real / 16000.0)
    decreases |samples| - i
  {
    if i < |samples| {
      var fs := FramesFrom(samples, i, step);
      var rest := FramesFrom(samples, i + step, step);
      FramesFromBounds(samples, i + step, step);
      Later(i, i + step);
      var head := if LongEnough(ChunkAt(samples, i, step)) then [ChunkFrame(samples, i, step)] else [];
      assert fs == head + rest;
      assert 2 * |ChunkAt(samples, i, step)| >= Rate || head == [];
      forall j | 0 <= j < |fs|
        ensures i as real / 16000.0 <= fs[j].timestamp && fs[j].sampleRate == Rate && |fs[j].pcm| >= Rate
      {
        if j >= |head| {
          assert fs[j] == rest[j - |head|];
        }
      }
    }
  }

  lemma {:induction false} FramesFromSorted(samples: seq<int16>, i: nat, step: nat)
    requires step > 0
    ensures ElevenLabs.Sorted(FramesFrom(samples, i, step))
    decreases |samples| - i
  {
    if i < |samples| {
      var fs := FramesFrom(samples, i, step);
      var rest := FramesFrom(samples, i + step, step);
      FramesFromSorted(samples, i + step, step);
      FramesFromBounds(samples, i + step, step);
      Later(i, i + step);
      var head := if LongEnough(ChunkAt(samples, i, step)) then [ChunkFrame(samples, i, step)] else [];
      assert fs == head + rest;
      forall a, b | 0 <= a < b < |fs|
        ensures fs[a].timestamp <= fs[b].timestamp
      {
        assert fs[b] == rest[b - |head|];
        if a >= |head| {
          assert fs[a] == rest[a - |head|];
        }
      }
    }
  }

  /** A later sample has a later offset in seconds. */
  lemma Later(a: nat, b: nat)
    requires a <= b
    ensures a as real / 16000.0 <= b as real / 16000.0
  {
  }

  /** When a chunk is at least half a second long, only the last one can be
      skipped, so frame `j` is the chunk at sample `i + j * step`. */
  lemma FramesFromAt(samples: seq<int16>, i: nat, step: nat)
    requires 2 * step >= Rate
    ensures var fs := FramesFrom(samples, i, step);
      forall j :: 0 <= j < |fs| ==> i + j * step < |samples| && fs[j] == ChunkFrame(samples, i + j * step, step)
  {
    forall j | 0 <= j < |FramesFrom(samples, i, step)|
      ensures i + j * step < |samples| && FramesFrom(samples, i, step)[j] == ChunkFrame(samples, i + j * step, step)
    {
      FrameAt(samples, i, step, j);
    }
  }

  lemma {:induction false} FrameAt(samples: seq<int16>, i: nat, step: nat, j: nat)
    requires 2 * step >= Rate && j < |FramesFrom(samples, i, step)|
    ensures i + j * step < |samples| && FramesFrom(samples, i, step)[j] == ChunkFrame(samples, i + j * step, step)
    decreases j
  {
    var fs := FramesFrom(samples, i, step);
    assert i < |samples|;
    var rest := FramesFrom(samples, i + step, step);
    var head := if LongEnough(ChunkAt(samples, i, step)) then [ChunkFrame(samples, i, step)] else [];
    assert fs == head + rest;
    if i + step < |samples| {
      assert |ChunkAt(samples, i, step)| == step;
      assert |head| == 1;
      if j > 0 {
        assert fs[j] == rest[j - 1];
        FrameAt(samples, i + step, step, j - 1);
        Shift(i, j, step);
      }
    } else {
      assert rest == [];
    }
  }

  /** The frames reach the end of the audio, except at most for a tail
      shorter than half a second, and the last one starts before the end. */
  lemma {:induction false} FramesFromCover(samples: seq<int16>, i: nat, step: nat)
    requires 2 * step >= Rate
    ensures var fs := FramesFrom(samples, i, step); var e := i + |fs| * step;
      (e >= |samples| || (2 * (|samples| - e) < Rate && |samples| <= e + step))
      && (fs != [] ==> e < |samples| + step)
    decreases |samples| - i
  {
    var fs := FramesFrom(samples, i, step);
    if i >= |samples| {
      assert |fs| == 0;
    } else {
      var rest := FramesFrom(samples, i + step, step);
      var head := if LongEnough(ChunkAt(samples, i, step)) then [ChunkFrame(samples, i, step)] else [];
      assert fs == head + rest;
      assert |fs| == |head| + |rest|;
      if i + step < |samples| {
        assert |ChunkAt(samples, i, step)| == step;
        assert |head| == 1;
        FramesFromCover(samples, i + step, step);
        var n := |rest|;
        assert |fs| == n + 1;
        Shift(i, n + 1, step);
      } else {
        assert rest == [];
        LastChunk(samples, i, step);
      }
    }
  }

  /** The chunk that reaches the end of the audio is kept exactly when it
      is at least half a second long. */
  lemma LastChunk(samples: seq<int16>, i: nat, step: nat)
    requires 2 * step >= Rate && i < |samples| <= i + step
    ensures var fs := FramesFrom(samples, i, step);
      (|fs| == 1 && 2 * (|samples| - i) >= Rate) || (|fs| == 0 && 2 * (|samples| - i) < Rate)
  {
    assert FramesFrom(samples, i + step, step) == [];
    assert |ChunkAt(samples, i, step)| == |samples| - i;
  }

  lemma Shift(i: nat, j: nat, step: nat)
    requires j >= 1
    ensures (i + step) + (j - 1) * step == i + j * step
  {
  }

  // ---------------------------------------------------------------- a whole upload

  /** Frames fed in order, then one more flush of whatever is still
      buffered; the segments of every flush, in order, and the transcriber's
      final state. */
  function Batch(samples: seq<int16>, step: int, chunkDuration: real, backend: ElevenLabs.Backend): Option<ElevenLabs.Outcome> {
    match Chunked(samples, step)
    case None => None
    case Some(frames) =>
      var run := ElevenLabs.IngestAll(ElevenLabs.Initial(), chunkDuration, frames, backend);
      var last := ElevenLabs.Process(run.state, backend);
      Some(ElevenLabs.Outcome(run.segments + last.segments, last.state))
  }

  /** After an upload nothing is left buffered, and the watermark is the
      timestamp of the last frame (none moved it otherwise). */
  lemma BatchDrains(samples: seq<int16>, step: int, chunkDuration: real, backend: ElevenLabs.Backend)
    requires Batch(samples, step, chunkDuration, backend).Some?
    ensures var r := Batch(samples, step, chunkDuration, backend).value.state;
      var frames := Chunked(samples, step).value;
      r.buffer == []
      && r.lastSentTime == if frames == [] then 0.0 else frames[|frames| - 1].timestamp
  {
    var frames := Chunked(samples, step).value;
    var run := ElevenLabs.IngestAll(ElevenLabs.Initial(), chunkDuration, frames, backend);
    assert Batch(samples, step, chunkDuration, backend).value.state == ElevenLabs.Process(run.state, backend).state;
    if frames != [] {
      IngestAllLast(ElevenLabs.Initial(), chunkDuration, frames, backend);
    } else {
      assert run.state == ElevenLabs.Initial();
    }
  }

  /** After a non-empty run of frames, either the last frame was flushed, or
      it is still the newest frame in the buffer. */
  lemma {:induction false} IngestAllLast(s: ElevenLabs.State, chunkDuration: real, frames: seq<AudioFrame>, backend: ElevenLabs.Backend)
    requires frames != []
    ensures LastKept(ElevenLabs.IngestAll(s, chunkDuration, frames, backend).state, frames[|frames| - 1])
    decreases |frames|
  {
    var first := ElevenLabs.Ingest(s, chunkDuration, frames[0], backend);
    var rest := ElevenLabs.IngestAll(first.state, chunkDuration, frames[1..], backend);
    assert ElevenLabs.IngestAll(s, chunkDuration, frames, backend).state == rest.state;
    if |frames| > 1 {
      IngestAllLast(first.state, chunkDuration, frames[1..], backend);
      assert frames[1..][|frames[1..]| - 1] == frames[|frames| - 1];
    } else {
      IngestLast(s, chunkDuration, frames[0], backend);
    }
  }

  /** The frame `f` was flushed, or it is still the newest buffered frame. */
  predicate LastKept(r: ElevenLabs.State, f: AudioFrame) {
    (r.buffer == [] && r.lastSentTime == f.timestamp) || (r.buffer != [] && r.buffer[|r.buffer| - 1] == f)
  }

  lemma IngestLast(s: ElevenLabs.State, chunkDuration: real, f: AudioFrame, backend: ElevenLabs.Backend)
    ensures LastKept(ElevenLabs.Ingest(s, chunkDuration, f, backend).state, f)
  {
  }

  /** The transcriber's handling of one frame: `add_audio`, then
      `process_buffer` when `should_process` holds. */
  method FeedFrame(transcriber: ElevenLabs.Transcriber, frame: AudioFrame, backend: ElevenLabs.Backend)
    returns (segments: seq<TranscriptSegment>)
    modifies transcriber
    ensures ElevenLabs.Outcome(segments, transcriber.Model())
      == ElevenLabs.Ingest(old(transcriber.Model()), transcriber.chunkDuration, frame, backend)
  {
    transcriber.AddAudio(frame);
    segments := [];
    if transcriber.ShouldProcessAt(frame.timestamp) {
      segments := transcriber.ProcessBuffer(backend);
    }
  }

  /** `process_audio_file` after decoding: `None` where it raises. */
  method ProcessAudioFile(samples: seq<int16>, config: Config, chunkDuration: int, backend: ElevenLabs.Backend)
    returns (r: Option<seq<TranscriptSegment>>)
    requires config.elevenApiKey != []
    ensures var b := Batch(samples, chunkDuration * Rate, config.elevenlabsChunkDuration as real, backend);
      r.Some? == b.Some? && (r.Some? ==> r.value == b.value.segments)
  {
    var step := chunkDuration * Rate;
    if step == 0 {
      return None;
    }
    var transcriber := new ElevenLabs.Transcriber(config);
    var all: seq<TranscriptSegment> := [];
    if step > 0 {
      all := FeedChunks(transcriber, samples, step, backend);
    }
    if transcriber.audioBuffer != [] {
      var segments := transcriber.ProcessBuffer(backend);
      all := all + segments;
    }
    r := Some(all);
  }

  /** The chunking loop of `process_audio_file`. */
  method FeedChunks(transcriber: ElevenLabs.Transcriber, samples: seq<int16>, step: nat, backend: ElevenLabs.Backend)
    returns (all: seq<TranscriptSegment>)
    requires step > 0
    modifies transcriber
    ensures ElevenLabs.Outcome(all, transcriber.Model())
      == ElevenLabs.IngestAll(old(transcriber.Model()), transcriber.chunkDuration, FramesFrom(samples, 0, step), backend)
  {
    var cd := transcriber.chunkDuration;
    ghost var whole := CutFrom(transcriber.Model(), cd, samples, 0, step, backend);
    all := [];
    var i: nat := 0;
    while i < |samples|
      invariant var rest := CutFrom(transcriber.Model(), cd, samples, i, step, backend);
        whole == ElevenLabs.Outcome(all + rest.segments, rest.state)
      decreases |samples| - i
    {
      ghost var before := transcriber.Model();
      assert CutFrom(before, cd, samples, i, step, backend) == CutStep(before, cd, samples, i, step, backend);
      var chunk := samples[i..Min(i + step, |samples|)];
      if !LongEnough(chunk) {
        i := i + step;
        continue;
      }
      var segments := FeedChunk(transcriber, samples, i, step, backend);
      Seqs.AppendAssoc(all, segments, CutFrom(transcriber.Model(), cd, samples, i + step, step, backend).segments);
      all := all + segments;
      i := i + step;
    }
    assert CutFrom(transcriber.Model(), cd, samples, i, step, backend) == ElevenLabs.Outcome([], transcriber.Model());
    CutFromFrames(old(transcriber.Model()), cd, samples, 0, step, backend);
  }

  /** One kept chunk: its frame goes to the transcriber. */
  method FeedChunk(transcriber: ElevenLabs.Transcriber, samples: seq<int16>, i: nat, step: nat, backend: ElevenLabs.Backend)
    returns (segments: seq<TranscriptSegment>)
    requires step > 0 && i < |samples| && LongEnough(ChunkAt(samples, i, step))
    modifies transcriber
    ensures var cd := transcriber.chunkDuration;
      var rest := CutFrom(transcriber.Model(), cd, samples, i + step, step, backend);
      CutStep(old(transcriber.Model()), cd, samples, i, step, backend) == ElevenLabs.Outcome(segments + rest.segments, rest.state)
  {
    var frame := AudioFrame(i as real / 16000.0, ToBytes(samples[i..Min(i + step, |samples|)]), Rate);
    segments := FeedFrame(transcriber, frame, backend);
  }

  /** The loop's own account of the chunks from sample `i` on; equal to
      feeding `FramesFrom` (`CutFromFrames`). */
  function CutFrom(s: ElevenLabs.State, cd: real, samples: seq<int16>, i: nat, step: nat, backend: ElevenLabs.Backend): ElevenLabs.Outcome
    requires step > 0
    decreases |samples| - i, 1
  {
    if i >= |samples| then ElevenLabs.Outcome([], s) else CutStep(s, cd, samples, i, step, backend)
  }

  function CutStep(s: ElevenLabs.State, cd: real, samples: seq<int16>, i: nat, step: nat, backend: ElevenLabs.Backend): ElevenLabs.Outcome
    requires step > 0 && i < |samples|
    decreases |samples| - i, 0
  {
    if LongEnough(ChunkAt(samples, i, step)) then
      var first := ElevenLabs.Ingest(s, cd, ChunkFrame(samples, i, step), backend);
      var rest := CutFrom(first.state, cd, samples, i + step, step, backend);
      ElevenLabs.Outcome(first.segments + rest.segments, rest.state)
    else CutFrom(s, cd, samples, i + step, step, backend)
  }

  lemma {:induction false} CutFromFrames(s: ElevenLabs.State, cd: real, samples: seq<int16>, i: nat, step: nat, backend: ElevenLabs.Backend)
    requires step > 0
    ensures CutFrom(s, cd, samples, i, step, backend) == ElevenLabs.IngestAll(s, cd, FramesFrom(samples, i, step), backend)
    decreases |samples| - i, 1
  {
    if i < |samples| {
      if LongEnough(ChunkAt(samples, i, step)) {
        CutKeptStep(s, cd, samples, i, step, backend);
      } else {
        CutFromFrames(s, cd, samples, i + step, step, backend);
        CutSkipped(s, cd, samples, i, step, backend);
      }
    }
  }

  lemma {:induction false} CutKeptStep(s: ElevenLabs.State, cd: real, samples: seq<int16>, i: nat, step: nat, backend: ElevenLabs.Backend)
    requires step > 0 && i < |samples| && LongEnough(ChunkAt(samples, i, step))
    ensures CutFrom(s, cd, samples, i, step, backend) == ElevenLabs.IngestAll(s, cd, FramesFrom(samples, i, step), backend)
    decreases |samples| - i, 0
  {
    var t := ElevenLabs.Ingest(s, cd, ChunkFrame(samples, i, step), backend).state;
    CutFromFrames(t, cd, samples, i + step, step, backend);
    CutKept(s, t, cd, samples, i, step, backend);
  }

  lemma CutKept(s: ElevenLabs.State, t: ElevenLabs.State, cd: real, samples: seq<int16>, i: nat, step: nat, backend: ElevenLabs.Backend)
    requires step > 0 && i < |samples| && LongEnough(ChunkAt(samples, i, step))
    requires t == ElevenLabs.Ingest(s, cd, ChunkFrame(samples, i, step), backend).state
    requires CutFrom(t, cd, samples, i + step, step, backend) == ElevenLabs.IngestAll(t, cd, FramesFrom(samples, i + step, step), backend)
    ensures CutFrom(s, cd, samples, i, step, backend) == ElevenLabs.IngestAll(s, cd, FramesFrom(samples, i, step), backend)
  {
    assert CutFrom(s, cd, samples, i, step, backend) == CutStep(s, cd, samples, i, step, backend);
    CutOne(samples, i, step, s, cd, backend);
  }

  lemma CutSkipped(s: ElevenLabs.State, cd: real, samples: seq<int16>, i: nat, step: nat, backend: ElevenLabs.Backend)
    requires step > 0 && i < |samples| && !LongEnough(ChunkAt(samples, i, step))
    requires CutFrom(s, cd, samples, i + step, step, backend)
      == ElevenLabs.IngestAll(s, cd, FramesFrom(samples, i + step, step), backend)
    ensures CutFrom(s, cd, samples, i, step, backend) == ElevenLabs.IngestAll(s, cd, FramesFrom(samples, i, step), backend)
  {
    assert CutFrom(s, cd, samples, i, step, backend) == CutStep(s, cd, samples, i, step, backend);
    SkipOne(samples, i, step);
  }

  /** A skipped chunk adds no frame. */
  lemma SkipOne(samples: seq<int16>, i: nat, step: nat)
    requires step > 0 && i < |samples| && !LongEnough(ChunkAt(samples, i, step))
    ensures FramesFrom(samples, i, step) == FramesFrom(samples, i + step, step)
  {
    assert FramesFrom(samples, i, step) == [] + FramesFrom(samples, i + step, step);
  }

  /** One kept chunk, fed and then the rest. */
  lemma CutOne(samples: seq<int16>, i: nat, step: nat, s: ElevenLabs.State, cd: real, backend: ElevenLabs.Backend)
    requires step > 0 && i < |samples| && LongEnough(ChunkAt(samples, i, step))
    ensures var first := ElevenLabs.Ingest(s, cd, ChunkFrame(samples, i, step), backend);
      var rest := ElevenLabs.IngestAll(first.state, cd, FramesFrom(samples, i + step, step), backend);
      ElevenLabs.IngestAll(s, cd, FramesFrom(samples, i, step), backend)
        == ElevenLabs.Outcome(first.segments + rest.segments, rest.state)
  {
    var fs := FramesFrom(samples, i, step);
    assert fs == [ChunkFrame(samples, i, step)] + FramesFrom(samples, i + step, step);
    assert fs[1..] == FramesFrom(samples, i + step, step);
  }

  // ---------------------------------------------------------------- POST /transcribe

  /** `max(seg.end_time for seg in segments) if segments else 0`. */
  function MaxEnd(segs: seq<TranscriptSegment>): (r: real)
    ensures segs == [] ==> r == 0.0
    ensures forall i :: 0 <= i < |segs| ==> segs[i].endTime <= r
    ensures segs != [] ==> exists i :: 0 <= i < |segs| && segs[i].endTime == r
  {
    if segs == [] then 0.0
    else if |segs| == 1 then segs[0].endTime
    else
      var m := MaxEnd(segs[..|segs| - 1]);
      var e := segs[|segs| - 1].endTime;
      if e > m then e else m
  }

  /** The distinct speaker ids of the segments. */
  function SpeakerSet(segs: seq<TranscriptSegment>): set<string> {
    set i | 0 <= i < |segs| :: segs[i].speakerId
  }

  /** There are never more speakers than segments, and at least one when
      there is a segment. */
  lemma {:induction false} SpeakerSetSize(segs: seq<TranscriptSegment>)
    ensures |SpeakerSet(segs)| <= |segs|
    ensures segs != [] ==> |SpeakerSet(segs)| >= 1
  {
    if segs != [] {
      var init := segs[..|segs| - 1];
      SpeakerSetSize(init);
      assert SpeakerSet(segs) == SpeakerSet(init) + {segs[|segs| - 1].speakerId} by {
        forall id | id in SpeakerSet(segs)
          ensures id in SpeakerSet(init) + {segs[|segs| - 1].speakerId}
        {
          var i :| 0 <= i < |segs| && segs[i].speakerId == id;
          if i < |segs| - 1 {
            assert init[i] == segs[i];
          }
        }
        forall id | id in SpeakerSet(init)
          ensures id in SpeakerSet(segs)
        {
          var i :| 0 <= i < |init| && init[i].speakerId == id;
          assert segs[i] == init[i];
        }
      }
      assert segs[0].speakerId in SpeakerSet(segs);
    }
  }

  /** The summary and counters of a finished upload. */
  datatype Summary = Summary(sections: OrderedMap<string, string>, stats: Summarization.Stats)

  datatype TranscriptResponse = TranscriptResponse(
    segments: seq<TranscriptSegment>,
    summary: Option<Summary>,
    duration: real,
    speakersDetected: nat)

  /** A fresh summarizer fed every segment. */
  function Summarize(segs: seq<TranscriptSegment>): Summary {
    var t := Summarization.AddAll(Empty(), segs);
    Summary(Summarization.SessionSummary(t), Summarization.GetStats(t))
  }

  /** The answer built from the settings of a request once they are
      valid. */
  function Answer(config: Config, samples: seq<int16>, chunkDuration: int,
                  generateSummary: bool, backend: ElevenLabs.Backend): Result<TranscriptResponse, HttpError>
  {
    match Batch(samples, chunkDuration * Rate, config.elevenlabsChunkDuration as real, backend)
    case None => Err(HttpError(500, ZeroStep))
    case Some(out) =>
      var segs := out.segments;
      Ok(TranscriptResponse(
        segs,
        if generateSummary && segs != [] then Some(Summarize(segs)) else None,
        MaxEnd(segs),
        |SpeakerSet(segs)|))
  }

  /** The text of the 400 exception once the catch-all handler turns it into
      a 500: the framework's `HTTPException` renders as "status: detail". */
  const KeyRequiredCaught: string := "400: " + KeyRequired

  /** `transcribe_audio` once the upload is decoded, as written: every
      exception raised inside the `try`, the settings' `ValueError` and the
      handler's own 400 alike, comes back as a 500 carrying its text. */
  function TranscribeAudio(env: Config, formKey: Option<string>, samples: seq<int16>, chunkDuration: int,
                           generateSummary: bool, backend: ElevenLabs.Backend): Result<TranscriptResponse, HttpError>
  {
    match RequestConfigAsWritten(env, formKey)
    case Err(e) => Err(HttpError(500, e))
    case Ok(config) =>
      if config.elevenApiKey == [] then Err(HttpError(500, KeyRequiredCaught))
      else Answer(config, samples, chunkDuration, generateSummary, backend)
  }

  /** The answer as written: a 500 with the missing-key message exactly when
      the server has no key, whatever key the request carries; a 500 for a
      zero chunk length otherwise; never a 400. A successful answer has a
      summary exactly when one was asked for and there is a segment, the
      latest end time, and the number of distinct speakers. */
  lemma TranscribeAudioSpec(env: Config, formKey: Option<string>, samples: seq<int16>, chunkDuration: int,
                            generateSummary: bool, backend: ElevenLabs.Backend)
    ensures var r := TranscribeAudio(env, formKey, samples, chunkDuration, generateSummary, backend);
      (r == Err(HttpError(500, MissingKey)) <==> env.elevenApiKey == [])
      && (r == Err(HttpError(500, ZeroStep)) <==> env.elevenApiKey != [] && chunkDuration == 0)
      && (r.Err? ==> r.error.status == 500)
      && (r.Ok? ==>
            r.value.summary.Some? == (generateSummary && r.value.segments != [])
            && r.value.speakersDetected <= |r.value.segments|
            && (r.value.segments == [] ==> r.value.duration == 0.0)
            && forall i :: 0 <= i < |r.value.segments| ==> r.value.segments[i].endTime <= r.value.duration)
  {
    var r := TranscribeAudio(env, formKey, samples, chunkDuration, generateSummary, backend);
    if r.Ok? {
      SpeakerSetSize(r.value.segments);
    }
  }

  /** `transcribe_audio` as evidently intended: the request's key stands in
      for a missing server key, and a request with no key at all is refused
      with a 400. */
  function TranscribeAudioIntended(env: Config, formKey: Option<string>, samples: seq<int16>, chunkDuration: int,
                                   generateSummary: bool, backend: ElevenLabs.Backend): Result<TranscriptResponse, HttpError>
  {
    match RequestConfig(env, formKey)
    case Err(_) => Err(HttpError(400, KeyRequired))
    case Ok(config) => Answer(config, samples, chunkDuration, generateSummary, backend)
  }

  /** The intended answer: 400 exactly when there is no key at all, 500
      exactly for a zero chunk length; a successful answer is as above. */
  lemma TranscribeAudioIntendedSpec(env: Config, formKey: Option<string>, samples: seq<int16>, chunkDuration: int,
                                    generateSummary: bool, backend: ElevenLabs.Backend)
    ensures var r := TranscribeAudioIntended(env, formKey, samples, chunkDuration, generateSummary, backend);
      (r == Err(HttpError(400, KeyRequired)) <==> env.elevenApiKey == [] && !GivenKey(formKey))
      && (r == Err(HttpError(500, ZeroStep)) <==> (env.elevenApiKey != [] || GivenKey(formKey)) && chunkDuration == 0)
      && (r.Ok? ==>
            r.value.summary.Some? == (generateSummary && r.value.segments != [])
            && r.value.speakersDetected <= |r.value.segments|
            && (r.value.segments == [] ==> r.value.duration == 0.0)
            && forall i :: 0 <= i < |r.value.segments| ==> r.value.segments[i].endTime <= r.value.duration)
  {
    var r := TranscribeAudioIntended(env, formKey, samples, chunkDuration, generateSummary, backend);
    if r.Ok? {
      SpeakerSetSize(r.value.segments);
    }
  }

  /** No server key and the request key `sk-1`: the written endpoint answers
      500 with the missing-key message, where the intended one goes on to
      transcribe. */
  lemma TranscribeAudioKeyExample(samples: seq<int16>, generateSummary: bool, backend: ElevenLabs.Backend)
    ensures TranscribeAudio(Defaults(""), Some("sk-1"), samples, 5, generateSummary, backend) == Err(HttpError(500, MissingKey))
    ensures TranscribeAudioIntended(Defaults(""), Some("sk-1"), samples, 5, generateSummary, backend).Ok?
  {
  }

  /** Where the server has a key, the written and the intended answers are
      the same. */
  lemma TranscribeAudioAgrees(env: Config, formKey: Option<string>, samples: seq<int16>, chunkDuration: int,
                              generateSummary: bool, backend: ElevenLabs.Backend)
    requires env.elevenApiKey != []
    ensures TranscribeAudio(env, formKey, samples, chunkDuration, generateSummary, backend)
         == TranscribeAudioIntended(env, formKey, samples, chunkDuration, generateSummary, backend)
  {
    RequestConfigAgrees(env, formKey);
  }

  /** In the summary every segment is filed under its speaker, in the
      order it was produced. */
  lemma SummarizeLists(segs: seq<TranscriptSegment>, id: string)
    ensures Summarization.ListOf(Summarization.AddAll(Empty(), segs), id) == Summarization.OfSpeaker(segs, id)
  {
    Summarization.AddAllLists(Empty(), segs, id);
  }
}
