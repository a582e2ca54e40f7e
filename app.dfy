/** The application loop (`audio_access/main.py`, `DeafineApp`): each frame
    goes to the transcriber; every segment of a flush is shown on the board,
    marks its speaker active at the frame's timestamp and goes to the
    summarizer; then the overlap indicator is recomputed from the speakers
    active in the last two seconds. */
module App {
  import opened Wrappers
  import opened Events
  import opened OrderedMaps
  import opened Configuration
  import Text
  import ElevenLabs
  import ConsoleUi
  import Summarization
  import Seqs

  // ---------------------------------------------------------------- overlap

  /** How long a speaker counts as active after its last segment. */
  const OverlapWindow: real := 2.0

  /** `active_speakers`: speaker id to the time it was last active. */
  type Activity = OrderedMap<string, real>

  /** The speakers active at `now`: strictly less than two seconds ago. */
  function Recent(active: Activity, now: real): set<string> {
    set spk | spk in active.values && now - active.values[spk] < OverlapWindow
  }

  /** `_check_overlap(now)`. */
  predicate CheckOverlap(active: Activity, now: real) {
    |Recent(active, now)| > 1
  }

  /** An overlap is two different speakers both active at `now`. */
  lemma OverlapIff(active: Activity, now: real)
    ensures CheckOverlap(active, now) <==>
      exists a, b :: a in active.values && b in active.values && a != b
        && now - active.values[a] < OverlapWindow && now - active.values[b] < OverlapWindow
  {
    var r := Recent(active, now);
    if |r| > 1 {
      var a :| a in r;
      assert |r - {a}| == |r| - 1;
      var b :| b in r - {a};
    }
    if exists a, b :: a in active.values && b in active.values && a != b
        && now - active.values[a] < OverlapWindow && now - active.values[b] < OverlapWindow {
      var a, b :| a in active.values && b in active.values && a != b
        && now - active.values[a] < OverlapWindow && now - active.values[b] < OverlapWindow;
      assert {a, b} <= r;
      assert |{a, b}| == 2;
      SubsetCard({a, b}, r);
    }
  }

  lemma SubsetCard(a: set<string>, b: set<string>)
    requires a <= b
    ensures |a| <= |b|
  {
    assert b == a + (b - a);
  }

  /** A at 10.0 and B at 10.5 overlap at 10.5 but not at 13.0; a speaker
      last active exactly two seconds earlier no longer counts. */
  lemma OverlapExample()
    ensures var act := Empty<string, real>().Put("A", 10.0).Put("B", 10.5);
      CheckOverlap(act, 10.5) && !CheckOverlap(act, 13.0) && !CheckOverlap(act, 12.0)
  {
    var act := Empty<string, real>().Put("A", 10.0).Put("B", 10.5);
    assert Recent(act, 10.5) == {"A", "B"};
    assert |{"A", "B"}| == 2;
    assert Recent(act, 13.0) == {};
    assert Recent(act, 12.0) == {"B"};
  }

  // ---------------------------------------------------------------- one frame

  /** The parts of the application a frame changes. */
  datatype AppState = AppState(
    transcriber: ElevenLabs.State,
    active: Activity,
    board: ConsoleUi.Board,
    transcripts: Summarization.Transcripts)

  ghost predicate ValidApp(s: AppState) {
    s.active.Valid() && s.board.speakers.Valid() && s.transcripts.Valid()
  }

  /** The state reached and whether the loop goes on: `ok` is false when
      the board raised and the loop ended in its exception handler. */
  datatype Fed = Fed(state: AppState, ok: bool)

  /** `add_speaker` then `update_caption` for a segment. */
  function Show(b: ConsoleUi.Board, seg: TranscriptSegment): (r: Option<ConsoleUi.Board>)
    requires b.speakers.Valid()
    ensures r.Some? ==> r.value.speakers.Valid()
  {
    match ConsoleUi.WithSpeaker(b, seg.speakerId)
    case Some(b1) => ConsoleUi.WithCaption(b1, seg.speakerId, seg.text)
    case None => None
  }

  /** One segment of a flush at frame time `t`: board, activity, summarizer. */
  function Feed(s: AppState, seg: TranscriptSegment, t: real): (r: Fed)
    requires ValidApp(s)
    ensures ValidApp(r.state)
  {
    match Show(s.board, seg)
    case Some(b) =>
      Fed(s.(board := b, active := s.active.Put(seg.speakerId, t),
             transcripts := Summarization.Added(s.transcripts, seg)), true)
    case None => Fed(s, false)
  }

  /** The segments of a flush in emission order, up to the first failure. */
  function FeedAll(s: AppState, segs: seq<TranscriptSegment>, t: real): (r: Fed)
    requires ValidApp(s)
    ensures ValidApp(r.state)
  {
    if segs == [] then Fed(s, true)
    else
      var prev := FeedAll(s, segs[..|segs| - 1], t);
      if prev.ok then Feed(prev.state, segs[|segs| - 1], t) else prev
  }

  /** The overlap indicator: on with every known speaker listed, or off. */
  function WithOverlapCheck(s: AppState, now: real): (r: AppState)
    requires ValidApp(s)
    ensures ValidApp(r)
  {
    if CheckOverlap(s.active, now) then s.(board := ConsoleUi.WithOverlap(s.board, true, Some(s.active.keys)))
    else s.(board := ConsoleUi.WithOverlap(s.board, false, None))
  }

  /** The body of the loop of `run` for one frame. */
  function Step(s: AppState, chunkDuration: real, frame: AudioFrame, backend: ElevenLabs.Backend): (r: Fed)
    requires ValidApp(s)
    ensures ValidApp(r.state)
  {
    var out := ElevenLabs.Ingest(s.transcriber, chunkDuration, frame, backend);
    var fed := FeedAll(s.(transcriber := out.state), out.segments, frame.timestamp);
    if fed.ok then Fed(WithOverlapCheck(fed.state, frame.timestamp), true) else fed
  }

  /** The loop over the frames, ending at the first failure. */
  function RunFrames(s: AppState, chunkDuration: real, frames: seq<AudioFrame>, backend: ElevenLabs.Backend): (r: Fed)
    requires ValidApp(s)
    ensures ValidApp(r.state)
    decreases |frames|, 2
  {
    if frames == [] then Fed(s, true) else LastFrame(s, chunkDuration, frames, backend)
  }

  /** The last of the frames, after the ones before it. */
  function LastFrame(s: AppState, chunkDuration: real, frames: seq<AudioFrame>, backend: ElevenLabs.Backend): (r: Fed)
    requires ValidApp(s) && frames != []
    ensures ValidApp(r.state)
    decreases |frames|, 1
  {
    var prev := RunFrames(s, chunkDuration, frames[..|frames| - 1], backend);
    if prev.ok then StepLast(s, chunkDuration, frames, backend) else prev
  }

  function StepLast(s: AppState, chunkDuration: real, frames: seq<AudioFrame>, backend: ElevenLabs.Backend): (r: Fed)
    requires ValidApp(s) && frames != []
    ensures ValidApp(r.state)
    decreases |frames|, 0
  {
    Step(RunFrames(s, chunkDuration, frames[..|frames| - 1], backend).state, chunkDuration, frames[|frames| - 1], backend)
  }

  // ---------------------------------------------------------------- properties

  /** The speaker ids of the segments, in order. */
  function Ids(segs: seq<TranscriptSegment>): seq<string> {
    if segs == [] then [] else Ids(segs[..|segs| - 1]) + [segs[|segs| - 1].speakerId]
  }

  /** After a flush is fed, each speaker of the flush is active at the
      frame's time, every other speaker keeps its time, no speaker is
      removed and known speakers keep their place. */
  lemma {:induction false} FeedAllActivity(s: AppState, segs: seq<TranscriptSegment>, t: real, id: string)
    requires ValidApp(s) && FeedAll(s, segs, t).ok
    ensures var a := FeedAll(s, segs, t).state.active;
      (id in Ids(segs) ==> id in a.values && a.values[id] == t)
      && (id !in Ids(segs) ==> (id in a.values <==> id in s.active.values))
      && (id !in Ids(segs) && id in s.active.values ==> a.values[id] == s.active.values[id])
      && s.active.keys <= a.keys
  {
    if segs != [] {
      var init := segs[..|segs| - 1];
      FeedAllActivity(s, init, t, id);
      assert id in Ids(segs) <==> id in Ids(init) || id == segs[|segs| - 1].speakerId;
    }
  }

  /** After a flush is fed, each speaker's transcript list has grown by
      exactly that speaker's segments of the flush, in emission order. */
  lemma {:induction false} FeedAllTranscripts(s: AppState, segs: seq<TranscriptSegment>, t: real, id: string)
    requires ValidApp(s) && FeedAll(s, segs, t).ok
    ensures Summarization.ListOf(FeedAll(s, segs, t).state.transcripts, id)
      == Summarization.ListOf(s.transcripts, id) + Summarization.OfSpeaker(segs, id)
  {
    if segs != [] {
      var init, last := segs[..|segs| - 1], segs[|segs| - 1];
      var extra := if last.speakerId == id then [last] else [];
      var before, mine := Summarization.ListOf(s.transcripts, id), Summarization.OfSpeaker(init, id);
      assert Summarization.OfSpeaker(segs, id) == mine + extra;
      Seqs.AppendAssoc(before, mine, extra);
      FeedAllTranscripts(s, init, t, id);
      FeedTranscripts(FeedAll(s, init, t).state, last, t, id);
    }
  }

  lemma FeedTranscripts(s: AppState, seg: TranscriptSegment, t: real, id: string)
    requires ValidApp(s) && Feed(s, seg, t).ok
    ensures Summarization.ListOf(Feed(s, seg, t).state.transcripts, id)
      == Summarization.ListOf(s.transcripts, id) + (if seg.speakerId == id then [seg] else [])
  {
    Summarization.AddedOnly(s.transcripts, seg, id);
  }

  /** Whatever happens, the transcriber state is the one the flush left. */
  lemma {:induction false} FeedAllTranscriber(s: AppState, segs: seq<TranscriptSegment>, t: real)
    requires ValidApp(s)
    ensures FeedAll(s, segs, t).state.transcriber == s.transcriber
  {
    if segs != [] {
      FeedAllTranscriber(s, segs[..|segs| - 1], t);
    }
  }

  /** Once a prefix fails the rest is not fed. */
  lemma {:induction false} FeedAllStops(s: AppState, segs: seq<TranscriptSegment>, t: real, i: nat)
    requires ValidApp(s) && i <= |segs| && !FeedAll(s, segs[..i], t).ok
    ensures FeedAll(s, segs, t) == FeedAll(s, segs[..i], t)
    decreases |segs| - i
  {
    if i < |segs| {
      Seqs.PrefixOfPrefix(segs, i);
      FeedAllStops(s, segs, t, i + 1);
    } else {
      assert segs[..i] == segs;
    }
  }

  /** After every frame the indicator says whether two speakers are active
      at the frame's time, and lists every known speaker, stale ones too,
      exactly when it is on. */
  lemma StepOverlap(s: AppState, chunkDuration: real, frame: AudioFrame, backend: ElevenLabs.Backend)
    requires ValidApp(s) && Step(s, chunkDuration, frame, backend).ok
    ensures var r := Step(s, chunkDuration, frame, backend).state;
      r.board.overlapActive == CheckOverlap(r.active, frame.timestamp)
      && r.board.overlapSpeakers == (if r.board.overlapActive then r.active.keys else [])
  {
  }

  /** Speaker labels of the form `S<n>`. */
  ghost predicate IsLabel(id: string) {
    exists n :: id == ElevenLabs.Label(n)
  }

  ghost predicate LabelsOnly(m: ElevenLabs.Mapper) {
    forall t :: t in m.mapping ==> IsLabel(m.mapping[t])
  }

  /** A dictionary of labels labels every run with a label. */
  lemma {:induction false} LabelRunsLabels(m: ElevenLabs.Mapper, rs: seq<ElevenLabs.Run>, t0: real)
    requires forall i :: 0 <= i < |rs| ==> rs[i].words != []
    requires LabelsOnly(m)
    ensures var (segs, m') := ElevenLabs.LabelRuns(m, rs, t0);
      LabelsOnly(m') && forall i :: 0 <= i < |segs| ==> IsLabel(segs[i].speakerId)
  {
    if rs != [] {
      var init := rs[..|rs| - 1];
      LabelRunsLabels(m, init, t0);
      var (segs, m1) := ElevenLabs.LabelRuns(m, init, t0);
      var (m2, lbl) := ElevenLabs.Assign(m1, rs[|rs| - 1].tag);
      assert IsLabel(lbl) by {
        if rs[|rs| - 1].tag !in m1.mapping {
          assert lbl == ElevenLabs.Label(m1.next);
        }
      }
      assert LabelsOnly(m2) by {
        forall t | t in m2.mapping
          ensures IsLabel(m2.mapping[t])
        {
          if t in m1.mapping {
          } else {
            assert t == rs[|rs| - 1].tag;
          }
        }
      }
    }
  }

  /** Every segment a flush yields is labelled `S<n>`, and the dictionary
      keeps holding labels only. */
  lemma IngestLabels(s: ElevenLabs.State, chunkDuration: real, frame: AudioFrame, backend: ElevenLabs.Backend)
    requires LabelsOnly(s.mapper)
    ensures var out := ElevenLabs.Ingest(s, chunkDuration, frame, backend);
      LabelsOnly(out.state.mapper) && forall i :: 0 <= i < |out.segments| ==> IsLabel(out.segments[i].speakerId)
  {
    var added := s.(buffer := s.buffer + [frame]);
    if ElevenLabs.ShouldProcess(added, chunkDuration, frame.timestamp) {
      var c := ElevenLabs.Combined(added.buffer);
      if c.Some? {
        var resp := backend(c.value);
        if resp.Transcribed? && resp.words != [] {
          var runs := ElevenLabs.Group(ElevenLabs.Kept(resp.words));
          LabelRunsLabels(s.mapper, runs, added.buffer[0].timestamp);
        } else if resp.Transcribed? && resp.text != [] {
          assert "S1" == ElevenLabs.Label(1);
        }
      }
    }
  }

  /** Segments labelled `S<n>` never make the board raise. */
  lemma {:induction false} FeedAllLabels(s: AppState, segs: seq<TranscriptSegment>, t: real)
    requires ValidApp(s)
    requires forall i :: 0 <= i < |segs| ==> IsLabel(segs[i].speakerId)
    ensures FeedAll(s, segs, t).ok
  {
    if segs != [] {
      FeedAllLabels(s, segs[..|segs| - 1], t);
      var n :| segs[|segs| - 1].speakerId == ElevenLabs.Label(n);
      ConsoleUi.ColorOfLabel(n);
      var b := FeedAll(s, segs[..|segs| - 1], t).state.board;
      ConsoleUi.AddSpeakerKeeps(b, segs[|segs| - 1].speakerId, segs[|segs| - 1].speakerId);
      ConsoleUi.UpdateCaptionSets(b, segs[|segs| - 1].speakerId, segs[|segs| - 1].text, segs[|segs| - 1].speakerId);
    }
  }

  /** Starting from a dictionary of labels, the loop never takes its
      exception path: every frame is processed. */
  lemma {:induction false} RunFramesNeverFails(s: AppState, chunkDuration: real, frames: seq<AudioFrame>, backend: ElevenLabs.Backend)
    requires ValidApp(s) && LabelsOnly(s.transcriber.mapper)
    ensures RunFrames(s, chunkDuration, frames, backend).ok
    ensures LabelsOnly(RunFrames(s, chunkDuration, frames, backend).state.transcriber.mapper)
  {
    if frames != [] {
      RunFramesNeverFails(s, chunkDuration, frames[..|frames| - 1], backend);
      var prev := RunFrames(s, chunkDuration, frames[..|frames| - 1], backend).state;
      StepNeverFails(prev, chunkDuration, frames[|frames| - 1], backend);
      assert RunFrames(s, chunkDuration, frames, backend) == LastFrame(s, chunkDuration, frames, backend);
      assert LastFrame(s, chunkDuration, frames, backend) == StepLast(s, chunkDuration, frames, backend);
    }
  }

  /** One frame from a dictionary of labels: no failure, labels kept. */
  lemma StepNeverFails(s: AppState, chunkDuration: real, frame: AudioFrame, backend: ElevenLabs.Backend)
    requires ValidApp(s) && LabelsOnly(s.transcriber.mapper)
    ensures Step(s, chunkDuration, frame, backend).ok
    ensures LabelsOnly(Step(s, chunkDuration, frame, backend).state.transcriber.mapper)
  {
    var out := ElevenLabs.Ingest(s.transcriber, chunkDuration, frame, backend);
    IngestLabels(s.transcriber, chunkDuration, frame, backend);
    FeedAllLabels(s.(transcriber := out.state), out.segments, frame.timestamp);
    FeedAllTranscriber(s.(transcriber := out.state), out.segments, frame.timestamp);
  }

  // ---------------------------------------------------------------- the object

  class DeafineApp {
    const transcriber: ElevenLabs.Transcriber
    const ui: ConsoleUi.ConsoleUI
    const summarizer: Summarization.SessionSummarizer
    var activeSpeakers: Activity
    var running: bool

    function Model(): AppState
      reads this, transcriber, ui, summarizer
    {
      AppState(transcriber.Model(), activeSpeakers, ui.Model(), summarizer.transcripts)
    }

    ghost predicate Valid()
      reads this, ui, summarizer
    {
      activeSpeakers.Valid() && ui.Valid() && summarizer.Valid()
    }

    constructor(config: Config)
      requires config.elevenApiKey != []
      ensures Valid() && !running
      ensures Model() == AppState(ElevenLabs.Initial(), Empty(), ConsoleUi.InitialBoard(), Empty())
      ensures transcriber.chunkDuration == config.elevenlabsChunkDuration as real
    {
      transcriber := new ElevenLabs.Transcriber(config);
      ui := new ConsoleUi.ConsoleUI();
      summarizer := new Summarization.SessionSummarizer();
      activeSpeakers := Empty();
      running := false;
    }

    /** `_check_overlap`: count the speakers active at `now`; reads only. */
    method CheckOverlapAt(now: real) returns (r: bool)
      requires Valid()
      ensures r == CheckOverlap(activeSpeakers, now)
    {
      var active: set<string> := {};
      var ks := activeSpeakers.keys;
      for i := 0 to |ks|
        invariant active == set k | k in ks[..i] && k in activeSpeakers.values && now - activeSpeakers.values[k] < OverlapWindow
      {
        assert ks[..i + 1] == ks[..i] + [ks[i]];
        if now - activeSpeakers.values[ks[i]] < OverlapWindow {
          active := active + {ks[i]};
        }
      }
      assert ks[..|ks|] == ks;
      assert active == Recent(activeSpeakers, now);
      r := |active| > 1;
    }

    /** The body of the loop of `run` for one frame; `ok` is false when
        the board raised. */
    method FrameStep(frame: AudioFrame, backend: ElevenLabs.Backend) returns (ok: bool)
      requires Valid()
      modifies this, transcriber, ui, summarizer
      ensures Valid() && running == old(running)
      ensures Fed(Model(), ok) == Step(old(Model()), transcriber.chunkDuration, frame, backend)
    {
      var segments := Transcribe(frame, backend);
      ok := ShowSegments(segments, frame.timestamp);
      if ok {
        UpdateOverlap(frame.timestamp);
      }
    }

    /** `add_audio`, then `process_buffer` when `should_process` holds. */
    method Transcribe(frame: AudioFrame, backend: ElevenLabs.Backend) returns (segments: seq<TranscriptSegment>)
      modifies transcriber
      ensures ElevenLabs.Outcome(segments, transcriber.Model())
        == ElevenLabs.Ingest(old(transcriber.Model()), transcriber.chunkDuration, frame, backend)
    {
      transcriber.AddAudio(frame);
      segments := [];
      if transcriber.ShouldProcessAt(frame.timestamp) {
        segments := transcriber.ProcessBuffer(backend);
      }
    }

    /** The segments of a flush, in order: board, activity, summarizer. */
    method ShowSegments(segments: seq<TranscriptSegment>, t: real) returns (ok: bool)
      requires Valid()
      modifies this, ui, summarizer
      ensures Valid() && running == old(running)
      ensures Fed(Model(), ok) == FeedAll(old(Model()), segments, t)
    {
      ghost var s1 := Model();
      ok := true;
      for i := 0 to |segments|
        invariant Valid() && running == old(running)
        invariant Fed(Model(), true) == FeedAll(s1, segments[..i], t)
      {
        Seqs.PrefixOfPrefix(segments, i);
        ok := ShowSegment(segments[i], t);
        if !ok {
          FeedAllStops(s1, segments, t, i + 1);
          return;
        }
      }
      assert segments[..|segments|] == segments;
    }

    method ShowSegment(seg: TranscriptSegment, t: real) returns (ok: bool)
      requires Valid()
      modifies this, ui, summarizer
      ensures Valid() && running == old(running)
      ensures Fed(Model(), ok) == Feed(old(Model()), seg, t)
    {
      ok := ui.AddSpeaker(seg.speakerId);
      if !ok {
        return;
      }
      ConsoleUi.AddSpeakerKeeps(old(ui.Model()), seg.speakerId, seg.speakerId);
      ok := ui.UpdateCaption(seg.speakerId, seg.text);
      activeSpeakers := activeSpeakers.Put(seg.speakerId, t);
      summarizer.AddTranscript(seg);
    }

    /** The overlap check and `set_overlap`. */
    method UpdateOverlap(now: real)
      requires Valid()
      modifies ui
      ensures Valid()
      ensures Model() == WithOverlapCheck(old(Model()), now)
    {
      var overlap := CheckOverlapAt(now);
      if overlap {
        ui.SetOverlap(true, Some(activeSpeakers.keys));
      } else {
        ui.SetOverlap(false, None);
      }
    }

    /** `run`: frames are taken in order until the signal handler has
        cleared `running` (before frame `stopAt`, if ever) or the board
        raises; `taken` frames were processed. */
    method Run(frames: seq<AudioFrame>, stopAt: Option<nat>, backend: ElevenLabs.Backend) returns (taken: nat, ok: bool)
      requires Valid()
      modifies this, transcriber, ui, summarizer
      ensures Valid()
      ensures var n := if stopAt.Some? && stopAt.value < |frames| then stopAt.value else |frames|;
        Fed(Model(), ok) == RunFrames(old(Model()), transcriber.chunkDuration, frames[..n], backend)
        && (ok ==> taken == n) && taken <= n
        && (running <==> !(ok && n < |frames|))
    {
      running := true;
      ok := true;
      taken := 0;
      ghost var s0 := Model();
      ghost var cd := transcriber.chunkDuration;
      ghost var n := if stopAt.Some? && stopAt.value < |frames| then stopAt.value else |frames|;
      assert frames[..0] == [];
      while taken < |frames|
        invariant Valid() && running && ok && ValidApp(s0) && cd == transcriber.chunkDuration
        invariant taken <= n && (stopAt.Some? ==> taken <= stopAt.value)
        invariant Fed(Model(), true) == RunFrames(s0, cd, frames[..taken], backend)
        decreases |frames| - taken
      {
        if stopAt == Some(taken) {
          running := false;
          break;
        }
        ok := TakeFrame(s0, frames, taken, backend);
        taken := taken + 1;
        if !ok {
          RunFramesStopsAt(s0, cd, frames, n, backend, taken);
          return;
        }
      }
      assert frames[..n] == frames[..taken];
    }

    /** Frame `i` after frames `0..i` went through. */
    method TakeFrame(ghost s0: AppState, frames: seq<AudioFrame>, i: nat, backend: ElevenLabs.Backend) returns (ok: bool)
      requires Valid() && ValidApp(s0) && i < |frames|
      requires Fed(Model(), true) == RunFrames(s0, transcriber.chunkDuration, frames[..i], backend)
      modifies this, transcriber, ui, summarizer
      ensures Valid() && running == old(running)
      ensures Fed(Model(), ok) == RunFrames(s0, transcriber.chunkDuration, frames[..i + 1], backend)
    {
      Seqs.PrefixOfPrefix(frames, i);
      assert RunFrames(s0, transcriber.chunkDuration, frames[..i + 1], backend)
        == LastFrame(s0, transcriber.chunkDuration, frames[..i + 1], backend);
      ok := FrameStep(frames[i], backend);
    }
  }

  /** A failure at frame `i` ends the loop over the first `n` frames. */
  lemma RunFramesStopsAt(s: AppState, chunkDuration: real, frames: seq<AudioFrame>, n: nat, backend: ElevenLabs.Backend, i: nat)
    requires ValidApp(s) && i <= n <= |frames| && !RunFrames(s, chunkDuration, frames[..i], backend).ok
    ensures RunFrames(s, chunkDuration, frames[..n], backend) == RunFrames(s, chunkDuration, frames[..i], backend)
  {
    assert frames[..n][..i] == frames[..i];
    RunFramesStops(s, chunkDuration, frames[..n], backend, i);
  }

  /** Once the loop has failed the later frames are never taken. */
  lemma {:induction false} RunFramesStops(s: AppState, chunkDuration: real, frames: seq<AudioFrame>, backend: ElevenLabs.Backend, i: nat)
    requires ValidApp(s) && i <= |frames| && !RunFrames(s, chunkDuration, frames[..i], backend).ok
    ensures RunFrames(s, chunkDuration, frames, backend) == RunFrames(s, chunkDuration, frames[..i], backend)
    decreases |frames| - i
  {
    if i < |frames| {
      Seqs.PrefixOfPrefix(frames, i);
      RunFramesStops(s, chunkDuration, frames, backend, i + 1);
    } else {
      assert frames[..i] == frames;
    }
  }
}
