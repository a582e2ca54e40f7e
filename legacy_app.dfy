/** The earlier application loop (`deafine/main.py`, `DeafineApp`): the same
    per-frame rules as `App`, without the summarizer. Its transcriber and
    board are the ones of `App` (`ElevenLabs`, `ConsoleUi`). */
module LegacyApp {
  import opened Wrappers
  import opened Events
  import opened OrderedMaps
  import opened Configuration
  import ElevenLabs
  import ConsoleUi
  import App
  import Seqs

  /** The parts of the application a frame changes. */
  datatype LegacyState = LegacyState(
    transcriber: ElevenLabs.State,
    active: App.Activity,
    board: ConsoleUi.Board)

  ghost predicate ValidLegacy(s: LegacyState) {
    s.active.Valid() && s.board.speakers.Valid()
  }

  datatype LegacyFed = LegacyFed(state: LegacyState, ok: bool)

  /** One segment of a flush at frame time `t`: board and activity. */
  function Feed(s: LegacyState, seg: TranscriptSegment, t: real): (r: LegacyFed)
    requires ValidLegacy(s)
    ensures ValidLegacy(r.state)
  {
    match App.Show(s.board, seg)
    case Some(b) => LegacyFed(s.(board := b, active := s.active.Put(seg.speakerId, t)), true)
    case None => LegacyFed(s, false)
  }

  function FeedAll(s: LegacyState, segs: seq<TranscriptSegment>, t: real): (r: LegacyFed)
    requires ValidLegacy(s)
    ensures ValidLegacy(r.state)
  {
    if segs == [] then LegacyFed(s, true)
    else
      var prev := FeedAll(s, segs[..|segs| - 1], t);
      if prev.ok then Feed(prev.state, segs[|segs| - 1], t) else prev
  }

  function WithOverlapCheck(s: LegacyState, now: real): (r: LegacyState)
    requires ValidLegacy(s)
    ensures ValidLegacy(r)
  {
    if App.CheckOverlap(s.active, now) then s.(board := ConsoleUi.WithOverlap(s.board, true, Some(s.active.keys)))
    else s.(board := ConsoleUi.WithOverlap(s.board, false, None))
  }

  /** The body of the loop of `run` for one frame. */
  function Step(s: LegacyState, chunkDuration: real, frame: AudioFrame, backend: ElevenLabs.Backend): (r: LegacyFed)
    requires ValidLegacy(s)
    ensures ValidLegacy(r.state)
  {
    var out := ElevenLabs.Ingest(s.transcriber, chunkDuration, frame, backend);
    var fed := FeedAll(s.(transcriber := out.state), out.segments, frame.timestamp);
    if fed.ok then LegacyFed(WithOverlapCheck(fed.state, frame.timestamp), true) else fed
  }

  /** The newer application without its summarizer. */
  function Forget(s: App.AppState): LegacyState {
    LegacyState(s.transcriber, s.active, s.board)
  }

  /** Feeding a flush does to the transcriber, activity and board exactly
      what the newer application does. */
  lemma {:induction false} FeedAllAgrees(s: App.AppState, segs: seq<TranscriptSegment>, t: real)
    requires App.ValidApp(s)
    ensures var r := App.FeedAll(s, segs, t);
      ValidLegacy(Forget(s)) && FeedAll(Forget(s), segs, t) == LegacyFed(Forget(r.state), r.ok)
  {
    if segs != [] {
      FeedAllAgrees(s, segs[..|segs| - 1], t);
    }
  }

  /** The two loops agree frame by frame on everything but the summarizer:
      same flushes, same activity times, same board, same overlap. */
  lemma StepAgrees(s: App.AppState, chunkDuration: real, frame: AudioFrame, backend: ElevenLabs.Backend)
    requires App.ValidApp(s)
    ensures var r := App.Step(s, chunkDuration, frame, backend);
      ValidLegacy(Forget(s)) && Step(Forget(s), chunkDuration, frame, backend) == LegacyFed(Forget(r.state), r.ok)
  {
    var out := ElevenLabs.Ingest(s.transcriber, chunkDuration, frame, backend);
    FeedAllAgrees(s.(transcriber := out.state), out.segments, frame.timestamp);
  }

  /** After every frame the indicator says whether two speakers are active
      at the frame's time, listing every known speaker exactly when on; the
      speaker of each segment of the flush is active at the frame's time. */
  lemma StepTracks(s: LegacyState, chunkDuration: real, frame: AudioFrame, backend: ElevenLabs.Backend, id: string)
    requires ValidLegacy(s) && Step(s, chunkDuration, frame, backend).ok
    ensures var r := Step(s, chunkDuration, frame, backend).state;
      r.board.overlapActive == App.CheckOverlap(r.active, frame.timestamp)
      && r.board.overlapSpeakers == (if r.board.overlapActive then r.active.keys else [])
      && (id in App.Ids(ElevenLabs.Ingest(s.transcriber, chunkDuration, frame, backend).segments)
          ==> id in r.active.values && r.active.values[id] == frame.timestamp)
      && (id in s.active.values ==> id in r.active.values)
  {
    var out := ElevenLabs.Ingest(s.transcriber, chunkDuration, frame, backend);
    var full := App.AppState(s.transcriber, s.active, s.board, Empty());
    StepAgrees(full, chunkDuration, frame, backend);
    var fed := App.FeedAll(full.(transcriber := out.state), out.segments, frame.timestamp);
    FeedAllAgrees(full.(transcriber := out.state), out.segments, frame.timestamp);
    App.FeedAllActivity(full.(transcriber := out.state), out.segments, frame.timestamp, id);
  }

  class DeafineApp {
    const transcriber: ElevenLabs.Transcriber
    const ui: ConsoleUi.ConsoleUI
    var activeSpeakers: App.Activity
    var running: bool

    function Model(): LegacyState
      reads this, transcriber, ui
    {
      LegacyState(transcriber.Model(), activeSpeakers, ui.Model())
    }

    ghost predicate Valid()
      reads this, ui
    {
      activeSpeakers.Valid() && ui.Valid()
    }

    constructor(config: Config)
      requires config.elevenApiKey != []
      ensures Valid() && !running
      ensures Model() == LegacyState(ElevenLabs.Initial(), Empty(), ConsoleUi.InitialBoard())
      ensures transcriber.chunkDuration == config.elevenlabsChunkDuration as real
    {
      transcriber := new ElevenLabs.Transcriber(config);
      ui := new ConsoleUi.ConsoleUI();
      activeSpeakers := Empty();
      running := false;
    }

    /** `_check_overlap`: count the speakers active at `now`; reads only. */
    method CheckOverlapAt(now: real) returns (r: bool)
      requires Valid()
      ensures r == App.CheckOverlap(activeSpeakers, now)
    {
      var count := 0;
      ghost var seen: set<string> := {};
      var ks := activeSpeakers.keys;
      for i := 0 to |ks|
        invariant seen == set k | k in ks[..i] && k in activeSpeakers.values && now - activeSpeakers.values[k] < App.OverlapWindow
        invariant count == |seen|
      {
        assert ks[..i + 1] == ks[..i] + [ks[i]];
        if now - activeSpeakers.values[ks[i]] < App.OverlapWindow {
          assert ks[i] !in seen by {
            assert ks[i] !in ks[..i];
          }
          seen := seen + {ks[i]};
          count := count + 1;
        }
      }
      assert ks[..|ks|] == ks;
      assert seen == App.Recent(activeSpeakers, now);
      r := count > 1;
    }

    /** The body of the loop of `run` for one frame; `ok` is false when
        the board raised. */
    method FrameStep(frame: AudioFrame, backend: ElevenLabs.Backend) returns (ok: bool)
      requires Valid()
      modifies this, transcriber, ui
      ensures Valid() && running == old(running)
      ensures LegacyFed(Model(), ok) == Step(old(Model()), transcriber.chunkDuration, frame, backend)
    {
      transcriber.AddAudio(frame);
      var segments: seq<TranscriptSegment> := [];
      if transcriber.ShouldProcessAt(frame.timestamp) {
        segments := transcriber.ProcessBuffer(backend);
      }
      ok := ShowSegments(segments, frame.timestamp);
      if ok {
        var overlap := CheckOverlapAt(frame.timestamp);
        if overlap {
          ui.SetOverlap(true, Some(activeSpeakers.keys));
        } else {
          ui.SetOverlap(false, None);
        }
      }
    }

    method ShowSegments(segments: seq<TranscriptSegment>, t: real) returns (ok: bool)
      requires Valid()
      modifies this, ui
      ensures Valid() && running == old(running)
      ensures LegacyFed(Model(), ok) == FeedAll(old(Model()), segments, t)
    {
      ghost var s1 := Model();
      ok := true;
      for i := 0 to |segments|
        invariant Valid() && running == old(running)
        invariant LegacyFed(Model(), true) == FeedAll(s1, segments[..i], t)
      {
        Seqs.PrefixOfPrefix(segments, i);
        ok := ShowSegment(segments[i], t);
        if !ok {
          FeedAllStops(s1, segments, t, i + 1);
          return;
        }
      }
      assert segments[..|segments|] == segments;
    }

    method ShowSegment(seg: TranscriptSegment, t: real) returns (ok: bool)
      requires Valid()
      modifies this, ui
      ensures Valid() && running == old(running)
      ensures LegacyFed(Model(), ok) == Feed(old(Model()), seg, t)
    {
      ok := ui.AddSpeaker(seg.speakerId);
      if !ok {
        return;
      }
      ConsoleUi.AddSpeakerKeeps(old(ui.Model()), seg.speakerId, seg.speakerId);
      ok := ui.UpdateCaption(seg.speakerId, seg.text);
      activeSpeakers := activeSpeakers.Put(seg.speakerId, t);
    }
  }

  lemma {:induction false} FeedAllStops(s: LegacyState, segs: seq<TranscriptSegment>, t: real, i: nat)
    requires ValidLegacy(s) && i <= |segs| && !FeedAll(s, segs[..i], t).ok
    ensures FeedAll(s, segs, t) == FeedAll(s, segs[..i], t)
    decreases |segs| - i
  {
    if i < |segs| {
      Seqs.PrefixOfPrefix(segs, i);
      FeedAllStops(s, segs, t, i + 1);
    } else {
      assert segs[..i] == segs;
    }
  }
}
