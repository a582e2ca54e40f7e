/** The chunk accumulator of the remote transcriber
    (`audio_access/elevenlabs.py`, `ElevenLabsTranscriber`): it buffers audio
    frames, decides when a chunk is due, sends the chunk to the speech-to-text
    service, folds the word list it gets back into per-speaker segments and
    maps the service's speaker tags to `S1`, `S2`, ... in first-seen order.

    The service is a parameter: a `Backend` maps the buffered samples to the
    response. */
module ElevenLabs {
  import opened Wrappers
  import opened Text
  import opened Events
  import opened Configuration
  import Seqs

  // ---------------------------------------------------------------- responses

  /** One entry of the response's `words` list; a field the entry lacks is `None`. */
  datatype BackendWord = BackendWord(speakerId: Option<string>, text: Option<string>, start: Option<real>, end: Option<real>)

  /** What the service call ends in. A response without `words` carries the
      empty list; one without `text` carries the empty string. */
  datatype Response =
    | Transcribed(words: seq<BackendWord>, text: string)
    | HttpStatusError(status: int)
    | RequestError(message: string)

  type Backend = seq<int16> -> Response

  /** A word as the grouping loop sees it: the tag defaults to `speaker_0`,
      the text is stripped, the times default to 0. */
  datatype Word = Word(tag: string, text: string, start: real, end: real)

  function Normalize(b: BackendWord): Word {
    Word(b.speakerId.GetOr("speaker_0"), Strip(b.text.GetOr("")), b.start.GetOr(0.0), b.end.GetOr(0.0))
  }

  /** The words the loop keeps: those whose stripped text is not empty. */
  function Kept(ws: seq<BackendWord>): (r: seq<Word>)
    ensures |r| <= |ws|
    ensures forall i :: 0 <= i < |r| ==> r[i].text != []
  {
    if ws == [] then []
    else
      var w := Normalize(ws[|ws| - 1]);
      Kept(ws[..|ws| - 1]) + (if w.text == [] then [] else [w])
  }

  /** A word whose stripped text is empty is dropped wherever it stands, so
      it never splits a run. */
  lemma {:induction false} KeptSkipsBlank(a: seq<BackendWord>, b: BackendWord, c: seq<BackendWord>)
    requires Normalize(b).text == []
    ensures Kept(a + [b] + c) == Kept(a + c)
    decreases |c|
  {
    if c == [] {
      assert (a + [b])[..|a|] == a;
      assert a + [b] + c == a + [b];
      assert a + c == a;
    } else {
      var c' := c[..|c| - 1];
      assert (a + [b] + c)[..|a + [b] + c| - 1] == a + [b] + c';
      assert (a + c)[..|a + c| - 1] == a + c';
      KeptSkipsBlank(a, b, c');
    }
  }

  // ---------------------------------------------------------------- runs

  /** A maximal stretch of consecutive kept words with the same tag. */
  datatype Run = Run(tag: string, words: seq<Word>)

  predicate Uniform(r: Run) {
    r.words != [] && forall j :: 0 <= j < |r.words| ==> r.words[j].tag == r.tag
  }

  /** One step of the grouping: a word with the tag of the last run extends
      it, any other word opens a new run. */
  function AddWord(g: seq<Run>, w: Word): (r: seq<Run>)
    ensures r != [] && r[|r| - 1].tag == w.tag
  {
    if g != [] && g[|g| - 1].tag == w.tag then g[..|g| - 1] + [Run(w.tag, g[|g| - 1].words + [w])]
    else g + [Run(w.tag, [w])]
  }

  /** The run-length grouping of the kept words. */
  function Group(ws: seq<Word>): (g: seq<Run>)
    ensures |g| <= |ws| && NonEmptyRuns(g)
    ensures ws != [] ==> g != [] && g[|g| - 1].tag == ws[|ws| - 1].tag
  {
    if ws == [] then [] else AddWord(Group(ws[..|ws| - 1]), ws[|ws| - 1])
  }

  /** The grouping after the loop has seen the first `i` response words. */
  function GroupedUpTo(words: seq<BackendWord>, i: nat): seq<Run>
    requires i <= |words|
  {
    if i == 0 then []
    else
      var w := Normalize(words[i - 1]);
      var g := GroupedUpTo(words, i - 1);
      if w.text == [] then g else AddWord(g, w)
  }

  /** Skipping blank words while grouping is grouping the kept words. */
  lemma {:induction false} GroupedUpToKept(words: seq<BackendWord>, i: nat)
    requires i <= |words|
    ensures GroupedUpTo(words, i) == Group(Kept(words[..i]))
  {
    if i > 0 {
      GroupedUpToKept(words, i - 1);
      assert words[..i][..i - 1] == words[..i - 1];
      var k := Kept(words[..i - 1]);
      var w := Normalize(words[i - 1]);
      if w.text != [] {
        assert Kept(words[..i]) == k + [w];
        assert (k + [w])[..|k|] == k;
      } else {
        assert Kept(words[..i]) == k + [];
        assert k + [] == k;
      }
    }
  }

  /** The words of the runs, run after run. */
  function Flatten(rs: seq<Run>): seq<Word> {
    if rs == [] then [] else Flatten(rs[..|rs| - 1]) + rs[|rs| - 1].words
  }

  /** Every run is non-empty and all its words carry the run's tag. */
  lemma {:induction false} GroupUniform(ws: seq<Word>)
    ensures forall i :: 0 <= i < |Group(ws)| ==> Uniform(Group(ws)[i])
  {
    if ws != [] {
      GroupUniform(ws[..|ws| - 1]);
    }
  }

  /** Neighbouring runs have different tags. */
  lemma {:induction false} GroupAdjacentDistinct(ws: seq<Word>)
    ensures forall i :: 0 <= i < |Group(ws)| - 1 ==> Group(ws)[i].tag != Group(ws)[i + 1].tag
  {
    if ws != [] {
      GroupAdjacentDistinct(ws[..|ws| - 1]);
    }
  }

  /** Grouping loses, adds and reorders no word. */
  lemma {:induction false} GroupFlatten(ws: seq<Word>)
    ensures Flatten(Group(ws)) == ws
  {
    if ws != [] {
      var init, w := ws[..|ws| - 1], ws[|ws| - 1];
      assert init + [w] == ws;
      GroupFlatten(init);
      FlattenAddWord(Group(init), w);
    }
  }

  /** One grouping step appends its word to the flattened runs. */
  lemma FlattenAddWord(g: seq<Run>, w: Word)
    ensures Flatten(AddWord(g, w)) == Flatten(g) + [w]
  {
    if g != [] && g[|g| - 1].tag == w.tag {
      var h := AddWord(g, w);
      assert h[..|h| - 1] == g[..|g| - 1];
      assert Flatten(g) == Flatten(g[..|g| - 1]) + g[|g| - 1].words;
    } else {
      assert (g + [Run(w.tag, [w])])[..|g|] == g;
    }
  }

  /** `rs` splits `ws` into uniform runs with distinct neighbouring tags. */
  predicate IsGrouping(ws: seq<Word>, rs: seq<Run>) {
    (forall i :: 0 <= i < |rs| ==> Uniform(rs[i]))
    && (forall i :: 0 <= i < |rs| - 1 ==> rs[i].tag != rs[i + 1].tag)
    && Flatten(rs) == ws
  }

  /** The grouping is the only split of the words into uniform runs with
      distinct neighbouring tags: each maximal run is one run. */
  lemma {:induction false} GroupUnique(ws: seq<Word>, rs: seq<Run>)
    requires IsGrouping(ws, rs)
    ensures rs == Group(ws)
    decreases |ws|
  {
    if rs != [] {
      var rs' := DropLastWord(ws, rs);
      GroupUnique(ws[..|ws| - 1], rs');
    }
  }

  /** Taking the last word off a grouping leaves a grouping of the other
      words, which that word extends back to the original. */
  lemma DropLastWord(ws: seq<Word>, rs: seq<Run>) returns (rs': seq<Run>)
    requires IsGrouping(ws, rs) && rs != []
    ensures ws != [] && IsGrouping(ws[..|ws| - 1], rs')
    ensures AddWord(rs', ws[|ws| - 1]) == rs
  {
    if |rs[|rs| - 1].words| == 1 {
      rs' := DropSingleRun(ws, rs);
    } else {
      rs' := ShortenLastRun(ws, rs);
    }
  }

  lemma DropSingleRun(ws: seq<Word>, rs: seq<Run>) returns (rs': seq<Run>)
    requires IsGrouping(ws, rs) && rs != [] && |rs[|rs| - 1].words| == 1
    ensures ws != [] && IsGrouping(ws[..|ws| - 1], rs')
    ensures AddWord(rs', ws[|ws| - 1]) == rs
  {
    var last := rs[|rs| - 1];
    rs' := rs[..|rs| - 1];
    assert ws == Flatten(rs') + [last.words[0]];
    assert ws[..|ws| - 1] == Flatten(rs');
    if rs' != [] {
      assert rs'[|rs'| - 1] == rs[|rs| - 2];
    }
    assert last == Run(last.tag, [last.words[0]]);
    assert rs' + [last] == rs;
  }

  lemma ShortenLastRun(ws: seq<Word>, rs: seq<Run>) returns (rs': seq<Run>)
    requires IsGrouping(ws, rs) && rs != [] && |rs[|rs| - 1].words| > 1
    ensures ws != [] && IsGrouping(ws[..|ws| - 1], rs')
    ensures AddWord(rs', ws[|ws| - 1]) == rs
  {
    var last := rs[|rs| - 1];
    var init := rs[..|rs| - 1];
    var k := |last.words|;
    var shorter := Run(last.tag, last.words[..k - 1]);
    rs' := init + [shorter];
    assert rs'[..|rs'| - 1] == init;
    assert Flatten(rs') == Flatten(init) + last.words[..k - 1];
    assert last.words == last.words[..k - 1] + [last.words[k - 1]];
    assert ws == Flatten(rs') + [last.words[k - 1]];
    assert ws[..|ws| - 1] == Flatten(rs');
    forall i | 0 <= i < |rs'|
      ensures Uniform(rs'[i])
    {
      if i < |init| {
        assert rs'[i] == rs[i];
      }
    }
    assert init + [last] == rs;
  }

  // ---------------------------------------------------------------- speaker labels

  /** The tag-to-label dictionary and the number the next new tag gets. */
  datatype Mapper = Mapper(mapping: map<string, string>, next: int)

  function Label(n: int): string {
    "S" + IntToString(n)
  }

  /** `_get_simple_speaker_id`: a known tag keeps its label; a new one gets
      `S<next>` and the counter moves on by one. */
  function Assign(m: Mapper, tag: string): (r: (Mapper, string))
    ensures tag in r.0.mapping && r.1 == r.0.mapping[tag]
    ensures tag in m.mapping ==> r.0 == m
    ensures tag !in m.mapping ==> r.1 == Label(m.next) && r.0.next == m.next + 1
    ensures forall t :: t in m.mapping ==> t in r.0.mapping && r.0.mapping[t] == m.mapping[t]
    ensures r.0.mapping.Keys == m.mapping.Keys + {tag}
  {
    if tag in m.mapping then (m, m.mapping[tag])
    else
      var lbl := Label(m.next);
      (Mapper(m.mapping[tag := lbl], m.next + 1), lbl)
  }

  /** The dictionary that first-seen order `order` (distinct tags) builds:
      the i-th tag seen is labelled `S<i+1>`. */
  function MapperOf(order: seq<string>): (m: Mapper)
    ensures m.next == |order| + 1
    ensures m.mapping.Keys == set t | t in order
  {
    if order == [] then Mapper(map[], 1)
    else
      var m := MapperOf(order[..|order| - 1]);
      Mapper(m.mapping[order[|order| - 1] := Label(|order|)], |order| + 1)
  }

  predicate DistinctTags(order: seq<string>) {
    forall i, j :: 0 <= i < j < |order| ==> order[i] != order[j]
  }

  /** In a dictionary built in first-seen order, the i-th tag is `S<i+1>`. */
  lemma {:induction false} MapperOfLabels(order: seq<string>)
    requires DistinctTags(order)
    ensures forall i :: 0 <= i < |order| ==> MapperOf(order).mapping[order[i]] == Label(i + 1)
  {
    if order != [] {
      var init := order[..|order| - 1];
      MapperOfLabels(init);
      forall i | 0 <= i < |order|
        ensures MapperOf(order).mapping[order[i]] == Label(i + 1)
      {
        if i < |order| - 1 {
          assert order[i] == init[i];
        }
      }
    }
  }

  /** Assigning keeps the dictionary in first-seen form. */
  lemma AssignMapperOf(order: seq<string>, tag: string)
    requires DistinctTags(order)
    ensures var order' := if tag in order then order else order + [tag];
      DistinctTags(order') && Assign(MapperOf(order), tag).0 == MapperOf(order')
  {
    if tag !in order {
      var order' := order + [tag];
      assert order'[..|order'| - 1] == order;
    }
  }

  lemma LabelInjective(a: int, b: int)
    requires Label(a) == Label(b)
    ensures a == b
  {
    assert IntToString(a) == Label(a)[1..];
    IntToStringInjective(a, b);
  }

  /** Different tags never share a label. */
  lemma MapperOfInjective(order: seq<string>, s: string, t: string)
    requires DistinctTags(order)
    requires s in MapperOf(order).mapping && t in MapperOf(order).mapping && s != t
    ensures MapperOf(order).mapping[s] != MapperOf(order).mapping[t]
  {
    MapperOfLabels(order);
    var i :| 0 <= i < |order| && order[i] == s;
    var j :| 0 <= j < |order| && order[j] == t;
    if Label(i + 1) == Label(j + 1) {
      LabelInjective(i + 1, j + 1);
    }
  }

  /** The tags of `tags` in the order they are first seen, after `order`. */
  function FirstSeen(order: seq<string>, tags: seq<string>): seq<string> {
    if tags == [] then order
    else
      var o := FirstSeen(order, tags[..|tags| - 1]);
      if tags[|tags| - 1] in o then o else o + [tags[|tags| - 1]]
  }

  /** Tags `[b, a, b, c]` on a fresh transcriber: `b -> S1`, `a -> S2`,
      `b -> S1` again, `c -> S3`. */
  lemma AssignExample()
    ensures var (m1, x1) := Assign(Mapper(map[], 1), "b");
      var (m2, x2) := Assign(m1, "a");
      var (m3, x3) := Assign(m2, "b");
      var (m4, x4) := Assign(m3, "c");
      [x1, x2, x3, x4] == ["S1", "S2", "S1", "S3"] && m4 == Mapper(map["b" := "S1", "a" := "S2", "c" := "S3"], 4)
  {
    assert Label(1) == "S1" && Label(2) == "S2" && Label(3) == "S3" by {
      assert IntToString(1) == "1" && IntToString(2) == "2" && IntToString(3) == "3";
    }
    var m1 := Mapper(map["b" := "S1"], 2);
    var m2 := Mapper(map["b" := "S1", "a" := "S2"], 3);
    assert Assign(Mapper(map[], 1), "b") == (m1, "S1");
    assert Assign(m1, "a") == (m2, "S2");
    assert Assign(m2, "b") == (m2, "S1");
    assert Assign(m2, "c") == (Mapper(map["b" := "S1", "a" := "S2", "c" := "S3"], 4), "S3");
  }

  // ---------------------------------------------------------------- segments

  function Texts(ws: seq<Word>): (r: seq<string>)
    ensures |r| == |ws| && forall i :: 0 <= i < |ws| ==> r[i] == ws[i].text
  {
    if ws == [] then [] else Texts(ws[..|ws| - 1]) + [ws[|ws| - 1].text]
  }

  /** The segment a run becomes: its words joined by single spaces, timed
      from its first word's start to its last word's end, both offset by the
      chunk's first frame timestamp. */
  function SegmentOf(r: Run, lbl: string, t0: real): TranscriptSegment
    requires r.words != []
  {
    TranscriptSegment(lbl, Join(Texts(r.words), " "), t0 + r.words[0].start, t0 + r.words[|r.words| - 1].end)
  }

  /** Label and emit the runs in order. */
  function LabelRuns(m: Mapper, rs: seq<Run>, t0: real): (r: (seq<TranscriptSegment>, Mapper))
    requires forall i :: 0 <= i < |rs| ==> rs[i].words != []
    ensures |r.0| == |rs|
  {
    if rs == [] then ([], m)
    else
      var (segs, m') := LabelRuns(m, rs[..|rs| - 1], t0);
      var (m'', lbl) := Assign(m', rs[|rs| - 1].tag);
      (segs + [SegmentOf(rs[|rs| - 1], lbl, t0)], m'')
  }

  predicate NonEmptyRuns(rs: seq<Run>) {
    forall i :: 0 <= i < |rs| ==> rs[i].words != []
  }

  /** Each run becomes one segment, labelled by the dictionary the flush
      ends with; entries that existed before are never changed. */
  lemma {:induction false} LabelRunsSegments(m: Mapper, rs: seq<Run>, t0: real)
    requires NonEmptyRuns(rs)
    ensures var (segs, m') := LabelRuns(m, rs, t0);
      (forall t :: t in m.mapping ==> t in m'.mapping && m'.mapping[t] == m.mapping[t])
      && (forall i :: 0 <= i < |rs| ==> rs[i].tag in m'.mapping && segs[i] == SegmentOf(rs[i], m'.mapping[rs[i].tag], t0))
  {
    if rs != [] {
      var init := rs[..|rs| - 1];
      LabelRunsSegments(m, init, t0);
      var (segs, m1) := LabelRuns(m, init, t0);
      var (m2, lbl) := Assign(m1, rs[|rs| - 1].tag);
      forall i | 0 <= i < |rs| - 1
        ensures rs[i].tag in m2.mapping && (segs + [SegmentOf(rs[|rs| - 1], lbl, t0)])[i] == SegmentOf(rs[i], m2.mapping[rs[i].tag], t0)
      {
        assert rs[i] == init[i];
      }
    }
  }

  function Tags(rs: seq<Run>): (r: seq<string>)
    ensures |r| == |rs| && forall i :: 0 <= i < |rs| ==> r[i] == rs[i].tag
  {
    if rs == [] then [] else Tags(rs[..|rs| - 1]) + [rs[|rs| - 1].tag]
  }

  /** A dictionary in first-seen form stays in first-seen form: the new tags
      of a flush are appended in the order the runs show them. */
  lemma {:induction false} LabelRunsFirstSeen(order: seq<string>, rs: seq<Run>, t0: real)
    requires DistinctTags(order) && NonEmptyRuns(rs)
    ensures DistinctTags(FirstSeen(order, Tags(rs)))
    ensures LabelRuns(MapperOf(order), rs, t0).1 == MapperOf(FirstSeen(order, Tags(rs)))
  {
    if rs != [] {
      var init := rs[..|rs| - 1];
      LabelRunsFirstSeen(order, init, t0);
      assert Tags(rs)[..|rs| - 1] == Tags(init);
      AssignMapperOf(FirstSeen(order, Tags(init)), rs[|rs| - 1].tag);
    }
  }

  // ---------------------------------------------------------------- the transcriber state

  /** The transcriber's mutable state: buffered frames, the time watermark
      of the last flush, and the speaker dictionary. */
  datatype State = State(buffer: seq<AudioFrame>, lastSentTime: real, mapper: Mapper)

  function Initial(): State {
    State([], 0.0, Mapper(map[], 1))
  }

  /** `should_process(t)`. */
  predicate ShouldProcess(s: State, chunkDuration: real, t: real) {
    t - s.lastSentTime >= chunkDuration && |s.buffer| > 0
  }

  /** The samples of all buffered frames, one after the other; `None` when
      some frame has an odd byte count (numpy raises on it). */
  function Combined(frames: seq<AudioFrame>): Option<seq<int16>> {
    if frames == [] then Some([])
    else
      match Combined(frames[..|frames| - 1])
      case None => None
      case Some(prefix) =>
        match FromBytes(frames[|frames| - 1].pcm)
        case None => None
        case Some(samples) => Some(prefix + samples)
  }

  /** Once a prefix fails to decode, every extension fails. */
  lemma {:induction false} CombinedFailsOn(frames: seq<AudioFrame>, i: nat)
    requires i <= |frames| && Combined(frames[..i]) == None
    ensures Combined(frames) == None
    decreases |frames| - i
  {
    if i < |frames| {
      Seqs.PrefixOfPrefix(frames, i);
      CombinedFailsOn(frames, i + 1);
    } else {
      assert frames[..i] == frames;
    }
  }

  /** The frames decode exactly when each frame has an even byte count, and
      then the samples are the encodings read back in order. */
  lemma {:induction false} CombinedDecodes(frames: seq<AudioFrame>)
    ensures Combined(frames).Some? <==> forall i :: 0 <= i < |frames| ==> |frames[i].pcm| % 2 == 0
  {
    if frames != [] {
      CombinedDecodes(frames[..|frames| - 1]);
      assert forall i :: 0 <= i < |frames| - 1 ==> frames[..|frames| - 1][i] == frames[i];
    }
  }

  datatype Outcome = Outcome(segments: seq<TranscriptSegment>, state: State)

  /** `process_buffer`. An empty buffer changes nothing. Otherwise the
      samples go to the service; a word list is grouped into runs and
      labelled, a bare text becomes one `S1` segment from the first to the
      last frame, and an error yields nothing. Every path then clears the
      buffer and moves the watermark to the last frame's timestamp. */
  function Process(s: State, backend: Backend): (r: Outcome)
    ensures s.buffer == [] ==> r == Outcome([], s)
    ensures s.buffer != [] ==> r.state.buffer == [] && r.state.lastSentTime == s.buffer[|s.buffer| - 1].timestamp
  {
    if s.buffer == [] then Outcome([], s)
    else
      var t0 := s.buffer[0].timestamp;
      var tEnd := s.buffer[|s.buffer| - 1].timestamp;
      var cleared := s.(buffer := [], lastSentTime := tEnd);
      match Combined(s.buffer)
      case None => Outcome([], cleared)
      case Some(samples) =>
        match backend(samples)
        case Transcribed(words, text) =>
          if words != [] then
            var runs := Group(Kept(words));
            var (segs, m) := LabelRuns(s.mapper, runs, t0);
            Outcome(segs, cleared.(mapper := m))
          else if text != [] then
            Outcome([TranscriptSegment("S1", text, t0, tEnd)], cleared)
          else Outcome([], cleared)
        case HttpStatusError(_) => Outcome([], cleared)
        case RequestError(_) => Outcome([], cleared)
  }

  /** A failed call, or audio that does not decode, yields no segment and
      leaves the speaker dictionary as it was. */
  lemma ProcessFailure(s: State, backend: Backend)
    requires s.buffer != []
    requires Combined(s.buffer).None? || !backend(Combined(s.buffer).value).Transcribed?
    ensures Process(s, backend) == Outcome([], State([], s.buffer[|s.buffer| - 1].timestamp, s.mapper))
  {
  }

  /** A response without words but with text is one segment labelled `S1`,
      whatever the dictionary holds, spanning the first to the last frame. */
  lemma ProcessFallback(s: State, backend: Backend)
    requires s.buffer != [] && Combined(s.buffer).Some?
    requires var r := backend(Combined(s.buffer).value); r.Transcribed? && r.words == [] && r.text != []
    ensures Process(s, backend).segments
      == [TranscriptSegment("S1", backend(Combined(s.buffer).value).text, s.buffer[0].timestamp, s.buffer[|s.buffer| - 1].timestamp)]
    ensures Process(s, backend).state.mapper == s.mapper
  {
  }

  /** On a word list, the segments are the runs of kept words, one each, in
      order, labelled consistently by the updated dictionary. */
  lemma ProcessWords(s: State, backend: Backend)
    requires s.buffer != [] && Combined(s.buffer).Some?
    requires var r := backend(Combined(s.buffer).value); r.Transcribed? && r.words != []
    ensures var runs := Group(Kept(backend(Combined(s.buffer).value).words));
      var out := Process(s, backend);
      |out.segments| == |runs|
      && (forall i :: 0 <= i < |runs| ==>
            runs[i].tag in out.state.mapper.mapping
            && out.segments[i] == SegmentOf(runs[i], out.state.mapper.mapping[runs[i].tag], s.buffer[0].timestamp))
      && (forall t :: t in s.mapper.mapping ==> t in out.state.mapper.mapping && out.state.mapper.mapping[t] == s.mapper.mapping[t])
  {
    var words := backend(Combined(s.buffer).value).words;
    GroupUniform(Kept(words));
    LabelRunsSegments(s.mapper, Group(Kept(words)), s.buffer[0].timestamp);
  }

  /** The service's example: `(A,"hi",0,1), (A,"there",1,2), (B,"yo",2,3)` for
      a chunk whose first frame is at 10.0, on a fresh transcriber, gives
      `S1 "hi there" [10, 12]` and `S2 "yo" [12, 13]`. */
  lemma ProcessExample(frame: AudioFrame)
    requires frame.timestamp == 10.0 && |frame.pcm| % 2 == 0
    ensures var out := Process(Initial().(buffer := [frame]), _ => Transcribed(ExampleWords(), "hi there yo"));
      out.segments == [TranscriptSegment("S1", "hi there", 10.0, 12.0), TranscriptSegment("S2", "yo", 12.0, 13.0)]
      && out.state == State([], 10.0, Mapper(map["A" := "S1", "B" := "S2"], 3))
  {
    assert Combined([frame]).Some? by {
      assert [frame][..0] == [];
    }
    KeptOfExample();
    GroupOfExample();
    LabelsOfExample();
  }

  function ExampleWords(): seq<BackendWord> {
    [BackendWord(Some("A"), Some("hi"), Some(0.0), Some(1.0)),
     BackendWord(Some("A"), Some("there"), Some(1.0), Some(2.0)),
     BackendWord(Some("B"), Some("yo"), Some(2.0), Some(3.0))]
  }

  function ExampleKept(): seq<Word> {
    [Word("A", "hi", 0.0, 1.0), Word("A", "there", 1.0, 2.0), Word("B", "yo", 2.0, 3.0)]
  }

  function ExampleRuns(): seq<Run> {
    [Run("A", [Word("A", "hi", 0.0, 1.0), Word("A", "there", 1.0, 2.0)]), Run("B", [Word("B", "yo", 2.0, 3.0)])]
  }

  lemma KeptOfExample()
    ensures Kept(ExampleWords()) == ExampleKept()
  {
    var words := ExampleWords();
    KeptOfExamplePrefix();
    NormalizeExample();
    assert Kept(words) == ExampleKept()[..2] + [ExampleKept()[2]];
  }

  lemma KeptOfExamplePrefix()
    ensures Kept(ExampleWords()[..2]) == ExampleKept()[..2]
  {
    var words := ExampleWords();
    NormalizeExample();
    assert Kept(words[..1]) == ExampleKept()[..1] by {
      assert words[..1][..0] == [];
    }
    assert words[..2][..1] == words[..1];
  }

  lemma NormalizeExample()
    ensures Normalize(ExampleWords()[0]) == ExampleKept()[0]
    ensures Normalize(ExampleWords()[1]) == ExampleKept()[1]
    ensures Normalize(ExampleWords()[2]) == ExampleKept()[2]
  {
    StripWord("hi");
    StripWord("there");
    StripWord("yo");
  }

  lemma GroupOfExample()
    ensures Group(ExampleKept()) == ExampleRuns()
  {
    var k := ExampleKept();
    GroupOfExamplePrefix();
    assert k[..2] == [k[0], k[1]];
    assert Group(k) == AddWord([Run("A", [k[0], k[1]])], k[2]);
  }

  lemma GroupOfExamplePrefix()
    ensures var k := ExampleKept(); Group([k[0], k[1]]) == [Run("A", [k[0], k[1]])]
  {
    var k := ExampleKept();
    var a, b := k[0], k[1];
    assert Group([a]) == [Run("A", [a])] by {
      assert [a][..0] == [];
      assert AddWord([], a) == [Run("A", [a])];
    }
    assert [a, b][..1] == [a];
    assert AddWord([Run("A", [a])], b) == [Run("A", [a] + [b])];
    assert [a] + [b] == [a, b];
  }

  lemma LabelsOfExample()
    ensures LabelRuns(Mapper(map[], 1), ExampleRuns(), 10.0)
      == ([TranscriptSegment("S1", "hi there", 10.0, 12.0), TranscriptSegment("S2", "yo", 12.0, 13.0)],
          Mapper(map["A" := "S1", "B" := "S2"], 3))
  {
    var a, b, c := Word("A", "hi", 0.0, 1.0), Word("A", "there", 1.0, 2.0), Word("B", "yo", 2.0, 3.0);
    var r1, r2 := Run("A", [a, b]), Run("B", [c]);
    var s1, s2 := TranscriptSegment("S1", "hi there", 10.0, 12.0), TranscriptSegment("S2", "yo", 12.0, 13.0);
    var m0 := Mapper(map[], 1);
    var m1 := Mapper(map["A" := "S1"], 2);
    var m2 := Mapper(map["A" := "S1", "B" := "S2"], 3);
    assert Label(1) == "S1" && Label(2) == "S2" by {
      assert IntToString(1) == "1" && IntToString(2) == "2";
    }
    assert LabelRuns(m0, [r1], 10.0) == ([s1], m1) by {
      assert [r1][..0] == [];
      assert LabelRuns(m0, [], 10.0) == ([], m0);
      assert Assign(m0, "A") == (m1, "S1") by {
        assert m0.mapping["A" := "S1"] == m1.mapping;
      }
      assert [] + [s1] == [s1];
      assert SegmentOf(r1, "S1", 10.0) == s1 by {
        assert Texts([a, b]) == ["hi", "there"] by {
          assert [a, b][..1] == [a];
        }
        assert Join(["hi", "there"], " ") == "hi there";
      }
    }
    assert LabelRuns(m0, [r1, r2], 10.0) == ([s1, s2], m2) by {
      assert [r1, r2][..1] == [r1];
      assert Assign(m1, "B") == (m2, "S2") by {
        assert m1.mapping["B" := "S2"] == m2.mapping;
      }
      assert SegmentOf(r2, "S2", 10.0) == s2 by {
        assert Texts([c]) == ["yo"];
      }
      assert [s1] + [s2] == [s1, s2];
    }
  }

  /** A word that starts and ends with a printable character is its own
      stripped form. */
  lemma StripWord(w: string)
    requires w != [] && '!' <= w[0] <= '~' && '!' <= w[|w| - 1] <= '~'
    ensures Strip(w) == w
  {
    PrintableNotSpace(w[0]);
    PrintableNotSpace(w[|w| - 1]);
    StripSpec(w);
  }

  // ---------------------------------------------------------------- one frame at a time

  /** What the callers do with each frame: `add_audio`, then, when
      `should_process` holds at the frame's timestamp, `process_buffer`. */
  function Ingest(s: State, chunkDuration: real, frame: AudioFrame, backend: Backend): (r: Outcome)
    ensures ShouldProcess(s.(buffer := s.buffer + [frame]), chunkDuration, frame.timestamp)
      ==> r.state.buffer == [] && r.state.lastSentTime == frame.timestamp
    ensures !ShouldProcess(s.(buffer := s.buffer + [frame]), chunkDuration, frame.timestamp)
      ==> r == Outcome([], s.(buffer := s.buffer + [frame]))
  {
    var added := s.(buffer := s.buffer + [frame]);
    if ShouldProcess(added, chunkDuration, frame.timestamp) then Process(added, backend)
    else Outcome([], added)
  }

  /** Buffered frames lie within one chunk of the watermark, and no later
      than `t`. */
  ghost predicate Windowed(s: State, chunkDuration: real, t: real) {
    s.lastSentTime <= t
    && forall i :: 0 <= i < |s.buffer| ==> s.buffer[i].timestamp <= t && s.buffer[i].timestamp - s.lastSentTime < chunkDuration
  }

  /** With non-decreasing frame timestamps the watermark never moves back,
      never passes the newest frame, and every frame still buffered is less
      than one chunk past the watermark. */
  lemma IngestWindow(s: State, chunkDuration: real, t: real, frame: AudioFrame, backend: Backend)
    requires Windowed(s, chunkDuration, t) && t <= frame.timestamp
    ensures var r := Ingest(s, chunkDuration, frame, backend);
      Windowed(r.state, chunkDuration, frame.timestamp)
      && s.lastSentTime <= r.state.lastSentTime
  {
  }

  /** Frames fed one after the other; the segments of each flush in order. */
  function IngestAll(s: State, chunkDuration: real, frames: seq<AudioFrame>, backend: Backend): Outcome
    decreases |frames|
  {
    if frames == [] then Outcome([], s)
    else
      var first := Ingest(s, chunkDuration, frames[0], backend);
      var rest := IngestAll(first.state, chunkDuration, frames[1..], backend);
      Outcome(first.segments + rest.segments, rest.state)
  }

  predicate Sorted(frames: seq<AudioFrame>) {
    forall i, j :: 0 <= i < j < |frames| ==> frames[i].timestamp <= frames[j].timestamp
  }

  /** Over a run of frames with non-decreasing timestamps the watermark only
      moves forward and the window property holds at the end. */
  lemma {:induction false} IngestAllMonotone(s: State, chunkDuration: real, t: real, frames: seq<AudioFrame>, backend: Backend)
    requires Windowed(s, chunkDuration, t) && Sorted(frames)
    requires frames != [] ==> t <= frames[0].timestamp
    ensures var r := IngestAll(s, chunkDuration, frames, backend);
      s.lastSentTime <= r.state.lastSentTime
      && Windowed(r.state, chunkDuration, if frames == [] then t else frames[|frames| - 1].timestamp)
    decreases |frames|
  {
    if frames != [] {
      IngestWindow(s, chunkDuration, t, frames[0], backend);
      var first := Ingest(s, chunkDuration, frames[0], backend);
      IngestAllMonotone(first.state, chunkDuration, frames[0].timestamp, frames[1..], backend);
    }
  }

  // ---------------------------------------------------------------- the object

  class Transcriber {
    const chunkDuration: real
    var audioBuffer: seq<AudioFrame>
    var lastSentTime: real
    var speakerMapping: map<string, string>
    var nextSpeakerNum: int

    function Model(): State
      reads this
    {
      State(audioBuffer, lastSentTime, Mapper(speakerMapping, nextSpeakerNum))
    }

    constructor(config: Config)
      requires config.elevenApiKey != []
      ensures Model() == Initial() && chunkDuration == config.elevenlabsChunkDuration as real
    {
      chunkDuration := config.elevenlabsChunkDuration as real;
      audioBuffer := [];
      lastSentTime := 0.0;
      speakerMapping := map[];
      nextSpeakerNum := 1;
    }

    /** `_get_simple_speaker_id`. */
    method GetSimpleSpeakerId(tag: string) returns (id: string)
      modifies this
      ensures (Mapper(speakerMapping, nextSpeakerNum), id) == Assign(old(Model()).mapper, tag)
      ensures audioBuffer == old(audioBuffer) && lastSentTime == old(lastSentTime)
    {
      if tag !in speakerMapping {
        speakerMapping := speakerMapping[tag := "S" + IntToString(nextSpeakerNum)];
        nextSpeakerNum := nextSpeakerNum + 1;
      }
      id := speakerMapping[tag];
    }

    /** `add_audio`: the frame goes to the end of the buffer; nothing else changes. */
    method AddAudio(frame: AudioFrame)
      modifies this
      ensures Model() == old(Model()).(buffer := old(audioBuffer) + [frame])
    {
      audioBuffer := audioBuffer + [frame];
    }

    /** `should_process`. */
    predicate ShouldProcessAt(t: real)
      reads this
    {
      ShouldProcess(Model(), chunkDuration, t)
    }

    /** `process_buffer`, with the service call answered by `backend`. */
    method ProcessBuffer(backend: Backend) returns (segments: seq<TranscriptSegment>)
      modifies this
      ensures Outcome(segments, Model()) == Process(old(Model()), backend)
    {
      if audioBuffer == [] {
        return [];
      }
      var decoded := DecodeAll(audioBuffer);
      var startTimestamp := audioBuffer[0].timestamp;
      var endTimestamp := audioBuffer[|audioBuffer| - 1].timestamp;
      segments := [];
      if decoded.Some? {
        var response := backend(decoded.value);
        if response.Transcribed? && response.words != [] {
          segments := GroupWords(response.words, startTimestamp);
        } else if response.Transcribed? && response.text != [] {
          segments := [TranscriptSegment("S1", response.text, startTimestamp, endTimestamp)];
        }
      }
      lastSentTime := endTimestamp;
      audioBuffer := [];
    }

    /** The grouping loop of `process_buffer`: consecutive kept words with
        the same tag form one segment, closed and labelled when the tag
        changes and once more after the last word. */
    method GroupWords(words: seq<BackendWord>, startTimestamp: real) returns (segments: seq<TranscriptSegment>)
      modifies this
      ensures (segments, Model().mapper)
        == LabelRuns(old(Model()).mapper, Group(Kept(words)), startTimestamp)
      ensures audioBuffer == old(audioBuffer) && lastSentTime == old(lastSentTime)
    {
      ghost var m0 := Model().mapper;
      var currentSpeaker: Option<string> := None;
      var currentWords: seq<string> := [];
      var currentStart: real := 0.0;
      var currentEnd: real := 0.0;
      segments := [];
      ghost var g: seq<Run> := [];
      for i := 0 to |words|
        invariant audioBuffer == old(audioBuffer) && lastSentTime == old(lastSentTime)
        invariant g == GroupedUpTo(words, i) && NonEmptyRuns(g)
        invariant Pending(currentSpeaker, currentWords, currentStart, currentEnd, segments, Model().mapper)
          == PendingOf(m0, startTimestamp, g)
      {
        var w := Normalize(words[i]);
        if w.text == [] {
          continue;
        }
        if currentSpeaker != Some(w.tag) {
          if currentSpeaker.Some? && currentWords != [] {
            segments := EmitRun(g, m0, startTimestamp, currentSpeaker.value, currentWords, currentStart, currentEnd, segments);
          } else {
            NothingOpen(g, m0, startTimestamp);
          }
          OpenRun(g, m0, startTimestamp, w);
          g := AddWord(g, w);
          currentSpeaker := Some(w.tag);
          currentWords := [w.text];
          currentStart := w.start;
          currentEnd := w.end;
        } else {
          ExtendRun(g, m0, startTimestamp, w);
          g := AddWord(g, w);
          currentWords := currentWords + [w.text];
          currentEnd := w.end;
        }
      }
      assert words[..|words|] == words;
      GroupedUpToKept(words, |words|);
      if currentSpeaker.Some? && currentWords != [] {
        segments := EmitRun(g, m0, startTimestamp, currentSpeaker.value, currentWords, currentStart, currentEnd, segments);
      } else {
        NothingOpen(g, m0, startTimestamp);
      }
    }

    /** Saving the open run's segment: label its tag, join its words and
        offset its times by the chunk's start. */
    method EmitRun(ghost g: seq<Run>, ghost m0: Mapper, startTimestamp: real, currentSpeaker: string,
                   currentWords: seq<string>, currentStart: real, currentEnd: real,
                   segments: seq<TranscriptSegment>) returns (segments': seq<TranscriptSegment>)
      modifies this
      requires NonEmptyRuns(g)
      requires Pending(Some(currentSpeaker), currentWords, currentStart, currentEnd, segments, Model().mapper)
        == PendingOf(m0, startTimestamp, g)
      ensures (segments', Model().mapper) == LabelRuns(m0, g, startTimestamp)
      ensures audioBuffer == old(audioBuffer) && lastSentTime == old(lastSentTime)
    {
      CloseRun(g, m0, startTimestamp);
      var id := GetSimpleSpeakerId(currentSpeaker);
      segments' := segments + [TranscriptSegment(id, Join(currentWords, " "), startTimestamp + currentStart, startTimestamp + currentEnd)];
    }

    /** `np.frombuffer` on each buffered frame, then `np.concatenate`;
        `None` at the first frame with an odd byte count. */
    static method DecodeAll(frames: seq<AudioFrame>) returns (r: Option<seq<int16>>)
      ensures r == Combined(frames)
    {
      var combined: seq<int16> := [];
      for i := 0 to |frames|
        invariant Combined(frames[..i]) == Some(combined)
      {
        Seqs.PrefixOfPrefix(frames, i);
        var samples := FromBytes(frames[i].pcm);
        if samples.None? {
          CombinedFailsOn(frames, i + 1);
          return None;
        }
        combined := combined + samples.value;
      }
      assert frames[..|frames|] == frames;
      return Some(combined);
    }
  }

  /** The loop state of `GroupWords`: the open run's tag, texts and times,
      and the segments and dictionary so far. */
  datatype Pending = Pending(speaker: Option<string>, texts: seq<string>, start: real, end: real,
                             segments: seq<TranscriptSegment>, mapper: Mapper)

  /** The loop state once the words seen so far are grouped into `g`: the
      last run is open, the others are emitted. */
  function PendingOf(m0: Mapper, t0: real, g: seq<Run>): (p: Pending)
    requires NonEmptyRuns(g)
    ensures p.speaker.Some? <==> g != []
    ensures g != [] ==> p.speaker == Some(g[|g| - 1].tag) && p.texts != []
  {
    if g == [] then Pending(None, [], 0.0, 0.0, [], m0)
    else
      var last := g[|g| - 1];
      var (segs, m) := LabelRuns(m0, g[..|g| - 1], t0);
      Pending(Some(last.tag), Texts(last.words), last.words[0].start, last.words[|last.words| - 1].end, segs, m)
  }

  /** Closing the open run: labelling it completes the labelling of `g`. */
  lemma CloseRun(g: seq<Run>, m0: Mapper, t0: real)
    requires NonEmptyRuns(g) && g != []
    ensures var p := PendingOf(m0, t0, g);
      var (m', id) := Assign(p.mapper, p.speaker.value);
      LabelRuns(m0, g, t0) == (p.segments + [SegmentOf(g[|g| - 1], id, t0)], m')
  {
  }

  /** With no open run there is nothing to emit. */
  lemma NothingOpen(g: seq<Run>, m0: Mapper, t0: real)
    requires NonEmptyRuns(g) && g == []
    ensures (PendingOf(m0, t0, g).segments, PendingOf(m0, t0, g).mapper) == LabelRuns(m0, g, t0)
  {
  }

  /** A word with a tag other than the open run's opens a new run once the
      runs of `g` are all emitted. */
  lemma OpenRun(g: seq<Run>, m0: Mapper, t0: real, w: Word)
    requires NonEmptyRuns(g) && (g == [] || g[|g| - 1].tag != w.tag)
    ensures NonEmptyRuns(AddWord(g, w))
    ensures var (segs, m) := LabelRuns(m0, g, t0);
      PendingOf(m0, t0, AddWord(g, w)) == Pending(Some(w.tag), [w.text], w.start, w.end, segs, m)
  {
    var g' := g + [Run(w.tag, [w])];
    assert AddWord(g, w) == g';
    assert g'[..|g'| - 1] == g;
    assert Texts([w]) == [w.text];
  }

  /** A word with the open run's tag extends the open run. */
  lemma ExtendRun(g: seq<Run>, m0: Mapper, t0: real, w: Word)
    requires NonEmptyRuns(g) && g != [] && g[|g| - 1].tag == w.tag
    ensures NonEmptyRuns(AddWord(g, w))
    ensures var p := PendingOf(m0, t0, g);
      PendingOf(m0, t0, AddWord(g, w)) == p.(texts := p.texts + [w.text], end := w.end)
  {
    var last := g[|g| - 1];
    var g' := g[..|g| - 1] + [Run(w.tag, last.words + [w])];
    assert AddWord(g, w) == g';
    assert g'[..|g'| - 1] == g[..|g| - 1];
    assert (last.words + [w])[..|last.words|] == last.words;
    forall i | 0 <= i < |g'|
      ensures g'[i].words != []
    {
      if i < |g| - 1 {
        assert g'[i] == g[i];
      }
    }
  }
}
