/** The session summarizer (`deafine/summarization.py`, `SessionSummarizer`):
    it files each segment under its speaker, rebuilds the conversation in
    time order, and produces the extractive summaries and the counters.

    The transcripts are a Python dict from speaker id to the list of that
    speaker's segments, in the order speakers first appear (`OrderedMap`). */
module Summarization {
  import opened Wrappers
  import opened Text
  import opened Events
  import opened OrderedMaps
  import Seqs

  type Transcripts = OrderedMap<string, seq<TranscriptSegment>>

  /** A speaker's list, or `[]` for a speaker never seen (`dict.get(k, [])`). */
  function ListOf(t: Transcripts, id: string): seq<TranscriptSegment> {
    if id in t.values then t.values[id] else []
  }

  /** `add_transcript`: the segment goes to the end of its speaker's list. */
  function Added(t: Transcripts, seg: TranscriptSegment): (r: Transcripts)
    requires t.Valid()
    ensures r.Valid()
  {
    t.Put(seg.speakerId, ListOf(t, seg.speakerId) + [seg])
  }

  /** Adding a segment touches only its speaker's list, which grows by that
      segment at the end; a new speaker is listed last. */
  lemma AddedOnly(t: Transcripts, seg: TranscriptSegment, id: string)
    requires t.Valid()
    ensures ListOf(Added(t, seg), id) == if id == seg.speakerId then ListOf(t, id) + [seg] else ListOf(t, id)
    ensures Added(t, seg).keys == if seg.speakerId in t.values then t.keys else t.keys + [seg.speakerId]
  {
  }

  /** The segments of one speaker, in order. */
  function OfSpeaker(segs: seq<TranscriptSegment>, id: string): seq<TranscriptSegment> {
    if segs == [] then []
    else OfSpeaker(segs[..|segs| - 1], id) + (if segs[|segs| - 1].speakerId == id then [segs[|segs| - 1]] else [])
  }

  /** Segments added one after the other. */
  function AddAll(t: Transcripts, segs: seq<TranscriptSegment>): (r: Transcripts)
    requires t.Valid()
    ensures r.Valid()
  {
    if segs == [] then t else Added(AddAll(t, segs[..|segs| - 1]), segs[|segs| - 1])
  }

  /** After adding segments, each speaker's list has grown by exactly that
      speaker's segments, in the order they were added; speakers already
      known keep their place and new ones follow. */
  lemma {:induction false} AddAllLists(t: Transcripts, segs: seq<TranscriptSegment>, id: string)
    requires t.Valid()
    ensures ListOf(AddAll(t, segs), id) == ListOf(t, id) + OfSpeaker(segs, id)
    ensures t.keys <= AddAll(t, segs).keys
  {
    if segs != [] {
      var init, last := segs[..|segs| - 1], segs[|segs| - 1];
      var extra := if last.speakerId == id then [last] else [];
      AddAllLists(t, init, id);
      AddedOnly(AddAll(t, init), last, id);
      Seqs.AppendAssoc(ListOf(t, id), OfSpeaker(init, id), extra);
    }
  }

  // ---------------------------------------------------------------- speaker text

  /** The texts of the segments that have one, in order. */
  function NonEmptyTexts(segs: seq<TranscriptSegment>): (r: seq<string>)
    ensures |r| <= |segs|
  {
    if segs == [] then []
    else NonEmptyTexts(segs[..|segs| - 1]) + (if segs[|segs| - 1].text != [] then [segs[|segs| - 1].text] else [])
  }

  function AllTexts(segs: seq<TranscriptSegment>): seq<string> {
    if segs == [] then [] else AllTexts(segs[..|segs| - 1]) + [segs[|segs| - 1].text]
  }

  /** `get_speaker_text`: the non-empty texts joined by single spaces. */
  function SpeakerText(t: Transcripts, id: string): string {
    Join(NonEmptyTexts(ListOf(t, id)), " ")
  }

  /** The words of a speaker's text are the words of its segments, in order;
      an unknown speaker has none. */
  lemma SpeakerTextWords(t: Transcripts, id: string)
    ensures Split(SpeakerText(t, id)) == SplitAll(AllTexts(ListOf(t, id)))
    ensures id !in t.values ==> SpeakerText(t, id) == ""
  {
    SplitJoinSpace(NonEmptyTexts(ListOf(t, id)));
    SplitAllNonEmpty(ListOf(t, id));
  }

  /** Dropping empty texts drops no word. */
  lemma {:induction false} SplitAllNonEmpty(segs: seq<TranscriptSegment>)
    ensures SplitAll(NonEmptyTexts(segs)) == SplitAll(AllTexts(segs))
  {
    if segs != [] {
      var init, last := segs[..|segs| - 1], segs[|segs| - 1];
      SplitAllNonEmpty(init);
      SplitAllAppend(NonEmptyTexts(init), if last.text != [] then [last.text] else []);
      SplitAllAppend(AllTexts(init), [last.text]);
      if last.text == [] {
        assert Split(last.text) == [];
        assert SplitAll([last.text]) == [];
      }
    }
  }

  // ---------------------------------------------------------------- all text

  /** The lists one after the other, speakers in dict order. */
  function Concat(ks: seq<string>, m: map<string, seq<TranscriptSegment>>): seq<TranscriptSegment>
    requires forall k :: k in ks ==> k in m
  {
    if ks == [] then [] else Concat(ks[..|ks| - 1], m) + m[ks[|ks| - 1]]
  }

  function AllSegments(t: Transcripts): seq<TranscriptSegment>
    requires t.Valid()
  {
    Concat(t.keys, t.values)
  }

  predicate SortedByStart(s: seq<TranscriptSegment>) {
    forall i, j :: 0 <= i < j < |s| ==> s[i].startTime <= s[j].startTime
  }

  /** The segments that start at `v`, in order. */
  function StartingAt(s: seq<TranscriptSegment>, v: real): seq<TranscriptSegment> {
    if s == [] then []
    else StartingAt(s[..|s| - 1], v) + (if s[|s| - 1].startTime == v then [s[|s| - 1]] else [])
  }

  /** Insertion after every segment that starts no later. */
  function InsertByStart(xs: seq<TranscriptSegment>, x: TranscriptSegment): seq<TranscriptSegment> {
    if xs == [] then [x]
    else if xs[|xs| - 1].startTime <= x.startTime then xs + [x]
    else InsertByStart(xs[..|xs| - 1], x) + [xs[|xs| - 1]]
  }

  /** `list.sort(key=lambda s: s.start_time)`, a stable sort. */
  function SortByStart(s: seq<TranscriptSegment>): seq<TranscriptSegment> {
    if s == [] then [] else InsertByStart(SortByStart(s[..|s| - 1]), s[|s| - 1])
  }

  lemma {:induction false} InsertByStartPerm(xs: seq<TranscriptSegment>, x: TranscriptSegment)
    ensures multiset(InsertByStart(xs, x)) == multiset(xs) + multiset{x}
  {
    if xs != [] && xs[|xs| - 1].startTime > x.startTime {
      var init := xs[..|xs| - 1];
      assert init + [xs[|xs| - 1]] == xs;
      InsertByStartPerm(init, x);
    }
  }

  lemma {:induction false} InsertByStartBound(xs: seq<TranscriptSegment>, x: TranscriptSegment, b: real)
    requires forall i :: 0 <= i < |xs| ==> xs[i].startTime <= b
    requires x.startTime <= b
    ensures forall i :: 0 <= i < |InsertByStart(xs, x)| ==> InsertByStart(xs, x)[i].startTime <= b
  {
    if xs != [] && xs[|xs| - 1].startTime > x.startTime {
      InsertByStartBound(xs[..|xs| - 1], x, b);
    }
  }

  lemma {:induction false} InsertByStartSorted(xs: seq<TranscriptSegment>, x: TranscriptSegment)
    requires SortedByStart(xs)
    ensures SortedByStart(InsertByStart(xs, x))
  {
    if xs != [] && xs[|xs| - 1].startTime > x.startTime {
      var init, last := xs[..|xs| - 1], xs[|xs| - 1];
      InsertByStartSorted(init, x);
      InsertByStartBound(init, x, last.startTime);
    }
  }

  /** Inserting keeps the segments that start at any one time in their order. */
  lemma {:induction false} InsertByStartStable(xs: seq<TranscriptSegment>, x: TranscriptSegment, v: real)
    requires SortedByStart(xs)
    ensures StartingAt(InsertByStart(xs, x), v) == StartingAt(xs, v) + (if x.startTime == v then [x] else [])
  {
    if xs != [] {
      var init, last := xs[..|xs| - 1], xs[|xs| - 1];
      if last.startTime <= x.startTime {
        assert (xs + [x])[..|xs|] == xs;
      } else {
        InsertByStartStable(init, x, v);
        var r := InsertByStart(init, x);
        assert (r + [last])[..|r|] == r;
      }
    }
  }

  /** The sort orders the segments by start time, keeps every one of them,
      and keeps the segments with equal start times in their order. */
  lemma {:induction false} SortByStartSpec(s: seq<TranscriptSegment>, v: real)
    ensures SortedByStart(SortByStart(s))
    ensures multiset(SortByStart(s)) == multiset(s)
    ensures StartingAt(SortByStart(s), v) == StartingAt(s, v)
  {
    if s != [] {
      var init := s[..|s| - 1];
      assert init + [s[|s| - 1]] == s;
      SortByStartSpec(init, v);
      InsertByStartSorted(SortByStart(init), s[|s| - 1]);
      InsertByStartPerm(SortByStart(init), s[|s| - 1]);
      InsertByStartStable(SortByStart(init), s[|s| - 1], v);
    }
  }

  /** One line of the conversation: `"<speaker>: <text>"`. */
  function Line(seg: TranscriptSegment): string {
    seg.speakerId + ": " + seg.text
  }

  function Lines(s: seq<TranscriptSegment>): (r: seq<string>)
    ensures |r| == |s|
  {
    if s == [] then [] else Lines(s[..|s| - 1]) + [Line(s[|s| - 1])]
  }

  /** `get_all_text`. */
  function AllText(t: Transcripts): string
    requires t.Valid()
  {
    Join(Lines(SortByStart(AllSegments(t))), "\n")
  }

  /** The conversation lists each segment once, in start-time order, with
      ties kept in dict order then list order. */
  lemma AllTextOrder(t: Transcripts, v: real)
    requires t.Valid()
    ensures var s := SortByStart(AllSegments(t));
      AllText(t) == Join(Lines(s), "\n")
      && SortedByStart(s) && multiset(s) == multiset(AllSegments(t))
      && StartingAt(s, v) == StartingAt(AllSegments(t), v)
  {
    SortByStartSpec(AllSegments(t), v);
  }

  // ---------------------------------------------------------------- extractive summary

  const Ellipsis: string := "[...]"

  /** `_generate_extractive_summary(text, max_words)`: a text of at most
      `max_words` words comes back unchanged; a longer one is cut to its
      first and last `max_words // 2` words around `" [...] "`. */
  function ExtractiveSummary(text: string, maxWords: int): string {
    var words := Split(text);
    if |words| <= maxWords then text
    else
      var k := maxWords / 2;
      Cut(words, k)
  }

  /** The first and the last `k` words around the ellipsis. */
  function Cut(words: seq<string>, k: int): string {
    Around(Join(SliceTo(words, k), " "), Join(SliceFrom(words, -k), " "))
  }

  /** The two halves of a long text joined by `" [...] "`. */
  function Around(a: string, b: string): string {
    a + " " + Ellipsis + " " + b
  }

  lemma EllipsisIsWord()
    ensures IsWord(Ellipsis)
  {
    PrintableNotSpace('[');
    PrintableNotSpace('.');
    PrintableNotSpace(']');
  }

  /** A long text's summary is its first `k` words, the ellipsis and its
      last `k` words (for `k = max_words // 2` at least 1). */
  lemma ExtractiveLong(text: string, maxWords: int)
    requires maxWords >= 2 && |Split(text)| > maxWords
    ensures var w := Split(text); var k := maxWords / 2;
      Split(ExtractiveSummary(text, maxWords)) == w[..k] + [Ellipsis] + w[|w| - k..]
  {
    var w := Split(text);
    var k := maxWords / 2;
    assert ExtractiveSummary(text, maxWords) == Cut(w, k);
    SplitYieldsWords(text);
    AroundWords(w, k);
  }

  /** Joining the first and last `k` of some words around the ellipsis and
      splitting again gives those words back around the ellipsis. */
  lemma AroundWords(ws: seq<string>, k: int)
    requires 1 <= k <= |ws| && forall i :: 0 <= i < |ws| ==> IsWord(ws[i])
    ensures Split(Cut(ws, k)) == ws[..k] + [Ellipsis] + ws[|ws| - k..]
  {
    var head, tail := SliceTo(ws, k), SliceFrom(ws, -k);
    assert head == ws[..k];
    assert tail == ws[|ws| - k..];
    forall i | 0 <= i < k
      ensures IsWord(head[i]) && IsWord(tail[i])
    {
      assert head[i] == ws[i];
      assert tail[i] == ws[|ws| - k + i];
    }
    SplitJoinWords(head);
    SplitJoinWords(tail);
    SplitAround(Join(head, " "), Join(tail, " "));
  }

  /** The ellipsis stands as a word of its own between the two halves. */
  lemma SplitAround(a: string, b: string)
    ensures Split(Around(a, b)) == Split(a) + [Ellipsis] + Split(b)
  {
    var rest := Ellipsis + [' '] + b;
    AroundShape(a, b);
    SplitSeparated(a, ' ', rest);
    EllipsisIsWord();
    SplitWord(Ellipsis);
    SplitSeparated(Ellipsis, ' ', b);
    Seqs.AppendAssoc(Split(a), [Ellipsis], Split(b));
  }

  lemma AroundShape(a: string, b: string)
    ensures Around(a, b) == a + [' '] + (Ellipsis + [' '] + b)
  {
  }

  /** A text within the limit is returned as it is. */
  lemma ExtractiveShort(text: string, maxWords: int)
    requires |Split(text)| <= maxWords
    ensures ExtractiveSummary(text, maxWords) == text
  {
  }

  // ---------------------------------------------------------------- session summary

  const NoConversation: string := "No conversation recorded."
  const Brief: string := "Brief contribution"

  /** A speaker's entry: fewer than 5 words is a brief contribution, more is
      cut to 50 words. */
  function SpeakerSummary(t: Transcripts, id: string): string {
    var text := SpeakerText(t, id);
    if |Split(text)| < 5 then Brief else ExtractiveSummary(text, 50)
  }

  /** The entries for the speakers `ids`, one after the other. */
  function PutSpeakers(base: OrderedMap<string, string>, t: Transcripts, ids: seq<string>): (r: OrderedMap<string, string>)
    requires base.Valid()
    ensures r.Valid()
  {
    if ids == [] then base
    else PutSpeakers(base, t, ids[..|ids| - 1]).Put(ids[|ids| - 1], SpeakerSummary(t, ids[|ids| - 1]))
  }

  /** `generate_session_summary` without the AI client. */
  function SessionSummary(t: Transcripts): (r: OrderedMap<string, string>)
    requires t.Valid()
    ensures r.Valid()
  {
    if t.keys == [] then Empty<string, string>().Put("overall", NoConversation)
    else
      var overall := Empty<string, string>().Put("overall", ExtractiveSummary(AllText(t), 100));
      PutSpeakers(overall, t, SortStrings(t.keys))
  }

  /** No transcript gives exactly the one entry. */
  lemma SessionSummaryEmpty(t: Transcripts)
    requires t.Valid() && t.keys == []
    ensures SessionSummary(t).keys == ["overall"]
    ensures SessionSummary(t).values == map["overall" := NoConversation]
  {
  }

  /** Each speaker's entry after the speakers `ids` are written: the last
      write for a speaker wins, and other keys keep the base's entry. */
  lemma {:induction false} PutSpeakersGet(base: OrderedMap<string, string>, t: Transcripts, ids: seq<string>, k: string)
    requires base.Valid()
    ensures k in ids ==> k in PutSpeakers(base, t, ids).values && PutSpeakers(base, t, ids).values[k] == SpeakerSummary(t, k)
    ensures k !in ids ==> (k in PutSpeakers(base, t, ids).values <==> k in base.values)
    ensures k !in ids && k in base.values ==> PutSpeakers(base, t, ids).values[k] == base.values[k]
  {
    if ids != [] {
      var init, last := ids[..|ids| - 1], ids[|ids| - 1];
      PutSpeakersGet(base, t, init, k);
      var m := PutSpeakers(base, t, init);
      assert PutSpeakers(base, t, ids).values == m.values[last := SpeakerSummary(t, last)];
      InLast(ids, k);
    }
  }

  lemma InLast(xs: seq<string>, k: string)
    requires xs != []
    ensures k in xs <==> k in xs[..|xs| - 1] || k == xs[|xs| - 1]
  {
    assert xs == xs[..|xs| - 1] + [xs[|xs| - 1]];
  }

  /** With transcripts, the summary has an overall entry and one entry per
      speaker: fewer than 5 words is a brief contribution, more is an
      extractive summary of 50 words; the overall entry summarizes the
      conversation in 100 words unless a speaker is itself called "overall". */
  lemma SessionSummaryEntries(t: Transcripts, id: string)
    requires t.Valid() && t.keys != []
    ensures var r := SessionSummary(t);
      "overall" in r.values
      && ("overall" !in t.values ==> r.values["overall"] == ExtractiveSummary(AllText(t), 100))
      && (id in t.values ==> id in r.values && r.values[id] == SpeakerSummary(t, id))
      && (id != "overall" && id !in t.values ==> id !in r.values)
  {
    var ids := SortStrings(t.keys);
    SortStringsSpec(t.keys);
    assert id in ids <==> id in t.keys by {
      assert id in multiset(ids) <==> id in multiset(t.keys);
    }
    var overall := Empty<string, string>().Put("overall", ExtractiveSummary(AllText(t), 100));
    PutSpeakersGet(overall, t, ids, id);
    PutSpeakersGet(overall, t, ids, "overall");
    assert "overall" in ids <==> "overall" in t.keys by {
      assert "overall" in multiset(ids) <==> "overall" in multiset(t.keys);
    }
  }

  // ---------------------------------------------------------------- statistics

  /** The words of the segments' texts, counted segment by segment. */
  function WordCount(segs: seq<TranscriptSegment>): nat {
    if segs == [] then 0 else WordCount(segs[..|segs| - 1]) + |Split(segs[|segs| - 1].text)|
  }

  /** The speaking time of the segments, end minus start, summed. */
  function Duration(segs: seq<TranscriptSegment>): real {
    if segs == [] then 0.0
    else Duration(segs[..|segs| - 1]) + (segs[|segs| - 1].endTime - segs[|segs| - 1].startTime)
  }

  datatype SpeakerStats = SpeakerStats(segments: nat, words: nat, durationSeconds: real)

  datatype Stats = Stats(totalSpeakers: nat, totalSegments: nat, speakers: seq<(string, SpeakerStats)>)

  function SumLengths(ks: seq<string>, m: map<string, seq<TranscriptSegment>>): nat
    requires forall k :: k in ks ==> k in m
  {
    if ks == [] then 0 else SumLengths(ks[..|ks| - 1], m) + |m[ks[|ks| - 1]]|
  }

  function PerSpeaker(ks: seq<string>, m: map<string, seq<TranscriptSegment>>): (r: seq<(string, SpeakerStats)>)
    requires forall k :: k in ks ==> k in m
    ensures |r| == |ks|
  {
    if ks == [] then []
    else
      var k := ks[|ks| - 1];
      PerSpeaker(ks[..|ks| - 1], m) + [(k, SpeakerStats(|m[k]|, WordCount(m[k]), Duration(m[k])))]
  }

  /** `get_stats`; the durations are not rounded to one decimal. */
  function GetStats(t: Transcripts): Stats
    requires t.Valid()
  {
    Stats(|t.keys|, SumLengths(t.keys, t.values), PerSpeaker(t.keys, t.values))
  }

  /** The segment total is the number of lines of the conversation, and
      each speaker's word count is the number of words of its text. */
  lemma StatsAgree(t: Transcripts, i: nat)
    requires t.Valid() && i < |t.keys|
    ensures GetStats(t).totalSegments == |Lines(SortByStart(AllSegments(t)))|
    ensures var (id, st) := GetStats(t).speakers[i];
      id == t.keys[i] && st.segments == |ListOf(t, id)| && st.words == |Split(SpeakerText(t, id))|
      && st.durationSeconds == Duration(ListOf(t, id))
  {
    ConcatLength(t.keys, t.values);
    SortByStartSpec(AllSegments(t), 0.0);
    assert |SortByStart(AllSegments(t))| == |AllSegments(t)| by {
      assert |multiset(SortByStart(AllSegments(t)))| == |multiset(AllSegments(t))|;
    }
    PerSpeakerAt(t.keys, t.values, i);
    SpeakerTextWords(t, t.keys[i]);
    WordCountSplitAll(ListOf(t, t.keys[i]));
  }

  lemma {:induction false} ConcatLength(ks: seq<string>, m: map<string, seq<TranscriptSegment>>)
    requires forall k :: k in ks ==> k in m
    ensures |Concat(ks, m)| == SumLengths(ks, m)
  {
    if ks != [] {
      ConcatLength(ks[..|ks| - 1], m);
    }
  }

  lemma {:induction false} PerSpeakerAt(ks: seq<string>, m: map<string, seq<TranscriptSegment>>, i: nat)
    requires forall k :: k in ks ==> k in m
    requires i < |ks|
    ensures PerSpeaker(ks, m)[i] == (ks[i], SpeakerStats(|m[ks[i]]|, WordCount(m[ks[i]]), Duration(m[ks[i]])))
  {
    if i < |ks| - 1 {
      PerSpeakerAt(ks[..|ks| - 1], m, i);
    }
  }

  lemma {:induction false} WordCountSplitAll(segs: seq<TranscriptSegment>)
    ensures WordCount(segs) == |SplitAll(AllTexts(segs))|
  {
    if segs != [] {
      var init, last := segs[..|segs| - 1], segs[|segs| - 1];
      WordCountSplitAll(init);
      SplitAllAppend(AllTexts(init), [last.text]);
      assert SplitAll([last.text]) == Split(last.text) + SplitAll([]);
    }
  }

  // ---------------------------------------------------------------- the object

  class SessionSummarizer {
    var transcripts: Transcripts

    ghost predicate Valid()
      reads this
    {
      transcripts.Valid()
    }

    constructor()
      ensures Valid() && transcripts == Empty()
    {
      transcripts := Empty();
    }

    /** `add_transcript`. */
    method AddTranscript(seg: TranscriptSegment)
      requires Valid()
      modifies this
      ensures Valid() && transcripts == Added(old(transcripts), seg)
    {
      var list := if seg.speakerId in transcripts.values then transcripts.values[seg.speakerId] else [];
      transcripts := transcripts.Put(seg.speakerId, list + [seg]);
    }

    /** `get_all_text`: gather the lists, sort by start time, one line per
        segment, lines joined by newlines. */
    method GetAllText() returns (r: string)
      requires Valid()
      ensures r == AllText(transcripts)
    {
      var all: seq<TranscriptSegment> := [];
      var ks := transcripts.keys;
      for i := 0 to |ks|
        invariant all == Concat(ks[..i], transcripts.values)
      {
        Seqs.PrefixOfPrefix(ks, i);
        all := all + transcripts.values[ks[i]];
      }
      assert ks[..|ks|] == ks;
      var sorted := SortByStart(all);
      var lines: seq<string> := [];
      for i := 0 to |sorted|
        invariant lines == Lines(sorted[..i])
      {
        Seqs.PrefixOfPrefix(sorted, i);
        lines := lines + [Line(sorted[i])];
      }
      assert sorted[..|sorted|] == sorted;
      r := Join(lines, "\n");
    }

    /** `generate_session_summary` without the AI client. */
    method GenerateSessionSummary() returns (r: OrderedMap<string, string>)
      requires Valid()
      ensures r == SessionSummary(transcripts)
    {
      if transcripts.keys == [] {
        return Empty<string, string>().Put("overall", NoConversation);
      }
      var fullText := GetAllText();
      var base := Empty<string, string>().Put("overall", ExtractiveSummary(fullText, 100));
      r := base;
      var ids := SortStrings(transcripts.keys);
      for i := 0 to |ids|
        invariant r == PutSpeakers(base, transcripts, ids[..i])
      {
        Seqs.PrefixOfPrefix(ids, i);
        var speakerText := SpeakerText(transcripts, ids[i]);
        if |Split(speakerText)| < 5 {
          r := r.Put(ids[i], Brief);
          continue;
        }
        r := r.Put(ids[i], ExtractiveSummary(speakerText, 50));
      }
      assert ids[..|ids|] == ids;
    }
  }
}
