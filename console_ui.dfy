/** The live speaker board (`audio_access/console_ui.py`): one display per
    speaker with its colour and current caption, the overlap indicator, and
    the rows the board shows. The Rich rendering, the clock and the console
    are not modelled; what would be printed is returned instead. */
module ConsoleUi {
  import opened Wrappers
  import opened Text
  import opened OrderedMaps
  import ElevenLabs

  const Colors: seq<string> := ["cyan", "green", "yellow", "magenta", "blue", "red"]

  /** The index into `Colors` of a speaker id: `S<n>` gives `(n - 1) mod 6`
      (Python's non-negative mod); an id not starting with `S` gives 0; an
      id starting with `S` whose rest is not an integer makes `int()` raise
      ValueError (`None`). */
  function ColorIndex(id: string): (r: Option<nat>)
    ensures r.Some? ==> r.value < |Colors|
  {
    if id != [] && id[0] == 'S' then
      match ParseInt(Strip(id[1..]))
      case Some(n) => Some((n - 1) % |Colors|)
      case None => None
    else Some(0)
  }

  /** The speaker labels `S<n>` the transcriber hands out cycle through the
      six colours, starting with the first. */
  lemma ColorOfLabel(n: int)
    ensures ColorIndex(ElevenLabs.Label(n)) == Some((n - 1) % 6)
  {
    var digits := IntToString(n);
    assert ElevenLabs.Label(n)[1..] == digits;
    assert digits[0] == '-' || IsDigit(digits[0]);
    assert IsDigit(digits[|digits| - 1]);
    PrintableNotSpace(digits[0]);
    PrintableNotSpace(digits[|digits| - 1]);
    StripTrimmed(digits);
    ParseIntToString(n);
  }

  /** Speakers `S1` to `S6` all get different colours. */
  lemma ColorsDistinct(m: int, n: int)
    requires 1 <= m < n <= 6
    ensures ColorIndex(ElevenLabs.Label(m)) != ColorIndex(ElevenLabs.Label(n))
  {
    ColorOfLabel(m);
    ColorOfLabel(n);
  }

  /** `SpeakerDisplay` without its clock reading. */
  datatype SpeakerDisplay = SpeakerDisplay(speakerId: string, caption: string, color: string)

  /** A new display: empty caption and the id's colour, or `None` where the
      constructor raises. */
  function NewDisplay(id: string): (r: Option<SpeakerDisplay>)
    ensures r.Some? <==> ColorIndex(id).Some?
    ensures r.Some? ==> r.value.speakerId == id && r.value.caption == ""
  {
    match ColorIndex(id)
    case Some(i) => Some(SpeakerDisplay(id, "", Colors[i]))
    case None => None
  }

  /** The board's fields; `live` says whether a live display was started. */
  datatype Board = Board(
    speakers: OrderedMap<string, SpeakerDisplay>,
    overlapActive: bool,
    overlapSpeakers: seq<string>,
    live: bool)

  function InitialBoard(): (b: Board)
    ensures b.speakers.Valid() && b.speakers.keys == [] && !b.overlapActive && !b.live
  {
    Board(Empty(), false, [], false)
  }

  /** `add_speaker`: a known speaker keeps its display; a new one gets a
      fresh display at the end; `None` where building it raises. */
  function WithSpeaker(b: Board, id: string): (r: Option<Board>)
    requires b.speakers.Valid()
    ensures r.Some? ==> r.value.speakers.Valid()
  {
    if id in b.speakers.values then Some(b)
    else match NewDisplay(id)
      case Some(d) => Some(b.(speakers := b.speakers.Put(id, d)))
      case None => None
  }

  /** `update_caption`: add the speaker, then replace its caption. */
  function WithCaption(b: Board, id: string, text: string): (r: Option<Board>)
    requires b.speakers.Valid()
    ensures r.Some? ==> r.value.speakers.Valid()
  {
    match WithSpeaker(b, id)
    case Some(b') =>
      var d := b'.speakers.values[id];
      Some(b'.(speakers := b'.speakers.Put(id, d.(caption := text))))
    case None => None
  }

  /** `set_overlap`: `speakers or []`. */
  function WithOverlap(b: Board, active: bool, speakers: Option<seq<string>>): Board {
    b.(overlapActive := active, overlapSpeakers := speakers.GetOr([]))
  }

  /** Adding a speaker never replaces a display and touches no other
      speaker; it fails only for a new id whose colour cannot be computed;
      a second call changes nothing. */
  lemma AddSpeakerKeeps(b: Board, id: string, other: string)
    requires b.speakers.Valid()
    ensures WithSpeaker(b, id).None? <==> id !in b.speakers.values && ColorIndex(id).None?
    ensures id in b.speakers.values ==> WithSpeaker(b, id) == Some(b)
    ensures WithSpeaker(b, id).Some? ==>
      var b' := WithSpeaker(b, id).value;
      b'.speakers.Valid() && id in b'.speakers.values
      && b'.overlapActive == b.overlapActive && b'.overlapSpeakers == b.overlapSpeakers && b'.live == b.live
      && (other != id ==> (other in b'.speakers.values <==> other in b.speakers.values))
      && (other in b.speakers.values ==> b'.speakers.values[other] == b.speakers.values[other])
      && WithSpeaker(b', id) == Some(b')
  {
  }

  /** Updating a caption sets that speaker's caption and nothing else: a
      known speaker keeps its colour, other speakers keep their displays. */
  lemma UpdateCaptionSets(b: Board, id: string, text: string, other: string)
    requires b.speakers.Valid()
    ensures WithCaption(b, id, text).None? <==> WithSpeaker(b, id).None?
    ensures WithCaption(b, id, text).Some? ==>
      var b' := WithCaption(b, id, text).value;
      b'.speakers.Valid() && id in b'.speakers.values
      && b'.speakers.values[id].caption == text
      && (id in b.speakers.values ==> b'.speakers.values[id].color == b.speakers.values[id].color)
      && (other != id && other in b.speakers.values ==> b'.speakers.values[other] == b.speakers.values[other])
      && (other != id ==> (other in b'.speakers.values <==> other in b.speakers.values))
      && b'.overlapActive == b.overlapActive && b'.overlapSpeakers == b.overlapSpeakers
  {
  }

  // ---------------------------------------------------------------- rows

  const CaptionLimit := 300
  const Waiting: string := "[dim]waiting...[/dim]"

  /** The caption cell: the last 300 characters, or a placeholder for an
      empty caption. */
  function CaptionCell(caption: string): string {
    if caption == [] then Waiting else SliceFrom(caption, -CaptionLimit)
  }

  /** A non-empty caption is shown as its own suffix of at most 300
      characters, the whole caption when it is short enough. */
  lemma CaptionCellSuffix(caption: string)
    requires caption != []
    ensures var c := CaptionCell(caption);
      |c| == (if |caption| <= CaptionLimit then |caption| else CaptionLimit)
      && c == caption[|caption| - |c|..]
  {
  }

  datatype Row = Row(heading: string, style: string, text: string)

  function SpeakerRows(ids: seq<string>, m: map<string, SpeakerDisplay>): (r: seq<Row>)
    requires forall k :: k in ids ==> k in m
    ensures |r| == |ids|
  {
    if ids == [] then []
    else
      var id := ids[|ids| - 1];
      SpeakerRows(ids[..|ids| - 1], m) + [Row(id, "bold " + m[id].color, CaptionCell(m[id].caption))]
  }

  /** The rows of the board (`generate_display`): one per speaker in id
      order, then the overlap row while an overlap is active. */
  function Rows(b: Board): seq<Row>
    requires b.speakers.Valid()
  {
    var ids := SortStrings(b.speakers.keys);
    SortedKeys(b.speakers);
    SpeakerRows(ids, b.speakers.values)
    + (if b.overlapActive then [Row("", "bold red blink", "[OVERLAP] " + Join(b.overlapSpeakers, ", "))] else [])
  }

  /** The sorted ids are the dict's keys, each once. */
  lemma SortedKeys(d: OrderedMap<string, SpeakerDisplay>)
    requires d.Valid()
    ensures |SortStrings(d.keys)| == |d.keys|
    ensures forall k :: k in SortStrings(d.keys) ==> k in d.values
  {
    var ids := SortStrings(d.keys);
    SortStringsSpec(d.keys);
    assert |multiset(ids)| == |multiset(d.keys)|;
    forall k | k in ids
      ensures k in d.values
    {
      assert k in multiset(ids);
    }
  }

  lemma {:induction false} SpeakerRowsAt(ids: seq<string>, m: map<string, SpeakerDisplay>, i: nat)
    requires forall k :: k in ids ==> k in m
    requires i < |ids|
    ensures SpeakerRows(ids, m)[i] == Row(ids[i], "bold " + m[ids[i]].color, CaptionCell(m[ids[i]].caption))
  {
    if i < |ids| - 1 {
      assert SpeakerRows(ids[..|ids| - 1], m)[i] == SpeakerRows(ids, m)[i] by {
        assert SpeakerRows(ids, m)[..|ids| - 1] == SpeakerRows(ids[..|ids| - 1], m);
      }
      SpeakerRowsAt(ids[..|ids| - 1], m, i);
    }
  }

  function Labels(rows: seq<Row>): seq<string> {
    if rows == [] then [] else Labels(rows[..|rows| - 1]) + [rows[|rows| - 1].heading]
  }

  /** The speaker rows name every speaker once, in string order, each with
      its colour and caption cell; the overlap row follows exactly while
      an overlap is active, listing the overlap speakers. */
  lemma RowsSpec(b: Board, i: nat)
    requires b.speakers.Valid()
    ensures var n := |b.speakers.keys|; var rows := Rows(b);
      |rows| == n + (if b.overlapActive then 1 else 0)
      && StrSorted(Labels(rows[..n]))
      && multiset(Labels(rows[..n])) == multiset(b.speakers.keys)
      && (i < n ==>
            rows[i].heading in b.speakers.values
            && rows[i].text == CaptionCell(b.speakers.values[rows[i].heading].caption)
            && rows[i].style == "bold " + b.speakers.values[rows[i].heading].color)
      && (b.overlapActive ==> rows[n] == Row("", "bold red blink", "[OVERLAP] " + Join(b.overlapSpeakers, ", ")))
  {
    var ids := SortStrings(b.speakers.keys);
    SortedKeys(b.speakers);
    SortStringsSpec(b.speakers.keys);
    var n := |ids|;
    var rows := Rows(b);
    assert rows[..n] == SpeakerRows(ids, b.speakers.values);
    LabelsOfRows(ids, b.speakers.values);
    if i < n {
      SpeakerRowsAt(ids, b.speakers.values, i);
    }
  }

  lemma {:induction false} LabelsOfRows(ids: seq<string>, m: map<string, SpeakerDisplay>)
    requires forall k :: k in ids ==> k in m
    ensures Labels(SpeakerRows(ids, m)) == ids
  {
    if ids != [] {
      var init := ids[..|ids| - 1];
      LabelsOfRows(init, m);
      var rows := SpeakerRows(ids, m);
      assert rows[..|rows| - 1] == SpeakerRows(init, m);
      assert init + [ids[|ids| - 1]] == ids;
    }
  }

  // ---------------------------------------------------------------- messages

  /** `print_info`: the message in blue after the information sign, printed
      only while no live display exists. */
  function InfoLine(b: Board, message: string): (r: Option<string>)
    ensures r.Some? <==> !b.live
    ensures r.Some? ==> |r.value| == |message| + 16 && r.value[..6] == "[blue]" && r.value[9..|r.value| - 7] == message
  {
    if !b.live then Some("[blue]\U{2139}\U{FE0F} " + message + "[/blue]") else None
  }

  /** `print_error`: the message in red after the cross mark, printed only
      while no live display exists. */
  function ErrorLine(b: Board, message: string): (r: Option<string>)
    ensures r.Some? <==> !b.live
    ensures r.Some? ==> |r.value| == |message| + 13 && r.value[..5] == "[red]" && r.value[7..|r.value| - 6] == message
  {
    if !b.live then Some("[red]\U{274C} " + message + "[/red]") else None
  }

  // ---------------------------------------------------------------- the object

  class ConsoleUI {
    var speakers: OrderedMap<string, SpeakerDisplay>
    var overlapActive: bool
    var overlapSpeakers: seq<string>
    var live: bool

    function Model(): Board
      reads this
    {
      Board(speakers, overlapActive, overlapSpeakers, live)
    }

    ghost predicate Valid()
      reads this
    {
      speakers.Valid()
    }

    constructor()
      ensures Valid() && Model() == InitialBoard()
    {
      speakers := Empty();
      overlapActive := false;
      overlapSpeakers := [];
      live := false;
    }

    /** `add_speaker`; `ok` is false where the display's constructor raises,
        and then nothing changes. */
    method AddSpeaker(id: string) returns (ok: bool)
      requires Valid()
      modifies this
      ensures Valid()
      ensures ok == WithSpeaker(old(Model()), id).Some?
      ensures Model() == WithSpeaker(old(Model()), id).GetOr(old(Model()))
    {
      ok := true;
      if id !in speakers.values {
        var d := NewDisplay(id);
        if d.None? {
          return false;
        }
        speakers := speakers.Put(id, d.value);
      }
    }

    /** `update_caption`. */
    method UpdateCaption(id: string, text: string) returns (ok: bool)
      requires Valid()
      modifies this
      ensures Valid()
      ensures ok == WithCaption(old(Model()), id, text).Some?
      ensures Model() == WithCaption(old(Model()), id, text).GetOr(old(Model()))
    {
      ok := AddSpeaker(id);
      if !ok {
        return;
      }
      var d := speakers.values[id];
      speakers := speakers.Put(id, d.(caption := text));
    }

    /** `set_overlap`. */
    method SetOverlap(active: bool, speakerIds: Option<seq<string>>)
      requires Valid()
      modifies this
      ensures Valid() && Model() == WithOverlap(old(Model()), active, speakerIds)
    {
      overlapActive := active;
      overlapSpeakers := if speakerIds.Some? && speakerIds.value != [] then speakerIds.value else [];
    }

    /** `start`: from here on a live display exists. */
    method Start()
      requires Valid()
      modifies this
      ensures Valid() && Model() == old(Model()).(live := true)
    {
      live := true;
    }

    /** `stop` stops the display but keeps it, so messages stay silenced. */
    method Stop() returns (line: string)
      requires Valid()
      ensures line == "\n[bold yellow]\U{1F6D1} Audio Access stopped[/bold yellow]"
    {
      line := "\n[bold yellow]\U{1F6D1} Audio Access stopped[/bold yellow]";
    }

    /** `print_info`. */
    method PrintInfo(message: string) returns (line: Option<string>)
      requires Valid()
      ensures line == InfoLine(Model(), message)
    {
      line := None;
      if !live {
        line := Some("[blue]\U{2139}\U{FE0F} " + message + "[/blue]");
      }
    }

    /** `print_error`. */
    method PrintError(message: string) returns (line: Option<string>)
      requires Valid()
      ensures line == ErrorLine(Model(), message)
    {
      line := None;
      if !live {
        line := Some("[red]\U{274C} " + message + "[/red]");
      }
    }
  }

  /** Once started, the board stays silent for info and error messages:
      nothing else the board does clears `live`. */
  lemma SilentAfterStart(b: Board, id: string, text: string, active: bool, ids: Option<seq<string>>, message: string)
    requires b.speakers.Valid() && b.live
    ensures InfoLine(b, message).None? && ErrorLine(b, message).None?
    ensures WithSpeaker(b, id).Some? ==> WithSpeaker(b, id).value.live
    ensures WithCaption(b, id, text).Some? ==> WithCaption(b, id, text).value.live
    ensures WithOverlap(b, active, ids).live
  {
  }
}
