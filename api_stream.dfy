/** The streaming endpoint `/ws/transcribe` of `audio_access/api.py`: one
    connection's handler. Binary messages are 16-bit PCM at 16 kHz fed to a
    transcriber; every flushed segment is filed with the summarizer and sent
    back, followed by a haptic event when it mentions the listener's name;
    text messages are commands; a disconnect sends the final summary.

    A connection is described by the value `Conn` and the handler's reaction
    to one message by `Handle`; `StreamSession` is the handler with its
    transcriber and summarizer objects, proved to behave as those functions. */
module ApiStream {
  import opened Wrappers
  import opened Text
  import opened Events
  import opened OrderedMaps
  import opened Configuration
  import ElevenLabs
  import Summarization
  import Seqs

  /** The stream's fixed sample rate, as the divisor of the clock. */
  const StreamRate: real := 16000.0

  /** What numpy raises for a binary message with an odd byte count. */
  const OddBuffer: string := "buffer size must be a multiple of element size"

  // ---------------------------------------------------------------- messages

  /** The `user_name` field of a `set_name` command: missing, a string, or
      something else (whose `.strip()` raises, with that error's text). */
  datatype NameField = NoName | Name(s: string) | NotAString(error: string)

  /** What one receive yields. `Command` is a text message that parsed to a
      JSON object, with its `command` field when that is a string;
      `Unreadable` is a text message that did not (not JSON, or JSON that is
      not an object), with the error's text. `Disconnect` is the client
      going away, taken to reach the handler as `WebSocketDisconnect`. */
  datatype Incoming =
    | Binary(bytes: seq<byte>)
    | Command(command: Option<string>, userName: NameField)
    | Unreadable(error: string)
    | Disconnect

  /** What the server sends. */
  datatype Outgoing =
    | Connected(sessionId: string)
    | Status(timestamp: real)
    | Transcript(segment: TranscriptSegment, haptic: bool)
    | Haptic(segment: TranscriptSegment, userName: string)
    | Pong(timestamp: real)
    | ConfigConfirmed(userName: string)
    | SummaryMsg(summary: OrderedMap<string, string>, stats: Summarization.Stats)
    | ErrorMsg(message: string)

  // ---------------------------------------------------------------- connection

  /** One connection: its transcriber's state and chunk length, its
      summarizer's transcripts, the stream clock and the stored name. */
  datatype Conn = Conn(
    transcriber: ElevenLabs.State,
    chunkDuration: real,
    transcripts: Summarization.Transcripts,
    timestamp: real,
    userName: Option<string>)

  ghost predicate ValidConn(c: Conn) {
    c.transcripts.Valid()
  }

  /** The handler's reaction: the connection afterwards, what it sent, and
      whether the connection is still registered and being served. */
  datatype Reply = Reply(conn: Conn, out: seq<Outgoing>, open: bool)

  /** The start of the handler: with the server's settings valid, a fresh
      connection is registered and greeted; otherwise the settings' error is
      sent and nothing is registered. */
  function Accept(id: string, env: Config): (r: (seq<Outgoing>, Option<Conn>))
    ensures r.1.Some? <==> env.elevenApiKey != []
    ensures r.1.None? ==> r.0 == [ErrorMsg(MissingKey)]
    ensures r.1.Some? ==>
      r.0 == [Connected(id)] && ValidConn(r.1.value)
      && r.1.value.transcriber == ElevenLabs.Initial() && r.1.value.transcripts == Empty()
      && r.1.value.timestamp == 0.0 && r.1.value.userName == None
      && r.1.value.chunkDuration == env.elevenlabsChunkDuration as real
  {
    match PostInit(env)
    case Err(e) => ([ErrorMsg(e)], None)
    case Ok(config) =>
      ([Connected(id)], Some(Conn(ElevenLabs.Initial(), config.elevenlabsChunkDuration as real, Empty(), 0.0, None)))
  }

  // ---------------------------------------------------------------- name match

  /** `user_name and user_name.lower() in segment.text.lower()`. */
  predicate Mentions(name: Option<string>, text: string) {
    name.Some? && name.value != [] && Contains(Lower(text), Lower(name.value))
  }

  /** The messages for one flushed segment: its transcript with the haptic
      flag, then a haptic event when the flag is set. */
  function Announced(seg: TranscriptSegment, name: Option<string>): seq<Outgoing> {
    var m := Mentions(name, seg.text);
    [Transcript(seg, m)] + if m then [Haptic(seg, name.value)] else []
  }

  /** The messages for a flush, segment by segment. */
  function Announce(segs: seq<TranscriptSegment>, name: Option<string>): seq<Outgoing> {
    if segs == [] then []
    else Announce(segs[..|segs| - 1], name) + Announced(segs[|segs| - 1], name)
  }

  // ---------------------------------------------------------------- one message

  /** A binary message. An odd byte count raises, which ends the handler
      with the error's text. Otherwise the frame is stamped with the clock,
      the clock advances by the message's duration, and the frame goes to
      the transcriber; a flush is announced with a status message and the
      segments, which are also filed with the summarizer. */
  function OnAudio(c: Conn, bytes: seq<byte>, backend: ElevenLabs.Backend): (r: Reply)
    requires ValidConn(c)
    ensures ValidConn(r.conn)
  {
    match FromBytes(bytes)
    case None => Reply(c, [ErrorMsg(OddBuffer)], false)
    case Some(samples) =>
      var frame := AudioFrame(c.timestamp, bytes, 16000);
      var added := c.transcriber.(buffer := c.transcriber.buffer + [frame]);
      var out := ElevenLabs.Ingest(c.transcriber, c.chunkDuration, frame, backend);
      var c' := c.(transcriber := out.state,
                   transcripts := Summarization.AddAll(c.transcripts, out.segments),
                   timestamp := c.timestamp + |samples| as real / StreamRate);
      if ElevenLabs.ShouldProcess(added, c.chunkDuration, frame.timestamp) then
        Reply(c', [Status(frame.timestamp)] + Announce(out.segments, c.userName), true)
      else Reply(c', [], true)
  }

  /** A command: `ping` answers the clock; `set_name` stores the stripped
      name (a missing field counts as empty, a non-string one raises);
      `get_summary` sends the summaries and counters; anything else is
      ignored. */
  function OnCommand(c: Conn, command: Option<string>, field: NameField): (r: Reply)
    requires ValidConn(c)
    ensures ValidConn(r.conn)
  {
    if command == Some("ping") then Reply(c, [Pong(c.timestamp)], true)
    else if command == Some("set_name") then
      match field
      case NotAString(e) => Reply(c, [ErrorMsg(e)], false)
      case Name(s) => Reply(c.(userName := Some(Strip(s))), [ConfigConfirmed(Strip(s))], true)
      case NoName => Reply(c.(userName := Some("")), [ConfigConfirmed("")], true)
    else if command == Some("get_summary") then
      Reply(c, [SummaryMsg(Summarization.SessionSummary(c.transcripts), Summarization.GetStats(c.transcripts))], true)
    else Reply(c, [], true)
  }

  /** A disconnect: the final summary, only when something was transcribed;
      then the connection is unregistered. */
  function OnClose(c: Conn): (r: Reply)
    requires ValidConn(c)
  {
    Reply(c, if c.transcripts.keys != [] then [SummaryMsg(Summarization.SessionSummary(c.transcripts), Summarization.GetStats(c.transcripts))] else [], false)
  }

  function Handle(c: Conn, msg: Incoming, backend: ElevenLabs.Backend): (r: Reply)
    requires ValidConn(c)
    ensures ValidConn(r.conn)
  {
    match msg
    case Binary(bytes) => OnAudio(c, bytes, backend)
    case Command(command, field) => OnCommand(c, command, field)
    case Unreadable(e) => Reply(c, [ErrorMsg(e)], false)
    case Disconnect => OnClose(c)
  }

  // ---------------------------------------------------------------- the message loop

  /** Messages sent first, then a later reply. */
  function Then(out: seq<Outgoing>, r: Reply): Reply {
    Reply(r.conn, out + r.out, r.open)
  }

  /** The loop of the handler over the messages received, until one ends
      it; messages after that are never read. */
  function Served(c: Conn, msgs: seq<Incoming>, backend: ElevenLabs.Backend): (r: Reply)
    requires ValidConn(c)
    ensures ValidConn(r.conn)
    decreases |msgs|, 1
  {
    if msgs == [] then Reply(c, [], true) else ServedStep(c, msgs, backend)
  }

  function ServedStep(c: Conn, msgs: seq<Incoming>, backend: ElevenLabs.Backend): (r: Reply)
    requires ValidConn(c) && msgs != []
    ensures ValidConn(r.conn)
    decreases |msgs|, 0
  {
    var h := Handle(c, msgs[0], backend);
    if h.open then Then(h.out, Served(h.conn, msgs[1..], backend)) else h
  }

  // ---------------------------------------------------------------- the clock

  /** The samples carried by the binary messages. */
  function Heard(msgs: seq<Incoming>): nat {
    if msgs == [] then 0
    else (if msgs[0].Binary? then |msgs[0].bytes| / 2 else 0) + Heard(msgs[1..])
  }

  /** A binary message is accepted exactly when its byte count is even; its
      frame is stamped with the clock as it was, and the clock then advances
      by half the byte count over 16000. Without a flush the frame is the
      newest in the buffer; with one, a status message carrying the frame's
      time comes first and the watermark moves to that time. */
  lemma AudioClock(c: Conn, bytes: seq<byte>, backend: ElevenLabs.Backend)
    requires ValidConn(c)
    ensures var r := OnAudio(c, bytes, backend);
      (r.open <==> |bytes| % 2 == 0)
      && (!r.open ==> r.conn == c)
      && (r.open ==> r.conn.timestamp == c.timestamp + (|bytes| / 2) as real / StreamRate)
      && (r.open && r.out == [] ==> r.conn.transcriber.buffer == c.transcriber.buffer + [AudioFrame(c.timestamp, bytes, 16000)])
      && (r.open && r.out != [] ==> r.out[0] == Status(c.timestamp) && r.conn.transcriber.buffer == []
                                    && r.conn.transcriber.lastSentTime == c.timestamp)
  {
  }

  /** Over a whole connection the clock never goes back; while the
      connection stays open it equals the samples received over 16000. */
  lemma {:induction false} ServedClock(c: Conn, msgs: seq<Incoming>, backend: ElevenLabs.Backend)
    requires ValidConn(c)
    ensures var r := Served(c, msgs, backend);
      c.timestamp <= r.conn.timestamp
      && (r.open ==> r.conn.timestamp == c.timestamp + Heard(msgs) as real / StreamRate)
      && r.conn.chunkDuration == c.chunkDuration
    decreases |msgs|
  {
    if msgs != [] {
      var h := Handle(c, msgs[0], backend);
      assert Served(c, msgs, backend) == ServedStep(c, msgs, backend);
      if msgs[0].Binary? {
        AudioClock(c, msgs[0].bytes, backend);
      }
      if h.open {
        ServedClock(h.conn, msgs[1..], backend);
      }
    }
  }

  /** A later clock still bounds a transcriber's window. */
  lemma WindowedLater(s: ElevenLabs.State, chunkDuration: real, t: real, t': real)
    requires ElevenLabs.Windowed(s, chunkDuration, t) && t <= t'
    ensures ElevenLabs.Windowed(s, chunkDuration, t')
  {
  }

  lemma HandleWindowed(c: Conn, msg: Incoming, backend: ElevenLabs.Backend)
    requires ValidConn(c) && ElevenLabs.Windowed(c.transcriber, c.chunkDuration, c.timestamp)
    ensures var r := Handle(c, msg, backend);
      ElevenLabs.Windowed(r.conn.transcriber, r.conn.chunkDuration, r.conn.timestamp)
      && c.transcriber.lastSentTime <= r.conn.transcriber.lastSentTime
  {
    if msg.Binary? && |msg.bytes| % 2 == 0 {
      var frame := AudioFrame(c.timestamp, msg.bytes, 16000);
      ElevenLabs.IngestWindow(c.transcriber, c.chunkDuration, c.timestamp, frame, backend);
      AudioClock(c, msg.bytes, backend);
      var r := Handle(c, msg, backend);
      WindowedLater(r.conn.transcriber, c.chunkDuration, c.timestamp, r.conn.timestamp);
    }
  }

  /** Because the frames are stamped with a clock that never goes back, the
      transcriber's watermark never moves back over a connection, never
      passes the clock, and every frame still buffered is less than one
      chunk past it. */
  lemma {:induction false} ServedWindowed(c: Conn, msgs: seq<Incoming>, backend: ElevenLabs.Backend)
    requires ValidConn(c) && ElevenLabs.Windowed(c.transcriber, c.chunkDuration, c.timestamp)
    ensures var r := Served(c, msgs, backend);
      ElevenLabs.Windowed(r.conn.transcriber, r.conn.chunkDuration, r.conn.timestamp)
      && c.transcriber.lastSentTime <= r.conn.transcriber.lastSentTime
    decreases |msgs|
  {
    if msgs != [] {
      var h := Handle(c, msgs[0], backend);
      assert Served(c, msgs, backend) == ServedStep(c, msgs, backend);
      HandleWindowed(c, msgs[0], backend);
      if h.open {
        ServedWindowed(h.conn, msgs[1..], backend);
      }
    }
  }

  /** A fresh connection starts inside its window. */
  lemma AcceptWindowed(id: string, env: Config)
    requires env.elevenApiKey != []
    ensures var c := Accept(id, env).1.value;
      ElevenLabs.Windowed(c.transcriber, c.chunkDuration, c.timestamp)
  {
  }

  // ---------------------------------------------------------------- haptics

  /** Every transcript message carries the name-match flag of its text; it
      is followed by a haptic event with the stored name exactly when the
      flag is set, and every haptic event follows the transcript it is for. */
  ghost predicate Paired(out: seq<Outgoing>, name: Option<string>) {
    forall i :: 0 <= i < |out| ==> PairedAt(out, name, i)
  }

  ghost predicate PairedAt(out: seq<Outgoing>, name: Option<string>, i: int)
    requires 0 <= i < |out|
  {
    (out[i].Transcript? ==>
      out[i].haptic == Mentions(name, out[i].segment.text)
      && (out[i].haptic <==> i + 1 < |out| && out[i + 1].Haptic? && out[i + 1].segment == out[i].segment))
    && (out[i].Haptic? ==>
      0 < i && out[i - 1] == Transcript(out[i].segment, true) && name == Some(out[i].userName))
  }

  lemma PairedAppend(a: seq<Outgoing>, b: seq<Outgoing>, name: Option<string>)
    requires Paired(a, name) && Paired(b, name) && (b != [] ==> b[0].Transcript?)
    ensures Paired(a + b, name)
  {
    var ab := a + b;
    forall i | 0 <= i < |ab|
      ensures PairedAt(ab, name, i)
    {
      if i < |a| {
        assert PairedAt(a, name, i);
        assert ab[i] == a[i];
        if i + 1 < |a| {
          assert ab[i + 1] == a[i + 1];
        } else if i + 1 < |ab| {
          assert ab[i + 1] == b[0];
        }
        if 0 < i {
          assert ab[i - 1] == a[i - 1];
        }
      } else {
        var j := i - |a|;
        assert PairedAt(b, name, j);
        assert ab[i] == b[j];
        if j + 1 < |b| {
          assert ab[i + 1] == b[j + 1];
        }
        if 0 < j {
          assert ab[i - 1] == b[j - 1];
        }
      }
    }
  }

  /** The messages of a flush are paired as `Paired` says, and they start
      with a transcript (when there are any). */
  lemma {:induction false} AnnouncePaired(segs: seq<TranscriptSegment>, name: Option<string>)
    ensures Paired(Announce(segs, name), name)
    ensures Announce(segs, name) != [] ==> Announce(segs, name)[0].Transcript?
  {
    if segs != [] {
      var init, last := segs[..|segs| - 1], segs[|segs| - 1];
      AnnouncePaired(init, name);
      var b := Announced(last, name);
      assert Paired(b, name);
      PairedAppend(Announce(init, name), b, name);
    }
  }

  /** The segments of the transcript messages, in the order sent. */
  function Said(out: seq<Outgoing>): seq<TranscriptSegment> {
    if out == [] then []
    else Said(out[..|out| - 1]) + (if out[|out| - 1].Transcript? then [out[|out| - 1].segment] else [])
  }

  lemma {:induction false} SaidAppend(a: seq<Outgoing>, b: seq<Outgoing>)
    ensures Said(a + b) == Said(a) + Said(b)
    decreases |b|
  {
    if b != [] {
      var init := b[..|b| - 1];
      assert (a + b)[..|a + b| - 1] == a + init;
      SaidAppend(a, init);
      Seqs.AppendAssoc(Said(a), Said(init), if b[|b| - 1].Transcript? then [b[|b| - 1].segment] else []);
    } else {
      assert a + b == a;
    }
  }

  /** A flush sends one transcript message per segment, in order. */
  lemma {:induction false} AnnounceSaid(segs: seq<TranscriptSegment>, name: Option<string>)
    ensures Said(Announce(segs, name)) == segs
  {
    if segs != [] {
      var init, last := segs[..|segs| - 1], segs[|segs| - 1];
      AnnounceSaid(init, name);
      SaidAppend(Announce(init, name), Announced(last, name));
      AnnouncedSaid(last, name);
      Seqs.InitLast(segs);
    }
  }

  /** The messages for one segment hold one transcript message, for it. */
  lemma AnnouncedSaid(seg: TranscriptSegment, name: Option<string>)
    ensures Said(Announced(seg, name)) == [seg]
  {
    var m := Mentions(name, seg.text);
    var t := Transcript(seg, m);
    assert Said([t]) == [seg];
    if m {
      var b := [t, Haptic(seg, name.value)];
      assert Announced(seg, name) == b;
      assert b[..1] == [t];
    } else {
      assert Announced(seg, name) == [t];
    }
  }

  // ---------------------------------------------------------------- names

  /** `set_name` stores the name without surrounding whitespace and echoes
      it; a blank name is stored as empty and then matches no text; storing
      the echoed name again changes nothing. */
  lemma SetNameStored(c: Conn, s: string, text: string)
    requires ValidConn(c)
    ensures var r := OnCommand(c, Some("set_name"), Name(s));
      var n := Strip(s);
      r.open && r.out == [ConfigConfirmed(n)] && r.conn == c.(userName := Some(n))
      && (n == [] || (!IsSpace(n[0]) && !IsSpace(n[|n| - 1])))
      && (AllSpace(s) ==> n == [] && !Mentions(r.conn.userName, text))
      && OnCommand(r.conn, Some("set_name"), Name(n)).conn == r.conn
  {
    StripSpec(s);
    StripTrimmed(Strip(s));
  }

  /** A name and a text whose letters differ only in case match as the same
      name and text do. */
  lemma MentionsIgnoresCase(name: string, text: string)
    ensures Mentions(Some(name), text) == Mentions(Some(Lower(name)), Lower(text))
  {
    LowerTwice(name);
    LowerTwice(text);
  }

  lemma LowerTwice(s: string)
    ensures Lower(Lower(s)) == Lower(s)
  {
    assert forall i :: 0 <= i < |s| ==> Lower(Lower(s))[i] == Lower(s)[i];
  }

  /** `needle in hay` holds exactly when the needle starts somewhere in the
      hay. */
  lemma {:induction false} ContainsAt(hay: string, needle: string, i: nat)
    requires i <= |hay| && needle <= hay[i..]
    ensures Contains(hay, needle)
  {
    if i > 0 {
      assert hay[1..][i - 1..] == hay[i..];
      ContainsAt(hay[1..], needle, i - 1);
    } else {
      assert hay[i..] == hay;
    }
  }

  lemma {:induction false} ContainsSomewhere(hay: string, needle: string)
    requires Contains(hay, needle)
    ensures exists i :: 0 <= i <= |hay| && needle <= hay[i..]
  {
    if needle <= hay {
      assert hay[0..] == hay;
    } else {
      ContainsSomewhere(hay[1..], needle);
      var i :| 0 <= i <= |hay[1..]| && needle <= hay[1..][i..];
      assert hay[1..][i..] == hay[i + 1..];
    }
  }

  /** A mention in other capitals still triggers the haptic event: the
      listener "Ann" is mentioned by "hi ANN". */
  lemma MentionsExample()
    ensures Mentions(Some("Ann"), "hi ANN")
  {
    var t := Lower("hi ANN");
    var n := Lower("Ann");
    assert n[0] == 'a' && n[1] == 'n' && n[2] == 'n';
    assert t[3] == 'a' && t[4] == 'n' && t[5] == 'n';
    assert n <= t[3..];
    ContainsAt(t, n, 3);
  }

  // ---------------------------------------------------------------- the summarizer

  lemma {:induction false} AddAllAppend(t: Summarization.Transcripts, a: seq<TranscriptSegment>, b: seq<TranscriptSegment>)
    requires t.Valid()
    ensures Summarization.AddAll(t, a + b) == Summarization.AddAll(Summarization.AddAll(t, a), b)
    decreases |b|
  {
    if b == [] {
      assert a + b == a;
    } else {
      assert (a + b)[..|a + b| - 1] == a + b[..|b| - 1];
      AddAllAppend(t, a, b[..|b| - 1]);
    }
  }

  /** The summarizer has no speaker exactly when it started with none and
      nothing was added. */
  lemma AddAllEmpty(t: Summarization.Transcripts, segs: seq<TranscriptSegment>)
    requires t.Valid()
    ensures Summarization.AddAll(t, segs).keys == [] <==> t.keys == [] && segs == []
  {
    if segs != [] {
      var init, last := segs[..|segs| - 1], segs[|segs| - 1];
      Summarization.AddedOnly(Summarization.AddAll(t, init), last, last.speakerId);
    }
  }

  /** A binary message files with the summarizer exactly the segments it
      sends as transcripts. */
  lemma AudioRecords(c: Conn, bytes: seq<byte>, backend: ElevenLabs.Backend)
    requires ValidConn(c)
    ensures var r := OnAudio(c, bytes, backend);
      r.conn.transcripts == Summarization.AddAll(c.transcripts, Said(r.out))
  {
    var frame := AudioFrame(c.timestamp, bytes, 16000);
    var added := c.transcriber.(buffer := c.transcriber.buffer + [frame]);
    if |bytes| % 2 == 0 && ElevenLabs.ShouldProcess(added, c.chunkDuration, frame.timestamp) {
      FlushRecords(c, bytes, backend);
    } else {
      assert Said(OnAudio(c, bytes, backend).out) == [];
    }
  }

  lemma FlushRecords(c: Conn, bytes: seq<byte>, backend: ElevenLabs.Backend)
    requires ValidConn(c) && |bytes| % 2 == 0
    requires var frame := AudioFrame(c.timestamp, bytes, 16000);
      ElevenLabs.ShouldProcess(c.transcriber.(buffer := c.transcriber.buffer + [frame]), c.chunkDuration, frame.timestamp)
    ensures var r := OnAudio(c, bytes, backend);
      r.conn.transcripts == Summarization.AddAll(c.transcripts, Said(r.out))
  {
    var frame := AudioFrame(c.timestamp, bytes, 16000);
    var segs := ElevenLabs.Ingest(c.transcriber, c.chunkDuration, frame, backend).segments;
    var a := Announce(segs, c.userName);
    var r := OnAudio(c, bytes, backend);
    assert r.out == [Status(c.timestamp)] + a;
    assert r.conn.transcripts == Summarization.AddAll(c.transcripts, segs);
    SaidAppend([Status(c.timestamp)], a);
    AnnounceSaid(segs, c.userName);
    assert Said([Status(c.timestamp)]) == [];
    assert Said(r.out) == segs;
  }

  /** A flush starts with a status message carrying the frame's time, and
      the messages after it are paired as `Paired` says. */
  lemma AudioPaired(c: Conn, bytes: seq<byte>, backend: ElevenLabs.Backend)
    requires ValidConn(c)
    ensures var r := OnAudio(c, bytes, backend);
      r.out != [] && r.open ==> r.out[0] == Status(c.timestamp) && Paired(r.out[1..], c.userName)
  {
    var r := OnAudio(c, bytes, backend);
    if |bytes| % 2 == 0 {
      var frame := AudioFrame(c.timestamp, bytes, 16000);
      var added := c.transcriber.(buffer := c.transcriber.buffer + [frame]);
      var out := ElevenLabs.Ingest(c.transcriber, c.chunkDuration, frame, backend);
      if ElevenLabs.ShouldProcess(added, c.chunkDuration, frame.timestamp) {
        var a := Announce(out.segments, c.userName);
        assert r.out == [Status(c.timestamp)] + a;
        AnnouncePaired(out.segments, c.userName);
        assert r.out[1..] == a;
      }
    }
  }

  lemma HandleRecords(c: Conn, msg: Incoming, backend: ElevenLabs.Backend)
    requires ValidConn(c)
    ensures var r := Handle(c, msg, backend);
      r.conn.transcripts == Summarization.AddAll(c.transcripts, Said(r.out))
  {
    var r := Handle(c, msg, backend);
    if msg.Binary? {
      AudioRecords(c, msg.bytes, backend);
    } else if r.out != [] {
      assert |r.out| == 1 && !r.out[0].Transcript?;
      assert Said(r.out) == [];
    }
  }

  /** The summarizer holds exactly what was sent as transcripts: a speaker's
      list grows by that speaker's transcript messages, in the order sent. */
  lemma {:induction false} ServedRecords(c: Conn, msgs: seq<Incoming>, backend: ElevenLabs.Backend)
    requires ValidConn(c)
    ensures var r := Served(c, msgs, backend);
      r.conn.transcripts == Summarization.AddAll(c.transcripts, Said(r.out))
    decreases |msgs|
  {
    if msgs != [] {
      var h := Handle(c, msgs[0], backend);
      assert Served(c, msgs, backend) == ServedStep(c, msgs, backend);
      HandleRecords(c, msgs[0], backend);
      if h.open {
        var rest := Served(h.conn, msgs[1..], backend);
        ServedRecords(h.conn, msgs[1..], backend);
        SaidAppend(h.out, rest.out);
        AddAllAppend(c.transcripts, Said(h.out), Said(rest.out));
      }
    }
  }

  /** A disconnect after any run of messages that kept the connection open
      sends a summary exactly when some transcript was sent on a connection
      that started with none, and ends the connection. */
  lemma FinalSummary(c: Conn, msgs: seq<Incoming>, backend: ElevenLabs.Backend)
    requires ValidConn(c) && c.transcripts.keys == [] && Served(c, msgs, backend).open
    ensures var r := Served(c, msgs, backend);
      var f := OnClose(r.conn);
      !f.open && f.conn == r.conn
      && ((exists s :: s in f.out && s.SummaryMsg?) <==> Said(r.out) != [])
  {
    var r := Served(c, msgs, backend);
    ServedRecords(c, msgs, backend);
    AddAllEmpty(c.transcripts, Said(r.out));
    var f := OnClose(r.conn);
    if Said(r.out) != [] {
      assert f.out[0] in f.out;
    }
  }

  /** Reading messages one after the other is reading them all at once. */
  lemma {:induction false} ServedAppend(c: Conn, a: seq<Incoming>, b: seq<Incoming>, backend: ElevenLabs.Backend)
    requires ValidConn(c)
    ensures var r := Served(c, a, backend);
      Served(c, a + b, backend) == if r.open then Then(r.out, Served(r.conn, b, backend)) else r
    decreases |a|
  {
    if a == [] {
      assert a + b == b;
      assert Then([], Served(c, b, backend)) == Served(c, b, backend);
    } else {
      var h := Handle(c, a[0], backend);
      assert (a + b)[0] == a[0] && (a + b)[1..] == a[1..] + b;
      assert Served(c, a, backend) == ServedStep(c, a, backend);
      assert Served(c, a + b, backend) == ServedStep(c, a + b, backend);
      if h.open {
        ServedAppend(h.conn, a[1..], b, backend);
        var r1 := Served(h.conn, a[1..], backend);
        if r1.open {
          Seqs.AppendAssoc(h.out, r1.out, Served(r1.conn, b, backend).out);
        }
      }
    }
  }

  /** Commands never touch the audio state, the summarizer or the clock;
      only `set_name` changes the stored name, and only a non-string name
      ends the connection. */
  lemma CommandKeepsAudio(c: Conn, command: Option<string>, field: NameField)
    requires ValidConn(c)
    ensures var r := OnCommand(c, command, field);
      r.conn.transcriber == c.transcriber && r.conn.transcripts == c.transcripts
      && r.conn.timestamp == c.timestamp
      && (r.conn.userName != c.userName ==> command == Some("set_name"))
      && (!r.open <==> command == Some("set_name") && field.NotAString?)
      && (command == Some("ping") ==> r == Reply(c, [Pong(c.timestamp)], true))
  {
  }

  // ---------------------------------------------------------------- the handler object

  /** The handler's objects for one connection and its entry in the shared
      registry, reduced to whether it is still there. */
  class StreamSession {
    const sessionId: string
    const transcriber: ElevenLabs.Transcriber
    const summarizer: Summarization.SessionSummarizer
    var timestamp: real
    var userName: Option<string>
    var registered: bool

    function Model(): Conn
      reads this, transcriber, summarizer
    {
      Conn(transcriber.Model(), transcriber.chunkDuration, summarizer.transcripts, timestamp, userName)
    }

    ghost predicate Valid()
      reads this, summarizer
    {
      summarizer.Valid()
    }

    constructor(id: string, config: Config)
      requires config.elevenApiKey != []
      ensures Valid() && registered && sessionId == id
      ensures Model() == Accept(id, config).1.value
    {
      sessionId := id;
      transcriber := new ElevenLabs.Transcriber(config);
      summarizer := new Summarization.SessionSummarizer();
      timestamp := 0.0;
      userName := None;
      registered := true;
    }

    /** The start of the handler: settings, then the greeting. */
    static method Connect(id: string, env: Config) returns (out: seq<Outgoing>, session: Option<StreamSession>)
      ensures out == Accept(id, env).0
      ensures session.Some? <==> Accept(id, env).1.Some?
      ensures session.Some? ==>
        fresh(session.value) && session.value.Valid() && session.value.registered
        && session.value.Model() == Accept(id, env).1.value
    {
      var config := PostInit(env);
      if config.Err? {
        return [ErrorMsg(config.error)], None;
      }
      var s := new StreamSession(id, config.value);
      return [Connected(id)], Some(s);
    }

    /** A binary message. */
    method ReceiveAudio(bytes: seq<byte>, backend: ElevenLabs.Backend) returns (out: seq<Outgoing>)
      requires Valid() && registered
      modifies this, transcriber, summarizer
      ensures Valid()
      ensures Reply(Model(), out, registered) == OnAudio(old(Model()), bytes, backend)
    {
      var samples := FromBytes(bytes);
      if samples.None? {
        out := [ErrorMsg(OddBuffer)];
        registered := false;
        return;
      }
      var frame := AudioFrame(timestamp, bytes, 16000);
      timestamp := timestamp + |samples.value| as real / StreamRate;
      transcriber.AddAudio(frame);
      out := [];
      if transcriber.ShouldProcessAt(frame.timestamp) {
        var segments := transcriber.ProcessBuffer(backend);
        out := Flush(frame.timestamp, segments);
      }
    }

    /** The announcement of a flush, segment by segment. */
    method Flush(t: real, segments: seq<TranscriptSegment>) returns (out: seq<Outgoing>)
      requires Valid()
      modifies summarizer
      ensures Valid()
      ensures out == [Status(t)] + Announce(segments, userName)
      ensures summarizer.transcripts == Summarization.AddAll(old(summarizer.transcripts), segments)
    {
      out := [Status(t)];
      ghost var t0 := summarizer.transcripts;
      for i := 0 to |segments|
        invariant summarizer.Valid()
        invariant summarizer.transcripts == Summarization.AddAll(t0, segments[..i])
        invariant out == [Status(t)] + Announce(segments[..i], userName)
      {
        Seqs.PrefixOfPrefix(segments, i);
        var seg := segments[i];
        summarizer.AddTranscript(seg);
        var mentioned := Mentions(userName, seg.text);
        Seqs.AppendAssoc([Status(t)], Announce(segments[..i], userName), Announced(seg, userName));
        out := out + [Transcript(seg, mentioned)];
        if mentioned {
          out := out + [Haptic(seg, userName.value)];
        }
      }
      assert segments[..|segments|] == segments;
    }

    /** A text message that parsed. */
    method ReceiveCommand(command: Option<string>, field: NameField) returns (out: seq<Outgoing>)
      requires Valid() && registered
      modifies this
      ensures Valid()
      ensures Reply(Model(), out, registered) == OnCommand(old(Model()), command, field)
    {
      if command == Some("ping") {
        out := [Pong(timestamp)];
      } else if command == Some("set_name") {
        if field.NotAString? {
          out := [ErrorMsg(field.error)];
          registered := false;
          return;
        }
        var n := if field.Name? then Strip(field.s) else "";
        userName := Some(n);
        out := [ConfigConfirmed(n)];
      } else if command == Some("get_summary") {
        var summary := summarizer.GenerateSessionSummary();
        var stats := Summarization.GetStats(summarizer.transcripts);
        out := [SummaryMsg(summary, stats)];
      } else {
        out := [];
      }
    }

    /** The client went away: the final summary when there is something to
        summarize, then the entry is removed. */
    method Disconnected() returns (out: seq<Outgoing>)
      requires Valid() && registered
      modifies this
      ensures Valid()
      ensures Reply(Model(), out, registered) == OnClose(old(Model()))
    {
      out := [];
      if summarizer.transcripts.keys != [] {
        var summary := summarizer.GenerateSessionSummary();
        var stats := Summarization.GetStats(summarizer.transcripts);
        out := [SummaryMsg(summary, stats)];
      }
      registered := false;
    }

    method Receive(msg: Incoming, backend: ElevenLabs.Backend) returns (out: seq<Outgoing>)
      requires Valid() && registered
      modifies this, transcriber, summarizer
      ensures Valid()
      ensures Reply(Model(), out, registered) == Handle(old(Model()), msg, backend)
    {
      match msg
      case Binary(bytes) =>
        out := ReceiveAudio(bytes, backend);
      case Command(command, field) =>
        out := ReceiveCommand(command, field);
      case Unreadable(e) =>
        out := [ErrorMsg(e)];
        registered := false;
      case Disconnect =>
        out := Disconnected();
    }

    /** The message loop: receive until a message ends the connection or
        there are no more. */
    method Serve(msgs: seq<Incoming>, backend: ElevenLabs.Backend) returns (out: seq<Outgoing>)
      requires Valid() && registered
      modifies this, transcriber, summarizer
      ensures Valid()
      ensures Reply(Model(), out, registered) == Served(old(Model()), msgs, backend)
    {
      ghost var c0 := Model();
      out := [];
      var i := 0;
      while i < |msgs| && registered
        invariant 0 <= i <= |msgs|
        invariant Valid()
        invariant registered ==> Served(c0, msgs, backend) == Then(out, Served(Model(), msgs[i..], backend))
        invariant !registered ==> Served(c0, msgs, backend) == Reply(Model(), out, false)
        decreases |msgs| - i
      {
        ghost var m := Model();
        assert Served(m, msgs[i..], backend) == ServedStep(m, msgs[i..], backend);
        assert msgs[i..][0] == msgs[i] && msgs[i..][1..] == msgs[i + 1..];
        var o := Receive(msgs[i], backend);
        if registered {
          Seqs.AppendAssoc(out, o, Served(Model(), msgs[i + 1..], backend).out);
        }
        out := out + o;
        i := i + 1;
      }
      if registered {
        assert msgs[i..] == [];
        assert out + [] == out;
      }
    }
  }
}
