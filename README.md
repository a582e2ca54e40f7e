# Deafine / Audio Access: a verified model of the transcription core

Deafine ("Audio Access") captions live conversations for deaf and
hard-of-hearing users. Microphone audio is cut into 16-bit PCM frames.
Frames are buffered and, every few seconds, sent to the ElevenLabs
speech-to-text service. The service answers with word-level speaker tags,
which are turned into speaker-labelled transcript segments (`S1`, `S2`, …).
These segments go to three places:

- a live console board, which shows the latest caption per speaker and an
  overlap indicator when two speakers were active within two seconds;
- a session summarizer, which files segments per speaker and builds
  extractive summaries and statistics;
- an HTTP/WebSocket service, which does the same for uploaded recordings,
  background jobs and streamed audio, and sends a haptic event when a
  listener's name is spoken.

The model is written in Dafny. The service call, the voice-activity
classifier and the clocks are parameters: `ElevenLabs.Backend` is a
function from the combined samples to a service answer, the classifier is
a function from a window to a verdict, and clocks are values or functions
passed in. Objects that the program updates in place are classes with the
same fields. Each method is proved equal to a specification function, and
the properties are lemmas about those functions.

Modules, one per source file:

| module | file | models |
|---|---|---|
| `Events` | events.dfy | frames, segments, 16-bit little-endian PCM |
| `Configuration` | config.dfy | `Config`, its validation, `get_config` overrides |
| `Text` | text.dfy | Python `strip`, `split`, `join`, `lower`, `int`/`str`, `sorted` on strings |
| `OrderedMaps` | ordered_map.dfy | Python `dict`s: insertion-ordered maps |
| `ElevenLabs` | elevenlabs.dfy | the transcriber: buffering, flush rule, word grouping, speaker labels |
| `AudioCapturing` | audio_capture.dfy | chunk sizes, the VAD gate, the sliding window of `frames()` |
| `ConsoleUi` | console_ui.dfy | the live board |
| `Summarization` | summarization.dfy | the session summarizer |
| `App` | app.dfy | the main loop of `audio_access/main.py` |
| `LegacyApp` | legacy_app.dfy | the main loop of `deafine/main.py` |
| `ApiBatch` | api_batch.dfy | request settings, `process_audio_file`, `POST /transcribe` |
| `ApiSessions` | api_sessions.dfy | the background-job registry and the `/session…` endpoints |
| `ApiStream` | api_stream.dfy | the `/ws/transcribe` WebSocket handler |

Two behaviours of the WebSocket handler worth knowing:

- An undecodable control message or a `set_name` whose name is not a string
  raises inside the message loop. The outer `except` sends an error and
  drops the session (audio_access/api.py:638-654), so the session ends
  there.
- A `set_name` without a name stores the empty name, and the empty name
  never triggers a haptic event.

The upload endpoints validate the server's settings before they read the
request's key (see "## Findings"). The endpoint members
`ApiBatch.TranscribeAudio` and `ApiSessions.JobOutcome` model that code as
written. The intended behaviour is modelled beside them as
`ApiBatch.TranscribeAudioIntended` and `ApiSessions.JobOutcomeIntended`.

## Model

| member | source | states |
|---|---|---|
| Events.FromBytes | audio_access/elevenlabs.py:93 | decoding raw bytes as 16-bit samples succeeds exactly when the byte count is even, giving half as many samples |
| Events.EncodeSample | audio_access/audio_capture.py:114 | a sample becomes two bytes, low byte first, carrying its value modulo 2^16 |
| Events.DecodeEncode | audio_access/audio_capture.py:114 | a sample encoded to its two bytes decodes back to itself |
| Events.EncodeDecode | audio_access/api.py:517 | two bytes decoded to a sample encode back to the same two bytes |
| Events.FromToBytes | audio_access/elevenlabs.py:93-99 | decoding the bytes of a sample sequence gives the samples back |
| Events.ToFromBytes | audio_access/elevenlabs.py:93-99 | encoding the samples of an even-length byte string gives the bytes back |
| Events.SamplesAppend | audio_access/elevenlabs.py:91-96 | decoding concatenated frames is concatenating their decodings |
| Configuration.Defaults | audio_access/config.py:14-36 | the defaults: 16000 Hz, one channel, 320 ms chunks, 160 ms hop, VAD level 2, 5 s service chunks, 2 speakers |
| Configuration.PostInit | audio_access/config.py:45-51 | validation fails exactly when the key is empty, with the source's message; a VAD level outside 0..3 becomes 2; valid settings are kept unchanged |
| Configuration.Get | audio_access/config.py:58 | an attribute lookup answers exactly for the names of the settings' fields |
| Configuration.GetSetField | audio_access/config.py:59 | setting a field changes that field and no other |
| Configuration.GetSetAttr | audio_access/config.py:58-59 | an override of a known name changes only that name; an unknown name changes nothing |
| Configuration.ApplyGet | audio_access/config.py:57-59 | after all overrides each field holds the last override given for it, or its value before |
| Configuration.ApplyUnknownOnly | audio_access/config.py:57-58 | overrides that name no field leave the settings unchanged |
| Configuration.GetConfig | audio_access/config.py:54-60 | fails exactly when the key is empty; otherwise the overrides are applied to the validated defaults |
| Configuration.OverrideNotRevalidated | audio_access/config.py:54-60 | an override of the VAD level to 7 is kept: overrides bypass validation |
| Text.StripSpec | audio_access/api.py:592 | `strip` gives a contiguous piece of its input with no whitespace at either end, empty exactly for an all-whitespace input |
| Text.StripTrimmed | audio_access/elevenlabs.py:162 | a string with no whitespace at either end is its own `strip` |
| Text.SplitYieldsWords | deafine/summarization.py:144 | every piece `split` returns is a non-empty word with no whitespace |
| Text.SplitSeparated | deafine/summarization.py:144 | splitting across a whitespace character is splitting each side |
| Text.SplitJoinSpace | deafine/summarization.py:153 | splitting a space-join of texts gives all words of the texts in order |
| Text.SplitJoinWords | deafine/summarization.py:153 | splitting a space-join of words gives the words back |
| Text.Lower | audio_access/api.py:552 | `lower` keeps the length and maps each character on its own |
| Text.ParseIntToString | audio_access/console_ui.py:24 | parsing the decimal form of an integer gives the integer back |
| Text.IntToStringInjective | audio_access/elevenlabs.py:36-41 | different numbers have different decimal forms |
| Text.SortStringsSpec | audio_access/console_ui.py:68 | `sorted` on strings returns an ordered permutation of its input |
| ElevenLabs.Kept | audio_access/elevenlabs.py:160-168 | no more words than the answer had, and every kept word is non-empty |
| ElevenLabs.KeptSkipsBlank | audio_access/elevenlabs.py:166-168 | a word that is blank after stripping changes nothing, wherever it stands |
| ElevenLabs.Group | audio_access/elevenlabs.py:170-195 | no more runs than words, none empty, and the last run has the last word's speaker |
| ElevenLabs.GroupFlatten | audio_access/elevenlabs.py:170-195 | the runs, read one after another, are exactly the kept words in order |
| ElevenLabs.GroupUniform | audio_access/elevenlabs.py:192-195 | all words of a run have the run's speaker |
| ElevenLabs.GroupAdjacentDistinct | audio_access/elevenlabs.py:171 | neighbouring runs have different speakers |
| ElevenLabs.GroupUnique | audio_access/elevenlabs.py:170-195 | any split of the words into uniform, non-empty runs with distinct neighbours is the grouping computed |
| ElevenLabs.GroupedUpToKept | audio_access/elevenlabs.py:160-195 | after the first i answer words, the loop's runs are the grouping of the kept words among them |
| ElevenLabs.Assign | audio_access/elevenlabs.py:36-41 | a known tag keeps its label; a new tag gets `S<next>` and the counter moves on; earlier labels are kept |
| ElevenLabs.MapperOfLabels | audio_access/elevenlabs.py:36-41 | the i-th distinct tag ever seen is labelled `S<i+1>` |
| ElevenLabs.AssignMapperOf | audio_access/elevenlabs.py:36-41 | the labeller's state is determined by the order in which tags were first seen |
| ElevenLabs.MapperOfInjective | audio_access/elevenlabs.py:36-41 | different tags get different labels |
| ElevenLabs.AssignExample | audio_access/elevenlabs.py:36-41 | tags b, a, b, c are labelled S1, S2, S1, S3 |
| ElevenLabs.LabelRuns | audio_access/elevenlabs.py:171-210 | one segment per run |
| ElevenLabs.LabelRunsSegments | audio_access/elevenlabs.py:173-210 | earlier labels are kept; each segment carries its run's label, its words joined by spaces, and its run's times offset by the first frame's timestamp |
| ElevenLabs.LabelRunsFirstSeen | audio_access/elevenlabs.py:174-199 | after a flush the labels follow the order in which the speakers first spoke |
| ElevenLabs.CombinedDecodes | audio_access/elevenlabs.py:91-96 | the buffered frames combine exactly when every frame has an even byte count |
| ElevenLabs.CombinedFailsOn | audio_access/elevenlabs.py:91-96 | once one frame fails to decode, the whole combination fails |
| ElevenLabs.Process | audio_access/elevenlabs.py:83-256 | an empty buffer gives nothing and changes nothing; otherwise the buffer is emptied and the watermark becomes the last frame's timestamp |
| ElevenLabs.ProcessFailure | audio_access/elevenlabs.py:239-256 | a decoding or service failure gives no segments, empties the buffer, moves the watermark and keeps the labels |
| ElevenLabs.ProcessFallback | audio_access/elevenlabs.py:212-222 | an answer with text but no words gives one `S1` segment spanning the buffer |
| ElevenLabs.ProcessWords | audio_access/elevenlabs.py:154-210 | an answer with words gives the labelled grouping of its kept words, timed from the first frame |
| ElevenLabs.ProcessExample | audio_access/elevenlabs.py:154-210 | words of speakers A, A, B at t = 10 give segments `S1: hi there` (10–12) and `S2: yo` (12–13) |
| ElevenLabs.Ingest | audio_access/elevenlabs.py:43-51 | a frame that makes the flush due empties the buffer and sets the watermark to its timestamp; otherwise it is only appended |
| ElevenLabs.IngestWindow | audio_access/elevenlabs.py:47-51 | with non-decreasing timestamps the watermark never moves back, and each buffered frame is less than one chunk past it |
| ElevenLabs.IngestAllMonotone | audio_access/elevenlabs.py:47-51 | over a run of time-ordered frames the same holds at the end |
| ElevenLabs.Transcriber.constructor | audio_access/elevenlabs.py:16-34 | a new transcriber has an empty buffer, watermark 0, no labels, and the configured chunk length |
| ElevenLabs.Transcriber.GetSimpleSpeakerId | audio_access/elevenlabs.py:36-41 | the label and the labeller's new state are those of `Assign`; the buffer is untouched |
| ElevenLabs.Transcriber.AddAudio | audio_access/elevenlabs.py:43-45 | the frame is appended to the buffer and nothing else changes |
| ElevenLabs.Transcriber.ProcessBuffer | audio_access/elevenlabs.py:83-256 | the segments and the new state are those of `Process` |
| ElevenLabs.Transcriber.GroupWords | audio_access/elevenlabs.py:151-210 | the word loop's segments and labels are those of labelling the grouping of the kept words |
| ElevenLabs.Transcriber.EmitRun | audio_access/elevenlabs.py:173-185 | closing the open run appends its segment, as `LabelRuns` would |
| ElevenLabs.Transcriber.DecodeAll | audio_access/elevenlabs.py:91-96 | the frame-by-frame decoding loop computes `Combined` |
| AudioCapturing.TruncDiv | audio_access/audio_capture.py:32-33 | `int(a / b)` truncates toward zero, for both signs of `a` |
| AudioCapturing.DefaultSizes | audio_access/audio_capture.py:32-33 | default settings give 5120-sample chunks, a 2560-sample hop and 480-sample VAD windows |
| AudioCapturing.IsSpeechSpec | audio_access/audio_capture.py:55-60 | without a classifier every chunk is speech |
| AudioCapturing.IsSpeechWindows | audio_access/audio_capture.py:62-74 | with a classifier a chunk is speech exactly when some whole 30 ms window of it is voiced |
| AudioCapturing.AnyVoicedFrom | audio_access/audio_capture.py:65-69 | the scan from window j finds speech exactly when some window at or after j is voiced |
| AudioCapturing.IsSpeechIgnoresTail | audio_access/audio_capture.py:65-69 | a trailing piece shorter than a window never changes the verdict |
| AudioCapturing.Drop | audio_access/audio_capture.py:110 | dropping a hop from a non-empty buffer shortens it |
| AudioCapturing.LeftoverShort | audio_access/audio_capture.py:108-110 | what stays buffered is shorter than a chunk and is the tail of the input |
| AudioCapturing.WindowsAt | audio_access/audio_capture.py:108-110 | the k-th examined chunk is the chunk-size slice starting at k hops |
| AudioCapturing.WindowCount | audio_access/audio_capture.py:108-110 | the number of chunks examined is 0 below one chunk, else (length − chunk) / hop + 1 |
| AudioCapturing.Emitted | audio_access/audio_capture.py:108-121 | no more frames than chunks examined |
| AudioCapturing.EmittedVoiced | audio_access/audio_capture.py:111-121 | the frames are exactly the accepted chunks, in order, each stamped by the clock at its yield |
| AudioCapturing.VoicedAll | audio_access/audio_capture.py:55-58 | without a classifier every chunk is accepted |
| AudioCapturing.AudioCapture.constructor | audio_access/audio_capture.py:24-44 | sizes come from the settings; the gate is on exactly when asked for and available; the buffer is empty |
| AudioCapturing.AudioCapture.IsSpeech | audio_access/audio_capture.py:55-74 | the window loop computes `IsSpeechSpec` |
| AudioCapturing.AudioCapture.OnBlock | audio_access/audio_capture.py:95-131 | without the gate the block is one frame; with it the frames are `Emitted` over the sliding windows, and the buffer keeps the `Leftover` |
| ConsoleUi.ColorIndex | audio_access/console_ui.py:23-25 | a colour, when found, is one of the six |
| ConsoleUi.ColorOfLabel | audio_access/console_ui.py:24-25 | speaker `S<n>` gets colour (n − 1) mod 6 |
| ConsoleUi.ColorsDistinct | audio_access/console_ui.py:23-25 | the first six speakers get six different colours |
| ConsoleUi.NewDisplay | audio_access/console_ui.py:17-25 | a display exists exactly when the colour can be computed, with the speaker's id and an empty caption |
| ConsoleUi.InitialBoard | audio_access/console_ui.py:36-42 | a new board has no speakers, no overlap and is not live |
| ConsoleUi.AddSpeakerKeeps | audio_access/console_ui.py:44-47 | adding fails only for an unknown id without a colour; a known id changes nothing; otherwise only that id is added |
| ConsoleUi.UpdateCaptionSets | audio_access/console_ui.py:49-52 | the caption of that speaker becomes the text, its colour is kept, and other speakers are untouched |
| ConsoleUi.CaptionCellSuffix | audio_access/console_ui.py:75 | a caption shows its last 300 characters, or all of it when shorter |
| ConsoleUi.SpeakerRowsAt | audio_access/console_ui.py:70-77 | each row has the speaker's id, its colour style and its caption cell |
| ConsoleUi.SortedKeys | audio_access/console_ui.py:68 | the sorted ids are as many as the speakers, and each is a speaker |
| ConsoleUi.RowsSpec | audio_access/console_ui.py:59-82 | one row per speaker in sorted id order, each showing its own caption and colour, plus the overlap row listing the overlapping speakers exactly when overlap is on |
| ConsoleUi.LabelsOfRows | audio_access/console_ui.py:70-77 | the rows follow the given id order |
| ConsoleUi.InfoLine | audio_access/console_ui.py:124-127 | an info line is printed exactly when the board is not live, and it is the message verbatim, styled blue after the information sign |
| ConsoleUi.ErrorLine | audio_access/console_ui.py:129-132 | an error line is printed exactly when the board is not live, and it is the message verbatim, styled red after the cross mark |
| ConsoleUi.SilentAfterStart | audio_access/console_ui.py:98-132 | once live, the board prints no info or error lines, and no update makes it stop being live |
| ConsoleUi.ConsoleUI.constructor | audio_access/console_ui.py:36-42 | the board starts as `InitialBoard` |
| ConsoleUi.ConsoleUI.AddSpeaker | audio_access/console_ui.py:44-47 | the board becomes `WithSpeaker`, or is unchanged when that raises |
| ConsoleUi.ConsoleUI.UpdateCaption | audio_access/console_ui.py:49-52 | the board becomes `WithCaption`, or is unchanged when that raises |
| ConsoleUi.ConsoleUI.SetOverlap | audio_access/console_ui.py:54-57 | the indicator and its list are set, with no list meaning empty |
| ConsoleUi.ConsoleUI.Start | audio_access/console_ui.py:98-110 | the board goes live and nothing else changes |
| ConsoleUi.ConsoleUI.Stop | audio_access/console_ui.py:117-122 | the stop line is printed |
| ConsoleUi.ConsoleUI.PrintInfo | audio_access/console_ui.py:124-127 | prints `InfoLine` of the current board |
| ConsoleUi.ConsoleUI.PrintError | audio_access/console_ui.py:129-132 | prints `ErrorLine` of the current board |
| Summarization.Added | deafine/summarization.py:42-44 | filing a segment keeps the per-speaker table well formed |
| Summarization.AddedOnly | deafine/summarization.py:42-44 | the segment is appended to its own speaker's list only; a new speaker goes to the end of the speaker order |
| Summarization.AddAll | deafine/summarization.py:42-44 | filing many segments keeps the table well formed |
| Summarization.AddAllLists | deafine/summarization.py:42-44 | each speaker's list gains exactly that speaker's segments, in order; no speaker is lost |
| Summarization.NonEmptyTexts | deafine/summarization.py:46-49 | no more texts than segments |
| Summarization.SpeakerTextWords | deafine/summarization.py:46-49 | a speaker's text has exactly the words of their segments; an unknown speaker's text is empty |
| Summarization.SplitAllNonEmpty | deafine/summarization.py:48 | skipping empty texts does not change the words |
| Summarization.InsertByStartPerm | deafine/summarization.py:58 | inserting by start time adds exactly that segment |
| Summarization.InsertByStartBound | deafine/summarization.py:58 | inserting keeps every start time within a common bound |
| Summarization.InsertByStartSorted | deafine/summarization.py:58 | inserting into a start-sorted list keeps it sorted |
| Summarization.InsertByStartStable | deafine/summarization.py:58 | segments with equal start times keep their relative order |
| Summarization.SortByStartSpec | deafine/summarization.py:58 | the sort by start time is sorted, a permutation, and stable |
| Summarization.Lines | deafine/summarization.py:61-63 | one line per segment |
| Summarization.AllTextOrder | deafine/summarization.py:51-65 | the whole text is one `speaker: text` line per segment, in a stable start-time order of all segments |
| Summarization.ExtractiveLong | deafine/summarization.py:141-153 | a text longer than the limit keeps its first and last limit/2 words around a `[...]` marker |
| Summarization.ExtractiveShort | deafine/summarization.py:146-147 | a text within the limit is returned unchanged |
| Summarization.SplitAround | deafine/summarization.py:153 | the words of the shortened text are the two halves with the marker between |
| Summarization.EllipsisIsWord | deafine/summarization.py:153 | the marker is a single word |
| Summarization.PutSpeakers | deafine/summarization.py:86-100 | the per-speaker entries keep the summary well formed |
| Summarization.PutSpeakersGet | deafine/summarization.py:86-100 | every listed speaker gets their own summary; other entries are unchanged |
| Summarization.SessionSummary | deafine/summarization.py:67-102 | the summary is a well-formed ordered map |
| Summarization.SessionSummaryEmpty | deafine/summarization.py:70-71 | with nothing filed the summary is only the "no conversation" overall entry |
| Summarization.SessionSummaryEntries | deafine/summarization.py:67-102 | the summary has the overall entry, the 100-word extract of the whole text, and one entry per known speaker, and nothing else |
| Summarization.PerSpeaker | deafine/summarization.py:164-172 | one statistics entry per speaker |
| Summarization.PerSpeakerAt | deafine/summarization.py:164-172 | each speaker's entry counts their segments, words and total duration |
| Summarization.StatsAgree | deafine/summarization.py:155-174 | the total segment count equals the number of lines of the whole text; each speaker's counts agree with their list and their text |
| Summarization.ConcatLength | deafine/summarization.py:160 | the total segment count is the sum of the per-speaker counts |
| Summarization.WordCountSplitAll | deafine/summarization.py:165 | the word count is the number of words of the speaker's texts |
| Summarization.SessionSummarizer.constructor | deafine/summarization.py:21-40 | a new summarizer has an empty table |
| Summarization.SessionSummarizer.AddTranscript | deafine/summarization.py:42-44 | the table becomes `Added` |
| Summarization.SessionSummarizer.GetAllText | deafine/summarization.py:51-65 | the line-building loop computes `AllText` |
| Summarization.SessionSummarizer.GenerateSessionSummary | deafine/summarization.py:67-102 | the per-speaker loop computes `SessionSummary` |
| App.OverlapIff | audio_access/main.py:60-67 | overlap holds exactly when two different speakers were active less than two seconds ago |
| App.OverlapExample | audio_access/main.py:60-67 | speakers at 10.0 and 10.5 overlap at 10.5, and no longer at 12.0 or 13.0 |
| App.Show | audio_access/main.py:98-99 | showing a segment keeps the board well formed |
| App.Feed | audio_access/main.py:96-105 | one segment keeps the loop's state well formed |
| App.FeedAll | audio_access/main.py:96-109 | a flush keeps the loop's state well formed |
| App.FeedAllActivity | audio_access/main.py:102 | every speaker of the flush is marked active at the frame's time; others keep their times |
| App.FeedAllTranscripts | audio_access/main.py:105 | each speaker's filed list gains exactly that speaker's segments of the flush |
| App.FeedTranscripts | audio_access/main.py:105 | one segment is filed under its own speaker only |
| App.FeedAllTranscriber | audio_access/main.py:96-109 | showing a flush never touches the transcriber |
| App.FeedAllStops | audio_access/main.py:96-109 | once showing a segment raises, the rest of the flush is not shown |
| App.WithOverlapCheck | audio_access/main.py:112-116 | setting the indicator keeps the state well formed |
| App.Step | audio_access/main.py:89-116 | one frame keeps the loop's state well formed |
| App.StepOverlap | audio_access/main.py:112-116 | after a frame the indicator is on exactly when speakers overlap, and lists every known speaker exactly then |
| App.LabelRunsLabels | audio_access/elevenlabs.py:36-41 | the transcriber only ever hands out `S<n>` labels |
| App.IngestLabels | audio_access/main.py:90-94 | every segment of a flush carries an `S<n>` label |
| App.FeedAllLabels | audio_access/main.py:96-109 | a flush of `S<n>`-labelled segments is shown without raising |
| App.StepNeverFails | audio_access/main.py:81-116 | no frame ever makes the loop raise |
| App.RunFrames | audio_access/main.py:81-122 | the loop over frames keeps the state well formed |
| App.RunFramesNeverFails | audio_access/main.py:81-124 | the loop never reaches its error handler |
| App.RunFramesStops | audio_access/main.py:124-127 | after an error no further frame is processed |
| App.RunFramesStopsAt | audio_access/main.py:124-127 | after an error the state stays the same whatever frames follow |
| App.DeafineApp.constructor | audio_access/main.py:20-43 | a new application has a fresh transcriber, board and summarizer, no activity, and is not running |
| App.DeafineApp.CheckOverlapAt | audio_access/main.py:60-67 | the counting loop computes `CheckOverlap` |
| App.DeafineApp.FrameStep | audio_access/main.py:89-116 | one iteration of the loop does `Step` |
| App.DeafineApp.Transcribe | audio_access/main.py:90-94 | add then process when due, as `Ingest` |
| App.DeafineApp.ShowSegments | audio_access/main.py:96-109 | the per-segment loop does `FeedAll` |
| App.DeafineApp.ShowSegment | audio_access/main.py:97-105 | one segment does `Feed` |
| App.DeafineApp.UpdateOverlap | audio_access/main.py:112-116 | the indicator is set as `WithOverlapCheck` says |
| App.DeafineApp.Run | audio_access/main.py:69-130 | the loop runs `RunFrames` over the frames before the stop, stops early only on an error, and leaves `running` off exactly when the stop signal ended the loop without an error; it stays on when the frames ran out or a frame failed |
| App.DeafineApp.TakeFrame | audio_access/main.py:81-116 | one more frame extends the run by one step |
| LegacyApp.Feed | deafine/main.py:94-104 | one segment keeps the state well formed |
| LegacyApp.FeedAll | deafine/main.py:94-104 | a flush keeps the state well formed |
| LegacyApp.WithOverlapCheck | deafine/main.py:107-111 | setting the indicator keeps the state well formed |
| LegacyApp.Step | deafine/main.py:88-111 | one frame keeps the state well formed |
| LegacyApp.FeedAllAgrees | deafine/main.py:94-104 | a flush does exactly what the newer loop does, leaving out the summarizer |
| LegacyApp.StepAgrees | deafine/main.py:67-125 | the earlier and the newer loop agree frame by frame on everything but the summarizer |
| LegacyApp.StepTracks | deafine/main.py:58-111 | after a frame the indicator matches the overlap rule, and the flush's speakers are active at the frame's time |
| LegacyApp.FeedAllStops | deafine/main.py:94-104 | once a segment raises, the rest of the flush is not shown |
| LegacyApp.DeafineApp.constructor | deafine/main.py:19-41 | fresh transcriber and board, no activity, not running |
| LegacyApp.DeafineApp.CheckOverlapAt | deafine/main.py:58-65 | the counting loop computes `CheckOverlap` |
| LegacyApp.DeafineApp.FrameStep | deafine/main.py:88-111 | one iteration of the loop does `Step` |
| LegacyApp.DeafineApp.ShowSegments | deafine/main.py:94-104 | the per-segment loop does `FeedAll` |
| LegacyApp.DeafineApp.ShowSegment | deafine/main.py:94-104 | one segment does `Feed` |
| ApiBatch.RequestConfigAsWritten | audio_access/api.py:215-224 | the handlers' settings fail exactly when the server has no key, whatever the request carries |
| ApiBatch.RequestKeyIgnored | audio_access/api.py:215-224 | without a server key the request's key is never used |
| ApiBatch.RequestKeyIgnoredExample | audio_access/api.py:215-224 | no server key and request key `sk-1`: the code fails, the intended rule succeeds |
| ApiBatch.RequestConfig | audio_access/api.py:215-224 | the request fails exactly when neither key is given; the request's key wins; the VAD level is valid |
| ApiBatch.RequestConfigAgrees | audio_access/api.py:215-224 | where the server has a key, the code and the intended rule agree |
| ApiBatch.ChunkFrame | audio_access/api.py:120-129 | a chunk frame is at 16000 Hz and holds two bytes per sample of its chunk |
| ApiBatch.FramesFromOrdered | audio_access/api.py:116-129 | the upload's frames are in time order, start at or after the offset, are at 16000 Hz and hold at least half a second |
| ApiBatch.FramesFromAt | audio_access/api.py:116-129 | with chunks of at least half a second, the j-th frame is the chunk at j steps |
| ApiBatch.FrameAt | audio_access/api.py:116-129 | the same, one frame at a time |
| ApiBatch.FramesFromCover | audio_access/api.py:116-129 | with chunks of at least half a second the frames cover the upload, leaving out at most a tail shorter than half a second |
| ApiBatch.BatchDrains | audio_access/api.py:116-141 | after an upload nothing stays buffered, and the watermark is the last frame's timestamp |
| ApiBatch.IngestAllLast | audio_access/elevenlabs.py:43-51 | after a run of frames the last frame is either flushed or still buffered |
| ApiBatch.FeedFrame | audio_access/api.py:130-137 | one frame is added and processed when due, as `Ingest` |
| ApiBatch.ProcessAudioFile | audio_access/api.py:77-145 | the upload's segments are those of `Batch`; a zero step raises |
| ApiBatch.FeedChunks | audio_access/api.py:116-137 | the chunking loop feeds exactly the frames `FramesFrom` lists |
| ApiBatch.FeedChunk | audio_access/api.py:117-137 | one chunk is skipped when too short, otherwise fed |
| ApiBatch.CutFromFrames | audio_access/api.py:116-137 | cutting and feeding chunk by chunk is feeding the listed frames |
| ApiBatch.MaxEnd | audio_access/api.py:263 | the duration is the largest end time, or 0 without segments |
| ApiBatch.SpeakerSetSize | audio_access/api.py:266 | there are at most as many distinct speakers as segments, and at least one when there is a segment |
| ApiBatch.TranscribeAudioSpec | audio_access/api.py:190-285 | as written: a 500 with the missing-key message exactly when the server has no key, whatever key the request carries; a 500 for a zero chunk length otherwise; never a 400; a successful answer has a summary exactly when asked for and something was said, the speaker count bounded by the segments, and a duration covering every segment |
| ApiBatch.TranscribeAudioIntendedSpec | audio_access/api.py:215-224 | as intended: 400 exactly when neither key is given, 500 exactly for a zero chunk length, otherwise a successful answer as above |
| ApiBatch.TranscribeAudioKeyExample | audio_access/api.py:215-224 | no server key and request key `sk-1`: the written endpoint answers 500 with the missing-key message, the intended one transcribes |
| ApiBatch.TranscribeAudioAgrees | audio_access/api.py:215-224 | where the server has a key, the written and the intended endpoint give the same answer |
| ApiBatch.SummarizeLists | audio_access/api.py:241-249 | in the summary every segment is filed under its speaker, in order |
| ApiSessions.Created | audio_access/api.py:309-316 | a new job keeps the registry well formed |
| ApiSessions.Finished | audio_access/api.py:356-370 | finishing a job keeps the registry well formed |
| ApiSessions.JobOutcome | audio_access/api.py:341-370 | as written: the job fails with the missing-key message exactly when the server has no key, whatever key the request carries |
| ApiSessions.JobOutcomeIntended | audio_access/api.py:341-346 | as intended: the job fails with the missing-key message exactly when neither key is given |
| ApiSessions.GetSession | audio_access/api.py:377-391 | 404 exactly for an unknown id; otherwise the job's status, creation time, segment count and speakers |
| ApiSessions.GetTranscript | audio_access/api.py:395-415 | 404 for an unknown id, 425 exactly while the job is processing, its results otherwise |
| ApiSessions.ListedOf | audio_access/api.py:431-445 | one line per listed id, with that job's fields |
| ApiSessions.ListSessions | audio_access/api.py:431-445 | the count and the lines agree with the registry, in creation order, and every listed id can be fetched |
| ApiSessions.CreatedAnswers | audio_access/api.py:309-316 | a new job answers "processing" with nothing found and no transcript yet; other jobs answer as before |
| ApiSessions.FinishedAnswers | audio_access/api.py:358-370 | a finished job's transcript holds its segments and speakers, or its error; other jobs answer as before |
| ApiSessions.JobLifecycle | audio_access/api.py:309-373 | a job created and finished can be read; it failed, with the missing-key message, exactly when the server has no key; a completed job has no error |
| ApiSessions.Deleted | audio_access/api.py:419-427 | 404 exactly for an unknown id; otherwise exactly that entry goes and the others keep their order |
| ApiSessions.DeletedAnswers | audio_access/api.py:419-445 | after a delete the id is unknown everywhere, other ids answer as before, and the count drops by one |
| ApiSessions.WithoutLength | audio_access/api.py:426 | removing a listed key shortens the key list by one |
| ApiSessions.SessionStore.constructor | audio_access/api.py:40 | the registry starts empty |
| ApiSessions.SessionStore.Create | audio_access/api.py:309-316 | the registry becomes `Created` |
| ApiSessions.SessionStore.Finish | audio_access/api.py:356-370 | the registry becomes `Finished` |
| ApiSessions.SessionStore.Delete | audio_access/api.py:419-427 | 404 and no change for an unknown id; otherwise the registry becomes `Deleted` |
| ApiStream.Accept | audio_access/api.py:470-502 | a connection is registered exactly when the server has a key; otherwise the key error is sent; a new connection is greeted and starts at time 0 with no name and an empty summarizer |
| ApiStream.AudioClock | audio_access/api.py:512-542 | a binary message is accepted exactly when its byte count is even; its frame is stamped with the clock, and the clock advances by its duration at 16 kHz; a flush starts with a status message and empties the buffer |
| ApiStream.ServedClock | audio_access/api.py:507-527 | the clock never goes back, and while the session is open it equals the total duration of the audio received |
| ApiStream.HandleWindowed | audio_access/api.py:520-542 | each message keeps the transcriber's buffer within one chunk of its watermark |
| ApiStream.ServedWindowed | audio_access/api.py:507-542 | the same over any run of messages |
| ApiStream.AcceptWindowed | audio_access/api.py:485-495 | a new connection starts within the window |
| ApiStream.AnnouncePaired | audio_access/api.py:545-576 | every transcript message is followed by a haptic event exactly when it mentions the stored name |
| ApiStream.AudioPaired | audio_access/api.py:533-576 | a flush sends its status first, then transcripts each paired with its haptic event |
| ApiStream.AnnounceSaid | audio_access/api.py:545-566 | the transcript messages of a flush are exactly its segments, in order |
| ApiStream.AudioRecords | audio_access/api.py:545-547 | the summarizer files exactly the segments sent as transcripts |
| ApiStream.FlushRecords | audio_access/api.py:542-547 | on a flush the summarizer files the flushed segments |
| ApiStream.HandleRecords | audio_access/api.py:512-612 | any message files exactly the segments it sends |
| ApiStream.ServedRecords | audio_access/api.py:507-612 | over the session the summarizer holds exactly the segments sent |
| ApiStream.SetNameStored | audio_access/api.py:590-599 | `set_name` stores the stripped name, confirms it, and changes nothing else |
| ApiStream.MentionsIgnoresCase | audio_access/api.py:552 | the name match ignores case in both the name and the text |
| ApiStream.MentionsExample | audio_access/api.py:552 | the name `Ann` is found in `hi ANN` |
| ApiStream.ContainsAt | audio_access/api.py:552 | a needle found at some position is contained |
| ApiStream.AddAllEmpty | deafine/summarization.py:42-44 | the summarizer is empty exactly when it started empty and nothing was filed |
| ApiStream.FinalSummary | audio_access/api.py:614-636 | on disconnect a summary is sent exactly when some transcript was sent, and the session ends |
| ApiStream.ServedAppend | audio_access/api.py:507-612 | serving messages in two runs is serving them at once, stopping at the first that ends the session |
| ApiStream.CommandKeepsAudio | audio_access/api.py:580-612 | commands never touch the audio, the summarizer or the clock; only `set_name` changes the name, and only a non-string name ends the session |
| ApiStream.StreamSession.constructor | audio_access/api.py:485-495 | the session's objects are those of `Accept` |
| ApiStream.StreamSession.Connect | audio_access/api.py:470-502 | the greeting and the session exactly as `Accept` says |
| ApiStream.StreamSession.ReceiveAudio | audio_access/api.py:512-578 | a binary message does `OnAudio` |
| ApiStream.StreamSession.Flush | audio_access/api.py:535-576 | a flush sends the status and the announcements, and files every segment |
| ApiStream.StreamSession.ReceiveCommand | audio_access/api.py:580-612 | a command does `OnCommand` |
| ApiStream.StreamSession.Disconnected | audio_access/api.py:614-636 | a disconnect does `OnClose` |
| ApiStream.StreamSession.Receive | audio_access/api.py:510-612 | one message does `Handle` |
| ApiStream.StreamSession.Serve | audio_access/api.py:507-654 | the message loop does `Served` |

## Left out

- Environment parsing: the settings come in already built. `int()` on environment strings and `.lower() == "true"` are not modelled.
- Clocks: `time.time()`, `datetime.now()` and the frame clock of the capture callback are inputs. `last_updated`, the elapsed-time title and `connected_at` are not kept.
- Rendering: Rich panels, colours as terminal output, markup and the refresh rate are not modelled. The board is the data the panel is drawn from.
- Printing and logging: debug prints, `traceback`, shutdown printing and the summary file written on shutdown are not modelled.
- The service call: the HTTP request to ElevenLabs, WAV conversion and voice isolation (audio_access/elevenlabs.py:53-81 and 101-109) become one `Backend` function. Its answer is either words with speaker tags and text, or a failure.
- `transcriber.close()` and the HTTP client's lifetime are not modelled.
- AI summaries: the OpenAI path (`_generate_ai_summary`, deafine/summarization.py:104-139) is not modelled. The summarizer always uses the extractive summary.
- Statistics rounding: `round(duration, 1)` is not applied. `Summarization.PerSpeakerAt` states the unrounded total.
- Sound devices and concurrency: the sound device stream, `start`/`stop` of the capture, the thread-safe queue, asyncio, signal handlers and the `asyncio.sleep` delay are not modelled. Blocks arrive as method arguments.
- `_audio_callback` (audio_access/audio_capture.py:46-53): the conversion of float input to 16-bit samples is not modelled, because it is floating point. Blocks reach `OnBlock` as 16-bit samples. Each verdict is a value the `Classifier` parameter returns. A classifier that raises returns the verdict `Raises`, which accepts the chunk, as the `except` at audio_access/audio_capture.py:72-74 does.
- Recording: `recorder.py` and `cli.py` are not part of this model.
- Upload decoding: decoding of the upload, mixing down to mono and resampling (audio_access/api.py:88-109) are not modelled. The batch functions take 16-bit samples at 16 kHz.
- Session ids: `create_session_id` (audio_access/api.py:72-74) and uuid/time-based ids are inputs.
- Request plumbing: file uploads, temporary files and the FastAPI framework are not modelled. `root` and `health_check` (audio_access/api.py:150-185) return constant descriptions and are left out.
- Exception re-wrapping: the catch-all at audio_access/api.py:280-285 turns an exception into a 500 with its text. This is modelled for the missing server key, the handler's own 400 and the zero chunk length. It assumes the framework's `HTTPException` renders as "status: detail". Exceptions raised by the service call or by decoding are not modelled.
- `list_websocket_sessions` (audio_access/api.py:657-664) is not modelled. The shared `websocket_sessions` dictionary is reduced to each session's `registered` flag.
- The WebSocket framework: its receive and disconnect semantics are taken as a sequence of incoming events. `ApiStream.Incoming.Disconnect` assumes a disconnect reaches the handler as the `WebSocketDisconnect` exception (audio_access/api.py:614). If the framework's `receive()` hands the loop a disconnect message instead, that message has neither "bytes" nor "text". The loop would then receive again, fail, and end in the outer `except` (audio_access/api.py:638-654) without the final summary. That path is not modelled.
- `ApiStream.Accept`: the second key check at audio_access/api.py:477-483 cannot fail after `Config()` succeeded, so it is not modelled.
- Speaker sets: `list(set(...))` for speakers is a `set`. Python leaves its order unspecified.
- `Text.Lower`: only ASCII letters are lowered. Unicode case mapping is not modelled.
- `Text.ParseInt`: only an optional sign and ASCII digits are accepted. Python's `int()` also accepts underscores between digits (`"1_0"`) and non-ASCII decimal digits. For those the model answers `None`, as if `int()` raised. The transcriber only hands out `S<n>` labels, so `ConsoleUi.ColorIndex` never meets such input.
- `Configuration.WellTyped`: `get_config`'s `setattr` stores a value of any type. The model only takes an override whose value has the field's declared type. No caller passes an ill-typed override.
- `deafine/elevenlabs.py` and `deafine/console_ui.py` are not part of this model. `LegacyApp` imports deafine's own `.elevenlabs` and `.console_ui` (deafine/main.py:8-13). The model assumes they behave like the `audio_access` transcriber and board it reuses. The calls it makes (`add_audio`, `should_process`, `process_buffer`, `add_speaker`, `update_caption`, `set_overlap`) have the same names there.
- Floating point: times are `real`, so float rounding is not modelled.

## Findings

| source | as written | input that shows it | evidently intended | confidence | as-written member | corrected member |
|---|---|---|---|---|---|---|
| audio_access/api.py:215-224 (also 341-344) | `Config()` validates the server's key before the request's `api_key` replaces it, so without a server key every request fails with a 500 ("ELEVEN_API_KEY is required…") and the 400 branch is unreachable; were it reached, the catch-all at line 280 would still turn it into a 500 | server key empty, request key `sk-1` | the request's key stands in for a missing server key, and only a request with neither key is refused with 400 | not executed | ApiBatch.TranscribeAudioKeyExample, ApiBatch.RequestConfigAsWritten | ApiBatch.TranscribeAudioIntendedSpec, ApiBatch.RequestConfig |
