/** The registry of background transcription jobs (`audio_access/api.py`,
    `active_sessions`): `POST /transcribe/stream` creates an entry, the
    background job completes or fails it, and the `/session…` endpoints
    read, delete and list entries. */
module ApiSessions {
  import opened Wrappers
  import opened Events
  import opened OrderedMaps
  import opened Configuration
  import ElevenLabs
  import ApiBatch

  datatype Status = Processing | Completed | Failed

  /** One job. The source stores the speakers as `list(set(…))`, whose
      order Python leaves unspecified; here they are the set. */
  datatype Session = Session(
    status: Status,
    createdAt: string,
    filePath: string,
    segments: seq<TranscriptSegment>,
    speakers: set<string>,
    error: Option<string>)

  /** The registry: session id to job, in creation order. */
  type Registry = OrderedMap<string, Session>

  const NotFound: ApiBatch.HttpError := ApiBatch.HttpError(404, "Session not found")
  const TooEarly: ApiBatch.HttpError := ApiBatch.HttpError(425, "Session still processing. Check back later.")

  // ---------------------------------------------------------------- changes

  /** A new job, still processing, with nothing found yet. */
  function Created(reg: Registry, id: string, createdAt: string, filePath: string): (r: Registry)
    requires reg.Valid()
    ensures r.Valid()
  {
    reg.Put(id, Session(Processing, createdAt, filePath, [], {}, None))
  }

  /** The end of the background job: its segments and distinct speakers on
      success, the error text on failure. A job whose entry has gone leaves
      the registry as it is (the source's own writes fail then). */
  function Finished(reg: Registry, id: string, outcome: Result<seq<TranscriptSegment>, string>): (r: Registry)
    requires reg.Valid()
    ensures r.Valid()
  {
    if id !in reg.values then reg
    else
      var s := reg.values[id];
      match outcome
      case Ok(segs) => reg.Put(id, s.(status := Completed, segments := segs, speakers := ApiBatch.SpeakerSet(segs)))
      case Err(e) => reg.Put(id, s.(status := Failed, error := Some(e)))
  }

  /** `process_session_async` after decoding, as written: `Config()` is
      validated before the request's key replaces the server's, so the job
      fails with the missing-key message exactly when the server has no
      key; otherwise the upload is cut in five-second chunks. */
  function JobOutcome(env: Config, apiKey: Option<string>, samples: seq<int16>, backend: ElevenLabs.Backend)
    : (r: Result<seq<TranscriptSegment>, string>)
    ensures r.Err? <==> env.elevenApiKey == []
    ensures r.Err? ==> r.error == MissingKey
  {
    match ApiBatch.RequestConfigAsWritten(env, apiKey)
    case Err(e) => Err(e)
    case Ok(config) => Ok(Transcribed(config, samples, backend))
  }

  /** The segments of an upload cut in five-second chunks. */
  function Transcribed(config: Config, samples: seq<int16>, backend: ElevenLabs.Backend): seq<TranscriptSegment> {
    ApiBatch.Batch(samples, 5 * ApiBatch.Rate, config.elevenlabsChunkDuration as real, backend).value.segments
  }

  /** The job as evidently intended: the request's key stands in for a
      missing server key, so it fails only when neither key is given. */
  function JobOutcomeIntended(env: Config, apiKey: Option<string>, samples: seq<int16>, backend: ElevenLabs.Backend)
    : (r: Result<seq<TranscriptSegment>, string>)
    ensures r.Err? <==> env.elevenApiKey == [] && !ApiBatch.GivenKey(apiKey)
    ensures r.Err? ==> r.error == MissingKey
  {
    match ApiBatch.RequestConfig(env, apiKey)
    case Err(e) => Err(e)
    case Ok(config) => Ok(Transcribed(config, samples, backend))
  }

  // ---------------------------------------------------------------- reads

  datatype SessionInfo = SessionInfo(sessionId: string, status: Status, createdAt: string, segmentsCount: nat, speakers: set<string>)

  /** `GET /session/{id}`. */
  function GetSession(reg: Registry, id: string): (r: Result<SessionInfo, ApiBatch.HttpError>)
    ensures r.Err? <==> id !in reg.values
    ensures r.Err? ==> r.error == NotFound
    ensures r.Ok? ==> var s := reg.values[id];
      r.value == SessionInfo(id, s.status, s.createdAt, |s.segments|, s.speakers)
  {
    if id !in reg.values then Err(NotFound)
    else
      var s := reg.values[id];
      Ok(SessionInfo(id, s.status, s.createdAt, |s.segments|, s.speakers))
  }

  datatype Transcript = Transcript(sessionId: string, status: Status, segments: seq<TranscriptSegment>, speakers: set<string>, error: Option<string>)

  /** `GET /session/{id}/transcript`: 404 for an unknown id, 425 while the
      job is processing, the job's results otherwise. */
  function GetTranscript(reg: Registry, id: string): (r: Result<Transcript, ApiBatch.HttpError>)
    ensures r == Err(NotFound) <==> id !in reg.values
    ensures r == Err(TooEarly) <==> id in reg.values && reg.values[id].status == Processing
    ensures r.Ok? <==> id in reg.values && reg.values[id].status != Processing
    ensures r.Ok? ==> var s := reg.values[id];
      r.value == Transcript(id, s.status, s.segments, s.speakers, s.error)
  {
    if id !in reg.values then Err(NotFound)
    else
      var s := reg.values[id];
      if s.status == Processing then Err(TooEarly)
      else Ok(Transcript(id, s.status, s.segments, s.speakers, s.error))
  }

  datatype Listed = Listed(sessionId: string, status: Status, createdAt: string, segmentsCount: nat)

  function ListedOf(reg: Registry, ks: seq<string>): (r: seq<Listed>)
    requires forall k :: k in ks ==> k in reg.values
    ensures |r| == |ks|
    ensures forall i :: 0 <= i < |ks| ==>
      var s := reg.values[ks[i]];
      r[i] == Listed(ks[i], s.status, s.createdAt, |s.segments|)
  {
    if ks == [] then []
    else
      var s := reg.values[ks[0]];
      [Listed(ks[0], s.status, s.createdAt, |s.segments|)] + ListedOf(reg, ks[1..])
  }

  /** `GET /sessions`: the number of jobs and one line per job, in creation
      order. */
  function ListSessions(reg: Registry): (r: (nat, seq<Listed>))
    requires reg.Valid()
    ensures r.0 == |reg.keys| == |r.1|
    ensures forall i :: 0 <= i < |r.1| ==> r.1[i].sessionId == reg.keys[i] && GetSession(reg, reg.keys[i]).Ok?
  {
    (|reg.keys|, ListedOf(reg, reg.keys))
  }

  // ---------------------------------------------------------------- properties

  /** A job just created answers "processing" with nothing found, and its
      transcript is not ready; other jobs answer as before. */
  lemma CreatedAnswers(reg: Registry, id: string, createdAt: string, filePath: string, other: string)
    requires reg.Valid()
    ensures var r := Created(reg, id, createdAt, filePath);
      GetSession(r, id) == Ok(SessionInfo(id, Processing, createdAt, 0, {}))
      && GetTranscript(r, id) == Err(TooEarly)
      && (other != id ==> GetSession(r, other) == GetSession(reg, other) && GetTranscript(r, other) == GetTranscript(reg, other))
  {
  }

  /** Once the job has finished its transcript can be read: the segments and
      speakers on success, the error text on failure; the creation time is
      kept, and other jobs are untouched. */
  lemma FinishedAnswers(reg: Registry, id: string, outcome: Result<seq<TranscriptSegment>, string>, other: string)
    requires reg.Valid() && id in reg.values
    ensures var r := Finished(reg, id, outcome);
      var s := reg.values[id];
      (outcome.Ok? ==> GetTranscript(r, id) == Ok(Transcript(id, Completed, outcome.value, ApiBatch.SpeakerSet(outcome.value), s.error)))
      && (outcome.Err? ==> GetTranscript(r, id) == Ok(Transcript(id, Failed, s.segments, s.speakers, Some(outcome.error))))
      && GetSession(r, id).value.createdAt == s.createdAt
      && r.keys == reg.keys
      && (other != id ==> GetSession(r, other) == GetSession(reg, other))
  {
  }

  /** A job created and then finished by the background task: it has
      failed with the missing-key message exactly when the server has no
      key, whatever key the request carried; a completed job has no error. */
  lemma JobLifecycle(reg: Registry, id: string, createdAt: string, filePath: string,
                     env: Config, apiKey: Option<string>, samples: seq<int16>, backend: ElevenLabs.Backend)
    requires reg.Valid()
    ensures var r := Finished(Created(reg, id, createdAt, filePath), id, JobOutcome(env, apiKey, samples, backend));
      var t := GetTranscript(r, id);
      t.Ok?
      && (t.value.status == Failed <==> env.elevenApiKey == [])
      && (t.value.status == Failed ==> t.value.error == Some(MissingKey))
      && (t.value.status == Completed ==> t.value.error == None)
  {
  }

  /** `DELETE /session/{id}`: 404 for an unknown id; otherwise exactly that
      entry goes and the others keep their order. */
  function Deleted(reg: Registry, id: string): (r: Result<Registry, ApiBatch.HttpError>)
    requires reg.Valid()
    ensures r.Err? <==> id !in reg.values
    ensures r.Err? ==> r.error == NotFound
    ensures r.Ok? ==> r.value.Valid() && r.value.values == reg.values - {id} && r.value.keys == Without(reg.keys, id)
  {
    if id !in reg.values then Err(NotFound) else Ok(reg.Remove(id))
  }

  /** After a delete the id is unknown to every endpoint, and every other
      id answers as before. */
  lemma DeletedAnswers(reg: Registry, id: string, other: string)
    requires reg.Valid() && id in reg.values
    ensures var r := Deleted(reg, id).value;
      GetSession(r, id) == Err(NotFound) && GetTranscript(r, id) == Err(NotFound) && Deleted(r, id) == Err(NotFound)
      && (other != id ==> GetSession(r, other) == GetSession(reg, other) && GetTranscript(r, other) == GetTranscript(reg, other))
      && ListSessions(r).0 == ListSessions(reg).0 - 1
  {
    var r := Deleted(reg, id).value;
    WithoutLength(reg.keys, id);
  }

  /** Removing a listed key from a list without repeats shortens it by one. */
  lemma {:induction false} WithoutLength(ks: seq<string>, k: string)
    requires Distinct(ks) && k in ks
    ensures |Without(ks, k)| == |ks| - 1
  {
    if ks[0] != k {
      WithoutLength(ks[1..], k);
    } else {
      assert k !in ks[1..];
      WithoutAbsent(ks[1..], k);
    }
  }

  lemma {:induction false} WithoutAbsent(ks: seq<string>, k: string)
    requires k !in ks
    ensures Without(ks, k) == ks
  {
    if ks != [] {
      WithoutAbsent(ks[1..], k);
    }
  }

  // ---------------------------------------------------------------- the object

  /** The module-level `active_sessions` dictionary with its writers. */
  class SessionStore {
    var sessions: Registry

    ghost predicate Valid()
      reads this
    {
      sessions.Valid()
    }

    constructor()
      ensures Valid() && sessions == Empty()
    {
      sessions := Empty();
    }

    /** The entry `transcribe_stream` writes. */
    method Create(id: string, createdAt: string, filePath: string)
      requires Valid()
      modifies this
      ensures Valid() && sessions == Created(old(sessions), id, createdAt, filePath)
    {
      sessions := sessions.Put(id, Session(Processing, createdAt, filePath, [], {}, None));
    }

    /** The writes of `process_session_async` once its work is done. */
    method Finish(id: string, outcome: Result<seq<TranscriptSegment>, string>)
      requires Valid()
      modifies this
      ensures Valid() && sessions == Finished(old(sessions), id, outcome)
    {
      if id !in sessions.values {
        return;
      }
      var s := sessions.values[id];
      if outcome.Ok? {
        var segs := outcome.value;
        var speakers := set i | 0 <= i < |segs| :: segs[i].speakerId;
        sessions := sessions.Put(id, s.(status := Completed, segments := segs, speakers := speakers));
      } else {
        sessions := sessions.Put(id, s.(status := Failed, error := Some(outcome.error)));
      }
    }

    /** `delete_session`. */
    method Delete(id: string) returns (r: Result<string, ApiBatch.HttpError>)
      requires Valid()
      modifies this
      ensures Valid()
      ensures r.Err? <==> id !in old(sessions).values
      ensures r.Err? ==> r.error == NotFound && sessions == old(sessions)
      ensures r.Ok? ==> r.value == id && sessions == Deleted(old(sessions), id).value
    {
      if id !in sessions.values {
        return Err(NotFound);
      }
      sessions := sessions.Remove(id);
      return Ok(id);
    }
  }
}
