/**
  The analysis pipeline (backend/app/services/feedback_processor.py). A feedback record is
  looked up, then three stages run in order: sentiment, response, audio. The sentiment and
  response stages each store one record and commit it, and each stops the pipeline when it
  fails. The audio stage is optional: its failure never changes the outcome.

  The database is a `RecordStore` object holding the four tables. A commit succeeds unless
  it breaks a primary key or a unique column, and a failed commit stores nothing. The three
  services, the row ids, the clock and the lookup's failure are inputs: `Env`.
*/
module Processor {
  import opened Wrappers
  import opened ServiceBase
  import opened TextAnalytics
  import opened OpenAI
  import opened Speech
  import opened Models

  datatype Tables = Tables(feedback: map<string, FeedbackRow>, sentiments: map<string, SentimentRow>,
                           responses: map<string, ResponseRow>, audioFiles: map<string, AudioRow>)

  predicate HasSentimentFor(rows: map<string, SentimentRow>, feedbackId: string) {
    exists k :: k in rows && rows[k].feedbackId == feedbackId
  }

  predicate HasResponseFor(rows: map<string, ResponseRow>, feedbackId: string) {
    exists k :: k in rows && rows[k].feedbackId == feedbackId
  }

  predicate HasAudioFor(rows: map<string, AudioRow>, feedbackId: string) {
    exists k :: k in rows && rows[k].feedbackId == feedbackId
  }

  predicate HasAudioPath(rows: map<string, AudioRow>, filePath: string) {
    exists k :: k in rows && rows[k].filePath == filePath
  }

  /** A sentiment row is accepted when its id is new and its feedback has none yet
      (`feedback_id` is unique). */
  function InsertSentiment(t: Tables, row: SentimentRow): Option<Tables> {
    if row.id in t.sentiments || HasSentimentFor(t.sentiments, row.feedbackId) then None
    else Some(t.(sentiments := t.sentiments[row.id := row]))
  }

  function InsertResponse(t: Tables, row: ResponseRow): Option<Tables> {
    if row.id in t.responses || HasResponseFor(t.responses, row.feedbackId) then None
    else Some(t.(responses := t.responses[row.id := row]))
  }

  /** An audio row also needs a file path no other row has (`file_path` is unique). */
  function InsertAudio(t: Tables, row: AudioRow): Option<Tables> {
    if row.id in t.audioFiles || HasAudioFor(t.audioFiles, row.feedbackId) || HasAudioPath(t.audioFiles, row.filePath) then None
    else Some(t.(audioFiles := t.audioFiles[row.id := row]))
  }

  /** At most one sentiment, one response and one audio row per feedback, as the unique
      columns demand. */
  predicate OnePerFeedback(t: Tables) {
    (forall a, b :: a in t.sentiments && b in t.sentiments && t.sentiments[a].feedbackId == t.sentiments[b].feedbackId ==> a == b)
    && (forall a, b :: a in t.responses && b in t.responses && t.responses[a].feedbackId == t.responses[b].feedbackId ==> a == b)
    && (forall a, b :: a in t.audioFiles && b in t.audioFiles && t.audioFiles[a].feedbackId == t.audioFiles[b].feedbackId ==> a == b)
  }

  /** What the pipeline does, in order: calls into the services, commits and rollbacks. */
  datatype Event =
    | AnalyzeCalled(text: string)
    | SentimentCommitted(sentimentRow: SentimentRow)
    | RespondCalled(feedbackText: string, data: SentimentData)
    | ResponseCommitted(responseRow: ResponseRow)
    | SpeakCalled(responseText: string, sentiment: string, confidence: real, feedbackId: string)
    | AudioCommitted(audioRow: AudioRow)
    | RolledBack

  /** The world around one run. `analyze`, `respond` and `speak` are the three services (each
      returns a response or raises). `audioColumnsMapped` says whether `AudioFile` accepts the
      `blob_url`, `file_size` and `storage_type` arguments; as declared it does not. The ids
      are the new rows' generated primary keys and `now` is the commit time. */
  datatype Env = Env(lookupRaises: bool,
                     analyze: string -> Outcome<ServiceResponse<SentimentData>, string>,
                     respond: (string, SentimentData) -> Outcome<ServiceResponse<ResponseData>, string>,
                     speak: (string, string, real, string) -> Outcome<ServiceResponse<AudioData>, string>,
                     audioColumnsMapped: bool,
                     sentimentRowId: string, responseRowId: string, audioRowId: string, now: string)

  datatype StageResult<T> = StageResult(value: Option<T>, events: seq<Event>, tables: Tables)

  /** `'blob' if audio_data.get('blob_url') else 'local'`: an empty URL counts as absent. */
  function StorageType(blobUrl: Option<string>): (s: string)
    ensures s == "blob" <==> blobUrl.Some? && blobUrl.value != []
    ensures s == "blob" || s == "local"
  {
    if blobUrl.Some? && blobUrl.value != [] then "blob" else "local"
  }

  function SentimentRowFor(fb: FeedbackRow, data: SentimentData, env: Env): SentimentRow {
    SentimentRow(env.sentimentRowId, fb.id, data.sentiment, Some(data.confidenceScore), Some(env.now))
  }

  function ResponseRowFor(fb: FeedbackRow, data: ResponseData, env: Env): ResponseRow {
    ResponseRow(env.responseRowId, fb.id, data.responseText, Some(data.modelUsed), Some(env.now))
  }

  function AudioRowFor(fb: FeedbackRow, audio: AudioData, responseText: string, env: Env): AudioRow {
    AudioRow(env.audioRowId, fb.id, audio.filePath, Some(EstimateDuration(responseText)), Some(env.now),
             audio.blobUrl, audio.fileSize, StorageType(audio.blobUrl))
  }

  /** `_process_sentiment_analysis`. */
  function SentimentStage(t: Tables, fb: FeedbackRow, env: Env): StageResult<SentimentData> {
    match env.analyze(fb.text)
    case Raised(_) => StageResult(None, [AnalyzeCalled(fb.text), RolledBack], t)
    case Returned(resp) =>
      if resp.success && resp.data.Some? then
        var row := SentimentRowFor(fb, resp.data.value, env);
        match InsertSentiment(t, row)
        case Some(t') => StageResult(Some(resp.data.value), [AnalyzeCalled(fb.text), SentimentCommitted(row)], t')
        case None => StageResult(None, [AnalyzeCalled(fb.text), RolledBack], t)
      else StageResult(None, [AnalyzeCalled(fb.text)], t)
  }

  /** `_process_ai_response`. */
  function ResponseStage(t: Tables, fb: FeedbackRow, data: SentimentData, env: Env): StageResult<ResponseData> {
    match env.respond(fb.text, data)
    case Raised(_) => StageResult(None, [RespondCalled(fb.text, data), RolledBack], t)
    case Returned(resp) =>
      if resp.success && resp.data.Some? then
        var row := ResponseRowFor(fb, resp.data.value, env);
        match InsertResponse(t, row)
        case Some(t') => StageResult(Some(resp.data.value), [RespondCalled(fb.text, data), ResponseCommitted(row)], t')
        case None => StageResult(None, [RespondCalled(fb.text, data), RolledBack], t)
      else StageResult(None, [RespondCalled(fb.text, data)], t)
  }

  /** `_process_audio_generation`: any failure is swallowed and nothing is rolled back. With
      the declared `AudioFile`, building the record raises, so nothing is stored. */
  function AudioStage(t: Tables, fb: FeedbackRow, data: SentimentData, responseText: string, env: Env): StageResult<AudioData> {
    var call := SpeakCalled(responseText, data.sentiment, data.confidenceScore, fb.id);
    match env.speak(responseText, data.sentiment, data.confidenceScore, fb.id)
    case Raised(_) => StageResult(None, [call], t)
    case Returned(resp) =>
      if resp.success && resp.data.Some? && env.audioColumnsMapped then
        var row := AudioRowFor(fb, resp.data.value, responseText, env);
        match InsertAudio(t, row)
        case Some(t') => StageResult(Some(resp.data.value), [call, AudioCommitted(row)], t')
        case None => StageResult(None, [call], t)
      else StageResult(None, [call], t)
  }

  datatype PipelineResult = PipelineResult(ok: bool, events: seq<Event>, tables: Tables)

  /** `process_feedback_complete`. */
  function Pipeline(t: Tables, feedbackId: string, env: Env): PipelineResult {
    if env.lookupRaises then PipelineResult(false, [RolledBack], t)
    else if feedbackId !in t.feedback then PipelineResult(false, [], t)
    else
      var fb := t.feedback[feedbackId];
      var s := SentimentStage(t, fb, env);
      if s.value.None? then PipelineResult(false, s.events, s.tables)
      else
        var r := ResponseStage(s.tables, fb, s.value.value, env);
        if r.value.None? then PipelineResult(false, s.events + r.events, r.tables)
        else
          var a := AudioStage(r.tables, fb, s.value.value, r.value.value.responseText, env);
          PipelineResult(true, s.events + r.events + a.events, a.tables)
  }

  /** A sentiment stage that succeeds stores exactly its row and touches no other table. */
  lemma SentimentStageStores(t: Tables, fb: FeedbackRow, env: Env)
    requires SentimentStage(t, fb, env).value.Some?
    ensures var data := env.analyze(fb.text).value.data.value;
            env.analyze(fb.text).Returned? && SentimentStage(t, fb, env).value == Some(data)
            && SentimentStage(t, fb, env).tables == t.(sentiments := t.sentiments[env.sentimentRowId := SentimentRowFor(fb, data, env)])
            && InsertSentiment(t, SentimentRowFor(fb, data, env)).Some?
  {
  }

  lemma ResponseStageStores(t: Tables, fb: FeedbackRow, data: SentimentData, env: Env)
    requires ResponseStage(t, fb, data, env).value.Some?
    ensures var reply := env.respond(fb.text, data).value.data.value;
            env.respond(fb.text, data).Returned? && ResponseStage(t, fb, data, env).value == Some(reply)
            && ResponseStage(t, fb, data, env).tables == t.(responses := t.responses[env.responseRowId := ResponseRowFor(fb, reply, env)])
            && InsertResponse(t, ResponseRowFor(fb, reply, env)).Some?
  {
  }

  /** A stage that fails stores nothing. */
  lemma FailedStagesStoreNothing(t: Tables, fb: FeedbackRow, data: SentimentData, env: Env)
    ensures SentimentStage(t, fb, env).value.None? ==> SentimentStage(t, fb, env).tables == t
    ensures ResponseStage(t, fb, data, env).value.None? ==> ResponseStage(t, fb, data, env).tables == t
  {
  }

  /** The audio stage changes the audio table at most. */
  lemma AudioStageFrame(t: Tables, fb: FeedbackRow, data: SentimentData, responseText: string, env: Env)
    ensures var a := AudioStage(t, fb, data, responseText, env);
            a.tables.feedback == t.feedback && a.tables.sentiments == t.sentiments && a.tables.responses == t.responses
    ensures !env.audioColumnsMapped ==> AudioStage(t, fb, data, responseText, env).tables == t
  {
  }

  /** The database session over the four tables. Each `Commit...` is one `add` followed by a
      `commit`; a commit that breaks a key or a unique column stores nothing. */
  class RecordStore {
    var feedback: map<string, FeedbackRow>
    var sentiments: map<string, SentimentRow>
    var responses: map<string, ResponseRow>
    var audioFiles: map<string, AudioRow>

    constructor (rows: map<string, FeedbackRow>)
      ensures Snapshot() == Tables(rows, map[], map[], map[])
    {
      feedback := rows;
      sentiments := map[];
      responses := map[];
      audioFiles := map[];
    }

    function Snapshot(): Tables
      reads this
    {
      Tables(feedback, sentiments, responses, audioFiles)
    }

    method CommitSentiment(row: SentimentRow) returns (committed: bool)
      modifies this
      ensures committed <==> InsertSentiment(old(Snapshot()), row).Some?
      ensures Snapshot() == if committed then InsertSentiment(old(Snapshot()), row).value else old(Snapshot())
    {
      if row.id in sentiments || HasSentimentFor(sentiments, row.feedbackId) {
        committed := false;
      } else {
        sentiments := sentiments[row.id := row];
        committed := true;
      }
    }

    method CommitResponse(row: ResponseRow) returns (committed: bool)
      modifies this
      ensures committed <==> InsertResponse(old(Snapshot()), row).Some?
      ensures Snapshot() == if committed then InsertResponse(old(Snapshot()), row).value else old(Snapshot())
    {
      if row.id in responses || HasResponseFor(responses, row.feedbackId) {
        committed := false;
      } else {
        responses := responses[row.id := row];
        committed := true;
      }
    }

    method CommitAudio(row: AudioRow) returns (committed: bool)
      modifies this
      ensures committed <==> InsertAudio(old(Snapshot()), row).Some?
      ensures Snapshot() == if committed then InsertAudio(old(Snapshot()), row).value else old(Snapshot())
    {
      if row.id in audioFiles || HasAudioFor(audioFiles, row.feedbackId) || HasAudioPath(audioFiles, row.filePath) {
        committed := false;
      } else {
        audioFiles := audioFiles[row.id := row];
        committed := true;
      }
    }
  }

  /** `FeedbackProcessor` over a record store; the services come with each run in `env`. */
  class FeedbackProcessor {
    const store: RecordStore

    constructor (store: RecordStore)
      ensures this.store == store
    {
      this.store := store;
    }

    /** `_process_sentiment_analysis`. */
    method ProcessSentimentAnalysis(fb: FeedbackRow, env: Env) returns (result: Option<SentimentData>, events: seq<Event>)
      modifies store
      ensures StageResult(result, events, store.Snapshot()) == SentimentStage(old(store.Snapshot()), fb, env)
    {
      events := [AnalyzeCalled(fb.text)];
      result := None;
      match env.analyze(fb.text)
      case Raised(_) =>
        events := events + [RolledBack];
      case Returned(resp) =>
        if resp.success && resp.data.Some? {
          var row := SentimentRowFor(fb, resp.data.value, env);
          var committed := store.CommitSentiment(row);
          if committed {
            events := events + [SentimentCommitted(row)];
            result := Some(resp.data.value);
          } else {
            events := events + [RolledBack];
          }
        }
    }

    /** `_process_ai_response`. */
    method ProcessAiResponse(fb: FeedbackRow, data: SentimentData, env: Env) returns (result: Option<ResponseData>, events: seq<Event>)
      modifies store
      ensures StageResult(result, events, store.Snapshot()) == ResponseStage(old(store.Snapshot()), fb, data, env)
    {
      events := [RespondCalled(fb.text, data)];
      result := None;
      match env.respond(fb.text, data)
      case Raised(_) =>
        events := events + [RolledBack];
      case Returned(resp) =>
        if resp.success && resp.data.Some? {
          var row := ResponseRowFor(fb, resp.data.value, env);
          var committed := store.CommitResponse(row);
          if committed {
            events := events + [ResponseCommitted(row)];
            result := Some(resp.data.value);
          } else {
            events := events + [RolledBack];
          }
        }
    }

    /** `_process_audio_generation`. */
    method ProcessAudioGeneration(fb: FeedbackRow, data: SentimentData, responseText: string, env: Env)
      returns (result: Option<AudioData>, events: seq<Event>)
      modifies store
      ensures StageResult(result, events, store.Snapshot()) == AudioStage(old(store.Snapshot()), fb, data, responseText, env)
    {
      events := [SpeakCalled(responseText, data.sentiment, data.confidenceScore, fb.id)];
      result := None;
      match env.speak(responseText, data.sentiment, data.confidenceScore, fb.id)
      case Raised(_) =>
      case Returned(resp) =>
        if resp.success && resp.data.Some? && env.audioColumnsMapped {
          var row := AudioRowFor(fb, resp.data.value, responseText, env);
          var committed := store.CommitAudio(row);
          if committed {
            events := events + [AudioCommitted(row)];
            result := Some(resp.data.value);
          }
        }
    }

    /** `process_feedback_complete`. */
    method ProcessFeedbackComplete(feedbackId: string, env: Env) returns (ok: bool, events: seq<Event>)
      modifies store
      ensures PipelineResult(ok, events, store.Snapshot()) == Pipeline(old(store.Snapshot()), feedbackId, env)
    {
      if env.lookupRaises {
        return false, [RolledBack];
      }
      if feedbackId !in store.feedback {
        return false, [];
      }
      var fb := store.feedback[feedbackId];
      var sentiment, sentimentEvents := ProcessSentimentAnalysis(fb, env);
      if sentiment.None? {
        return false, sentimentEvents;
      }
      var response, responseEvents := ProcessAiResponse(fb, sentiment.value, env);
      if response.None? {
        return false, sentimentEvents + responseEvents;
      }
      var audio, audioEvents := ProcessAudioGeneration(fb, sentiment.value, response.value.responseText, env);
      return true, sentimentEvents + responseEvents + audioEvents;
    }
  }

  predicate NoServiceCalls(events: seq<Event>) {
    forall i :: 0 <= i < |events| ==> !events[i].AnalyzeCalled? && !events[i].RespondCalled? && !events[i].SpeakCalled?
  }

  /** An unknown feedback id is a failure that calls no service and stores nothing, and so
      is a failing lookup, which also rolls back. */
  lemma UnknownFeedbackRunsNoStage(t: Tables, feedbackId: string, env: Env)
    requires env.lookupRaises || feedbackId !in t.feedback
    ensures var r := Pipeline(t, feedbackId, env);
            !r.ok && r.tables == t && NoServiceCalls(r.events)
            && (env.lookupRaises <==> RolledBack in r.events)
  {
  }

  /** When the sentiment stage fails, neither the response nor the audio service is called
      and the result is a failure. */
  lemma SentimentFailureStops(t: Tables, feedbackId: string, env: Env)
    requires !env.lookupRaises && feedbackId in t.feedback
    requires SentimentStage(t, t.feedback[feedbackId], env).value.None?
    ensures var r := Pipeline(t, feedbackId, env);
            !r.ok && r.tables == t
            && forall i :: 0 <= i < |r.events| ==> !r.events[i].RespondCalled? && !r.events[i].SpeakCalled?
  {
  }

  /** When the response stage fails, the audio service is not called and the result is a
      failure; the sentiment record stays committed. */
  lemma ResponseFailureStops(t: Tables, feedbackId: string, env: Env)
    requires !env.lookupRaises && feedbackId in t.feedback
    requires var s := SentimentStage(t, t.feedback[feedbackId], env);
             s.value.Some? && ResponseStage(s.tables, t.feedback[feedbackId], s.value.value, env).value.None?
    ensures var r := Pipeline(t, feedbackId, env);
            !r.ok && r.tables == SentimentStage(t, t.feedback[feedbackId], env).tables
            && forall i :: 0 <= i < |r.events| ==> !r.events[i].SpeakCalled?
  {
    var fb := t.feedback[feedbackId];
    var s := SentimentStage(t, fb, env);
    var r := ResponseStage(s.tables, fb, s.value.value, env);
    assert forall i :: 0 <= i < |s.events| ==> !s.events[i].SpeakCalled?;
    assert forall i :: 0 <= i < |r.events| ==> !r.events[i].SpeakCalled?;
  }

  /** The run succeeds exactly when the lookup works, the sentiment service answers with data
      whose record the table accepts, and the response service does the same; the audio
      service has no say. */
  lemma PipelineOkExactly(t: Tables, feedbackId: string, env: Env)
    ensures Pipeline(t, feedbackId, env).ok <==>
              !env.lookupRaises && feedbackId in t.feedback
              && var fb := t.feedback[feedbackId];
                 var sr := env.analyze(fb.text);
                 sr.Returned? && sr.value.success && sr.value.data.Some?
                 && var srow := SentimentRowFor(fb, sr.value.data.value, env);
                    srow.id !in t.sentiments && !HasSentimentFor(t.sentiments, fb.id)
                    && var rr := env.respond(fb.text, sr.value.data.value);
                       rr.Returned? && rr.value.success && rr.value.data.Some?
                       && env.responseRowId !in t.responses && !HasResponseFor(t.responses, fb.id)
  {
  }

  /** Swapping the speech service, or the audio table's columns, never changes whether the run
      succeeds. */
  lemma AudioNeverAffectsOk(t: Tables, feedbackId: string, env: Env,
                            speak: (string, string, real, string) -> Outcome<ServiceResponse<AudioData>, string>,
                            mapped: bool)
    ensures Pipeline(t, feedbackId, env).ok == Pipeline(t, feedbackId, env.(speak := speak, audioColumnsMapped := mapped)).ok
  {
  }

  /** A successful run has stored the sentiment record with the analysis's label and score, and
      the response record with the reply's text and model, both for this feedback. */
  lemma SuccessStoresResults(t: Tables, feedbackId: string, env: Env)
    requires Pipeline(t, feedbackId, env).ok
    ensures var r := Pipeline(t, feedbackId, env);
            var fb := t.feedback[feedbackId];
            var data := env.analyze(fb.text).value.data.value;
            var reply := env.respond(fb.text, data).value.data.value;
            env.sentimentRowId in r.tables.sentiments
            && r.tables.sentiments[env.sentimentRowId].feedbackId == fb.id
            && r.tables.sentiments[env.sentimentRowId].sentiment == data.sentiment
            && r.tables.sentiments[env.sentimentRowId].confidenceScore == Some(data.confidenceScore)
            && env.responseRowId in r.tables.responses
            && r.tables.responses[env.responseRowId].feedbackId == fb.id
            && r.tables.responses[env.responseRowId].responseText == reply.responseText
            && r.tables.responses[env.responseRowId].modelUsed == Some(reply.modelUsed)
  {
    var fb := t.feedback[feedbackId];
    var s := SentimentStage(t, fb, env);
    SentimentStageStores(t, fb, env);
    var r := ResponseStage(s.tables, fb, s.value.value, env);
    ResponseStageStores(s.tables, fb, s.value.value, env);
    AudioStageFrame(r.tables, fb, s.value.value, r.value.value.responseText, env);
  }

  /** The response service is only called after the sentiment record is committed, and it
      receives the analysis that was stored. */
  lemma SentimentCommittedBeforeRespond(t: Tables, feedbackId: string, env: Env)
    ensures var events := Pipeline(t, feedbackId, env).events;
            forall i :: 0 <= i < |events| && events[i].RespondCalled? ==>
              exists j :: 0 <= j < i && events[j].SentimentCommitted?
                          && events[j].sentimentRow.sentiment == events[i].data.sentiment
                          && events[j].sentimentRow.confidenceScore == Some(events[i].data.confidenceScore)
  {
    if !env.lookupRaises && feedbackId in t.feedback {
      var fb := t.feedback[feedbackId];
      var s := SentimentStage(t, fb, env);
      if s.value.Some? {
        assert s.events[1].SentimentCommitted?;
        var r := ResponseStage(s.tables, fb, s.value.value, env);
        var events := Pipeline(t, feedbackId, env).events;
        assert events[..|s.events| + |r.events|] == s.events + r.events;
        forall i | 0 <= i < |events| && events[i].RespondCalled?
          ensures exists j :: 0 <= j < i && events[j].SentimentCommitted?
                              && events[j].sentimentRow.sentiment == events[i].data.sentiment
                              && events[j].sentimentRow.confidenceScore == Some(events[i].data.confidenceScore)
        {
          assert i == 2;
          assert events[1] == s.events[1];
        }
      }
    }
  }

  /** With the declared `AudioFile`, the pipeline never stores an audio record. */
  lemma AudioNeverStoredAsDeclared(t: Tables, feedbackId: string, env: Env)
    requires !env.audioColumnsMapped
    ensures Pipeline(t, feedbackId, env).tables.audioFiles == t.audioFiles
  {
  }

  /** With the columns the pipeline expects, a successful synthesis stores one audio record:
      the file path reported, 'blob' storage exactly when a non-empty blob URL came back, and
      the duration estimated from the response text. */
  lemma AudioStoredWhenColumnsMapped(t: Tables, feedbackId: string, env: Env)
    requires env.audioColumnsMapped && Pipeline(t, feedbackId, env).ok
    requires var fb := t.feedback[feedbackId];
             var data := env.analyze(fb.text).value.data.value;
             var reply := env.respond(fb.text, data).value.data.value;
             var audio := env.speak(reply.responseText, data.sentiment, data.confidenceScore, fb.id);
             audio.Returned? && audio.value.success && audio.value.data.Some?
             && env.audioRowId !in t.audioFiles && !HasAudioFor(t.audioFiles, fb.id)
             && !HasAudioPath(t.audioFiles, audio.value.data.value.filePath)
    ensures var fb := t.feedback[feedbackId];
            var data := env.analyze(fb.text).value.data.value;
            var reply := env.respond(fb.text, data).value.data.value;
            var audio := env.speak(reply.responseText, data.sentiment, data.confidenceScore, fb.id).value.data.value;
            var rows := Pipeline(t, feedbackId, env).tables.audioFiles;
            env.audioRowId in rows
            && rows[env.audioRowId].feedbackId == fb.id
            && rows[env.audioRowId].filePath == audio.filePath
            && (rows[env.audioRowId].storageType == "blob" <==> audio.blobUrl.Some? && audio.blobUrl.value != [])
            && rows[env.audioRowId].durationSeconds == Some(EstimateDuration(reply.responseText))
  {
    var fb := t.feedback[feedbackId];
    var s := SentimentStage(t, fb, env);
    SentimentStageStores(t, fb, env);
    var r := ResponseStage(s.tables, fb, s.value.value, env);
    ResponseStageStores(s.tables, fb, s.value.value, env);
    assert r.tables.audioFiles == t.audioFiles;
  }

  /** The run keeps the database within its unique constraints. */
  lemma PipelineKeepsOnePerFeedback(t: Tables, feedbackId: string, env: Env)
    requires OnePerFeedback(t)
    ensures OnePerFeedback(Pipeline(t, feedbackId, env).tables)
  {
    if !env.lookupRaises && feedbackId in t.feedback {
      var fb := t.feedback[feedbackId];
      var s := SentimentStage(t, fb, env);
      if s.value.Some? {
        SentimentStageStores(t, fb, env);
        InsertSentimentKeepsOne(t, SentimentRowFor(fb, s.value.value, env));
        var r := ResponseStage(s.tables, fb, s.value.value, env);
        if r.value.Some? {
          ResponseStageStores(s.tables, fb, s.value.value, env);
          InsertResponseKeepsOne(s.tables, ResponseRowFor(fb, r.value.value, env));
          AudioStageKeepsOne(r.tables, fb, s.value.value, r.value.value.responseText, env);
        } else {
          FailedStagesStoreNothing(s.tables, fb, s.value.value, env);
        }
      }
    }
  }

  lemma InsertSentimentKeepsOne(t: Tables, row: SentimentRow)
    requires OnePerFeedback(t) && InsertSentiment(t, row).Some?
    ensures OnePerFeedback(InsertSentiment(t, row).value)
  {
  }

  lemma InsertResponseKeepsOne(t: Tables, row: ResponseRow)
    requires OnePerFeedback(t) && InsertResponse(t, row).Some?
    ensures OnePerFeedback(InsertResponse(t, row).value)
  {
  }

  lemma AudioStageKeepsOne(t: Tables, fb: FeedbackRow, data: SentimentData, responseText: string, env: Env)
    requires OnePerFeedback(t)
    ensures OnePerFeedback(AudioStage(t, fb, data, responseText, env).tables)
  {
  }

  /** Processing the same feedback again after a success always fails: its sentiment record
      already exists. */
  lemma SecondRunFails(t: Tables, feedbackId: string, env: Env, env2: Env)
    requires Pipeline(t, feedbackId, env).ok
    ensures !Pipeline(Pipeline(t, feedbackId, env).tables, feedbackId, env2).ok
  {
    var fb := t.feedback[feedbackId];
    var s := SentimentStage(t, fb, env);
    SentimentStageStores(t, fb, env);
    var r := ResponseStage(s.tables, fb, s.value.value, env);
    ResponseStageStores(s.tables, fb, s.value.value, env);
    var t1 := Pipeline(t, feedbackId, env).tables;
    AudioStageFrame(r.tables, fb, s.value.value, r.value.value.responseText, env);
    assert t1.sentiments[env.sentimentRowId].feedbackId == fb.id;
    assert HasSentimentFor(t1.sentiments, fb.id);
    assert t1.feedback[feedbackId] == fb;
  }
}
