/**
  The four stored records (backend/app/models.py) and their `to_dict` dictionaries.
  Timestamps are kept as the text `isoformat()` gives them, or `None` when unset.
*/
module Models {
  import opened Wrappers
  import opened Json

  datatype FeedbackRow = FeedbackRow(id: string, text: string, category: Option<string>,
                                     createdAt: Option<string>, updatedAt: Option<string>)

  datatype SentimentRow = SentimentRow(id: string, feedbackId: string, sentiment: string,
                                       confidenceScore: Option<real>, processedAt: Option<string>)

  datatype ResponseRow = ResponseRow(id: string, feedbackId: string, responseText: string,
                                     modelUsed: Option<string>, generatedAt: Option<string>)

  /** An audio record. `blobUrl`, `fileSize` and `storageType` are what the pipeline tries to
      store; the declared `AudioFile` table has no such columns and does not show them. */
  datatype AudioRow = AudioRow(id: string, feedbackId: string, filePath: string, durationSeconds: Option<real>,
                               createdAt: Option<string>, blobUrl: Option<string>, fileSize: nat, storageType: string)

  function OptStr(o: Option<string>): (v: Value)
    ensures o.None? <==> v == Null
  {
    if o.Some? then Str(o.value) else Null
  }

  function OptReal(o: Option<real>): (v: Value)
    ensures o.None? <==> v == Null
  {
    if o.Some? then Float(o.value) else Null
  }

  /** `Feedback.to_dict`: exactly the five base keys. */
  function FeedbackDict(f: FeedbackRow): (d: map<string, Value>)
    ensures d.Keys == {"id", "text", "category", "created_at", "updated_at"}
    ensures d["id"] == Str(f.id) && d["text"] == Str(f.text)
    ensures d["created_at"] == Null <==> f.createdAt.None?
  {
    map["id" := Str(f.id), "text" := Str(f.text), "category" := OptStr(f.category),
        "created_at" := OptStr(f.createdAt), "updated_at" := OptStr(f.updatedAt)]
  }

  /** `SentimentAnalysis.to_dict`. */
  function SentimentDict(s: SentimentRow): (d: map<string, Value>)
    ensures d.Keys == {"id", "feedback_id", "sentiment", "confidence_score", "processed_at"}
    ensures d["feedback_id"] == Str(s.feedbackId) && d["sentiment"] == Str(s.sentiment)
  {
    map["id" := Str(s.id), "feedback_id" := Str(s.feedbackId), "sentiment" := Str(s.sentiment),
        "confidence_score" := OptReal(s.confidenceScore), "processed_at" := OptStr(s.processedAt)]
  }

  /** `AIResponse.to_dict`. */
  function ResponseDict(r: ResponseRow): (d: map<string, Value>)
    ensures d.Keys == {"id", "feedback_id", "response_text", "model_used", "generated_at"}
    ensures d["feedback_id"] == Str(r.feedbackId) && d["response_text"] == Str(r.responseText)
  {
    map["id" := Str(r.id), "feedback_id" := Str(r.feedbackId), "response_text" := Str(r.responseText),
        "model_used" := OptStr(r.modelUsed), "generated_at" := OptStr(r.generatedAt)]
  }

  /** `AudioFile.to_dict`: the declared columns only. */
  function AudioDict(a: AudioRow): (d: map<string, Value>)
    ensures d.Keys == {"id", "feedback_id", "file_path", "duration_seconds", "created_at"}
    ensures d["feedback_id"] == Str(a.feedbackId) && d["file_path"] == Str(a.filePath)
  {
    map["id" := Str(a.id), "feedback_id" := Str(a.feedbackId), "file_path" := Str(a.filePath),
        "duration_seconds" := OptReal(a.durationSeconds), "created_at" := OptStr(a.createdAt)]
  }
}
