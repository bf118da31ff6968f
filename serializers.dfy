/**
  `serialize_feedback` (backend/app/serializers.py): the feedback's own dictionary plus one
  section per related record that exists. The related records are passed in as the
  `sentiment_analysis`, `ai_response` and `audio_file` relationships would load them.
*/
module Serializers {
  import opened Wrappers
  import opened Json
  import opened Models

  const AudioRoute := "/api/v1/audio/"

  const BaseKeys: set<string> := {"id", "text", "category", "created_at", "updated_at"}
  const SectionKeys: set<string> := {"sentiment_analysis", "ai_response", "audio_file", "audio_url"}

  /** `serialize_feedback`: start from `Feedback.to_dict()` and add each section whose record
      exists, in the order the source adds them. */
  function SerializeFeedback(f: FeedbackRow, sentiment: Option<SentimentRow>, response: Option<ResponseRow>,
                             audio: Option<AudioRow>): (d: map<string, Value>)
    ensures BaseKeys <= d.Keys
  {
    var d0 := FeedbackDict(f);
    var d1 := if sentiment.Some? then d0["sentiment_analysis" := Object(SentimentDict(sentiment.value))] else d0;
    var d2 := if response.Some? then d1["ai_response" := Object(ResponseDict(response.value))] else d1;
    if audio.Some? then d2["audio_file" := Object(AudioDict(audio.value))]["audio_url" := Str(AudioRoute + audio.value.id)]
    else d2
  }

  /** The section keys are not base keys, so adding a section never overwrites a base key. */
  lemma SectionKeysAreNew()
    ensures "sentiment_analysis" !in BaseKeys && "ai_response" !in BaseKeys
    ensures "audio_file" !in BaseKeys && "audio_url" !in BaseKeys
  {
    assert "audio_file"[0] == 'a';
  }

  /** No key beyond the five base keys and the four section keys is ever added. */
  lemma SerializeFeedbackKeys(f: FeedbackRow, sentiment: Option<SentimentRow>, response: Option<ResponseRow>,
                              audio: Option<AudioRow>)
    ensures SerializeFeedback(f, sentiment, response, audio).Keys <= BaseKeys + SectionKeys
  {
  }

  /** The base keys keep the values `Feedback.to_dict()` gives them: no section overwrites one. */
  lemma SerializeFeedbackBase(f: FeedbackRow, sentiment: Option<SentimentRow>, response: Option<ResponseRow>,
                              audio: Option<AudioRow>)
    ensures forall k :: k in BaseKeys ==> SerializeFeedback(f, sentiment, response, audio)[k] == FeedbackDict(f)[k]
  {
    SectionKeysAreNew();
    forall k | k in BaseKeys
      ensures SerializeFeedback(f, sentiment, response, audio)[k] == FeedbackDict(f)[k]
    {
      assert k != "sentiment_analysis" && k != "ai_response" && k != "audio_file" && k != "audio_url";
    }
  }

  /** Each section is present exactly when its record is, and holds that record's dictionary;
      the audio URL names the audio record's id. */
  lemma SerializeFeedbackSections(f: FeedbackRow, sentiment: Option<SentimentRow>, response: Option<ResponseRow>,
                                  audio: Option<AudioRow>)
    ensures var d := SerializeFeedback(f, sentiment, response, audio);
            ("sentiment_analysis" in d <==> sentiment.Some?)
            && ("ai_response" in d <==> response.Some?)
            && ("audio_file" in d <==> audio.Some?)
            && ("audio_url" in d <==> audio.Some?)
            && (sentiment.Some? ==> d["sentiment_analysis"] == Object(SentimentDict(sentiment.value)))
            && (response.Some? ==> d["ai_response"] == Object(ResponseDict(response.value)))
            && (audio.Some? ==> d["audio_file"] == Object(AudioDict(audio.value))
                                && d["audio_url"] == Str(AudioRoute + audio.value.id))
  {
    SectionKeysAreNew();
    var d0 := FeedbackDict(f);
    assert "sentiment_analysis" !in d0 && "ai_response" !in d0 && "audio_file" !in d0 && "audio_url" !in d0;
    var d1 := if sentiment.Some? then d0["sentiment_analysis" := Object(SentimentDict(sentiment.value))] else d0;
    assert "ai_response" !in d1 && "audio_file" !in d1 && "audio_url" !in d1;
    var d2 := if response.Some? then d1["ai_response" := Object(ResponseDict(response.value))] else d1;
    assert "audio_file" !in d2 && "audio_url" !in d2;
    assert ("sentiment_analysis" in d2 <==> sentiment.Some?) && ("ai_response" in d2 <==> response.Some?);
  }

  /** A feedback with no related records serialises to its own dictionary. */
  lemma SerializeBareFeedback(f: FeedbackRow)
    ensures SerializeFeedback(f, None, None, None) == FeedbackDict(f)
  {
  }
}
