/**
  The sentiment step (backend/app/services/text_analytics.py): the keyword fallback
  classifier, the reshaping of the vendor's document into the `sentiment_data` dictionary,
  and the control flow of `analyze_sentiment_with_opinions`, which answers from the fallback
  whenever the vendor cannot.
*/
module TextAnalytics {
  import opened Wrappers
  import opened Text
  import opened ServiceBase

  const PositiveWords: seq<string> := ["good", "great", "excellent", "amazing", "love", "perfect", "wonderful"]
  const NegativeWords: seq<string> := ["bad", "terrible", "awful", "hate", "horrible", "worst", "disappointing"]

  /** A three-way confidence split. */
  datatype Scores = Scores(positive: real, neutral: real, negative: real)

  /** `getattr(scores, label, 0.0)`: the score of a known label, 0.0 for any other
      (the vendor's 'mixed' label included). */
  function ScoreOf(scores: Scores, name: string): real {
    if name == "positive" then scores.positive
    else if name == "neutral" then scores.neutral
    else if name == "negative" then scores.negative
    else 0.0
  }

  /** One `{'text', 'sentiment', 'confidence_score'}` entry: a sentence, an opinion target
      or an assessment. */
  datatype Span = Span(text: string, sentiment: string, confidenceScore: real)

  datatype OpinionData = OpinionData(target: Span, assessments: seq<Span>)

  /** The `sentiment_data` dictionary. */
  datatype SentimentData = SentimentData(sentiment: string, confidenceScore: real, confidenceScores: Scores,
                                         keyPhrases: seq<string>, opinions: seq<OpinionData>, sentences: seq<Span>)

  /** The parts of the vendor's analysis result that are read. */
  datatype VendorSpan = VendorSpan(text: string, sentiment: string, scores: Scores)
  datatype VendorOpinion = VendorOpinion(target: VendorSpan, assessments: seq<VendorSpan>)
  /** `minedOpinions` is `None` when the sentence object has no `mined_opinions` attribute. */
  datatype VendorSentence = VendorSentence(span: VendorSpan, minedOpinions: Option<seq<VendorOpinion>>)
  datatype VendorDocument = VendorDocument(sentiment: string, scores: Scores, sentences: seq<VendorSentence>)

  /** The number of `words` that occur in `s`. */
  function CountMatches(words: seq<string>, s: string): (n: nat)
    ensures n <= |words|
  {
    if words == [] then 0
    else CountMatches(words[..|words| - 1], s) + (if Contains(s, words[|words| - 1]) then 1 else 0)
  }

  /** The count is zero exactly when none of the words occurs. */
  lemma {:induction false} CountMatchesZero(words: seq<string>, s: string)
    ensures CountMatches(words, s) == 0 <==> forall i :: 0 <= i < |words| ==> !Contains(s, words[i])
  {
    if words != [] {
      var init := words[..|words| - 1];
      CountMatchesZero(init, s);
      assert forall i :: 0 <= i < |init| ==> init[i] == words[i];
    }
  }

  /** The count is the number of words exactly when every word occurs. */
  lemma {:induction false} CountMatchesAll(words: seq<string>, s: string)
    ensures CountMatches(words, s) == |words| <==> forall i :: 0 <= i < |words| ==> Contains(s, words[i])
  {
    if words != [] {
      var init := words[..|words| - 1];
      CountMatchesAll(init, s);
      assert forall i :: 0 <= i < |init| ==> init[i] == words[i];
    }
  }

  /** `_get_fallback_sentiment`: compare how many positive and how many negative keywords occur
      in the lower-cased text; the winner gets 0.8, a tie is neutral at 0.6, and the two
      labels not chosen get 0.3 each. Always a success from the "fallback" service, with one
      sentence holding the whole text. */
  function FallbackSentiment(text: string): (r: ServiceResponse<SentimentData>)
    ensures r.success && r.data.Some? && r.error.None? && r.serviceUsed == Some("fallback")
    ensures var d := r.data.value;
            var pos := CountMatches(PositiveWords, Lower(text));
            var neg := CountMatches(NegativeWords, Lower(text));
            (d.sentiment == "positive" <==> pos > neg)
            && (d.sentiment == "negative" <==> neg > pos)
            && (d.sentiment == "neutral" <==> pos == neg)
            && d.confidenceScore == (if pos == neg then 0.6 else 0.8)
    ensures var d := r.data.value;
            ScoreOf(d.confidenceScores, d.sentiment) == d.confidenceScore
            && (forall l :: l in ["positive", "neutral", "negative"] && l != d.sentiment ==> ScoreOf(d.confidenceScores, l) == 0.3)
    ensures var d := r.data.value;
            d.keyPhrases == [] && d.opinions == [] && d.sentences == [Span(text, d.sentiment, d.confidenceScore)]
  {
    var lower := Lower(text);
    var pos := CountMatches(PositiveWords, lower);
    var neg := CountMatches(NegativeWords, lower);
    var (sentiment, confidence) :=
      if pos > neg then ("positive", 0.8)
      else if neg > pos then ("negative", 0.8)
      else ("neutral", 0.6);
    var scores := Scores(if sentiment == "positive" then confidence else 0.3,
                         if sentiment == "neutral" then confidence else 0.3,
                         if sentiment == "negative" then confidence else 0.3);
    var data := SentimentData(sentiment, confidence, scores, [], [], [Span(text, sentiment, confidence)]);
    ServiceResponse(true, Some(data), None, Some("fallback"))
  }

  /** A text with some positive keyword and no negative one is classified positive. */
  lemma FallbackPositiveKeyword(text: string, i: nat)
    requires i < |PositiveWords| && Contains(Lower(text), PositiveWords[i])
    requires forall j :: 0 <= j < |NegativeWords| ==> !Contains(Lower(text), NegativeWords[j])
    ensures FallbackSentiment(text).data.value.sentiment == "positive"
    ensures FallbackSentiment(text).data.value.confidenceScore == 0.8
  {
    CountMatchesZero(PositiveWords, Lower(text));
    CountMatchesZero(NegativeWords, Lower(text));
  }

  /** A text without any keyword is neutral at 0.6. */
  lemma FallbackNoKeyword(text: string)
    requires forall j :: 0 <= j < |PositiveWords| ==> !Contains(Lower(text), PositiveWords[j])
    requires forall j :: 0 <= j < |NegativeWords| ==> !Contains(Lower(text), NegativeWords[j])
    ensures FallbackSentiment(text).data.value.sentiment == "neutral"
    ensures FallbackSentiment(text).data.value.confidenceScore == 0.6
  {
    CountMatchesZero(PositiveWords, Lower(text));
    CountMatchesZero(NegativeWords, Lower(text));
  }

  /** The fallback ignores letter case: lower-casing the text first gives the same label. */
  lemma FallbackIgnoresCase(text: string)
    ensures FallbackSentiment(Lower(text)).data.value.sentiment == FallbackSentiment(text).data.value.sentiment
  {
    LowerIdempotent(text);
  }

  /** One vendor span as a `{'text', 'sentiment', 'confidence_score'}` entry. */
  function SpanOf(v: VendorSpan): Span {
    Span(v.text, v.sentiment, ScoreOf(v.scores, v.sentiment))
  }

  function SpansOf(vs: seq<VendorSpan>): (r: seq<Span>)
    ensures |r| == |vs|
  {
    if vs == [] then [] else SpansOf(vs[..|vs| - 1]) + [SpanOf(vs[|vs| - 1])]
  }

  /** Each entry is the matching vendor span, with the score of its own label. */
  lemma {:induction false} SpansOfAt(vs: seq<VendorSpan>, k: nat)
    requires k < |vs|
    ensures SpansOf(vs)[k] == SpanOf(vs[k])
    ensures SpansOf(vs)[k].confidenceScore == ScoreOf(vs[k].scores, vs[k].sentiment)
  {
    if k < |vs| - 1 {
      SpansOfAt(vs[..|vs| - 1], k);
    }
  }

  function OpinionOf(o: VendorOpinion): OpinionData {
    OpinionData(SpanOf(o.target), SpansOf(o.assessments))
  }

  function OpinionList(os: seq<VendorOpinion>): (r: seq<OpinionData>)
    ensures |r| == |os|
  {
    if os == [] then [] else OpinionList(os[..|os| - 1]) + [OpinionOf(os[|os| - 1])]
  }

  /** The opinions one sentence contributes: none when it has no `mined_opinions`. */
  function MinedOf(s: VendorSentence): seq<OpinionData> {
    if s.minedOpinions.None? then [] else OpinionList(s.minedOpinions.value)
  }

  /** The number of mined opinions over a run of sentences. */
  function MinedCount(ss: seq<VendorSentence>): nat {
    if ss == [] then 0
    else MinedCount(ss[..|ss| - 1]) + (if ss[|ss| - 1].minedOpinions.None? then 0 else |ss[|ss| - 1].minedOpinions.value|)
  }

  /** The opinions of all sentences, sentence by sentence, in order. */
  function OpinionsOf(ss: seq<VendorSentence>): seq<OpinionData> {
    if ss == [] then [] else OpinionsOf(ss[..|ss| - 1]) + MinedOf(ss[|ss| - 1])
  }

  /** Every mined opinion of every sentence becomes exactly one entry. */
  lemma {:induction false} OpinionsOfCount(ss: seq<VendorSentence>)
    ensures |OpinionsOf(ss)| == MinedCount(ss)
  {
    if ss != [] {
      OpinionsOfCount(ss[..|ss| - 1]);
    }
  }

  function SentencesOf(ss: seq<VendorSentence>): (r: seq<Span>)
    ensures |r| == |ss|
  {
    if ss == [] then [] else SentencesOf(ss[..|ss| - 1]) + [SpanOf(ss[|ss| - 1].span)]
  }

  lemma {:induction false} SentencesOfAt(ss: seq<VendorSentence>, k: nat)
    requires k < |ss|
    ensures SentencesOf(ss)[k] == SpanOf(ss[k].span)
  {
    if k < |ss| - 1 {
      SentencesOfAt(ss[..|ss| - 1], k);
    }
  }

  function Min(a: int, b: int): int {
    if a <= b then a else b
  }

  /** One opinion's assessments, appended one by one. */
  method BuildAssessments(assessments: seq<VendorSpan>) returns (r: seq<Span>)
    ensures r == SpansOf(assessments)
  {
    r := [];
    var k := 0;
    while k < |assessments|
      invariant 0 <= k <= |assessments|
      invariant r == SpansOf(assessments[..k])
    {
      assert assessments[..k + 1][..k] == assessments[..k];
      r := r + [SpanOf(assessments[k])];
      k := k + 1;
    }
    assert assessments[..k] == assessments;
  }

  /** One sentence's mined opinions, each with its target and its assessments, appended one
      by one. */
  method BuildOpinions(mined: seq<VendorOpinion>) returns (r: seq<OpinionData>)
    ensures r == OpinionList(mined)
  {
    r := [];
    var j := 0;
    while j < |mined|
      invariant 0 <= j <= |mined|
      invariant r == OpinionList(mined[..j])
    {
      assert mined[..j + 1][..j] == mined[..j];
      var assessments := BuildAssessments(mined[j].assessments);
      r := r + [OpinionData(SpanOf(mined[j].target), assessments)];
      j := j + 1;
    }
    assert mined[..j] == mined;
  }

  /** `_build_sentiment_data`: the document's label and the score of that label, the three
      scores, the first ten key phrases, one entry per sentence and one per mined opinion,
      in the order the vendor gives them. */
  method BuildSentimentData(doc: VendorDocument, keyPhrases: seq<string>) returns (d: SentimentData)
    ensures d.sentiment == doc.sentiment && d.confidenceScores == doc.scores
    ensures d.confidenceScore == ScoreOf(d.confidenceScores, d.sentiment)
    ensures d.keyPhrases == keyPhrases[..Min(10, |keyPhrases|)]
    ensures d.sentences == SentencesOf(doc.sentences)
    ensures d.opinions == OpinionsOf(doc.sentences)
  {
    var sentences: seq<Span> := [];
    var opinions: seq<OpinionData> := [];
    var i := 0;
    while i < |doc.sentences|
      invariant 0 <= i <= |doc.sentences|
      invariant sentences == SentencesOf(doc.sentences[..i])
      invariant opinions == OpinionsOf(doc.sentences[..i])
    {
      var sentence := doc.sentences[i];
      assert doc.sentences[..i + 1][..i] == doc.sentences[..i];
      sentences := sentences + [SpanOf(sentence.span)];
      if sentence.minedOpinions.Some? {
        var mined := BuildOpinions(sentence.minedOpinions.value);
        opinions := opinions + mined;
      }
      i := i + 1;
    }
    assert doc.sentences[..i] == doc.sentences;
    d := SentimentData(doc.sentiment, ScoreOf(doc.scores, doc.sentiment), doc.scores,
                       keyPhrases[..Min(10, |keyPhrases|)], opinions, sentences);
  }

  /** `analyze_sentiment_with_opinions`. `sentimentCall` is the vendor's sentiment request:
      it raises, answers with an error document (`None`), or answers with a document.
      `keyPhraseCall` is the key-phrase request, made only after a good document: an error
      answer means no key phrases, and raising means the fallback. An unavailable service,
      an error document or any exception gives the fallback, so the call never fails. */
  method AnalyzeSentiment(available: bool, sentimentCall: Outcome<Option<VendorDocument>, string>,
                          keyPhraseCall: Outcome<Option<seq<string>>, string>, text: string)
    returns (r: ServiceResponse<SentimentData>)
    ensures r.success && r.data.Some?
    ensures ScoreOf(r.data.value.confidenceScores, r.data.value.sentiment) == r.data.value.confidenceScore
    ensures r.serviceUsed == Some("azure_text_analytics") <==>
              available && sentimentCall.Returned? && sentimentCall.value.Some? && keyPhraseCall.Returned?
    ensures r.serviceUsed != Some("azure_text_analytics") ==> r == FallbackSentiment(text)
    ensures r.serviceUsed == Some("azure_text_analytics") ==>
              var doc := sentimentCall.value.value;
              var phrases := if keyPhraseCall.value.Some? then keyPhraseCall.value.value else [];
              r.data.value.sentiment == doc.sentiment
              && r.data.value.confidenceScores == doc.scores
              && r.data.value.confidenceScore == ScoreOf(doc.scores, doc.sentiment)
              && r.data.value.keyPhrases == phrases[..Min(10, |phrases|)]
              && |r.data.value.keyPhrases| <= 10
              && r.data.value.sentences == SentencesOf(doc.sentences)
              && r.data.value.opinions == OpinionsOf(doc.sentences)
  {
    if !available {
      return FallbackSentiment(text);
    }
    match sentimentCall
    case Raised(_) =>
      r := FallbackSentiment(text);
    case Returned(result) =>
      if result.None? {
        r := FallbackSentiment(text);
      } else {
        match keyPhraseCall
        case Raised(_) =>
          r := FallbackSentiment(text);
        case Returned(phrases) =>
          var keyPhrases := if phrases.Some? then phrases.value else [];
          var data := BuildSentimentData(result.value, keyPhrases);
          r := ServiceResponse(true, Some(data), None, Some("azure_text_analytics"));
      }
  }
}
