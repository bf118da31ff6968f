/**
  The response step (backend/app/services/openai_service.py): the canned fallback replies,
  the analysis context handed to the chat model, the prompt around it, and the control flow
  of `generate_contextual_response`, which answers from the fallback whenever the chat model
  cannot.
*/
module OpenAI {
  import opened Wrappers
  import opened Text
  import opened ServiceBase
  import opened TextAnalytics

  const PositiveReply := "Thank you so much for your wonderful feedback! We're thrilled to hear about your positive experience and truly appreciate you taking the time to share it with us."
  const NegativeReply := "We sincerely appreciate you bringing this to our attention and apologize for any inconvenience you've experienced. Your feedback is invaluable in helping us improve our service."
  const MixedReply := "Thank you for your detailed feedback. We appreciate both the positive aspects you've highlighted and the areas for improvement you've identified. This balanced perspective helps us understand how to better serve our customers."
  const NeutralReply := "Thank you for your feedback. We appreciate you taking the time to share your thoughts with us, and we'll use this information to continue improving our service."

  /** The `responses` table of `_get_fallback_response`. */
  const Replies: map<string, string> :=
    map["positive" := PositiveReply, "negative" := NegativeReply, "mixed" := MixedReply, "neutral" := NeutralReply]

  /** `responses.get(sentiment, responses['neutral'])`. */
  function FallbackText(sentiment: string): (text: string)
    ensures sentiment in Replies ==> text == Replies[sentiment]
    ensures sentiment !in Replies ==> text == NeutralReply
  {
    if sentiment in Replies then Replies[sentiment] else Replies["neutral"]
  }

  /** The four canned replies are different, so the reply tells which label it answers. */
  lemma FallbackTextIdentifiesLabel(a: string, b: string)
    requires a in Replies && b in Replies
    requires FallbackText(a) == FallbackText(b)
    ensures a == b
  {
    assert |PositiveReply| == 162 && |NegativeReply| == 177;
    assert |MixedReply| == 226 && |NeutralReply| == 160;
  }

  /** The `response_data` dictionary. */
  datatype ResponseData = ResponseData(responseText: string, modelUsed: string, tokensUsed: nat,
                                       sentimentAddressed: string, keyPhrasesUsed: seq<string>)

  /** `_get_fallback_response`: always a success from the "fallback" model, using no tokens
      and no key phrases. */
  function FallbackResponse(sentiment: string): (r: ServiceResponse<ResponseData>)
    ensures r.success && r.data.Some? && r.error.None? && r.serviceUsed == Some("fallback")
    ensures r.data.value.responseText == FallbackText(sentiment)
    ensures r.data.value.modelUsed == "fallback" && r.data.value.tokensUsed == 0
    ensures r.data.value.sentimentAddressed == sentiment && r.data.value.keyPhrasesUsed == []
  {
    ServiceResponse(true, Some(ResponseData(FallbackText(sentiment), "fallback", 0, sentiment, [])), None, Some("fallback"))
  }

  function OverallLine(sentiment: string, confidenceText: string): string {
    "- Overall Sentiment: " + sentiment + " (confidence: " + confidenceText + ")"
  }

  function KeyTopicsLine(keyPhrases: seq<string>): string {
    "- Key Topics: " + Join(keyPhrases[..Min(5, |keyPhrases|)], ", ")
  }

  function TextsOf(spans: seq<Span>): (r: seq<string>)
    ensures |r| == |spans|
  {
    seq(|spans|, k requires 0 <= k < |spans| => spans[k].text)
  }

  /** One `target: assessment, assessment` entry, from at most the first two assessments. */
  function AspectSummary(o: OpinionData): string {
    o.target.text + ": " + Join(TextsOf(o.assessments[..Min(2, |o.assessments|)]), ", ")
  }

  function Summaries(opinions: seq<OpinionData>): (r: seq<string>)
    ensures |r| == |opinions|
  {
    if opinions == [] then [] else Summaries(opinions[..|opinions| - 1]) + [AspectSummary(opinions[|opinions| - 1])]
  }

  function AspectsLine(summaries: seq<string>): string {
    "- Specific Aspects: " + Join(summaries, "; ")
  }

  /** The lines of the context: the overall line, then a key-topics line when there are key
      phrases, then an aspects line, built from at most the first three opinions, when there
      are opinions. */
  function ContextLines(sentiment: string, confidenceText: string, keyPhrases: seq<string>,
                        opinions: seq<OpinionData>): seq<string>
  {
    [OverallLine(sentiment, confidenceText)]
    + (if keyPhrases != [] then [KeyTopicsLine(keyPhrases)] else [])
    + (if opinions != [] then [AspectsLine(Summaries(opinions[..Min(3, |opinions|)]))] else [])
  }

  /** `_build_response_context`. `confidenceText` is the confidence printed with two decimals. */
  method BuildResponseContext(sentiment: string, confidenceText: string, keyPhrases: seq<string>,
                              opinions: seq<OpinionData>) returns (context: string)
    ensures context == Join(ContextLines(sentiment, confidenceText, keyPhrases, opinions), "\n")
  {
    var parts := [OverallLine(sentiment, confidenceText)];
    if keyPhrases != [] {
      parts := parts + [KeyTopicsLine(keyPhrases)];
    }
    assert parts == [OverallLine(sentiment, confidenceText)]
                    + (if keyPhrases != [] then [KeyTopicsLine(keyPhrases)] else []);
    if opinions != [] {
      var top := opinions[..Min(3, |opinions|)];
      var summary: seq<string> := [];
      var i := 0;
      while i < |top|
        invariant 0 <= i <= |top|
        invariant summary == Summaries(top[..i])
      {
        assert top[..i + 1][..i] == top[..i];
        summary := summary + [AspectSummary(top[i])];
        i := i + 1;
      }
      assert top[..i] == top;
      parts := parts + [AspectsLine(summary)];
    }
    assert parts == ContextLines(sentiment, confidenceText, keyPhrases, opinions);
    context := Join(parts, "\n");
  }

  /** The context has one to three lines, the overall line first; the key-topics line is
      there exactly when there are key phrases and the aspects line exactly when there are
      opinions. */
  lemma ContextShape(sentiment: string, confidenceText: string, keyPhrases: seq<string>, opinions: seq<OpinionData>)
    ensures var lines := ContextLines(sentiment, confidenceText, keyPhrases, opinions);
            1 <= |lines| <= 3
            && lines[0] == OverallLine(sentiment, confidenceText)
            && (KeyTopicsLine(keyPhrases) in lines <==> keyPhrases != [])
            && (opinions != [] <==> lines[|lines| - 1] == AspectsLine(Summaries(opinions[..Min(3, |opinions|)])))
  {
    var lines := ContextLines(sentiment, confidenceText, keyPhrases, opinions);
    var k := KeyTopicsLine(keyPhrases);
    assert OverallLine(sentiment, confidenceText)[2] != k[2];
    if opinions != [] {
      var a := AspectsLine(Summaries(opinions[..Min(3, |opinions|)]));
      assert k[2] != a[2];
    } else {
      var a := AspectsLine(Summaries(opinions[..Min(3, |opinions|)]));
      assert lines[|lines| - 1][2] != a[2];
    }
  }

  /** The key-topics line lists at most five phrases, the first ones given. */
  lemma KeyTopicsAtMostFive(keyPhrases: seq<string>)
    ensures var shown := keyPhrases[..Min(5, |keyPhrases|)];
            |shown| <= 5 && KeyTopicsLine(keyPhrases) == "- Key Topics: " + Join(shown, ", ")
            && (|keyPhrases| <= 5 ==> shown == keyPhrases)
  {
  }

  /** Each aspect summary names its target and at most two assessments, and at most three
      opinions are summarised, in their original order. */
  lemma {:induction false} SummariesAt(opinions: seq<OpinionData>, k: nat)
    requires k < |opinions|
    ensures Summaries(opinions)[k] == opinions[k].target.text + ": "
              + Join(TextsOf(opinions[k].assessments[..Min(2, |opinions[k].assessments|)]), ", ")
  {
    if k < |opinions| - 1 {
      SummariesAt(opinions[..|opinions| - 1], k);
    }
  }

  /** The context starts with the overall line, and when no input holds a line break,
      splitting the context at line breaks gives back exactly its lines. */
  lemma ContextReadsBack(sentiment: string, confidenceText: string, keyPhrases: seq<string>,
                         opinions: seq<OpinionData>)
    requires forall k :: 0 <= k < |ContextLines(sentiment, confidenceText, keyPhrases, opinions)|
               ==> '\n' !in ContextLines(sentiment, confidenceText, keyPhrases, opinions)[k]
    ensures var lines := ContextLines(sentiment, confidenceText, keyPhrases, opinions);
            var context := Join(lines, "\n");
            SplitOn(context, '\n') == lines
            && |SplitOn(context, '\n')| <= 3
            && context[..|OverallLine(sentiment, confidenceText)|] == OverallLine(sentiment, confidenceText)
  {
    var lines := ContextLines(sentiment, confidenceText, keyPhrases, opinions);
    SplitJoin(lines, '\n');
    JoinStartsWithFirst(lines, "\n");
  }

  const Indent := "        "

  /** The text of `_create_prompt` before the feedback, between feedback and context, and after
      the context. */
  const PromptHead := "\n" + Indent + "Generate a professional, empathetic customer service response to this feedback.\n"
                      + Indent + "\n" + Indent + "Customer Feedback: \""
  const PromptMiddle := "\"\n" + Indent + "\n" + Indent + "Analysis Context:\n" + Indent
  const PromptTail := "\n" + Indent + "\n" + Indent + "Response Requirements:\n"
                      + Indent + "1. Be genuine and empathetic\n"
                      + Indent + "2. Address the specific sentiment and key points mentioned\n"
                      + Indent + "3. Use appropriate tone for the sentiment level\n"
                      + Indent + "4. Keep response concise but meaningful (2-3 sentences)\n"
                      + Indent + "5. If specific aspects were mentioned, acknowledge them\n"
                      + Indent + "6. Provide appropriate next steps or appreciation\n"
                      + Indent + "\n" + Indent + "Generate only the response text, no additional formatting.\n"
                      + Indent

  /** `_create_prompt`: the fixed instructions around the quoted feedback and the context. */
  function Prompt(feedbackText: string, context: string): string {
    PromptHead + feedbackText + PromptMiddle + context + PromptTail
  }

  /** The prompt quotes the feedback right after the fixed head and carries the context right
      after the fixed middle, whatever the two hold. */
  lemma PromptEmbeds(feedbackText: string, context: string)
    ensures var p := Prompt(feedbackText, context);
            var i := |PromptHead| + |feedbackText| + |PromptMiddle|;
            OccursAt(p, feedbackText, |PromptHead|) && OccursAt(p, context, i)
            && |p| == i + |context| + |PromptTail|
  {
    var p := Prompt(feedbackText, context);
    assert p[|PromptHead|..|PromptHead| + |feedbackText|] == feedbackText;
    var i := |PromptHead| + |feedbackText| + |PromptMiddle|;
    assert p[i..i + |context|] == context;
  }

  /** What the chat completion returns: the first choice's message content and the usage's
      total token count, either of which can be missing. */
  datatype ChatReply = ChatReply(content: Option<string>, totalTokens: Option<nat>)

  /** A reply the service can use: the call returned, with message content and a token count. */
  predicate Usable(reply: Outcome<ChatReply, string>) {
    reply.Returned? && reply.value.content.Some? && reply.value.totalTokens.Some?
  }

  /** The prompt `generate_contextual_response` sends for the feedback and its analysis. */
  function ChatPrompt(feedbackText: string, data: SentimentData, fmt: real -> string): string {
    Prompt(feedbackText, Join(ContextLines(data.sentiment, fmt(data.confidenceScore), data.keyPhrases, data.opinions), "\n"))
  }

  /** The `try` block once the chat call is made: a usable reply becomes an "openai" answer
      with the stripped content, the token count and the first three key phrases; a raised
      call or a reply without content or usage becomes the fallback. */
  function ReplyResponse(model: string, reply: Outcome<ChatReply, string>, data: SentimentData)
    : (r: ServiceResponse<ResponseData>)
    ensures r.success && r.data.Some? && r.error.None?
    ensures r.serviceUsed == Some("openai") <==> Usable(reply)
    ensures Usable(reply) ==> r.data.value.responseText == Strip(reply.value.content.value)
                              && r.data.value.modelUsed == model
                              && r.data.value.tokensUsed == reply.value.totalTokens.value
                              && r.data.value.keyPhrasesUsed == data.keyPhrases[..Min(3, |data.keyPhrases|)]
    ensures !Usable(reply) ==> r == FallbackResponse(data.sentiment)
    ensures r.data.value.sentimentAddressed == data.sentiment
    ensures |r.data.value.keyPhrasesUsed| <= 3
  {
    if Usable(reply) then
      ServiceResponse(true, Some(ResponseData(Strip(reply.value.content.value), model, reply.value.totalTokens.value,
                                              data.sentiment, data.keyPhrases[..Min(3, |data.keyPhrases|)])),
                      None, Some("openai"))
    else
      FallbackResponse(data.sentiment)
  }

  /** `generate_contextual_response`. `chat` is the chat completion for a prompt; `fmt`
      prints a confidence with two decimals. An unavailable client gives the fallback for the
      label; otherwise the answer is what the reply to the prompt makes of it, so the call
      never fails. */
  method GenerateContextualResponse(available: bool, model: string, chat: string -> Outcome<ChatReply, string>,
                                    fmt: real -> string, feedbackText: string, data: SentimentData)
    returns (r: ServiceResponse<ResponseData>)
    ensures !available ==> r == FallbackResponse(data.sentiment)
    ensures available ==> r == ReplyResponse(model, chat(ChatPrompt(feedbackText, data, fmt)), data)
  {
    if !available {
      return FallbackResponse(data.sentiment);
    }
    var context := BuildResponseContext(data.sentiment, fmt(data.confidenceScore), data.keyPhrases, data.opinions);
    var prompt := Prompt(feedbackText, context);
    assert prompt == ChatPrompt(feedbackText, data, fmt);
    r := ReplyResponse(model, chat(prompt), data);
  }
}
