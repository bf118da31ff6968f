/**
  The emotion-aware speech step (backend/app/services/speech_service.py): voice, style,
  style degree and prosody chosen from a sentiment label and its confidence, the SSML text
  escape, the duration estimate, and the control flow of `generate_emotion_aware_audio`
  with the synthesiser as an outcome.
*/
module Speech {
  import opened Wrappers
  import opened Text
  import opened ServiceBase

  const Jenny := "en-US-JennyNeural"
  const Aria := "en-US-AriaNeural"

  /** The styles the comment at speech_service.py:138 lists for JennyNeural. */
  const JennyStyles: seq<string> := ["cheerful", "excited", "friendly", "hopeful"]

  /** `_get_voice_for_sentiment`: Jenny for 'positive', Aria for every other label; the
      confidence plays no part. */
  function VoiceFor(sentiment: string, confidence: real): (voice: string)
    ensures voice == Jenny <==> sentiment == "positive"
    ensures voice == Jenny || voice == Aria
  {
    var voices := map["positive" := Jenny, "negative" := Aria, "neutral" := Aria];
    if sentiment in voices then voices[sentiment] else voices["neutral"]
  }

  /** `_get_emotion_style`: three strict confidence bands per label; every label other than
      'positive' and 'negative' takes the neutral bands. */
  function EmotionStyle(sentiment: string, confidence: real): (style: string)
    ensures sentiment == "positive" ==>
              (style == "excited" <==> confidence > 0.8)
              && (style == "cheerful" <==> 0.6 < confidence <= 0.8)
              && (style == "friendly" <==> confidence <= 0.6)
    ensures sentiment == "negative" ==>
              (style == "sad" <==> confidence > 0.8)
              && (style == "empathetic" <==> 0.6 < confidence <= 0.8)
              && (style == "calm" <==> confidence <= 0.6)
    ensures sentiment != "positive" && sentiment != "negative" ==>
              (style == "narration-professional" <==> confidence > 0.7)
              && (style == "assistant" <==> 0.5 < confidence <= 0.7)
              && (style == "chat" <==> confidence <= 0.5)
  {
    if sentiment == "positive" then
      if confidence > 0.8 then "excited" else if confidence > 0.6 then "cheerful" else "friendly"
    else if sentiment == "negative" then
      if confidence > 0.8 then "sad" else if confidence > 0.6 then "empathetic" else "calm"
    else
      if confidence > 0.7 then "narration-professional" else if confidence > 0.5 then "assistant" else "chat"
  }

  /** Position of a style within its label's bands: 0 for the lowest band, 2 for the highest. */
  function StyleBand(style: string): nat {
    if style in {"excited", "sad", "narration-professional"} then 2
    else if style in {"cheerful", "empathetic", "assistant"} then 1
    else 0
  }

  /** For a fixed label, a higher confidence never selects a lower band. */
  lemma EmotionStyleMonotone(sentiment: string, c1: real, c2: real)
    requires c1 <= c2
    ensures StyleBand(EmotionStyle(sentiment, c1)) <= StyleBand(EmotionStyle(sentiment, c2))
  {
  }

  /** A boundary value belongs to the band below it. */
  lemma EmotionStyleBoundaries()
    ensures EmotionStyle("positive", 0.8) == "cheerful" && EmotionStyle("positive", 0.6) == "friendly"
    ensures EmotionStyle("negative", 0.8) == "empathetic" && EmotionStyle("negative", 0.6) == "calm"
    ensures EmotionStyle("neutral", 0.7) == "assistant" && EmotionStyle("neutral", 0.5) == "chat"
    ensures EmotionStyle("mixed", 0.9) == "narration-professional"
  {
  }

  /** Whatever the confidence, a positive label gets a style the Jenny voice supports. */
  lemma PositiveStyleSupportedByVoice(confidence: real)
    ensures VoiceFor("positive", confidence) == Jenny
    ensures EmotionStyle("positive", confidence) in JennyStyles
  {
  }

  /** `_get_style_degree`: one of four intensities with strict cut points 0.5, 0.7, 0.9. */
  function StyleDegree(confidence: real): (degree: string)
    ensures degree in ["1.0", "1.1", "1.2", "1.3"]
    ensures degree == "1.3" <==> confidence > 0.9
    ensures degree == "1.2" <==> 0.7 < confidence <= 0.9
    ensures degree == "1.1" <==> 0.5 < confidence <= 0.7
    ensures degree == "1.0" <==> confidence <= 0.5
  {
    if confidence > 0.9 then "1.3"
    else if confidence > 0.7 then "1.2"
    else if confidence > 0.5 then "1.1"
    else "1.0"
  }

  function DegreeValue(degree: string): real {
    if degree == "1.3" then 1.3 else if degree == "1.2" then 1.2 else if degree == "1.1" then 1.1 else 1.0
  }

  /** The style intensity never decreases as the confidence grows. */
  lemma StyleDegreeMonotone(c1: real, c2: real)
    requires c1 <= c2
    ensures DegreeValue(StyleDegree(c1)) <= DegreeValue(StyleDegree(c2))
  {
  }

  datatype Prosody = Prosody(rate: string, pitch: string)

  /** `_get_prosody_for_sentiment`: the same medium rate and pitch for every input. */
  function ProsodyFor(sentiment: string, confidence: real): (p: Prosody)
    ensures p.rate == "medium" && p.pitch == "medium"
  {
    Prosody("medium", "medium")
  }

  /** `s.replace(c, rep)` for a one-character pattern. */
  function ReplaceChar(s: string, c: char, rep: string): (r: string)
    ensures c !in s ==> r == s
    ensures c !in rep ==> c !in r
  {
    if s == [] then [] else (if s[0] == c then rep else [s[0]]) + ReplaceChar(s[1..], c, rep)
  }

  /** Replacing never introduces a character that neither the input nor the replacement has. */
  lemma {:induction false} ReplaceCharKeepsAbsent(s: string, c: char, rep: string, d: char)
    requires d !in s && d !in rep
    ensures d !in ReplaceChar(s, c, rep)
  {
    if s != [] {
      ReplaceCharKeepsAbsent(s[1..], c, rep, d);
    }
  }

  lemma {:induction false} ReplaceCharAppend(a: string, b: string, c: char, rep: string)
    ensures ReplaceChar(a + b, c, rep) == ReplaceChar(a, c, rep) + ReplaceChar(b, c, rep)
  {
    if a == [] {
      assert a + b == b;
    } else {
      assert (a + b)[1..] == a[1..] + b;
      ReplaceCharAppend(a[1..], b, c, rep);
    }
  }

  /** `_escape_ssml_text`: the chained `replace` calls, ampersand first. */
  function EscapeSsml(text: string): (r: string)
    ensures '<' !in r && '>' !in r && '"' !in r && '\'' !in r
    ensures '&' !in text && '<' !in text && '>' !in text && '"' !in text && '\'' !in text ==> r == text
  {
    var amp := ReplaceChar(text, '&', "&amp;");
    EscapeTailRemoves(amp);
    if '&' !in text && '<' !in text && '>' !in text && '"' !in text && '\'' !in text then
      ReplaceCharAbsent(text, '&', "&amp;");
      EscapeTailStable(text);
      EscapeTail(amp)
    else
      EscapeTail(amp)
  }

  /** The last four steps of the chain. */
  function EscapeTail(s: string): string {
    ReplaceChar(ReplaceChar(ReplaceChar(ReplaceChar(s, '<', "&lt;"), '>', "&gt;"), '"', "&quot;"), '\'', "&apos;")
  }

  /** After the last four steps none of their four characters is left. */
  lemma EscapeTailRemoves(s: string)
    ensures var r := EscapeTail(s); '<' !in r && '>' !in r && '"' !in r && '\'' !in r
  {
    var gt := ReplaceChar(ReplaceChar(s, '<', "&lt;"), '>', "&gt;");
    AngleStepsRemove(s);
    QuoteStepsKeepAbsent(gt, '<');
    QuoteStepsKeepAbsent(gt, '>');
  }

  /** The `<` and `>` steps leave neither character. */
  lemma AngleStepsRemove(s: string)
    ensures var gt := ReplaceChar(ReplaceChar(s, '<', "&lt;"), '>', "&gt;"); '<' !in gt && '>' !in gt
  {
    ReplaceCharKeepsAbsent(ReplaceChar(s, '<', "&lt;"), '>', "&gt;", '<');
  }

  /** The quote steps leave no quote and keep out a character none of them writes. */
  lemma QuoteStepsKeepAbsent(s: string, d: char)
    requires d in "<>" && d !in s
    ensures var r := ReplaceChar(ReplaceChar(s, '"', "&quot;"), '\'', "&apos;");
            d !in r && '"' !in r && '\'' !in r
  {
    var quot := ReplaceChar(s, '"', "&quot;");
    ReplaceCharKeepsAbsent(s, '"', "&quot;", d);
    ReplaceCharKeepsAbsent(quot, '\'', "&apos;", d);
    ReplaceCharKeepsAbsent(quot, '\'', "&apos;", '"');
  }

  /** Text with none of the four characters, such as an entity written by an earlier step,
      goes through the last four steps unchanged. */
  lemma EscapeTailStable(s: string)
    requires '<' !in s && '>' !in s && '"' !in s && '\'' !in s
    ensures EscapeTail(s) == s
  {
    ReplaceCharAbsent(s, '<', "&lt;");
    ReplaceCharAbsent(s, '>', "&gt;");
    ReplaceCharAbsent(s, '"', "&quot;");
    ReplaceCharAbsent(s, '\'', "&apos;");
  }

  /** The entity one character becomes. */
  function EscapeChar(c: char): string {
    match c
    case '&' => "&amp;"
    case '<' => "&lt;"
    case '>' => "&gt;"
    case '"' => "&quot;"
    case '\'' => "&apos;"
    case _ => [c]
  }

  /** The escape chain distributes over concatenation. */
  lemma EscapeSsmlAppend(a: string, b: string)
    ensures EscapeSsml(a + b) == EscapeSsml(a) + EscapeSsml(b)
  {
    ReplaceCharAppend(a, b, '&', "&amp;");
    var amp0, amp1 := ReplaceChar(a, '&', "&amp;"), ReplaceChar(b, '&', "&amp;");
    ReplaceCharAppend(amp0, amp1, '<', "&lt;");
    var lt0, lt1 := ReplaceChar(amp0, '<', "&lt;"), ReplaceChar(amp1, '<', "&lt;");
    ReplaceCharAppend(lt0, lt1, '>', "&gt;");
    var gt0, gt1 := ReplaceChar(lt0, '>', "&gt;"), ReplaceChar(lt1, '>', "&gt;");
    ReplaceCharAppend(gt0, gt1, '"', "&quot;");
    var q0, q1 := ReplaceChar(gt0, '"', "&quot;"), ReplaceChar(gt1, '"', "&quot;");
    ReplaceCharAppend(q0, q1, '\'', "&apos;");
  }

  lemma ReplaceCharOne(c: char, rep: string)
    ensures ReplaceChar([c], c, rep) == rep
  {
    assert [c][1..] == [];
  }

  /** One step of the chain on a string free of the character it replaces. */
  lemma ReplaceCharAbsent(s: string, c: char, rep: string)
    requires c !in s
    ensures ReplaceChar(s, c, rep) == s
  {
  }

  lemma EscapeSsmlIsTail(s: string)
    ensures EscapeSsml(s) == EscapeTail(ReplaceChar(s, '&', "&amp;"))
  {
  }

  /** Because the ampersand is replaced first, the chain escapes each character exactly once:
      no entity it writes is rewritten by a later step. */
  lemma EscapeSsmlOne(c: char)
    ensures EscapeSsml([c]) == EscapeChar(c)
  {
    EscapeSsmlIsTail([c]);
    if c == '&' {
      EscapeAmpersandOne();
    } else {
      ReplaceCharAbsent([c], '&', "&amp;");
      EscapeTailOne(c);
    }
  }

  lemma EscapeAmpersandOne()
    ensures EscapeTail(ReplaceChar(['&'], '&', "&amp;")) == "&amp;"
  {
    ReplaceCharOne('&', "&amp;");
    EscapeTailStable("&amp;");
  }

  lemma EscapeTailOne(c: char)
    requires c != '&'
    ensures EscapeTail([c]) == EscapeChar(c)
  {
    if c == '<' {
      EscapeTailLt();
    } else if c == '>' {
      EscapeTailGt();
    } else if c == '"' {
      EscapeTailQuot();
    } else if c == '\'' {
      EscapeTailApos();
    } else {
      ReplaceCharAbsent([c], '<', "&lt;");
      ReplaceCharAbsent([c], '>', "&gt;");
      ReplaceCharAbsent([c], '"', "&quot;");
      ReplaceCharAbsent([c], '\'', "&apos;");
    }
  }

  lemma EscapeTailLt()
    ensures EscapeTail("<") == "&lt;"
  {
    ReplaceCharOne('<', "&lt;");
    ReplaceCharAbsent("&lt;", '>', "&gt;");
    ReplaceCharAbsent("&lt;", '"', "&quot;");
    ReplaceCharAbsent("&lt;", '\'', "&apos;");
  }

  lemma EscapeTailGt()
    ensures EscapeTail(">") == "&gt;"
  {
    ReplaceCharAbsent(">", '<', "&lt;");
    ReplaceCharOne('>', "&gt;");
    ReplaceCharAbsent("&gt;", '"', "&quot;");
    ReplaceCharAbsent("&gt;", '\'', "&apos;");
  }

  lemma EscapeTailQuot()
    ensures EscapeTail("\"") == "&quot;"
  {
    ReplaceCharAbsent("\"", '<', "&lt;");
    ReplaceCharAbsent("\"", '>', "&gt;");
    ReplaceCharOne('"', "&quot;");
    ReplaceCharAbsent("&quot;", '\'', "&apos;");
  }

  lemma EscapeTailApos()
    ensures EscapeTail("'") == "&apos;"
  {
    ReplaceCharAbsent("'", '<', "&lt;");
    ReplaceCharAbsent("'", '>', "&gt;");
    ReplaceCharAbsent("'", '"', "&quot;");
    ReplaceCharOne('\'', "&apos;");
  }

  predicate StartsWith(s: string, p: string) {
    |p| <= |s| && s[..|p|] == p
  }

  /** The entity `s` starts with, as the character it stands for and the entity's length. */
  function EntityAt(s: string): (r: Option<(char, nat)>)
    ensures r.Some? ==> 1 <= r.value.1 <= |s|
  {
    if StartsWith(s, "&amp;") then Some(('&', 5))
    else if StartsWith(s, "&lt;") then Some(('<', 4))
    else if StartsWith(s, "&gt;") then Some(('>', 4))
    else if StartsWith(s, "&quot;") then Some(('"', 6))
    else if StartsWith(s, "&apos;") then Some(('\'', 6))
    else None
  }

  /** Decode the five entities `EscapeSsml` produces; any other character stands for itself. */
  function UnescapeSsml(s: string): string {
    if s == [] then []
    else match EntityAt(s)
      case Some((c, n)) => [c] + UnescapeSsml(s[n..])
      case None => [s[0]] + UnescapeSsml(s[1..])
  }

  lemma EntityAtPlain(c: char, tail: string)
    requires c != '&'
    ensures EntityAt([c] + tail) == None
  {
    var s := [c] + tail;
    assert s[0] == c;
    assert !StartsWith(s, "&amp;") && !StartsWith(s, "&lt;") && !StartsWith(s, "&gt;");
  }

  lemma EntityAtEntity(e: string, c: char, tail: string)
    requires (e, c) in {("&amp;", '&'), ("&lt;", '<'), ("&gt;", '>'), ("&quot;", '"'), ("&apos;", '\'')}
    ensures EntityAt(e + tail) == Some((c, |e|))
  {
    var s := e + tail;
    assert s[..|e|] == e;
    assert s[1] == e[1] && s[2] == e[2];
  }

  /** Decoding an escaped character followed by anything decodes the character first. */
  lemma UnescapeAfterEscape(c: char, tail: string)
    ensures UnescapeSsml(EscapeChar(c) + tail) == [c] + UnescapeSsml(tail)
  {
    var e := EscapeChar(c);
    var s := e + tail;
    if c in "&<>\"'" {
      EntityAtEntity(e, c, tail);
      assert s[|e|..] == tail;
    } else {
      EntityAtPlain(c, tail);
      assert s[1..] == tail;
    }
  }

  /** Escaping loses nothing: the speech engine reads back exactly the response text. */
  lemma {:induction false} EscapeSsmlRoundTrip(text: string)
    ensures UnescapeSsml(EscapeSsml(text)) == text
  {
    if text != [] {
      var c, rest := text[0], text[1..];
      assert text == [c] + rest;
      EscapeSsmlAppend([c], rest);
      EscapeSsmlOne(c);
      EscapeSsmlRoundTrip(rest);
      UnescapeAfterEscape(c, EscapeSsml(rest));
    }
  }

  function Max(a: real, b: real): real {
    if a >= b then a else b
  }

  /** `estimate_duration`: 2.5 words per second, and never under one second. */
  function EstimateDuration(text: string): (seconds: real)
    ensures seconds >= 1.0
    ensures |Words(text)| >= 3 ==> seconds == |Words(text)| as real / 2.5
    ensures |Words(text)| <= 2 ==> seconds == 1.0
  {
    Max(1.0, |Words(text)| as real / 2.5)
  }

  /** What the synthesiser reports for one SSML request. */
  datatype SynthOutcome =
    | Completed(fileSize: nat)
    | NotCompleted(reason: string)
    | SynthRaised(message: string)

  /** The `audio_data` dictionary. This service never sets a blob URL; the field is there
      because the pipeline looks for one. */
  datatype AudioData = AudioData(filePath: string, fileSize: nat, voiceUsed: string, emotionStyle: string,
                                 ssmlUsed: bool, blobUrl: Option<string>)

  /** `os.path.join(audio_dir, f'{feedback_id}.mp3')`. */
  function AudioPath(audioDir: string, feedbackId: string): string {
    audioDir + "/" + feedbackId + ".mp3"
  }

  /** `generate_emotion_aware_audio`: unavailable means a failure without synthesis; a
      completed synthesis reports the file, the voice and the style chosen for the sentiment. */
  function GenerateAudio(available: bool, synth: SynthOutcome, text: string, sentiment: string,
                         confidence: real, feedbackId: string, audioDir: string): (r: ServiceResponse<AudioData>)
    ensures r.success <==> available && synth.Completed?
    ensures r.success <==> r.data.Some?
    ensures !available ==> r.serviceUsed == Some("none") && r.error == Some("Speech service not available")
    ensures r.success ==> r.data.value.filePath == AudioPath(audioDir, feedbackId)
                          && r.data.value.voiceUsed == VoiceFor(sentiment, confidence)
                          && r.data.value.emotionStyle == EmotionStyle(sentiment, confidence)
                          && r.data.value.blobUrl.None?
  {
    if !available then ServiceResponse(false, None, Some("Speech service not available"), Some("none"))
    else
      match synth
      case Completed(size) =>
        var data := AudioData(AudioPath(audioDir, feedbackId), size, VoiceFor(sentiment, confidence),
                              EmotionStyle(sentiment, confidence), true, None);
        ServiceResponse(true, Some(data), None, Some("azure_speech"))
      case NotCompleted(reason) =>
        ServiceResponse(false, None, Some("Speech synthesis failed: " + reason), Some("azure_speech"))
      case SynthRaised(message) =>
        ServiceResponse(false, None, Some(message), Some("azure_speech"))
  }
}
