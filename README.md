# Feedback analysis backend, modelled in Dafny

This project models the Python backend of a customer-feedback analysis service. A customer
submits feedback text. The backend validates it and runs a three-stage pipeline:

1. sentiment analysis, with a keyword fallback when the vendor cannot answer;
2. a generated reply, with canned fallback replies;
3. optional emotion-aware speech synthesis.

The pipeline stores one record per stage. The backend also serialises feedback for the
API, pushes updates to live browser connections over server-sent events, and keeps audio
in a blob container reached through signed (SAS) URLs.

Every vendor SDK is an input to the model: the text-analytics, chat-completion,
speech-synthesis and blob-signing calls each become an outcome value or a function from
request to outcome (`Returned` or `Raised`). The clock, generated row ids and file sizes
are inputs too.

Modules, one per source file:

| module | file | source |
|---|---|---|
| `Wrappers` | `wrappers.dfy` | `Option` and `Result` |
| `Text` | `text.dfy` | the Python string operations the core uses (`strip`, `lower`, `split`, `join`, `str(n)`, `int(s)`); whitespace is Python's `str.isspace` set, letter case and digits are ASCII |
| `Json` | `json.dfy` | the Python values that reach the validators and leave the serialiser |
| `ServiceBase` | `base.dfy` | `backend/app/services/base.py` |
| `Validators` | `validators.dfy` | `backend/app/validators.py` |
| `Speech` | `speech.dfy` | `backend/app/services/speech_service.py` |
| `TextAnalytics` | `text_analytics.dfy` | `backend/app/services/text_analytics.py` |
| `OpenAI` | `openai.dfy` | `backend/app/services/openai_service.py` |
| `Models` | `models.dfy` | `backend/app/models.py` (record shapes and `to_dict`) |
| `Processor` | `processor.dfy` | `backend/app/services/feedback_processor.py` |
| `Sse` | `sse.dfy` | `backend/app/sse_manager.py` |
| `BlobStorage` | `blob_storage.dfy` | `backend/app/services/blob_storage.py` |
| `Serializers` | `serializers.dfy` | `backend/app/serializers.py` |

Code that changes state in place is modelled as classes with `modifies` frames:
- `ExternalService.Initialize`;
- the pipeline's `RecordStore` and `FeedbackProcessor`;
- `SSEManager` and `SSEClient`;
- `BlobStorageService`, its remote `BlobContainer`, and the `BlobStorageSlot` singleton.

Loops in the source are modelled as methods with loops, each proved equal to a
specification function:
- the retry wrapper;
- `_build_sentiment_data` and `_build_response_context`;
- the connection-string loop;
- the broadcast loop and the removals after it;
- the event generator.

Each of those functions has its own lemmas.

Where the written specification and the code disagree, the model follows the code:
- **Retries.** The specification says collaborator calls are not retried. In the code,
  `retry_on_failure` wraps `analyze_sentiment_with_opinions`,
  `generate_contextual_response` and `generate_emotion_aware_audio`. All three catch every
  exception themselves, so the wrapper never retries them. `ServiceBase.RetryOnFailure`
  models the wrapper on its own.
- **Heartbeats.** The specification describes heartbeats at a fixed interval, independent
  of traffic. In the code, `get_events` yields a heartbeat only when the queue is empty for
  one read; that is what `Sse.SSEClient.GetEvents` states.

## Model

| member | source | states |
|---|---|---|
| `ServiceBase.ExternalService.constructor` | backend/app/services/base.py:21-24 | a new service has no client and is not available |
| `ServiceBase.ExternalService.Initialize` | backend/app/services/base.py:36-47 | available iff the credential check answers true and then the client initialiser answers true; the initialiser runs only after valid credentials; an exception from either leaves the service unavailable; the service has a client once an initialiser has answered true |
| `ServiceBase.BackoffAt` | backend/app/services/base.py:68-70 | the k-th wait is delay·2^k |
| `ServiceBase.BackoffDoubles` | backend/app/services/base.py:68-70 | each wait is twice the previous one |
| `ServiceBase.RetryOnFailure` | backend/app/services/base.py:50-75 | 1 to max_retries+1 calls; every call before the last raised; the result is the last call's outcome, so the first success is returned at once; a raised result means all max_retries+1 calls raised (the last exception is re-raised); the waits are delay·2^k after every failed call except the last |
| `Validators.ValidateText` | backend/app/validators.py:59-92 | accepted iff a string whose stripped form has 10..5000 characters and is not suspicious; the result is the stripped text; falsy input is MISSING_TEXT, a non-string INVALID_TYPE, too short TEXT_TOO_SHORT, too long TEXT_TOO_LONG, suspicious text of valid length SUSPICIOUS_CONTENT |
| `Validators.ValidateCategory` | backend/app/validators.py:94-112 | None gives 'general'; a non-string is INVALID_TYPE; a string is accepted iff its stripped lower-cased form is one of the six categories, which is then the result, else INVALID_CATEGORY |
| `Validators.ValidateSubmission` | backend/app/validators.py:30-56 | an empty body is MISSING_BODY; an accepted submission has the text `_validate_text` accepts and the category `_validate_category` gives for the body's category ('general' when the key is absent); with accepted text, the submission is accepted iff the category is, and a category error is passed through |
| `Validators.ScriptSchemeRejected` | backend/app/validators.py:84-90 | text holding "javascript:" in any letter case, anywhere, is rejected, with SUSPICIOUS_CONTENT when its length is valid |
| `Validators.TextCheckedFirst` | backend/app/validators.py:44-51 | a failing text check decides the error before the category is looked at |
| `Validators.SubmissionDefaultsToGeneral` | backend/app/validators.py:50-51 | a body without a category key, or with a null one, is filed under 'general' once its text passes |
| `Validators.DefaultCategoryValid` | backend/app/validators.py:51 | the default 'general' passes the category check unchanged |
| `Validators.ValidatePagination` | backend/app/validators.py:139-161 | the page is always at least 1 and the page size always in 1..100 |
| `Validators.PaginationCases` | backend/app/validators.py:146-159 | absent or unparseable values give page 1 and 10 per page; a page below 1 becomes 1; the page size is clamped to 1..100 |
| `Validators.PaginationIdempotent` | backend/app/validators.py:139-161 | validating the validated pair returns it unchanged |
| `Validators.PaginationReadsDecimal` | backend/app/validators.py:148-157 | decimal query strings of a valid page and page size are read back exactly, except a page of more than 4300 digits, which becomes page 1 |
| `Validators.ValidateCategoryFilter` | backend/app/validators.py:164-173 | never fails; the result is None or one of the six categories; falsy or non-string input gives None |
| `Validators.FilterAgreesWithCategory` | backend/app/validators.py:164-173 | on a non-empty string, the filter and the submission check accept the same categories with the same result |
| `Speech.VoiceFor` | backend/app/services/speech_service.py:135-142 | JennyNeural iff the label is 'positive', AriaNeural otherwise, whatever the confidence |
| `Speech.EmotionStyle` | backend/app/services/speech_service.py:144-164 | each of the three bands for positive, negative and every other label, both directions, with strict cut points |
| `Speech.EmotionStyleMonotone` | backend/app/services/speech_service.py:144-164 | for a fixed label, a higher confidence never selects a lower band |
| `Speech.EmotionStyleBoundaries` | backend/app/services/speech_service.py:146-164 | 0.8, 0.6, 0.7 and 0.5 fall in the band below; an unknown label uses the neutral bands |
| `Speech.PositiveStyleSupportedByVoice` | backend/app/services/speech_service.py:135-148 | a positive label always gets a style from the list the Jenny voice supports |
| `Speech.StyleDegree` | backend/app/services/speech_service.py:166-175 | one of "1.0".."1.3"; "1.3" iff above 0.9, "1.2" iff in (0.7, 0.9], "1.1" iff in (0.5, 0.7], "1.0" iff at most 0.5 |
| `Speech.StyleDegreeMonotone` | backend/app/services/speech_service.py:166-175 | the degree never decreases as the confidence grows |
| `Speech.ProsodyFor` | backend/app/services/speech_service.py:177-179 | rate and pitch are always 'medium' |
| `Speech.ReplaceChar` | backend/app/services/speech_service.py:183-187 | one `replace` step: text without the character is unchanged; a replacement without it leaves none |
| `Speech.EscapeSsml` | backend/app/services/speech_service.py:181-187 | no '<', '>', '"' or apostrophe remains; text with none of the five special characters is unchanged |
| `Speech.EscapeSsmlOne` | backend/app/services/speech_service.py:183-187 | with '&' replaced first, each character is escaped exactly once and no entity is rewritten |
| `Speech.EscapeSsmlAppend` | backend/app/services/speech_service.py:183-187 | the escape distributes over concatenation |
| `Speech.EscapeSsmlRoundTrip` | backend/app/services/speech_service.py:181-187 | decoding the five entities gives back the original text |
| `Speech.EstimateDuration` | backend/app/services/speech_service.py:190-194 | always at least 1.0; words/2.5 with three or more words; 1.0 with fewer |
| `Speech.GenerateAudio` | backend/app/services/speech_service.py:43-110 | success iff available and synthesis completed; unavailable is the "not available" failure; on success, the file `<dir>/<id>.mp3`, the voice and the style chosen for the sentiment, and no blob URL |
| `TextAnalytics.CountMatches` | backend/app/services/text_analytics.py:138-139 | the count never exceeds the number of keywords |
| `TextAnalytics.CountMatchesZero` | backend/app/services/text_analytics.py:138-139 | the count is zero iff no keyword occurs |
| `TextAnalytics.CountMatchesAll` | backend/app/services/text_analytics.py:138-139 | the count is the keyword total iff every keyword occurs |
| `TextAnalytics.FallbackSentiment` | backend/app/services/text_analytics.py:131-168 | always a success from "fallback"; positive iff more positive keywords, negative iff more negative, neutral iff a tie; 0.8 or 0.6; the other labels 0.3; no key phrases or opinions; one sentence, the whole text |
| `TextAnalytics.FallbackPositiveKeyword` | backend/app/services/text_analytics.py:134-143 | some positive keyword and no negative one gives positive at 0.8 |
| `TextAnalytics.FallbackNoKeyword` | backend/app/services/text_analytics.py:147-149 | no keyword gives neutral at 0.6 |
| `TextAnalytics.FallbackIgnoresCase` | backend/app/services/text_analytics.py:137 | lower-casing the input first does not change the label |
| `TextAnalytics.SpansOfAt` | backend/app/services/text_analytics.py:119-125 | each entry is the matching vendor span with the score of its own label |
| `TextAnalytics.OpinionsOfCount` | backend/app/services/text_analytics.py:107-127 | every mined opinion of every sentence gives exactly one entry |
| `TextAnalytics.SentencesOfAt` | backend/app/services/text_analytics.py:99-105 | the k-th sentence entry is the k-th vendor sentence |
| `TextAnalytics.BuildAssessments` | backend/app/services/text_analytics.py:119-125 | the append loop yields one entry per assessment, in order |
| `TextAnalytics.BuildOpinions` | backend/app/services/text_analytics.py:108-127 | the append loop yields one entry per mined opinion, in order, each with its target and its assessments |
| `TextAnalytics.BuildSentimentData` | backend/app/services/text_analytics.py:83-129 | the document's label with that label's score, the three scores, the first ten key phrases, one entry per sentence and one per mined opinion, in vendor order |
| `TextAnalytics.AnalyzeSentiment` | backend/app/services/text_analytics.py:42-81 | never a failure; the vendor result iff available and both calls answer with a good document; otherwise exactly the fallback; on the vendor path the document's label, its three scores and the score of its label, the first ten key phrases, its sentences and its opinions; the reported confidence is always the score of the chosen label |
| `OpenAI.FallbackText` | backend/app/services/openai_service.py:131-141 | the canned reply for a known label, the neutral one for any other |
| `OpenAI.FallbackTextIdentifiesLabel` | backend/app/services/openai_service.py:133-138 | the four canned replies differ |
| `OpenAI.FallbackResponse` | backend/app/services/openai_service.py:129-152 | always a success with model 'fallback', 0 tokens, no key phrases, and the label echoed |
| `OpenAI.BuildResponseContext` | backend/app/services/openai_service.py:110-127 | the append loop builds exactly the context lines joined by newlines |
| `OpenAI.ContextShape` | backend/app/services/openai_service.py:112-127 | one to three lines, the overall line first; the key-topics line iff there are key phrases; the aspects line iff there are opinions |
| `OpenAI.KeyTopicsAtMostFive` | backend/app/services/openai_service.py:116-117 | at most the first five key phrases are listed |
| `OpenAI.SummariesAt` | backend/app/services/openai_service.py:119-125 | each aspect names its target and at most its first two assessments |
| `OpenAI.ContextReadsBack` | backend/app/services/openai_service.py:112-127 | with no line breaks in the inputs, splitting the context at line breaks gives back its lines |
| `OpenAI.PromptEmbeds` | backend/app/services/openai_service.py:89-108 | the feedback and then the context appear at fixed offsets in the prompt, and nothing but the fixed tail follows the context |
| `OpenAI.ReplyResponse` | backend/app/services/openai_service.py:55-87 | never a failure; an "openai" answer iff the call returned content and usage, with the stripped content, the model and the token count; otherwise exactly the fallback; the label echoed and at most the first three key phrases used |
| `OpenAI.GenerateContextualResponse` | backend/app/services/openai_service.py:37-87 | an unavailable client gives the fallback; otherwise the answer is the reply response to the prompt built from the feedback and the context lines |
| `Models.FeedbackDict` | backend/app/models.py:28-35 | exactly the five base keys; an unset timestamp is None |
| `Models.SentimentDict` | backend/app/models.py:46-53 | exactly its five keys |
| `Models.ResponseDict` | backend/app/models.py:64-71 | exactly its five keys |
| `Models.AudioDict` | backend/app/models.py:82-89 | exactly the declared columns' five keys |
| `Processor.StorageType` | backend/app/services/feedback_processor.py:144 | 'blob' iff a non-empty blob URL came back, else 'local' |
| `Processor.RecordStore.constructor` | backend/app/services/feedback_processor.py:44 | the store starts with the feedback rows and empty result tables |
| `Processor.RecordStore.CommitSentiment` | backend/app/services/feedback_processor.py:87-88 | the commit succeeds iff the id is new and the feedback has no sentiment yet; a failed commit stores nothing |
| `Processor.RecordStore.CommitResponse` | backend/app/services/feedback_processor.py:118-119 | the same for the response table |
| `Processor.RecordStore.CommitAudio` | backend/app/services/feedback_processor.py:154-155 | the same for the audio table, which also needs a new file path |
| `Processor.FeedbackProcessor.ProcessSentimentAnalysis` | backend/app/services/feedback_processor.py:75-102 | the stage's value, events and new tables are those of `SentimentStage` |
| `Processor.FeedbackProcessor.ProcessAiResponse` | backend/app/services/feedback_processor.py:104-132 | the stage's value, events and new tables are those of `ResponseStage` |
| `Processor.FeedbackProcessor.ProcessAudioGeneration` | backend/app/services/feedback_processor.py:134-168 | the stage's value, events and new tables are those of `AudioStage` |
| `Processor.FeedbackProcessor.ProcessFeedbackComplete` | backend/app/services/feedback_processor.py:29-73 | the result, events and new tables are those of `Pipeline` |
| `Processor.SentimentStageStores` | backend/app/services/feedback_processor.py:80-94 | a successful sentiment stage stores exactly one row, with the analysis's label and score |
| `Processor.ResponseStageStores` | backend/app/services/feedback_processor.py:111-124 | a successful response stage stores exactly one row, with the reply's text and model |
| `Processor.FailedStagesStoreNothing` | backend/app/services/feedback_processor.py:95-102 | a failed stage leaves the tables unchanged |
| `Processor.AudioStageFrame` | backend/app/services/feedback_processor.py:134-168 | the audio stage changes the audio table at most |
| `Processor.UnknownFeedbackRunsNoStage` | backend/app/services/feedback_processor.py:44-47 | an unknown id or a failing lookup returns false, calls no service and stores nothing; only the failing lookup rolls back |
| `Processor.SentimentFailureStops` | backend/app/services/feedback_processor.py:52-55 | a failed sentiment stage returns false without calling the response or speech service |
| `Processor.ResponseFailureStops` | backend/app/services/feedback_processor.py:58-61 | a failed response stage returns false without calling the speech service; the sentiment row stays |
| `Processor.PipelineOkExactly` | backend/app/services/feedback_processor.py:29-68 | the run succeeds iff the lookup works and both the sentiment and the response service answer with data whose rows the tables accept |
| `Processor.AudioNeverAffectsOk` | backend/app/services/feedback_processor.py:63-68 | the speech service and the audio columns never change the result |
| `Processor.SuccessStoresResults` | backend/app/services/feedback_processor.py:80-88 | after success both rows exist, for this feedback, with the analysis's label and score and the reply's text and model |
| `Processor.SentimentCommittedBeforeRespond` | backend/app/services/feedback_processor.py:87-88 | the response service is called only after a sentiment row with the same label and score has been committed |
| `Processor.AudioNeverStoredAsDeclared` | backend/app/services/feedback_processor.py:146-153 | with `AudioFile` as declared, no audio row is ever stored |
| `Processor.AudioStoredWhenColumnsMapped` | backend/app/services/feedback_processor.py:141-155 | with the columns the pipeline expects, a synthesis stores one row: the reported path, 'blob' iff a non-empty blob URL, and the duration estimated from the reply |
| `Processor.PipelineKeepsOnePerFeedback` | backend/app/models.py:41 | a run keeps at most one sentiment, response and audio row per feedback |
| `Processor.InsertSentimentKeepsOne` | backend/app/models.py:41 | an accepted sentiment insert keeps one row per feedback |
| `Processor.InsertResponseKeepsOne` | backend/app/models.py:59 | an accepted response insert keeps one row per feedback |
| `Processor.AudioStageKeepsOne` | backend/app/models.py:77 | the audio stage keeps one row per feedback |
| `Processor.SecondRunFails` | backend/app/services/feedback_processor.py:80-88 | processing the same feedback again after a success fails |
| `Sse.ClientIdInjective` | backend/app/sse_manager.py:26 | different counter values give different client ids |
| `Sse.SSEClient.constructor` | backend/app/sse_manager.py:71-75 | a new client is connected, with an empty queue |
| `Sse.SSEClient.Disconnect` | backend/app/sse_manager.py:109-112 | clears the flag and removes the client from the manager, and nothing else |
| `Sse.SSEClient.SendEvent` | backend/app/sse_manager.py:77-91 | a disconnected client is unchanged; an encoding failure raises; otherwise the formatted event joins the back of the queue, or a full queue disconnects the client |
| `Sse.SSEClient.GetEvents` | backend/app/sse_manager.py:93-107 | n reads yield the queued events oldest first, with heartbeats when the queue is empty; the client is disconnected and unregistered afterwards |
| `Sse.DrainIsQueueThenHeartbeats` | backend/app/sse_manager.py:96-103 | the reads give the queue prefix and then only heartbeats |
| `Sse.SSEManager.constructor` | backend/app/sse_manager.py:18-20 | no clients; the counter at 0 |
| `Sse.SSEManager.AddClient` | backend/app/sse_manager.py:23-31 | a fresh connected client under `client_<counter>`, an id never used before; the counter grows by one; the map grows by exactly that entry |
| `Sse.SSEManager.RemoveClient` | backend/app/sse_manager.py:33-38 | removes the id if present and changes nothing otherwise, so it is idempotent |
| `Sse.SSEManager.SendFeedbackUpdate` | backend/app/sse_manager.py:40-66 | every registered client gets the event at the back of its queue; exactly the clients whose send raised are removed, all of them when encoding fails; the others stay |
| `Sse.SSEManager.Broadcast` | backend/app/sse_manager.py:54-60 | one send per registered client; the failed list is every id when encoding fails and empty otherwise |
| `Sse.SSEManager.SendTo` | backend/app/sse_manager.py:56-60 | one send raises iff encoding fails, and extends the sent prefix by one |
| `Sse.SSEManager.RemoveAll` | backend/app/sse_manager.py:62-64 | removes exactly the listed ids; the other clients are unchanged |
| `Sse.Ordered` | backend/app/sse_manager.py:55 | every key exactly once |
| `Sse.BroadcastDeadlocksOnFailure` | backend/app/sse_manager.py:53-64 | as written, one failed send makes the thread block on its own lock |
| `Sse.CorrectedBroadcastNeverBlocks` | backend/app/sse_manager.py:53-64 | releasing the lock before the removals never blocks and leaves the lock free |
| `BlobStorage.BlobNameInjective` | backend/app/services/blob_storage.py:63 | different feedback ids give different blob names |
| `BlobStorage.SplitAtFirst` | backend/app/services/blob_storage.py:123 | the key holds no '=' and the item is the key, '=' and the value |
| `BlobStorage.SplitAtFirstOf` | backend/app/services/blob_storage.py:123 | a key without '=' comes back whole, and so does a value holding more '=' |
| `BlobStorage.ConnectionPartsKeys` | backend/app/services/blob_storage.py:121-124 | a key is parsed iff some segment defines it; segments without '=' are ignored |
| `BlobStorage.ConnectionPartsLastWins` | backend/app/services/blob_storage.py:124 | the value is that of the last segment defining the key |
| `BlobStorage.ItemsParse` | backend/app/services/blob_storage.py:121-124 | parsing formatted segments gives the dictionary of the pairs |
| `BlobStorage.ParseFormatted` | backend/app/services/blob_storage.py:120-124 | parsing a connection string written from pairs gives back their dictionary |
| `BlobStorage.SasUrl` | backend/app/services/blob_storage.py:106-149 | a non-empty URL always holds a query |
| `BlobStorage.SasUrlEmpty` | backend/app/services/blob_storage.py:126-131 | the URL is empty iff there is no connection string, the account name or key is missing or empty, or signing raises |
| `BlobStorage.SasUrlFromFormatted` | backend/app/services/blob_storage.py:126-145 | with both credentials present, the URL is `https://<account>.blob.core.windows.net/<container>/<blob>?<token>` |
| `BlobStorage.WithDisposition` | backend/app/services/blob_storage.py:248-253 | without download or with an empty URL the URL is unchanged; otherwise it is extended |
| `BlobStorage.DispositionFollowsQuery` | backend/app/services/blob_storage.py:248-251 | a signed URL gets the disposition after '&' |
| `BlobStorage.Unavailable` | backend/app/services/blob_storage.py:55-60 | the failure with "Blob Storage service not available" |
| `BlobStorage.BlobStorageService.constructor` | backend/app/services/blob_storage.py:15-23 | container "audio-files"; available iff the connection string is non-empty and the client initialiser answers true |
| `BlobStorage.BlobStorageService.ParseConnectionString` | backend/app/services/blob_storage.py:120-124 | the loop builds exactly the parsed dictionary |
| `BlobStorage.BlobStorageService.GenerateSasUrl` | backend/app/services/blob_storage.py:106-149 | the URL is `SasUrl` of this service's connection string and container |
| `BlobStorage.BlobStorageService.UploadAudioFile` | backend/app/services/blob_storage.py:44-104 | unavailable: a failure and no write; a failed read: its error and no write; otherwise `<id>.mp3` holds the content, overwritten, and the response has its size and a 24-hour URL |
| `BlobStorage.BlobStorageService.GetBlobContent` | backend/app/services/blob_storage.py:151-190 | unavailable: a failure; otherwise the content of `<id>.mp3`, or the prefixed not-found error |
| `BlobStorage.BlobStorageService.DeleteAudioFile` | backend/app/services/blob_storage.py:192-231 | unavailable: a failure and nothing removed; otherwise `<id>.mp3` is removed and named, or a not-found error leaves the container unchanged |
| `BlobStorage.BlobStorageService.GetAudioUrl` | backend/app/services/blob_storage.py:233-257 | the one-hour URL of `<id>.mp3` with the download disposition when asked; never None |
| `BlobStorage.BlobStorageSlot.GetBlobStorage` | backend/app/services/blob_storage.py:260-268 | built on the first call, then the same instance on every call |
| `Serializers.SerializeFeedback` | backend/app/serializers.py:7-21 | the five base keys of `Feedback.to_dict()` are always present |
| `Serializers.SectionKeysAreNew` | backend/app/serializers.py:9-19 | no section key is a base key |
| `Serializers.SerializeFeedbackKeys` | backend/app/serializers.py:7-21 | no key beyond the five base keys and the four section keys |
| `Serializers.SerializeFeedbackBase` | backend/app/serializers.py:9-19 | the base keys keep the values `Feedback.to_dict()` gives them |
| `Serializers.SerializeFeedbackSections` | backend/app/serializers.py:11-19 | each section is present iff its record is and holds that record's dictionary; the audio URL is "/api/v1/audio/" + the audio id |
| `Serializers.SerializeBareFeedback` | backend/app/serializers.py:7-21 | with no related records, the result is the feedback's own dictionary |
| `Text.Lower` | backend/app/validators.py:103 | same length; each character lower-cased |
| `Text.LowerIdempotent` | backend/app/validators.py:103 | lower-casing twice is lower-casing once |
| `Text.Strip` | backend/app/validators.py:68 | no leading or trailing whitespace remains |
| `Text.StripAllSpace` | backend/app/validators.py:68 | the result is empty iff the text is all whitespace |
| `Text.StripKeepsOccurrence` | backend/app/validators.py:68 | stripping keeps an occurrence of a pattern that neither starts nor ends with whitespace |
| `Text.LowerStripCommute` | backend/app/validators.py:103 | lower-casing and stripping commute |
| `Text.SplitOn` | backend/app/services/blob_storage.py:121 | at least one part, none holding the separator |
| `Text.JoinSplit` | backend/app/services/blob_storage.py:121 | joining the parts gives back the string |
| `Text.SplitJoin` | backend/app/services/blob_storage.py:121 | splitting joined parts free of the separator gives back the parts |
| `Text.Words` | backend/app/services/speech_service.py:193 | non-empty words without whitespace that concatenate to the text's non-space characters |
| `Text.NatToStringInjective` | backend/app/sse_manager.py:26 | different numbers print differently |
| `Text.ParseIntOfNatToString` | backend/app/validators.py:148 | `int` reads back a printed number of at most 4300 digits and refuses a longer one |
| `Text.ParseIntOfDigits` | backend/app/validators.py:148 | an unsigned decimal literal, with single underscores between digits, reads as the value of its digits when it has at most 4300 digits, and is refused otherwise |
| `Text.ParseIntSkipsUnderscore` | backend/app/validators.py:148 | an underscore between two digits of a printed number leaves the value `int` reads unchanged and does not count towards the 4300-digit limit |

## Left out

- Logging, everywhere.
- The creation timestamp of `ServiceResponse` (backend/app/services/base.py:88). `to_dict` is not modelled.
- Real sleeping and threads. Retry waits are a returned sequence.
- The `threading.Lock` of the SSE manager, beyond the lock-step model in the Findings.
- The background worker thread and queue.
- `queue.Queue` timeouts: one `get` with an empty queue is a heartbeat.
- The heartbeat timestamp (`time.time()`) is an input, the same for every heartbeat of one read-out.
- JSON encoding of events is an input: the encoded text, or `None` when `json.dumps` raises.
- Python dict iteration order: `Sse.Ordered` visits the registered ids in some order.
- `Text.Lower` maps only the ASCII letters A-Z. Python's `lower` also lower-cases every other cased character, and can turn one character into two. `strip` and `split` do use Python's full whitespace set.
- `Text.ParseInt` reads only ASCII digits. Python's `int` also accepts every other Unicode decimal digit (full-width `１２` for instance), which the model treats as unreadable. Its 4300-digit limit is CPython's default since 3.11 (and the matching security releases); an interpreter with another `sys.set_int_max_str_digits` setting reads differently.
- `Validators.ValidateText` looks for "javascript:" character by character after lower-casing. The source's `re.IGNORECASE` also lets `ı` (U+0131) stand for `i` and `ſ` (U+017F) for `s`, so a text such as "javaſcript:" is suspicious to the source but not to the model.
- The five suspicious-content regular expressions other than the literal "javascript:" are one predicate parameter.
- Floating point: confidences are `real`, so IEEE rounding is not modelled. The two-decimal formatting of the confidence in the reply context is a parameter.
- SSML document assembly (`_create_emotion_ssml`) and the audio directory's creation.
- The vendor SDK calls are inputs:
  - text analytics, chat completion and speech synthesis;
  - blob upload, download and delete, the blob's URL and its properties;
  - `generate_blob_sas` and its expiry time.
- Blob SDK errors other than a missing blob.
- The container creation inside `_initialize_client`.
- Reading the local audio file is an input: its content, or the exception opening it raised.
- The SQLAlchemy session after a failed commit, beyond "nothing stored".
- Foreign keys: the pipeline only writes rows for a feedback it has just read.
- `get_service_status` of the processor, which only reports flags.
- The Flask routes, configuration and query builders. `_build_complete_feedback_data` in the routes repeats `serialize_feedback` and is not modelled twice.
- `Sse.SSEClient.SendEvent`: the full-queue branch cannot be reached by clients the manager creates, because `queue.Queue()` is unbounded. The `capacity` field exists only to state that branch.
- `Sse.SSEManager.SendFeedbackUpdate` does not state the connected flag of the clients dropped after an encoding failure; it states their removal and unchanged queues.
- `ServiceBase.RetryOnFailure` takes `max_retries` as a natural number. With a negative value the source's loop never runs, and `raise None` then raises a TypeError; the model does not represent that case.
- `ServiceBase.RetryOnFailure` is not applied to the three decorated service methods, because each of them catches every exception itself and so never raises into the wrapper.

## Findings

| source | as written | input that shows it | evidently intended | confidence | as-written member | corrected member |
|---|---|---|---|---|---|---|
| backend/app/services/feedback_processor.py:146-153 | `AudioFile` is built with `blob_url`, `file_size` and `storage_type`, which the declared table (backend/app/models.py:73-80) lacks; the declarative constructor raises, and the handler at 165-168 swallows it | any run whose speech synthesis succeeds | an audio row with the reported path, storage type and estimated duration | high (not executed) | `Processor.AudioNeverStoredAsDeclared` | `Processor.AudioStoredWhenColumnsMapped` |
| backend/app/sse_manager.py:53-64 | `remove_client` takes `self.lock` while `send_feedback_update` still holds it, and `threading.Lock` is not reentrant (lines 21, 35) | one registered client and an event whose send raises | remove the failed clients after releasing the lock | medium: the blocking follows from the lock's semantics, but a send raises only when the event cannot be encoded (not executed) | `Sse.BroadcastDeadlocksOnFailure` | `Sse.CorrectedBroadcastNeverBlocks` |
