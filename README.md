# Unisono meeting assistant — a verified model

Unisono is a live multilingual meeting assistant. The browser captures
microphone audio with an AudioWorklet that cuts it into 4096-sample frames.
It streams the frames over a WebSocket to a Django Channels consumer. The
consumer buffers audio on a fast path that should produce preliminary
transcripts, and a slow path that enriches them. Enrichment means speaker
diarization with persistent `SPEAKER_<n>` names, Whisper transcription,
translation (direct, or pivoting through English) and insight extraction.
Meetings, recordings and manually entered insights are stored in MongoDB.
HTTP views serve them to the frontend, whose pages derive messages, insights,
labels and an export file name from what the views return.

This project models that logic in Dafny and proves properties of the model.
There is one module per source file:

- `AudioFramer` — the worklet's buffer and copy loop, as a class over an
  `array`;
- `MeetingAssistant` — the client hook `useMeetingAssistant`, as a class
  holding its state and refs, plus a pure reducer for inbound messages;
- `Consumer` — the per-connection WebSocket consumer, as a class with one
  method per message and per periodic tick;
- `AudioProcessing` — the persistent speaker map, the Whisper language-token
  scan, the translation router and the loops of `enrich_transcript_batch`;
- `MongoClient` — manual-insight aggregation, first-occurrence
  de-duplication and the reshaping of meeting documents;
- `Views` — the JSON responses and status codes of the HTTP views;
- `MeetingDetail`, `TaskManager` and `MeetingPage` — the frontend pages'
  derivations and handlers;
- `EditableSpeakerName` and `EditableTitle` — the two inline editors, as
  classes.

Some shared modules support these:

- `Wrappers` provides `Option`;
- `Text` provides decimal rendering, ASCII case, first-occurrence
  `replace`, `split`/`join` and trimming;
- `PyValues` models Python's JSON-like values with their truthiness,
  hashability, `str`, `dict.get` and `strip`;
- `JsValues` models JavaScript values with their truthiness, property
  access, spread and `trim`.

External effects are parameters of the methods and functions that meet them:

- every machine-learning model;
- the Gemini call;
- every MongoDB query result;
- browser outcomes (socket events, microphone access, worklet loading);
- `crypto.randomUUID()` and the clock.

As shipped, the consumer's fast path calls `process_chunk_for_transcription`,
which `AudioProcessor` no longer defines. That call therefore always raises.
`Consumer.MeetingConsumer.FastTick` takes the call's outcome as a parameter,
so every outcome is covered, including this one. With an always-raising call
the fast path never stores a transcript, so the slow path never has work.

## Model

| member | source | states |
|---|---|---|
| AudioFramer.Processor.constructor | public/audio-processor.js:2-7 | The buffer has 4096 slots, the write index is 0 and nothing has been fed or posted yet. |
| AudioFramer.Processor.Process | public/audio-processor.js:9-42 | Always returns true. The samples of the first channel are appended to everything fed so far. The posted frames are exactly the full frames of the old buffer prefix followed by the new samples, and the leftover becomes the new prefix. (k+n) div 4096 frames are posted and the index ends at (k+n) mod 4096. Every message is `audio_data` with 4096 samples, the sample rate and the time. A missing input, empty input or missing channel posts nothing and keeps the index and prefix. |
| AudioFramer.Processor.Store | public/audio-processor.js:22-38 | One turn of the copy loop. The sample is stored, and when the buffer fills, a copy of the whole buffer is posted and the index is reset. The buffer prefix is always the leftover of the stream. |
| AudioFramer.Processor.Lossless | public/audio-processor.js:21-38 | Between calls, all posted frames concatenated and followed by `buffer[0..bufferIndex)` give back every sample ever fed, in order. |
| AudioFramer.FramesLossless | public/audio-processor.js:21-38 | Framing loses nothing and keeps order: frames then leftover reassemble the stream. |
| AudioFramer.FramesShape | public/audio-processor.js:26-37 | A stream of n samples gives n div 4096 frames of exactly 4096 samples each, and leaves n mod 4096 samples behind. |
| AudioFramer.FramesSnoc | public/audio-processor.js:22-37 | One more sample either completes the leftover into a new frame and empties it, or extends the leftover by that sample. |
| MeetingAssistant.NewTranscript | src/hooks/useMeetingAssistant.ts:72-76 | The added transcript carries the fields of `data.data` with a fresh id and the receipt time. |
| MeetingAssistant.Receive | src/hooks/useMeetingAssistant.ts:60-93 | The message reducer. Insights are only ever appended to. The transcript list changes only for a parsed, non-null message. |
| MeetingAssistant.ReceivePreliminary | src/hooks/useMeetingAssistant.ts:70-77 | A `preliminary_transcript` with truthy data appends exactly one transcript. The earlier transcripts and the insights are unchanged. |
| MeetingAssistant.ReceiveEnriched | src/hooks/useMeetingAssistant.ts:78-84 | An `enriched_transcripts` message whose list is an array replaces the whole transcript list with it. It appends the `insights` array when there is one and keeps the insights otherwise. |
| MeetingAssistant.EnrichedReplacesExample | src/hooks/useMeetingAssistant.ts:78-80 | Transcripts A, B followed by enriched [X, Y] leave exactly [X, Y]. |
| MeetingAssistant.ReceiveInsight | src/hooks/useMeetingAssistant.ts:85-86 | An `insight` message appends its `insight` field and nothing else changes. |
| MeetingAssistant.ReceiveIgnored | src/hooks/useMeetingAssistant.ts:85-92 | These leave both lists unchanged: unparsable JSON, a null message, an `error` message and every unmatched shape. A preliminary message or an insight message always changes them. |
| MeetingAssistant.Assistant.constructor | src/hooks/useMeetingAssistant.ts:24-35 | Disconnected, stopped, empty lists, and every ref null. |
| MeetingAssistant.Assistant.Connect | src/hooks/useMeetingAssistant.ts:38-117 | A no-op when the socket is already OPEN. Otherwise the status becomes `connecting` with a new CONNECTING socket, or `error` when the constructor throws. |
| MeetingAssistant.Assistant.OnOpen | src/hooks/useMeetingAssistant.ts:49-58 | Sets `isConnected` and `connected`. The socket is OPEN and the recording state is unchanged. |
| MeetingAssistant.Assistant.OnMessage | src/hooks/useMeetingAssistant.ts:60-93 | The two lists become the reducer's result. Nothing else changes. |
| MeetingAssistant.Assistant.OnClose | src/hooks/useMeetingAssistant.ts:95-104 | Sets `disconnected` and clears `isConnected`. The recording is not stopped, because the captured `isRecording` is false. |
| MeetingAssistant.Assistant.OnError | src/hooks/useMeetingAssistant.ts:106-110 | Sets `error` and clears `isConnected`. |
| MeetingAssistant.Assistant.Disconnect | src/hooks/useMeetingAssistant.ts:119-131 | An active recording is stopped first. That clears the worklet and the stream, and clears the audio context unless it is already closed. Then the socket handle is null and the status is `disconnected`. Without a recording the media handles are unchanged. |
| MeetingAssistant.Assistant.StartRecording | src/hooks/useMeetingAssistant.ts:134-207 | A no-op unless the socket is OPEN and not already recording. Success ends in `recording` holding a stream, a running context and a worklet. Each failure rejects, reverts to `stopped` and keeps whatever handles the failed step had already set. |
| MeetingAssistant.Assistant.OnWorkletMessage | src/hooks/useMeetingAssistant.ts:184-190 | An `audio_data` frame becomes exactly one binary message, in arrival order, while the socket is OPEN. Otherwise it is dropped. |
| MeetingAssistant.Assistant.StopRecording | src/hooks/useMeetingAssistant.ts:209-237 | A no-op when not recording. Otherwise it ends `stopped` with the worklet and the stream cleared. The context handle is cleared only if the context was not already closed. |
| MeetingAssistant.Assistant.OnContextClosed | src/hooks/useMeetingAssistant.ts:223-226 | The browser closing the audio context changes only the context's state. |
| MeetingAssistant.Assistant.ChangeTargetLanguage | src/hooks/useMeetingAssistant.ts:240-244 | Sends `{target_language: name}` exactly when the socket is OPEN. |
| Consumer.LanguageCodesAreMapValues | unisono_backend/assistant/consumer.py:197-203 | The code set is exactly the set of the language map's values. |
| Consumer.ResolveLanguage | unisono_backend/assistant/consumer.py:393-400 | Resolution fails exactly for an unhashable value. Otherwise the result is always one of en, es, zh, fr. |
| Consumer.ResolveLanguageCases | unisono_backend/assistant/consumer.py:393-400 | A code is kept, a language name is mapped, and any other hashable value becomes `'en'`. |
| Consumer.TextCommand | unisono_backend/assistant/consumer.py:389-417 | A command sets the language exactly when the parsed value is a dict whose `target_language` is hashable, and the code it sets is a known one. It is ignored exactly when the key is absent. |
| Consumer.ClientLanguageMessage | unisono_backend/assistant/consumer.py:392-404 | The message the client sends always resolves, and maps a known name to its code. |
| Consumer.Float32Samples | unisono_backend/assistant/consumer.py:364 | A payload of 4m bytes gives m samples, each made of four consecutive bytes. |
| Consumer.Originals | unisono_backend/assistant/consumer.py:305-308 | The original texts, one per item, are produced exactly when every item is a dict whose original is a string. Otherwise this step raises. Entry k is item k's `original_transcript`, or `''` when it has none. |
| Consumer.TranscriptText | unisono_backend/assistant/consumer.py:303-308 | Insight text exists exactly when the value is a list whose originals can all be read. It is those originals joined with newlines. |
| Consumer.EnrichmentReply | unisono_backend/assistant/consumer.py:302-321 | A reply is sent only for a truthy dict result, and it carries that result. |
| Consumer.EnrichmentReplyShape | unisono_backend/assistant/consumer.py:303-310 | Insights are requested only when the joined original text is non-blank, and they are exactly what extraction returned. |
| Consumer.BlankTextNoInsights | unisono_backend/assistant/consumer.py:305-310 | A result whose originals are all empty is sent with no insights. |
| Consumer.MeetingConsumer.constructor | unisono_backend/assistant/consumer.py:206-224 | The target is `'en'` and all three buffers are empty. When `get_audio_processor()` raises, the source never sets these attributes. The difference is not observable: `receive` sets the target before reading it, and the ticks fail before touching the buffers. |
| Consumer.MeetingConsumer.Receive | unisono_backend/assistant/consumer.py:354-419 | Readable binary audio appends exactly one chunk to `audio_buffer` and nothing to the slow-path lists. A bad length or a missing processor appends nothing and replies with the matching error. Invalid JSON replies `Invalid JSON format`. A message without `target_language` changes nothing. A language change sets a known code and replies with it. The target language is always a known code. |
| Consumer.MeetingConsumer.FastTick | unisono_backend/assistant/consumer.py:246-273 | The whole `audio_buffer` is consumed and cleared. On a truthy result, exactly one entry is appended to `recent_transcripts` and one to `long_audio_buffer`, and one preliminary transcript is sent. A failure sends nothing. |
| Consumer.MeetingConsumer.SlowTick | unisono_backend/assistant/consumer.py:287-327 | Runs only when both slow-path lists are non-empty, and clears both before enriching. It sends exactly the enrichment reply when there is one. A failure sends nothing and leaves both lists cleared. |
| AudioProcessing.SpeakerNameInjective | unisono_backend/assistant/audio_processor.py:103 | `SPEAKER_m` and `SPEAKER_n` are equal exactly when m = n. |
| AudioProcessing.NewLabelsFresh | unisono_backend/assistant/audio_processor.py:101-108 | The labels a batch allocates names for are unseen, occur in the batch and are pairwise distinct. |
| AudioProcessing.FirstLanguageSpec | unisono_backend/assistant/audio_processor.py:143-147 | The detected language is the inside of the first token of the form `<|..|>` longer than 4, and `'en'` when there is none. |
| AudioProcessing.DetectLanguage | unisono_backend/assistant/audio_processor.py:142-147 | The scan loop with `break` computes that language. |
| AudioProcessing.Route | unisono_backend/assistant/audio_processor.py:176-224 | The router returns something other than the original only when the source is a string differing from the target. |
| AudioProcessing.RouteSameLanguage | unisono_backend/assistant/audio_processor.py:186-189 | When the source equals the target, the original is returned whatever models and translator are given: none is consulted. |
| AudioProcessing.RouteDirect | unisono_backend/assistant/audio_processor.py:192-196 | With a direct pair, only that translation matters, and its result is returned. |
| AudioProcessing.RoutePivot | unisono_backend/assistant/audio_processor.py:198-221 | A missing or failed source-to-English step returns the original. A missing or failed English-to-target step returns the English text. Otherwise the second translation is returned. |
| AudioProcessing.RouteRaised | unisono_backend/assistant/audio_processor.py:222-224 | When every translation raises, the original is returned. |
| AudioProcessing.EnrichEntry | unisono_backend/assistant/audio_processor.py:160-167 | An entry is enriched exactly when it is a dict. |
| AudioProcessing.EnrichEntryFields | unisono_backend/assistant/audio_processor.py:160-167 | The entry keeps every other field and gains `translated_transcript`. A missing original reads as `''` and a missing language as `'en'`. |
| AudioProcessing.SegmentTranscript | unisono_backend/assistant/audio_processor.py:122-158 | A generated transcript carries the segment's persistent speaker, an original and a language. Without Whisper output these are `''` and `'en'`. |
| AudioProcessing.AudioProcessor.constructor | unisono_backend/assistant/audio_processor.py:84-86 | Empty speaker map, next id 1. |
| AudioProcessing.AudioProcessor.ValuesAreAllocatedNames | unisono_backend/assistant/audio_processor.py:85-108 | The map's values are exactly SPEAKER_1 .. SPEAKER_{next-1}. |
| AudioProcessing.AudioProcessor.Injective | unisono_backend/assistant/audio_processor.py:101-108 | No two labels share a persistent name. |
| AudioProcessing.AudioProcessor.MapLabel | unisono_backend/assistant/audio_processor.py:102-107 | An unseen label gets `SPEAKER_<next>` and the counter grows by 1. A seen label reuses its name and the counter is unchanged. No existing mapping changes. |
| AudioProcessing.AudioProcessor.AssignSpeakers | unisono_backend/assistant/audio_processor.py:101-114 | Every turn gets its label's persistent name, in a row of the same order. Names are allocated for the new labels in order of first appearance. Old mappings are kept and the map gains exactly the batch's labels. |
| AudioProcessing.AudioProcessor.GenerateTranscripts | unisono_backend/assistant/audio_processor.py:120-158 | One generated transcript per segment, in order. |
| AudioProcessing.AudioProcessor.Transcribe | unisono_backend/assistant/audio_processor.py:122-158 | The body of the generation loop builds exactly the specified transcript of one segment. |
| AudioProcessing.AudioProcessor.TranslateAll | unisono_backend/assistant/audio_processor.py:160-167 | The translation loop succeeds exactly when every entry is a dict. The result then has the same length and order, and each entry is enriched. |
| AudioProcessing.AudioProcessor.EnrichTranscriptBatch | unisono_backend/assistant/audio_processor.py:89-174 | With a given list, the result exists exactly when every transcript is a dict, and it holds the enriched list in order. Without a list it always exists, and holds the enriched transcripts generated per turn with the turn's persistent speaker, or nothing without a diarization. `diarization_result` holds one row per turn with its persistent name, or `[]` without a diarization. The speaker counter grows by the number of new labels. No mapping changes, and the map gains exactly the batch's labels. |
| MongoClient.Elements | unisono_backend/assistant/mongodb_client.py:138 | What `extend` adds: a list's items, or a string's characters. It raises for any other value except an empty dict. |
| MongoClient.CollectedAppend | unisono_backend/assistant/mongodb_client.py:136-142 | The aggregate of concatenated document lists is the concatenation of the aggregates: find order is kept. |
| MongoClient.CollectedFails | unisono_backend/assistant/mongodb_client.py:136-142 | Aggregation raises exactly when some document's `extend` raises. |
| MongoClient.FirstOccurrencesAscending | unisono_backend/assistant/mongodb_client.py:150-163 | De-duplication keeps the relative order. |
| MongoClient.FirstOccurrencesFirst | unisono_backend/assistant/mongodb_client.py:150-163 | Every kept item is the first occurrence of its key. |
| MongoClient.FirstOccurrencesKept | unisono_backend/assistant/mongodb_client.py:150-163 | Every first occurrence is kept. |
| MongoClient.FirstOccurrencesDistinct | unisono_backend/assistant/mongodb_client.py:150-163 | No two kept items share a key. |
| MongoClient.FirstOccurrencesComplete | unisono_backend/assistant/mongodb_client.py:150-163 | Every key of the input appears in the output, at or before its position. |
| MongoClient.UniqueBy | unisono_backend/assistant/mongodb_client.py:150-172 | The `seen`-set loop computes exactly the first-occurrence selection. It raises when a key does. |
| MongoClient.TextKey | unisono_backend/assistant/mongodb_client.py:152 | An item's key exists exactly when it is a dict with a hashable `text`. |
| MongoClient.TaskKey | unisono_backend/assistant/mongodb_client.py:168 | A task key exists exactly when the task is a dict with a `text`. A missing assignee or deadline reads as `''`. |
| MongoClient.SameKeyDropped | unisono_backend/assistant/mongodb_client.py:166-172 | Of two items with the same key, only the first is kept. |
| MongoClient.TaskKeyCollision | unisono_backend/assistant/mongodb_client.py:168-171 | Two different tasks, with text `a_b` and with text `a` plus assignee `b_`, share a key, so the second is dropped. |
| MongoClient.Aggregated | unisono_backend/assistant/mongodb_client.py:125-175 | The aggregate has exactly the five keys. `meeting_id` is the query's id, and `timestamp` is the first document's or `''`. |
| MongoClient.ManualInsights | unisono_backend/assistant/mongodb_client.py:114-179 | A failed query, no documents or any exception give `{}`. Otherwise the result is the aggregate. |
| MongoClient.AggregatedLists | unisono_backend/assistant/mongodb_client.py:136-172 | Each returned list is the de-duplication of that list concatenated over the documents. Key points and decisions use `text` as the key, and tasks use the task key. |
| MongoClient.ManualInsightsExtendRaises | unisono_backend/assistant/mongodb_client.py:136-142 | One document whose list cannot be extended makes the whole result `{}`. |
| MongoClient.Aggregate | unisono_backend/assistant/mongodb_client.py:136-142 | The `extend` loop computes the three concatenations, or fails exactly when one of them does. |
| MongoClient.GetManualInsights | unisono_backend/assistant/mongodb_client.py:114-179 | The imperative aggregation and de-duplication returns exactly the specified aggregate. |
| MongoClient.Reshape | unisono_backend/assistant/mongodb_client.py:229-237 | A reshaped meeting has status `completed` and a string `_id`. It gains `start_time` exactly when `created_at` exists, and `end_time` exactly when `ended_at` is truthy. Every other field is kept. Reshaping raises exactly when `_id` is missing or a date to format is not a datetime. |
| MongoClient.GetAllMeetings | unisono_backend/assistant/mongodb_client.py:219-242 | Every document is reshaped in place, in query order. A failed query or one failing document gives `[]`. |
| MongoClient.GetMeetingById | unisono_backend/assistant/mongodb_client.py:244-267 | A malformed id, a failed query or a missing meeting gives None. A found meeting is reshaped, and an empty document is returned as it is. |
| Views.DictBody | unisono_backend/assistant/views.py:101-105 | The body reads as a dict exactly when it parses to a JSON object. Otherwise the result is the exception's message. |
| Views.GetMeetingHistory | unisono_backend/assistant/views.py:16-29 | Makes one client call. Success is 200 with the meetings, and an exception is 500 with its message. |
| Views.GetMeetingDetail | unisono_backend/assistant/views.py:33-61 | A falsy meeting gives 404 `Meeting not found` and fetches no recordings. The status is 200 exactly when all three calls return and the meeting is truthy, and the body then holds meeting, recordings and `manual_insights`. Any other response is 404 or 500 with `success` false. |
| Views.DeleteMeeting | unisono_backend/assistant/views.py:64-94 | OPTIONS gives the three CORS headers with no client call. DELETE gives 200 exactly when the client reports a truthy result, and 500 otherwise. Every other method gives 405 with no call. |
| Views.MeetingData | unisono_backend/assistant/views.py:104-109 | Title defaults to `Untitled Meeting` and both languages to `en`. The status is always `active`. |
| Views.SaveMeeting | unisono_backend/assistant/views.py:98-129 | 200 with the id exactly when the body is an object and the client returns a truthy id. Otherwise 500. |
| Views.RecordingData | unisono_backend/assistant/views.py:139-146 | The ids default to None, transcripts and insights to `[]`, the target to `en` and the duration to 0. |
| Views.SaveRecording | unisono_backend/assistant/views.py:133-166 | 200 with the id exactly when the body is an object and the client returns a truthy id. Otherwise 500. |
| Views.EndMeeting | unisono_backend/assistant/views.py:170-191 | 200 exactly when the client reports a truthy result. Otherwise 500 with `Failed to end meeting` or the exception's message. |
| MeetingDetail.Flat | src/pages/MeetingDetail.tsx:56-66 | The flattened list has as many entries as the export's `Total Transcripts`: the sum of the transcript counts. |
| MeetingDetail.FlatAt | src/pages/MeetingDetail.tsx:56-66 | Transcript t of recording r lands at offset(r) + t: ordered by recording, then by transcript. |
| MeetingDetail.FlatCovers | src/pages/MeetingDetail.tsx:56-66 | Every entry comes from exactly one stored transcript. |
| MeetingDetail.OffsetInjective | src/pages/MeetingDetail.tsx:56-66 | Transcripts of earlier recordings come strictly before those of later ones. |
| MeetingDetail.PairIdInjective | src/pages/MeetingDetail.tsx:58 | The ids `r-t` are equal exactly when both indices are. |
| MeetingDetail.SpeakerInitialsOf | src/pages/MeetingDetail.tsx:60 | `SPEAKER_n` becomes `Sn`, and a label without `SPEAKER_` is unchanged. |
| MeetingDetail.TranslatedMessagesAt | src/pages/MeetingDetail.tsx:53-67 | One message per stored transcript, ordered by recording then transcript, with the id `r-t` and the recording's time. |
| MeetingDetail.TranslatedMessageIdsDistinct | src/pages/MeetingDetail.tsx:56-66 | The ids of `translatedMessages` are pairwise distinct. |
| MeetingDetail.ViewsAlign | src/pages/MeetingDetail.tsx:298-320 | `allMessages`, `allTranslations` and `translatedMessages` have equal length and agree on text and initials at each position. A message's id is the stored one when it is truthy and a fresh uuid otherwise. |
| MeetingDetail.TranslationFallback | src/pages/MeetingDetail.tsx:310-320 | A missing translation falls back to the original in `translatedMessages` but to `''` in `allTranslations`. |
| MeetingDetail.OfType | src/pages/MeetingDetail.tsx:323-330 | The selection keeps only insights of the requested type. |
| MeetingDetail.OfTypeAppend | src/pages/MeetingDetail.tsx:322-330 | Selection distributes over concatenation, so order is preserved. |
| MeetingDetail.SplitPartitions | src/pages/MeetingDetail.tsx:322-337 | Every insight lands in exactly one of key points, decisions or tasks, or is dropped. |
| MeetingDetail.SplitInsights | src/pages/MeetingDetail.tsx:322-337 | The split fails exactly when an insight is null or undefined. Otherwise each list maps its selection in order, taking the text from `point`, `decision` or `task`, and every item is tagged `ai`. A task takes its `assignee`. Its id is its own `id` when truthy and a fresh uuid otherwise. It gets a deadline exactly when `due_date` is truthy. |
| MeetingDetail.LanguageLabel | src/pages/MeetingDetail.tsx:114-122 | en/es/fr/zh map to their names, and any other code is returned unchanged. |
| MeetingDetail.TranslationWrittenIffShown | src/pages/MeetingDetail.tsx:217 | The export writes a translation exactly when the translated message shows text different from the original. |
| MeetingDetail.Sanitize | src/pages/MeetingDetail.tsx:250 | The stem has the title's length. ASCII letters and digits are kept and every other character becomes `_`. |
| MeetingDetail.SanitizeIdempotent | src/pages/MeetingDetail.tsx:250 | Sanitizing twice changes nothing more, and the stem uses only letters, digits and `_`. |
| MeetingDetail.ExportFileName | src/pages/MeetingDetail.tsx:250 | The name is stem + `_` + the date part + `.pdf`. The stem is `meeting` for no meeting or an empty title. There is no name exactly when the title is not a string. |
| MeetingDetail.ExportFileNameStem | src/pages/MeetingDetail.tsx:250 | A non-empty title gives its sanitized stem, and an empty title gives the same name as no meeting. |
| MeetingDetail.TitleText | src/pages/MeetingDetail.tsx:153 | The PDF heading is the title when it is truthy, and `Meeting Transcript` otherwise. |
| TaskManager.StatusChange | src/pages/TaskManager.tsx:83-96 | Same length and order. Only the status of tasks with the matching id changes, and every other field stays. |
| TaskManager.PriorityChange | src/pages/TaskManager.tsx:98-111 | Same length and order. Only the priority of tasks with the matching id changes. |
| TaskManager.UpdatesWithoutMatch | src/pages/TaskManager.tsx:84-90 | An id no task carries leaves the list unchanged, and repeating an update changes nothing more. |
| TaskManager.UpdatesCommute | src/pages/TaskManager.tsx:83-111 | A status update and a priority update commute. |
| TaskManager.PriorityColor | src/pages/TaskManager.tsx:114-125 | Each known priority gets its class. The gray default goes exactly to the other values. |
| TaskManager.StatusColor | src/pages/TaskManager.tsx:128-139 | `completed` is green and `in-progress` is yellow. Gray goes exactly to everything else, pending included. |
| TaskManager.PriorityColorsDistinct | src/pages/TaskManager.tsx:114-125 | High, medium and low have pairwise distinct classes. |
| TaskManager.Capitalize | src/pages/TaskManager.tsx:197 | Same length, with the first letter upper-cased and the rest kept. |
| TaskManager.StatusLabelPointwise | src/pages/TaskManager.tsx:222-225 | The label has the status's length. Each dash becomes a space and each dash-separated word is capitalized. |
| TaskManager.InProgressLabel | src/pages/TaskManager.tsx:222-225 | `in-progress` is shown as `In Progress`. |
| MeetingPage.NumberedIdsDistinct | src/pages/Meeting.tsx:105 | Ids numbered by position are pairwise distinct. |
| MeetingPage.UpperCase | src/pages/Meeting.tsx:124 | Same length, upper-cased character by character. |
| MeetingPage.Page.constructor | src/pages/Meeting.tsx:84-91 | Recording is on, the languages are en and es, and the page holds the two sample tasks. |
| MeetingPage.Page.ToggleRecording | src/pages/Meeting.tsx:94-102 | Negates `isRecording` and toasts the matching message. The rest is untouched. |
| MeetingPage.ToggleTwice | src/pages/Meeting.tsx:94-102 | Toggling twice restores the flag. |
| MeetingPage.Page.AddTask | src/pages/Meeting.tsx:104-118 | Appends exactly one task with id length+1, the default text and assignee, and a three-day deadline. Ids stay numbered by position. |
| MeetingPage.Page.ChangeSourceLanguage | src/pages/Meeting.tsx:120-126 | Sets only the source language, and toasts its upper-cased code. |
| MeetingPage.Page.ChangeTargetLanguage | src/pages/Meeting.tsx:128-134 | Sets only the target language, and toasts its upper-cased code. |
| EditableSpeakerName.Editor.constructor | src/components/EditableSpeakerName.tsx:19-20 | Starts not editing, with the draft equal to the name. |
| EditableSpeakerName.Editor.Rerender | src/components/EditableSpeakerName.tsx:13-20 | A new name prop leaves the draft as it was. |
| EditableSpeakerName.Editor.EditClick | src/components/EditableSpeakerName.tsx:30-32 | Enters editing without touching the draft. |
| EditableSpeakerName.Editor.Type | src/components/EditableSpeakerName.tsx:64 | Typing sets the draft, only while editing. |
| EditableSpeakerName.Editor.Save | src/components/EditableSpeakerName.tsx:34-41 | A non-blank draft reaches the parent once, trimmed. A blank draft makes no call and resets to the name. Either way editing ends. Every name passed on is trimmed and non-empty. |
| EditableSpeakerName.Editor.SaveClick | src/components/EditableSpeakerName.tsx:68-73 | The check button saves while editing. It does not exist otherwise. |
| EditableSpeakerName.Editor.KeyDown | src/components/EditableSpeakerName.tsx:43-50 | Enter behaves exactly like save. Escape resets the draft and leaves editing with no call. Other keys change nothing. |
| EditableTitle.Editor.constructor | src/components/EditableTitle.tsx:10-12 | Starts not editing, with the displayed title equal to the prop. |
| EditableTitle.Editor.Rerender | src/components/EditableTitle.tsx:10-12 | A new title prop leaves the displayed title as it was. |
| EditableTitle.Editor.Click | src/components/EditableTitle.tsx:48-51 | Clicking the heading enters editing. |
| EditableTitle.Editor.Type | src/components/EditableTitle.tsx:42 | Typing sets the displayed title, only while editing. |
| EditableTitle.Editor.KeyDown | src/components/EditableTitle.tsx:22-30 | Enter leaves editing and commits the untrimmed title. Escape leaves editing and restores the prop with no commit. Other keys change nothing. |
| EditableTitle.Editor.Blur | src/components/EditableTitle.tsx:32-35 | Blur leaves editing and commits the current title. |
| PyValues.Strip | unisono_backend/assistant/audio_processor.py:148 | The result is a slice of the input with no whitespace at either end. It is empty exactly when the input is all whitespace. |
| JsValues.Trim | src/components/EditableSpeakerName.tsx:35-36 | The result is a slice of the input with no JavaScript whitespace at either end. It is empty exactly when the input is all whitespace. |
| JsValues.TrimIdempotent | src/components/EditableSpeakerName.tsx:35-36 | Trimming twice trims nothing more. |
| Text.NatToStringInjective | src/pages/Meeting.tsx:105 | Distinct numbers have distinct decimal renderings. |
| Text.ReplaceFirstAt | src/pages/MeetingDetail.tsx:60 | `replace` with a string pattern splices over the first occurrence only. |

## Left out

- Browser APIs are not modelled: WebSocket transport, `getUserMedia`, `AudioContext`, `addModule` and the worklet port. Their outcomes are method parameters or handler calls. The model does not cover the interleaving of the awaited steps of `startRecording` with other handlers, nor events of a socket that has since been replaced.
- The automatic `startRecording` scheduled by `onopen` is left out. It runs through a callback captured at first render, and its effect depends on React's scheduling.
- AudioFramer.Processor.Process: for an input that posts nothing, the contract keeps the index and the live prefix `buffer[0..bufferIndex)`. It does not say that slots past the index are untouched, because those slots are never read before they are overwritten.
- Sample values are opaque everywhere. Float32 conversion, `np.concatenate` on floats and the second-to-sample index conversion of diarization segments are not modelled.
- The consumer's asyncio machinery is left out: task creation, `sleep` loops, cancellation in `disconnect`, and `receive` interleaving with the ticks. Each tick is one atomic step. The `Empty audio data received` reply is unreachable, because empty bytes are falsy, so it has no model.
- The models are parameters of the calls that use them rather than part of this model: model loading, pyannote diarization, Whisper, the Helsinki translation models and `_translate_text`.
- The Gemini insight extraction is a function parameter. It is a network call to a language model.
- A diarization that raises part-way, after some turns are mapped, is not modelled. `EnrichTranscriptBatch` takes either all turns or none.
- Whisper's token list usually begins with `<|startoftranscript|>`, which the scan accepts as a language token. The model follows the scan as written and does not model the tokenizer.
- The pymongo plumbing is left out: connection, credentials, and the insert, update and delete calls. Query results are inputs, and `get_recordings_by_meeting_id` is a parameter of the detail view.
- MongoClient.GetMeetingById: `ObjectId(meeting_id)` takes a 24-character string and decodes it with `bytes.fromhex`. The model accepts exactly 24 hexadecimal digits. `bytes.fromhex` also skips ASCII whitespace between digit pairs, so a 24-character id containing spaces is queried by the driver but yields None in the model without a query.
- MongoClient.Elements: iterating a non-empty dict yields its keys, which are strings, and the subsequent `['text']` then raises. The model folds that case into "extend raises", so the order of dict keys is never needed.
- MongoClient de-duplication compares keys with Dafny equality. Python's cross-type numeric equality, such as `1 == 1.0 == True` as set members, is not modelled.
- `str()` of floats, lists, dicts and other values is a parameter. Only strings, ints, None, booleans and ObjectIds are rendered.
- Django framework details are not modelled: decorators, `JsonResponse` serialisation, the routing table and `require_http_methods` rejections.
- PDF layout in the detail page's export is not modelled: jsPDF drawing, fonts, images and pagination. Neither are `formatDate` and `fetchMeetingDetail`.
- MeetingDetail.ExportFileName: when a meeting has no string title, `meeting?.title.replace` throws and the export fails. The model then returns None, rather than the stem `meeting` that only applies when there is no meeting or an empty title.
- MeetingDetail.LanguageLabel: codes that name inherited `Object.prototype` properties, such as `constructor`, are not modelled.
- The `translatedMessages` effect runs only when there are recordings, so an emptied list keeps the previous messages. The model describes the value the effect computes.
- MeetingDetail.SplitInsights: a task's deadline is the `due_date` value itself; the `Date` constructed from it is not modelled.
- Stored `speaker_label` values are strings, as the backend writes them. `crypto.randomUUID()` and `Date.now()` are parameters.
- Text.ToUpper upper-cases ASCII letters only. `toUpperCase` on other letters and UTF-16 code units (a non-BMP character is two units for `replace`) are not modelled.
- TaskManager's sample data and toasts are not modelled. Its `as` casts do not check values, so status and priority are any strings.
- EditableTitle: a blur that the browser fires when the input unmounts after Enter or Escape is not modelled. Only an explicit `Blur` step commits.
- Presentational pages and components, mock-data pages, type declarations, scripts and tests have no logic to verify and are not part of this model.
