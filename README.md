# Whispr-TM meeting capture and AI post-processing, in Dafny

This project models the logic core of Whispr-TM, a meeting assistant that
records a meeting's audio in the browser, has a generative model transcribe
it chunk by chunk, and shows the transcript, a summary, action items and
insights. The model covers four parts of the system.

- **Chunked capture** (`capture.dfy`, module `Capture`). This is the
  `AudioTranscriptionService` class. It picks the first supported recording
  format from a fixed preference list. It acquires the display and microphone
  streams and runs 6-second recorder cycles. A cycle's chunk is dropped when it
  is below 8000 bytes, and otherwise sent for transcription. Each usable
  transcription is emitted as one segment. `stopRecording` releases everything
  the service holds. Streams, recorders and timers are opaque handles. Every
  request the service makes of the outside world is appended to a `trace` of
  effects: start or stop a recorder, set or clear a timer, stop a stream's
  tracks, transcribe a chunk, call the update callback. Browser events are
  methods that the environment calls: a data fragment, a recorder's stop
  event, the timer firing.
- **AI answer post-processing** (`ai.dfy`, module `Ai`, all pure functions).
  This covers the cleanup of a transcription answer: anchored,
  case-insensitive prefix stripping; apology removal; `trim`; and the
  "unable to transcribe" check. It also covers the classification of model
  errors, the summary fallback and the action-item line filter. For insights
  it covers JSON fence and prose stripping, the structure check and the
  sentiment repair. Whether a model client exists is a boolean. The model's
  answer text, or the error it threw, is an input.
- **Transcript component** (`transcript.dfy`, module `Transcript`). This is the
  state of the meeting transcript component: order-preserving appends, clear,
  the saves, and the record/stop toggle. The toggle creates the capture
  service lazily, once.
- **Past meetings page** (`past_meetings.dfy`, module `PastMeetings`). This
  covers the fetch outcome, including the not-logged-in branch. It also covers
  the case-insensitive search filter and the "Untitled Meeting" fallback.

There are three supporting modules. `Strings` models the JavaScript string
operations used, on `seq<char>`: `trim` with ECMAScript's white-space set,
ASCII case folding, `includes`, `indexOf`, `lastIndexOf`, one-character
`split` and `join`. `Sequences` models `filter` and order-preserving
subsequences. `Wrappers` models `Option`, standing for `null`/`undefined`.

Two behaviours of the code are worth knowing:

- A chunk under 8000 bytes returns from the `onstop` handler before the
  restart check at app/utils/audioTranscription.ts:118-120 (the return is at
  :89-92). So one quiet window ends the chain of recorders. `OnStop` models
  this as written. `OnStopKeepingChain` is the intended handler (see Findings).
- After `stopRecording` the stopped recorder still delivers its stop event.
  A final chunk of 8000 bytes or more that arrives then is still transcribed
  and emitted. Only the next cycle is suppressed.

## Model

| member | source | states |
|---|---|---|
| Capture.FirstSupportedFound | app/utils/audioTranscription.ts:31-34 | None iff no listed type is supported; otherwise a supported entry of the list |
| Capture.FirstSupportedIsFirst | app/utils/audioTranscription.ts:31-34 | the chosen format is the supported entry with no supported entry before it |
| Capture.AudioTranscriptionService.GetSupportedMimeType | app/utils/audioTranscription.ts:22-35 | the loop with early return yields the first of the six types the platform supports, None (the "No supported audio format found." throw) iff none is |
| Capture.CheckBrowserSupport | app/utils/audioTranscription.ts:37-40 | no error iff both APIs exist; a missing getUserMedia is reported before a missing MediaRecorder, with their fixed messages |
| Capture.StartFailure | app/utils/audioTranscription.ts:42-69 | what startRecording rethrows, in order: feature checks, display refusal, microphone refusal, no format; None iff both streams are granted and a format exists |
| Capture.AudioTranscriptionService.RequestStreams | app/utils/audioTranscription.ts:43-62 | the support check, the display request and the microphone request, each only after the one before succeeded; no error iff both are granted, otherwise startRecording's failure; the streams granted before the failure stay held; the flag is set iff both are granted |
| Capture.AudioTranscriptionService.StartRecording | app/utils/audioTranscription.ts:42-70 | the thrown value is StartFailure's; on success both streams, the mixed stream, a fresh recording recorder and one 6 s timer are held; on any failure (a granted display with a refused microphone included) the stopped state is reached and exactly what was held is released |
| Capture.AudioTranscriptionService.StartNewRecorder | app/utils/audioTranscription.ts:72-127 | no mixed stream: nothing changes and nothing is started; no format: throws before creating anything; otherwise a fresh recorder is started in the chosen format at 128000 bit/s and a 6000 ms timer is set |
| Capture.ChunkRecorder.OnDataAvailable | app/utils/audioTranscription.ts:82-84 | a fragment is appended iff its size is positive, so every collected fragment is non-empty |
| Capture.AudioTranscriptionService.OnStop | app/utils/audioTranscription.ts:86-121 | no format or a chunk under 8000 bytes: nothing at all happens (no transcription, no next recorder); otherwise one Transcribe effect, at most one update of one segment, the buffer reset after it, and a next recorder iff still recording |
| Capture.AudioTranscriptionService.Deliver | app/utils/audioTranscription.ts:100-116 | the chunk is sent for transcription; a usable transcription is pushed, the buffer joined by " " is handed over as one segment, and the buffer is reset; anything else leaves the buffer and the callback untouched |
| Capture.Emitted | app/utils/audioTranscription.ts:102 | a transcription is buffered iff it was returned and is not blank; a thrown error is swallowed |
| Capture.EmittedTranscription | app/utils/audioTranscription.ts:101-102 | for transcribeAudio's outcomes, emitted iff a non-empty string is returned; what is emitted is trimmed and free of "unable to transcribe"; with AI disabled nothing is emitted |
| Capture.EmptyBufferEmitsTranscription | app/utils/audioTranscription.ts:103-110 | with the buffer empty, the one emitted segment's text is the transcription itself |
| Capture.AudioTranscriptionService.ContinueChain | app/utils/audioTranscription.ts:118-120 | while recording, a fresh recorder in the chosen format and the next numbered timer follow; otherwise nothing changes |
| Capture.AudioTranscriptionService.OnTimer | app/utils/audioTranscription.ts:124-126 | the current recorder, if any, is stopped and its chunks kept |
| Capture.AudioTranscriptionService.StopRecording | app/utils/audioTranscription.ts:141-178 | the stopped state (not recording, recorder, timer and all three streams null); the effects are Released of what was held; on a stopped service nothing is asked |
| Capture.Released | app/utils/audioTranscription.ts:141-178 | the release effects are empty iff nothing is held, and there are at most five |
| Capture.ReleasedStopsEachHeldOnce | app/utils/audioTranscription.ts:141-178 | a live recorder is stopped once, the timer cleared once, and a stream's tracks stopped once per field holding it |
| Capture.AudioTranscriptionService.IsCurrentlyRecording | app/utils/audioTranscription.ts:180-182 | the recording flag; while it is true a mixed stream is held |
| Capture.AudioTranscriptionService.OnStopKeepingChain | app/utils/audioTranscription.ts:86-121 | corrected handler: while recording (and a format exists) a fresh live recorder and timer follow every chunk, silent or not; a silent chunk is still not transcribed |
| Capture.SilentChunkEndsCapture | app/utils/audioTranscription.ts:89-92 | as written, after one empty chunk the service still reports recording while no recorder is live |
| Capture.SilentChunkKeepsCapture | app/utils/audioTranscription.ts:118-120 | with the corrected handler the same run ends with a live recorder |
| Ai.TranscribeAudio | app/utils/ai.ts:24-78 | no client: throws "AI features are disabled."; a model answer never throws and returns its transcription text; a thrown model error becomes "Audio too long or in unsupported format." iff its message contains "400", and every other error (429, quota, no message) returns ""; a returned value is "" or trimmed without "unable to transcribe" in any case |
| Ai.Cleanup | app/utils/ai.ts:51-58 | the six replacements and the trim never lengthen the answer, and the result neither starts nor ends with white space |
| Ai.TranscriptionText | app/utils/ai.ts:58-66 | non-empty iff the cleaned answer is non-empty and its lower-casing does not contain "unable to transcribe", and then it is exactly the cleaned answer; so the result is "" or trimmed and marker-free |
| Ai.PlainAnswerTranscribed | app/utils/ai.ts:51-66 | an answer with none of the six phrases at its start, a non-blank trim and no marker is returned trimmed and otherwise unchanged |
| Ai.ColonOnLine | app/utils/ai.ts:52 | the lazy `.*?:` stops at the first ':' on the first line; None iff every ':' is preceded by a line terminator |
| Ai.HeresStripsToFirstColon | app/utils/ai.ts:52 | "Here's" is stripped up to and including the first colon of the first line, and no further |
| Ai.CleanupKeepsASuffix | app/utils/ai.ts:52-54 | the three prefix strips only remove text at the start: they leave a suffix of the answer |
| Ai.NoBoilerplateOnlyTrims | app/utils/ai.ts:51-58 | an answer that starts with none of the six phrases is only trimmed, even if a phrase occurs later |
| Ai.NoBoilerplateBeforeI | app/utils/ai.ts:52-54 | an answer starting with 'i' or 'I' passes the three prefix strips unchanged |
| Ai.ApologyIsSilence | app/utils/ai.ts:55-63 | a one-line answer starting, in any case, with one of the three apologies yields "" |
| Ai.UnableCleanedAway | app/utils/ai.ts:55 | a one-line "I'm unable to transcribe…" cleans to "" |
| Ai.NoAccessCleanedAway | app/utils/ai.ts:56 | a one-line "I don't have access…" cleans to "" |
| Ai.NeedAudioCleanedAway | app/utils/ai.ts:57 | a one-line "I need the audio…" cleans to "" |
| Ai.SummarizeTranscriptChunk | app/utils/ai.ts:80-95 | never ""; "AI unavailable." without a client, "Failed to clean this segment." on a model error, otherwise the trimmed answer or "No meaningful content found." when it is blank |
| Ai.ExtractActionItems | app/utils/ai.ts:129-142 | the fixed one-item lists without a client or on error; otherwise pieces free of '\n' that are not blank |
| Ai.ActionItemsAreTheNonBlankLines | app/utils/ai.ts:137 | the items are an order-preserving selection of the '\n'-separated lines, holding each non-blank line as often as it occurs and no blank line, untrimmed; the lines join back to the answer |
| Ai.StripFences | app/utils/ai.ts:183 | the fence replacement never lengthens the text |
| Ai.NoTickKeptWhole | app/utils/ai.ts:183 | a text without a backtick is kept whole by the fence replacement |
| Ai.NoFenceLeft | app/utils/ai.ts:183 | after the global fence replacement no "```" is left, including one formed by the removals |
| Ai.BraceSpan | app/utils/ai.ts:184-185 | the span from the first '{' to the last '}' is "" or starts with '{' and ends with '}' |
| Ai.CutToBraces | app/utils/ai.ts:184-185 | the two anchored replacements together cut the text down to exactly its brace span |
| Ai.CleanJson | app/utils/ai.ts:182-186 | the cleaned JSON is the brace span of the fence-stripped answer, so it is "" or starts with '{' and ends with '}' |
| Ai.NormalizeSentiment | app/utils/ai.ts:196-199 | the sentiment is always positive, neutral or negative; an allowed string is kept and anything else becomes "neutral" |
| Ai.Validate | app/utils/ai.ts:191-201 | accepted iff the sentiment is truthy and keyTopics and decisions are arrays; the arrays are kept and the sentiment is repaired |
| Ai.GenerateMeetingInsights | app/utils/ai.ts:144-216 | the sentiment is always allowed; no client gives the "AI unavailable" record; a model error gives the "Could not analyze" record |
| Ai.InsightsFromParsedAnswer | app/utils/ai.ts:188-214 | a parsed answer passing the structure check keeps its topics and decisions and its allowed sentiment (else "neutral"); a failed parse or check gives the "Could not analyze" record |
| Strings.IndexOfIsFirst | app/utils/ai.ts:184 | the first-occurrence search finds nothing iff the character is absent, and no occurrence comes before the position it finds |
| Strings.LastIndexOfIsLast | app/utils/ai.ts:185 | the last-occurrence search finds nothing iff the character is absent, and no occurrence comes after the position it finds |
| Strings.JoinSplit | app/utils/ai.ts:137 | splitting on one character and joining with it gives the text back |
| Strings.ContainsIff | app/routes/past-meetings.tsx:53-54 | `includes` holds iff the substring occurs at some index |
| Transcript.Appended | app/components/dashboard/meeting/MeetingTranscript.tsx:43 | the old transcript is an unchanged prefix and the new segments follow it, in order |
| Transcript.MeetingTranscript.HandleTranscriptionUpdate | app/components/dashboard/meeting/MeetingTranscript.tsx:42-44 | the new local transcript is the old one followed by the new segments |
| Transcript.ApplyUpdatesAppends | app/components/dashboard/meeting/MeetingTranscript.tsx:42-44 | any run of updates yields the old transcript followed by all new segments in arrival order, nothing dropped, merged or reordered |
| Transcript.UpdatesInAppend | app/utils/audioTranscription.ts:105-110 | the callback batches of a growing trace are those before plus those of the new effects |
| Transcript.NextChunkHasNoBatches | app/utils/audioTranscription.ts:123-126 | starting the next recorder and timer hands the update callback nothing |
| Transcript.ChunkBatches | app/utils/audioTranscription.ts:89-113 | with the buffer empty, one chunk hands the callback a single one-segment batch holding the transcription when the chunk is sent and a transcription is emitted, and nothing otherwise |
| Transcript.HandlerBatches | app/utils/audioTranscription.ts:86-121 | across one stop handler, whatever follows the chunk's effects, the callback's batches grow by exactly that chunk's batch |
| Transcript.MeetingTranscript.SaveTranscriptUpdate | app/components/dashboard/meeting/MeetingTranscript.tsx:28-34 | the write is attempted for the event; success or failure, no local state changes |
| Transcript.MeetingTranscript.ClearTranscript | app/components/dashboard/meeting/MeetingTranscript.tsx:46-61 | the local transcript is [] and [] is written; on success a running recording is stopped and the flag cleared; on failure the error is "Failed to clear transcript" and the recording is untouched |
| Transcript.ToggleErrorText | app/components/dashboard/meeting/MeetingTranscript.tsx:80 | an Error's message, else "Failed to toggle recording" |
| Transcript.MeetingTranscript.ToggleRecording | app/components/dashboard/meeting/MeetingTranscript.tsx:63-83 | the error is cleared first; the service is created at most once and reused; a start sets the flag iff it does not throw, and a throw shows its text and leaves the service stopped; a stop clears the flag and stops the service |
| PastMeetings.ToMeeting | app/routes/past-meetings.tsx:40 | the listed id is the data's own id when present, else the document id; title and summary are kept |
| PastMeetings.FetchMeetings | app/routes/past-meetings.tsx:21-47 | loading always ends; no stored user: "You must be logged in to view past meetings." and an empty list; a failed query shows its message, or "Failed to load past meetings." when it is missing or empty, and keeps the earlier list |
| PastMeetings.Matches | app/routes/past-meetings.tsx:52-54 | a meeting with neither a title nor a summary never matches, whatever the query |
| PastMeetings.FilterMeetings | app/routes/past-meetings.tsx:51-55 | every kept meeting matches the query and comes from the list |
| PastMeetings.FilteredIsOrderedSelection | app/routes/past-meetings.tsx:51 | the filtered list is an order-preserving subsequence holding every occurrence of each matching meeting and none of any other |
| PastMeetings.EmptyQueryKeepsTitledOrSummarized | app/routes/past-meetings.tsx:52-54 | with an empty query a meeting is kept iff it has a title or a summary |
| PastMeetings.QueryCaseIgnored | app/routes/past-meetings.tsx:53-54 | the query's case does not change which meetings are kept |
| PastMeetings.DisplayTitle | app/routes/past-meetings.tsx:93 | the title when present and non-empty, otherwise "Untitled Meeting"; never empty |

## Left out

- Browser media APIs are not modelled: getDisplayMedia, getUserMedia with its constraints, AudioContext mixing, MediaRecorder encoding and Blob. Failures of the audio graph (a display stream without an audio track at app/utils/audioTranscription.ts:54-59) and of recorder creation or start (:75, :123) are not modelled, although the source's catch at :65-68 would stop and rethrow them. Streams, recorders and timers are opaque handles, and a chunk is the list of its fragment sizes.
- The base64 conversion through FileReader (app/utils/audioTranscription.ts:129-139) is not modelled, including its failure path.
- Real time and async interleaving are not modelled. The 6 s timer is an event. The stop handler runs atomically with the awaited transcription outcome as its input. So a `stopRecording` that lands during that await is not interleaved.
- Capture.AudioTranscriptionService.OnStop: takes transcribeAudio's outcome as a parameter rather than calling it, so that each proof stays small. Capture.EmittedTranscription states what the handler does with every outcome Ai.TranscribeAudio can produce.
- Capture.AudioTranscriptionService.OnStop: a callback that throws inside the handler is not modelled, and neither is an unsupported format found only when the next cycle restarts (an unhandled rejection in the source).
- The update callback is not wired to the component inside the model. The service records each `Update` effect, and Transcript.ApplyUpdatesAppends states what handing those batches to HandleTranscriptionUpdate yields.
- Gemini client creation from the environment, the prompts and the generateContent calls are not modelled. Client presence is a boolean and the answer or error is an input.
- `generateMeetingSummary` and `chatWithAI` in app/utils/ai.ts are not modelled. `generateMeetingSummary` returns the model's text or a fixed string. `chatWithAI` returns the model's text, and throws "AI service unavailable." when there is no client. Neither holds any post-processing logic.
- `JSON.parse` is a function parameter from the cleaned text to an optional parsed value.
- Ai.GenerateMeetingInsights: the returned record holds only sentiment, keyTopics and decisions, so extra fields of the parsed object are dropped. The array items are opaque JSON values.
- Strings.Lower and Strings.StartsWithIgnoreCase: ASCII case folding only. This is exact for the `/i` patterns, which are ASCII. For `toLowerCase` on non-ASCII titles, summaries or queries, the search filter differs from the source in both directions. An upper-case accented letter is not folded, so a title "CAFÉ" does not match "café". Context-dependent folds such as the Greek final sigma are not applied, so a title "ΑΣ" matches "Σ", which the source rejects.
- PastMeetings.Matches: a title or summary that is present but not a string (where `toLowerCase` would throw) is not modelled.
- The localStorage read and `JSON.parse` of the stored user are not modelled: the user is an optional uid.
- Locale and clock formatting are not modelled (`toISOString`, `toLocaleString`, `toLocaleTimeString`); a segment's timestamp is an input.
- The component's `useEffect` that syncs the `transcript` prop, the auto-save effect's scheduling, React's stale closures, and all JSX are not modelled.
- Console logging is not modelled.
- app/utils/api/meetings.ts, app/utils/firestoreClient.ts and app/utils/api/calendar.ts are not part of this model: they are thin wrappers over Firestore and a network fetch. The page's query result is an input, and each `updateMeetingData` call is a recorded write whose success is an input.

## Findings

| source | as written | input that shows it | evidently intended | confidence | as-written member | corrected member |
|---|---|---|---|---|---|---|
| app/utils/audioTranscription.ts:89-92 | the silent-chunk `return` comes before the restart check at :118-120, so no next recorder is started | while recording, a 6 s chunk whose fragments total fewer than 8000 bytes (one quiet window) | skip transcription of the silent chunk but still start the next recorder while recording, so capture continues | medium, not executed | Capture.SilentChunkEndsCapture | Capture.AudioTranscriptionService.OnStopKeepingChain |
