# POSTY grievance portal: a Dafny model of its core

POSTY is a postal grievance portal. Citizens sign in with a one-time code, file
complaints (typed, dictated or read off a receipt photograph) and follow them
on a dashboard. Staff work the complaints from a ticket desk with counters,
views, a priority-sorted list, replies and internal notes, and a CSV export.
A serverless endpoint keeps the shared complaint list. A live voice assistant
streams microphone audio to a speech model as base64 16-bit PCM and plays the
audio chunks it gets back one after another.

This project models that core in Dafny:

- `base64.dfy`: `btoa`/`atob` as the browser defines them. This is the Base 64 alphabet of section 4 of RFC 4648, with `=` padding, whitespace skipping and the length check.
- `pcm_codec.dfy`: the audio utilities of the Gemini service (`encode`, `encodeAudio`, `decode`, `decodeAudio`, `decodeAudioData`, `createBlobFromPCM`). They are written as methods over arrays with loop invariants and are proved against specification functions. `Int16Array` stores are modelled as truncation then 16-bit wrap-around.
- `live_voice.dfy`: the live voice assistant. The state is the connection flags, the two transcripts, the five refs, each holding an object by its place in the log of created objects, the playback cursor, the set of playing sources, and the logs of `start`/`stop` calls and of the objects the teardown closed. Lemmas show which objects the callbacks lose without closing them. Pure step functions say what each callback does. The `VoiceSession` class performs those steps on its fields. Lemmas cover one message and whole runs of messages.
- `complaints_api.dfy`: the endpoint. `Handle` is the pure dispatch, and the `Endpoint` class updates its module-level store in place.
- `admin_tickets.dfy`: the ticket desk. It covers the counters, the view/search filter and the stable sort by priority, the staff action, the CSV report, and the priority and sentiment styles.
- `csv_reader.dfy`: a reader for one comma-separated line as section 2 of RFC 4180 describes it, against which the ticket desk's report is read back.
- `dashboard.dfy`: the citizen dashboard's active-complaint counter.
- `submit_complaint.dfy`: the complaint form. It covers the recording timer label, the transcript append, receipt auto-fill, the submitted complaint, and the `Intake` class holding the form and recorder state.
- `login.dfy`: the sign-in screen. It covers the one-time code, the resend countdown, the staff name rule and the `LoginScreen` class.
- `app.dfy`: the application shell. It covers the route table, the language toggle, the start-up sync with its fallback to the local copy, and the `Shell` class with the list and user handlers and their local-storage writes.
- `domain.dfy`, `wrappers.dfy`, `strings.dfy`, `lists.dfy`: the complaint and user records, `Option`/`Result`, and the JavaScript string and array operations the core uses (`trim`, `toLowerCase`, `includes`, `split`, `join`, `filter`, number to string).

Browser time, `Math.random()`, `Date.now()`, microphone permission, network outcomes and the answers of the AI service are parameters of the operations that use them.

## Model

| member | source | states |
|---|---|---|
| Base64.Btoa | services/geminiService.ts:18 | `btoa` succeeds exactly when every character is in the binary range 0..255 |
| Base64.EncodeBytes | services/geminiService.ts:18 | the padded Base 64 text of a byte sequence: `EncodeBytesLength` gives its length, `UnpaddedRoundTrip` and `AtobBtoa` show that `atob` reads the bytes back |
| Base64.Atob | services/geminiService.ts:31 | whatever `atob` returns is a binary string; `None` stands for InvalidCharacterError |
| Base64.AtobBtoa | services/geminiService.ts:18 | `btoa` of the binary string of any bytes gives their padded encoding, and `atob` of that encoding gives the binary string back |
| Base64.UnpaddedRoundTrip | services/geminiService.ts:31 | decoding the unpadded encoding of any byte sequence gives the bytes back |
| Base64.EncodeBytesLength | services/geminiService.ts:18 | the padded encoding has four characters per started group of three bytes |
| Base64.AtobRejectsBadLength | services/geminiService.ts:31 | a string whose length, once whitespace is removed, leaves remainder 1 modulo 4 is refused |
| Base64.CodesOfBinaryString | services/geminiService.ts:16 | `String.fromCharCode` per byte and `charCodeAt` per character are inverse |
| PcmCodec.Encode | services/geminiService.ts:21-28 | the loop builds the binary string of the bytes; the result is their Base 64 encoding and `atob` reads it back |
| PcmCodec.EncodeAudio | services/geminiService.ts:12-19 | the same as `encode` |
| PcmCodec.BytesOf | services/geminiService.ts:32-37 | the loop fills an array whose contents are the character codes of the binary string |
| PcmCodec.Decode | services/geminiService.ts:30-38 | succeeds exactly when `atob` does, and then yields the bytes the characters stand for; otherwise reports the invalid-character error |
| PcmCodec.DecodeAudio | services/geminiService.ts:40-48 | the same as `decode` |
| PcmCodec.BytesRoundTrip | services/geminiService.ts:21-38 | what `encode` writes, `decode` reads back byte for byte |
| PcmCodec.Int16View | services/geminiService.ts:56 | sample k of the `Int16Array` view is the little-endian signed value of bytes 2k and 2k+1 |
| PcmCodec.Int16RoundTrip | services/geminiService.ts:56 | writing 16-bit samples as bytes and viewing the bytes as samples gives the samples back |
| PcmCodec.ScaleRange | services/geminiService.ts:63 | every 16-bit sample divided by 32768 lies in [-1, 1) |
| PcmCodec.DecodeAudioData | services/geminiService.ts:50-67 | the nested loops fill a buffer equal to the specification: `numChannels` channels of `(bytes/2)/numChannels` frames, value i of channel c being sample `i*numChannels+c` over 32768; odd byte lengths and empty buffers are errors |
| PcmCodec.DecodedBufferShape | services/geminiService.ts:56-58 | a decoded buffer has the requested rate, a positive frame count of `(bytes/2)/numChannels`, and that many values in each of its channels |
| PcmCodec.DecodedSample | services/geminiService.ts:60-65 | each decoded value is the interleaved sample for its frame and channel, scaled into [-1, 1) |
| PcmCodec.MonoKeepsOrder | services/geminiService.ts:60-65 | with one channel the buffer holds every sample, in order |
| PcmCodec.OddLengthRejected | services/geminiService.ts:56 | an odd number of bytes is refused, as the `Int16Array` view throws RangeError |
| PcmCodec.Truncate | services/geminiService.ts:73 | the stored integer is the real truncated toward zero |
| PcmCodec.Wrap16 | services/geminiService.ts:73 | the stored value is in the 16-bit range and congruent to the input modulo 65536 |
| PcmCodec.Quantize | services/geminiService.ts:71-74 | one 16-bit sample per input sample, each `ToInt16(x * 32768)` |
| PcmCodec.CreateBlobFromPcm | services/geminiService.ts:69-79 | the loop quantizes every sample; the blob is the Base 64 encoding of their little-endian bytes, with MIME type `audio/pcm;rate=16000` |
| PcmCodec.BlobRoundTrip | services/geminiService.ts:69-79 | the blob carries two bytes per sample, and `atob` plus an `Int16Array` view give back exactly the stored samples |
| PcmCodec.FullScaleWraps | services/geminiService.ts:73 | a full-scale sample 1.0 is stored as -32768: it wraps and is not clamped |
| PcmCodec.QuantizeWithinStep | services/geminiService.ts:73 | inside [-1, 1) nothing wraps, and decoding a stored sample is within one quantization step of the input |
| LiveVoice.DecodedChunkNotEmpty | views/LiveVoiceAssistant.tsx:79 | a chunk that decodes has a positive frame count, hence a positive duration |
| LiveVoice.AfterStart | views/LiveVoiceAssistant.tsx:25-35 | the start step: connecting set, two new contexts and, with the microphone, a new stream put in their refs whatever these held, connecting cleared by the catch on refusal (lines 114-116); `ConnectionFlags`, `StartLeaksOverwritten` and `RestartLeaksContexts` state what it does |
| LiveVoice.AfterOpen | views/LiveVoiceAssistant.tsx:37-45 | the `onopen` step: active, not connecting, and a new processor when the input context is held; `ConnectionFlags` and `OpenLeaksProcessor` state it |
| LiveVoice.AfterConnect | views/LiveVoiceAssistant.tsx:112-117 | the awaited connection: a new session in its ref, or connecting cleared; `ConnectionFlags` and `ConnectLeaksSession` state it |
| LiveVoice.Transcribe | views/LiveVoiceAssistant.tsx:65-74 | the transcript part of a message, whose properties `TranscriptsSeparate` states |
| LiveVoice.PlayAudio | views/LiveVoiceAssistant.tsx:76-87 | the audio part of a message, whose properties `ChunkScheduling`, `NoAudioNoChunk`, `UndecodableChunkAborts` and `MissingPartsAborts` state |
| LiveVoice.Interrupt | views/LiveVoiceAssistant.tsx:89-95 | the interrupt part, whose properties `InterruptStopsAll` states |
| LiveVoice.AfterMessage | views/LiveVoiceAssistant.tsx:64-96 | the whole `onmessage` step; `RunOfMessages` ties runs of it to `Run`, about which `RunGapless` and `RunContiguous` hold |
| LiveVoice.AfterEnded | views/LiveVoiceAssistant.tsx:86 | a source's `onended`, whose effect `SourcesLeaveOnlyByEndOrInterrupt` states |
| LiveVoice.Release | views/LiveVoiceAssistant.tsx:123-142 | one slot of the teardown, whose effect `ReleaseSlot` states |
| LiveVoice.AfterStop | views/LiveVoiceAssistant.tsx:120-143 | the teardown, whose effect `StopClosesHeld`, `StopClosesEachHeldOnce` and `StopIdempotent` state |
| LiveVoiceProperties.ConnectionFlags | views/LiveVoiceAssistant.tsx:27-41 | starting sets connecting; `onopen` sets active and clears connecting; a refused microphone or a failed connection leaves the assistant neither active nor connecting |
| LiveVoiceProperties.TranscriptsSeparate | views/LiveVoiceAssistant.tsx:65-74 | assistant text goes only to the assistant transcript and user text only to the user's; a missing text appends "undefined"; turn-complete empties both, even after appends in the same message |
| LiveVoiceProperties.ChunkScheduling | views/LiveVoiceAssistant.tsx:76-87 | a chunk starts at `max(cursor, clock)`, never in the past nor before the scheduled end; it is tracked, and unless the message interrupts, the cursor advances to its end |
| LiveVoiceProperties.NoAudioNoChunk | views/LiveVoiceAssistant.tsx:77 | without audio data or an output context nothing is scheduled, and without an interrupt the playback is unchanged |
| LiveVoiceProperties.UndecodableChunkAborts | views/LiveVoiceAssistant.tsx:78-79 | a chunk that fails to decode aborts the handler after the cursor moved to the clock: nothing starts and the interrupt part does not run |
| LiveVoiceProperties.MissingPartsAborts | views/LiveVoiceAssistant.tsx:76 | a model turn without parts throws once the transcripts are updated: no chunk, no cursor move, no interrupt |
| LiveVoiceProperties.InterruptStopsAll | views/LiveVoiceAssistant.tsx:89-95 | unless the handler threw first, an interrupt stops every tracked source, including one started by the same message, empties the set and resets the cursor to 0 |
| LiveVoiceProperties.NextChunkAfterInterruptStartsNow | views/LiveVoiceAssistant.tsx:78 | after an interrupt the next chunk starts at the clock time |
| LiveVoiceProperties.SourcesLeaveOnlyByEndOrInterrupt | views/LiveVoiceAssistant.tsx:85-86 | a source leaves the set only by its own `onended` or an interrupt; no other callback changes the playback |
| LiveVoiceProperties.ReleaseSlot | views/LiveVoiceAssistant.tsx:123-142 | releasing a ref closes the object it holds exactly when it holds one, nulls it, and touches no other ref and no other part of the state |
| LiveVoiceProperties.StopClosesHeld | views/LiveVoiceAssistant.tsx:120-143 | the teardown clears both flags and every ref, and closes the objects they held in the order session, processor, stream, input context, output context |
| LiveVoiceProperties.StopClosesEachHeldOnce | views/LiveVoiceAssistant.tsx:120-143 | the teardown closes every object a ref holds, nothing else, and each once; it keeps the state valid, and objects lost before it stay open |
| LiveVoiceProperties.StopIdempotent | views/LiveVoiceAssistant.tsx:97-101 | a second teardown (`onclose` after `onerror`, say) changes nothing |
| LiveVoiceProperties.StartKeepsValid | views/LiveVoiceAssistant.tsx:25-35 | a start keeps the object logs consistent: the new objects are fresh, created and open |
| LiveVoiceProperties.StartLeaksOverwritten | views/LiveVoiceAssistant.tsx:30-33 | a start overwrites the context refs, and the stream ref when the microphone is granted, without closing what they held: exactly those objects join the lost ones |
| LiveVoiceProperties.OpenLeaksProcessor | views/LiveVoiceAssistant.tsx:42-44 | `onopen` overwrites the processor ref: a processor it still held is lost, and nothing else |
| LiveVoiceProperties.ConnectLeaksSession | views/LiveVoiceAssistant.tsx:112 | a kept connection overwrites the session ref: a session it still held is lost, and nothing else |
| LiveVoiceProperties.LeakedStayOpen | views/LiveVoiceAssistant.tsx:25-143 | no callback ever closes a lost object: starting, opening and connecting only add to them, messages, `onended` and the teardown keep them |
| LiveVoiceProperties.RestartLeaksContexts | views/LiveVoiceAssistant.tsx:30-31 | after a refused microphone, a second start and a teardown close only the second pair of contexts; the first pair stays open |
| LiveVoiceProperties.RetryLeaksMicrophone | views/LiveVoiceAssistant.tsx:31-33 | after a failed connection, a second start with the microphone and a teardown never stop the first stream's tracks |
| LiveVoiceProperties.AudioAfterStopIgnored | views/LiveVoiceAssistant.tsx:77 | audio arriving after the teardown starts no chunk, because the output context is gone, and without an interrupt leaves the playback as it was |
| LiveVoiceProperties.RunOfMessages | views/LiveVoiceAssistant.tsx:64-96 | handling any run of messages one `onmessage` after another plays exactly what `Run` computes, and leaves the flags, refs and object logs unchanged |
| LiveVoiceProperties.StepKeepsGapless | views/LiveVoiceAssistant.tsx:78-84 | a message without interrupt keeps the cursor at or past the end of the last chunk, and a new chunk starts no earlier than the previous one ended |
| LiveVoiceProperties.RunGapless | views/LiveVoiceAssistant.tsx:76-87 | over any run of messages without interrupts, scheduled chunks never overlap |
| LiveVoiceProperties.RunContiguous | views/LiveVoiceAssistant.tsx:76-87 | when every message arrives before the cursor, the chunks follow one another with no gap, and the cursor ends at the end of the last one |
| LiveVoiceSession.VoiceSession.StartSession | views/LiveVoiceAssistant.tsx:26-35 | the fields change as the start step says: connecting, both contexts created, the stream kept or connecting cleared on refusal |
| LiveVoiceSession.VoiceSession.OnOpen | views/LiveVoiceAssistant.tsx:39-45 | the fields change as the open step says |
| LiveVoiceSession.VoiceSession.ConnectSettled | views/LiveVoiceAssistant.tsx:113-117 | the session is kept, or the catch clears connecting |
| LiveVoiceSession.VoiceSession.OnMessage | views/LiveVoiceAssistant.tsx:64-96 | the transcripts, then the audio part, then, unless decoding threw, the interrupt part, exactly as the message step says |
| LiveVoiceSession.VoiceSession.UpdateTranscripts | views/LiveVoiceAssistant.tsx:65-74 | the transcript fields follow the transcript step |
| LiveVoiceSession.VoiceSession.PlayChunk | views/LiveVoiceAssistant.tsx:76-87 | the cursor, the source set, the next source and the start log follow the audio step; the flag reports whether decoding threw |
| LiveVoiceSession.VoiceSession.DecodeChunk | views/LiveVoiceAssistant.tsx:79 | the codec methods decode a chunk as the decoding function says |
| LiveVoiceSession.VoiceSession.StopAllSources | views/LiveVoiceAssistant.tsx:89-95 | the loop stops every tracked source; afterwards the set is empty and the cursor is 0 |
| LiveVoiceSession.VoiceSession.SourceEnded | views/LiveVoiceAssistant.tsx:86 | the ended source leaves the set |
| LiveVoiceSession.VoiceSession.ReleaseSlot | views/LiveVoiceAssistant.tsx:123-142 | one slot of the teardown, as the release step says |
| LiveVoiceSession.VoiceSession.StopSession | views/LiveVoiceAssistant.tsx:120-143 | the fields change as the teardown step says |
| ComplaintsApi.Endpoint.constructor | api/complaints.ts:6 | the store starts empty |
| ComplaintsApi.Handle | api/complaints.ts:8-48 | the dispatch on method and POST type, whose responses and stores `EveryResponse`, `ReadsKeepStore`, `CreatePrepends`, `FeedbackOnlyMatching`, `ListReplaces` and `CreateThenGet` state |
| ComplaintsApi.Endpoint.Handler | api/complaints.ts:8-48 | the response and the new store are those of the dispatch function |
| ComplaintsApiProperties.EveryResponse | api/complaints.ts:10-12 | every response carries the three CORS headers, and its status is 200, 201, 400 or 405 |
| ComplaintsApiProperties.ReadsKeepStore | api/complaints.ts:14-21 | OPTIONS answers 200 with no body and GET the store; 405 exactly for other methods and 400 exactly for an unknown POST type, neither changing the store |
| ComplaintsApiProperties.CreatePrepends | api/complaints.ts:26-29 | CREATE answers 201 and puts the new complaint first, keeping the rest in order |
| ComplaintsApiProperties.FeedbackOnlyMatching | api/complaints.ts:31-37 | UPDATE_FEEDBACK answers 200 even when no id matches; only complaints with that id get the new feedback, and the length and order are kept |
| ComplaintsApiProperties.ListReplaces | api/complaints.ts:39-42 | UPDATE_LIST replaces the whole store |
| ComplaintsApiProperties.CreateThenGet | api/complaints.ts:18-29 | a GET after a CREATE lists the new complaint, then what a GET before it listed |
| Domain.WithFeedbackKeepsIds | App.tsx:342-347 | attaching feedback by id keeps the length, every id and every other field |
| AdminTickets.Round | views/AdminTickets.tsx:45-46 | `Math.round` of a quotient is the nearest integer, halves rounded up |
| AdminTickets.StatsOf | views/AdminTickets.tsx:37-47 | the desk's counters, which `StatsCounters`, `ResolvedRateBounds` and `AveragePriorityBounds` bound |
| AdminTickets.SortByScore | views/AdminTickets.tsx:59 | the stable sort by descending score, whose order, permutation and stability `SortSpec` states |
| AdminTickets.Filtered | views/AdminTickets.tsx:50-60 | the listed tickets, which `FilteredSpec`, `DashboardListsNothing` and `ViewsMatchCounters` characterise |
| AdminTicketsProperties.StatsCounters | views/AdminTickets.tsx:37-44 | `all` is the number of tickets, `inbox` those not closed, `inbox + closed = all`, and `unassigned` never exceeds `all` |
| AdminTicketsProperties.ResolvedRateBounds | views/AdminTickets.tsx:46 | the resolution rate is a percentage: 0 when nothing is closed or there are no tickets, 100 when everything is closed |
| AdminTicketsProperties.AveragePriorityBounds | views/AdminTickets.tsx:45 | the average priority of a non-empty list lies between its lowest and highest score |
| AdminTicketsProperties.ScoreSumBounds | views/AdminTickets.tsx:45 | the score sum lies between n times the lowest and n times the highest score |
| AdminTickets.InsertByScore | views/AdminTickets.tsx:59 | the insertion adds exactly the one ticket |
| AdminTicketsProperties.InsertSorted | views/AdminTickets.tsx:59 | insertion into a descending list keeps it descending |
| AdminTicketsProperties.InsertPermutes | views/AdminTickets.tsx:59 | insertion adds the ticket to the multiset and changes nothing else |
| AdminTicketsProperties.InsertStable | views/AdminTickets.tsx:59 | the inserted ticket goes before every ticket of its own score, and the others keep their order |
| AdminTicketsProperties.SortSpec | views/AdminTickets.tsx:59 | the sort is descending by score, a permutation, and stable: tickets of equal score keep their original order |
| AdminTicketsProperties.FilteredSpec | views/AdminTickets.tsx:50-60 | the list holds every ticket that passes the view and the search, as often as it occurs, and nothing else, highest priority first |
| AdminTicketsProperties.DashboardListsNothing | views/AdminTickets.tsx:54 | the dashboard view lists no ticket |
| AdminTicketsProperties.EmptyQueryMatches | views/AdminTickets.tsx:52-53 | an empty search matches every ticket |
| AdminTicketsProperties.ViewsMatchCounters | views/AdminTickets.tsx:41-44 | with an empty search, the inbox, closed, unassigned and all views list exactly as many tickets as their counters say |
| AdminTickets.HandleAction | views/AdminTickets.tsx:62-78 | the early return or the mapped list, of the same length; `ActionIgnoredIff` and `ActionChangesSelected` state which tickets change and how |
| AdminTicketsProperties.ActionIgnoredIff | views/AdminTickets.tsx:63 | the action does nothing exactly when no ticket is selected or the message is only whitespace |
| AdminTicketsProperties.ActionChangesSelected | views/AdminTickets.tsx:64-78 | only tickets with the selected id change: the status follows the action unless it is an internal note, one update is appended (kind `internal_note` exactly for internal actions), the activity time is set and every other field is kept |
| AdminTickets.Escape | views/AdminTickets.tsx:99 | doubling quotes never shortens the text |
| AdminTickets.Quote | views/AdminTickets.tsx:99 | the field is wrapped in double quotes |
| AdminTicketsProperties.UnescapeEscape | views/AdminTickets.tsx:99 | reading doubled quotes back gives the original text |
| AdminTicketsProperties.QuoteRoundTrip | views/AdminTickets.tsx:99 | the quoted description reads back as the description (section 2, item 7 of RFC 4180) |
| AdminTickets.Row | views/AdminTickets.tsx:94-100 | every row has one field per header |
| AdminTickets.Lines | views/AdminTickets.tsx:101 | one line per complaint plus the header line, which comes first |
| AdminTicketsProperties.LinesRows | views/AdminTickets.tsx:94-101 | after the header, line i+1 is complaint i's row joined by commas, in list order |
| AdminTicketsProperties.RowReadsBack | views/AdminTickets.tsx:94-101 | a row whose nine unquoted fields hold no comma and no opening quote, and no field a line break, has no line break, and a CSV reader gets back those nine fields and the description itself, commas and quotes included |
| AdminTicketsProperties.ReportLines | views/AdminTickets.tsx:101 | after the byte-order mark, such a report splits at line breaks into exactly its lines |
| AdminTickets.CsvContent | views/AdminTickets.tsx:101 | the report starts with the byte-order mark |
| AdminTicketsProperties.HeaderLine | views/AdminTickets.tsx:93 | a CSV reader reads the header line back as the ten headers, and it has no line break |
| AdminTicketsProperties.CsvReadsBack | views/AdminTickets.tsx:92-101 | when every row is plain in that sense, a CSV reader gets the report back as the header and one ten-field row per complaint, in order, ending with the complaint's own description |
| CsvReader.ReadQuotedField | views/AdminTickets.tsx:99 | a reader following section 2 of RFC 4180 reads a quoted description back as the description, whatever commas and quotes it holds |
| CsvReader.ReadQuotedEscape | views/AdminTickets.tsx:99 | the doubled-quote body is read up to its closing quote and gives the original text |
| CsvReader.ReadJoin | views/AdminTickets.tsx:101 | fields joined by commas are read back one by one when the leading ones hold no comma and open with no quote |
| AdminTicketsProperties.PriorityBands | views/AdminTickets.tsx:121-125 | red from 80, amber from 50 to 79, slate below 50, and a higher score is never shown less urgently |
| AdminTickets.PriorityColor | views/AdminTickets.tsx:121-125 | the priority tone, whose bands `PriorityBands` states |
| AdminTickets.SentimentStyle | views/AdminTickets.tsx:112-119 | the sentiment tone, which `SentimentIgnoresCase` states for every string |
| AdminTicketsProperties.SentimentIgnoresCase | views/AdminTickets.tsx:112-119 | the sentiment style ignores letter case: red exactly for "negative", "angry" and "frustrated", emerald exactly for "positive", blue for anything else and for a missing sentiment |
| Dashboard.ActiveCountBounds | views/Dashboard.tsx:22 | the active count is at most the number of complaints, 0 when all are closed or solved, and at most the desk's inbox counter |
| Dashboard.ActivePlusSolvedIsInbox | views/Dashboard.tsx:22 | the active count and the solved complaints together make up the desk's inbox |
| Dashboard.ActiveCount | views/Dashboard.tsx:22 | the complaints neither closed nor solved, which `ActiveCountBounds` and `ActivePlusSolvedIsInbox` relate to the desk's counters |
| SubmitComplaint.FormatTime | views/SubmitComplaint.tsx:182-186 | the label is the whole minutes, a colon, and two digits for the remaining seconds |
| SubmitComplaintProperties.FormatTimeRoundTrip | views/SubmitComplaint.tsx:182-186 | every label reads back as the seconds it shows |
| SubmitComplaintProperties.FormatTimeInjective | views/SubmitComplaint.tsx:182-186 | distinct durations get distinct labels |
| SubmitComplaint.AppendTranscript | views/SubmitComplaint.tsx:95 | the result replaces an empty description and is appended after a line break otherwise |
| SubmitComplaintProperties.TranscriptExtends | views/SubmitComplaint.tsx:95 | the description keeps its previous text as a prefix and ends with the result |
| SubmitComplaint.Fill | views/SubmitComplaint.tsx:127 | a field is overwritten exactly when the extracted value is a non-empty string |
| SubmitComplaint.AutoFill | views/SubmitComplaint.tsx:126-136 | the eight fills, whose effect `AutoFillOverwritesTruthy` states |
| SubmitComplaintProperties.AutoFillOverwritesTruthy | views/SubmitComplaint.tsx:126-136 | auto-fill is idempotent, changes nothing when nothing was extracted, and overwrites a field only with a non-empty extracted value |
| SubmitComplaint.FirstDescriptions | views/SubmitComplaint.tsx:155 | the descriptions of the first three complaints, or of all when there are fewer |
| SubmitComplaint.AnalysisContext | views/SubmitComplaint.tsx:155 | the analysis context, which `ContextFirstThree` splits back into the first three descriptions |
| SubmitComplaintProperties.ContextFirstThree | views/SubmitComplaint.tsx:155 | the analysis context splits back, line by line, into those descriptions |
| SubmitComplaint.TicketNumber | views/SubmitComplaint.tsx:164 | the ticket number always has five digits, 10000 to 99999 |
| SubmitComplaintProperties.BlankNotSubmitted | views/SubmitComplaint.tsx:151 | a complaint is produced exactly when the description is not blank |
| SubmitComplaint.Submit | views/SubmitComplaint.tsx:150-173 | the submitted complaint, which `BlankNotSubmitted` and `NewComplaintShape` characterise |
| SubmitComplaintProperties.NewComplaintShape | views/SubmitComplaint.tsx:163-173 | the new complaint has a `PGC-` id with a five-digit number, the citizen's id and name, status NEW, one "Complaint Logged." update by System, escalation 0, no SLA pause, and the form's sender and receiver |
| SubmitComplaintProperties.RecordedKeepsNonEmpty | views/SubmitComplaint.tsx:55-59 | the recorder keeps exactly the non-empty chunks, in arrival order |
| SubmitComplaint.Recorded | views/SubmitComplaint.tsx:55-59 | the kept chunks, which `RecordedKeepsNonEmpty` equates with the non-empty deliveries in order |
| IntakeForm.Intake.constructor | views/SubmitComplaint.tsx:19-41 | the form starts empty and not recording |
| IntakeForm.Intake.StartRecording | views/SubmitComplaint.tsx:47-76 | the chunk list is emptied; with the microphone, a recorder is kept and recording and the timer start at 0; without it, the denial message is shown and the recorder, the flags and the timer are kept |
| IntakeForm.Intake.DataAvailable | views/SubmitComplaint.tsx:55-59 | a chunk is kept only when it is not empty |
| IntakeForm.Intake.Tick | views/SubmitComplaint.tsx:70-72 | the duration grows by one exactly while the timer runs |
| IntakeForm.Intake.StopRecording | views/SubmitComplaint.tsx:78-84 | recording and the timer stop; nothing happens when not recording |
| IntakeForm.Intake.VoiceAnalyzed | views/SubmitComplaint.tsx:94-98 | a non-empty result is appended to the description; otherwise the voice error is shown |
| IntakeForm.Intake.ExtractDetails | views/SubmitComplaint.tsx:120-147 | nothing happens without an image; extracted details auto-fill the fields and raise the success notice; an empty answer or a failure shows its message and keeps the fields and the notice |
| IntakeForm.Intake.ApplyDetails | views/SubmitComplaint.tsx:126-136 | the fields become the auto-fill of the old fields |
| IntakeForm.Intake.FillItem | views/SubmitComplaint.tsx:127-128 | the tracking number and post office are filled |
| IntakeForm.Intake.FillSender | views/SubmitComplaint.tsx:130-132 | the sender's name, address and PIN are filled |
| IntakeForm.Intake.FillReceiver | views/SubmitComplaint.tsx:134-136 | the receiver's name, address and PIN are filled |
| Login.OtpCode | views/Login.tsx:43 | the code is six digits, 100000 to 999999 |
| LoginProperties.AcceptsIff | views/Login.tsx:59 | a code is accepted exactly when it is the one sent or the master code 123456 |
| Login.Accepts | views/Login.tsx:59 | the code test, which `AcceptsIff` states in both directions |
| Login.LoginScreen.constructor | views/Login.tsx:13-26 | no role, the phone step, no code sent, countdown at 0 |
| Login.LoginScreen.ChooseCitizen | views/Login.tsx:132 | the citizen role and the phone step |
| Login.LoginScreen.ChooseStaff | views/Login.tsx:145 | the staff role and the staff form |
| Login.LoginScreen.Back | views/Login.tsx:171 | the role is cleared and the toast hidden |
| Login.LoginScreen.SendOtp | views/Login.tsx:40-51 | with at least ten phone characters a fresh code is stored, the code step and toast shown and the countdown set to 30; otherwise nothing changes |
| Login.LoginScreen.Tick | views/Login.tsx:30-38 | the countdown drops by one while positive and stays at 0 |
| Login.LoginScreen.VerifyOtp | views/Login.tsx:58-63 | an accepted code moves to the profile step; a rejected one keeps the step |
| LoginProperties.CountdownFloor | views/Login.tsx:30-38 | after n ticks from t the countdown is `t - n`, or 0 once it ran out |
| LoginProperties.ResendAfterThirty | views/Login.tsx:267 | resending is enabled again exactly after 30 ticks |
| LoginProperties.StaffNameSegment | views/Login.tsx:85 | an id with a non-empty text between its first and second `-` gives "Officer " and that text |
| LoginProperties.StaffNameNoDash | views/Login.tsx:85 | an id without `-` is used whole |
| LoginProperties.StaffNameEmptySegment | views/Login.tsx:85 | an empty second segment is falsy, so the whole id is used |
| Login.StaffName | views/Login.tsx:85 | the officer name, which `StaffNameSegment`, `StaffNameNoDash` and `StaffNameEmptySegment` state case by case |
| LoginProperties.StaffLoginShape | views/Login.tsx:79-90 | staff sign-in needs both fields; the user is an agent with the id, phone `N/A`, an `@posty.gov.in` address and an "Officer " name |
| Login.StaffLogin | views/Login.tsx:79-90 | the staff user, which `StaffLoginShape` characterises |
| LoginProperties.CitizenProfileShape | views/Login.tsx:68-77 | the citizen carries the entered details and an id `CIT-` plus the clock reading, distinct for distinct readings |
| Login.CitizenProfile | views/Login.tsx:68-77 | the citizen user, which `CitizenProfileShape` characterises |
| App.Shell.constructor | App.tsx:296-305 | the saved user is restored, the list is empty, and loading is on |
| App.Shell.SyncComplaints | App.tsx:307-324 | the list is the server's on an OK answer, else the stored copy if any, else unchanged; loading ends in every case |
| App.Shell.HandleLogin | App.tsx:327-330 | the user is set and stored |
| App.Shell.HandleLogout | App.tsx:332-335 | the user is cleared and removed from storage |
| App.Shell.HandleUpdateComplaints | App.tsx:337-340 | the list is replaced and stored |
| App.Shell.HandleUpdateFeedback | App.tsx:342-347 | the matching complaints get the feedback and the list is stored |
| App.Shell.AddComplaint | App.tsx:349-353 | the new complaint goes first and the list is stored |
| App.Shell.ToggleLang | App.tsx:234 | the language switches |
| AppProperties.ToggleInvolution | App.tsx:234 | toggling swaps the two languages, so toggling twice changes nothing |
| App.Toggle | App.tsx:234 | the language switch, which `ToggleInvolution` states |
| AppProperties.RouteGuard | App.tsx:384-388 | login only for nobody; home is the dashboard for citizens and the desk for other roles; the submit, track and menu pages only for citizens, others redirected to login |
| AppProperties.RedirectsSettle | App.tsx:384-388 | following redirects reaches a page in at most two hops |
| App.Route | App.tsx:384-388 | the route table, whose guards `RouteGuard` and `RedirectsSettle` state |
| AppProperties.SyncFallback | App.tsx:307-324 | server data wins only on an OK answer; otherwise the stored copy, otherwise the current list |
| App.Synced | App.tsx:307-324 | the list after the start-up sync, whose fallback `SyncFallback` states |
| AppProperties.AddedComplaintIsActive | App.tsx:349-353 | a new complaint raises the dashboard's active count by one |
| AppProperties.FeedbackKeepsActiveCount | App.tsx:342-347 | feedback leaves the active count unchanged |

## Left out

- The capture path of the voice assistant (views/LiveVoiceAssistant.tsx:43-62) is left out: the media stream source, the script processor's `onaudioprocess`, the level meter's RMS and the sending of blobs. It is browser audio plumbing; `createBlobFromPCM`, which it calls, is modelled.
- The `state !== 'closed'` checks of the teardown are left out. A context is modelled as open while its slot is held, and `close()` rejections are swallowed by the source anyway.
- Audio-context limits are left out: `createBuffer`'s maximum channel count and sample-rate range, NaN and infinite samples, and the browser clock itself (the clock reading is a parameter).
- Floating point is left out. Samples, durations and the cursor are exact reals. `(closed / total) * 100` is rounded in exact arithmetic, and priority scores are integers.
- Concurrency is left out. Every callback and every awaited step is one atomic step, and no interleaving of two in-flight `onmessage` handlers is modelled.
- The Gemini calls are left out: `analyzeComplaint`, `analyzeVoiceRecording`, `extractDetailsFromImage`, `polishDraft`, `handlePolish`, the connection itself, the system prompt, and `api/live/route.ts`. Their answers are parameters.
- SubmitComplaint.Submit: a thrown analysis call, which the source catches without creating a complaint, is not a case of the function. Its analysis parameter is the answer that came back. The one `now` parameter stands for both `new Date()` readings.
- The record types come from types.ts, which is not part of this model. The fields the core reads are the ones modelled, and POST bodies are assumed to carry them with the right types.
- `localStorage` and `fetch` become fields and parameters. JSON parsing of stored values is left out.
- `toLocaleDateString` is a parameter of the CSV report. `toLowerCase` covers ASCII letters only.
- `setTimeout` delays, `alert`, the auto-hiding of toasts and of the extraction notice, the `isVerifying`/`isSubmitting`/`isExtracting` spinners, and navigation after submitting are left out. They are timing and presentation only.
- The translation table (`t`) and every rendering detail beyond the route table are left out.
- The `FileReader`/`MediaRecorder.onstop` plumbing of voice recording is left out. The analysed result is the parameter of `VoiceAnalyzed`.
- IntakeForm.Intake.StartRecording: a second start while recording does not model the second interval that the source would leave running.
- AdminTickets.HandleAction: one `now` parameter stands for both `new Date()` readings (views/AdminTickets.tsx:65 and 76), so the timeline entry and `lastActivityAt` carry the same time.
- AdminTicketsProperties.CsvReadsBack: rows whose fields hold a line break are not read back, because a reader splitting the report at line breaks first would cut such a quoted description in two.
- The platform's byte order is taken as little-endian for the `Int16Array` views.
