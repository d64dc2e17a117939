# ekko / transcript: a verified model of the recording and transcription core

The repository is a Go tool. It records system audio in fixed-length chunks, sends each chunk to
a transcription backend (Gemini over the network, or a local whisper.cpp model) and streams the
text back to a terminal interface. This project models the sequential logic under the
goroutines in Dafny and proves properties of that model. It covers:

- **The session controller** (`Core`, application.dfy). `internal/core` is one `Application`
  class whose methods change its fields in place:
  - `Start`, `initSession`, `Stop` and `save`;
  - the alternative `StartSession`, `StopSession` and `saveSession`;
  - the record worker and the transcribe worker;
  - the supervisor that clears `isRunning`.

  The mutex is a flag. Locking it while it is held can never succeed in a sequential model,
  so that outcome is reported as `Deadlock`. The goroutines run one after the other, and the
  supervisor is an explicit `WorkersFinished` step.
- **The two worker loops as specification functions** (`Pipeline`, pipeline.dfy):
  - the record loop over a script of recorder and queue outcomes;
  - the transcribe loop over the queued messages and the transcriber's replies.

  The class methods (`RecordChunks`, `TranscribeMessages`) are loops proved to compute these
  functions. The lemmas state chunk numbering, unique file names, one entry per fully
  processed message, the order of what is sent, and how each error is classified.
- **String helpers**:
  - the `Error: ` / `Warning: ` tags (`Messages`);
  - the parsing of `pactl` output into a monitor source name (`MonitorSource`, with Go's
    `TrimSpace`, `IndexByte` and `SplitN` in `Text`);
  - the removal of whisper control tags (`Whisper`);
  - the transcript file name `transcript-YYYYMMDD-HHMMSS.json` and its round trip
    (`TimeFormat`).
- **The transcribers' writers** (`GenAI`, `Whisper`, over the pipe model in `Pipes`):
  - how a streamed Gemini response is flattened into pipe writes;
  - how the whisper segment callback writes tokens;
  - the guards the transcribers check before producing a stream.
- **The two terminal interfaces** (`Tui` for internal/ui, `RecorderUi` for pkg/ui). Each is
  a class whose handlers change its fields, specified by a step function on a state value.
  The lemmas cover cursor and duration bounds, the stop-spam guard, transcript accumulation,
  file numbering and what gets saved.
- **The factories** that pick a transcriber from a mode and credentials (`TranscriberClient`,
  `TranscriptorClient`).

Where `internal/core/session.go` uses a `session` record and a `reset` method that the
`Application` struct in application.go does not declare, the model takes them to be:

- a session record stamped with its start time, whose transcript is the same second-keyed
  map that `save` writes;
- a reset that installs the same fresh scope, queue, map and counter as `initSession`.

The queue the workers share (`queue.RecordQueue`) is not part of this model. The model
assumes the following about its `Dequeue`:

1. queued messages come out first, in order;
2. once the queue is empty, a closed queue reports `ErrQueueClosed`;
3. otherwise a cancelled scope reports `ctx.Err()`;
4. otherwise `Dequeue` waits.

## Model

| member | source | states |
|---|---|---|
| Messages.ErrorMessage | internal/core/message.go:8-10 | the result is "Error: " followed by the message, which can be read back from position 7 |
| Messages.WarningMessage | internal/core/message.go:12-14 | the result is "Warning: " followed by the message, which can be read back from position 9 |
| Messages.IsErrorMessageIff | internal/core/message.go:16-18 | a string is recognised as an error message exactly when it is ErrorMessage of something, and stripping the tag and re-tagging gives it back |
| Messages.IsWarningMessageIff | internal/core/message.go:20-22 | a string is recognised as a warning exactly when it is WarningMessage of something, and the tag round-trips |
| Messages.TagsRecognised | internal/core/message.go:8-22 | each tagged message is recognised by its own recogniser and rejected by the other |
| Messages.NeverBothTags | internal/core/message.go:16-22 | no string is both error-tagged and warning-tagged |
| Text.TrimSpace | pkg/audio/recorder.go:66 | the result is never longer than the input, and a non-empty result starts and ends with a non-space character |
| Text.TrimSpaceEmptyIff | pkg/audio/recorder.go:66-69 | trimming yields "" exactly when the input is empty or all white space |
| Text.IndexOf | pkg/audio/recorder.go:72 | -1 exactly when the byte is absent; otherwise the byte's first position |
| Text.SplitOnce | pkg/audio/recorder.go:77 | one part (the input) when the separator is absent; otherwise the text before its first occurrence and the rest, which rejoin to the input |
| MonitorSource.FirstLine | pkg/audio/recorder.go:71-75 | the prefix of the output up to its first newline, or all of it when there is none |
| MonitorSource.ParseLine | pkg/audio/recorder.go:77-86 | a line without ':' is reported unparsable, and only then; otherwise the result is the text after the first ':' with the white space around it trimmed, or "no monitor sink found" when that is empty |
| MonitorSource.ParseSinkList | pkg/audio/recorder.go:66-86 | a found source is non-empty with clean ends; an unparsable report carries exactly the first line of the trimmed output, which is non-empty and has no ':' |
| MonitorSource.ParseSinkListCases | pkg/audio/recorder.go:66-86 | the result for every output: blank output gives "no monitor sink found"; a first line (of the trimmed output) without ':' is reported unparsable with that line; otherwise the trimmed text after its first ':', or "no monitor sink found" when that is blank |
| MonitorSource.FoundSourceAfterColon | pkg/audio/recorder.go:66-86 | a found source is the trimmed text after the first ':' of the first line of the trimmed output |
| MonitorSource.BlankOutput | pkg/audio/recorder.go:66-69 | empty or all-white-space output gives "no monitor sink found" |
| MonitorSource.ParseLabelledLine | pkg/audio/recorder.go:77-86 | `<label>:<rest>` gives the rest with its white space trimmed (later colons kept), or "no monitor sink found" when the rest is blank |
| MonitorSource.FirstLineOfOutput | pkg/audio/recorder.go:66-75 | whatever follows the first line of the trimmed output is ignored |
| MonitorSource.SinkLineParsed | pkg/audio/recorder.go:66-86 | output whose first line is `<label>:<source>`, such as `\tMonitor Source: <name>`, gives the trimmed source (or "no monitor sink found" when it is blank), whatever follows |
| MonitorSource.LineWithoutColon | pkg/audio/recorder.go:77-80 | a first line without ':' is reported back as unparsable, whatever follows it |
| MonitorSource.GetMonitorSource | ffmpeg.go:20-72 | a failure of the pactl or grep command is reported as a lookup failure carrying its error; otherwise the result is exactly ParseSinkList of the output, its failure reported as bad output |
| MonitorSource.FfmpegRecord | ffmpeg.go:75-92 | a failed lookup is returned before anything runs; otherwise the command run is exactly `ffmpeg -f pulse -i <source> -t 10 output.wav`, and it fails exactly when that run fails, with the run's error unchanged |
| TimeFormat.TranscriptFileNameLayout | internal/core/session.go:88-89 | for years 0-9999 the name is 31 characters: `transcript-`, the four-digit year, two-digit month, day, '-', hour, minute, second, `.json` |
| TimeFormat.TranscriptFileNameRoundTrip | internal/core/session.go:88-89 | the name has the transcript shape and parses back to the time it was made from |
| TimeFormat.TranscriptFileNameInjective | internal/core/session.go:88-89 | different times give different file names |
| Pipeline.AudioFile | internal/core/record.go:25 | the name is `.tmp/audio-` followed by the decimal chunk number and `.wav` |
| Pipeline.AudioFileInjective | internal/core/record.go:25 | different chunk numbers give different file names |
| Pipeline.RecordLoop | internal/core/record.go:19-44 | no more recordings than steps; at most one recording is not enqueued (the one that ended the loop); the counter stays a uint32 |
| Pipeline.RecordCounter | internal/core/record.go:24 | the counter ends advanced by exactly one per recording, modulo 2^32 |
| Pipeline.RecordFiles | internal/core/record.go:24-27 | the k-th recording uses the source, the chunk duration and `.tmp/audio-<counter+k+1>.wav` |
| Pipeline.RecordMessages | internal/core/record.go:34-37 | the k-th enqueued message carries the k-th recording's file name and its enqueue time, each file enqueued once |
| Pipeline.NoChunkAfterCancel | internal/core/record.go:20-22 | a cancelled scope records nothing more; no step before the last cancels; the loop ends cancelled exactly when the check saw it or a failing step cancelled |
| Pipeline.RecordErrors | internal/core/record.go:27-42 | a cancelled end returns Canceled; otherwise the last recording failed ("recording failed: " + its error) or its enqueue failed (that error unchanged) |
| Pipeline.UniqueFileNames | internal/core/record.go:24-25 | starting from counter 0, no two recordings of a session share a file name |
| Pipeline.RecordSourceError | internal/core/record.go:12-15 | the error reads "failed to get audio source: " + the cause, and it is a cancellation exactly when the cause is |
| Pipeline.ScanErrorLine | internal/core/transcribe.go:47-49 | the line is "[Error] Failed to read transcript: ", the scanner error's text and a newline |
| Pipeline.Output | internal/core/transcribe.go:32-57 | a reply sends its lines in order, then exactly one more element, ScanErrorLine of the scanner's error, exactly when the scanner failed |
| Pipeline.TranscribeLoop | internal/core/transcribe.go:15-67 | at most one consumed message has no entry; one file removed per entry; every stored entry came from a streamed reply |
| Pipeline.OneEntryPerMessage | internal/core/transcribe.go:32-66 | the k-th entry belongs to the k-th message: its time, the concatenation of its lines with no separator, the scanner's error; its file is the k-th removed; cancellation won none of its sends |
| Pipeline.SentInOrder | internal/core/transcribe.go:32-57 | what is sent is every processed reply's output in order, then the part of the interrupted reply sent before cancellation won |
| Pipeline.TranscribeEndsClean | internal/core/transcribe.go:16-20 | the loop returns nil exactly when the queue was closed and every message was processed |
| Pipeline.TranscribeEndsError | internal/core/transcribe.go:20-30 | an error end is Canceled when the scope is cancelled; otherwise it is "failed to transcribe audio: " + the last reply's error |
| Pipeline.TranscribeEndsWaiting | internal/core/transcribe.go:16-22 | the loop waits only on an open queue in a live scope, or on a transcriber that never answered |
| Pipeline.KeyedBySecondHolds | internal/core/transcribe.go:62-66 | the map's keys are exactly the seconds entries were stored in, so it never has more entries than were stored; each second holds the last entry stored in it |
| Pipeline.KeyedBySecondKeys | internal/core/transcribe.go:62 | a second is a key exactly when some entry was stored in it, so the map never has more entries than were stored |
| Pipeline.LastStoreWins | internal/core/transcribe.go:62 | an entry after which nothing else was stored in its second is what the map holds for that second |
| Pipeline.SameSecondLosesEntry | internal/core/transcribe.go:62 | two entries stored in the same second leave the map with fewer entries than messages processed |
| Pipeline.LogKeepsEveryEntry | internal/core/transcribe.go:59-66 | the log holds one entry per processed message, with its time and text, whatever the clock |
| Core.Forwarded | internal/core/application.go:77-78 | nothing is forwarded exactly for a (wrapped) cancellation; any other error is forwarded as its text |
| Core.Send | internal/core/application.go:78 | a send lands on an open stream and is dropped (the panic recovered) on a closed one |
| Core.ScanLines | internal/core/transcribe.go:32-57 | the loop sends the reply's output in order and accumulates the text; when cancellation wins a send it stops with what was sent before |
| Core.TranscribeMessages | internal/core/transcribe.go:15-67 | the loop computes exactly TranscribeLoop |
| Core.Application.constructor | internal/core/application.go:39-44 | a new controller is idle and unlocked; the file system is left as it was (whether .tmp exists is a parameter) and nothing is written or removed |
| Core.Application.InitSession | internal/core/application.go:104-117 | fresh scope, queue and map and counter 0; a ResetContext failure cancels the new scope and is wrapped as "failed to reset transcriber context: " |
| Core.Application.Launch | internal/core/application.go:60-65 | running, with an empty open stream and both workers started |
| Core.Application.Start | internal/core/application.go:46-102 | running: "session already running" and nothing else changes; the Mkdir error or the wrapped ResetContext error is returned with isRunning still false; an existing .tmp fails the Mkdir; success runs with capacity 100; every early return keeps the mutex locked |
| Core.Application.StartReleasing | internal/core/application.go:46-102 | the same outcomes as Start, with the mutex released on every return |
| Core.Application.Save | internal/core/application.go:153-165 | the marshal or write error is wrapped and nothing changes; success writes the second-keyed transcription map under the name from the current time and only then removes .tmp |
| Core.Application.Stop | internal/core/application.go:122-151 | idle: "no active session" and nothing is cancelled; running: cancel, then save the second-keyed transcription map |
| Core.Application.WorkersFinished | internal/core/application.go:95-99 | isRunning is cleared exactly when both workers are done, without looking at the mutex |
| Core.Application.StartSession | internal/core/session.go:13-60 | running: "session already running" with the lock released; otherwise a fresh session stamped now, running, ten-second chunks; a failed Mkdir is ignored |
| Core.Application.SaveSession | internal/core/session.go:85-104 | the end time is set; the second-keyed transcription map is written under the name from the start time; a marshal or write error is wrapped and .tmp kept |
| Core.Application.StopSession | internal/core/session.go:62-83 | idle: "no active session"; running: cancel, then saveSession writes the second-keyed map under the start-time name |
| Core.Application.SessionWorkersFinished | internal/core/session.go:52-57 | the supervisor takes the lock, then clears isRunning only when both workers are done |
| Core.Application.RecordChunks | internal/core/record.go:19-44 | the loop changes counter, scope, queue and recordings exactly as RecordLoop says, and nothing else |
| Core.Application.RecordWorker | internal/core/record.go:11-45 | a failed source lookup is returned wrapped and leaves the queue open; otherwise the loop runs and the queue is closed |
| Core.Application.RecordWorkerClosing | internal/core/record.go:11-45 | as RecordWorker, with the queue closed on every return |
| Core.Application.RunRecord | internal/core/application.go:82-93 | the worker as written runs: its error is forwarded unless it is a cancellation, and recording is done; a failed source lookup leaves the queue open |
| Core.Application.TranscribeWorker | internal/core/transcribe.go:14-67 | queue, scope, entries, stream and removed files change as TranscribeLoop says, and nothing else |
| Core.Application.RunTranscribe | internal/core/application.go:67-80 | a worker that returns forwards its error unless it is a cancellation, then closes the stream; a waiting one leaves it open |
| Findings.StartFailureLeavesLock | internal/core/application.go:56-58 | after Start fails in ResetContext, Stop deadlocks |
| Findings.StartFailureReleasesLock | internal/core/application.go:56-58 | with the lock released, the same Stop answers "no active session" |
| Findings.SourceFailureStallsTranscriber | internal/core/record.go:12-17 | after Start and a failed source lookup the transcribe worker waits on the open queue; the session does not end by itself, and only the cancellation by Stop ends the wait, with Canceled |
| Findings.SourceFailureEndsTranscriber | internal/core/record.go:12-17 | with the queue closed on that return, the transcribe worker returns nil |
| Findings.SaveNamedByStopTime | internal/core/application.go:159 | Start then Stop at another time: the file is named after the stop, not the start |
| Findings.SaveNamedByStartTime | internal/core/session.go:88-89 | StartSession then StopSession: the file is named after the start time, however late the stop |
| Findings.SupervisorIgnoresLock | internal/core/application.go:95-99 | Start, a second Start that keeps the mutex held, a recorder failing on its first chunk, the transcriber draining the closed queue: the supervisor then clears isRunning while the mutex is held |
| Findings.SupervisorTakesLock | internal/core/session.go:52-57 | the same calls with session.go's supervisor: it waits for the mutex and isRunning stays set |
| Pipes.CloseWith | internal/transcriber/gemini.go:129 | a close keeps the data; the first close decides what the reader sees |
| Pipes.WriteAllDelivers | internal/transcriber/gemini.go:123-131 | the reader receives the texts that fit, in order; the writer is closed with ErrClosedPipe exactly when one did not fit |
| Pipes.WriteAllAppend | internal/transcriber/gemini.go:118-133 | writing in two rounds is writing once, so a failed writer stays failed across chunks |
| Pipes.FailedStaysFailed | internal/transcriber/gemini.go:128-131 | writes to a closed writer change nothing |
| Pipes.ClosedIgnoresWrites | internal/transcriber/gemini.go:128-131 | a pipe whose reader is gone is closed once with ErrClosedPipe and takes nothing |
| Pipes.PipeWriter.constructor | internal/transcriber/gemini.go:59 | a new pipe is empty and open |
| Pipes.PipeWriter.Write | internal/transcriber/gemini.go:128 | a write is delivered while there is room; otherwise it fails with ErrClosedPipe and nothing changes |
| Pipes.PipeWriter.CloseWithError | internal/transcriber/gemini.go:129 | the writer's state becomes CloseWith of the old one |
| GenAI.PartTexts | internal/transcriber/gemini.go:123-127 | no more texts than parts |
| GenAI.PartTextsAppend | internal/transcriber/gemini.go:123-132 | the texts of two part lists joined are the two lists' texts joined |
| GenAI.CandidateTextsAppend | internal/transcriber/gemini.go:118-133 | the texts of two candidate lists joined are the two lists' texts joined |
| GenAI.SkippingEmptyKeepsText | internal/transcriber/gemini.go:123-127 | skipping empty parts does not change the text the reader receives |
| GenAI.WrittenTextsComeFromParts | internal/transcriber/gemini.go:118-133 | a text is written exactly when some non-empty part of some candidate with content holds it |
| GenAI.InParts | internal/transcriber/gemini.go:123-127 | a text is among the part texts exactly when it is non-empty and some part holds it |
| GenAI.NormalizeError | internal/transcriber/gemini.go:74-86 | exactly one candidate with content |
| GenAI.NormalizedErrorText | internal/transcriber/gemini.go:74-86 | writing a normalised error writes exactly "Error during transcription: <e>" |
| GenAI.WriteToStream | internal/transcriber/gemini.go:109-135 | nothing when the context is done; otherwise the non-empty part texts of the candidates with content, in order, until a write fails and closes the writer |
| GenAI.WriteParts | internal/transcriber/gemini.go:123-132 | the part texts are written in order; it fails exactly when they do not all fit |
| GenAI.ClientsDifferOnlyOnErrors | pkg/transcriptor/google.go:42-48 | each stream error adds one text in the Gemini client and none in the Google client; without errors both write the same |
| GenAI.GeminiStream | internal/transcriber/gemini.go:59-69 | every item is written in order, an error as its normalised text, until the context is done; then the writer is closed |
| GenAI.GoogleStream | pkg/transcriptor/google.go:42-48 | every chunk is written in order until the context is done, and the writer is closed after the last |
| GenAI.GeminiTranscribeGuard | internal/transcriber/gemini.go:40-57 | the audio read error, then "gemini client not initialized", then "generate content stream returned nil"; a pipe only when all pass |
| Whisper.DigitRun | internal/transcriber/whisper.go:101 | the longest run of ASCII digits at the front |
| Whisper.TagLength | internal/transcriber/whisper.go:101 | a tag found at the front is at least seven characters, from '[' to ']' |
| Whisper.StripTags | internal/transcriber/whisper.go:103-105 | the result is never longer than the input |
| Whisper.TagFreeUnchanged | internal/transcriber/whisper.go:104 | text in which no tag starts is returned unchanged |
| Whisper.NoBracketUnchanged | internal/transcriber/whisper.go:104 | text without '[' is returned unchanged |
| Whisper.TagRemoved | internal/transcriber/whisper.go:101-104 | `[_BEG_]`, `[_EOT_]` and `[_TT_<digits>]` in front are removed and the scan resumes right after |
| Whisper.EmptyTimestampKept | internal/transcriber/whisper.go:101 | `[_TT_]` without digits is kept |
| Whisper.SinglePass | internal/transcriber/whisper.go:104 | matches are leftmost and non-overlapping: removing a tag can join a new one, which stays |
| Whisper.StripKeepsOrder | internal/transcriber/whisper.go:104 | what is kept is a subsequence of the input, in its original order |
| Whisper.CheckAudio | internal/transcriber/whisper.go:57-73 | open error, then decode error, then "unsupported sample rate: N", then "unsupported number of channels: N"; accepted exactly for 16 kHz mono |
| Whisper.Normalized | internal/transcriber/whisper.go:82 | one normalised text per token, in order |
| Whisper.SegmentCallback | internal/transcriber/whisper.go:76-89 | the tokens before the context is done are written normalised, in order, until a write fails |
| Whisper.Process | internal/transcriber/whisper.go:91-96 | every segment's tokens are written in order until the context is done; a processing error then closes the writer with that error; otherwise the deferred Close ends it |
| Whisper.WhisperClient.constructor | internal/transcriber/whisper.go:33-36 | the client holds the context it was created with |
| Whisper.WhisperClient.ResetContext | internal/transcriber/whisper.go:43-54 | on error the old context stays and the error is returned; otherwise a new context at temperature 0.5 with the initial prompt |
| TranscriberClient.NewClient | internal/transcriber/client.go:24-36 | "whisper" selects the local client whatever keys are passed; "gemini" needs exactly one key ("invalid credentials" otherwise); any other mode is "invalid client mode" |
| TranscriberClient.WhisperIgnoresKeys | internal/transcriber/client.go:26-27 | the keys passed with "whisper" do not matter |
| TranscriptorClient.NewClient | pkg/transcriptor/client.go:21-36 | "local" needs exactly two credentials, used as client id then secret; "google" needs exactly one; otherwise "invalid credentials" or "invalid client mode" |
| Tui.UpdateStep | internal/ui/model.go:141-166 | every message keeps the cursor on a menu row and the duration within 1-60 s |
| Tui.RunStaysBounded | internal/ui/model.go:97-116 | from the initial model, no sequence of keys and messages moves the cursor off the menu or the duration outside 1-60 s |
| Tui.AdjustOnlyOnDurationRow | internal/ui/model.go:105-116 | left/right change nothing off the duration row; on it they step one second, stopping at 1 and 60 |
| Tui.StartClearsTranscript | internal/ui/model.go:63-80 | Start Session clears transcript, error and count before starting, and quits exactly when Start fails |
| Tui.StopIssuedOnce | internal/ui/model.go:125-130 | on the recording screen, until the session ends, at most one stop is issued however often "s" is pressed, and none once a stop is under way |
| Tui.ChunksAccumulate | internal/ui/model.go:149-155 | each transcript chunk adds one to the count and its text and a newline to the content, in arrival order |
| Tui.Model.constructor | internal/ui/model.go:42-57 | menu screen, cursor 0, ten-second chunks |
| Tui.Model.HandleMenuSelection | internal/ui/model.go:63-89 | the handler does what SelectStep says |
| Tui.Model.HandleKeyEvent | internal/ui/model.go:91-139 | the handler does what KeyStep says |
| Tui.Model.Update | internal/ui/model.go:141-166 | the handler does what UpdateStep says |
| RecorderUi.OutputFile | pkg/ui/model.go:149 | `output_` followed by the decimal number and `.wav` |
| RecorderUi.OutputFileInjective | pkg/ui/model.go:147-149 | different recording numbers give different files |
| RecorderUi.Entry | pkg/ui/model.go:129-137 | the entry carries the message's time; with an error it holds the error's text and no text; without, the text and no error |
| RecorderUi.RunStaysBounded | pkg/ui/model.go:94-101 | from the initial model the cursor never leaves the menu |
| RecorderUi.EntriesAccumulate | pkg/ui/model.go:120-150 | while recording, each TranscriptionDoneMsg appends exactly one entry, in arrival order, and advances the recording number by one; nothing is saved |
| RecorderUi.NextRecordingStarts | pkg/ui/model.go:146-150 | after a TranscriptionDoneMsg the next ten-second recording into output_<recordingNum>.wav is under way |
| RecorderUi.RecordAudioResult | pkg/ui/model.go:252-265 | no recording error exactly when the message is RecordingDoneMsg for the file; otherwise a TranscriptionDoneMsg stamped with the current time, with no text and "recording failed: " wrapping the error |
| RecorderUi.RecordFailureStored | pkg/ui/model.go:252-262 | a failed recording still yields one entry, with error "recording failed: ..." |
| RecorderUi.TranscribeAudioResult | pkg/ui/model.go:267-295 | the message is a TranscriptionDoneMsg stamped with the time the attempt began; it has an error exactly when the contents or the transcription failed, and then no text; otherwise the transcribed text |
| RecorderUi.TranscriptionStored | pkg/ui/model.go:267-295 | every attempt appends exactly one entry: the text, or "failed to create contents from audio: ..." or "failed to transcribe audio: ..." as its error |
| RecorderUi.SessionSaved | pkg/ui/model.go:152-158 | start at time t, then recorder and transcriber messages, then stop: the file is named after t and holds the entries in order; the model is back on the menu with no entries and number 0 |
| RecorderUi.Model.constructor | pkg/ui/model.go:65-80 | menu screen, cursor 0, no entries |
| RecorderUi.Model.SaveSession | pkg/ui/model.go:240-250 | the handler does what SaveStep says: a file under the start-time name, or nothing when the marshal or write fails |
| RecorderUi.Model.HandleMenuSelection | pkg/ui/model.go:222-238 | the handler does what SelectStep says |
| RecorderUi.Model.HandleKey | pkg/ui/model.go:88-113 | the handler does what KeyStep says |
| RecorderUi.Model.HandleTranscriptionDone | pkg/ui/model.go:126-150 | the handler does what DoneStep says |
| RecorderUi.Model.Update | pkg/ui/model.go:86-162 | the handler does what UpdateStep says |

## Left out

- Goroutines, the WaitGroup, `select` races, channel closing, the 5 s grace period in `Stop`
  and the 100 ms sleep in `StopSession`. Workers run one after the other. A race lost to
  cancellation is an input (`Attempt.cancels`, `Reply.lostSend`), and the supervisor is an
  explicit step.
- Blocking on a full stream buffer (capacity 100): sends always land while the stream is open.
- Panic recovery. The only panic modelled is a send on a closed stream, which `Core.Send`
  drops.
- JSON marshalling, file writes and removal, `os.Mkdir` and `time.Now`. They are outcome
  parameters (`marshalErr`, `writeErr`, `mkdirErr`, `saveOk`) and `DateTime` arguments, and
  the disk is a log of what was written and removed.
- The network and foreign-library calls (genai streaming, the whisper.cpp model, WAV
  decoding, ffmpeg, pactl and grep). Their results are inputs, and the prompts and content
  construction are not modelled.
- The HTTP client in pkg/transcriptor/local.go. It is not part of this model; only its
  selection by `NewClient` is.
- `RecordQueue`'s implementation, which is not part of this model. The `Dequeue` order
  assumed is stated above.
- Rendering (`View`, styles, spinner, viewport, word wrap), logging and program wiring.
- The arguments of `sessionEnd`. internal/ui/model.go:130 calls it with none, while
  internal/ui/message.go:16 declares two, so that package does not compile as written.
  `Tui` records only that the "s" key issues the session-end command (`EndSession`); the
  message it would produce is modelled through `SessionEnded`.
- Core.Application.Stop: does not wait for the workers before saving. The 5 s bounded wait is
  left out, so the map saved holds the entries stored when Stop is called.
- Core.Application.SaveSession: `session` is not declared in application.go. The model takes
  what session.go:91 marshals to be the start and end times and the same second-keyed
  transcription map `save` writes; the JSON layout itself is not modelled.
- MonitorSource.SinkLineParsed: requires the source name to end its line (no white space
  between the name and the newline). ParseSinkListCases states the result for every output,
  including first lines that end in white space.
- Whisper.StripTags: works on characters, not bytes. The tags removed are ASCII, so the
  matches are the same; byte offsets inside multi-byte text are not modelled.
- Tui.Model.HandleKeyEvent: the key that quits from the recording screen calls `app.Stop` and
  drops its result. The model returns `StopAndQuit` without running Stop on a controller.
- Tui.Model.HandleMenuSelection: the result of `app.Start` enters as a parameter, and the
  chunk duration is kept in whole seconds rather than as a `time.Duration`.
- RecorderUi.Model.Update: messages from in-flight commands that arrive after a stop are
  handled like any others, as the source does. No property is stated about them.
- The whisper client's `Close` only closes the foreign model, and the Gemini client's
  `ResetContext` and `Close` (internal/transcriber/gemini.go:32-38) do nothing and return nil,
  so none of the three is modelled.
- `waitForTranscript` (internal/ui/message.go:30-41) is the source of `TranscriptChunk` and
  `SessionEnded` events. Its reads from the stream are not modelled; a closed stream is the
  event `SessionEnded(Some(stream closed))`.
- Whisper.SegmentCallback: the `ctx.Done()` check is modelled as a token index from which
  the context is seen done (`cancelAt`). The same applies to `GenAI.GeminiStream` and
  `GenAI.GoogleStream`.

## Findings

| source | as written | input that shows it | evidently intended | confidence | as-written member | corrected member |
|---|---|---|---|---|---|---|
| internal/core/application.go:48-58 | `Start` returns early after `mu.Lock()` without unlocking | ResetContext fails (or .tmp exists, or a session runs), then any Stop or Start | every return releases the mutex, as in `StartSession` | high, not executed | Findings.StartFailureLeavesLock | Findings.StartFailureReleasesLock |
| internal/core/record.go:12-17 | `defer a.queue.Close()` is registered after the `GetSource` error return | GetSource fails while the transcribe worker waits on the empty queue | the queue is closed on every return, so the transcriber exits instead of waiting until Stop cancels it | high, not executed | Findings.SourceFailureStallsTranscriber | Findings.SourceFailureEndsTranscriber |
| internal/core/transcribe.go:62 | entries are keyed by the Unix second of the store | two messages finish transcribing within the same second | one entry per processed message | high, not executed | Pipeline.SameSecondLosesEntry | Pipeline.LogKeepsEveryEntry |
| internal/core/application.go:159 | `save` names the file from the time of the stop | a session started at one time and stopped at another | the file is named after the session's start, as `saveSession` does | medium, not executed | Findings.SaveNamedByStopTime | Findings.SaveNamedByStartTime |
| internal/core/application.go:95-99 | the supervisor writes `isRunning` without the mutex | a Start that kept the mutex held while both workers finish | `isRunning` cleared under the lock, as in session.go | high, not executed | Findings.SupervisorIgnoresLock | Findings.SupervisorTakesLock |
