/**
 * The terminal interface of pkg/ui: a menu (start recording, exit) and a recording screen
 * that records a chunk, transcribes it, stores the result and records the next chunk, until
 * "s" saves the session. Only the state Update writes is modelled; rendering, the spinner
 * and the recorder and transcriber behind the commands are not. File writes and removals
 * are logged in the state so that what is saved and what is deleted can be stated.
 */
module RecorderUi {
  import opened Wrappers
  import opened Errors
  import opened Text
  import opened TimeFormat

  datatype Screen = Menu | Recording

  /** One stored result: its time, and either the text or the error's message. */
  datatype Transcription = Transcription(timestamp: DateTime, text: string, error: string)

  /** A transcript file that was written: its name and the entries marshalled into it. */
  datatype SavedFile = SavedFile(name: string, entries: seq<Transcription>)

  datatype Msg =
    | Key(name: string)                                                // tea.KeyMsg, by its String()
    | Tick                                                             // spinner.TickMsg
    | RecordingDone(filename: string)                                  // RecordingDoneMsg
    | TranscriptionDone(timestamp: DateTime, text: string, err: Option<Error>)  // TranscriptionDoneMsg
    | StopRecording                                                    // StopRecordingMsg
    | Other

  /**
   * A message, with the clock and the file system as Update meets them: the time a menu
   * selection reads, and whether saveSession's marshal and write both succeed.
   */
  datatype Event = Event(msg: Msg, now: DateTime, saveOk: bool)

  datatype Cmd =
    | NoCmd
    | Quit
    | TickAndRecord(seconds: nat, file: string)  // tea.Batch(spinner.Tick, recordAudio(...))
    | Record(seconds: nat, file: string)         // recordAudio(...)
    | Transcribe(file: string)                   // transcribeAudio(...)
    | RequestStop                                // the command that yields StopRecordingMsg
    | Spin

  const MenuOptions: seq<string> := ["Start Recording", "Exit"]
  /** The first chunk of a session is recorded for twenty seconds, every later one for ten. */
  const FirstChunkSeconds: nat := 20
  const NextChunkSeconds: nat := 10

  datatype UiState = UiState(
    screen: Screen, cursor: int, recordingNum: nat, currentFile: string,
    recording: bool, transcribing: bool, startTime: DateTime, transcriptions: seq<Transcription>,
    removed: seq<string>, saved: seq<SavedFile>)

  datatype Step = Step(state: UiState, cmd: Cmd)

  /** NewModel: the session record starts with the zero time and no transcriptions. */
  const Initial: UiState := UiState(Menu, 0, 0, "", false, false, DateTime(1, 1, 1, 0, 0, 0), [], [], [])

  /** fmt.Sprintf("output_%d.wav", n) */
  function OutputFile(n: nat): (f: string)
    ensures |f| == 11 + |Decimal(n, 1)| && f[..7] == "output_" && f[|f| - 4..] == ".wav"
  {
    "output_" + Decimal(n, 1) + ".wav"
  }

  /** Each recording of a session goes to its own file. */
  lemma OutputFileInjective(a: nat, b: nat)
    requires OutputFile(a) == OutputFile(b)
    ensures a == b
  {
    var fa := OutputFile(a);
    assert fa[7..|fa| - 4] == Decimal(a, 1);
    assert OutputFile(b)[7..|fa| - 4] == Decimal(b, 1);
    DecimalInjective(a, b, 1);
  }

  /** The entry a TranscriptionDoneMsg becomes: the error's text if there is one, else the text. */
  function Entry(timestamp: DateTime, text: string, err: Option<Error>): (t: Transcription)
    ensures t.timestamp == timestamp
    ensures err.Some? ==> t.text == "" && t.error == Errors.Message(err.value)
    ensures err.None? ==> t.text == text && t.error == ""
  {
    if err.Some? then Transcription(timestamp, "", Errors.Message(err.value)) else Transcription(timestamp, text, "")
  }

  /** What the command built by recordAudio delivers, given the recorder's result. */
  function RecordAudioResult(file: string, recordErr: Option<Error>, now: DateTime): (m: Msg)
    ensures recordErr.None? <==> m == RecordingDone(file)
    ensures recordErr.Some? ==>
      && m.TranscriptionDone? && m.timestamp == now && m.text == ""
      && m.err == Some(Wrapped("recording failed: ", recordErr.value))
  {
    if recordErr.Some? then TranscriptionDone(now, "", Some(Wrapped("recording failed: ", recordErr.value)))
    else RecordingDone(file)
  }

  /** What the command built by transcribeAudio delivers, given the Gemini client's results. */
  function TranscribeAudioResult(contentsErr: Option<Error>, transcribed: Result<string, Error>, now: DateTime): (m: Msg)
    ensures m.TranscriptionDone? && m.timestamp == now
    ensures m.err.None? <==> contentsErr.None? && transcribed.Ok?
    ensures m.err.None? ==> m.text == transcribed.value
    ensures m.err.Some? ==> m.text == ""
  {
    if contentsErr.Some? then TranscriptionDone(now, "", Some(Wrapped("failed to create contents from audio: ", contentsErr.value)))
    else if transcribed.Err? then TranscriptionDone(now, "", Some(Wrapped("failed to transcribe audio: ", transcribed.error)))
    else TranscriptionDone(now, transcribed.value, None)
  }

  /** saveSession: the name comes from the start time; a failed marshal or write leaves no file. */
  function SaveStep(s: UiState, saveOk: bool): UiState
  {
    if saveOk then s.(saved := s.saved + [SavedFile(TranscriptFileName(s.startTime), s.transcriptions)]) else s
  }

  /** handleMenuSelection */
  function SelectStep(s: UiState, now: DateTime): Step
  {
    if s.cursor == |MenuOptions| - 1 then Step(s, Quit)
    else
      var t := s.(screen := Recording, startTime := now, recording := true, recordingNum := 0, currentFile := OutputFile(0));
      Step(t, TickAndRecord(FirstChunkSeconds, OutputFile(0)))
  }

  /** The key branch of Update. */
  function KeyStep(s: UiState, k: string, now: DateTime): Step
  {
    match s.screen
    case Menu =>
      if k == "ctrl+c" || k == "q" then Step(s, Quit)
      else if k == "up" then Step(if s.cursor > 0 then s.(cursor := s.cursor - 1) else s, NoCmd)
      else if k == "down" then Step(if s.cursor < |MenuOptions| - 1 then s.(cursor := s.cursor + 1) else s, NoCmd)
      else if k == "enter" then SelectStep(s, now)
      else Step(s, NoCmd)
    case Recording =>
      Step(s, if k == "s" || k == "S" then RequestStop else NoCmd)
  }

  /** The TranscriptionDoneMsg branch of Update: store the entry, delete the chunk, record the next one. */
  function DoneStep(s: UiState, ts: DateTime, text: string, err: Option<Error>): Step
  {
    var n := s.recordingNum + 1;
    var t := s.(transcribing := false, transcriptions := s.transcriptions + [Entry(ts, text, err)],
                removed := if s.currentFile != "" then s.removed + [s.currentFile] else s.removed,
                recordingNum := n, recording := true, currentFile := OutputFile(n));
    Step(t, Record(NextChunkSeconds, OutputFile(n)))
  }

  /** Update */
  function UpdateStep(s: UiState, e: Event): Step
  {
    match e.msg
    case Key(k) => KeyStep(s, k, e.now)
    case Tick => Step(s, Spin)
    case RecordingDone(f) => Step(s.(recording := false, transcribing := true, currentFile := f), Transcribe(f))
    case TranscriptionDone(ts, text, err) => DoneStep(s, ts, text, err)
    case StopRecording =>
      var t := SaveStep(s, e.saveOk);
      Step(t.(screen := Menu, transcriptions := [], recordingNum := 0), NoCmd)
    case Other => Step(s, NoCmd)
  }

  function Run(s: UiState, events: seq<Event>): Step
  {
    if events == [] then Step(s, NoCmd)
    else UpdateStep(Run(s, events[..|events| - 1]).state, events[|events| - 1])
  }

  /** The cursor points at a menu row. */
  predicate Bounded(s: UiState)
  {
    0 <= s.cursor < |MenuOptions|
  }

  /** From the initial model, no sequence of keys and messages moves the cursor off the menu. */
  lemma {:induction false} RunStaysBounded(events: seq<Event>)
    ensures Bounded(Run(Initial, events).state)
    decreases |events|
  {
    if events != [] {
      RunStaysBounded(events[..|events| - 1]);
    }
  }

  /** The messages the recorder and the transcriber deliver while a session records. */
  predicate WorkerMessages(events: seq<Event>)
  {
    forall k :: 0 <= k < |events| ==> events[k].msg.RecordingDone? || events[k].msg.TranscriptionDone? || events[k].msg.Tick?
  }

  /** The entries the TranscriptionDoneMsgs among the events become, in order. */
  function Entries(events: seq<Event>): (ts: seq<Transcription>)
    ensures |ts| <= |events|
  {
    if events == [] then []
    else
      var m := events[|events| - 1].msg;
      Entries(events[..|events| - 1]) + (if m.TranscriptionDone? then [Entry(m.timestamp, m.text, m.err)] else [])
  }

  lemma WorkerMessagesPrefix(events: seq<Event>)
    requires events != [] && WorkerMessages(events)
    ensures WorkerMessages(events[..|events| - 1])
  {
    var init := events[..|events| - 1];
    forall k | 0 <= k < |init|
      ensures init[k].msg.RecordingDone? || init[k].msg.TranscriptionDone? || init[k].msg.Tick?
    {
      assert init[k] == events[k];
    }
  }

  /**
   * While a session records, every TranscriptionDoneMsg appends exactly one entry, in the
   * order they arrive, and moves the recording number on by one; nothing is saved.
   */
  lemma {:induction false} EntriesAccumulate(s: UiState, events: seq<Event>)
    requires WorkerMessages(events)
    ensures var r := Run(s, events).state;
      && r.transcriptions == s.transcriptions + Entries(events)
      && r.recordingNum == s.recordingNum + |Entries(events)|
      && r.screen == s.screen && r.startTime == s.startTime && r.saved == s.saved
    decreases |events|
  {
    if events != [] {
      var init := events[..|events| - 1];
      WorkerMessagesPrefix(events);
      EntriesAccumulate(s, init);
      assert events[|events| - 1].msg.RecordingDone? || events[|events| - 1].msg.TranscriptionDone? || events[|events| - 1].msg.Tick?;
      SeqAssoc(s.transcriptions, Entries(init), Entries(events)[|Entries(init)|..]);
    }
  }

  /**
   * After every TranscriptionDoneMsg the next recording is already under way, into
   * output_<recordingNum>.wav, for ten seconds.
   */
  lemma NextRecordingStarts(s: UiState, e: Event)
    requires e.msg.TranscriptionDone?
    ensures var r := UpdateStep(s, e);
      && r.state.recording && !r.state.transcribing
      && r.state.recordingNum == s.recordingNum + 1
      && r.state.currentFile == OutputFile(r.state.recordingNum)
      && r.cmd == Record(NextChunkSeconds, r.state.currentFile)
  {
  }

  /**
   * A recording that fails still yields an entry: recordAudio reports the failure as a
   * TranscriptionDoneMsg, which stores the wrapped error's text.
   */
  lemma RecordFailureStored(s: UiState, file: string, e: Error, now: DateTime, saveOk: bool)
    ensures var r := UpdateStep(s, Event(RecordAudioResult(file, Some(e), now), now, saveOk)).state;
      && |r.transcriptions| == |s.transcriptions| + 1
      && r.transcriptions[..|s.transcriptions|] == s.transcriptions
      && r.transcriptions[|s.transcriptions|] == Transcription(now, "", "recording failed: " + Errors.Message(e))
  {
    var r := UpdateStep(s, Event(RecordAudioResult(file, Some(e), now), now, saveOk)).state;
    assert r.transcriptions == s.transcriptions + [Transcription(now, "", "recording failed: " + Errors.Message(e))];
  }

  /**
   * Every transcription attempt yields exactly one entry, stamped with the time the attempt
   * began: the text, or the wrapped error's message when the audio could not be turned into
   * contents or the transcription failed.
   */
  lemma TranscriptionStored(s: UiState, contentsErr: Option<Error>, transcribed: Result<string, Error>, now: DateTime, saveOk: bool)
    ensures var r := UpdateStep(s, Event(TranscribeAudioResult(contentsErr, transcribed, now), now, saveOk)).state;
      r.transcriptions == s.transcriptions + [
        if contentsErr.Some? then Transcription(now, "", "failed to create contents from audio: " + Errors.Message(contentsErr.value))
        else if transcribed.Err? then Transcription(now, "", "failed to transcribe audio: " + Errors.Message(transcribed.error))
        else Transcription(now, transcribed.value, "")]
  {
  }

  /**
   * A whole session: started from the menu at `started`, then the recorder's and the
   * transcriber's messages, then "s". The file written is named after the start time and
   * holds the entries in the order they arrived; the model is back on the menu with no
   * entries and recording number 0.
   */
  lemma SessionSaved(s: UiState, started: DateTime, workers: seq<Event>, stop: Event)
    requires s.screen == Menu && s.cursor == 0
    requires WorkerMessages(workers) && stop.msg == StopRecording && stop.saveOk
    ensures var start := Event(Key("enter"), started, false);
      var r := Run(s, [start] + workers + [stop]).state;
      && r.screen == Menu && r.transcriptions == [] && r.recordingNum == 0
      && r.saved == s.saved + [SavedFile(TranscriptFileName(started), s.transcriptions + Entries(workers))]
  {
    var start := Event(Key("enter"), started, false);
    var t := SelectStep(s, started).state;
    var all := [start] + workers + [stop];
    assert Run(s, [start]).state == t;
    RunAppend(s, [start], workers);
    EntriesAccumulate(t, workers);
    assert all[..|all| - 1] == [start] + workers;
  }

  /** Running two batches of events one after the other is running them together. */
  lemma {:induction false} RunAppend(s: UiState, a: seq<Event>, b: seq<Event>)
    ensures Run(s, a + b).state == Run(Run(s, a).state, b).state
    decreases |b|
  {
    if b == [] {
      assert a + b == a;
    } else {
      var ab := a + b;
      assert ab[..|ab| - 1] == a + b[..|b| - 1] && ab[|ab| - 1] == b[|b| - 1];
      RunAppend(s, a, b[..|b| - 1]);
    }
  }

  class Model {
    var screen: Screen
    var cursor: int
    var recordingNum: nat
    var currentFile: string
    var recording: bool
    var transcribing: bool
    var startTime: DateTime
    var transcriptions: seq<Transcription>
    var removed: seq<string>
    var saved: seq<SavedFile>

    function State(): UiState
      reads this
    {
      UiState(screen, cursor, recordingNum, currentFile, recording, transcribing, startTime, transcriptions, removed, saved)
    }

    /** NewModel */
    constructor ()
      ensures State() == Initial
    {
      screen, cursor, recordingNum, currentFile := Menu, 0, 0, "";
      recording, transcribing := false, false;
      startTime := DateTime(1, 1, 1, 0, 0, 0);
      transcriptions, removed, saved := [], [], [];
    }

    method SaveSession(saveOk: bool)
      modifies this
      ensures State() == SaveStep(old(State()), saveOk)
    {
      var filename := TranscriptFileName(startTime);
      if !saveOk {
        return;
      }
      saved := saved + [SavedFile(filename, transcriptions)];
    }

    method HandleMenuSelection(now: DateTime) returns (cmd: Cmd)
      modifies this
      ensures Step(State(), cmd) == SelectStep(old(State()), now)
    {
      if cursor == |MenuOptions| - 1 {
        return Quit;
      }
      screen := Recording;
      startTime := now;
      recording := true;
      recordingNum := 0;
      currentFile := OutputFile(recordingNum);
      return TickAndRecord(FirstChunkSeconds, currentFile);
    }

    method HandleKey(k: string, now: DateTime) returns (cmd: Cmd)
      modifies this
      ensures Step(State(), cmd) == KeyStep(old(State()), k, now)
    {
      cmd := NoCmd;
      match screen
      case Menu =>
        if k == "ctrl+c" || k == "q" {
          cmd := Quit;
        } else if k == "up" {
          if cursor > 0 {
            cursor := cursor - 1;
          }
        } else if k == "down" {
          if cursor < |MenuOptions| - 1 {
            cursor := cursor + 1;
          }
        } else if k == "enter" {
          cmd := HandleMenuSelection(now);
        }
      case Recording =>
        if k == "s" || k == "S" {
          cmd := RequestStop;
        }
    }

    method HandleTranscriptionDone(ts: DateTime, text: string, err: Option<Error>) returns (cmd: Cmd)
      modifies this
      ensures Step(State(), cmd) == DoneStep(old(State()), ts, text, err)
    {
      transcribing := false;
      transcriptions := transcriptions + [Entry(ts, text, err)];
      if currentFile != "" {
        removed := removed + [currentFile];
      }
      recordingNum := recordingNum + 1;
      recording := true;
      currentFile := OutputFile(recordingNum);
      cmd := Record(NextChunkSeconds, currentFile);
    }

    method Update(e: Event) returns (cmd: Cmd)
      modifies this
      ensures Step(State(), cmd) == UpdateStep(old(State()), e)
    {
      match e.msg
      case Key(k) =>
        cmd := HandleKey(k, e.now);
      case Tick =>
        cmd := Spin;
      case RecordingDone(f) =>
        recording, transcribing := false, true;
        currentFile := f;
        cmd := Transcribe(f);
      case TranscriptionDone(ts, text, err) =>
        cmd := HandleTranscriptionDone(ts, text, err);
      case StopRecording =>
        SaveSession(e.saveOk);
        screen := Menu;
        transcriptions := [];
        recordingNum := 0;
        cmd := NoCmd;
      case Other =>
        cmd := NoCmd;
    }
  }
}
