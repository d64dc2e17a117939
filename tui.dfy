/**
 * The terminal interface of internal/ui: a menu (start a session, adjust the chunk duration,
 * exit) and a recording screen that shows the transcript as it streams in. Only the state
 * the key and message handlers change is modelled; the spinner, the viewport and the
 * rendering are not. The chunk duration is kept in whole seconds, which is all the handlers
 * ever produce from their initial ten seconds.
 */
module Tui {
  import opened Wrappers
  import opened Errors
  import Messages

  datatype Screen = Menu | Recording

  /** The commands the handlers hand back to the Bubble Tea runtime. */
  datatype Cmd =
    | NoCmd
    | Quit
    | Listen        // spinner tick plus waitForTranscript, after a successful Start
    | StopAndQuit   // app.Stop() with its result dropped, then tea.Quit
    | EndSession    // the command built by sessionEnd
    | Scroll        // the viewport's own reaction to a key
    | Spin          // the spinner's next tick
    | WaitForTranscript

  /** The messages Update receives. */
  datatype Msg =
    | Key(name: string)                 // tea.KeyMsg, by its String()
    | Tick                              // spinner.TickMsg
    | TranscriptChunk(text: string)     // transcriptChunkMsg
    | SessionEnded(error: Option<Error>) // sessionEndMsg
    | Other

  /**
   * A message together with what app.Start returns if handling it calls app.Start (only an
   * "enter" on the first menu row does).
   */
  datatype Event = Event(msg: Msg, startErr: Option<Error>)

  const MenuOptions: seq<string> := ["Start Session", "Chunk Duration", "Exit"]
  const InitialChunkSeconds: int := 10
  const MinChunkSeconds: int := 1
  const MaxChunkSeconds: int := 60

  /** The fields of Model the handlers write. */
  datatype UiState = UiState(
    screen: Screen, cursor: int, chunkSeconds: int, errorMsg: string,
    sessionStopping: bool, transcriptContent: string, chunkCount: int)

  /** What a handler leaves behind: the new state and the command it returns. */
  datatype Step = Step(state: UiState, cmd: Cmd)

  /** NewModel */
  const Initial: UiState := UiState(Menu, 0, InitialChunkSeconds, "", false, "", 0)

  /** The cursor points at a menu row and the chunk duration is between one second and a minute. */
  predicate Bounded(s: UiState)
  {
    0 <= s.cursor < |MenuOptions| && MinChunkSeconds <= s.chunkSeconds <= MaxChunkSeconds && s.chunkCount >= 0
  }

  /** handleMenuSelection */
  function SelectStep(s: UiState, startErr: Option<Error>): Step
  {
    if s.cursor == 0 then
      var t := s.(screen := Recording, transcriptContent := "", errorMsg := "", chunkCount := 0);
      Step(t, if startErr.Some? then Quit else Listen)
    else if s.cursor == 1 then Step(s, NoCmd)
    else if s.cursor == |MenuOptions| - 1 then Step(s, Quit)
    else Step(s, NoCmd)
  }

  /** handleKeyEvent */
  function KeyStep(s: UiState, key: string, startErr: Option<Error>): Step
  {
    match s.screen
    case Menu =>
      if key == "ctrl+c" || key == "q" then Step(s, Quit)
      else if key == "up" then Step(if s.cursor > 0 then s.(cursor := s.cursor - 1) else s, NoCmd)
      else if key == "down" then Step(if s.cursor < |MenuOptions| - 1 then s.(cursor := s.cursor + 1) else s, NoCmd)
      else if key == "left" then
        Step(if s.cursor == 1 && s.chunkSeconds > MinChunkSeconds then s.(chunkSeconds := s.chunkSeconds - 1) else s, NoCmd)
      else if key == "right" then
        Step(if s.cursor == 1 && s.chunkSeconds < MaxChunkSeconds then s.(chunkSeconds := s.chunkSeconds + 1) else s, NoCmd)
      else if key == "enter" then SelectStep(s, startErr)
      else Step(s, NoCmd)
    case Recording =>
      if key == "ctrl+c" || key == "q" then Step(s, StopAndQuit)
      else if key == "s" || key == "S" then
        if s.sessionStopping then Step(s, NoCmd) else Step(s.(sessionStopping := true), EndSession)
      else Step(s, Scroll)
  }

  /** Update */
  function UpdateStep(s: UiState, e: Event): (r: Step)
    ensures Bounded(s) ==> Bounded(r.state)
  {
    match e.msg
    case Key(k) => KeyStep(s, k, e.startErr)
    case Tick => Step(s, Spin)
    case TranscriptChunk(text) =>
      Step(s.(chunkCount := s.chunkCount + 1, transcriptContent := s.transcriptContent + text + "\n"), WaitForTranscript)
    case SessionEnded(err) =>
      var t := s.(screen := Menu, sessionStopping := false);
      Step(if err.Some? then t.(errorMsg := Messages.ErrorMessage(Errors.Message(err.value))) else t, NoCmd)
    case Other => Step(s, NoCmd)
  }

  /** The state after a run of events, and the commands handed back along the way. */
  function Run(s: UiState, events: seq<Event>): Step
  {
    if events == [] then Step(s, NoCmd)
    else UpdateStep(Run(s, events[..|events| - 1]).state, events[|events| - 1])
  }

  function Commands(s: UiState, events: seq<Event>): (cmds: seq<Cmd>)
    ensures |cmds| == |events|
  {
    if events == [] then [] else Commands(s, events[..|events| - 1]) + [Run(s, events).cmd]
  }

  /**
   * Whatever keys are pressed and messages arrive, from the initial model the cursor stays
   * on a menu row and the chunk duration stays between one and sixty seconds.
   */
  lemma {:induction false} RunStaysBounded(events: seq<Event>)
    ensures Bounded(Run(Initial, events).state)
    decreases |events|
  {
    if events != [] {
      RunStaysBounded(events[..|events| - 1]);
    }
  }

  /** "left" and "right" change nothing unless the cursor is on the chunk-duration row. */
  lemma AdjustOnlyOnDurationRow(s: UiState, key: string, startErr: Option<Error>)
    requires s.screen == Menu && (key == "left" || key == "right")
    ensures s.cursor != 1 ==> KeyStep(s, key, startErr) == Step(s, NoCmd)
    ensures s.cursor == 1 && Bounded(s) ==>
      KeyStep(s, key, startErr).state.chunkSeconds
        == if key == "left" then (if s.chunkSeconds > 1 then s.chunkSeconds - 1 else 1)
           else (if s.chunkSeconds < 60 then s.chunkSeconds + 1 else 60)
  {
  }

  /** Choosing "Start Session" clears the transcript, the error and the chunk count, and quits if Start fails. */
  lemma StartClearsTranscript(s: UiState, startErr: Option<Error>)
    requires s.screen == Menu && s.cursor == 0
    ensures var r := KeyStep(s, "enter", startErr);
      && r.state == s.(screen := Recording, transcriptContent := "", errorMsg := "", chunkCount := 0)
      && (r.cmd == Quit <==> startErr.Some?)
  {
  }

  /** Every message other than a session end, on the recording screen. */
  predicate NoSessionEnd(events: seq<Event>)
  {
    forall k :: 0 <= k < |events| ==> !events[k].msg.SessionEnded?
  }

  function CountEndSession(cmds: seq<Cmd>): nat
  {
    if cmds == [] then 0 else CountEndSession(cmds[..|cmds| - 1]) + (if cmds[|cmds| - 1] == EndSession then 1 else 0)
  }

  /**
   * The stop-spam guard: on the recording screen, until a session end comes back, however
   * often "s" is pressed at most one session-end command is issued, and none once the stop
   * is already under way.
   */
  lemma {:induction false} StopIssuedOnce(s: UiState, events: seq<Event>)
    requires s.screen == Recording && NoSessionEnd(events)
    ensures var r := Run(s, events).state;
      && r.screen == Recording
      && (s.sessionStopping ==> r.sessionStopping)
      && CountEndSession(Commands(s, events)) == (if r.sessionStopping && !s.sessionStopping then 1 else 0)
    decreases |events|
  {
    if events != [] {
      var init, last := events[..|events| - 1], events[|events| - 1];
      assert NoSessionEnd(init) by {
        forall k | 0 <= k < |init| ensures !init[k].msg.SessionEnded? {
          assert init[k] == events[k];
        }
      }
      StopIssuedOnce(s, init);
      var prev := Run(s, init).state;
      var step := UpdateStep(prev, last);
      assert Run(s, events) == step;
      var cmds := Commands(s, events);
      assert cmds[..|cmds| - 1] == Commands(s, init) && cmds[|cmds| - 1] == step.cmd;
      assert !last.msg.SessionEnded?;
      assert step.cmd == EndSession <==> !prev.sessionStopping && step.state.sessionStopping;
    }
  }

  /** text + "\n" for each transcript chunk, in order. */
  function Lines(texts: seq<string>): string
  {
    if texts == [] then "" else Lines(texts[..|texts| - 1]) + texts[|texts| - 1] + "\n"
  }

  function Chunks(texts: seq<string>): (events: seq<Event>)
    ensures |events| == |texts|
  {
    if texts == [] then [] else Chunks(texts[..|texts| - 1]) + [Event(TranscriptChunk(texts[|texts| - 1]), None)]
  }

  /**
   * Transcript accumulation: each chunk adds one to the count and its text and a newline to
   * the content, in the order the chunks arrive.
   */
  lemma {:induction false} ChunksAccumulate(s: UiState, texts: seq<string>)
    ensures var r := Run(s, Chunks(texts)).state;
      && r == s.(chunkCount := s.chunkCount + |texts|, transcriptContent := s.transcriptContent + Lines(texts))
    decreases |texts|
  {
    if texts != [] {
      var init, last := texts[..|texts| - 1], texts[|texts| - 1];
      var es := Chunks(texts);
      assert es[..|es| - 1] == Chunks(init);
      ChunksAccumulate(s, init);
      var c := s.transcriptContent;
      assert (c + Lines(init)) + last + "\n" == c + (Lines(init) + last + "\n");
    }
  }

  class Model {
    var screen: Screen
    var cursor: int
    var chunkSeconds: int
    var errorMsg: string
    var sessionStopping: bool
    var transcriptContent: string
    var chunkCount: int

    function State(): UiState
      reads this
    {
      UiState(screen, cursor, chunkSeconds, errorMsg, sessionStopping, transcriptContent, chunkCount)
    }

    /** NewModel */
    constructor ()
      ensures State() == Initial
    {
      screen, cursor, chunkSeconds := Menu, 0, InitialChunkSeconds;
      errorMsg, sessionStopping := "", false;
      transcriptContent, chunkCount := "", 0;
    }

    method HandleMenuSelection(startErr: Option<Error>) returns (cmd: Cmd)
      modifies this
      ensures Step(State(), cmd) == SelectStep(old(State()), startErr)
    {
      if cursor == 0 {
        screen := Recording;
        transcriptContent, errorMsg, chunkCount := "", "", 0;
        if startErr.Some? {
          return Quit;
        }
        return Listen;
      } else if cursor == 1 {
        return NoCmd;
      } else if cursor == |MenuOptions| - 1 {
        return Quit;
      }
      return NoCmd;
    }

    method HandleKeyEvent(key: string, startErr: Option<Error>) returns (cmd: Cmd)
      modifies this
      ensures Step(State(), cmd) == KeyStep(old(State()), key, startErr)
    {
      cmd := NoCmd;
      match screen
      case Menu =>
        if key == "ctrl+c" || key == "q" {
          return Quit;
        } else if key == "up" {
          if cursor > 0 {
            cursor := cursor - 1;
          }
        } else if key == "down" {
          if cursor < |MenuOptions| - 1 {
            cursor := cursor + 1;
          }
        } else if key == "left" {
          if cursor == 1 && chunkSeconds > MinChunkSeconds {
            chunkSeconds := chunkSeconds - 1;
          }
        } else if key == "right" {
          if cursor == 1 && chunkSeconds < MaxChunkSeconds {
            chunkSeconds := chunkSeconds + 1;
          }
        } else if key == "enter" {
          cmd := HandleMenuSelection(startErr);
        }
      case Recording =>
        if key == "ctrl+c" || key == "q" {
          return StopAndQuit;
        } else if key == "s" || key == "S" {
          if sessionStopping {
            return NoCmd;
          }
          sessionStopping := true;
          return EndSession;
        }
        return Scroll;
    }

    method Update(e: Event) returns (cmd: Cmd)
      modifies this
      ensures Step(State(), cmd) == UpdateStep(old(State()), e)
    {
      match e.msg
      case Key(k) =>
        cmd := HandleKeyEvent(k, e.startErr);
      case Tick =>
        cmd := Spin;
      case TranscriptChunk(text) =>
        chunkCount := chunkCount + 1;
        transcriptContent := transcriptContent + text + "\n";
        cmd := WaitForTranscript;
      case SessionEnded(err) =>
        screen := Menu;
        sessionStopping := false;
        if err.Some? {
          errorMsg := Messages.ErrorMessage(Errors.Message(err.value));
        }
        cmd := NoCmd;
      case Other =>
        cmd := NoCmd;
    }
  }
}
