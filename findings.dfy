/**
 * Call sequences on a fresh controller that show where internal/core departs from its own
 * design, each next to the same sequence on the corrected operation. Every sequence uses one
 * variant of the controller: application.go's Start/Stop, or session.go's
 * StartSession/StopSession.
 */
module Findings {
  import opened Wrappers
  import opened Errors
  import opened TimeFormat
  import opened Pipeline
  import opened Core

  /**
   * Start as written (application.go): when ResetContext fails, Start returns with the mutex
   * still locked, so the Stop that follows blocks for ever.
   */
  method StartFailureLeavesLock(now: DateTime, e: Error) returns (start: Call<nat>, stop: Call<string>)
    ensures start == Done(Err(Wrapped("failed to reset transcriber context: ", e)))
    ensures stop == Deadlock
  {
    var a := new Application(false);
    start := a.Start(SessionChunkSeconds, None, Some(e));
    stop := a.Stop(now, None, None);
  }

  /** The same calls on the releasing Start: Stop gets the lock and reports that nothing runs. */
  method StartFailureReleasesLock(now: DateTime, e: Error) returns (start: Call<nat>, stop: Call<string>)
    ensures start == Done(Err(Wrapped("failed to reset transcriber context: ", e)))
    ensures stop == Done(Err(ErrNoActiveSession))
  {
    var a := new Application(false);
    start := a.StartReleasing(SessionChunkSeconds, None, Some(e));
    stop := a.Stop(now, None, None);
  }

  /**
   * record as written (application.go's Start): when the audio source cannot be found the
   * queue is never closed, so a transcribe worker with nothing left to dequeue does not
   * return; the session never ends by itself. Only the cancellation by Stop ends the wait,
   * and the worker then returns Canceled instead of a clean nil.
   */
  method SourceFailureStallsTranscriber(now: DateTime, e: Error)
    returns (recordErr: Error, end: WorkerEnd, stop: Call<string>, afterStop: WorkerEnd)
    ensures recordErr == Wrapped("failed to get audio source: ", e)
    ensures end == Waiting
    ensures stop == Done(Ok(TranscriptFileName(now)))
    ensures afterStop == Returned(Some(Canceled))
  {
    var a := new Application(false);
    var start := a.Start(SessionChunkSeconds, None, None);
    recordErr := a.RecordWorker(Err(e), []);
    end := a.TranscribeWorker([]);
    stop := a.Stop(now, None, None);
    afterStop := a.TranscribeWorker([]);
  }

  /** The same calls with the queue closed on every return: the transcribe worker returns cleanly. */
  method SourceFailureEndsTranscriber(e: Error) returns (recordErr: Error, end: WorkerEnd)
    ensures recordErr == Wrapped("failed to get audio source: ", e)
    ensures end == Returned(None)
  {
    var a := new Application(false);
    var start := a.Start(SessionChunkSeconds, None, None);
    recordErr := a.RecordWorkerClosing(Err(e), []);
    end := a.TranscribeWorker([]);
  }

  /**
   * save as written (application.go) names the file after the moment Stop is called: the
   * time Start was called at plays no part, so a session started at one time and stopped at
   * another is not saved under its start time.
   */
  method SaveNamedByStopTime(started: DateTime, stopped: DateTime) returns (stop: Call<string>)
    requires ValidTime(started) && ValidTime(stopped) && 0 <= started.year <= 9999 && 0 <= stopped.year <= 9999
    requires started != stopped
    ensures stop == Done(Ok(TranscriptFileName(stopped)))
    ensures stop.result.value != TranscriptFileName(started)
  {
    var a := new Application(false);
    var start := a.Start(SessionChunkSeconds, None, None);
    stop := a.Stop(stopped, None, None);
    if TranscriptFileName(stopped) == TranscriptFileName(started) {
      TranscriptFileNameInjective(started, stopped);
    }
  }

  /** saveSession (session.go) names the file after the session's start time, however late it is stopped. */
  method SaveNamedByStartTime(started: DateTime, stopped: DateTime) returns (stop: Call<string>)
    ensures stop == Done(Ok(TranscriptFileName(started)))
  {
    var a := new Application(false);
    var start := a.StartSession(started, None);
    stop := a.StopSession(stopped, None, None);
  }

  /**
   * The supervisor of application.go clears isRunning without the lock. A second Start
   * returns early on "session already running" and leaves the mutex held; the recorder then
   * fails on the first chunk (which closes the queue), the transcribe worker drains the empty
   * closed queue and returns, and the supervisor writes isRunning while the mutex is held.
   */
  method SupervisorIgnoresLock(source: string, e: Error) returns (cleared: bool, locked: bool, running: bool)
    ensures cleared && locked && !running
  {
    var a := new Application(false);
    var first := a.Start(SessionChunkSeconds, None, None);
    var second := a.Start(SessionChunkSeconds, None, None);
    var recordErr := a.RunRecord(Ok(source), [Attempt(Some(e), None, 0, false)]);
    var end := a.RunTranscribe([]);
    cleared := a.WorkersFinished();
    locked, running := a.mu, a.isRunning;
  }

  /**
   * The same calls with session.go's supervisor, which takes the lock first: while the mutex
   * is held it waits for it instead of writing isRunning.
   */
  method SupervisorTakesLock(source: string, e: Error) returns (r: Call<bool>, running: bool)
    ensures r == Deadlock && running
  {
    var a := new Application(false);
    var first := a.Start(SessionChunkSeconds, None, None);
    var second := a.Start(SessionChunkSeconds, None, None);
    var recordErr := a.RunRecord(Ok(source), [Attempt(Some(e), None, 0, false)]);
    var end := a.RunTranscribe([]);
    r := a.SessionWorkersFinished();
    running := a.isRunning;
  }
}
