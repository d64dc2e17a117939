/**
 * The session controller of internal/core: Start/Stop (application.go), the alternative
 * StartSession/StopSession (session.go) and the two workers (record.go, transcribe.go) as
 * methods of one Application object. The goroutines run one after the other; the
 * environment (recorder, transcriber, file system, clock) enters as parameters. The mutex is
 * a flag: locking it while it is held can never succeed here, which is reported as Deadlock.
 */
module Core {
  import opened Wrappers
  import opened Errors
  import opened Text
  import opened TimeFormat
  import opened Pipeline

  /** make(chan string, 100) */
  const StreamCapacity: nat := 100
  /** StartSession records in chunks of a fixed ten seconds. */
  const SessionChunkSeconds: nat := 10

  const ErrAlreadyRunning: Error := Failure("session already running")
  const ErrNoActiveSession: Error := Failure("no active session")
  /** What os.Mkdir(".tmp") returns when the directory is already there. */
  const ErrTmpExists: Error := Failure("mkdir .tmp: file exists")

  /** A call that takes the mutex: it blocks for ever if the mutex is held, or it returns. */
  datatype Call<T> = Deadlock | Done(result: Result<T, Error>)

  /**
   * What initSession installs and the workers share: the cancel scope (cancelled or not),
   * the queue (its messages and whether it is closed), the chunk counter and the stored
   * transcript entries, in the order they were stored.
   */
  datatype Session = Session(cancelled: bool, queue: seq<Pipeline.Message>, queueClosed: bool, counter: nat, transcription: seq<Stored>)

  const FreshSession: Session := Session(false, [], false, 0, [])

  /** The string channel handed to the caller: what was sent on it, and whether it is still open. */
  datatype Stream = Stream(items: seq<string>, open: bool)

  /** session.go's session record: when it started and, once saved, when it ended. */
  datatype SessionTimes = SessionTimes(start: DateTime, end: Option<DateTime>)

  /**
   * A transcript file that was written: its name and the entries marshalled into it, the
   * transcription map keyed by the second each entry was stored in.
   */
  datatype Saved = Saved(name: string, entries: map<int, Chunk>)

  /**
   * The file system as the controller sees it: whether .tmp exists, the chunks recorded
   * into it, the chunk files removed from it, and the transcript files written.
   */
  datatype Disk = Disk(tmpExists: bool, recorded: seq<RecordRequest>, removed: seq<string>, saved: seq<Saved>)

  /** Everything the methods read and write, as one value. */
  datatype AppState = AppState(
    mu: bool, isRunning: bool, session: Session, stream: Stream, recording: bool, transcribing: bool,
    chunkSeconds: nat, times: SessionTimes, disk: Disk)

  /**
   * The invariant of the controller: the counter is a uint32, the session is running while
   * either worker is, and the stream is open exactly while the transcribe worker runs (it
   * closes the stream when it returns).
   */
  predicate Valid(st: AppState)
  {
    && st.session.counter < Uint32Modulus
    && (st.recording || st.transcribing ==> st.isRunning)
    && st.stream.open == st.transcribing
  }

  /** Go forwards a worker's error to the stream unless errors.Is(err, context.Canceled). */
  function Forwarded(err: Error): (lines: seq<string>)
    ensures lines == [] <==> IsCanceled(err)
    ensures lines != [] ==> lines == [Errors.Message(err)]
  {
    if IsCanceled(err) then [] else [Errors.Message(err)]
  }

  // ---------------------------------------------------------------------------------------
  // transcribe.go

  /**
   * The scan loop for one transcription: each line is added to fullText and sent on the
   * stream, then the scanner's error line if there is one. When cancellation wins a send
   * the reader is closed and the loop stops; what was sent by then is returned.
   */
  method ScanLines(reply: Reply) returns (fullText: string, sent: seq<string>, lost: bool)
    requires reply.Streamed?
    ensures lost == CancelWins(reply)
    ensures lost ==> sent == Output(reply)[..reply.lostSend.value]
    ensures !lost ==> sent == Output(reply) && fullText == Concat(reply.lines)
  {
    var lines := reply.lines;
    fullText, sent := "", [];
    var j := 0;
    while j < |lines|
      invariant j <= |lines|
      invariant fullText == Concat(lines[..j]) && sent == lines[..j]
      invariant reply.lostSend.Some? ==> reply.lostSend.value >= j
    {
      assert lines[..j + 1][..j] == lines[..j];
      fullText := fullText + lines[j];
      if reply.lostSend == Some(j) {
        assert Output(reply)[..j] == lines[..j];
        return fullText, sent, true;
      }
      sent := sent + [lines[j]];
      j := j + 1;
    }
    assert lines[..j] == lines;
    if reply.scanErr.Some? {
      var errMsg := ScanErrorLine(reply.scanErr.value);
      if reply.lostSend == Some(|lines|) {
        assert Output(reply)[..|lines|] == lines;
        return fullText, sent, true;
      }
      sent := sent + [errMsg];
    }
    return fullText, sent, false;
  }

  /**
   * The loop of transcribe, on the values it reads and writes: dequeue, transcribe, forward
   * the lines, remove the chunk file and store one entry per message, until the queue is
   * closed and empty, the scope is cancelled, a transcription fails, or a send loses to the
   * cancellation. It ends as TranscribeLoop says.
   */
  method TranscribeMessages(queue0: seq<Pipeline.Message>, closed: bool, cancelled0: bool, replies: seq<Reply>)
    returns (r: TranscribeRun)
    ensures r == TranscribeLoop(queue0, closed, cancelled0, replies)
  {
    var queue, cancelled := queue0, cancelled0;
    var sent: seq<string>, stored: seq<Stored>, removed: seq<string> := [], [], [];
    var i := 0;
    ResumedHalt(0, [], [], [], Waiting, 0, [], false);
    while true
      invariant i <= |replies| && i <= |queue0|
      invariant queue == queue0[i..]
      invariant TranscribeLoop(queue0, closed, cancelled0, replies)
             == Resumed(i, sent, stored, removed, TranscribeLoop(queue, closed, cancelled, replies[i..]))
      decreases |queue|
    {
      if queue == [] {
        var end := if closed then Returned(None) else if cancelled then Returned(Some(Canceled)) else Waiting;
        ResumedHalt(i, sent, stored, removed, end, 0, [], cancelled);
        return TranscribeRun(end, i, sent, stored, removed, cancelled);
      }
      var msg := queue[0];
      queue := queue[1..];
      if i == |replies| {
        assert replies[i..] == [];
        TranscribeNoReply(queue0[i..], closed, cancelled);
        ResumedHalt(i, sent, stored, removed, Waiting, 1, [], cancelled);
        return TranscribeRun(Waiting, i + 1, sent, stored, removed, cancelled);
      }
      var reply := replies[i];
      assert replies[i..][0] == reply && replies[i..][1..] == replies[i + 1..];
      if reply.Failed? {
        TranscribeFails(queue0[i..], closed, cancelled, replies[i..]);
        var c := cancelled || reply.cancels;
        var err := if c then Canceled else Wrapped("failed to transcribe audio: ", reply.err);
        ResumedHalt(i, sent, stored, removed, Returned(Some(err)), 1, [], c);
        return TranscribeRun(Returned(Some(err)), i + 1, sent, stored, removed, c);
      }
      var fullText, lines, lost := ScanLines(reply);
      if lost {
        TranscribeLosesSend(queue0[i..], closed, cancelled, replies[i..]);
        ResumedHalt(i, sent, stored, removed, Returned(Some(Canceled)), 1, lines, true);
        return TranscribeRun(Returned(Some(Canceled)), i + 1, sent + lines, stored, removed, true);
      }
      var entry := Stored(reply.storedAt, Chunk(msg.timestamp, fullText, reply.scanErr));
      TranscribeNext(queue0[i..], closed, cancelled, replies[i..]);
      assert queue0[i..][1..] == queue;
      ResumedTwice(i, sent, stored, removed, lines, [entry], [msg.fileName], TranscribeLoop(queue, closed, cancelled, replies[i + 1..]));
      sent := sent + lines;
      stored := stored + [entry];
      removed := removed + [msg.fileName];
      i := i + 1;
    }
  }

  /** A send on the stream: it lands while the stream is open; on a closed one Go panics, and the recover drops it. */
  function Send(s: Stream, lines: seq<string>): (r: Stream)
    ensures r.open == s.open
    ensures r.items == if s.open then s.items + lines else s.items
  {
    if s.open then s.(items := s.items + lines) else s
  }

  class Application {
    var mu: bool
    var isRunning: bool
    var session: Session
    var stream: Stream
    var recording: bool
    var transcribing: bool
    var chunkSeconds: nat
    var times: SessionTimes
    var disk: Disk

    function State(): AppState
      reads this
    {
      AppState(mu, isRunning, session, stream, recording, transcribing, chunkSeconds, times, disk)
    }

    /**
     * NewApplication: idle, unlocked, no session yet. It leaves the file system alone, so
     * whether a .tmp directory is already there (left by an earlier run) is a parameter.
     */
    constructor (tmpExists: bool)
      ensures Valid(State())
      ensures !mu && !isRunning && !recording && !transcribing && disk == Disk(tmpExists, [], [], [])
    {
      mu, isRunning := false, false;
      session := FreshSession;
      stream := Stream([], false);
      recording, transcribing := false, false;
      chunkSeconds := 0;
      times := SessionTimes(DateTime(1, 1, 1, 0, 0, 0), None);
      disk := Disk(tmpExists, [], [], []);
    }

    // -------------------------------------------------------------------------------------
    // application.go

    /**
     * initSession: a fresh scope, map and queue, the counter back to 0, then the
     * transcriber's ResetContext; if that fails the new scope is cancelled and the error is
     * returned wrapped.
     */
    method InitSession(resetErr: Option<Error>) returns (err: Option<Error>)
      modifies this
      ensures err == if resetErr.Some? then Some(Wrapped("failed to reset transcriber context: ", resetErr.value)) else None
      ensures State() == old(State()).(session := FreshSession.(cancelled := resetErr.Some?))
    {
      session := FreshSession;
      if resetErr.Some? {
        session := session.(cancelled := true);
        return Some(Wrapped("failed to reset transcriber context: ", resetErr.value));
      }
      return None;
    }

    /** The two workers are started and the stream is created empty and open. */
    method Launch(seconds: nat)
      modifies this
      ensures State() == old(State()).(isRunning := true, stream := Stream([], true),
                                       recording := true, transcribing := true, chunkSeconds := seconds)
    {
      isRunning := true;
      stream := Stream([], true);
      recording, transcribing := true, true;
      chunkSeconds := seconds;
    }

    /**
     * Start as written: the early returns for a running session, a failed Mkdir and a
     * failed initSession leave the mutex locked. Mkdir fails when .tmp already exists.
     */
    method Start(seconds: nat, mkdirErr: Option<Error>, resetErr: Option<Error>) returns (r: Call<nat>)
      requires Valid(State())
      modifies this
      ensures Valid(State())
      ensures old(mu) ==> r == Deadlock && State() == old(State())
      ensures !old(mu) && old(isRunning) ==> r == Done(Err(ErrAlreadyRunning)) && State() == old(State()).(mu := true)
      ensures !old(mu) && !old(isRunning) && old(disk.tmpExists) ==>
        r == Done(Err(ErrTmpExists)) && State() == old(State()).(mu := true)
      ensures !old(mu) && !old(isRunning) && !old(disk.tmpExists) && mkdirErr.Some? ==>
        r == Done(Err(mkdirErr.value)) && State() == old(State()).(mu := true)
      ensures !old(mu) && !old(isRunning) && !old(disk.tmpExists) && mkdirErr.None? && resetErr.Some? ==>
        && r == Done(Err(Wrapped("failed to reset transcriber context: ", resetErr.value)))
        && State() == old(State()).(mu := true, session := FreshSession.(cancelled := true),
                                    disk := old(disk).(tmpExists := true))
      ensures !old(mu) && !old(isRunning) && !old(disk.tmpExists) && mkdirErr.None? && resetErr.None? ==>
        && r == Done(Ok(StreamCapacity))
        && State() == old(State()).(isRunning := true, session := FreshSession, stream := Stream([], true),
                                    recording := true, transcribing := true, chunkSeconds := seconds,
                                    disk := old(disk).(tmpExists := true))
    {
      if mu {
        return Deadlock;
      }
      mu := true;
      if isRunning {
        return Done(Err(ErrAlreadyRunning));
      }
      if disk.tmpExists {
        return Done(Err(ErrTmpExists));
      }
      if mkdirErr.Some? {
        return Done(Err(mkdirErr.value));
      }
      disk := disk.(tmpExists := true);
      var err := InitSession(resetErr);
      if err.Some? {
        return Done(Err(err.value));
      }
      mu := false;
      Launch(seconds);
      return Done(Ok(StreamCapacity));
    }

    /** Start with the mutex released on every return, as its callers evidently expect. */
    method StartReleasing(seconds: nat, mkdirErr: Option<Error>, resetErr: Option<Error>) returns (r: Call<nat>)
      requires Valid(State())
      modifies this
      ensures Valid(State())
      ensures old(mu) ==> r == Deadlock && State() == old(State())
      ensures !old(mu) && old(isRunning) ==> r == Done(Err(ErrAlreadyRunning)) && State() == old(State())
      ensures !old(mu) && !old(isRunning) && old(disk.tmpExists) ==>
        r == Done(Err(ErrTmpExists)) && State() == old(State())
      ensures !old(mu) && !old(isRunning) && !old(disk.tmpExists) && mkdirErr.Some? ==>
        r == Done(Err(mkdirErr.value)) && State() == old(State())
      ensures !old(mu) && !old(isRunning) && !old(disk.tmpExists) && mkdirErr.None? && resetErr.Some? ==>
        && r == Done(Err(Wrapped("failed to reset transcriber context: ", resetErr.value)))
        && State() == old(State()).(session := FreshSession.(cancelled := true), disk := old(disk).(tmpExists := true))
      ensures !old(mu) && !old(isRunning) && !old(disk.tmpExists) && mkdirErr.None? && resetErr.None? ==>
        && r == Done(Ok(StreamCapacity))
        && State() == old(State()).(isRunning := true, session := FreshSession, stream := Stream([], true),
                                    recording := true, transcribing := true, chunkSeconds := seconds,
                                    disk := old(disk).(tmpExists := true))
    {
      if mu {
        return Deadlock;
      }
      if isRunning {
        return Done(Err(ErrAlreadyRunning));
      }
      if disk.tmpExists {
        return Done(Err(ErrTmpExists));
      }
      if mkdirErr.Some? {
        return Done(Err(mkdirErr.value));
      }
      disk := disk.(tmpExists := true);
      var err := InitSession(resetErr);
      if err.Some? {
        return Done(Err(err.value));
      }
      Launch(seconds);
      return Done(Ok(StreamCapacity));
    }

    /**
     * save: marshal the entries, write them to a file named from the current time, and
     * remove .tmp only once the write succeeded.
     */
    method Save(now: DateTime, marshalErr: Option<Error>, writeErr: Option<Error>) returns (r: Result<string, Error>)
      modifies this
      ensures marshalErr.Some? ==> r == Err(Wrapped("failed to marshal session: ", marshalErr.value)) && State() == old(State())
      ensures marshalErr.None? && writeErr.Some? ==>
        r == Err(Wrapped("failed to write file: ", writeErr.value)) && State() == old(State())
      ensures marshalErr.None? && writeErr.None? ==>
        && r == Ok(TranscriptFileName(now))
        && State() == old(State()).(disk := old(disk).(tmpExists := false,
                                      saved := old(disk.saved) + [Saved(r.value, KeyedBySecond(old(session.transcription)))]))
    {
      if marshalErr.Some? {
        return Err(Wrapped("failed to marshal session: ", marshalErr.value));
      }
      var name := TranscriptFileName(now);
      if writeErr.Some? {
        return Err(Wrapped("failed to write file: ", writeErr.value));
      }
      disk := disk.(tmpExists := false, saved := disk.saved + [Saved(name, KeyedBySecond(session.transcription))]);
      return Ok(name);
    }

    /**
     * Stop: refused while idle (nothing is cancelled); otherwise the scope is cancelled
     * under the lock and the entries stored so far are saved. isRunning is left to the
     * workers' supervisor.
     */
    method Stop(now: DateTime, marshalErr: Option<Error>, writeErr: Option<Error>) returns (r: Call<string>)
      requires Valid(State())
      modifies this
      ensures Valid(State())
      ensures old(mu) ==> r == Deadlock && State() == old(State())
      ensures !old(mu) && !old(isRunning) ==> r == Done(Err(ErrNoActiveSession)) && State() == old(State())
      ensures !old(mu) && old(isRunning) && marshalErr.Some? ==>
        && r == Done(Err(Wrapped("failed to marshal session: ", marshalErr.value)))
        && State() == old(State()).(session := old(session).(cancelled := true))
      ensures !old(mu) && old(isRunning) && marshalErr.None? && writeErr.Some? ==>
        && r == Done(Err(Wrapped("failed to write file: ", writeErr.value)))
        && State() == old(State()).(session := old(session).(cancelled := true))
      ensures !old(mu) && old(isRunning) && marshalErr.None? && writeErr.None? ==>
        && r == Done(Ok(TranscriptFileName(now)))
        && State() == old(State()).(session := old(session).(cancelled := true),
                                    disk := old(disk).(tmpExists := false,
                                      saved := old(disk.saved) + [Saved(TranscriptFileName(now), KeyedBySecond(old(session.transcription)))]))
    {
      if mu {
        return Deadlock;
      }
      if !isRunning {
        return Done(Err(ErrNoActiveSession));
      }
      session := session.(cancelled := true);
      var s := Save(now, marshalErr, writeErr);
      return Done(s);
    }

    /**
     * The supervisor of application.go: once both workers are done, isRunning is cleared,
     * without taking the lock.
     */
    method WorkersFinished() returns (cleared: bool)
      requires Valid(State())
      modifies this
      ensures Valid(State())
      ensures cleared <==> !old(recording) && !old(transcribing)
      ensures State() == if cleared then old(State()).(isRunning := false) else old(State())
    {
      cleared := !recording && !transcribing;
      if cleared {
        isRunning := false;
      }
    }

    // -------------------------------------------------------------------------------------
    // session.go

    /**
     * StartSession: refused while running, with the lock released by its defer; otherwise a
     * fresh session stamped with the current time, a live scope, isRunning, and two workers
     * recording ten-second chunks. A failed Mkdir is ignored.
     */
    method StartSession(now: DateTime, mkdirErr: Option<Error>) returns (r: Call<nat>)
      requires Valid(State())
      modifies this
      ensures Valid(State())
      ensures old(mu) ==> r == Deadlock && State() == old(State())
      ensures !old(mu) && old(isRunning) ==> r == Done(Err(ErrAlreadyRunning)) && State() == old(State())
      ensures !old(mu) && !old(isRunning) ==>
        && r == Done(Ok(StreamCapacity))
        && State() == old(State()).(isRunning := true, session := FreshSession, stream := Stream([], true),
                                    recording := true, transcribing := true, chunkSeconds := SessionChunkSeconds,
                                    times := SessionTimes(now, None),
                                    disk := old(disk).(tmpExists := old(disk.tmpExists) || mkdirErr.None?))
    {
      if mu {
        return Deadlock;
      }
      if isRunning {
        return Done(Err(ErrAlreadyRunning));
      }
      session := FreshSession;
      times := SessionTimes(now, None);
      disk := disk.(tmpExists := disk.tmpExists || mkdirErr.None?);
      Launch(SessionChunkSeconds);
      return Done(Ok(StreamCapacity));
    }

    /**
     * saveSession: the session's end time is set, the file is named from its start time,
     * and .tmp is removed only once the write succeeded.
     */
    method SaveSession(now: DateTime, marshalErr: Option<Error>, writeErr: Option<Error>) returns (r: Result<string, Error>)
      modifies this
      ensures marshalErr.Some? ==>
        r == Err(Wrapped("failed to marshal session: ", marshalErr.value)) && State() == old(State()).(times := old(times).(end := Some(now)))
      ensures marshalErr.None? && writeErr.Some? ==>
        r == Err(Wrapped("failed to write file: ", writeErr.value)) && State() == old(State()).(times := old(times).(end := Some(now)))
      ensures marshalErr.None? && writeErr.None? ==>
        && r == Ok(TranscriptFileName(old(times.start)))
        && State() == old(State()).(times := old(times).(end := Some(now)),
                                    disk := old(disk).(tmpExists := false,
                                      saved := old(disk.saved) + [Saved(r.value, KeyedBySecond(old(session.transcription)))]))
    {
      times := times.(end := Some(now));
      var name := TranscriptFileName(times.start);
      if marshalErr.Some? {
        return Err(Wrapped("failed to marshal session: ", marshalErr.value));
      }
      if writeErr.Some? {
        return Err(Wrapped("failed to write file: ", writeErr.value));
      }
      disk := disk.(tmpExists := false, saved := disk.saved + [Saved(name, KeyedBySecond(session.transcription))]);
      return Ok(name);
    }

    /** StopSession: refused while idle; otherwise cancel under the lock, then saveSession. */
    method StopSession(now: DateTime, marshalErr: Option<Error>, writeErr: Option<Error>) returns (r: Call<string>)
      requires Valid(State())
      modifies this
      ensures Valid(State())
      ensures old(mu) ==> r == Deadlock && State() == old(State())
      ensures !old(mu) && !old(isRunning) ==> r == Done(Err(ErrNoActiveSession)) && State() == old(State())
      ensures !old(mu) && old(isRunning) ==>
        && r.Done? && (r.result.Ok? <==> marshalErr.None? && writeErr.None?)
        && (r.result.Ok? ==> r.result.value == TranscriptFileName(old(times.start)))
        && session == old(session).(cancelled := true) && times == old(times).(end := Some(now))
        && disk == (if r.result.Ok? then old(disk).(tmpExists := false,
                                          saved := old(disk.saved) + [Saved(r.result.value, KeyedBySecond(old(session.transcription)))])
                    else old(disk))
        && mu == old(mu) && isRunning && stream == old(stream) && recording == old(recording)
        && transcribing == old(transcribing) && chunkSeconds == old(chunkSeconds)
    {
      if mu {
        return Deadlock;
      }
      if !isRunning {
        return Done(Err(ErrNoActiveSession));
      }
      session := session.(cancelled := true);
      var s := SaveSession(now, marshalErr, writeErr);
      return Done(s);
    }

    /** The supervisor of session.go: it clears isRunning under the lock once both workers are done. */
    method SessionWorkersFinished() returns (r: Call<bool>)
      requires Valid(State())
      modifies this
      ensures Valid(State())
      ensures old(mu) ==> r == Deadlock && State() == old(State())
      ensures !old(mu) ==> r == Done(Ok(!old(recording) && !old(transcribing)))
      ensures !old(mu) && !old(recording) && !old(transcribing) ==> State() == old(State()).(isRunning := false)
      ensures !old(mu) && (old(recording) || old(transcribing)) ==> State() == old(State())
    {
      if mu {
        return Deadlock;
      }
      var cleared := WorkersFinished();
      return Done(Ok(cleared));
    }

    // -------------------------------------------------------------------------------------
    // record.go

    /**
     * The loop of record: until the scope is cancelled, take the next chunk number, record
     * into its file and enqueue a message for it. It ends as RecordLoop says, and nothing but
     * the counter, the scope, the queue and the recorder's log changes.
     */
    method RecordChunks(source: string, script: seq<Attempt>) returns (err: Error)
      modifies this
      ensures var f := RecordLoop(source, old(chunkSeconds), script, old(session.counter), old(session.cancelled));
        && err == f.err
        && State() == old(State()).(session := old(session).(counter := f.counter, cancelled := f.cancelled,
                                                             queue := old(session.queue) + f.enqueued),
                                    disk := old(disk).(recorded := old(disk.recorded) + f.requests))
    {
      ghost var f := RecordLoop(source, chunkSeconds, script, session.counter, session.cancelled);
      var counter: nat, cancelled := session.counter, session.cancelled;
      var queue, recorded := session.queue, disk.recorded;
      var i := 0;
      while true
        invariant i <= |script|
        invariant var rest := RecordLoop(source, chunkSeconds, script[i..], counter, cancelled);
          && f.err == rest.err && f.counter == rest.counter && f.cancelled == rest.cancelled
          && old(session.queue) + f.enqueued == queue + rest.enqueued
          && old(disk.recorded) + f.requests == recorded + rest.requests
        invariant unchanged(this)
        decreases |script| - i
      {
        if cancelled || i == |script| {
          assert RecordLoop(source, chunkSeconds, script[i..], counter, cancelled) == RecordRun(Canceled, counter, [], [], true);
          assert queue + [] == queue && recorded + [] == recorded;
          cancelled, err := true, Canceled;
          break;
        }
        var a := script[i];
        assert script[i..][0] == a && script[i..][1..] == script[i + 1..];
        counter := (counter + 1) % Uint32Modulus;
        var fileName := AudioFile(counter);
        var req := RecordRequest(source, chunkSeconds, fileName);
        ghost var rest' := RecordLoop(source, chunkSeconds, script[i + 1..], counter, a.cancels);
        SeqAssoc(recorded, [req], rest'.requests);
        recorded := recorded + [req];
        if a.capture.Some? || a.enqueue.Some? {
          cancelled := a.cancels;
          err := if a.cancels then Canceled
                 else if a.capture.Some? then Wrapped("recording failed: ", a.capture.value)
                 else a.enqueue.value;
          assert queue + [] == queue && recorded == old(disk.recorded) + f.requests;
          break;
        }
        var msg := Pipeline.Message(a.at, fileName);
        SeqAssoc(queue, [msg], rest'.enqueued);
        queue, cancelled := queue + [msg], a.cancels;
        i := i + 1;
      }
      session := session.(counter := counter, cancelled := cancelled, queue := queue);
      disk := disk.(recorded := recorded);
    }

    /**
     * record as written: a failed source lookup is returned wrapped before the deferred
     * queue.Close is registered, so the queue stays open; every later return closes it.
     */
    method RecordWorker(source: Result<string, Error>, script: seq<Attempt>) returns (err: Error)
      modifies this
      ensures source.Err? ==> err == RecordSourceError(source.error) && State() == old(State())
      ensures source.Ok? ==>
        var f := RecordLoop(source.value, old(chunkSeconds), script, old(session.counter), old(session.cancelled));
        && err == f.err
        && State() == old(State()).(session := old(session).(counter := f.counter, cancelled := f.cancelled,
                                                             queue := old(session.queue) + f.enqueued, queueClosed := true),
                                    disk := old(disk).(recorded := old(disk.recorded) + f.requests))
    {
      if source.Err? {
        return RecordSourceError(source.error);
      }
      err := RecordChunks(source.value, script);
      session := session.(queueClosed := true);
    }

    /** record with the queue closed on every return, the failed lookup included. */
    method RecordWorkerClosing(source: Result<string, Error>, script: seq<Attempt>) returns (err: Error)
      modifies this
      ensures session.queueClosed
      ensures source.Err? ==>
        err == RecordSourceError(source.error) && State() == old(State()).(session := old(session).(queueClosed := true))
      ensures source.Ok? ==>
        var f := RecordLoop(source.value, old(chunkSeconds), script, old(session.counter), old(session.cancelled));
        && err == f.err
        && State() == old(State()).(session := old(session).(counter := f.counter, cancelled := f.cancelled,
                                                             queue := old(session.queue) + f.enqueued, queueClosed := true),
                                    disk := old(disk).(recorded := old(disk.recorded) + f.requests))
    {
      if source.Err? {
        session := session.(queueClosed := true);
        return RecordSourceError(source.error);
      }
      err := RecordChunks(source.value, script);
      session := session.(queueClosed := true);
    }

    /**
     * The record goroutine of Start: run the worker as written, forward its error unless it
     * is a cancellation (lost if the stream is already closed), and signal done. A failed
     * source lookup leaves the queue open.
     */
    method RunRecord(source: Result<string, Error>, script: seq<Attempt>) returns (err: Error)
      requires Valid(State()) && recording
      modifies this
      ensures Valid(State())
      ensures source.Err? ==>
        && err == RecordSourceError(source.error)
        && State() == old(State()).(stream := Send(old(stream), Forwarded(err)), recording := false)
      ensures source.Ok? ==>
        var f := RecordLoop(source.value, old(chunkSeconds), script, old(session.counter), old(session.cancelled));
        && err == f.err
        && State() == old(State()).(session := old(session).(counter := f.counter, cancelled := f.cancelled,
                                                             queue := old(session.queue) + f.enqueued, queueClosed := true),
                                    stream := Send(old(stream), Forwarded(err)), recording := false,
                                    disk := old(disk).(recorded := old(disk.recorded) + f.requests))
    {
      err := RecordWorker(source, script);
      stream := Send(stream, Forwarded(err));
      recording := false;
    }

    // -------------------------------------------------------------------------------------
    // transcribe.go

    /**
     * The transcribe goroutine's loop run against this controller: only the queue, the
     * scope, the entries, the stream and the removed files change, as TranscribeLoop says.
     */
    method TranscribeWorker(replies: seq<Reply>) returns (end: WorkerEnd)
      modifies this
      ensures var f := TranscribeLoop(old(session.queue), old(session.queueClosed), old(session.cancelled), replies);
        && end == f.end
        && State() == old(State()).(session := old(session).(queue := old(session.queue)[f.consumed..], cancelled := f.cancelled,
                                                             transcription := old(session.transcription) + f.stored),
                                    stream := old(stream).(items := old(stream.items) + f.sent),
                                    disk := old(disk).(removed := old(disk.removed) + f.removed))
    {
      var f := TranscribeMessages(session.queue, session.queueClosed, session.cancelled, replies);
      session := session.(queue := session.queue[f.consumed..], cancelled := f.cancelled,
                          transcription := session.transcription + f.stored);
      stream := stream.(items := stream.items + f.sent);
      disk := disk.(removed := disk.removed + f.removed);
      end := f.end;
    }

    /**
     * The transcribe goroutine of Start: run the worker; once it returns, forward its error
     * unless it is a cancellation, close the stream and signal done. A worker still waiting
     * on the queue or the transcriber has not returned.
     */
    method RunTranscribe(replies: seq<Reply>) returns (end: WorkerEnd)
      requires Valid(State()) && transcribing
      modifies this
      ensures Valid(State())
      ensures var f := TranscribeLoop(old(session.queue), old(session.queueClosed), old(session.cancelled), replies);
        && end == f.end
        && State() == old(State()).(session := old(session).(queue := old(session.queue)[f.consumed..], cancelled := f.cancelled,
                                                             transcription := old(session.transcription) + f.stored),
                                    stream := if end == Waiting then Stream(old(stream.items) + f.sent, true)
                                              else Stream(old(stream.items) + f.sent + (if end.err.Some? then Forwarded(end.err.value) else []), false),
                                    transcribing := end == Waiting,
                                    disk := old(disk).(removed := old(disk.removed) + f.removed))
    {
      end := TranscribeWorker(replies);
      if end.Waiting? {
        return;
      }
      stream := Stream(stream.items + (if end.err.Some? then Forwarded(end.err.value) else []), false);
      transcribing := false;
    }
  }
}
