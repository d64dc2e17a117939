/**
 * The two workers of a session (internal/core/record.go and internal/core/transcribe.go),
 * as functions of what their collaborators do. The recorder, the queue's blocking, the
 * transcriber and the clock are the environment: a script of attempts for the record loop,
 * and one reply per dequeued message for the transcribe loop. Cancellation of the session's
 * scope is a flag; the script says when it happens.
 */
module Pipeline {
  import opened Wrappers
  import opened Errors
  import opened Text

  /** atomic.Uint32 wraps around at 2^32. */
  const Uint32Modulus: nat := 0x1_0000_0000

  /** queue.Message: when a chunk was enqueued (Unix seconds) and the file holding it. */
  datatype Message = Message(timestamp: int, fileName: string)

  /** The audio file of chunk n: ".tmp/audio-%d.wav". */
  function AudioFile(n: nat): (f: string)
    ensures |f| == 15 + |Decimal(n, 1)| && f[..11] == ".tmp/audio-" && f[|f| - 4..] == ".wav"
  {
    ".tmp/audio-" + Decimal(n, 1) + ".wav"
  }

  /** Different chunk numbers name different files. */
  lemma AudioFileInjective(a: nat, b: nat)
    requires AudioFile(a) == AudioFile(b)
    ensures a == b
  {
    var fa := AudioFile(a);
    assert fa[11..|fa| - 4] == Decimal(a, 1);
    assert AudioFile(b)[11..|fa| - 4] == Decimal(b, 1);
    DecimalInjective(a, b, 1);
  }

  // ---------------------------------------------------------------------------------------
  // The record loop

  /**
   * What happens in one iteration of the record loop: the recorder's result, the queue's
   * result, the time of the enqueue, and whether the session's scope is cancelled while the
   * chunk is being recorded (by a concurrent Stop).
   */
  datatype Attempt = Attempt(capture: Option<Error>, enqueue: Option<Error>, at: int, cancels: bool)

  /** One call of recorder.Record: source, chunk length in seconds, file. */
  datatype RecordRequest = RecordRequest(source: string, seconds: nat, fileName: string)

  /**
   * The effect of the record loop: the error it returns, the final counter, the recordings
   * it asked for and the messages it enqueued (in order), and whether the scope ended up
   * cancelled.
   */
  datatype RecordRun = RecordRun(err: Error, counter: nat, requests: seq<RecordRequest>, enqueued: seq<Message>, cancelled: bool)

  /**
   * The loop of record.go after the source is resolved. Cancellation is checked at the top
   * of each iteration; when the script runs out the session is stopped, which the next check
   * sees. A failed recording or enqueue ends the loop, with ctx.Err() if the scope is
   * cancelled by then.
   */
  function RecordLoop(source: string, seconds: nat, script: seq<Attempt>, counter: nat, cancelled: bool): (r: RecordRun)
    ensures |r.enqueued| <= |r.requests| <= |script| && |r.requests| <= |r.enqueued| + 1
    ensures counter < Uint32Modulus ==> r.counter < Uint32Modulus
    decreases |script|
  {
    if cancelled || script == [] then RecordRun(Canceled, counter, [], [], true)
    else
      var a := script[0];
      var n := (counter + 1) % Uint32Modulus;
      var req := RecordRequest(source, seconds, AudioFile(n));
      if a.capture.Some? then
        RecordRun(if a.cancels then Canceled else Wrapped("recording failed: ", a.capture.value), n, [req], [], a.cancels)
      else if a.enqueue.Some? then
        RecordRun(if a.cancels then Canceled else a.enqueue.value, n, [req], [], a.cancels)
      else
        var rest := RecordLoop(source, seconds, script[1..], n, a.cancels);
        rest.(requests := [req] + rest.requests, enqueued := [Message(a.at, req.fileName)] + rest.enqueued)
  }

  /** The counter ends up advanced once per recording asked for, modulo 2^32. */
  lemma {:induction false} RecordCounter(source: string, seconds: nat, script: seq<Attempt>, counter: nat, cancelled: bool)
    requires counter < Uint32Modulus
    ensures var r := RecordLoop(source, seconds, script, counter, cancelled);
      r.counter == (counter + |r.requests|) % Uint32Modulus
    decreases |script|
  {
    if !cancelled && script != [] {
      var a := script[0];
      var n := (counter + 1) % Uint32Modulus;
      if a.capture.None? && a.enqueue.None? {
        RecordCounter(source, seconds, script[1..], n, a.cancels);
        ModShift(counter + 1, |RecordLoop(source, seconds, script[1..], n, a.cancels).requests|);
      }
    }
  }

  /**
   * Chunk numbering: the k-th recording goes to file number counter + k + 1 (modulo 2^32),
   * from the session's source, with the session's chunk length.
   */
  lemma {:induction false} RecordFiles(source: string, seconds: nat, script: seq<Attempt>, counter: nat, cancelled: bool)
    ensures forall k :: 0 <= k < |RecordLoop(source, seconds, script, counter, cancelled).requests| ==>
      RecordLoop(source, seconds, script, counter, cancelled).requests[k]
        == RecordRequest(source, seconds, AudioFile((counter + k + 1) % Uint32Modulus))
    decreases |script|
  {
    if !cancelled && script != [] {
      var a := script[0];
      var n := (counter + 1) % Uint32Modulus;
      var req := RecordRequest(source, seconds, AudioFile(n));
      var r := RecordLoop(source, seconds, script, counter, cancelled);
      assert (counter + 0 + 1) % Uint32Modulus == n;
      if a.capture.None? && a.enqueue.None? {
        RecordFiles(source, seconds, script[1..], n, a.cancels);
        var rest := RecordLoop(source, seconds, script[1..], n, a.cancels);
        assert r.requests == [req] + rest.requests;
        forall k | 1 <= k < |r.requests|
          ensures r.requests[k] == RecordRequest(source, seconds, AudioFile((counter + k + 1) % Uint32Modulus))
        {
          assert r.requests[k] == rest.requests[k - 1];
          assert rest.requests[k - 1] == RecordRequest(source, seconds, AudioFile((n + (k - 1) + 1) % Uint32Modulus));
          ModShift(counter + 1, k);
        }
      } else {
        assert r.requests == [req];
      }
    }
  }

  /** The k-th message enqueued names the k-th recording and carries the time of its enqueue. */
  lemma {:induction false} RecordMessages(source: string, seconds: nat, script: seq<Attempt>, counter: nat, cancelled: bool)
    ensures var r := RecordLoop(source, seconds, script, counter, cancelled);
      forall k :: 0 <= k < |r.enqueued| ==> r.enqueued[k] == Message(script[k].at, r.requests[k].fileName)
    decreases |script|
  {
    if !cancelled && script != [] {
      var a := script[0];
      var n := (counter + 1) % Uint32Modulus;
      if a.capture.None? && a.enqueue.None? {
        RecordMessages(source, seconds, script[1..], n, a.cancels);
        var rest := RecordLoop(source, seconds, script[1..], n, a.cancels);
        var r := RecordLoop(source, seconds, script, counter, cancelled);
        forall k | 1 <= k < |r.enqueued|
          ensures r.enqueued[k] == Message(script[k].at, r.requests[k].fileName)
        {
          assert r.enqueued[k] == rest.enqueued[k - 1];
          assert script[1..][k - 1] == script[k];
        }
      }
    }
  }

  /** Adding k after wrapping around is adding k and then wrapping around. */
  lemma ModShift(x: nat, k: nat)
    ensures (x % Uint32Modulus + k) % Uint32Modulus == (x + k) % Uint32Modulus
  {
    var q := x / Uint32Modulus;
    assert x == q * Uint32Modulus + x % Uint32Modulus;
  }

  /**
   * Nothing is recorded once the scope is cancelled: a cancelled start records nothing, and
   * every iteration but the last saw the scope still live and did not cancel it.
   */
  lemma {:induction false} NoChunkAfterCancel(source: string, seconds: nat, script: seq<Attempt>, counter: nat, cancelled: bool)
    ensures var r := RecordLoop(source, seconds, script, counter, cancelled);
      && r.cancelled == (cancelled || |r.requests| == |r.enqueued|
                         || (|r.requests| > 0 && script[|r.requests| - 1].cancels))
      && (cancelled ==> r.requests == [])
      && (forall k :: 0 <= k < |r.requests| - 1 ==> !script[k].cancels)
    decreases |script|
  {
    if !cancelled && script != [] {
      var a := script[0];
      var n := (counter + 1) % Uint32Modulus;
      if a.capture.None? && a.enqueue.None? {
        NoChunkAfterCancel(source, seconds, script[1..], n, a.cancels);
      }
    }
  }

  /**
   * How the error of the record loop is classified: ctx.Err() (Canceled) exactly when the
   * scope is cancelled when the loop returns; otherwise the failure of the last recording,
   * wrapped as "recording failed: ...", or the enqueue error unchanged.
   */
  lemma {:induction false} RecordErrors(source: string, seconds: nat, script: seq<Attempt>, counter: nat, cancelled: bool)
    ensures var r := RecordLoop(source, seconds, script, counter, cancelled);
      && (r.cancelled ==> r.err == Canceled)
      && (!r.cancelled ==>
            && 0 < |r.requests| && |r.enqueued| == |r.requests| - 1
            && var a := script[|r.requests| - 1];
            || (a.capture.Some? && r.err == Wrapped("recording failed: ", a.capture.value))
            || (a.capture.None? && a.enqueue.Some? && r.err == a.enqueue.value))
    decreases |script|
  {
    if !cancelled && script != [] {
      var a := script[0];
      var n := (counter + 1) % Uint32Modulus;
      if a.capture.None? && a.enqueue.None? {
        RecordErrors(source, seconds, script[1..], n, a.cancels);
        var rest := RecordLoop(source, seconds, script[1..], n, a.cancels);
        if !rest.cancelled {
          assert script[1..][|rest.requests| - 1] == script[|rest.requests|];
        }
      }
    }
  }

  /**
   * Unique file names: starting from counter 0, as every session does, the files of fewer
   * than 2^32 chunks are pairwise distinct.
   */
  lemma UniqueFileNames(source: string, seconds: nat, script: seq<Attempt>, cancelled: bool)
    requires |script| < Uint32Modulus
    ensures var r := RecordLoop(source, seconds, script, 0, cancelled);
      forall j, k :: 0 <= j < k < |r.requests| ==> r.requests[j].fileName != r.requests[k].fileName
  {
    RecordFiles(source, seconds, script, 0, cancelled);
    var r := RecordLoop(source, seconds, script, 0, cancelled);
    forall j, k | 0 <= j < k < |r.requests|
      ensures r.requests[j].fileName != r.requests[k].fileName
    {
      assert r.requests[j].fileName == AudioFile((0 + j + 1) % Uint32Modulus);
      assert r.requests[k].fileName == AudioFile((0 + k + 1) % Uint32Modulus);
      ChunkNamesDiffer(j, k);
    }
  }

  lemma ChunkNamesDiffer(j: nat, k: nat)
    requires j < k < Uint32Modulus - 1
    ensures AudioFile((0 + j + 1) % Uint32Modulus) != AudioFile((0 + k + 1) % Uint32Modulus)
  {
    assert (0 + j + 1) % Uint32Modulus == j + 1 && (0 + k + 1) % Uint32Modulus == k + 1;
    if AudioFile(j + 1) == AudioFile(k + 1) {
      AudioFileInjective(j + 1, k + 1);
    }
  }

  /** The whole of record.go: a source lookup that fails is returned wrapped, before the loop. */
  function RecordSourceError(e: Error): (r: Error)
    ensures Errors.Message(r) == "failed to get audio source: " + Errors.Message(e)
    ensures IsCanceled(r) == IsCanceled(e)
  {
    Wrapped("failed to get audio source: ", e)
  }

  // ---------------------------------------------------------------------------------------
  // The transcribe loop

  /** A transcript entry: the message's time, the text read, and the scanner's error. */
  datatype Chunk = Chunk(timestamp: int, text: string, err: Option<Error>)

  /** A store into the transcription map: the key (the Unix second of the store) and the entry. */
  datatype Stored = Stored(at: int, chunk: Chunk)

  /**
   * What the transcriber does with one dequeued message: it fails to start (and whether the
   * scope is cancelled by then), or it streams lines, ending with the scanner's error. When
   * `lostSend` is Some(k), cancellation wins the race against the k-th send (the line, or
   * the error line after the last one); `storedAt` is the clock when the entry is stored.
   */
  datatype Reply =
    | Failed(err: Error, cancels: bool)
    | Streamed(lines: seq<string>, scanErr: Option<Error>, lostSend: Option<nat>, storedAt: int)

  /** The line sent for a scanner error. */
  function ScanErrorLine(e: Error): (line: string)
    ensures HasPrefix(line, "[Error] Failed to read transcript: ") && line[|line| - 1] == '\n'
    ensures |line| == 36 + |Errors.Message(e)| && line[35..|line| - 1] == Errors.Message(e)
  {
    "[Error] Failed to read transcript: " + Errors.Message(e) + "\n"
  }

  /** Everything a streamed reply sends, in order: its lines, then the error line if any. */
  function Output(r: Reply): (out: seq<string>)
    requires r.Streamed?
    ensures |out| == |r.lines| + (if r.scanErr.Some? then 1 else 0) && out[..|r.lines|] == r.lines
    ensures r.scanErr.Some? ==> out[|r.lines|] == ScanErrorLine(r.scanErr.value)
  {
    r.lines + (if r.scanErr.Some? then [ScanErrorLine(r.scanErr.value)] else [])
  }

  /** Cancellation wins one of the sends of this reply. */
  predicate CancelWins(r: Reply)
  {
    r.Streamed? && r.lostSend.Some? && r.lostSend.value < |Output(r)|
  }

  /** How a worker ends: returning, with or without an error, or waiting forever. */
  datatype WorkerEnd = Returned(err: Option<Error>) | Waiting

  /**
   * The effect of the transcribe loop: how it ends, how many messages it dequeued, what it
   * sent on the stream, what it stored, which audio files it removed, and whether the scope
   * ended up cancelled.
   */
  datatype TranscribeRun = TranscribeRun(
    end: WorkerEnd, consumed: nat, sent: seq<string>, stored: seq<Stored>, removed: seq<string>, cancelled: bool)

  /**
   * The loop of transcribe.go over the messages in the queue. Dequeue hands out queued
   * messages first; on an empty queue it reports ErrQueueClosed once the queue is closed
   * (a clean exit), ctx.Err() once the scope is cancelled, and otherwise waits.
   */
  function TranscribeLoop(queue: seq<Message>, closed: bool, cancelled: bool, replies: seq<Reply>): (r: TranscribeRun)
    ensures |r.stored| <= r.consumed <= |queue| && r.consumed <= |r.stored| + 1
    ensures |r.stored| == |r.removed| && |r.stored| <= |replies|
    ensures forall k :: 0 <= k < |r.stored| ==> replies[k].Streamed?
    decreases |queue|
  {
    if queue == [] then
      var end := if closed then Returned(None) else if cancelled then Returned(Some(Canceled)) else Waiting;
      TranscribeRun(end, 0, [], [], [], cancelled)
    else if replies == [] then
      TranscribeRun(Waiting, 1, [], [], [], cancelled)
    else
      var msg := queue[0];
      var r := replies[0];
      match r
      case Failed(e, cancels) =>
        var c := cancelled || cancels;
        TranscribeRun(Returned(Some(if c then Canceled else Wrapped("failed to transcribe audio: ", e))), 1, [], [], [], c)
      case Streamed(lines, scanErr, lostSend, at) =>
        if CancelWins(r) then
          TranscribeRun(Returned(Some(Canceled)), 1, Output(r)[..lostSend.value], [], [], true)
        else
          var rest := TranscribeLoop(queue[1..], closed, cancelled, replies[1..]);
          rest.(consumed := rest.consumed + 1, sent := Output(r) + rest.sent,
                stored := [Stored(at, Chunk(msg.timestamp, Concat(lines), scanErr))] + rest.stored,
                removed := [msg.fileName] + rest.removed)
  }

  /** Everything the first n replies send, one after the other. */
  function Outputs(replies: seq<Reply>): seq<string>
    requires forall k :: 0 <= k < |replies| ==> replies[k].Streamed?
  {
    if replies == [] then [] else Outputs(replies[..|replies| - 1]) + Output(replies[|replies| - 1])
  }

  /**
   * One entry per fully processed message: the k-th store is for the k-th message, with its
   * time, the concatenation of the lines read for it in order, and the scanner's error; its
   * audio file is removed. At most one more message was dequeued and not processed.
   */
  lemma {:induction false} OneEntryPerMessage(queue: seq<Message>, closed: bool, cancelled: bool, replies: seq<Reply>)
    ensures var r := TranscribeLoop(queue, closed, cancelled, replies);
      forall k :: 0 <= k < |r.stored| ==>
        && replies[k].Streamed? && !CancelWins(replies[k])
        && r.stored[k] == Stored(replies[k].storedAt, Chunk(queue[k].timestamp, Concat(replies[k].lines), replies[k].scanErr))
        && r.removed[k] == queue[k].fileName
    decreases |queue|
  {
    if queue != [] && replies != [] && replies[0].Streamed? && !CancelWins(replies[0]) {
      OneEntryPerMessage(queue[1..], closed, cancelled, replies[1..]);
      TranscribeNext(queue, closed, cancelled, replies);
      var r := TranscribeLoop(queue, closed, cancelled, replies);
      var rest := TranscribeLoop(queue[1..], closed, cancelled, replies[1..]);
      assert r.stored == [r.stored[0]] + rest.stored && r.removed == [queue[0].fileName] + rest.removed;
      forall k | 1 <= k < |r.stored|
        ensures r.stored[k] == rest.stored[k - 1] && r.removed[k] == rest.removed[k - 1]
        ensures queue[k] == queue[1..][k - 1] && replies[k] == replies[1..][k - 1]
      {
      }
    }
  }

  /** What the n-th reply sends before cancellation wins, if it does. */
  function Partial(replies: seq<Reply>, n: nat): (part: seq<string>)
    ensures n < |replies| && CancelWins(replies[n]) ==> |part| < |Output(replies[n])|
    ensures part != [] ==> n < |replies| && CancelWins(replies[n])
  {
    if n < |replies| && CancelWins(replies[n]) then Output(replies[n])[..replies[n].lostSend.value] else []
  }

  /**
   * What the stream receives: everything each processed message sent, in order, and then,
   * if one more message was dequeued, the part of its output sent before cancellation won.
   */
  lemma {:induction false} SentInOrder(queue: seq<Message>, closed: bool, cancelled: bool, replies: seq<Reply>)
    ensures var r := TranscribeLoop(queue, closed, cancelled, replies);
      r.sent == Outputs(replies[..|r.stored|]) + (if r.consumed > |r.stored| then Partial(replies, |r.stored|) else [])
    decreases |queue|
  {
    if queue != [] && replies != [] && replies[0].Streamed? && !CancelWins(replies[0]) {
      SentInOrder(queue[1..], closed, cancelled, replies[1..]);
      SentStep(queue, closed, cancelled, replies);
    } else {
      var r := TranscribeLoop(queue, closed, cancelled, replies);
      assert r.stored == [];
      assert replies[..0] == [];
      if queue == [] {
        assert r.sent == [];
      } else if replies == [] || replies[0].Failed? {
        assert r.sent == [] && Partial(replies, 0) == [];
      } else {
        assert r.sent == Partial(replies, 0);
      }
    }
  }

  /** The step of SentInOrder: a fully processed message's output goes before the rest. */
  lemma SentStep(queue: seq<Message>, closed: bool, cancelled: bool, replies: seq<Reply>)
    requires queue != [] && replies != [] && replies[0].Streamed? && !CancelWins(replies[0])
    requires var rest := TranscribeLoop(queue[1..], closed, cancelled, replies[1..]);
      rest.sent == Outputs(replies[1..][..|rest.stored|])
                   + (if rest.consumed > |rest.stored| then Partial(replies[1..], |rest.stored|) else [])
    ensures var r := TranscribeLoop(queue, closed, cancelled, replies);
      r.sent == Outputs(replies[..|r.stored|]) + (if r.consumed > |r.stored| then Partial(replies, |r.stored|) else [])
  {
    var tail := replies[1..];
    var rest := TranscribeLoop(queue[1..], closed, cancelled, tail);
    var r := TranscribeLoop(queue, closed, cancelled, replies);
    TranscribeStep(queue, closed, cancelled, replies);
    var done := tail[..|rest.stored|];
    SliceCons(replies, |rest.stored|);
    OutputsCons(replies[0], done);
    var extra := if rest.consumed > |rest.stored| then Partial(tail, |rest.stored|) else [];
    assert extra == if r.consumed > |r.stored| then Partial(replies, |r.stored|) else [];
    var head, before := Output(replies[0]), Outputs(done);
    assert r.sent == head + (before + extra);
    SeqAssoc(head, before, extra);
  }

  /** One fully processed message, then the loop over the rest of the queue. */
  lemma TranscribeStep(queue: seq<Message>, closed: bool, cancelled: bool, replies: seq<Reply>)
    requires queue != [] && replies != [] && replies[0].Streamed? && !CancelWins(replies[0])
    ensures var rest := TranscribeLoop(queue[1..], closed, cancelled, replies[1..]);
      var r := TranscribeLoop(queue, closed, cancelled, replies);
      && r.sent == Output(replies[0]) + rest.sent
      && |r.stored| == |rest.stored| + 1 && r.consumed == rest.consumed + 1
  {
  }

  /** With no reply from the transcriber, the loop waits on it holding one dequeued message. */
  lemma TranscribeNoReply(queue: seq<Message>, closed: bool, cancelled: bool)
    requires queue != []
    ensures TranscribeLoop(queue, closed, cancelled, []) == TranscribeRun(Waiting, 1, [], [], [], cancelled)
  {
  }

  /** A failed transcription ends the loop with its wrapped error, or Canceled. */
  lemma TranscribeFails(queue: seq<Message>, closed: bool, cancelled: bool, replies: seq<Reply>)
    requires queue != [] && replies != [] && replies[0].Failed?
    ensures var c := cancelled || replies[0].cancels;
      TranscribeLoop(queue, closed, cancelled, replies)
        == TranscribeRun(Returned(Some(if c then Canceled else Wrapped("failed to transcribe audio: ", replies[0].err))), 1, [], [], [], c)
  {
  }

  /** A send that loses to the cancellation ends the loop with what was sent before it. */
  lemma TranscribeLosesSend(queue: seq<Message>, closed: bool, cancelled: bool, replies: seq<Reply>)
    requires queue != [] && replies != [] && CancelWins(replies[0])
    ensures TranscribeLoop(queue, closed, cancelled, replies)
         == TranscribeRun(Returned(Some(Canceled)), 1, Output(replies[0])[..replies[0].lostSend.value], [], [], true)
  {
  }

  /** A run that went on as rest after i messages had sent, stored and removed the given values. */
  ghost function Resumed(i: nat, sent: seq<string>, stored: seq<Stored>, removed: seq<string>, rest: TranscribeRun): TranscribeRun
  {
    rest.(consumed := i + rest.consumed, sent := sent + rest.sent, stored := stored + rest.stored, removed := removed + rest.removed)
  }

  /** One fully processed message, in the form of Resumed. */
  lemma TranscribeNext(queue: seq<Message>, closed: bool, cancelled: bool, replies: seq<Reply>)
    requires queue != [] && replies != [] && replies[0].Streamed? && !CancelWins(replies[0])
    ensures TranscribeLoop(queue, closed, cancelled, replies)
      == Resumed(1, Output(replies[0]), [Stored(replies[0].storedAt, Chunk(queue[0].timestamp, Concat(replies[0].lines), replies[0].scanErr))],
                 [queue[0].fileName], TranscribeLoop(queue[1..], closed, cancelled, replies[1..]))
  {
  }

  lemma ResumedTwice(i: nat, sent: seq<string>, stored: seq<Stored>, removed: seq<string>,
                     sent': seq<string>, stored': seq<Stored>, removed': seq<string>, rest: TranscribeRun)
    ensures Resumed(i, sent, stored, removed, Resumed(1, sent', stored', removed', rest))
         == Resumed(i + 1, sent + sent', stored + stored', removed + removed', rest)
  {
    SeqAssoc(sent, sent', rest.sent);
    SeqAssoc(stored, stored', rest.stored);
    SeqAssoc(removed, removed', rest.removed);
  }

  lemma ResumedHalt(i: nat, sent: seq<string>, stored: seq<Stored>, removed: seq<string>,
                    end: WorkerEnd, consumed: nat, sent': seq<string>, cancelled: bool)
    ensures Resumed(i, sent, stored, removed, TranscribeRun(end, consumed, sent', [], [], cancelled))
         == TranscribeRun(end, i + consumed, sent + sent', stored, removed, cancelled)
  {
    assert stored + [] == stored && removed + [] == removed;
  }

  lemma SliceCons(s: seq<Reply>, n: nat)
    requires n < |s|
    ensures s[..n + 1] == [s[0]] + s[1..][..n]
  {
  }

  /** Outputs of a list with a head: the head's output first. */
  lemma {:induction false} OutputsCons(head: Reply, tail: seq<Reply>)
    requires head.Streamed? && forall k :: 0 <= k < |tail| ==> tail[k].Streamed?
    ensures Outputs([head] + tail) == Output(head) + Outputs(tail)
    decreases |tail|
  {
    var all := [head] + tail;
    if tail == [] {
      assert all[..0] == [];
    } else {
      assert all[..|all| - 1] == [head] + tail[..|tail| - 1];
      OutputsCons(head, tail[..|tail| - 1]);
    }
  }

  /**
   * The transcribe loop returns nil exactly when it dequeued and stored every message and
   * then found the queue closed.
   */
  lemma {:induction false} TranscribeEndsClean(queue: seq<Message>, closed: bool, cancelled: bool, replies: seq<Reply>)
    ensures var r := TranscribeLoop(queue, closed, cancelled, replies);
      r.end == Returned(None) <==> closed && r.consumed == |queue| == |r.stored|
    decreases |queue|
  {
    if queue != [] && replies != [] && replies[0].Streamed? && !CancelWins(replies[0]) {
      TranscribeEndsClean(queue[1..], closed, cancelled, replies[1..]);
      TranscribeNext(queue, closed, cancelled, replies);
    }
  }

  /**
   * A returned error is the cancellation when the scope was cancelled, and otherwise the
   * wrapped error of the last reply consumed, which failed.
   */
  lemma {:induction false} TranscribeEndsError(queue: seq<Message>, closed: bool, cancelled: bool, replies: seq<Reply>)
    ensures var r := TranscribeLoop(queue, closed, cancelled, replies);
      && (r.end.Returned? && r.end.err.Some? && r.cancelled ==> r.end.err.value == Canceled)
      && (r.end.Returned? && r.end.err.Some? && !r.cancelled ==>
            && 0 < r.consumed <= |replies| && replies[r.consumed - 1].Failed?
            && r.end.err.value == Wrapped("failed to transcribe audio: ", replies[r.consumed - 1].err))
    decreases |queue|
  {
    if queue != [] && replies != [] && replies[0].Streamed? && !CancelWins(replies[0]) {
      TranscribeEndsError(queue[1..], closed, cancelled, replies[1..]);
      TranscribeNext(queue, closed, cancelled, replies);
      var rest := TranscribeLoop(queue[1..], closed, cancelled, replies[1..]);
      if rest.end.Returned? && rest.end.err.Some? && !rest.cancelled {
        assert replies[1..][rest.consumed - 1] == replies[rest.consumed];
      }
    }
  }

  /** The loop waits only on an open, uncancelled queue, or on a transcriber that has not replied. */
  lemma {:induction false} TranscribeEndsWaiting(queue: seq<Message>, closed: bool, cancelled: bool, replies: seq<Reply>)
    ensures TranscribeLoop(queue, closed, cancelled, replies).end == Waiting ==> (!cancelled && !closed) || |replies| < |queue|
    decreases |queue|
  {
    if queue != [] && replies != [] && replies[0].Streamed? && !CancelWins(replies[0]) {
      TranscribeEndsWaiting(queue[1..], closed, cancelled, replies[1..]);
      TranscribeNext(queue, closed, cancelled, replies);
    }
  }

  // ---------------------------------------------------------------------------------------
  // The transcription map

  /** sync.Map.Store of each entry under the second it was stored in, as transcribe.go does. */
  function KeyedBySecond(stored: seq<Stored>): map<int, Chunk>
  {
    if stored == [] then map[]
    else KeyedBySecond(stored[..|stored| - 1])[stored[|stored| - 1].at := stored[|stored| - 1].chunk]
  }

  /** No entry after the k-th was stored in the same second. */
  predicate LastInSecond(stored: seq<Stored>, k: nat)
    requires k < |stored|
  {
    forall m :: k < m < |stored| ==> stored[m].at != stored[k].at
  }

  /** Keys are the store seconds; the entry under a second is the last one stored in it. */
  lemma KeyedBySecondHolds(stored: seq<Stored>)
    ensures forall t :: t in KeyedBySecond(stored) <==> exists k :: 0 <= k < |stored| && stored[k].at == t
    ensures |KeyedBySecond(stored)| <= |stored|
    ensures forall k :: 0 <= k < |stored| && LastInSecond(stored, k) ==> KeyedBySecond(stored)[stored[k].at] == stored[k].chunk
  {
    KeyedBySecondKeys(stored);
    LastStoreWins(stored);
  }

  /** The map's keys are the seconds stored in, one key per second. */
  lemma {:induction false} KeyedBySecondKeys(stored: seq<Stored>)
    ensures forall t :: t in KeyedBySecond(stored) <==> exists k :: 0 <= k < |stored| && stored[k].at == t
    ensures |KeyedBySecond(stored)| <= |stored|
    decreases |stored|
  {
    if stored != [] {
      var init := stored[..|stored| - 1];
      var last := stored[|stored| - 1];
      KeyedBySecondKeys(init);
      assert KeyedBySecond(stored) == KeyedBySecond(init)[last.at := last.chunk];
      forall t
        ensures t in KeyedBySecond(stored) <==> exists k :: 0 <= k < |stored| && stored[k].at == t
      {
        if t in KeyedBySecond(init) {
          var k :| 0 <= k < |init| && init[k].at == t;
          assert stored[k] == init[k];
        }
        if exists k :: 0 <= k < |stored| && stored[k].at == t {
          var k :| 0 <= k < |stored| && stored[k].at == t;
          if k < |init| {
            assert init[k] == stored[k];
          }
        }
      }
    }
  }

  /** A later store in the same second replaces an earlier one: the last store wins. */
  lemma {:induction false} LastStoreWins(stored: seq<Stored>)
    ensures forall k :: 0 <= k < |stored| && LastInSecond(stored, k) ==>
      stored[k].at in KeyedBySecond(stored) && KeyedBySecond(stored)[stored[k].at] == stored[k].chunk
    decreases |stored|
  {
    if stored != [] {
      var init := stored[..|stored| - 1];
      var last := stored[|stored| - 1];
      LastStoreWins(init);
      assert KeyedBySecond(stored) == KeyedBySecond(init)[last.at := last.chunk];
      forall k | 0 <= k < |stored| && LastInSecond(stored, k)
        ensures stored[k].at in KeyedBySecond(stored) && KeyedBySecond(stored)[stored[k].at] == stored[k].chunk
      {
        if k < |init| {
          assert last.at != stored[k].at by {
            assert LastInSecond(stored, k);
            assert k < |stored| - 1;
          }
          assert init[k] == stored[k];
          assert LastInSecond(init, k) by {
            forall m | k < m < |init| ensures init[m].at != init[k].at {
              assert init[m] == stored[m];
            }
          }
        }
      }
    }
  }

  /**
   * Two entries stored in the same second: the map keeps fewer entries than were stored, so
   * a fully processed message has no entry in the saved transcript.
   */
  lemma {:induction false} SameSecondLosesEntry(stored: seq<Stored>, i: nat, j: nat)
    requires i < j < |stored| && stored[i].at == stored[j].at
    ensures |KeyedBySecond(stored)| < |stored|
    decreases |stored|
  {
    var init := stored[..|stored| - 1];
    var last := stored[|stored| - 1];
    KeyedBySecondHolds(init);
    if j < |stored| - 1 {
      SameSecondLosesEntry(init, i, j);
    } else {
      assert init[i].at == last.at;
      assert last.at in KeyedBySecond(init);
    }
  }

  /**
   * The corrected transcript: the entries in processing order, one per fully processed
   * message, none lost. transcribe.go keeps the second-keyed map instead (KeyedBySecond).
   */
  function ChunkLog(stored: seq<Stored>): seq<Chunk>
  {
    seq(|stored|, k requires 0 <= k < |stored| => stored[k].chunk)
  }

  /** The log keeps every processed message's entry, whatever the clock says. */
  lemma LogKeepsEveryEntry(queue: seq<Message>, closed: bool, cancelled: bool, replies: seq<Reply>)
    ensures var r := TranscribeLoop(queue, closed, cancelled, replies);
      var log := ChunkLog(r.stored);
      && |log| == |r.removed|
      && forall k :: 0 <= k < |log| ==> log[k].timestamp == queue[k].timestamp && log[k].text == Concat(replies[k].lines)
  {
    OneEntryPerMessage(queue, closed, cancelled, replies);
  }
}
