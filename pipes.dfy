/**
 * The writing end of an `io.Pipe`, as the transcribers use it: every write is handed to the
 * reader, which takes a bounded number of writes before it closes its own end, and the
 * writer's close (with or without an error) is what the reader sees after the data.
 * Blocking and goroutine interleaving are not part of this model.
 */
module Pipes {
  import opened Wrappers
  import opened Errors
  import opened Text

  /** io.ErrClosedPipe, returned by a write once either end is closed. */
  const ErrClosedPipe: Error := Failure("io: read/write on closed pipe")

  /**
   * A pipe as a value: the writes its reader took, in order; how many more it takes before
   * the reader closes its end; whether the writer has closed; and what the reader sees after
   * the data (None is io.EOF, from a plain Close).
   */
  datatype PipeState = PipeState(data: seq<string>, accepts: nat, closed: bool, closeErr: Option<Error>)

  /** How many more writes succeed. */
  function Room(st: PipeState): nat
  {
    if st.closed then 0 else st.accepts
  }

  /** CloseWithError: the first close decides what the reader sees; later closes change nothing. */
  function CloseWith(st: PipeState, e: Option<Error>): (r: PipeState)
    ensures r.closed && r.data == st.data && r.accepts == st.accepts
    ensures r.closeErr == if st.closed then st.closeErr else e
  {
    if st.closed then st else st.(closed := true, closeErr := e)
  }

  /**
   * Writing `texts` one by one and, on the first write that fails, closing the writer with
   * the write's error and writing nothing more (the pattern of every transcriber's writer).
   */
  function WriteAll(st: PipeState, texts: seq<string>): (r: PipeState)
    decreases |texts|
  {
    if texts == [] then st
    else if Room(st) == 0 then CloseWith(st, Some(ErrClosedPipe))
    else WriteAll(st.(data := st.data + [texts[0]], accepts := st.accepts - 1), texts[1..])
  }

  /** The state of a pipe after its reader took all of `texts`. */
  function Sent(st: PipeState, texts: seq<string>): PipeState
    requires |texts| <= Room(st)
  {
    st.(data := st.data + texts, accepts := st.accepts - |texts|)
  }

  /** One more text taken by the reader. */
  lemma SentOneMore(st: PipeState, texts: seq<string>, t: string)
    requires |texts| <= Room(st) && Room(Sent(st, texts)) > 0
    ensures var before := Sent(st, texts);
      && |texts| < Room(st)
      && Sent(st, texts + [t]) == before.(data := before.data + [t], accepts := before.accepts - 1)
  {
    SeqAssoc(st.data, texts, [t]);
  }

  function Min(a: int, b: int): int
  {
    if a <= b then a else b
  }

  /**
   * What the reader receives from WriteAll: the texts that fit, in order. The writer is
   * closed with ErrClosedPipe exactly when some text did not fit and the writer was open.
   */
  lemma {:induction false} WriteAllDelivers(st: PipeState, texts: seq<string>)
    ensures var n := Min(|texts|, Room(st));
      WriteAll(st, texts).data == st.data + texts[..n]
    ensures |texts| <= Room(st) ==> WriteAll(st, texts) == Sent(st, texts)
    ensures |texts| > Room(st) ==>
      WriteAll(st, texts) == CloseWith(Sent(st, texts[..Room(st)]), Some(ErrClosedPipe))
    decreases |texts|
  {
    if texts == [] {
    } else if Room(st) == 0 {
      assert texts[..0] == [];
    } else {
      var st' := st.(data := st.data + [texts[0]], accepts := st.accepts - 1);
      WriteAllDelivers(st', texts[1..]);
      assert texts[..1] + texts[1..][..Min(|texts| - 1, Room(st) - 1)] == texts[..Min(|texts|, Room(st))];
      assert st.data + [texts[0]] + texts[1..] == st.data + texts;
    }
  }

  /** A write that fails after `done` leaves the pipe as WriteAll of the whole list leaves it. */
  lemma FailedWriteCloses(st0: PipeState, done: seq<string>, all: seq<string>)
    requires |done| <= Room(st0) && Room(Sent(st0, done)) == 0
    requires |all| > |done| && all[..|done|] == done
    ensures WriteAll(st0, all) == CloseWith(Sent(st0, done), Some(ErrClosedPipe))
    ensures |all| > Room(st0)
  {
    assert |done| == Room(st0);
    WriteAllDelivers(st0, all);
  }

  /** Writing in two rounds is writing once: a pipe that failed stays failed. */
  lemma {:induction false} WriteAllAppend(st: PipeState, a: seq<string>, b: seq<string>)
    ensures WriteAll(st, a + b) == WriteAll(WriteAll(st, a), b)
    decreases |a|
  {
    if a == [] {
      assert a + b == b;
    } else if Room(st) == 0 {
      ClosedIgnoresWrites(CloseWith(st, Some(ErrClosedPipe)), b);
      if b == [] {
        assert a + b == a;
      } else {
        ClosedIgnoresWrites(st, a + b);
        ClosedIgnoresWrites(st, a);
      }
    } else {
      var st' := st.(data := st.data + [a[0]], accepts := st.accepts - 1);
      assert (a + b)[1..] == a[1..] + b;
      WriteAllAppend(st', a[1..], b);
    }
  }

  /** Once the writer is closed, further writes change nothing. */
  lemma FailedStaysFailed(st: PipeState, texts: seq<string>)
    requires st.closed
    ensures WriteAll(st, texts) == st
  {
  }

  /** A pipe with no room left takes nothing; it is closed, once, with ErrClosedPipe. */
  lemma ClosedIgnoresWrites(st: PipeState, texts: seq<string>)
    requires Room(st) == 0
    ensures WriteAll(st, texts) == if texts == [] then st else CloseWith(st, Some(ErrClosedPipe))
  {
  }

  /** The writing end of a pipe, whose writes and closes change its state in place. */
  class PipeWriter {
    var data: seq<string>
    var accepts: nat
    var closed: bool
    var closeErr: Option<Error>

    function State(): PipeState
      reads this
    {
      PipeState(data, accepts, closed, closeErr)
    }

    /** A fresh pipe whose reader will take `accepts` writes. */
    constructor (accepts: nat)
      ensures State() == PipeState([], accepts, false, None)
    {
      data := [];
      this.accepts := accepts;
      closed := false;
      closeErr := None;
    }

    /** Write: handed to the reader while both ends are open, otherwise ErrClosedPipe. */
    method Write(text: string) returns (err: Option<Error>)
      modifies this
      ensures old(Room(State())) > 0 ==>
        err == None && State() == old(State()).(data := old(data) + [text], accepts := old(accepts) - 1)
      ensures old(Room(State())) == 0 ==> err == Some(ErrClosedPipe) && State() == old(State())
    {
      if closed || accepts == 0 {
        err := Some(ErrClosedPipe);
      } else {
        data := data + [text];
        accepts := accepts - 1;
        err := None;
      }
    }

    /** CloseWithError; Close is CloseWithError(None). */
    method CloseWithError(e: Option<Error>)
      modifies this
      ensures State() == CloseWith(old(State()), e)
    {
      if !closed {
        closed := true;
        closeErr := e;
      }
    }
  }
}
