/**
 * The Gemini transcribers (internal/transcriber/gemini.go and pkg/transcriptor/google.go):
 * how a streamed generate-content response is flattened into the text written to the pipe
 * the caller reads, and how the two stream loops treat errors. The network call that
 * produces the stream is not part of this model; the stream is the input here.
 */
module GenAI {
  import opened Wrappers
  import opened Errors
  import opened Text
  import opened Pipes

  /** The parts of a response this code reads: a Part's text, a Content's parts, a candidate's content. */
  datatype Part = Part(text: string)
  datatype Content = Content(parts: seq<Part>)
  datatype Candidate = Candidate(content: Option<Content>)
  datatype Response = Response(candidates: Option<seq<Candidate>>)

  /** The text of one part, if it is not empty. */
  function PartText(part: Part): seq<string>
  {
    if part.text == "" then [] else [part.text]
  }

  /** The texts of `parts` that are not empty, in order. */
  function PartTexts(parts: seq<Part>): (r: seq<string>)
    ensures |r| <= |parts|
  {
    if parts == [] then [] else PartTexts(parts[..|parts| - 1]) + PartText(parts[|parts| - 1])
  }

  /** The texts of one candidate: none without content. */
  function CandidateText(cand: Candidate): seq<string>
  {
    if cand.content.None? then [] else PartTexts(cand.content.value.parts)
  }

  /** The texts of every candidate that has content, candidate by candidate. */
  function CandidateTexts(cands: seq<Candidate>): seq<string>
  {
    if cands == [] then [] else CandidateTexts(cands[..|cands| - 1]) + CandidateText(cands[|cands| - 1])
  }

  /** What writeToStream writes for one chunk: nothing for a nil chunk or nil candidates. */
  function ResponseTexts(chunk: Option<Response>): seq<string>
  {
    if chunk.None? || chunk.value.candidates.None? then [] else CandidateTexts(chunk.value.candidates.value)
  }

  /** Every part's text, empty or not, joined in order. */
  function AllPartText(parts: seq<Part>): string
  {
    if parts == [] then [] else AllPartText(parts[..|parts| - 1]) + parts[|parts| - 1].text
  }

  lemma {:induction false} PartTextsAppend(a: seq<Part>, b: seq<Part>)
    ensures PartTexts(a + b) == PartTexts(a) + PartTexts(b)
    decreases |b|
  {
    if b == [] {
      assert a + b == a;
    } else {
      var init, last := b[..|b| - 1], b[|b| - 1];
      var ab := a + b;
      assert ab[..|ab| - 1] == a + init && ab[|ab| - 1] == last;
      assert PartTexts(ab) == PartTexts(a + init) + PartText(last);
      assert PartTexts(b) == PartTexts(init) + PartText(last);
      PartTextsAppend(a, init);
      SeqAssoc(PartTexts(a), PartTexts(init), PartText(last));
    }
  }

  lemma {:induction false} CandidateTextsAppend(a: seq<Candidate>, b: seq<Candidate>)
    ensures CandidateTexts(a + b) == CandidateTexts(a) + CandidateTexts(b)
    decreases |b|
  {
    if b == [] {
      assert a + b == a;
    } else {
      var init, last := b[..|b| - 1], b[|b| - 1];
      var ab := a + b;
      assert ab[..|ab| - 1] == a + init && ab[|ab| - 1] == last;
      assert CandidateTexts(ab) == CandidateTexts(a + init) + CandidateText(last);
      assert CandidateTexts(b) == CandidateTexts(init) + CandidateText(last);
      CandidateTextsAppend(a, init);
      SeqAssoc(CandidateTexts(a), CandidateTexts(init), CandidateText(last));
    }
  }

  /**
   * Skipping empty parts does not change what the reader receives: the bytes written are
   * every part's text, joined in order.
   */
  lemma {:induction false} SkippingEmptyKeepsText(parts: seq<Part>)
    ensures Concat(PartTexts(parts)) == AllPartText(parts)
    decreases |parts|
  {
    if parts != [] {
      var init := parts[..|parts| - 1];
      var last := parts[|parts| - 1].text;
      SkippingEmptyKeepsText(init);
      ConcatAppend(PartTexts(init), if last == "" then [] else [last]);
      if last == "" {
        assert Concat([]) + last == [];
      } else {
        assert Concat([last]) == Concat([]) + last;
      }
    }
  }

  /** Some part of some candidate with content has text `t`. */
  ghost predicate HeldBy(cands: seq<Candidate>, t: string)
  {
    exists i, j :: 0 <= i < |cands| && cands[i].content.Some? &&
      0 <= j < |cands[i].content.value.parts| && cands[i].content.value.parts[j].text == t
  }

  /** A text is written exactly when some part of some candidate with content holds it. */
  lemma {:induction false} WrittenTextsComeFromParts(cands: seq<Candidate>, t: string)
    ensures t in CandidateTexts(cands) <==>
      t != [] && HeldBy(cands, t)
    decreases |cands|
  {
    if cands != [] {
      var init := cands[..|cands| - 1];
      var last := cands[|cands| - 1];
      WrittenTextsComeFromParts(init, t);
      if last.content.Some? {
        InParts(last.content.value.parts, t);
      }
      if t != [] && HeldBy(cands, t) {
        var i, j :| 0 <= i < |cands| && cands[i].content.Some? &&
          0 <= j < |cands[i].content.value.parts| && cands[i].content.value.parts[j].text == t;
        if i < |cands| - 1 {
          assert init[i] == cands[i];
        }
      }
      if t in CandidateTexts(init) {
        var i, j :| 0 <= i < |init| && init[i].content.Some? &&
          0 <= j < |init[i].content.value.parts| && init[i].content.value.parts[j].text == t;
        assert cands[i] == init[i];
      }
    }
  }

  lemma {:induction false} InParts(parts: seq<Part>, t: string)
    ensures t in PartTexts(parts) <==> t != [] && exists j :: 0 <= j < |parts| && parts[j].text == t
    decreases |parts|
  {
    if parts != [] {
      var init := parts[..|parts| - 1];
      InParts(init, t);
      if t != [] && exists j :: 0 <= j < |parts| && parts[j].text == t {
        var j :| 0 <= j < |parts| && parts[j].text == t;
        if j < |parts| - 1 {
          assert init[j] == parts[j];
        }
      }
      if t in PartTexts(init) {
        var j :| 0 <= j < |init| && init[j].text == t;
        assert parts[j] == init[j];
      }
    }
  }

  /** normalizeError: a response with one candidate holding one text part, the error's text. */
  function NormalizeError(e: Error): (r: Response)
    ensures r.candidates.Some? && |r.candidates.value| == 1
  {
    Response(Some([Candidate(Some(Content([Part("Error during transcription: " + Message(e))])))]))
  }

  /** Writing a normalised error writes exactly "Error during transcription: <e>". */
  lemma NormalizedErrorText(e: Error)
    ensures ResponseTexts(Some(NormalizeError(e))) == ["Error during transcription: " + Message(e)]
  {
    var part := Part("Error during transcription: " + Message(e));
    OnePart(part);
    OneCandidate(Candidate(Some(Content([part]))));
  }

  /**
   * writeToStream (both clients have the same one): nothing when the context is done,
   * otherwise the chunk's texts written in order until a write fails, which closes the
   * writer with that write's error.
   */
  method WriteToStream(w: PipeWriter, ctxDone: bool, chunk: Option<Response>)
    modifies w
    ensures w.State() == if ctxDone then old(w.State()) else WriteAll(old(w.State()), ResponseTexts(chunk))
  {
    if ctxDone {
      return;
    }
    if chunk.None? || chunk.value.candidates.None? {
      return;
    }
    ghost var st0 := w.State();
    var cands := chunk.value.candidates.value;
    var i := 0;
    while i < |cands|
      invariant 0 <= i <= |cands|
      invariant |CandidateTexts(cands[..i])| <= Room(st0)
      invariant w.State() == WriteAll(st0, CandidateTexts(cands[..i]))
    {
      var cnd := cands[i];
      CandidateTextsStep(cands, i);
      ghost var before := CandidateTexts(cands[..i]);
      if cnd.content.None? {
        assert CandidateTexts(cands[..i + 1]) == before;
        i := i + 1;
        continue;
      }
      var parts := cnd.content.value.parts;
      WriteAllDelivers(st0, before);
      var failed := WriteParts(w, parts);
      WriteAllAppend(st0, before, PartTexts(parts));
      WriteAllDelivers(st0, before + PartTexts(parts));
      if failed {
        assert cands == cands[..i + 1] + cands[i + 1..];
        CandidateTextsAppend(cands[..i + 1], cands[i + 1..]);
        WriteAllAppend(st0, CandidateTexts(cands[..i + 1]), CandidateTexts(cands[i + 1..]));
        FailedStaysFailed(w.State(), CandidateTexts(cands[i + 1..]));
        return;
      }
      assert CandidateTexts(cands[..i + 1]) == before + PartTexts(parts);
      assert |before + PartTexts(parts)| <= Room(st0);
      assert w.State() == WriteAll(st0, before + PartTexts(parts));
      i := i + 1;
    }
    assert cands[..i] == cands;
  }

  /**
   * The inner loop of writeToStream: the non-empty texts of one candidate's parts, written
   * in order; a failed write closes the writer with its error and ends the whole write
   * (`failed` is then true, and writeToStream returns).
   */
  method WriteParts(w: PipeWriter, parts: seq<Part>) returns (failed: bool)
    modifies w
    ensures w.State() == WriteAll(old(w.State()), PartTexts(parts))
    ensures failed <==> |PartTexts(parts)| > old(Room(w.State()))
  {
    ghost var st0 := w.State();
    var j := 0;
    assert parts[..0] == [];
    while j < |parts|
      invariant 0 <= j <= |parts|
      invariant |PartTexts(parts[..j])| <= Room(st0)
      invariant w.State() == Sent(st0, PartTexts(parts[..j]))
    {
      var part := parts[j];
      PartTextsStep(parts, j);
      if part.text == "" {
        assert PartTexts(parts[..j + 1]) == PartTexts(parts[..j]);
        j := j + 1;
        continue;
      }
      ghost var done := PartTexts(parts[..j]);
      assert w.State() == Sent(st0, done);
      var err := w.Write(part.text);
      if err.Some? {
        assert Room(Sent(st0, done)) == 0 && err == Some(ErrClosedPipe);
        w.CloseWithError(err);
        PartWriteFails(st0, parts, j);
        return true;
      }
      SentOneMore(st0, done, part.text);
      j := j + 1;
    }
    assert parts[..j] == parts;
    WriteAllDelivers(st0, PartTexts(parts));
    return false;
  }

  lemma CandidateTextsStep(cands: seq<Candidate>, i: nat)
    requires i < |cands|
    ensures CandidateTexts(cands[..i + 1]) == CandidateTexts(cands[..i]) + CandidateText(cands[i])
  {
    assert cands[..i + 1][..i] == cands[..i];
  }

  lemma PartTextsStep(parts: seq<Part>, j: nat)
    requires j < |parts|
    ensures PartTexts(parts[..j + 1]) == PartTexts(parts[..j]) + PartText(parts[j])
  {
    assert parts[..j + 1][..j] == parts[..j];
  }

  /** A write of part j that finds no room leaves the pipe as writing all the parts leaves it. */
  lemma PartWriteFails(st0: PipeState, parts: seq<Part>, j: nat)
    requires j < |parts| && parts[j].text != ""
    requires |PartTexts(parts[..j])| <= Room(st0) && Room(Sent(st0, PartTexts(parts[..j]))) == 0
    ensures WriteAll(st0, PartTexts(parts)) == CloseWith(Sent(st0, PartTexts(parts[..j])), Some(ErrClosedPipe))
    ensures |PartTexts(parts)| > Room(st0)
  {
    PartSplit(parts, j);
    var done, after := PartTexts(parts[..j]), [parts[j].text] + PartTexts(parts[j + 1..]);
    SeqAssoc(done, [parts[j].text], PartTexts(parts[j + 1..]));
    assert (done + after)[..|done|] == done;
    FailedWriteCloses(st0, done, PartTexts(parts));
  }

  /** A candidate list split around candidate i. */
  lemma CandidateSplit(cands: seq<Candidate>, i: nat)
    requires i < |cands| && cands[i].content.Some?
    ensures CandidateTexts(cands) ==
      CandidateTexts(cands[..i]) + PartTexts(cands[i].content.value.parts) + CandidateTexts(cands[i + 1..])
  {
    var pre, mid, post := cands[..i], cands[i], cands[i + 1..];
    assert cands == pre + [mid] + post;
    CandidateTextsAppend(pre + [mid], post);
    CandidateTextsAppend(pre, [mid]);
    OneCandidate(mid);
  }

  lemma OneCandidate(cand: Candidate)
    ensures CandidateTexts([cand]) == CandidateText(cand)
  {
    assert [cand][..0] == [];
  }

  lemma OnePart(part: Part)
    ensures PartTexts([part]) == PartText(part)
  {
    assert [part][..0] == [];
  }

  /** A part list split around a part with text. */
  lemma PartSplit(parts: seq<Part>, j: nat)
    requires j < |parts| && parts[j].text != ""
    ensures PartTexts(parts) == PartTexts(parts[..j]) + [parts[j].text] + PartTexts(parts[j + 1..])
  {
    var pre, mid, post := parts[..j], parts[j], parts[j + 1..];
    assert parts == pre + [mid] + post;
    PartTextsAppend(pre + [mid], post);
    PartTextsAppend(pre, [mid]);
    OnePart(mid);
  }

  /** The texts written before part j of candidate i begin what the whole chunk writes. */
  lemma WrittenPrefix(cands: seq<Candidate>, i: nat, parts: seq<Part>, j: nat)
    requires i < |cands| && cands[i].content.Some? && parts == cands[i].content.value.parts
    requires j < |parts| && parts[j].text != ""
    ensures var done := CandidateTexts(cands[..i]) + PartTexts(parts[..j]);
      |CandidateTexts(cands)| > |done| && CandidateTexts(cands)[..|done| + 1] == done + [parts[j].text]
  {
    CandidateSplit(cands, i);
    PartSplit(parts, j);
    var before := CandidateTexts(cands[..i]);
    var p0 := PartTexts(parts[..j]);
    var p1 := PartTexts(parts[j + 1..]);
    var c1 := CandidateTexts(cands[i + 1..]);
    Regroup(before, p0, parts[j].text, p1, c1);
  }

  lemma Regroup(before: seq<string>, p0: seq<string>, t: string, p1: seq<string>, c1: seq<string>)
    ensures var all := before + (p0 + [t] + p1) + c1;
      |all| > |before + p0| && all[..|before + p0| + 1] == before + p0 + [t]
  {
    var all := before + (p0 + [t] + p1) + c1;
    assert all == (before + p0 + [t]) + (p1 + c1);
  }

  /** One item of a generate-content stream: a chunk (which may be nil) or an error. */
  type StreamItem = Result<Option<Response>, Error>

  /** The texts the Gemini client writes for a stream: an error becomes a normalised error text. */
  function GeminiTexts(items: seq<StreamItem>): seq<string>
  {
    if items == [] then []
    else
      var last := items[|items| - 1];
      GeminiTexts(items[..|items| - 1])
        + (if last.Err? then ResponseTexts(Some(NormalizeError(last.error))) else ResponseTexts(last.value))
  }

  /** The texts the Google client writes for a stream: an error item carries no chunk. */
  function GoogleTexts(items: seq<StreamItem>): seq<string>
  {
    if items == [] then []
    else
      var last := items[|items| - 1];
      GoogleTexts(items[..|items| - 1]) + (if last.Err? then [] else ResponseTexts(last.value))
  }

  /** How many items of a stream are errors. */
  function ErrorCount(items: seq<StreamItem>): nat
  {
    if items == [] then 0 else ErrorCount(items[..|items| - 1]) + (if items[|items| - 1].Err? then 1 else 0)
  }

  /**
   * The two clients write the same text for a stream without errors; each stream error adds
   * one "Error during transcription: ..." text in Gemini's and nothing in Google's.
   */
  lemma {:induction false} ClientsDifferOnlyOnErrors(items: seq<StreamItem>)
    ensures |GeminiTexts(items)| == |GoogleTexts(items)| + ErrorCount(items)
    ensures ErrorCount(items) == 0 ==> GeminiTexts(items) == GoogleTexts(items)
    decreases |items|
  {
    if items != [] {
      var last := items[|items| - 1];
      ClientsDifferOnlyOnErrors(items[..|items| - 1]);
      if last.Err? {
        NormalizedErrorText(last.error);
      }
    }
  }

  /**
   * The goroutine of the Gemini client's Transcribe: every stream item goes to
   * writeToStream in order (an error as a normalised error response), and the writer is
   * closed when the stream ends. The context is seen done from item `cancelAt` on.
   */
  method GeminiStream(w: PipeWriter, items: seq<StreamItem>, cancelAt: nat)
    modifies w
    ensures w.State() == CloseWith(WriteAll(old(w.State()), GeminiTexts(items[..Min(cancelAt, |items|)])), None)
  {
    ghost var st0 := w.State();
    var k := 0;
    while k < |items|
      invariant 0 <= k <= |items|
      invariant w.State() == WriteAll(st0, GeminiTexts(items[..Min(cancelAt, k)]))
    {
      var item := items[k];
      var chunk := if item.Err? then Some(NormalizeError(item.error)) else item.value;
      ghost var texts := GeminiTexts(items[..Min(cancelAt, k)]);
      WriteToStream(w, k >= cancelAt, chunk);
      if k < cancelAt {
        assert items[..k + 1][..k] == items[..k];
        WriteAllAppend(st0, texts, ResponseTexts(chunk));
      } else {
        assert Min(cancelAt, k + 1) == Min(cancelAt, k);
      }
      k := k + 1;
    }
    w.CloseWithError(None);
  }

  /**
   * The goroutine of the Google client's Transcribe: `for chunk := range stream` keeps only
   * the chunk of each item, so an error item reaches writeToStream as a nil chunk.
   */
  method GoogleStream(w: PipeWriter, items: seq<StreamItem>, cancelAt: nat)
    modifies w
    ensures w.State() == CloseWith(WriteAll(old(w.State()), GoogleTexts(items[..Min(cancelAt, |items|)])), None)
  {
    ghost var st0 := w.State();
    var k := 0;
    while k < |items|
      invariant 0 <= k <= |items|
      invariant w.State() == WriteAll(st0, GoogleTexts(items[..Min(cancelAt, k)]))
    {
      var item := items[k];
      var chunk := if item.Err? then None else item.value;
      ghost var texts := GoogleTexts(items[..Min(cancelAt, k)]);
      WriteToStream(w, k >= cancelAt, chunk);
      if k < cancelAt {
        assert items[..k + 1][..k] == items[..k];
        WriteAllAppend(st0, texts, ResponseTexts(chunk));
      } else {
        assert Min(cancelAt, k + 1) == Min(cancelAt, k);
      }
      k := k + 1;
    }
    w.CloseWithError(None);
  }

  /**
   * The guards of the Gemini client's Transcribe, in order: reading the audio file, a client
   * that was never initialised, and a nil stream. Only when all pass is a pipe returned.
   */
  function GeminiTranscribeGuard(readAudio: Option<Error>, clientInit: bool, streamNil: bool): (r: Option<Error>)
    ensures readAudio.Some? ==> r == readAudio
    ensures readAudio.None? && !clientInit ==> r == Some(Failure("gemini client not initialized"))
    ensures readAudio.None? && clientInit && streamNil ==> r == Some(Failure("generate content stream returned nil"))
    ensures r.None? <==> readAudio.None? && clientInit && !streamNil
  {
    if readAudio.Some? then readAudio
    else if !clientInit then Some(Failure("gemini client not initialized"))
    else if streamNil then Some(Failure("generate content stream returned nil"))
    else None
  }
}
