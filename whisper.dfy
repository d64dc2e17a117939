/**
 * The local whisper.cpp transcriber (internal/transcriber/whisper.go): the control tags
 * removed from each token, the WAV checks made before any processing, the callback that
 * writes tokens into the pipe, and the context reset. The model itself is not part of this
 * model; the segments it produces are the input here.
 */
module Whisper {
  import opened Wrappers
  import opened Errors
  import opened Text
  import opened Pipes

  /** The number of ASCII digits `s` starts with (the `\d` of Go's regexp). */
  function DigitRun(s: string): (n: nat)
    ensures n <= |s| && AllDigits(s[..n])
    ensures n < |s| ==> !IsDigit(s[n])
  {
    if s != [] && IsDigit(s[0]) then 1 + DigitRun(s[1..]) else 0
  }

  /**
   * The length of the tag `s` starts with, or 0: `[_BEG_]`, `[_EOT_]`, or `[_TT_` followed by
   * one or more digits and `]` (the alternatives of `\[_BEG_]|\[_EOT_]|\[_TT_\d+]`).
   */
  function TagLength(s: string): (n: nat)
    ensures n <= |s|
    ensures n > 0 ==> n >= 7 && s[0] == '[' && s[n - 1] == ']'
  {
    if HasPrefix(s, "[_BEG_]") || HasPrefix(s, "[_EOT_]") then 7
    else if HasPrefix(s, "[_TT_") then
      var d := DigitRun(s[5..]);
      if d > 0 && 5 + d < |s| && s[5 + d] == ']' then 6 + d else 0
    else 0
  }

  /**
   * normalizeWhisperToken: ReplaceAllString with "" removes every leftmost, non-overlapping
   * match, scanning once from left to right and resuming after each match.
   */
  function StripTags(s: string): (r: string)
    ensures |r| <= |s|
    decreases |s|
  {
    if s == [] then []
    else
      var n := TagLength(s);
      if n > 0 then StripTags(s[n..]) else [s[0]] + StripTags(s[1..])
  }

  /** No tag starts anywhere in `s`. */
  predicate TagFree(s: string)
  {
    forall i :: 0 <= i < |s| ==> TagLength(s[i..]) == 0
  }

  /** Text without tags is returned unchanged. */
  lemma {:induction false} TagFreeUnchanged(s: string)
    requires TagFree(s)
    ensures StripTags(s) == s
    decreases |s|
  {
    if s != [] {
      assert s[0..] == s;
      assert forall i :: 0 <= i < |s| - 1 ==> s[1..][i..] == s[i + 1..];
      TagFreeUnchanged(s[1..]);
    }
  }

  /** A whole tag at the front goes, and the scan resumes right after it. */
  lemma TagRemoved(tag: string, s: string)
    requires tag == "[_BEG_]" || tag == "[_EOT_]" ||
      (|tag| > 6 && tag[..5] == "[_TT_" && AllDigits(tag[5..|tag| - 1]) && tag[|tag| - 1] == ']')
    ensures StripTags(tag + s) == StripTags(s)
  {
    var t := tag + s;
    assert t[..|tag|] == tag;
    if |tag| > 6 && tag[..5] == "[_TT_" && tag != "[_BEG_]" && tag != "[_EOT_]" {
      TimestampTagLength(tag, s);
      assert t[|tag|..] == s;
    } else {
      assert t[7..] == s;
    }
  }

  /** A `[_TT_<digits>]` tag in front is matched whole. */
  lemma TimestampTagLength(tag: string, s: string)
    requires |tag| > 6 && tag[..5] == "[_TT_" && AllDigits(tag[5..|tag| - 1]) && tag[|tag| - 1] == ']'
    ensures TagLength(tag + s) == |tag|
  {
    var t := tag + s;
    var k := |tag| - 6;
    assert t[..5] == "[_TT_";
    assert !HasPrefix(t, "[_BEG_]") && !HasPrefix(t, "[_EOT_]") by {
      assert t[2] == 'T';
    }
    var rest := t[5..];
    assert rest[..k] == tag[5..|tag| - 1] by {
      assert forall i :: 0 <= i < k ==> rest[i] == t[5 + i] == tag[5 + i];
    }
    assert rest[k] == ']';
    DigitRunOf(rest, k);
  }

  /** A run of k digits followed by a non-digit is a digit run of length k. */
  lemma {:induction false} DigitRunOf(s: string, k: nat)
    requires k < |s| && AllDigits(s[..k]) && !IsDigit(s[k])
    ensures DigitRun(s) == k
    decreases k
  {
    if k > 0 {
      assert s[0] == s[..k][0];
      assert s[1..][..k - 1] == s[1..k];
      DigitRunOf(s[1..], k - 1);
    }
  }

  /** A character that does not start a tag is kept, and the scan moves on by one. */
  lemma KeepFirst(s: string)
    requires s != [] && TagLength(s) == 0
    ensures StripTags(s) == [s[0]] + StripTags(s[1..])
  {
  }

  /** Only '[' can start a tag. */
  lemma KeepPlain(c: char, rest: string)
    requires c != '['
    ensures StripTags([c] + rest) == [c] + StripTags(rest)
  {
    assert ([c] + rest)[1..] == rest;
    KeepFirst([c] + rest);
  }

  /** `[_TT_]` has no digits, so it is not a tag and stays, and the scan goes on after it. */
  lemma EmptyTimestampKept(s: string)
    ensures StripTags("[_TT_]" + s) == "[_TT_]" + StripTags(s)
  {
    var t := "[_TT_]" + s;
    EmptyTimestampNoTag(s);
    assert t[1..] == "_TT_]" + s;
    assert '[' !in "_TT_]";
    KeepUntilBracket(t, "_TT_]", s);
    assert [t[0]] + "_TT_]" == "[_TT_]";
  }

  /** A first character that starts no tag, then text without '[': all of it is kept. */
  lemma KeepUntilBracket(t: string, p: string, rest: string)
    requires t != [] && TagLength(t) == 0 && t[1..] == p + rest && '[' !in p
    ensures StripTags(t) == [t[0]] + p + StripTags(rest)
  {
    KeepFirst(t);
    KeepTextWithoutBracket(p, rest);
    SeqAssoc([t[0]], p, StripTags(rest));
  }

  lemma EmptyTimestampNoTag(s: string)
    ensures TagLength("[_TT_]" + s) == 0
  {
    var t := "[_TT_]" + s;
    assert t[5..][0] == ']';
    assert t[2] == 'T' && t[..5] == "[_TT_";
  }

  /**
   * One pass only: removing a tag can bring the two halves of another together, and that
   * one stays.
   */
  lemma SinglePass(rest: string)
    ensures StripTags("[_" + ("[_BEG_]" + ("BEG_]" + rest))) == "[_" + ("BEG_]" + StripTags(rest))
  {
    var after := "BEG_]" + rest;
    var inner := "[_BEG_]" + after;
    var t := "[_" + inner;
    assert t[..2] == "[_" && t[2] == '[';
    assert TagLength(t) == 0;
    KeepFirst(t);
    assert t[1..] == ['_'] + inner;
    KeepPlain('_', inner);
    TagRemoved("[_BEG_]", after);
    KeepTextWithoutBracket("BEG_]", rest);
    var tail := "BEG_]" + StripTags(rest);
    assert StripTags(t) == ['['] + (['_'] + tail);
    SeqAssoc(['['], ['_'], tail);
    assert ['['] + ['_'] == "[_";
  }

  /** Text without '[' in front of `rest` is kept whole. */
  lemma {:induction false} KeepTextWithoutBracket(p: string, rest: string)
    requires '[' !in p
    ensures StripTags(p + rest) == p + StripTags(rest)
    decreases |p|
  {
    if p != [] {
      var c, q := p[0], p[1..];
      assert [c] + q == p;
      SeqAssoc([c], q, rest);
      KeepPlain(c, q + rest);
      assert '[' !in q;
      KeepTextWithoutBracket(q, rest);
      SeqAssoc([c], q, StripTags(rest));
    } else {
      assert p + rest == rest;
    }
  }

  /** Text without '[' holds no tag and is returned unchanged. */
  lemma {:induction false} NoBracketUnchanged(s: string)
    requires '[' !in s
    ensures StripTags(s) == s
    decreases |s|
  {
    if s != [] {
      assert s == [s[0]] + s[1..];
      KeepPlain(s[0], s[1..]);
      NoBracketUnchanged(s[1..]);
    }
  }

  /** `a` can be obtained from `b` by deleting characters: matched greedily from the front. */
  predicate Subsequence(a: string, b: string)
    decreases |b|
  {
    if a == [] then true
    else if b == [] then false
    else if a[0] == b[0] then Subsequence(a[1..], b[1..])
    else Subsequence(a, b[1..])
  }

  /** Leaving out the first character of a subsequence leaves a subsequence. */
  lemma {:induction false} SubsequenceDropHead(a: string, b: string)
    requires a != [] && Subsequence(a, b)
    ensures Subsequence(a[1..], b)
    decreases |b|, 1
  {
    assert [b[0]] + b[1..] == b;
    if a[0] != b[0] {
      SubsequenceDropHead(a, b[1..]);
    }
    SubsequenceAddHead(a[1..], b[0], b[1..]);
  }

  /** A subsequence of `b` stays one when a character is put in front of `b`. */
  lemma {:induction false} SubsequenceAddHead(a: string, c: char, b: string)
    requires Subsequence(a, b)
    ensures Subsequence(a, [c] + b)
    decreases |b| + 1, 0
  {
    var cb := [c] + b;
    assert cb[1..] == b;
    if a != [] && a[0] == c {
      SubsequenceDropHead(a, b);
    }
  }

  /** A subsequence of `b` stays one when any text is put in front of `b`. */
  lemma {:induction false} SubsequencePrefix(a: string, c: string, b: string)
    requires Subsequence(a, b)
    ensures Subsequence(a, c + b)
    decreases |c|
  {
    if c != [] {
      SubsequencePrefix(a, c[1..], b);
      SubsequenceAddHead(a, c[0], c[1..] + b);
      assert [c[0]] + (c[1..] + b) == c + b;
    } else {
      assert c + b == b;
    }
  }

  /** What normalisation keeps, it keeps in its original order. */
  lemma {:induction false} StripKeepsOrder(s: string)
    ensures Subsequence(StripTags(s), s)
    decreases |s|
  {
    if s != [] {
      var n := TagLength(s);
      if n > 0 {
        StripKeepsOrder(s[n..]);
        SubsequencePrefix(StripTags(s[n..]), s[..n], s[n..]);
        assert s[..n] + s[n..] == s;
      } else {
        StripKeepsOrder(s[1..]);
        var r := [s[0]] + StripTags(s[1..]);
        assert r[1..] == StripTags(s[1..]);
      }
    }
  }

  /** whisper.SampleRate: the model takes 16 kHz audio. */
  const SampleRate: nat := 16000

  /** What the WAV decoder reports about a file. */
  datatype WavFormat = WavFormat(sampleRate: nat, numChans: nat)

  /**
   * The checks Transcribe makes before any processing, in order: opening the file, decoding
   * it, its sample rate, and its channel count. None means the audio is accepted.
   */
  function CheckAudio(open: Option<Error>, decoded: Result<WavFormat, Error>): (r: Option<Error>)
    ensures r.None? <==> open.None? && decoded.Ok? && decoded.value == WavFormat(SampleRate, 1)
    ensures open.Some? ==> r == open
    ensures open.None? && decoded.Err? ==> r == Some(decoded.error)
    ensures open.None? && decoded.Ok? && decoded.value.sampleRate != SampleRate ==>
      r == Some(Failure("unsupported sample rate: " + Decimal(decoded.value.sampleRate, 1)))
    ensures open.None? && decoded.Ok? && decoded.value.sampleRate == SampleRate && decoded.value.numChans != 1 ==>
      r == Some(Failure("unsupported number of channels: " + Decimal(decoded.value.numChans, 1)))
  {
    if open.Some? then open
    else if decoded.Err? then Some(decoded.error)
    else if decoded.value.sampleRate != SampleRate then
      Some(Failure("unsupported sample rate: " + Decimal(decoded.value.sampleRate, 1)))
    else if decoded.value.numChans != 1 then
      Some(Failure("unsupported number of channels: " + Decimal(decoded.value.numChans, 1)))
    else None
  }

  /** The normalised text of each token, in order. */
  function Normalized(tokens: seq<string>): (r: seq<string>)
    ensures |r| == |tokens|
    ensures forall k :: 0 <= k < |r| ==> r[k] == StripTags(tokens[k])
  {
    seq(|tokens|, k requires 0 <= k < |tokens| => StripTags(tokens[k]))
  }

  /** All segments' tokens, in order. */
  function Flatten(segments: seq<seq<string>>): seq<string>
  {
    if segments == [] then [] else Flatten(segments[..|segments| - 1]) + segments[|segments| - 1]
  }

  /**
   * The segment callback: for each token, stop if the context is done, otherwise write its
   * normalised text; a failed write closes the writer with that error and stops. The context
   * is seen done from token number `cancelAt` on, counting over all segments, and the first
   * token of this segment has number `first`.
   */
  method SegmentCallback(w: PipeWriter, tokens: seq<string>, first: nat, cancelAt: nat)
    modifies w
    ensures var cut := if cancelAt <= first then 0 else Min(|tokens|, cancelAt - first);
      w.State() == WriteAll(old(w.State()), Normalized(tokens[..cut]))
  {
    ghost var st0 := w.State();
    ghost var cut := if cancelAt <= first then 0 else Min(|tokens|, cancelAt - first);
    var j := 0;
    assert Normalized(tokens[..0]) == [];
    while j < |tokens|
      invariant 0 <= j <= |tokens| && j <= cut
      invariant j <= Room(st0)
      invariant w.State() == Sent(st0, Normalized(tokens[..j]))
    {
      if first + j >= cancelAt {
        WriteAllDelivers(st0, Normalized(tokens[..cut]));
        return;
      }
      var chunk := StripTags(tokens[j]);
      var err := w.Write(chunk);
      if err.Some? {
        w.CloseWithError(err);
        assert Normalized(tokens[..cut])[..j] == Normalized(tokens[..j]);
        FailedWriteCloses(st0, Normalized(tokens[..j]), Normalized(tokens[..cut]));
        return;
      }
      assert Normalized(tokens[..j + 1]) == Normalized(tokens[..j]) + [chunk];
      j := j + 1;
    }
    WriteAllDelivers(st0, Normalized(tokens[..cut]));
  }

  /**
   * The processing goroutine of Transcribe: the callback runs for every segment in order;
   * a processing error closes the writer with that error, and the deferred Close ends the
   * stream (a writer already closed keeps its first error).
   */
  method Process(w: PipeWriter, segments: seq<seq<string>>, cancelAt: nat, processErr: Option<Error>)
    modifies w
    ensures var tokens := Flatten(segments);
      w.State() == CloseWith(WriteAll(old(w.State()), Normalized(tokens[..Min(cancelAt, |tokens|)])), processErr)
  {
    ghost var st0 := w.State();
    var first := 0;
    var i := 0;
    while i < |segments|
      invariant 0 <= i <= |segments|
      invariant first == |Flatten(segments[..i])|
      invariant w.State() == WriteAll(st0, Normalized(Flatten(segments[..i])[..Min(cancelAt, first)]))
    {
      ghost var done := Flatten(segments[..i]);
      SegmentCallback(w, segments[i], first, cancelAt);
      assert segments[..i + 1][..i] == segments[..i];
      NextSegment(done, segments[i], cancelAt);
      WriteAllAppend(st0, Normalized(done[..Min(cancelAt, first)]),
        Normalized(segments[i][..if cancelAt <= first then 0 else Min(|segments[i]|, cancelAt - first)]));
      first := first + |segments[i]|;
      i := i + 1;
    }
    assert segments[..i] == segments;
    if processErr.Some? {
      w.CloseWithError(processErr);
    }
    w.CloseWithError(None);
  }

  /** The tokens written up to a segment's end are those before it, then the segment's own. */
  lemma NextSegment(done: seq<string>, tokens: seq<string>, cancelAt: nat)
    ensures var first := |done|;
      var cut := if cancelAt <= first then 0 else Min(|tokens|, cancelAt - first);
      Normalized((done + tokens)[..Min(cancelAt, first + |tokens|)])
        == Normalized(done[..Min(cancelAt, first)]) + Normalized(tokens[..cut])
  {
    var first := |done|;
    if cancelAt <= first {
      assert (done + tokens)[..cancelAt] == done[..cancelAt];
      assert tokens[..0] == [];
    } else {
      var cut := Min(|tokens|, cancelAt - first);
      assert (done + tokens)[..first + cut] == done + tokens[..cut];
      assert done[..first] == done;
    }
  }

  /** A whisper.cpp context as this code configures it. */
  datatype ModelContext = ModelContext(id: nat, temperature: real, initialPrompt: bool)

  /** The whisper client, whose context ResetContext replaces. */
  class WhisperClient {
    var ctx: ModelContext

    constructor (created: nat)
      ensures ctx == ModelContext(created, 0.0, false)
    {
      ctx := ModelContext(created, 0.0, false);
    }

    /**
     * ResetContext: a new context from the model (`created`, or the error creating it),
     * set to temperature 0.5 with the initial prompt. On error the old context stays.
     */
    method ResetContext(created: Result<nat, Error>) returns (err: Option<Error>)
      modifies this
      ensures created.Err? ==> err == Some(created.error) && ctx == old(ctx)
      ensures created.Ok? ==> err.None? && ctx == ModelContext(created.value, 0.5, true)
    {
      if created.Err? {
        return Some(created.error);
      }
      ctx := ModelContext(created.value, 0.5, true);
      return None;
    }
  }
}
