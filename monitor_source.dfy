/**
 * Finding the PulseAudio monitor source: the output of `pactl list sinks | grep .monitor`
 * is reduced to the source name after the first ':' of its first line. The process plumbing
 * that produces the output is not part of this model; its output is the input here.
 */
module MonitorSource {
  import opened Text
  import opened Wrappers
  import opened Errors

  datatype SourceError =
    | NoMonitorSink            // "no monitor sink found"
    | Unparsable(line: string) // fmt.Errorf("failed to parse pactl output: %q", line)

  /** The text up to the first newline: the first matching line. */
  function FirstLine(s: string): (line: string)
    ensures '\n' !in line
    ensures HasPrefix(s, line)
    ensures '\n' in s ==> |line| < |s| && s[|line|] == '\n'
    ensures '\n' !in s ==> line == s
  {
    var i := IndexOf(s, '\n');
    if i >= 0 then s[..i] else s
  }

  /** The text after the first ':' of a line, with the white space around it trimmed. */
  function AfterColon(line: string): string
    requires ':' in line
  {
    TrimSpace(line[IndexOf(line, ':') + 1..])
  }

  /** One line of `pactl` output: the trimmed text after its first ':', if there is any. */
  function ParseLine(line: string): (r: Result<string, SourceError>)
    ensures r.Ok? ==> r.value != [] && !IsSpace(r.value[0]) && !IsSpace(r.value[|r.value| - 1])
    ensures r.Err? ==> r == Err(NoMonitorSink) || r == Err(Unparsable(line))
    ensures r == Err(Unparsable(line)) <==> ':' !in line
    ensures ':' in line ==> r == if AfterColon(line) != [] then Ok(AfterColon(line)) else Err(NoMonitorSink)
  {
    var parts := SplitOnce(line, ':');
    if |parts| < 2 then Err(Unparsable(line))
    else
      var src := TrimSpace(parts[1]);
      if src != "" then Ok(src) else Err(NoMonitorSink)
  }

  /** The line a monitor source is read from: the first line of the trimmed output. */
  function SinkLine(output: string): string
  {
    FirstLine(TrimSpace(output))
  }

  /**
   * The parsing tail of GetSource (pkg/audio) and of getMonitorSource (ffmpeg.go), which are
   * the same code: trim the output, take its first line, split it once at ':', and return the
   * trimmed remainder if it is not empty.
   */
  function ParseSinkList(output: string): (r: Result<string, SourceError>)
    ensures r.Ok? ==> r.value != [] && !IsSpace(r.value[0]) && !IsSpace(r.value[|r.value| - 1])
    ensures r.Err? && r.error.Unparsable? ==>
      r.error.line != [] && ':' !in r.error.line && '\n' !in r.error.line
    ensures r.Err? && r.error.Unparsable? ==> r.error.line == SinkLine(output)
  {
    var out := TrimSpace(output);
    if out == "" then Err(NoMonitorSink)
    else
      var line := FirstLine(out);
      assert line != [] by {
        assert !IsSpace(out[0]);
        if '\n' in out { assert out[|line|] == '\n'; }
      }
      var r := ParseLine(line);
      assert r.Ok? ==> r.value != [] && !IsSpace(r.value[0]) && !IsSpace(r.value[|r.value| - 1]);
      assert r.Ok? ==> ':' in line;
      assert r.Err? && r.error.Unparsable? ==> r.error.line == line;
      r
  }

  /** Non-blank output is parsed as its first line. */
  lemma SinkListIsFirstLine(output: string)
    requires TrimSpace(output) != []
    ensures ParseSinkList(output) == ParseLine(SinkLine(output))
  {
  }

  /**
   * The result for every output, case by case: blank output has no sink; a first line (of
   * the trimmed output) without ':' is unparsable; otherwise the trimmed text after its first
   * ':' is the source, or there is no sink when that text is blank.
   */
  lemma ParseSinkListCases(output: string)
    ensures TrimSpace(output) == [] ==> ParseSinkList(output) == Err(NoMonitorSink)
    ensures TrimSpace(output) != [] && ':' !in SinkLine(output) ==>
      ParseSinkList(output) == Err(Unparsable(SinkLine(output)))
    ensures TrimSpace(output) != [] && ':' in SinkLine(output) ==>
      ParseSinkList(output) == if AfterColon(SinkLine(output)) != [] then Ok(AfterColon(SinkLine(output))) else Err(NoMonitorSink)
  {
    if TrimSpace(output) != [] {
      SinkListIsFirstLine(output);
    }
  }

  /** What a found source is: the trimmed text after the first ':' of the output's first line. */
  lemma FoundSourceAfterColon(output: string)
    ensures ParseSinkList(output).Ok? ==>
      ':' in SinkLine(output) && ParseSinkList(output).value == AfterColon(SinkLine(output))
  {
    ParseSinkListCases(output);
  }

  /** Output that is empty or only white space means there is no monitor sink. */
  lemma BlankOutput(output: string)
    requires AllSpace(output)
    ensures ParseSinkList(output) == Err(NoMonitorSink)
  {
    TrimSpaceEmptyIff(output);
  }

  /**
   * `<label>:<rest>` yields the trimmed rest (colons in it included), or "no monitor sink
   * found" when the rest is only white space.
   */
  lemma ParseLabelledLine(key: string, src: string)
    requires ':' !in key
    ensures ParseLine(key + ":" + src) == if TrimSpace(src) != [] then Ok(TrimSpace(src)) else Err(NoMonitorSink)
  {
    var line := key + ":" + src;
    var parts := SplitOnce(line, ':');
    assert line[|key|] == ':';
    assert |parts[0]| == |key|;
    assert parts[1] == src;
  }

  /** A string followed by a new line starts with that whole string as its first line. */
  lemma FirstLineBeforeNewline(h: string, t: string)
    requires '\n' !in h
    requires t == [] || t[0] == '\n'
    ensures FirstLine(h + t) == h
  {
    if t != [] {
      assert (h + t)[|h|] == '\n';
    } else {
      assert h + t == h;
    }
  }

  /** Trimming the end of `h` + `rest` keeps `h` whole when `rest` starts a new line. */
  lemma TrimEndAfterLine(h: string, rest: string) returns (t: string)
    requires h != [] && !IsSpace(h[|h| - 1])
    requires rest != [] && rest[0] == '\n'
    ensures TrimRight(h + rest) == h + t && (t == [] || t[0] == '\n')
  {
    TrimRightAppend(h, rest);
    if AllSpace(rest) {
      t := [];
      assert TrimRight(h + rest) == h + t;
    } else {
      t := TrimRight(rest);
      assert t != [] by {
        if t == [] { TrimRightEmpty(rest); }
      }
    }
  }

  /** A line with no white space at its end is its own right trim. */
  lemma TrimEndOfLine(h: string)
    requires h != [] && !IsSpace(h[|h| - 1])
    ensures TrimRight(h) == h
  {
  }

  /** Trimming `head` + `rest` keeps all of `head` but its leading white space and no more. */
  lemma TrimHeadAndRest(head: string, rest: string) returns (t: string)
    requires head != [] && !IsSpace(head[|head| - 1])
    requires rest == [] || rest[0] == '\n'
    ensures TrimSpace(head + rest) == TrimLeft(head) + t && (t == [] || t[0] == '\n')
  {
    var h := TrimLeft(head);
    assert h != [] && h[|h| - 1] == head[|head| - 1];
    if rest == [] {
      assert head + rest == head;
      TrimEndOfLine(h);
      t := [];
      assert h + t == h;
    } else {
      TrimLeftAppend(head, rest);
      t := TrimEndAfterLine(h, rest);
    }
  }

  /**
   * The output is trimmed and then cut at its first newline: when `head` has clean ends and
   * `rest` is empty or starts a new line, the line parsed is `head` whatever `rest` holds.
   */
  lemma FirstLineOfOutput(head: string, rest: string)
    requires head != [] && !IsSpace(head[|head| - 1]) && '\n' !in head
    requires rest == [] || rest[0] == '\n'
    ensures ParseSinkList(head + rest) == ParseLine(TrimLeft(head))
  {
    HeadIsSinkLine(head, rest);
    SinkListIsFirstLine(head + rest);
  }

  /** Trimming the front of a line with a clean end leaves a line, not nothing. */
  lemma {:induction false} TrimLeftOfLine(head: string)
    requires head != [] && !IsSpace(head[|head| - 1]) && '\n' !in head
    ensures TrimLeft(head) != [] && '\n' !in TrimLeft(head)
  {
    if IsSpace(head[0]) {
      assert head[1..][|head| - 2] == head[|head| - 1];
      TrimLeftOfLine(head[1..]);
    }
  }

  /** The line read from `head` + `rest` is `head` without its leading white space. */
  lemma HeadIsSinkLine(head: string, rest: string)
    requires head != [] && !IsSpace(head[|head| - 1]) && '\n' !in head
    requires rest == [] || rest[0] == '\n'
    ensures TrimSpace(head + rest) != [] && SinkLine(head + rest) == TrimLeft(head)
  {
    var h := TrimLeft(head);
    var t := TrimHeadAndRest(head, rest);
    TrimLeftOfLine(head);
    FirstLineBeforeNewline(h, t);
    assert SinkLine(head + rest) == FirstLine(h + t);
  }

  /**
   * A first line `<label>:<source>`, such as pactl's `Monitor Source: <name>`, yields the
   * source with the white space around it trimmed: the label (with any leading tab) goes,
   * colons inside the source stay, and whatever follows the first line is ignored. The line
   * ends in the source name (or in the ':').
   */
  lemma SinkLineParsed(key: string, src: string, rest: string)
    requires ':' !in key && '\n' !in key && '\n' !in src
    requires src == [] || !IsSpace(src[|src| - 1])
    requires rest == [] || rest[0] == '\n'
    ensures ParseSinkList(key + ":" + src + rest) == if TrimSpace(src) != [] then Ok(TrimSpace(src)) else Err(NoMonitorSink)
  {
    var head := key + ":" + src;
    assert head[|head| - 1] == if src == [] then ':' else src[|src| - 1];
    FirstLineOfOutput(head, rest);
    TrimLabelledLine(key, src);
    ParseLabelledLine(TrimLeft(key), src);
  }

  /** Leading white space before the label is all that trimming the start removes. */
  lemma TrimLabelledLine(key: string, src: string)
    ensures TrimLeft(key + ":" + src) == TrimLeft(key) + ":" + src
  {
    var colon := key + ":";
    assert !IsSpace(':');
    TrimLeftAppend(key, ":");
    assert !AllSpace(colon) by {
      assert colon[|key|] == ':';
    }
    TrimLeftAppend(colon, src);
  }

  /** A first line without ':' is reported back as unparsable, whatever follows it. */
  lemma LineWithoutColon(line: string, rest: string)
    requires line != [] && !IsSpace(line[0]) && !IsSpace(line[|line| - 1])
    requires ':' !in line && '\n' !in line
    requires rest == [] || rest[0] == '\n'
    ensures ParseSinkList(line + rest) == Err(Unparsable(line))
  {
    FirstLineOfOutput(line, rest);
  }

  datatype LookupError = LookupFailed(cause: Error) | BadOutput(reason: SourceError)

  /**
   * ffmpeg.go's getMonitorSource, given what running pactl and grep produced: their output,
   * or the error that stopped them, which is returned unchanged.
   */
  function GetMonitorSource(grepOutput: Result<string, Error>): (r: Result<string, LookupError>)
    ensures grepOutput.Err? ==> r == Err(LookupFailed(grepOutput.error))
    ensures grepOutput.Ok? ==> r.Err? ==> r.error.BadOutput?
    ensures grepOutput.Ok? && ParseSinkList(grepOutput.value).Ok? ==> r == Ok(ParseSinkList(grepOutput.value).value)
    ensures grepOutput.Ok? && ParseSinkList(grepOutput.value).Err? ==> r == Err(BadOutput(ParseSinkList(grepOutput.value).error))
    ensures r.Ok? ==> r.value != [] && !IsSpace(r.value[0]) && !IsSpace(r.value[|r.value| - 1])
  {
    if grepOutput.Err? then Err(LookupFailed(grepOutput.error))
    else
      var parsed := ParseSinkList(grepOutput.value);
      if parsed.Err? then Err(BadOutput(parsed.error)) else Ok(parsed.value)
  }

  /** How ffmpeg.go's Record runs the capture: its program and argument list. */
  datatype Command = Command(program: string, args: seq<string>)

  /** Why ffmpeg.go's Record fails: the source lookup, or the ffmpeg run itself. */
  datatype RecordFailure = NoSource(reason: LookupError) | RunFailed(cause: Error)

  /** What Record did: the command it ran, if any, and the error it returned, if any. */
  datatype RecordOutcome = RecordOutcome(ran: Option<Command>, err: Option<RecordFailure>)

  /**
   * ffmpeg.go's Record, given the source lookup and what running ffmpeg returned: a failed
   * lookup is returned before anything is run; otherwise ffmpeg captures ten seconds of
   * PulseAudio input from the resolved source into output.wav, and its error is returned
   * unchanged.
   */
  function FfmpegRecord(lookup: Result<string, LookupError>, runErr: Option<Error>): (r: RecordOutcome)
    ensures lookup.Err? ==> r.ran == None && r.err == Some(NoSource(lookup.error))
    ensures lookup.Ok? ==>
      && r.ran.Some? && r.ran.value.program == "ffmpeg" && |r.ran.value.args| == 7
      && r.ran.value.args[..2] == ["-f", "pulse"]
      && r.ran.value.args[2..4] == ["-i", lookup.value]
      && r.ran.value.args[4..] == ["-t", "10", "output.wav"]
    ensures lookup.Ok? ==> (r.err.None? <==> runErr.None?)
    ensures lookup.Ok? && runErr.Some? ==> r.err == Some(RunFailed(runErr.value))
  {
    match lookup
    case Err(e) => RecordOutcome(None, Some(NoSource(e)))
    case Ok(source) =>
      var cmd := Command("ffmpeg", ["-f", "pulse", "-i", source, "-t", "10", "output.wav"]);
      RecordOutcome(Some(cmd), if runErr.Some? then Some(RunFailed(runErr.value)) else None)
  }
}
