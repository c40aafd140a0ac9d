/** `runCommand`: report the command line, then every line the packer printed
    on stdout and on stderr, then a non-zero exit status. The synchronous spawn
    itself is not modelled; its result record is an input. */
module Runner {
  import opened Wrappers
  import opened JsText
  import opened JsNumber
  import opened Logging
  import opened SeqFacts

  /** What `spawnSync` returns, as far as `runCommand` reads it: the error (as
      its text) when the child could not be started, the two captured streams
      (None when Node leaves them null) and the exit status (None for null). */
  datatype SpawnResult = SpawnResult(
    error: Option<string>,
    stdout: Option<string>,
    stderr: Option<string>,
    status: Option<int>)

  /** The lines one stream is reported as: the first `\r\n` becomes `\n`, the
      text is split at every `\n`, and each piece loses its trailing white space. */
  function OutputLines(text: string): seq<string>
  {
    Trimmed(Split(ReplaceFirstCrlf(text), '\n'))
  }

  /** One line more than the output has line feeds (the first-CRLF replacement
      keeps their number), none holding a line feed or ending in white space. */
  lemma {:induction false} OutputLinesShape(text: string)
    ensures var lines := OutputLines(text);
      && |lines| == multiset(text)['\n'] + 1
      && forall i :: 0 <= i < |lines| ==>
           '\n' !in lines[i] && (lines[i] == [] || !IsJsSpace(lines[i][|lines[i]| - 1]))
  {
    var pieces := Split(ReplaceFirstCrlf(text), '\n');
    forall i | 0 <= i < |pieces|
      ensures '\n' !in TrimEnd(pieces[i])
    {
      var p, t := pieces[i], TrimEnd(pieces[i]);
      assert forall c :: c in t ==> c in p;
    }
  }

  /** `trimRight` applied to every piece. */
  function Trimmed(pieces: seq<string>): seq<string>
  {
    seq(|pieces|, i requires 0 <= i < |pieces| => TrimEnd(pieces[i]))
  }

  /** Output that has no white space apart from line feeds is reported line for
      line: joining the reported lines gives the output back. */
  lemma {:induction false} CleanOutputRoundTrip(text: string)
    requires forall i :: 0 <= i < |text| ==> text[i] == '\n' || !IsJsSpace(text[i])
    ensures Join(OutputLines(text), "\n") == text
  {
    assert FirstCrlf(text) == |text| by {
      if FirstCrlf(text) < |text| {
        assert IsJsSpace(text[FirstCrlf(text)]);
      }
    }
    var pieces := Split(text, '\n');
    assert Join(pieces, ['\n']) == text;
    forall i | 0 <= i < |pieces|
      ensures TrimEnd(pieces[i]) == pieces[i]
    {
      PieceHasNoSpace(text, pieces, i);
    }
    assert OutputLines(text) == pieces;
  }

  lemma {:induction false} PieceHasNoSpace(text: string, pieces: seq<string>, i: int)
    requires forall k :: 0 <= k < |text| ==> text[k] == '\n' || !IsJsSpace(text[k])
    requires pieces == Split(text, '\n') && 0 <= i < |pieces|
    ensures TrimEnd(pieces[i]) == pieces[i]
  {
    var p := pieces[i];
    if p != [] {
      var c := p[|p| - 1];
      assert c in multiset(p);
      JoinedPiece(pieces, i, "\n");
      assert c in Join(pieces, "\n");
      assert c != '\n';
    }
  }

  /** Every character of a piece appears in the joined text. */
  lemma {:induction false} JoinedPiece(pieces: seq<string>, i: int, sep: string)
    requires 0 <= i < |pieces|
    ensures forall c :: c in pieces[i] ==> c in Join(pieces, sep)
    decreases |pieces|
  {
    if |pieces| > 1 && i > 0 {
      JoinedPiece(pieces[1..], i - 1, sep);
    }
  }

  function RunningLine(command: string, args: seq<string>): string
  {
    "Running: " + command + " " + Join(args, " ")
  }

  function StatusLine(command: string, status: int): string
  {
    command + " returned " + IntToDecimal(status)
  }

  /** `if (spawn.status)`: null and zero are false. */
  predicate Failed(status: Option<int>)
  {
    status.Some? && status.value != 0
  }

  /** A started-but-failed spawn makes `log(spawn.error)` throw unless the level
      is silent, since an Error object has no `replace`; a null stream makes its
      `toString()` throw. */
  predicate RunThrows(level: LogLevel, spawn: SpawnResult)
  {
    (spawn.error.Some? && level != Silent) || spawn.stdout.None? || spawn.stderr.None?
  }

  /** The lines of a stream as Node captured it; None for a null stream. */
  function StreamLines(text: Option<string>): Option<seq<string>>
  {
    match text
    case None => None
    case Some(t) => Some(OutputLines(t))
  }

  /** The status line, reported only for a non-zero status. */
  function StatusReport(command: string, status: Option<int>): Option<string>
  {
    if Failed(status) then Some(StatusLine(command, status.value)) else None
  }

  /** What a run adds to the channel, given its parts: the verbose `Running:`
      line; then, unless logging the spawn error throws or stdout is null, the
      stdout lines; then, unless stderr is null, the stderr lines and the
      status line. */
  function Report(level: LogLevel, running: string, errored: bool,
                  out: Option<seq<string>>, err: Option<seq<string>>, status: Option<string>): seq<string>
  {
    var head := if ShowsVerbose(level) then Appended(level, running) else [];
    if (errored && level != Silent) || out.None? then head
    else if err.None? then head + AppendedAll(level, out.value)
    else
      head + AppendedAll(level, out.value) + AppendedAll(level, err.value)
      + (if status.Some? then Appended(level, status.value) else [])
  }

  /** The lines `runCommand` adds to the output channel. */
  function RunLog(level: LogLevel, command: string, args: seq<string>, spawn: SpawnResult): seq<string>
  {
    Report(level, RunningLine(command, args), spawn.error.Some?,
           StreamLines(spawn.stdout), StreamLines(spawn.stderr), StatusReport(command, spawn.status))
  }

  /** `log` reports the lines of `out`, then those of `err`, then the status
      line if there is one, each stripped of colour sequences, and nothing else. */
  predicate ReportsLines(log: seq<string>, out: seq<string>, err: seq<string>, status: Option<string>)
  {
    && |log| == |out| + |err| + (if status.Some? then 1 else 0)
    && (forall i :: 0 <= i < |out| ==> log[i] == StripAnsi(out[i]))
    && (forall i :: |out| <= i < |out| + |err| ==> log[i] == StripAnsi(err[i - |out|]))
    && (status.Some? ==> log[|log| - 1] == StripAnsi(status.value))
  }

  lemma {:induction false} ReportedLines(level: LogLevel, log: seq<string>, head: seq<string>,
      out: seq<string>, err: seq<string>, status: Option<string>)
    requires level != Silent
    requires log == head + AppendedAll(level, out) + AppendedAll(level, err)
        + (if status.Some? then Appended(level, status.value) else [])
    ensures |head| <= |log| && log[..|head|] == head
    ensures ReportsLines(log[|head|..], out, err, status)
  {
    var a, b := AppendedAll(level, out), AppendedAll(level, err);
    var c := if status.Some? then Appended(level, status.value) else [];
    AppendedInOrder(level, out);
    AppendedInOrder(level, err);
    Assoc(head, a + b, c);
    Assoc(head, a, b);
    assert log == head + (a + b + c);
    assert log[|head|..] == a + b + c;
    PlaceLines(a, b, c, out, err);
  }

  /** The placement behind `ReportedLines`, with the pieces as plain sequences. */
  lemma {:induction false} PlaceLines(a: seq<string>, b: seq<string>, c: seq<string>, out: seq<string>, err: seq<string>)
    requires |a| == |out| && forall i :: 0 <= i < |out| ==> a[i] == StripAnsi(out[i])
    requires |b| == |err| && forall i :: 0 <= i < |err| ==> b[i] == StripAnsi(err[i])
    ensures |a + b + c| == |out| + |err| + |c|
    ensures forall i :: 0 <= i < |out| ==> (a + b + c)[i] == StripAnsi(out[i])
    ensures forall i :: |out| <= i < |out| + |err| ==> (a + b + c)[i] == StripAnsi(err[i - |out|])
  {
  }

  /** At any level but silent a run that completes reports, in this order: the
      `Running:` line at the verbose and debug levels only, then the stdout
      lines, then the stderr lines, then one status line if and only if the
      status is non-zero, each line stripped of colour sequences. */
  lemma {:induction false} RunLogInOrder(level: LogLevel, command: string, args: seq<string>, spawn: SpawnResult)
    requires level != Silent && !RunThrows(level, spawn)
    ensures var log := RunLog(level, command, args, spawn);
      var shown := if ShowsVerbose(level) then 1 else 0;
      && shown <= |log|
      && (ShowsVerbose(level) ==> log[0] == StripAnsi(RunningLine(command, args)))
      && ReportsLines(log[shown..], OutputLines(spawn.stdout.value), OutputLines(spawn.stderr.value),
           StatusReport(command, spawn.status))
  {
    RunLogParts(level, command, args, spawn);
    ShownThenReported(level, RunLog(level, command, args, spawn), RunningLine(command, args),
      OutputLines(spawn.stdout.value), OutputLines(spawn.stderr.value), StatusReport(command, spawn.status));
  }

  /** `RunLogInOrder` over plain values, the `Running:` line included. */
  lemma {:induction false} ShownThenReported(level: LogLevel, log: seq<string>, running: string,
      out: seq<string>, err: seq<string>, status: Option<string>)
    requires level != Silent
    requires log == (if ShowsVerbose(level) then Appended(level, running) else []) + AppendedAll(level, out)
        + AppendedAll(level, err) + (if status.Some? then Appended(level, status.value) else [])
    ensures var shown := if ShowsVerbose(level) then 1 else 0;
      && shown <= |log|
      && (ShowsVerbose(level) ==> log[0] == StripAnsi(running))
      && ReportsLines(log[shown..], out, err, status)
  {
    var head := if ShowsVerbose(level) then Appended(level, running) else [];
    ReportedLines(level, log, head, out, err, status);
    if ShowsVerbose(level) {
      assert log[0] == log[..|head|][0];
    }
  }

  /** A silent run reports nothing, whatever the child did. */
  lemma {:induction false} RunLogSilent(command: string, args: seq<string>, spawn: SpawnResult)
    ensures RunLog(Silent, command, args, spawn) == []
  {
    SilentReport(RunningLine(command, args), spawn.error.Some?,
                 StreamLines(spawn.stdout), StreamLines(spawn.stderr), StatusReport(command, spawn.status));
  }

  lemma {:induction false} SilentReport(running: string, errored: bool,
      out: Option<seq<string>>, err: Option<seq<string>>, status: Option<string>)
    ensures Report(Silent, running, errored, out, err, status) == []
  {
    if out.Some? {
      AppendedInOrder(Silent, out.value);
      if err.Some? {
        AppendedInOrder(Silent, err.value);
      }
    }
  }

  /** Report each line of one stream: `forEach(line => logX(line.trimRight()))`,
      with `lines` the trimmed lines of `OutputLines`. */
  method LogLines(logger: Logger, lines: seq<string>, asError: bool)
    modifies logger`channel
    ensures logger.channel == old(logger.channel) + AppendedAll(logger.level, lines)
  {
    var i := 0;
    while i < |lines|
      invariant 0 <= i <= |lines|
      invariant logger.channel == old(logger.channel) + AppendedAll(logger.level, lines[..i])
    {
      assert lines[..i + 1][..i] == lines[..i];
      if asError {
        logger.LogError(lines[i]);
      } else {
        logger.LogCommand(lines[i]);
      }
      i := i + 1;
    }
    assert lines[..i] == lines;
  }

  /** How the log of a run whose stdout was read is put together. */
  lemma RunLogParts(level: LogLevel, command: string, args: seq<string>, spawn: SpawnResult)
    requires !(spawn.error.Some? && level != Silent) && spawn.stdout.Some?
    ensures var head := if ShowsVerbose(level) then Appended(level, RunningLine(command, args)) else [];
      var out := AppendedAll(level, OutputLines(spawn.stdout.value));
      var status := StatusReport(command, spawn.status);
      RunLog(level, command, args, spawn) ==
        if spawn.stderr.None? then head + out
        else
          head + out + AppendedAll(level, OutputLines(spawn.stderr.value))
          + (if status.Some? then Appended(level, status.value) else [])
  {
  }

  /** `runCommand(command, args)` given what the spawn produced: the stdout text,
      or what it throws. */
  method RunCommand(logger: Logger, command: string, args: seq<string>, spawn: SpawnResult)
    returns (r: Result<string, Thrown>)
    modifies logger`channel
    ensures r == (if RunThrows(logger.level, spawn) then Failure(TypeError) else Success(spawn.stdout.value))
    ensures logger.channel == old(logger.channel) + RunLog(logger.level, command, args, spawn)
  {
    ghost var level, before := logger.level, logger.channel;
    var running := RunningLine(command, args);
    ghost var head := if ShowsVerbose(level) then Appended(level, running) else [];
    logger.LogVerbose(running);
    if spawn.error.Some? && logger.level != Silent {
      // log(spawn.error): the Error object has no `replace`
      return Failure(TypeError);
    }
    if spawn.stdout.None? {
      return Failure(TypeError);
    }
    var outLines := OutputLines(spawn.stdout.value);
    LogLines(logger, outLines, false);
    RunLogParts(level, command, args, spawn);
    ghost var out := AppendedAll(level, outLines);
    if spawn.stderr.None? {
      Assoc(before, head, out);
      return Failure(TypeError);
    }
    var errLines := OutputLines(spawn.stderr.value);
    LogLines(logger, errLines, true);
    ghost var err := AppendedAll(level, errLines);
    var status := StatusReport(command, spawn.status);
    ghost var last := if status.Some? then Appended(level, status.value) else [];
    if status.Some? {
      logger.Log(status.value);
    } else {
      RightUnit(logger.channel);
    }
    AssocFour(before, head, out, err, last);
    r := Success(spawn.stdout.value);
  }
}
