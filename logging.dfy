/** The extension's leveled logger: a level that gates what is reported and an
    output channel that only ever grows by whole lines, each with its colour
    sequences removed. The coloured console echo is not part of this model. */
module Logging {
  import opened SeqFacts

  datatype LogLevel = Normal | Verbose | Silent | Debug

  /** The levels at which `logVerbose` reports anything. */
  predicate ShowsVerbose(level: LogLevel)
  {
    level == Verbose || level == Debug
  }

  const Esc: char := '\U{1B}'

  /** The prefix `logLittlefs` puts before its message. */
  const LittlefsTag: string := "  [LITTLEFS] "

  /** A character of the class `[\d|\;]`: a digit, a bar or a semicolon. */
  predicate IsCodeChar(c: char)
  {
    '0' <= c <= '9' || c == '|' || c == ';'
  }

  /** The number of code characters in `s` from `p` on. */
  function CodeRun(s: string, p: nat): (n: nat)
    requires p <= |s|
    ensures p + n <= |s|
    ensures forall i :: p <= i < p + n ==> IsCodeChar(s[i])
    ensures p + n < |s| ==> !IsCodeChar(s[p + n])
    decreases |s| - p
  {
    if p < |s| && IsCodeChar(s[p]) then 1 + CodeRun(s, p + 1) else 0
  }

  /** The length of the match of `\x1b\[[\d|\;]{1,4}m` at position `p` of `s`,
      or 0 when there is none. Since `m` is not a code character, backtracking
      the greedy `{1,4}` never helps: the whole run of code characters must be
      one to four long and be followed by `m`. */
  function EscapeLength(s: string, p: nat): (k: nat)
    requires p <= |s|
    ensures k == 0 || (4 <= k <= 7 && p + k <= |s|)
  {
    if p + 2 <= |s| && s[p] == Esc && s[p + 1] == '[' then
      var n := CodeRun(s, p + 2);
      if 1 <= n <= 4 && p + 2 + n < |s| && s[p + 2 + n] == 'm' then 3 + n else 0
    else 0
  }

  /** `message.replace(/\x1b\[[\d|\;]{1,4}m/g, "")`: matches are removed left
      to right, and scanning resumes after each one. */
  function StripAnsi(s: string): (r: string)
    ensures |r| <= |s|
    decreases |s|
  {
    if s == [] then []
    else
      var k := EscapeLength(s, 0);
      if k > 0 then StripAnsi(s[k..]) else [s[0]] + StripAnsi(s[1..])
  }

  /** Text without an escape character passes through, whatever follows it. */
  lemma {:induction false} StripAnsiPlainPrefix(a: string, b: string)
    requires Esc !in a
    ensures StripAnsi(a + b) == a + StripAnsi(b)
    decreases |a|
  {
    if a == [] {
      assert a + b == b;
    } else {
      var s := a + b;
      assert s[0] == a[0];
      assert EscapeLength(s, 0) == 0;
      assert s[1..] == a[1..] + b;
      StripAnsiPlainPrefix(a[1..], b);
      assert a == [a[0]] + a[1..];
      Assoc([a[0]], a[1..], StripAnsi(b));
    }
  }

  /** The text of a colour sequence: escape, `[`, the codes, `m`. */
  function ColourSequence(codes: string): string
  {
    [Esc, '['] + codes + "m"
  }

  /** A colour sequence of one to four code characters disappears. */
  lemma {:induction false} StripAnsiRemovesColour(codes: string, rest: string)
    requires 1 <= |codes| <= 4 && forall i :: 0 <= i < |codes| ==> IsCodeChar(codes[i])
    ensures StripAnsi(ColourSequence(codes) + rest) == StripAnsi(rest)
  {
    var colour := ColourSequence(codes);
    var s := colour + rest;
    assert forall i :: 2 <= i < 2 + |codes| ==> IsCodeChar(s[i]) by {
      assert forall i :: 2 <= i < 2 + |codes| ==> s[i] == codes[i - 2];
    }
    assert s[2 + |codes|] == 'm';
    assert CodeRun(s, 2) == |codes|;
    assert EscapeLength(s, 0) == |colour|;
    assert s[|colour|..] == rest;
  }

  /** One with five or more code characters is left as it is. */
  lemma {:induction false} StripAnsiKeepsLongSequence(codes: string, rest: string)
    requires |codes| >= 5 && forall i :: 0 <= i < |codes| ==> IsCodeChar(codes[i])
    ensures StripAnsi(ColourSequence(codes) + rest) == ColourSequence(codes) + StripAnsi(rest)
  {
    var colour := ColourSequence(codes);
    var s := colour + rest;
    assert forall i :: 2 <= i < 2 + |codes| ==> IsCodeChar(s[i]) by {
      assert forall i :: 2 <= i < 2 + |codes| ==> s[i] == codes[i - 2];
    }
    assert CodeRun(s, 2) >= |codes|;
    assert EscapeLength(s, 0) == 0;
    assert Esc !in colour[1..] by {
      forall i | 0 <= i < |colour| - 1
        ensures colour[1..][i] != Esc
      {
        if 1 <= i < 1 + |codes| {
          assert colour[1..][i] == codes[i - 1];
        }
      }
    }
    assert s[1..] == colour[1..] + rest;
    StripAnsiPlainPrefix(colour[1..], rest);
    assert colour == [Esc] + colour[1..];
    Assoc([Esc], colour[1..], StripAnsi(rest));
  }

  /** A message as `logLittlefs` tags it. */
  function LittlefsLine(message: string): string
  {
    LittlefsTag + message
  }

  /** What one `log(message)` call adds to the output channel. */
  function Appended(level: LogLevel, message: string): seq<string>
  {
    if level == Silent then [] else [StripAnsi(message)]
  }

  /** What a series of `log` calls adds, in call order. */
  function AppendedAll(level: LogLevel, messages: seq<string>): seq<string>
  {
    if messages == [] then []
    else AppendedAll(level, messages[..|messages| - 1]) + Appended(level, messages[|messages| - 1])
  }

  /** Silent adds nothing; any other level adds exactly one stripped line per
      call, in the order of the calls. */
  lemma {:induction false} AppendedInOrder(level: LogLevel, messages: seq<string>)
    ensures level == Silent ==> AppendedAll(level, messages) == []
    ensures level != Silent ==>
      |AppendedAll(level, messages)| == |messages| &&
      forall i :: 0 <= i < |messages| ==> AppendedAll(level, messages)[i] == StripAnsi(messages[i])
  {
    if messages != [] {
      var init := messages[..|messages| - 1];
      AppendedInOrder(level, init);
      if level != Silent {
        var before, after := AppendedAll(level, init), AppendedAll(level, messages);
        assert after == before + [StripAnsi(messages[|messages| - 1])];
        forall i | 0 <= i < |messages|
          ensures after[i] == StripAnsi(messages[i])
        {
          if i < |init| {
            assert after[i] == before[i] && init[i] == messages[i];
          }
        }
      }
    }
  }

  lemma {:induction false} AppendedAllConcat(level: LogLevel, a: seq<string>, b: seq<string>)
    ensures AppendedAll(level, a + b) == AppendedAll(level, a) + AppendedAll(level, b)
    decreases |b|
  {
    if b == [] {
      assert a + b == a;
    } else {
      assert (a + b)[..|a + b| - 1] == a + b[..|b| - 1];
      AppendedAllConcat(level, a, b[..|b| - 1]);
    }
  }

  /** The output channel and the level that gates writes to it. */
  class Logger {
    var level: LogLevel
    var channel: seq<string>

    /** The channel as the extension's activation creates it: empty. */
    constructor (level: LogLevel)
      ensures this.level == level && channel == []
    {
      this.level := level;
      channel := [];
    }

    method Log(message: string)
      modifies this`channel
      ensures channel == old(channel) + Appended(level, message)
    {
      if level == Silent {
        return;
      }
      channel := channel + [StripAnsi(message)];
    }

    method LogImportant(message: string)
      modifies this`channel
      ensures channel == old(channel) + Appended(level, message)
    {
      Log(message);
    }

    method LogCommand(message: string)
      modifies this`channel
      ensures channel == old(channel) + Appended(level, message)
    {
      Log(message);
    }

    method LogLittlefs(message: string)
      modifies this`channel
      ensures channel == old(channel) + Appended(level, LittlefsLine(message))
    {
      Log(LittlefsLine(message));
    }

    method LogError(message: string)
      modifies this`channel
      ensures channel == old(channel) + Appended(level, message)
    {
      Log(message);
    }

    method LogVerbose(message: string)
      modifies this`channel
      ensures channel == old(channel) + (if ShowsVerbose(level) then Appended(level, message) else [])
    {
      if ShowsVerbose(level) {
        Log(message);
      }
    }
  }
}
