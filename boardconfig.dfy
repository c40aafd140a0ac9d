/** `getLittlefsOptions`: the scan of the board definitions for the build and
    upload settings of the selected board, flash layout and partition scheme,
    followed by the checks and the derived sizes.

    A board definition line is matched as the source's regular expressions
    match it: unanchored, leftmost, with `(\S+)=(\S+)` splitting a run of
    non-space characters at its last `=` that leaves a character on each side.
    The board id and the selectors are taken as literal text. */
module BoardConfig {
  import opened Wrappers
  import opened JsText
  import opened JsNumber
  import opened SeqFacts

  /** The parts of the target the scan and its error messages use. */
  datatype Target = Target(board: string, flashSize: string, architecture: string, memoryConfig: string)

  /** One `key=value` setting found on a line. */
  datatype Setting = Setting(key: string, value: string)

  /** What `getLittlefsOptions` returns: the settings found, the derived
      `dataSize`, `flashMode` and `flashFreq` entries, and the number behind
      the `flashSize` entry (NaN as `None`). */
  datatype LittlefsOptions = LittlefsOptions(entries: map<string, string>, flashSize: Option<int>)

  /** The three pattern heads, in the order they are tried. */
  function BoardHead(target: Target): string
  {
    target.board + "."
  }

  function EeszHead(target: Target): string
  {
    target.board + ".menu.eesz." + target.flashSize + "."
  }

  function SchemeHead(target: Target, scheme: string): string
  {
    target.board + ".menu.PartitionScheme." + scheme + "."
  }

  predicate NoSpace(s: string)
  {
    forall i :: 0 <= i < |s| ==> !IsJsSpace(s[i])
  }

  /** The length of the run of non-space characters (`\S`) starting at `q`. */
  function NonSpaceRun(s: string, q: nat): (n: nat)
    requires q <= |s|
    ensures q + n <= |s|
    ensures forall i :: q <= i < q + n ==> !IsJsSpace(s[i])
    ensures q + n == |s| || IsJsSpace(s[q + n])
    decreases |s| - q
  {
    if q == |s| || IsJsSpace(s[q]) then 0 else 1 + NonSpaceRun(s, q + 1)
  }

  /** The largest `e` in `[1, top]` with `run[e] == '='`, or 0 when there is none. */
  function LastEqualsFrom(run: string, top: int): (e: nat)
    requires top < |run|
    ensures e == 0 || (1 <= e <= top && run[e] == '=')
    ensures forall j :: e < j <= top && 1 <= j ==> run[j] != '='
    decreases top
  {
    if top < 1 then 0 else if run[top] == '=' then top else LastEqualsFrom(run, top - 1)
  }

  /** A key the pattern can capture: one or more non-space characters. */
  predicate KeyText(k: string)
  {
    k != [] && NoSpace(k)
  }

  /** A value the pattern can capture: one or more non-space characters, with
      an `=` at most as the last one. */
  predicate ValueText(v: string)
  {
    v != [] && NoSpace(v) && forall j :: 0 <= j < |v| - 1 ==> v[j] != '='
  }

  /** `line` holds `k=v` at `q`, followed by white space or the end. */
  predicate SettingText(line: string, q: nat, k: string, v: string)
  {
    && q + |k| + 1 + |v| <= |line|
    && line[q..q + |k|] == k
    && line[q + |k|] == '='
    && line[q + |k| + 1..q + |k| + 1 + |v|] == v
    && (q + |k| + 1 + |v| == |line| || IsJsSpace(line[q + |k| + 1 + |v|]))
  }

  /** `(\S+)=(\S+)` at position `q`. The first group is greedy, so the split is
      at the last `=` of the non-space run that leaves at least one character
      after it; the second group takes the rest of the run, which can therefore
      hold an `=` only as its last character. */
  function SettingAt(line: string, q: nat): Option<Setting>
    requires q <= |line|
  {
    var n := NonSpaceRun(line, q);
    var run := line[q..q + n];
    var e := LastEqualsFrom(run, |run| - 2);
    if e == 0 then None
    else Some(Setting(line[q..q + e], line[q + e + 1..q + n]))
  }

  /** What `SettingAt` captures is a key and a value the pattern allows, and
      they stand in the line at `q` as `key=value` followed by white space or
      the end. */
  lemma SettingAtShape(line: string, q: nat)
    requires q <= |line|
    ensures var r := SettingAt(line, q);
      r.Some? ==> KeyText(r.value.key) && ValueText(r.value.value) && SettingText(line, q, r.value.key, r.value.value)
  {
    var n := NonSpaceRun(line, q);
    var run := line[q..q + n];
    var e := LastEqualsFrom(run, |run| - 2);
    if e != 0 {
      var v := line[q + e + 1..q + n];
      assert line[q + e] == run[e];
      assert forall j :: 0 <= j < |v| - 1 ==> v[j] == run[e + 1 + j];
    }
  }

  predicate StartsAt(line: string, p: nat, t: string)
  {
    p + |t| <= |line| && line[p..p + |t|] == t
  }

  /** `<head>(?:build|upload)\.(\S+)=(\S+)` anchored at `p`. */
  function MatchAt(line: string, head: string, p: nat): Option<Setting>
    requires p <= |line|
  {
    if StartsAt(line, p, head + "build.") then SettingAt(line, p + |head| + 6)
    else if StartsAt(line, p, head + "upload.") then SettingAt(line, p + |head| + 7)
    else None
  }

  /** The leftmost position at or after `p` where the pattern matches. */
  function Search(line: string, head: string, p: nat): Option<Setting>
    requires p <= |line|
    decreases |line| - p
  {
    var m := MatchAt(line, head, p);
    if m.Some? then m
    else if p == |line| then None
    else Search(line, head, p + 1)
  }

  /** The search succeeds exactly when the pattern matches at some position at
      or after `p`, and then it returns the match at the leftmost such position. */
  lemma {:induction false} SearchFindsLeftmost(line: string, head: string, p: nat)
    requires p <= |line|
    ensures Search(line, head, p).Some? <==> exists i :: p <= i <= |line| && MatchAt(line, head, i).Some?
    ensures Search(line, head, p).Some? ==>
      exists i :: p <= i <= |line| && Search(line, head, p) == MatchAt(line, head, i) &&
        forall j :: p <= j < i ==> MatchAt(line, head, j).None?
    decreases |line| - p
  {
    if MatchAt(line, head, p).None? && p < |line| {
      SearchFindsLeftmost(line, head, p + 1);
      if exists i :: p <= i <= |line| && MatchAt(line, head, i).Some? {
        var i :| p <= i <= |line| && MatchAt(line, head, i).Some?;
        assert i != p;
      }
      if Search(line, head, p).Some? {
        var i :| p + 1 <= i <= |line| && Search(line, head, p + 1) == MatchAt(line, head, i) &&
          forall j :: p + 1 <= j < i ==> MatchAt(line, head, j).None?;
        assert forall j :: p <= j < i ==> MatchAt(line, head, j).None?;
      }
    }
  }

  /** `line.match(pattern)` for one pattern head. */
  function Pattern(line: string, head: string): Option<Setting>
  {
    Search(line, head, 0)
  }

  /** The three `line.match` calls joined with `||`: the first pattern that
      matches anywhere on the line decides. */
  function LineMatch(line: string, target: Target, scheme: string): Option<Setting>
  {
    var board := Pattern(line, BoardHead(target));
    if board.Some? then board
    else
      var eesz := Pattern(line, EeszHead(target));
      if eesz.Some? then eesz
      else Pattern(line, SchemeHead(target, scheme))
  }

  /** What the line-by-line matching finds, one entry per line. */
  function Matches(lines: seq<string>, target: Target, scheme: string): (found: seq<Option<Setting>>)
    ensures |found| == |lines|
    decreases |lines|
  {
    if lines == [] then []
    else Matches(lines[..|lines| - 1], target, scheme) + [LineMatch(lines[|lines| - 1], target, scheme)]
  }

  lemma {:induction false} MatchesAt(lines: seq<string>, target: Target, scheme: string, i: nat)
    requires i < |lines|
    ensures Matches(lines, target, scheme)[i] == LineMatch(lines[i], target, scheme)
    decreases |lines|
  {
    if i < |lines| - 1 {
      MatchesAt(lines[..|lines| - 1], target, scheme, i);
    }
  }

  /** `littlefsOptions[match[1]] = match[2]` for each match in turn. */
  function Collect(found: seq<Option<Setting>>): map<string, string>
    decreases |found|
  {
    if found == [] then map[]
    else
      var before := Collect(found[..|found| - 1]);
      match found[|found| - 1]
      case Some(s) => before[s.key := s.value]
      case None => before
  }

  /** The settings the scan collects from the lines. */
  function ScanLines(lines: seq<string>, target: Target, scheme: string): map<string, string>
  {
    Collect(Matches(lines, target, scheme))
  }

  predicate SetsKey(m: Option<Setting>, key: string)
  {
    m.Some? && m.value.key == key
  }

  /** A key is collected exactly when some match sets it, and then it holds the
      value of the last match that does. */
  lemma {:induction false} CollectLastWriteWins(found: seq<Option<Setting>>, key: string)
    ensures key in Collect(found) <==> exists i :: 0 <= i < |found| && SetsKey(found[i], key)
    ensures key in Collect(found) ==>
      exists i :: 0 <= i < |found| && found[i] == Some(Setting(key, Collect(found)[key])) &&
        forall j :: i < j < |found| ==> !SetsKey(found[j], key)
    decreases |found|
  {
    if found != [] {
      var init := found[..|found| - 1];
      CollectLastWriteWins(init, key);
      assert forall i :: 0 <= i < |init| ==> init[i] == found[i];
      if !SetsKey(found[|found| - 1], key) && key in Collect(found) {
        var i :| 0 <= i < |init| && init[i] == Some(Setting(key, Collect(init)[key])) &&
          forall j :: i < j < |init| ==> !SetsKey(init[j], key);
        assert found[i] == Some(Setting(key, Collect(found)[key]));
      }
    }
  }

  /** A line that matches none of the patterns changes nothing, wherever it is. */
  lemma {:induction false} CollectSkipsNone(a: seq<Option<Setting>>, b: seq<Option<Setting>>)
    ensures Collect(a + [None] + b) == Collect(a + b)
    decreases |b|
  {
    if b == [] {
      assert (a + [None] + b)[..|a|] == a;
      assert a + b == a;
    } else {
      var b' := b[..|b| - 1];
      CollectSkipsNone(a, b');
      assert (a + [None] + b)[..|a + [None] + b| - 1] == a + [None] + b';
      assert (a + b)[..|a + b| - 1] == a + b';
    }
  }

  /** The same for the lines themselves. */
  lemma UnmatchedLineIgnored(a: seq<string>, line: string, b: seq<string>, target: Target, scheme: string)
    requires LineMatch(line, target, scheme).None?
    ensures ScanLines(a + [line] + b, target, scheme) == ScanLines(a + b, target, scheme)
  {
    MatchesConcat(a + [line], b, target, scheme);
    MatchesConcat(a, [line], target, scheme);
    MatchesConcat(a, b, target, scheme);
    assert Matches([line], target, scheme) == [None];
    CollectSkipsNone(Matches(a, target, scheme), Matches(b, target, scheme));
  }

  lemma {:induction false} MatchesConcat(a: seq<string>, b: seq<string>, target: Target, scheme: string)
    ensures Matches(a + b, target, scheme) == Matches(a, target, scheme) + Matches(b, target, scheme)
    decreases |b|
  {
    if b == [] {
      RightUnit(a);
    } else {
      var b', x := b[..|b| - 1], b[|b| - 1];
      MatchesConcat(a, b', target, scheme);
      DropLastOfConcat(a, b);
      var m := LineMatch(x, target, scheme);
      Assoc(Matches(a, target, scheme), Matches(b', target, scheme), [m]);
    }
  }

  /** A key is set by the scan exactly when some line sets it, and then it holds
      the value from the last line that does. */
  lemma ScanLastWriteWins(lines: seq<string>, target: Target, scheme: string, key: string)
    ensures key in ScanLines(lines, target, scheme) <==>
      exists i :: 0 <= i < |lines| && SetsKey(LineMatch(lines[i], target, scheme), key)
    ensures key in ScanLines(lines, target, scheme) ==>
      exists i :: 0 <= i < |lines| &&
        LineMatch(lines[i], target, scheme) == Some(Setting(key, ScanLines(lines, target, scheme)[key])) &&
        forall j :: i < j < |lines| ==> !SetsKey(LineMatch(lines[j], target, scheme), key)
  {
    var found := Matches(lines, target, scheme);
    forall i | 0 <= i < |lines| ensures found[i] == LineMatch(lines[i], target, scheme) {
      MatchesAt(lines, target, scheme, i);
    }
    CollectLastWriteWins(found, key);
  }

  /** `<head>build.<key>=<value>` or `<head>upload.<key>=<value>`, followed by
      a space or the end of the line, matches with that key and value. The key
      may itself hold `=`; the value may not. */
  lemma HeadLineMatches(line: string, head: string, phase: string, key: string, value: string, rest: string)
    requires phase == "build." || phase == "upload."
    requires KeyText(key) && ValueText(value)
    requires rest == [] || IsJsSpace(rest[0])
    requires line == head + phase + key + "=" + value + rest
    ensures Pattern(line, head) == Some(Setting(key, value))
  {
    Pieces(head + phase, key, '=', value, rest);
    assert StartsAt(line, 0, head + phase);
    PatternOfParts(line, head, phase, key, value);
  }

  /** The same, stated on positions: the line starts with the head and the
      phase, and the setting follows them. */
  lemma PatternOfParts(line: string, head: string, phase: string, key: string, value: string)
    requires phase == "build." || phase == "upload."
    requires KeyText(key) && ValueText(value)
    requires StartsAt(line, 0, head + phase) && SettingText(line, |head| + |phase|, key, value)
    ensures Pattern(line, head) == Some(Setting(key, value))
  {
    var q := |head| + |phase|;
    SettingOfWellFormed(line, q, key, value);
    if phase == "upload." {
      assert line[|head|] == 'u' by {
        assert line[0..q][|head|] == (head + phase)[|head|] == phase[0];
      }
      assert !StartsAt(line, 0, head + "build.") by {
        assert (head + "build.")[|head|] == 'b';
        assert |head| + 6 <= |line| ==> line[0..|head| + 6][|head|] == 'u';
      }
    }
    assert MatchAt(line, head, 0) == SettingAt(line, q);
  }

  /** A well-formed board line sets its key to its value. */
  lemma BoardLineMatches(target: Target, scheme: string, phase: string, key: string, value: string, rest: string)
    requires phase == "build." || phase == "upload."
    requires KeyText(key) && ValueText(value)
    requires rest == [] || IsJsSpace(rest[0])
    ensures LineMatch(BoardHead(target) + phase + key + "=" + value + rest, target, scheme) == Some(Setting(key, value))
  {
    HeadLineMatches(BoardHead(target) + phase + key + "=" + value + rest, BoardHead(target), phase, key, value, rest);
  }

  /** A well-formed line of the selected flash layout sets its key, provided the
      plain board pattern finds nothing on it: that pattern is tried first. */
  lemma EeszLineMatches(target: Target, scheme: string, phase: string, key: string, value: string, rest: string)
    requires phase == "build." || phase == "upload."
    requires KeyText(key) && ValueText(value)
    requires rest == [] || IsJsSpace(rest[0])
    requires Pattern(EeszHead(target) + phase + key + "=" + value + rest, BoardHead(target)).None?
    ensures LineMatch(EeszHead(target) + phase + key + "=" + value + rest, target, scheme) == Some(Setting(key, value))
  {
    HeadLineMatches(EeszHead(target) + phase + key + "=" + value + rest, EeszHead(target), phase, key, value, rest);
  }

  /** The same for the selected partition scheme, which is tried last. */
  lemma SchemeLineMatches(target: Target, scheme: string, phase: string, key: string, value: string, rest: string)
    requires phase == "build." || phase == "upload."
    requires KeyText(key) && ValueText(value)
    requires rest == [] || IsJsSpace(rest[0])
    requires Pattern(SchemeHead(target, scheme) + phase + key + "=" + value + rest, BoardHead(target)).None?
    requires Pattern(SchemeHead(target, scheme) + phase + key + "=" + value + rest, EeszHead(target)).None?
    ensures LineMatch(SchemeHead(target, scheme) + phase + key + "=" + value + rest, target, scheme) == Some(Setting(key, value))
  {
    HeadLineMatches(SchemeHead(target, scheme) + phase + key + "=" + value + rest, SchemeHead(target, scheme), phase, key, value, rest);
  }

  /** `(\S+)=(\S+)` at `q` on `key=value` followed by a space or the end. */
  lemma SettingOfWellFormed(line: string, q: nat, key: string, value: string)
    requires KeyText(key) && ValueText(value) && SettingText(line, q, key, value)
    ensures SettingAt(line, q) == Some(Setting(key, value))
  {
    var n := |key| + 1 + |value|;
    RunOfWellFormed(line, q, key, value);
    var run := line[q..q + n];
    assert run[|key|] == '=';
    assert forall j :: |key| < j < n ==> run[j] == line[q + j] == value[j - |key| - 1];
    LastEqualsExact(run, n - 2, |key|);
  }

  /** The non-space run at `q` is exactly `key=value`. */
  lemma RunOfWellFormed(line: string, q: nat, key: string, value: string)
    requires NoSpace(key) && NoSpace(value) && SettingText(line, q, key, value)
    ensures NonSpaceRun(line, q) == |key| + 1 + |value|
  {
    var n := |key| + 1 + |value|;
    forall i | q <= i < q + n ensures !IsJsSpace(line[i]) {
      if i - q < |key| {
        assert line[i] == line[q..q + |key|][i - q];
      } else if i - q > |key| {
        assert line[i] == line[q + |key| + 1..q + n][i - q - |key| - 1];
      }
    }
    NonSpaceRunExact(line, q, n);
  }

  lemma {:induction false} LastEqualsExact(run: string, top: int, e: nat)
    requires 1 <= e <= top < |run| && run[e] == '='
    requires forall j :: e < j <= top ==> run[j] != '='
    ensures LastEqualsFrom(run, top) == e
    decreases top
  {
    if top > e {
      LastEqualsExact(run, top - 1, e);
    }
  }

  lemma {:induction false} NonSpaceRunExact(s: string, q: nat, n: nat)
    requires q + n <= |s|
    requires forall i :: q <= i < q + n ==> !IsJsSpace(s[i])
    requires q + n == |s| || IsJsSpace(s[q + n])
    ensures NonSpaceRun(s, q) == n
    decreases n
  {
    if n > 0 {
      NonSpaceRunExact(s, q + 1, n - 1);
    }
  }

  /** `!littlefsOptions[key]`: absent or empty. */
  predicate Truthy(m: map<string, string>, key: string)
  {
    key in m && m[key] != ""
  }

  /** The option names the checks read and the derivations write. */
  const StartKey := "spiffs_start"
  const EndKey := "spiffs_end"
  const DataSizeKey := "dataSize"
  const FlashModeKey := "flashMode"
  const FlashFreqKey := "flashFreq"
  const FlashSizeKey := "flashSize"

  /** The text thrown when a required setting is missing. */
  function MissingMessage(key: string, target: Target): string
  {
    "Missing \"" + key + "\" definition: target = " + target.architecture + ", config = " + target.memoryConfig + "."
  }

  /** `(end - start).toString()` on the parsed addresses. */
  function DataSizeText(m: map<string, string>): string
    requires StartKey in m && EndKey in m
  {
    NumberText(Minus(StringToInt(m[EndKey]), StringToInt(m[StartKey])))
  }

  /** The checks and derivations after the scan. `flashMode` and `flashFreq`
      are the user's preferences, passed through unparsed. A missing start
      address is reported before a missing end address. */
  function Resolve(m: map<string, string>, target: Target, flashMode: string, flashFreq: string): (r: Result<LittlefsOptions, Thrown>)
    ensures !Truthy(m, StartKey) ==> r == Failure(ThrownString(MissingMessage(StartKey, target)))
    ensures Truthy(m, StartKey) && !Truthy(m, EndKey) ==>
      r == Failure(ThrownString(MissingMessage(EndKey, target)))
    ensures r.Success? <==> Truthy(m, StartKey) && Truthy(m, EndKey)
  {
    if !Truthy(m, StartKey) then Failure(ThrownString(MissingMessage(StartKey, target)))
    else if !Truthy(m, EndKey) then Failure(ThrownString(MissingMessage(EndKey, target)))
    else
      var dataSize := DataSizeText(m);
      Success(LittlefsOptions(Derived(m, dataSize, flashMode, flashFreq), Plus(StringToInt(m[StartKey]), StringToInt(dataSize))))
  }

  lemma KeysDistinct()
    ensures DataSizeKey != FlashModeKey && DataSizeKey != FlashFreqKey && DataSizeKey != FlashSizeKey
    ensures FlashModeKey != FlashFreqKey && FlashModeKey != FlashSizeKey && FlashFreqKey != FlashSizeKey
  {
    assert FlashModeKey[5] != FlashFreqKey[5] && FlashModeKey[5] != FlashSizeKey[5] && FlashFreqKey[5] != FlashSizeKey[5];
  }

  /** The entries after the derivations: `dataSize`, `flashMode` and
      `flashFreq` written, `flashSize` set apart. */
  function Derived(m: map<string, string>, dataSize: string, flashMode: string, flashFreq: string): map<string, string>
  {
    m[DataSizeKey := dataSize][FlashModeKey := flashMode][FlashFreqKey := flashFreq] - {FlashSizeKey}
  }

  /** Every scanned setting is kept except `flashSize`, and the three derived
      ones are set, overriding any scanned value. */
  lemma DerivedEntries(m: map<string, string>, dataSize: string, flashMode: string, flashFreq: string)
    ensures var e := Derived(m, dataSize, flashMode, flashFreq);
      e.Keys == m.Keys + {DataSizeKey, FlashModeKey, FlashFreqKey} - {FlashSizeKey} &&
      e[DataSizeKey] == dataSize && e[FlashModeKey] == flashMode && e[FlashFreqKey] == flashFreq &&
      forall k :: k in m && k !in {DataSizeKey, FlashModeKey, FlashFreqKey, FlashSizeKey} ==> e[k] == m[k]
  {
    KeysDistinct();
  }

  /** The flash size is `start + dataSize`, and since the size went through its
      decimal text and back, that is the end address; NaN when either address
      does not parse. */
  lemma FlashSizeIsEnd(m: map<string, string>, target: Target, flashMode: string, flashFreq: string)
    requires Truthy(m, StartKey) && Truthy(m, EndKey)
    ensures var start, end := StringToInt(m[StartKey]), StringToInt(m[EndKey]);
      Resolve(m, target, flashMode, flashFreq).value.flashSize ==
        if start.Some? && end.Some? then end else None
  {
    DifferenceReadBack(StringToInt(m[StartKey]), StringToInt(m[EndKey]));
  }

  /** An end address below the start address is not rejected: the size is
      negative and written with a minus sign. */
  lemma NegativeSizeAccepted(m: map<string, string>, target: Target, flashMode: string, flashFreq: string)
    requires Truthy(m, StartKey) && Truthy(m, EndKey)
    requires StringToInt(m[StartKey]).Some? && StringToInt(m[EndKey]).Some?
    requires StringToInt(m[EndKey]).value < StringToInt(m[StartKey]).value
    ensures Resolve(m, target, flashMode, flashFreq).Success?
    ensures var e := Resolve(m, target, flashMode, flashFreq).value.entries;
      DataSizeKey in e && e[DataSizeKey] != [] && e[DataSizeKey][0] == '-'
  {
    DerivedEntries(m, DataSizeText(m), flashMode, flashFreq);
  }

  /** `getLittlefsOptions(target)`, with the lines of the board definitions, the
      selected partition scheme and the flash preferences passed in. */
  method GetLittlefsOptions(lines: seq<string>, target: Target, scheme: string, flashMode: string, flashFreq: string)
    returns (r: Result<LittlefsOptions, Thrown>)
    ensures r == Resolve(ScanLines(lines, target, scheme), target, flashMode, flashFreq)
  {
    var options: map<string, string> := map[];
    var i := 0;
    while i < |lines|
      invariant 0 <= i <= |lines|
      invariant options == ScanLines(lines[..i], target, scheme)
    {
      var found := LineMatch(lines[i], target, scheme);
      if found.Some? {
        options := options[found.value.key := found.value.value];
      }
      assert lines[..i + 1][..i] == lines[..i];
      i := i + 1;
    }
    assert lines[..|lines|] == lines;

    if !Truthy(options, StartKey) {
      return Failure(ThrownString(MissingMessage(StartKey, target)));
    }
    if !Truthy(options, EndKey) {
      return Failure(ThrownString(MissingMessage(EndKey, target)));
    }
    var dataSize := DataSizeText(options);
    var start := options[StartKey];
    options := options[DataSizeKey := dataSize];
    options := options[FlashModeKey := flashMode];
    options := options[FlashFreqKey := flashFreq];
    var flashSize := Plus(StringToInt(start), StringToInt(options[DataSizeKey]));
    r := Success(LittlefsOptions(options - {FlashSizeKey}, flashSize));
  }

  /** The start address of a 4 MB board with a 256 KiB file system. */
  lemma StartAddress(text: string)
    requires text == "0xBB000"
    ensures StringToInt(text) == Some(0xBB000)
  {
    assert AllDigits("BB000", 16);
    assert DigitsValue("B", 16) == 11;
    assert DigitsValue("BB", 16) == 0xBB by { assert "BB"[..1] == "B"; }
    assert DigitsValue("BB0", 16) == 0xBB0 by { assert "BB0"[..2] == "BB"; }
    assert DigitsValue("BB00", 16) == 0xBB00 by { assert "BB00"[..3] == "BB0"; }
    assert DigitsValue("BB000", 16) == 0xBB000 by { assert "BB000"[..4] == "BB00"; }
    var digits := text[2..];
    assert digits == "BB000" && text == "0x" + digits;
    HexDigitsParsed(digits);
  }

  /** Its end address. */
  lemma EndAddress(text: string)
    requires text == "0xFB000"
    ensures StringToInt(text) == Some(0xFB000)
  {
    assert AllDigits("FB000", 16);
    assert DigitsValue("F", 16) == 15;
    assert DigitsValue("FB", 16) == 0xFB by { assert "FB"[..1] == "F"; }
    assert DigitsValue("FB0", 16) == 0xFB0 by { assert "FB0"[..2] == "FB"; }
    assert DigitsValue("FB00", 16) == 0xFB00 by { assert "FB00"[..3] == "FB0"; }
    assert DigitsValue("FB000", 16) == 0xFB000 by { assert "FB000"[..4] == "FB00"; }
    var digits := text[2..];
    assert digits == "FB000" && text == "0x" + digits;
    HexDigitsParsed(digits);
  }

  lemma SizeText()
    ensures IntToDecimal(262144) == "262144"
  {
    assert NatDigits(2, 10) == "2";
    assert NatDigits(26, 10) == "26" by { assert DigitChar(6, 10) == '6'; }
    assert NatDigits(262, 10) == "262" by { assert DigitChar(2, 10) == '2'; }
    assert NatDigits(2621, 10) == "2621" by { assert DigitChar(1, 10) == '1'; }
    assert NatDigits(26214, 10) == "26214" by { assert DigitChar(4, 10) == '4'; }
    assert NatDigits(262144, 10) == "262144" by { assert DigitChar(4, 10) == '4'; }
  }

  /** With those addresses the file system is 262144 bytes and the flash size
      is the end address. */
  lemma BoardExample(target: Target, flashMode: string, flashFreq: string)
    ensures var m := map[StartKey := "0xBB000", EndKey := "0xFB000"];
      var r := Resolve(m, target, flashMode, flashFreq);
      r.Success? && r.value.entries[DataSizeKey] == "262144" && r.value.flashSize == Some(0xFB000)
  {
    var m := map[StartKey := "0xBB000", EndKey := "0xFB000"];
    StartAddress(m[StartKey]);
    EndAddress(m[EndKey]);
    assert DataSizeText(m) == IntToDecimal(262144);
    SizeText();
    DerivedEntries(m, DataSizeText(m), flashMode, flashFreq);
    FlashSizeIsEnd(m, target, flashMode, flashFreq);
  }
}
