/** The JavaScript string operations the extension relies on: white space as
    `\s`, `parseInt` and `trimRight` see it, `split` and `join` on a one-character
    separator, and a non-global `replace(/\r\n/, "\n")`. */
module JsText {

  /** JavaScript white space and line terminators: the set `\s` matches and the
      set `trimRight` and `parseInt` skip. */
  predicate IsJsSpace(c: char)
  {
    || c == '\t' || c == '\n' || c == '\U{B}' || c == '\U{C}' || c == '\r'
    || c == ' ' || c == '\U{A0}' || c == '\U{1680}'
    || ('\U{2000}' <= c <= '\U{200A}')
    || c == '\U{2028}' || c == '\U{2029}' || c == '\U{202F}' || c == '\U{205F}'
    || c == '\U{3000}' || c == '\U{FEFF}'
  }

  /** The number of white-space characters in `s` from `p` on. */
  function SpaceRun(s: string, p: nat): (n: nat)
    requires p <= |s|
    ensures p + n <= |s|
    ensures forall i :: p <= i < p + n ==> IsJsSpace(s[i])
    ensures p + n < |s| ==> !IsJsSpace(s[p + n])
    decreases |s| - p
  {
    if p < |s| && IsJsSpace(s[p]) then 1 + SpaceRun(s, p + 1) else 0
  }

  /** The length of `s[..n]` once its trailing white space is dropped. */
  function KeptLength(s: string, n: nat): (k: nat)
    requires n <= |s|
    ensures k <= n
    ensures forall i :: k <= i < n ==> IsJsSpace(s[i])
    ensures k == 0 || !IsJsSpace(s[k - 1])
  {
    if n > 0 && IsJsSpace(s[n - 1]) then KeptLength(s, n - 1) else n
  }

  /** `s.trimRight()`: the longest prefix of `s` that does not end with white space. */
  function TrimEnd(s: string): (r: string)
    ensures |r| <= |s| && r == s[..|r|]
    ensures forall i :: |r| <= i < |s| ==> IsJsSpace(s[i])
    ensures r == [] || !IsJsSpace(r[|r| - 1])
  {
    s[..KeptLength(s, |s|)]
  }

  /** The index of the first `c` in `s` at or after `p`, or `|s|` when there is none. */
  function IndexFrom(s: string, c: char, p: nat): (k: nat)
    requires p <= |s|
    ensures p <= k <= |s|
    ensures k < |s| ==> s[k] == c
    ensures forall i :: p <= i < k ==> s[i] != c
    decreases |s| - p
  {
    if p == |s| || s[p] == c then p else IndexFrom(s, c, p + 1)
  }

  /** The index of the first `c` in `s`, or `|s|` when there is none. */
  function IndexOf(s: string, c: char): (k: nat)
    ensures k <= |s|
    ensures k < |s| ==> s[k] == c
    ensures forall i :: 0 <= i < k ==> s[i] != c
  {
    IndexFrom(s, c, 0)
  }

  /** `parts.join(sep)`. */
  function Join(parts: seq<string>, sep: string): string
  {
    if |parts| == 0 then ""
    else if |parts| == 1 then parts[0]
    else parts[0] + sep + Join(parts[1..], sep)
  }

  /** `s.split(sep)` for a one-character separator: one more piece than there
      are separators, no piece holds the separator, and joining the pieces
      back gives `s`. */
  function Split(s: string, sep: char): (parts: seq<string>)
    ensures |parts| == multiset(s)[sep] + 1
    ensures forall i :: 0 <= i < |parts| ==> sep !in parts[i]
    ensures Join(parts, [sep]) == s
    decreases |s|
  {
    var k := IndexOf(s, sep);
    if k == |s| then
      assert multiset(s)[sep] == 0;
      [s]
    else
      var head, tail := s[..k], s[k + 1..];
      assert s == head + [sep] + tail;
      assert multiset(head)[sep] == 0;
      var rest := Split(tail, sep);
      var parts := [head] + rest;
      assert parts[1..] == rest;
      parts
  }

  /** A carriage return at `i` with a line feed right after it. */
  predicate CrlfAt(s: string, i: int)
  {
    0 <= i && i + 1 < |s| && s[i] == '\r' && s[i + 1] == '\n'
  }

  /** The index of the first `\r\n` in `s` at or after `p`, or `|s|` when there is none. */
  function CrlfFrom(s: string, p: nat): (k: nat)
    requires p <= |s|
    ensures p <= k <= |s|
    ensures k < |s| ==> CrlfAt(s, k)
    ensures forall i :: p <= i < k ==> !CrlfAt(s, i)
    decreases |s| - p
  {
    if p + 1 >= |s| then |s|
    else if CrlfAt(s, p) then p
    else CrlfFrom(s, p + 1)
  }

  /** The index of the first `\r\n` in `s`, or `|s|` when there is none. */
  function FirstCrlf(s: string): (k: nat)
    ensures k <= |s|
    ensures k < |s| ==> CrlfAt(s, k)
    ensures forall i :: 0 <= i < k ==> !CrlfAt(s, i)
  {
    CrlfFrom(s, 0)
  }

  /** `s.replace(/\r\n/, "\n")`: the pattern is not global, so only the carriage
      return of the first `\r\n` goes; the line feeds, and so the number of
      lines, stay as they were. */
  function ReplaceFirstCrlf(s: string): (r: string)
    ensures FirstCrlf(s) == |s| ==> r == s
    ensures FirstCrlf(s) < |s| ==>
      |r| == |s| - 1 &&
      forall i :: 0 <= i < |r| ==> r[i] == (if i < FirstCrlf(s) then s[i] else s[i + 1])
    ensures multiset(r)['\n'] == multiset(s)['\n']
  {
    var k := FirstCrlf(s);
    if k == |s| then s
    else
      assert s == s[..k] + ['\r'] + s[k + 1..];
      s[..k] + s[k + 1..]
  }
}
