/** String operations of JavaScript and Python on sequences of Unicode scalars. */
module Text {

  datatype Option<+T> = None | Some(value: T)

  /** White space as `String.prototype.trim` and `\s` see it. */
  predicate IsSpace(c: char) {
    || '\t' <= c <= '\r' || c == ' ' || c == '\U{00A0}' || c == '\U{1680}'
    || '\U{2000}' <= c <= '\U{200A}' || c == '\U{2028}' || c == '\U{2029}'
    || c == '\U{202F}' || c == '\U{205F}' || c == '\U{3000}' || c == '\U{FEFF}'
  }

  /** White space of Python strings and of its `\s` pattern. */
  predicate IsPySpace(c: char) {
    || '\t' <= c <= '\r' || '\U{001C}' <= c <= ' ' || c == '\U{0085}' || c == '\U{00A0}' || c == '\U{1680}'
    || '\U{2000}' <= c <= '\U{200A}' || c == '\U{2028}' || c == '\U{2029}'
    || c == '\U{202F}' || c == '\U{205F}' || c == '\U{3000}'
  }

  function TrimStart(s: string): (r: string)
    ensures |r| <= |s| && r == s[|s| - |r|..]
    ensures r != "" ==> !IsSpace(r[0])
  {
    if s != "" && IsSpace(s[0]) then TrimStart(s[1..]) else s
  }

  function TrimEnd(s: string): (r: string)
    ensures |r| <= |s| && r == s[..|r|]
    ensures r != "" ==> !IsSpace(r[|r| - 1])
  {
    if s != "" && IsSpace(s[|s| - 1]) then TrimEnd(s[..|s| - 1]) else s
  }

  function Trim(s: string): string {
    TrimEnd(TrimStart(s))
  }

  /** No white space at either end. */
  predicate Trimmed(s: string) {
    s == "" || (!IsSpace(s[0]) && !IsSpace(s[|s| - 1]))
  }

  lemma TrimIsTrimmed(s: string)
    ensures Trimmed(Trim(s))
  {
    var t := TrimStart(s);
    if Trim(s) != "" {
      assert Trim(s)[0] == t[0];
    }
  }

  /** A trimmed string is unchanged by trimming. */
  lemma TrimmedStays(s: string)
    requires Trimmed(s)
    ensures TrimStart(s) == s && TrimEnd(s) == s && Trim(s) == s
  {
  }

  lemma {:induction false} TrimStartSkips(space: string, s: string)
    requires forall i | 0 <= i < |space| :: IsSpace(space[i])
    ensures TrimStart(space + s) == TrimStart(s)
  {
    if space == "" {
      assert space + s == s;
    } else {
      assert (space + s)[1..] == space[1..] + s;
      TrimStartSkips(space[1..], s);
    }
  }

  lemma TrimOneBlank(s: string)
    requires s == "" || !IsSpace(s[0])
    ensures TrimStart(" " + s) == s
  {
    TrimStartSkips(" ", s);
  }

  lemma {:induction false} TrimEndSkips(s: string, space: string)
    requires forall i | 0 <= i < |space| :: IsSpace(space[i])
    ensures TrimEnd(s + space) == TrimEnd(s)
  {
    if space == "" {
      assert s + space == s;
    } else {
      assert (s + space)[..|s + space| - 1] == s + space[..|space| - 1];
      TrimEndSkips(s, space[..|space| - 1]);
    }
  }

  predicate StartsWith(s: string, prefix: string) {
    |prefix| <= |s| && s[..|prefix|] == prefix
  }

  function LowerChar(c: char): char {
    if 'A' <= c <= 'Z' then c - 'A' + 'a' else c
  }

  function Lower(s: string): string {
    seq(|s|, i requires 0 <= i < |s| => LowerChar(s[i]))
  }

  predicate IsLetter(c: char) {
    'a' <= LowerChar(c) <= 'z'
  }

  /** The pieces between occurrences of `sep`; a string without `sep` is one piece. */
  function Split(s: string, sep: char): (pieces: seq<string>)
    ensures |pieces| >= 1
  {
    if s == "" then [""]
    else
      var rest := Split(s[1..], sep);
      if s[0] == sep then [""] + rest else [[s[0]] + rest[0]] + rest[1..]
  }

  /** The pieces between maximal runs of white space. */
  function SplitSpaces(s: string): (pieces: seq<string>)
    ensures |pieces| >= 1
    decreases |s|
  {
    if s == "" then [""]
    else if IsSpace(s[0]) then [""] + SplitSpaces(TrimStart(s[1..]))
    else
      var rest := SplitSpaces(s[1..]);
      [[s[0]] + rest[0]] + rest[1..]
  }

  /** `replace(/\s+/g, " ")` */
  function Collapse(s: string): string
    decreases |s|
  {
    if s == "" then ""
    else if IsSpace(s[0]) then " " + Collapse(TrimStart(s[1..]))
    else [s[0]] + Collapse(s[1..])
  }

  function OneLine(s: string): string {
    Trim(Collapse(s))
  }

  /** The only white space is the blank. */
  predicate BlanksOnly(s: string) {
    forall i | 0 <= i < |s| && IsSpace(s[i]) :: s[i] == ' '
  }

  lemma {:induction false} CollapseBlanks(s: string)
    ensures BlanksOnly(Collapse(s))
    decreases |s|
  {
    if s != "" {
      CollapseBlanks(if IsSpace(s[0]) then TrimStart(s[1..]) else s[1..]);
    }
  }

  lemma {:induction false} TrimStartBlanks(s: string)
    requires BlanksOnly(s)
    ensures BlanksOnly(TrimStart(s))
  {
    if s != "" && IsSpace(s[0]) {
      TrimStartBlanks(s[1..]);
    }
  }

  lemma {:induction false} TrimEndBlanks(s: string)
    requires BlanksOnly(s)
    ensures BlanksOnly(TrimEnd(s))
  {
    if s != "" && IsSpace(s[|s| - 1]) {
      TrimEndBlanks(s[..|s| - 1]);
    }
  }

  lemma OneLineShape(s: string)
    ensures BlanksOnly(OneLine(s)) && Trimmed(OneLine(s))
  {
    CollapseBlanks(s);
    TrimIsTrimmed(Collapse(s));
    TrimStartBlanks(Collapse(s));
    TrimEndBlanks(TrimStart(Collapse(s)));
  }

  lemma {:induction false} CollapseWord(s: string)
    requires forall i | 0 <= i < |s| :: !IsSpace(s[i])
    ensures Collapse(s) == s
  {
    if s != "" {
      CollapseWord(s[1..]);
      assert s == [s[0]] + s[1..];
    }
  }

  /** A string without white space is one line already. */
  lemma OneLineOfWord(s: string)
    requires forall i | 0 <= i < |s| :: !IsSpace(s[i])
    ensures OneLine(s) == s
  {
    CollapseWord(s);
    TrimmedStays(s);
  }

  const ELLIPSIS := '\U{2026}'

  /** At most `max` characters, with an ellipsis where text is cut. */
  function Truncate(s: string, max: nat): (r: string)
    requires max >= 1
    ensures |r| <= max
  {
    if |s| <= max then s else s[..max - 1] + [ELLIPSIS]
  }

  lemma TruncateShape(s: string, max: nat)
    requires max >= 2 && BlanksOnly(s) && Trimmed(s)
    ensures BlanksOnly(Truncate(s, max)) && Trimmed(Truncate(s, max))
  {
  }

  /** The pieces between line ends, with `\n` and `\r\n` both ending a line. */
  function SplitLines(s: string): (lines: seq<string>)
    ensures |lines| >= 1
    decreases |s|
  {
    if s == "" then [""]
    else if s[0] == '\n' then [""] + SplitLines(s[1..])
    else if StartsWith(s, "\r\n") then [""] + SplitLines(s[2..])
    else
      var rest := SplitLines(s[1..]);
      [[s[0]] + rest[0]] + rest[1..]
  }

  predicate OnOneLine(s: string) {
    forall i | 0 <= i < |s| :: s[i] != '\n' && s[i] != '\r'
  }

  lemma {:induction false} SplitLinesOne(s: string)
    requires OnOneLine(s)
    ensures SplitLines(s) == [s]
  {
    if s != "" {
      assert OnOneLine(s[1..]);
      SplitLinesOne(s[1..]);
      assert s == [s[0]] + s[1..];
    }
  }

  lemma SplitLinesChar(c: char, rest: string)
    requires c != '\n' && c != '\r'
    ensures SplitLines([c] + rest) == [[c] + SplitLines(rest)[0]] + SplitLines(rest)[1..]
  {
    assert ([c] + rest)[1..] == rest;
  }

  lemma {:induction false} SplitLinesFirst(s: string, rest: string)
    requires OnOneLine(s)
    ensures SplitLines(s + ("\n" + rest)) == [s] + SplitLines(rest)
  {
    if s == "" {
      assert s + ("\n" + rest) == "\n" + rest && ("\n" + rest)[1..] == rest;
    } else {
      var c, tail := s[0], s[1..];
      SplitLinesFirst(tail, rest);
      SplitLinesChar(c, tail + ("\n" + rest));
      assert [c] + (tail + ("\n" + rest)) == s + ("\n" + rest);
      assert [c] + tail == s;
    }
  }
}
