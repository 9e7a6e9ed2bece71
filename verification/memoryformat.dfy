/** The text formats of the memory store: memory names, frontmatter and index lines. */
module MemoryFormat {
  import opened Text

  // ---- names

  predicate IsWord(c: char) {
    'a' <= c <= 'z' || 'A' <= c <= 'Z' || '0' <= c <= '9' || c == '_'
  }

  predicate IsNameChar(c: char) {
    IsWord(c) || c == '.' || c == '-'
  }

  predicate IsEdge(c: char) {
    c == '-' || c == '.'
  }

  function Cleaned(s: string): string {
    if s == "" then "" else [if IsNameChar(s[0]) then s[0] else '-'] + Cleaned(s[1..])
  }

  function StripStart(s: string): (r: string)
    ensures |r| <= |s| && r == s[|s| - |r|..]
    ensures r != "" ==> !IsEdge(r[0])
  {
    if s != "" && IsEdge(s[0]) then StripStart(s[1..]) else s
  }

  function StripEnd(s: string): (r: string)
    ensures |r| <= |s| && r == s[..|r|]
    ensures r != "" ==> !IsEdge(r[|r| - 1])
  {
    if s != "" && IsEdge(s[|s| - 1]) then StripEnd(s[..|s| - 1]) else s
  }

  /** The sanitised name; `None` where the name is rejected. */
  function SafeName(name: string): Option<string> {
    var raw := Trim(name);
    if raw == "" || raw == "." || raw == ".." then None
    else
      var cleaned := StripEnd(StripStart(Cleaned(raw)));
      if cleaned == "" then None else Some(cleaned)
  }

  /** What sanitised names look like. */
  predicate IsSafe(key: string) {
    key != "" && !IsEdge(key[0]) && !IsEdge(key[|key| - 1]) && NameChars(key)
  }

  lemma {:induction false} CleanedShape(s: string)
    ensures NameChars(Cleaned(s)) && (NameChars(s) ==> Cleaned(s) == s)
  {
    if s != "" {
      CleanedShape(s[1..]);
      assert s == [s[0]] + s[1..];
      assert NameChars(s) ==> NameChars(s[1..]);
    }
  }

  predicate NameChars(s: string) {
    forall i | 0 <= i < |s| :: IsNameChar(s[i])
  }

  lemma {:induction false} StripStartKeeps(s: string)
    requires NameChars(s)
    ensures NameChars(StripStart(s))
  {
    if s != "" && IsEdge(s[0]) {
      StripStartKeeps(s[1..]);
    }
  }

  lemma {:induction false} StripEndKeeps(s: string)
    requires NameChars(s)
    ensures NameChars(StripEnd(s))
    ensures s != "" && !IsEdge(s[0]) ==> StripEnd(s) != "" && StripEnd(s)[0] == s[0]
  {
    if s != "" && IsEdge(s[|s| - 1]) {
      StripEndKeeps(s[..|s| - 1]);
    }
  }

  lemma StrippedIsSafe(s: string)
    requires NameChars(s) && StripEnd(StripStart(s)) != ""
    ensures IsSafe(StripEnd(StripStart(s)))
  {
    StripStartKeeps(s);
    StripEndKeeps(StripStart(s));
  }

  lemma SafeNameIsSafe(name: string)
    requires SafeName(name).Some?
    ensures IsSafe(SafeName(name).value)
  {
    CleanedShape(Trim(name));
    StrippedIsSafe(Cleaned(Trim(name)));
  }

  /** A sanitised name is its own sanitised form and holds no path separator. */
  lemma SafeNameIdempotent(name: string)
    requires SafeName(name).Some?
    ensures SafeName(SafeName(name).value) == SafeName(name)
    ensures '/' !in SafeName(name).value && '\\' !in SafeName(name).value
  {
    SafeNameIsSafe(name);
    SafeKeyStays(SafeName(name).value);
  }

  lemma SafeKeyStays(key: string)
    requires IsSafe(key)
    ensures SafeName(key) == Some(key) && '/' !in key && '\\' !in key
  {
    assert Trimmed(key);
    TrimmedStays(key);
    CleanedShape(key);
    assert StripStart(key) == key && StripEnd(key) == key;
    assert forall i | 0 <= i < |key| :: key[i] != '/' && key[i] != '\\';
  }

  // ---- frontmatter

  datatype Meta = Meta(name: Option<string>, description: Option<string>)

  datatype Parsed = Parsed(meta: Meta, body: string)

  /** Length of an optional `\r` and an optional `\n` at `i`. */
  function LineEnd(s: string, i: nat): (n: nat)
    requires i <= |s|
    ensures i + n <= |s|
  {
    var cr := if i < |s| && s[i] == '\r' then 1 else 0;
    if i + cr < |s| && s[i + cr] == '\n' then cr + 1 else cr
  }

  predicate DashesAt(s: string, i: nat) {
    i + 3 <= |s| && s[i] == '-' && s[i + 1] == '-' && s[i + 2] == '-'
  }

  /** Length of the closing marker at the start of `s`, or 0. */
  function CloseLength(s: string): (n: nat)
    ensures n <= |s|
  {
    if s != "" && s[0] == '\n' && DashesAt(s, 1) then 4 + LineEnd(s, 4)
    else if |s| > 1 && s[0] == '\r' && s[1] == '\n' && DashesAt(s, 2) then 5 + LineEnd(s, 5)
    else 0
  }

  datatype Cut = Cut(head: string, rest: string)

  /** The text before the first closing marker and the text after it. */
  function CutAtClose(s: string): Option<Cut> {
    if CloseLength(s) > 0 then Some(Cut("", s[CloseLength(s)..]))
    else if s == "" then None
    else match CutAtClose(s[1..])
      case None => None
      case Some(cut) => Some(Cut([s[0]] + cut.head, cut.rest))
  }

  predicate IsQuote(c: char) {
    c == '"' || c == '\''
  }

  /** At most one quote is dropped at each end. */
  function StripQuotes(s: string): string {
    var t := if s != "" && IsQuote(s[0]) then s[1..] else s;
    if t != "" && IsQuote(t[|t| - 1]) then t[..|t| - 1] else t
  }

  predicate IsLineTerminator(c: char) {
    c == '\n' || c == '\r' || c == '\U{2028}' || c == '\U{2029}'
  }

  predicate HasKeyword(line: string, word: string) {
    |word| <= |line| && forall i | 0 <= i < |word| :: LowerChar(line[i]) == word[i]
  }

  /** The value after optional space, a colon and optional space. */
  function Value(after: string): Option<string> {
    var t := TrimStart(after);
    if t == "" || t[0] != ':' then None
    else
      var value := TrimStart(t[1..]);
      if exists i | 0 <= i < |value| :: IsLineTerminator(value[i]) then None else Some(StripQuotes(Trim(value)))
  }

  datatype Field = NameField(value: string) | DescriptionField(value: string) | NoField

  const NAME := "name"
  const DESCRIPTION := "description"

  function FieldWith(line: string, value: string -> Option<string>): Field {
    if HasKeyword(line, NAME) then
      var v := value(line[|NAME|..]);
      if v.Some? then NameField(v.value) else NoField
    else if HasKeyword(line, DESCRIPTION) then
      var v := value(line[|DESCRIPTION|..]);
      if v.Some? then DescriptionField(v.value) else NoField
    else NoField
  }

  function FieldOf(line: string): Field {
    FieldWith(line, Value)
  }

  function SetField(meta: Meta, f: Field): Meta {
    match f
    case NameField(v) => meta.(name := Some(v))
    case DescriptionField(v) => meta.(description := Some(v))
    case NoField => meta
  }

  /** Later lines override earlier ones. */
  function AddLines(meta: Meta, lines: seq<string>, field: string -> Field): Meta
    decreases |lines|
  {
    if lines == [] then meta else AddLines(SetField(meta, field(lines[0])), lines[1..], field)
  }

  const NO_META := Meta(None, None)

  /** Length of the opening marker, or 0. */
  function OpenLength(s: string): (n: nat)
    ensures n <= |s|
  {
    if !DashesAt(s, 0) || |s| == 3 then 0
    else if s[3] == '\n' then 4
    else if |s| > 4 && s[3] == '\r' && s[4] == '\n' then 5
    else 0
  }

  /** The frontmatter and the text after it. */
  function Frontmatter(text: string): Option<Cut> {
    if OpenLength(text) == 0 then None else CutAtClose(text[OpenLength(text)..])
  }

  function ParseFrontmatter(text: string): Parsed {
    match Frontmatter(text)
    case None => Parsed(NO_META, text)
    case Some(cut) => Parsed(AddLines(NO_META, SplitLines(cut.head), FieldOf), Trim(cut.rest))
  }

  const OPEN := "---\n"
  const CLOSE := "\n---\n"

  function NameLine(key: string): string {
    NAME + (": " + key)
  }

  function DescriptionLine(desc: string): string {
    DESCRIPTION + (": " + desc)
  }

  /** The frontmatter `write` prints for a key and a description. */
  function Header(key: string, desc: string): string {
    OPEN + (NameLine(key) + ("\n" + DescriptionLine(desc))) + CLOSE
  }

  // ---- reading the printed frontmatter back

  function Prepend(line: string, cut: Option<Cut>): Option<Cut> {
    if cut.None? then None else Some(Cut(line + cut.value.head, cut.value.rest))
  }

  lemma CutSkipsChar(c: char, rest: string)
    requires CloseLength([c] + rest) == 0
    ensures CutAtClose([c] + rest) == Prepend([c], CutAtClose(rest))
  {
    assert ([c] + rest)[1..] == rest;
  }

  lemma PrependTwice(a: string, b: string, cut: Option<Cut>)
    ensures Prepend(a, Prepend(b, cut)) == Prepend(a + b, cut)
  {
    if cut.Some? {
      assert a + (b + cut.value.head) == a + b + cut.value.head;
    }
  }

  lemma PrependNothing(cut: Option<Cut>)
    ensures Prepend("", cut) == cut
  {
    if cut.Some? {
      assert "" + cut.value.head == cut.value.head;
    }
  }

  lemma CutSkipsOneMore(c: char, tail: string, rest: string, cut: Option<Cut>)
    requires c != '\n' && c != '\r' && CutAtClose(tail + rest) == Prepend(tail, cut)
    ensures CutAtClose(([c] + tail) + rest) == Prepend([c] + tail, cut)
  {
    assert ([c] + tail) + rest == [c] + (tail + rest);
    CutSkipsChar(c, tail + rest);
    PrependTwice([c], tail, cut);
  }

  lemma {:induction false} CutSkipsLine(line: string, rest: string)
    requires OnOneLine(line)
    ensures CutAtClose(line + rest) == Prepend(line, CutAtClose(rest))
  {
    if line == "" {
      assert line + rest == rest;
      PrependNothing(CutAtClose(rest));
    } else {
      var c, tail := line[0], line[1..];
      assert line == [c] + tail;
      CutSkipsLine(tail, rest);
      CutSkipsOneMore(c, tail, rest, CutAtClose(rest));
    }
  }

  lemma CutAtMarker(rest: string)
    ensures CutAtClose(CLOSE + rest) == Some(Cut("", rest))
  {
    var s := CLOSE + rest;
    assert s[0] == '\n' && DashesAt(s, 1) && s[4] == '\n' && LineEnd(s, 4) == 1;
    assert CloseLength(s) == 5;
    assert s[5..] == rest;
  }

  lemma CutAtSecond(second: string, rest: string)
    requires OnOneLine(second) && second != "" && second[0] != '-'
    ensures CutAtClose("\n" + (second + (CLOSE + rest))) == Some(Cut("\n" + second, rest))
  {
    CutAtMarker(rest);
    CutSkipsLine(second, CLOSE + rest);
    assert second + "" == second;
    CutSkipsChar('\n', second + (CLOSE + rest));
  }

  lemma CutAtHeader(first: string, second: string, rest: string)
    requires OnOneLine(first) && OnOneLine(second) && second != "" && second[0] != '-'
    ensures CutAtClose(first + ("\n" + (second + (CLOSE + rest)))) == Some(Cut(first + ("\n" + second), rest))
  {
    CutAtSecond(second, rest);
    CutSkipsLine(first, "\n" + (second + (CLOSE + rest)));
  }

  /** A description as `write` stores it: blanks only, and none at the ends. */
  predicate IsDescription(s: string) {
    BlanksOnly(s) && Trimmed(s)
  }

  lemma DescriptionOnOneLine(s: string)
    requires IsDescription(s)
    ensures OnOneLine(s) && forall i | 0 <= i < |s| :: !IsLineTerminator(s[i])
  {
  }

  lemma KeyIsDescription(key: string)
    requires IsSafe(key)
    ensures IsDescription(key) && StripQuotes(key) == key
  {
    assert forall i | 0 <= i < |key| :: !IsSpace(key[i]) && !IsQuote(key[i]);
  }

  lemma PrintedValue(value: string)
    requires IsDescription(value)
    ensures Value(": " + value) == Some(StripQuotes(value))
  {
    var t := ": " + value;
    assert TrimStart(t) == t && t[1..] == " " + value;
    TrimStartSkips(" ", value);
    TrimmedStays(value);
    DescriptionOnOneLine(value);
  }

  lemma KeywordPrefix(word: string, rest: string)
    requires forall i | 0 <= i < |word| :: 'a' <= word[i] <= 'z'
    ensures HasKeyword(word + rest, word)
  {
  }

  lemma NameFieldWith(after: string, value: string -> Option<string>, v: string)
    requires value(after) == Some(v)
    ensures FieldWith(NAME + after, value) == NameField(v)
  {
    KeywordPrefix(NAME, after);
    assert (NAME + after)[|NAME|..] == after;
  }

  lemma DescriptionFieldWith(after: string, value: string -> Option<string>, v: string)
    requires value(after) == Some(v)
    ensures FieldWith(DESCRIPTION + after, value) == DescriptionField(v)
  {
    KeywordPrefix(DESCRIPTION, after);
    assert (DESCRIPTION + after)[|DESCRIPTION|..] == after;
    assert (DESCRIPTION + after)[0] == 'd' && NAME[0] == 'n';
  }

  lemma NameFieldOf(key: string)
    requires IsSafe(key)
    ensures FieldOf(NameLine(key)) == NameField(key)
  {
    KeyIsDescription(key);
    PrintedValue(key);
    NameFieldWith(": " + key, Value, key);
  }

  lemma DescriptionFieldOf(desc: string)
    requires IsDescription(desc)
    ensures FieldOf(DescriptionLine(desc)) == DescriptionField(StripQuotes(desc))
  {
    PrintedValue(desc);
    DescriptionFieldWith(": " + desc, Value, StripQuotes(desc));
  }

  lemma LinesOnOneLine(key: string, desc: string)
    requires IsSafe(key) && IsDescription(desc)
    ensures OnOneLine(NameLine(key)) && OnOneLine(DescriptionLine(desc))
  {
    KeyIsDescription(key);
    DescriptionOnOneLine(key);
    DescriptionOnOneLine(desc);
  }

  lemma AddTwoLines(meta: Meta, first: string, second: string, field: string -> Field)
    ensures AddLines(meta, [first, second], field) == SetField(SetField(meta, field(first)), field(second))
  {
    var lines := [first, second];
    assert lines[1..] == [second] && [second][1..] == [];
    assert AddLines(SetField(meta, field(first)), [second], field) == SetField(SetField(meta, field(first)), field(second));
  }

  lemma HeaderLines(key: string, desc: string)
    requires IsSafe(key) && IsDescription(desc)
    ensures AddLines(NO_META, SplitLines(NameLine(key) + ("\n" + DescriptionLine(desc))), FieldOf) == Meta(Some(key), Some(StripQuotes(desc)))
  {
    var first, second := NameLine(key), DescriptionLine(desc);
    LinesOnOneLine(key, desc);
    SplitLinesFirst(first, second);
    SplitLinesOne(second);
    assert [first] + [second] == [first, second];
    NameFieldOf(key);
    DescriptionFieldOf(desc);
    AddTwoLines(NO_META, first, second, FieldOf);
  }

  lemma HeaderSplit(first: string, second: string, rest: string)
    ensures var text := OPEN + (first + ("\n" + second)) + CLOSE + rest;
            OpenLength(text) == 4 && text[4..] == first + ("\n" + (second + (CLOSE + rest)))
  {
    var text := OPEN + (first + ("\n" + second)) + CLOSE + rest;
    assert text == OPEN + (first + ("\n" + (second + (CLOSE + rest))));
  }

  /** Parsing a printed memory gives the key, the description without outer quotes, and
      the trimmed text after the frontmatter, whatever that text is. */
  lemma ParsePrinted(key: string, desc: string, rest: string)
    requires IsSafe(key) && IsDescription(desc)
    ensures ParseFrontmatter(Header(key, desc) + rest) == Parsed(Meta(Some(key), Some(StripQuotes(desc))), Trim(rest))
  {
    var first, second := NameLine(key), DescriptionLine(desc);
    LinesOnOneLine(key, desc);
    HeaderSplit(first, second, rest);
    assert second[0] == DESCRIPTION[0];
    CutAtHeader(first, second, rest);
    HeaderLines(key, desc);
  }

  // ---- index lines

  datatype Entry = Entry(name: string, file: string, description: string)

  const DASH := '\U{2014}'

  predicate IsDash(c: char) {
    c == DASH || c == '\U{2013}' || c == '-'
  }

  function Prefix(name: string, file: string): string {
    "- [" + (name + ("](" + (file + ")")))
  }

  function Suffix(desc: string): string {
    if desc == "" then "" else " " + ([DASH] + (" " + desc))
  }

  function IndexLine(e: Entry): string {
    Prefix(e.name, e.file) + Suffix(e.description)
  }

  /** The characters before the first one that `stop` accepts, and the rest. */
  function TakeUntil(s: string, stop: char -> bool): Cut {
    if s == "" || stop(s[0]) then Cut("", s)
    else
      var cut := TakeUntil(s[1..], stop);
      Cut([s[0]] + cut.head, cut.rest)
  }

  function SkipDashes(s: string): string {
    if s != "" && IsDash(s[0]) then SkipDashes(s[1..]) else s
  }

  /** What may follow the link: nothing, or dashes and a description on one line. */
  function LineTail(s: string): Option<string> {
    var t := TrimStart(s);
    if t == "" then Some("")
    else if !IsDash(t[0]) then None
    else
      var desc := TrimStart(SkipDashes(t));
      if exists i | 0 <= i < |desc| :: IsLineTerminator(desc[i]) then None else Some(Trim(desc))
  }

  function EndsFile(c: char): bool {
    c == ')' || IsSpace(c)
  }

  function EndsName(c: char): bool {
    c == ']'
  }

  /** From the name on: `name](file)` and the tail. */
  function ParseLink(s: string, tail: string -> Option<string>): Option<Entry> {
    var name := TakeUntil(s, EndsName);
    if name.head == "" || |name.rest| < 2 || name.rest[1] != '(' then None
    else
      var file := TakeUntil(name.rest[2..], EndsFile);
      if file.head == "" || file.rest == "" || file.rest[0] != ')' then None
      else
        var desc := tail(file.rest[1..]);
        if desc.None? then None else Some(Entry(Trim(name.head), Trim(file.head), desc.value))
  }

  function ReadLink(s: string): Option<Entry> {
    ParseLink(s, LineTail)
  }

  /** Past the bullet and the opening bracket, the rest is a link. */
  function AfterBullet(line: string, link: string -> Option<Entry>): Option<Entry> {
    if line == "" || line[0] != '-' then None
    else
      var t := TrimStart(line[1..]);
      if t == "" || t[0] != '[' then None else link(t[1..])
  }

  /** One line of the index, already trimmed; `None` where the pattern does not match. */
  function ParseIndexLine(line: string): Option<Entry> {
    AfterBullet(line, ReadLink)
  }

  lemma {:induction false} TakeUntilStops(head: string, rest: string, stop: char -> bool)
    requires forall i | 0 <= i < |head| :: !stop(head[i])
    requires rest != "" && stop(rest[0])
    ensures TakeUntil(head + rest, stop) == Cut(head, rest)
  {
    if head == "" {
      assert head + rest == rest;
    } else {
      assert (head + rest)[1..] == head[1..] + rest;
      TakeUntilStops(head[1..], rest, stop);
      assert head == [head[0]] + head[1..];
    }
  }

  lemma TailReadBack(desc: string)
    requires IsDescription(desc)
    ensures LineTail(Suffix(desc)) == Some(desc)
  {
    if desc != "" {
      var t := [DASH] + (" " + desc);
      TrimOneBlank(t);
      assert t[1..] == " " + desc && SkipDashes(t) == " " + desc;
      TrimStartSkips(" ", desc);
      TrimmedStays(desc);
      DescriptionOnOneLine(desc);
    }
  }

  /** A name or file of the index: neither white space nor closing brackets. */
  predicate IsLinkText(s: string) {
    s != "" && forall i | 0 <= i < |s| :: s[i] != ']' && !EndsFile(s[i])
  }

  lemma LinkReadBack(name: string, file: string, after: string, tail: string -> Option<string>, desc: string)
    requires IsLinkText(name) && IsLinkText(file) && tail(after) == Some(desc)
    ensures ParseLink(name + ("](" + (file + (")" + after))), tail) == Some(Entry(name, file, desc))
  {
    var inner := file + (")" + after);
    TakeUntilStops(name, "](" + inner, EndsName);
    assert ("](" + inner)[2..] == inner;
    TakeUntilStops(file, ")" + after, EndsFile);
    assert (")" + after)[1..] == after;
    TrimmedStays(name);
    TrimmedStays(file);
  }

  lemma PrefixSplit(name: string, file: string, after: string)
    ensures Prefix(name, file) + after == "-" + (" " + ("[" + (name + ("](" + (file + (")" + after))))))
  {
  }

  lemma BulletSkips(t: string, link: string -> Option<Entry>)
    requires t != "" && t[0] == '['
    ensures AfterBullet("-" + (" " + t), link) == link(t[1..])
  {
    TrimOneBlank(t);
    assert ("-" + (" " + t))[1..] == " " + t;
  }

  /** A printed index line parses back to its entry. */
  lemma IndexLineReadBack(e: Entry)
    requires IsLinkText(e.name) && IsLinkText(e.file) && IsDescription(e.description)
    ensures ParseIndexLine(IndexLine(e)) == Some(e)
  {
    var after := Suffix(e.description);
    TailReadBack(e.description);
    LinkReadBack(e.name, e.file, after, LineTail, e.description);
    PrefixSplit(e.name, e.file, after);
    var link := e.name + ("](" + (e.file + (")" + after)));
    BulletSkips("[" + link, ReadLink);
    assert ("[" + link)[1..] == link;
  }

  lemma IndexLineTrimmed(e: Entry)
    requires IsDescription(e.description)
    ensures Trimmed(IndexLine(e)) && IndexLine(e) != ""
  {
    var line := IndexLine(e);
    assert line[0] == '-';
    if e.description == "" {
      assert line[|line| - 1] == ')';
    } else {
      assert line[|line| - 1] == e.description[|e.description| - 1];
    }
  }
}
