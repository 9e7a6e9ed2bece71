/** The memory store: one text file per memory and an index with one line per memory. */
module Memory {
  import opened Text
  import opened MemoryFormat

  type Files = map<string, string>

  const MAX_DESCRIPTION := 200
  const MAX_DERIVED := 100
  const DAILY := "daily"
  const DAILY_DESCRIPTION := "\U{6309}\U{65E5}\U{671F}\U{8FFD}\U{52A0}\U{7684}\U{5DE5}\U{4F5C}\U{8BB0}\U{5FC6}\U{6D41}\U{6C34}"
  const EXTENSION := ".md"

  // ---- what the index says about a file

  function StripBullets(s: string): string {
    if s != "" && (s[0] == '-' || s[0] == '*' || s[0] == '>') then StripBullets(s[1..]) else s
  }

  /** The first line with text that is not a heading. */
  function FirstText(lines: seq<string>): Option<string> {
    if lines == [] then None
    else
      var t := Trim(lines[0]);
      if t != "" && t[0] != '#' then Some(t) else FirstText(lines[1..])
  }

  function DerivedDescription(parsed: Parsed, raw: string): string {
    var desc := if parsed.meta.description.Some? then OneLine(parsed.meta.description.value) else "";
    if desc != "" then desc
    else
      var first := FirstText(SplitLines(if parsed.body != "" then parsed.body else raw));
      if first.None? then "" else Truncate(OneLine(StripBullets(first.value)), MAX_DERIVED)
  }

  function WithoutBrackets(s: string): string {
    if s == "" then "" else (if s[0] == '[' || s[0] == ']' then "" else [s[0]]) + WithoutBrackets(s[1..])
  }

  /** The index entry derived from a key, its parsed file and the file's text. */
  function EntryOf(key: string, parsed: Parsed, raw: string): Entry {
    var named := parsed.meta.name.Some? && parsed.meta.name.value != "";
    Entry(WithoutBrackets(OneLine(if named then parsed.meta.name.value else key)), key + EXTENSION, DerivedDescription(parsed, raw))
  }

  function EntryFor(key: string, content: string): Entry {
    EntryOf(key, ParseFrontmatter(content), content)
  }

  /** A file whose frontmatter names its own key. */
  predicate IsMemory(key: string, content: string) {
    IsSafe(key) && ParseFrontmatter(content).meta.name == Some(key)
  }

  lemma DerivedIsDescription(parsed: Parsed, raw: string)
    ensures IsDescription(DerivedDescription(parsed, raw))
  {
    if parsed.meta.description.Some? {
      OneLineShape(parsed.meta.description.value);
    }
    var first := FirstText(SplitLines(if parsed.body != "" then parsed.body else raw));
    if first.Some? {
      OneLineShape(StripBullets(first.value));
      TruncateShape(OneLine(StripBullets(first.value)), MAX_DERIVED);
    }
  }

  lemma {:induction false} SafeHasNoBrackets(key: string)
    requires NameChars(key)
    ensures WithoutBrackets(key) == key
  {
    if key != "" {
      SafeHasNoBrackets(key[1..]);
      assert key == [key[0]] + key[1..];
    }
  }

  lemma SafeIsLinkText(key: string)
    requires IsSafe(key)
    ensures IsLinkText(key) && IsLinkText(key + EXTENSION)
  {
  }

  lemma EntryShape(key: string, parsed: Parsed, raw: string)
    requires IsSafe(key) && parsed.meta.name == Some(key)
    ensures var e := EntryOf(key, parsed, raw);
            e.name == key && e.file == key + EXTENSION && Readable(e)
  {
    assert forall i | 0 <= i < |key| :: !IsSpace(key[i]);
    OneLineOfWord(key);
    SafeHasNoBrackets(key);
    SafeIsLinkText(key);
    DerivedIsDescription(parsed, raw);
  }

  /** The entry of a memory names its key and its file, and can be printed and read back. */
  lemma MemoryEntry(key: string, content: string)
    requires IsMemory(key, content)
    ensures var e := EntryFor(key, content);
            e.name == key && e.file == key + EXTENSION && Readable(e)
  {
    EntryShape(key, ParseFrontmatter(content), content);
  }

  // ---- the index as a text

  /** The lines, each ended by a line feed. */
  function JoinLines(lines: seq<string>): string {
    if lines == [] then "" else lines[0] + ("\n" + JoinLines(lines[1..]))
  }

  /** The entries of the lines that `parse` accepts, in order. */
  function ReadLines(lines: seq<string>, parse: string -> Option<Entry>): seq<Entry> {
    if lines == [] then []
    else
      var last := parse(lines[|lines| - 1]);
      ReadLines(lines[..|lines| - 1], parse) + (if last.Some? then [last.value] else [])
  }

  function ReadLine(line: string): Option<Entry> {
    ParseIndexLine(Trim(line))
  }

  predicate Readable(e: Entry) {
    IsLinkText(e.name) && IsLinkText(e.file) && IsDescription(e.description)
  }

  lemma IndexLineOnOneLine(e: Entry)
    requires Readable(e)
    ensures OnOneLine(IndexLine(e))
  {
    DescriptionOnOneLine(e.description);
    assert OnOneLine(e.name) && OnOneLine(e.file);
    assert OnOneLine(Prefix(e.name, e.file)) && OnOneLine(Suffix(e.description));
  }

  lemma {:induction false} SplitJoined(lines: seq<string>)
    requires forall i | 0 <= i < |lines| :: OnOneLine(lines[i])
    ensures SplitLines(JoinLines(lines)) == lines + [""]
  {
    if lines != [] {
      SplitJoined(lines[1..]);
      SplitLinesFirst(lines[0], JoinLines(lines[1..]));
      assert [lines[0]] + (lines[1..] + [""]) == lines + [""];
    }
  }

  lemma {:induction false} ReadParsed(lines: seq<string>, entries: seq<Entry>, parse: string -> Option<Entry>)
    requires |lines| == |entries| && forall i | 0 <= i < |lines| :: parse(lines[i]) == Some(entries[i])
    ensures ReadLines(lines, parse) == entries
  {
    if lines != [] {
      var n := |lines| - 1;
      ReadParsed(lines[..n], entries[..n], parse);
      assert entries == entries[..n] + [entries[n]];
    }
  }

  lemma ReadWithEmpty(lines: seq<string>, parse: string -> Option<Entry>)
    requires parse("") == None
    ensures ReadLines(lines + [""], parse) == ReadLines(lines, parse)
  {
    assert (lines + [""])[..|lines|] == lines;
  }

  lemma LineReadBack(e: Entry)
    requires Readable(e)
    ensures ReadLine(IndexLine(e)) == Some(e)
  {
    IndexLineTrimmed(e);
    TrimmedStays(IndexLine(e));
    IndexLineReadBack(e);
  }

  function LinesOf(entries: seq<Entry>): seq<string> {
    seq(|entries|, i requires 0 <= i < |entries| => IndexLine(entries[i]))
  }

  /** Reading a printed index gives its entries back, one per line, in order. */
  lemma IndexReadBack(entries: seq<Entry>)
    requires forall i | 0 <= i < |entries| :: Readable(entries[i])
    ensures ReadLines(SplitLines(JoinLines(LinesOf(entries))), ReadLine) == entries
  {
    var lines := LinesOf(entries);
    forall i | 0 <= i < |lines|
      ensures OnOneLine(lines[i]) && ReadLine(lines[i]) == Some(entries[i])
    {
      IndexLineOnOneLine(entries[i]);
      LineReadBack(entries[i]);
    }
    SplitJoined(lines);
    ReadParsed(lines, entries, ReadLine);
    ReadWithEmpty(lines, ReadLine);
  }

  // ---- what `write` prints

  function StoredDescription(description: string): string {
    Truncate(OneLine(description), MAX_DESCRIPTION)
  }

  function Printed(key: string, body: string, description: string): string {
    Header(key, StoredDescription(description)) + ("\n" + (Trim(body) + "\n"))
  }

  lemma StoredIsDescription(description: string)
    ensures IsDescription(StoredDescription(description))
  {
    OneLineShape(description);
    TruncateShape(OneLine(description), MAX_DESCRIPTION);
  }

  lemma TrimFramed(s: string)
    requires Trimmed(s)
    ensures Trim("\n" + (s + "\n")) == s
  {
    TrimStartSkips("\n", s + "\n");
    if s == "" {
      assert s + "\n" == "\n";
      TrimStartSkips("\n", "");
      assert "\n" + "" == "\n";
    } else {
      assert (s + "\n")[0] == s[0] && TrimStart(s + "\n") == s + "\n";
      TrimEndSkips(s, "\n");
      TrimmedStays(s);
    }
  }

  /** Parsing a written file gives the sanitised name, the one-lined, truncated description
      with at most one quote dropped at each end, and exactly the trimmed body. */
  lemma WriteReadBack(key: string, body: string, description: string)
    requires IsSafe(key)
    ensures ParseFrontmatter(Printed(key, body, description)) ==
            Parsed(Meta(Some(key), Some(StripQuotes(StoredDescription(description)))), Trim(body))
  {
    StoredIsDescription(description);
    TrimIsTrimmed(body);
    PrintedParses(key, StoredDescription(description), Trim(body));
  }

  lemma PrintedParses(key: string, desc: string, body: string)
    requires IsSafe(key) && IsDescription(desc) && Trimmed(body)
    ensures ParseFrontmatter(Header(key, desc) + ("\n" + (body + "\n"))) ==
            Parsed(Meta(Some(key), Some(StripQuotes(desc))), body)
  {
    ParsePrinted(key, desc, "\n" + (body + "\n"));
    TrimFramed(body);
  }

  // ---- what `append` prints

  lemma {:induction false} CutIsLong(s: string)
    requires CutAtClose(s).Some?
    ensures |s| >= 4
  {
    if CloseLength(s) == 0 {
      CutIsLong(s[1..]);
    }
  }

  lemma CloseExtends(s: string, more: string)
    ensures CloseLength(s) > 0 ==> CloseLength(s + more) > 0
    ensures CloseLength(s) == 0 && |s| >= 5 ==> CloseLength(s + more) == 0
  {
  }

  lemma {:induction false} CutExtends(s: string, more: string)
    requires CutAtClose(s).Some?
    ensures CutAtClose(s + more).Some? && CutAtClose(s + more).value.head == CutAtClose(s).value.head
  {
    CloseExtends(s, more);
    if CloseLength(s) == 0 {
      CutIsLong(s[1..]);
      CutExtends(s[1..], more);
      assert (s + more)[1..] == s[1..] + more;
    }
  }

  lemma FrontmatterExtends(content: string, more: string)
    requires Frontmatter(content).Some?
    ensures Frontmatter(content + more).Some?
    ensures Frontmatter(content + more).value.head == Frontmatter(content).value.head
  {
    var n := OpenLength(content);
    assert OpenLength(content + more) == n;
    assert (content + more)[n..] == content[n..] + more;
    CutExtends(content[n..], more);
  }

  /** Text added at the end never changes the frontmatter that is there. */
  lemma AppendKeepsMeta(content: string, more: string)
    requires ParseFrontmatter(content).meta != NO_META
    ensures ParseFrontmatter(content + more).meta == ParseFrontmatter(content).meta
  {
    FrontmatterExtends(content, more);
  }

  predicate Contains(s: string, part: string) {
    exists i | 0 <= i <= |s| :: StartsWith(s[i..], part)
  }

  function DateSection(content: string, today: string): string {
    if Contains(content, "## " + today) then ""
    else (if content != "" && content[|content| - 1] != '\n' then "\n" else "") + ("\n## " + (today + "\n"))
  }

  function DailyStart(): string {
    Header(DAILY, DAILY_DESCRIPTION)
  }

  /** The daily file after capturing a paragraph; what was there stays a prefix. */
  function Appended(content: string, text: string, today: string): (r: string)
    ensures content <= r
  {
    content + (DateSection(content, today) + ("\n" + (Trim(text) + "\n")))
  }

  lemma AppendedIsMemory(key: string, content: string, text: string, today: string)
    requires IsMemory(key, content)
    ensures IsMemory(key, Appended(content, text, today))
  {
    AppendKeepsMeta(content, DateSection(content, today) + ("\n" + (Trim(text) + "\n")));
  }

  lemma DailyIsMemory()
    ensures IsMemory(DAILY, DailyStart())
  {
    ParsePrinted(DAILY, DAILY_DESCRIPTION, "");
    assert DailyStart() + "" == DailyStart();
  }
}
