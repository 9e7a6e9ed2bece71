/** The memory directory: every write rebuilds the index from the files. */
module MemoryStore {
  import opened Text
  import opened Sets
  import opened MemoryFormat
  import opened Memory

  const RESERVED := "memory"

  /** The key of a name that may be written; the index file's name is reserved. */
  function WritableKey(name: string): Option<string> {
    var key := SafeName(name);
    if key.Some? && Lower(key.value) == RESERVED then None else key
  }

  /** Each key once, in some order. */
  ghost predicate IsListing(keys: seq<string>, all: set<string>) {
    && (forall i, j | 0 <= i < j < |keys| :: keys[i] != keys[j])
    && (forall i | 0 <= i < |keys| :: keys[i] in all)
    && (forall k | k in all :: k in keys)
  }

  ghost predicate All(files: Files, good: (string, string) -> bool) {
    forall k | k in files :: good(k, files[k])
  }

  /** The line of each key, in the order of the keys. */
  ghost function KeyLines(files: Files, keys: seq<string>, line: (string, string) -> string): seq<string>
    requires forall i | 0 <= i < |keys| :: keys[i] in files
  {
    seq(|keys|, i requires 0 <= i < |keys| => line(keys[i], files[keys[i]]))
  }

  ghost predicate Indexes(index: string, files: Files, keys: seq<string>, line: (string, string) -> string) {
    IsListing(keys, files.Keys) && index == JoinLines(KeyLines(files, keys, line))
  }

  /** One entry for each file, the one derived from its content, and nothing else. */
  ghost predicate Lists(entries: seq<Entry>, files: Files, entry: (string, string) -> Entry) {
    && |entries| == |files|
    && (forall i | 0 <= i < |entries| ::
          entries[i].name in files && entries[i] == entry(entries[i].name, files[entries[i].name]))
    && (forall i, j | 0 <= i < j < |entries| :: entries[i].name != entries[j].name)
    && (forall k | k in files :: entry(k, files[k]) in entries)
  }

  function LineFor(key: string, content: string): string {
    IndexLine(EntryFor(key, content))
  }

  // ---- ordering the lines

  ghost predicate TotalPreorder(le: (string, string) -> bool) {
    && (forall a, b :: le(a, b) || le(b, a))
    && (forall a, b, c :: le(a, b) && le(b, c) ==> le(a, c))
  }

  ghost predicate SortedBy(lines: seq<string>, le: (string, string) -> bool) {
    forall i, j | 0 <= i < j < |lines| :: le(lines[i], lines[j])
  }

  function InsertAt<T>(xs: seq<T>, i: nat, x: T): seq<T>
    requires i <= |xs|
  {
    xs[..i] + [x] + xs[i..]
  }

  lemma ListingGrows(keys: seq<string>, all: set<string>, i: nat, k: string)
    requires IsListing(keys, all) && k !in all && i <= |keys|
    ensures IsListing(InsertAt(keys, i, k), all + {k})
  {
    var more := InsertAt(keys, i, k);
    forall x | x in all + {k}
      ensures x in more
    {
      if x == k {
        assert more[i] == k;
      } else {
        var j :| 0 <= j < |keys| && keys[j] == x;
        assert more[if j < i then j else j + 1] == x;
      }
    }
  }

  lemma LinesGrow(files: Files, keys: seq<string>, line: (string, string) -> string, i: nat, k: string)
    requires (forall j | 0 <= j < |keys| :: keys[j] in files) && k in files && i <= |keys|
    ensures KeyLines(files, InsertAt(keys, i, k), line) == InsertAt(KeyLines(files, keys, line), i, line(k, files[k]))
  {
  }

  lemma SortedGrows(lines: seq<string>, i: nat, line: string, le: (string, string) -> bool)
    requires TotalPreorder(le) && SortedBy(lines, le) && i <= |lines|
    requires forall j | 0 <= j < i :: !le(line, lines[j])
    requires i < |lines| ==> le(line, lines[i])
    ensures SortedBy(InsertAt(lines, i, line), le)
  {
    forall j | i <= j < |lines|
      ensures le(line, lines[j])
    {
      assert j > i ==> le(lines[i], lines[j]);
    }
  }

  method Position(lines: seq<string>, line: string, le: (string, string) -> bool) returns (i: nat)
    ensures i <= |lines|
    ensures forall j | 0 <= j < i :: !le(line, lines[j])
    ensures i < |lines| ==> le(line, lines[i])
  {
    i := 0;
    while i < |lines| && !le(line, lines[i])
      invariant i <= |lines|
      invariant forall j | 0 <= j < i :: !le(line, lines[j])
    {
      i := i + 1;
    }
  }

  /** The lines of all files, in the order of `le`. */
  method BuildLines(files: Files, line: (string, string) -> string, le: (string, string) -> bool)
    returns (lines: seq<string>, ghost keys: seq<string>)
    ensures IsListing(keys, files.Keys) && lines == KeyLines(files, keys, line)
    ensures TotalPreorder(le) ==> SortedBy(lines, le)
  {
    var todo := files.Keys;
    lines, keys := [], [];
    while todo != {}
      invariant todo <= files.Keys && IsListing(keys, files.Keys - todo)
      invariant lines == KeyLines(files, keys, line)
      invariant TotalPreorder(le) ==> SortedBy(lines, le)
      decreases |todo|
    {
      ghost var some := Member(todo);
      var name: string :| name in todo;
      var i := Position(lines, line(name, files[name]), le);
      ListingGrows(keys, files.Keys - todo, i, name);
      LinesGrow(files, keys, line, i, name);
      if TotalPreorder(le) {
        SortedGrows(lines, i, line(name, files[name]), le);
      }
      assert files.Keys - todo + {name} == files.Keys - (todo - {name});
      lines, keys, todo := InsertAt(lines, i, line(name, files[name])), InsertAt(keys, i, name), todo - {name};
    }
    assert files.Keys - todo == files.Keys;
  }

  // ---- what a listing says

  /** `entry` names each file's key, and `parse` reads it back from the file's line. */
  ghost predicate Readback(files: Files, line: (string, string) -> string,
                           parse: string -> Option<Entry>, entry: (string, string) -> Entry)
  {
    && parse("") == None
    && forall k | k in files ::
         && OnOneLine(line(k, files[k]))
         && parse(line(k, files[k])) == Some(entry(k, files[k]))
         && entry(k, files[k]).name == k
  }

  ghost function KeyEntries(files: Files, keys: seq<string>, entry: (string, string) -> Entry): seq<Entry>
    requires forall i | 0 <= i < |keys| :: keys[i] in files
  {
    seq(|keys|, i requires 0 <= i < |keys| => entry(keys[i], files[keys[i]]))
  }

  lemma ReadKeyLines(files: Files, keys: seq<string>, line: (string, string) -> string,
                     parse: string -> Option<Entry>, entry: (string, string) -> Entry)
    requires Readback(files, line, parse, entry) && forall i | 0 <= i < |keys| :: keys[i] in files
    ensures ReadLines(SplitLines(JoinLines(KeyLines(files, keys, line))), parse) == KeyEntries(files, keys, entry)
  {
    var lines := KeyLines(files, keys, line);
    SplitJoined(lines);
    ReadParsed(lines, KeyEntries(files, keys, entry), parse);
    ReadWithEmpty(lines, parse);
  }

  lemma KeyEntriesList(files: Files, keys: seq<string>, entry: (string, string) -> Entry)
    requires IsListing(keys, files.Keys) && forall k | k in files :: entry(k, files[k]).name == k
    ensures Lists(KeyEntries(files, keys, entry), files, entry)
  {
    var es := KeyEntries(files, keys, entry);
    ListingSize(keys, files.Keys);
    forall k | k in files
      ensures entry(k, files[k]) in es
    {
      var i :| 0 <= i < |keys| && keys[i] == k;
      assert es[i] == entry(k, files[k]);
    }
  }

  lemma MemoryLine(key: string, content: string)
    requires IsMemory(key, content)
    ensures OnOneLine(LineFor(key, content))
    ensures ReadLine(LineFor(key, content)) == Some(EntryFor(key, content))
    ensures EntryFor(key, content).name == key
  {
    MemoryEntry(key, content);
    IndexLineOnOneLine(EntryFor(key, content));
    LineReadBack(EntryFor(key, content));
  }

  lemma MemoriesReadBack(files: Files)
    requires All(files, IsMemory)
    ensures Readback(files, LineFor, ReadLine, EntryFor)
  {
    forall k | k in files
      ensures OnOneLine(LineFor(k, files[k]))
      ensures ReadLine(LineFor(k, files[k])) == Some(EntryFor(k, files[k]))
      ensures EntryFor(k, files[k]).name == k
    {
      MemoryLine(k, files[k]);
    }
  }

  /** Reading the index gives one entry for each file, derived from its content. */
  lemma ListingExact(index: string, files: Files, keys: seq<string>)
    requires All(files, IsMemory) && Indexes(index, files, keys, LineFor)
    ensures Lists(ReadLines(SplitLines(index), ReadLine), files, EntryFor)
  {
    MemoriesReadBack(files);
    ReadKeyLines(files, keys, LineFor, ReadLine, EntryFor);
    KeyEntriesList(files, keys, EntryFor);
  }

  lemma {:induction false} ListingSize(keys: seq<string>, all: set<string>)
    requires IsListing(keys, all)
    ensures |keys| == |all|
  {
    if keys == [] {
      assert all == {};
    } else {
      var n := |keys| - 1;
      var k := keys[n];
      forall x | x in all - {k}
        ensures x in keys[..n]
      {
        var j :| 0 <= j < |keys| && keys[j] == x;
        assert keys[..n][j] == x;
      }
      ListingSize(keys[..n], all - {k});
    }
  }

  method ReadAll(lines: seq<string>, parse: string -> Option<Entry>) returns (entries: seq<Entry>)
    ensures entries == ReadLines(lines, parse)
  {
    entries := [];
    for n := 0 to |lines|
      invariant entries == ReadLines(lines[..n], parse)
    {
      var e := parse(lines[n]);
      if e.Some? {
        entries := entries + [e.value];
      }
      assert lines[..n + 1][..n] == lines[..n];
    }
    assert lines[..|lines|] == lines;
  }

  lemma WritableIsSafe(name: string)
    requires WritableKey(name).Some?
    ensures IsSafe(WritableKey(name).value)
  {
    SafeNameIsSafe(name);
  }

  function Written(files: Files, key: string, body: string, description: string): Files {
    files[key := Printed(key, body, description)]
  }

  lemma WriteKeeps(files: Files, key: string, body: string, description: string)
    requires All(files, IsMemory) && IsSafe(key)
    ensures All(Written(files, key, body, description), IsMemory)
  {
    WriteReadBack(key, body, description);
  }

  /** The file of `key`, which begins as `start`, after capturing a paragraph. */
  function Capture(files: Files, key: string, start: string, text: string, today: string): string {
    Appended(if key in files then files[key] else start, text, today)
  }

  function Captured(files: Files, key: string, start: string, text: string, today: string): Files {
    files[key := Capture(files, key, start, text, today)]
  }

  lemma Updated(files: Files, key: string, content: string, good: (string, string) -> bool)
    requires All(files, good) && good(key, content) && (key in files ==> files[key] <= content)
    ensures All(files[key := content], good)
    ensures forall k | k in files :: files[k] <= files[key := content][k]
  {
  }

  lemma CaptureKeeps(files: Files, key: string, start: string, text: string, today: string)
    requires All(files, IsMemory) && IsMemory(key, start)
    ensures All(Captured(files, key, start, text, today), IsMemory)
    ensures forall k | k in files :: files[k] <= Captured(files, key, start, text, today)[k]
  {
    var content := if key in files then files[key] else start;
    assert IsMemory(key, content) by {
      if key in files {
        assert IsMemory(key, files[key]);
      }
    }
    AppendKeeps(files, key, content, text, today);
  }

  lemma AppendKeeps(files: Files, key: string, content: string, text: string, today: string)
    requires All(files, IsMemory) && IsMemory(key, content) && (key in files ==> files[key] == content)
    ensures All(files[key := Appended(content, text, today)], IsMemory)
    ensures forall k | k in files :: files[k] <= files[key := Appended(content, text, today)][k]
  {
    AppendedIsMemory(key, content, text, today);
    Updated(files, key, Appended(content, text, today), IsMemory);
  }

  class Store {
    var files: Files
    var index: string
    /** The order of the index. */
    ghost var keys: seq<string>

    ghost predicate Valid()
      reads this
    {
      All(files, IsMemory) && Indexes(index, files, keys, LineFor)
    }

    constructor ()
      ensures Valid() && files == map[]
    {
      files := map[];
      index := "";
      keys := [];
    }

    method RebuildIndex(le: (string, string) -> bool)
      requires All(files, IsMemory)
      modifies `index, `keys
      ensures Valid()
      ensures TotalPreorder(le) ==> SortedBy(KeyLines(files, keys, LineFor), le)
    {
      var lines: seq<string>;
      lines, keys := BuildLines(files, LineFor, le);
      index := JoinLines(lines);
    }

    method Put(key: string, content: string, le: (string, string) -> bool)
      requires All(files[key := content], IsMemory)
      modifies this
      ensures Valid() && files == old(files)[key := content]
    {
      files := files[key := content];
      RebuildIndex(le);
    }

    method Write(name: string, body: string, description: string, le: (string, string) -> bool) returns (ok: bool)
      requires Valid()
      modifies this
      ensures Valid()
      ensures ok <==> WritableKey(name).Some?
      ensures !ok ==> files == old(files) && index == old(index)
      ensures ok ==> files == Written(old(files), WritableKey(name).value, body, description)
    {
      var key := WritableKey(name);
      if key.None? {
        return false;
      }
      WritableIsSafe(name);
      WriteKeeps(files, key.value, body, description);
      Put(key.value, Printed(key.value, body, description), le);
      ok := true;
    }

    /** Captures a paragraph in the daily file; what was in any file stays at its start. */
    method Append(text: string, today: string, le: (string, string) -> bool) returns (ok: bool)
      requires Valid()
      modifies this
      ensures Valid()
      ensures ok <==> Trim(text) != ""
      ensures !ok ==> files == old(files) && index == old(index)
      ensures ok ==> files == Captured(old(files), DAILY, DailyStart(), text, today)
      ensures forall k | k in old(files) :: k in files && old(files)[k] <= files[k]
    {
      if Trim(text) == "" {
        return false;
      }
      DailyIsMemory();
      CaptureKeeps(files, DAILY, DailyStart(), text, today);
      Put(DAILY, Capture(files, DAILY, DailyStart(), text, today), le);
      ok := true;
    }

    /** The entries of the index: exactly one for each memory, whatever writes came before. */
    method ListIndex() returns (entries: seq<Entry>)
      requires Valid()
      ensures Lists(entries, files, EntryFor)
    {
      entries := ReadAll(SplitLines(index), ReadLine);
      ListingExact(index, files, keys);
    }

    /** The body of a memory, before its links are listed. */
    method Read(name: string) returns (body: Option<string>)
      requires Valid()
      ensures body.Some? <==> WritableKey(name).Some? && WritableKey(name).value in files
      ensures body.Some? ==> body.value == ParseFrontmatter(files[WritableKey(name).value]).body
    {
      var key := WritableKey(name);
      if key.None? || key.value !in files {
        return None;
      }
      body := Some(ParseFrontmatter(files[key.value]).body);
    }
  }
}
