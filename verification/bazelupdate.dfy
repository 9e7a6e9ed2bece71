/** The update of a module file and the check it has to pass. */
module BazelUpdate {
  import opened Text
  import opened BazelFields
  import opened BazelSha
  import opened BazelBlocks
  import opened BazelModule

  /** The manifest: a checksum for each file name. */
  type Manifest = map<string, string>

  /** The names of the blocks of a version start with this; dots are underscores here. */
  function Prefix(version: string): string {
    "rusty_v8_" + (Slug(version) + "_")
  }

  function Slug(version: string): string {
    seq(|version|, i requires 0 <= i < |version| => if version[i] == '.' then '_' else version[i])
  }

  lemma PrefixStart(name: string, version: string)
    requires StartsWith(name, Prefix(version))
    ensures name != "" && name[0] == 'r'
  {
    assert name[0] == name[..|Prefix(version)|][0];
  }

  /** The blocks of the version. */
  predicate Selected(b: string, version: string) {
    var name := StringField(b, NAME);
    name.Some? && StartsWith(name.value, Prefix(version))
  }

  function PathOf(b: string): Option<string> {
    StringField(b, PATH)
  }

  predicate IsEntry(p: Part, entry: string -> bool) {
    p.Block? && entry(p.text)
  }

  predicate AllHavePath(parts: seq<Part>, entry: string -> bool, path: string -> Option<string>) {
    forall i | 0 <= i < |parts| && IsEntry(parts[i], entry) :: path(parts[i].text).Some?
  }

  /** The paths of the entries, in order. */
  function Paths(parts: seq<Part>, entry: string -> bool, path: string -> Option<string>): seq<string> {
    if parts == [] then []
    else
      var n := |parts| - 1;
      var p := parts[n];
      Paths(parts[..n], entry, path) + if IsEntry(p, entry) && path(p.text).Some? then [path(p.text).value] else []
  }

  /** Each file of the manifest has exactly one entry, and there are no other entries. */
  predicate SetOk(paths: seq<string>, keys: set<string>) {
    && paths != []
    && (forall i, j | 0 <= i < j < |paths| :: paths[i] != paths[j])
    && (forall i | 0 <= i < |paths| :: paths[i] in keys)
    && (forall k | k in keys :: k in paths)
  }

  /** The fields the check and the update look at, as functions of a block. */
  datatype Reader = Reader(entry: string -> bool, path: string -> Option<string>, sha: string -> Option<string>,
                           write: (string, string) -> Option<string>)

  function BlockReader(version: string): Reader {
    Reader((b: string) => Selected(b, version), PathOf, (b: string) => StringField(b, SHA), WithSha)
  }

  predicate EntriesOk(r: Reader, parts: seq<Part>, m: Manifest) {
    AllHavePath(parts, r.entry, r.path) && SetOk(Paths(parts, r.entry, r.path), m.Keys)
  }

  /** Where the check raises nothing. */
  predicate Checks(r: Reader, parts: seq<Part>, m: Manifest) {
    EntriesOk(r, parts, m) && ChecksumsOk(r, parts, m)
  }

  predicate ChecksumsOk(r: Reader, parts: seq<Part>, m: Manifest) {
    forall i | 0 <= i < |parts| && IsEntry(parts[i], r.entry) ::
      var path := r.path(parts[i].text);
      path.Some? && path.value in m ==> r.sha(parts[i].text) == Some(m[path.value])
  }

  function NewBlock(r: Reader, m: Manifest, b: string): Option<string> {
    if !r.entry(b) then Some(b)
    else match r.path(b)
      case None => None
      case Some(path) => if path in m then r.write(b, m[path]) else None
  }

  function Writer(r: Reader, m: Manifest): string -> string {
    (b: string) => var n := NewBlock(r, m, b); if n.Some? then n.value else b
  }

  predicate AllWritten(r: Reader, parts: seq<Part>, m: Manifest) {
    forall i | 0 <= i < |parts| && parts[i].Block? :: NewBlock(r, m, parts[i].text).Some?
  }

  /** The updated parts; `None` where the update raises. */
  function Updated(r: Reader, parts: seq<Part>, m: Manifest): Option<seq<Part>> {
    if EntriesOk(r, parts, m) && AllWritten(r, parts, m) then Some(Mapped(parts, Writer(r, m))) else None
  }

  function UpdateText(text: string, m: Manifest, version: string): Option<string> {
    match Updated(BlockReader(version), Parts(text), m)
    case None => None
    case Some(parts) => Some(Concat(parts))
  }

  predicate CheckText(text: string, m: Manifest, version: string) {
    Checks(BlockReader(version), Parts(text), m)
  }

  // ---- the code

  lemma NoneLeft<T>(a: set<T>, b: set<T>)
    ensures a - b == {} <==> a <= b
  {
    if a - b == {} {
      forall x | x in a
        ensures x in b
      {
        assert x !in a - b;
      }
    }
  }

  /** The collector of entry errors: true where it collects none. */
  method EntrySetOk(paths: seq<string>, keys: set<string>) returns (ok: bool)
    ensures ok <==> SetOk(paths, keys)
  {
    if paths == [] {
      return false;
    }
    var files: set<string>, duplicates: set<string> := {}, {};
    for i := 0 to |paths|
      invariant forall k :: k in files <==> k in paths[..i]
      invariant duplicates == {} <==> forall a, b | 0 <= a < b < i :: paths[a] != paths[b]
    {
      if paths[i] in files {
        var a :| 0 <= a < i && paths[..i][a] == paths[i];
        assert paths[a] == paths[i];
        duplicates := duplicates + {paths[i]};
      }
      files := files + {paths[i]};
      assert paths[..i + 1] == paths[..i] + [paths[i]];
    }
    assert paths[..|paths|] == paths;
    ok := duplicates == {} && files - keys == {} && keys - files == {};
    NoneLeft(files, keys);
    NoneLeft(keys, files);
    assert forall i | 0 <= i < |paths| :: paths[i] in files;
  }

  /** The paths of the entries; `None` where one is missing. */
  method CollectPaths(parts: seq<Part>, entry: string -> bool, path: string -> Option<string>) returns (paths: Option<seq<string>>)
    ensures paths == if AllHavePath(parts, entry, path) then Some(Paths(parts, entry, path)) else None
  {
    var found: seq<string> := [];
    for i := 0 to |parts|
      invariant AllHavePath(parts[..i], entry, path) && found == Paths(parts[..i], entry, path)
    {
      assert parts[..i + 1][..i] == parts[..i];
      if IsEntry(parts[i], entry) {
        var p := path(parts[i].text);
        if p.None? {
          return None;
        }
        found := found + [p.value];
      }
    }
    assert parts[..|parts|] == parts;
    paths := Some(found);
  }

  /** One entry after the other is rewritten and put back between the texts around it. */
  method WriteEntries(r: Reader, parts: seq<Part>, m: Manifest) returns (text: Option<string>)
    ensures text == if AllWritten(r, parts, m) then Some(Concat(Mapped(parts, Writer(r, m)))) else None
  {
    var updated := "";
    for i := 0 to |parts|
      invariant AllWritten(r, parts[..i], m)
      invariant updated == Concat(Mapped(parts[..i], Writer(r, m)))
    {
      var piece := parts[i].text;
      if parts[i].Block? {
        var block := NewBlock(r, m, parts[i].text);
        if block.None? {
          return None;
        }
        piece := block.value;
      }
      MappedLast(parts, i, Writer(r, m));
      updated := updated + piece;
    }
    assert parts[..|parts|] == parts;
    text := Some(updated);
  }

  method UpdateModule(text: string, m: Manifest, version: string) returns (updated: Option<string>)
    ensures updated == UpdateText(text, m, version)
  {
    var r, parts := BlockReader(version), Parts(text);
    var paths := CollectPaths(parts, r.entry, r.path);
    if paths.None? {
      return None;
    }
    var ok := EntrySetOk(paths.value, m.Keys);
    if !ok {
      return None;
    }
    updated := WriteEntries(r, parts, m);
  }

  /** The collector of checksum errors: true where it collects none. */
  method ChecksumsMatch(r: Reader, parts: seq<Part>, m: Manifest) returns (ok: bool)
    ensures ok <==> ChecksumsOk(r, parts, m)
  {
    ok := true;
    for i := 0 to |parts|
      invariant ok <==> ChecksumsOk(r, parts[..i], m)
    {
      if IsEntry(parts[i], r.entry) {
        var path := r.path(parts[i].text);
        if path.Some? && path.value in m && r.sha(parts[i].text) != Some(m[path.value]) {
          ok := false;
        }
      }
      assert parts[..i + 1] == parts[..i] + [parts[i]];
    }
    assert parts[..|parts|] == parts;
  }

  method CheckModule(text: string, m: Manifest, version: string) returns (ok: bool)
    ensures ok <==> CheckText(text, m, version)
  {
    var r, parts := BlockReader(version), Parts(text);
    var paths := CollectPaths(parts, r.entry, r.path);
    if paths.None? {
      return false;
    }
    var complete := EntrySetOk(paths.value, m.Keys);
    var equal := ChecksumsMatch(r, parts, m);
    ok := complete && equal;
  }

  lemma {:induction false} ConcatLast(parts: seq<Part>, p: Part)
    ensures Concat(parts + [p]) == Concat(parts) + p.text
  {
    if parts == [] {
      assert parts + [p] == [p] && [p][1..] == [];
      assert p.text + "" == p.text;
    } else {
      assert (parts + [p])[1..] == parts[1..] + [p];
      ConcatLast(parts[1..], p);
      Associative(parts[0].text, Concat(parts[1..]), p.text);
    }
  }

  lemma MappedLast(parts: seq<Part>, i: nat, f: string -> string)
    requires i < |parts|
    ensures Concat(Mapped(parts[..i + 1], f)) ==
            Concat(Mapped(parts[..i], f)) + if parts[i].Block? then f(parts[i].text) else parts[i].text
  {
    var p := if parts[i].Block? then Block(f(parts[i].text)) else parts[i];
    assert Mapped(parts[..i + 1], f) == Mapped(parts[..i], f) + [p];
    ConcatLast(Mapped(parts[..i], f), p);
  }

  // ---- an update passes the check

  /** Writing an entry keeps it an entry with the same path, and the checksum is found there
      exactly if it is `sound`. */
  ghost predicate Faithful(r: Reader, m: Manifest, b: string, sound: bool) {
    r.entry(b) && r.path(b).Some? && r.path(b).value in m && NewBlock(r, m, b).Some? ==>
      var n := NewBlock(r, m, b).value;
      r.entry(n) && r.path(n) == r.path(b) && (r.sha(n) == Some(m[r.path(b).value]) <==> sound)
  }

  ghost predicate AllFaithful(r: Reader, parts: seq<Part>, m: Manifest, sound: string -> bool) {
    forall i | 0 <= i < |parts| && parts[i].Block? :: Faithful(r, m, parts[i].text, sound(parts[i].text))
  }

  predicate EntriesSound(parts: seq<Part>, entry: string -> bool, sound: string -> bool) {
    forall i | 0 <= i < |parts| && IsEntry(parts[i], entry) :: sound(parts[i].text)
  }

  lemma PartUpdated(r: Reader, p: Part, m: Manifest, sound: bool)
    requires p.Block? ==> Faithful(r, m, p.text, sound) && NewBlock(r, m, p.text).Some?
    ensures var q := if p.Block? then Block(Writer(r, m)(p.text)) else p;
            && (IsEntry(q, r.entry) <==> IsEntry(p, r.entry))
            && (IsEntry(p, r.entry) ==> r.path(q.text) == r.path(p.text) && r.path(p.text).Some? && r.path(p.text).value in m
                                        && (r.sha(q.text) == Some(m[r.path(p.text).value]) <==> sound))
  {
  }

  lemma {:induction false} PathsKept(r: Reader, parts: seq<Part>, m: Manifest, sound: string -> bool)
    requires AllWritten(r, parts, m) && AllFaithful(r, parts, m, sound)
    ensures Paths(Mapped(parts, Writer(r, m)), r.entry, r.path) == Paths(parts, r.entry, r.path)
  {
    if parts != [] {
      var n := |parts| - 1;
      PathsKept(r, parts[..n], m, sound);
      assert Mapped(parts, Writer(r, m))[..n] == Mapped(parts[..n], Writer(r, m));
      PartUpdated(r, parts[n], m, sound(parts[n].text));
    }
  }

  lemma UpdatedChecks(r: Reader, parts: seq<Part>, m: Manifest, sound: string -> bool)
    requires Updated(r, parts, m).Some? && AllFaithful(r, parts, m, sound)
    ensures EntriesOk(r, Updated(r, parts, m).value, m)
    ensures ChecksumsOk(r, Updated(r, parts, m).value, m) <==> EntriesSound(parts, r.entry, sound)
  {
    PathsKept(r, parts, m, sound);
    var after := Mapped(parts, Writer(r, m));
    forall i | 0 <= i < |parts|
      ensures IsEntry(after[i], r.entry) <==> IsEntry(parts[i], r.entry)
      ensures IsEntry(after[i], r.entry) ==> r.path(after[i].text).Some? && r.path(after[i].text).value in m
                                             && (r.sha(after[i].text) == Some(m[r.path(after[i].text).value]) <==> sound(parts[i].text))
    {
      PartUpdated(r, parts[i], m, sound(parts[i].text));
    }
    if ChecksumsOk(r, after, m) {
      forall i | 0 <= i < |parts| && IsEntry(parts[i], r.entry)
        ensures sound(parts[i].text)
      {
        assert IsEntry(after[i], r.entry);
      }
    }
  }

  // ---- the update of a module file

  predicate AllHex(m: Manifest) {
    forall k | k in m :: IsHex(m[k])
  }

  predicate SoundEntries(parts: seq<Part>, version: string) {
    forall i | 0 <= i < |parts| && parts[i].Block? && Selected(parts[i].text, version) :: Sound(parts[i].text)
  }

  predicate SteadyEntries(parts: seq<Part>, version: string) {
    forall i | 0 <= i < |parts| && parts[i].Block? && Selected(parts[i].text, version) :: Steady(parts[i].text)
  }

  /** What the proofs below use of a block and its update. */
  ghost predicate Settles(r: Reader, m: Manifest, b: string, sound: bool, steady: bool) {
    NewBlock(r, m, b).Some? ==>
      var n := NewBlock(r, m, b).value;
      && Faithful(r, m, b, sound) && Keeps(Writer(r, m), b) && Keeps(Writer(r, m), n)
      && NewBlock(r, m, n).Some? && (NewBlock(r, m, n).value == n <==> steady)
  }

  lemma OtherSettles(r: Reader, m: Manifest, b: string)
    requires !r.entry(b) && IsBlockText(b)
    ensures Settles(r, m, b, true, true)
  {
  }

  lemma KeepsWritten(m: Manifest, version: string, b: string)
    requires Selected(b, version) && IsBlockText(b) && AllHex(m)
    requires NewBlock(BlockReader(version), m, b).Some?
    ensures Keeps(Writer(BlockReader(version), m), b) && IsBlockText(NewBlock(BlockReader(version), m, b).value)
  {
    var body, end :| IsBody(body) && IsEnding(end) && b == BlockText(body, end);
    var body2 := WithShaStays(body, end, m[PathOf(b).value]);
    assert Writer(BlockReader(version), m)(b) == BlockText(body2, end);
  }

  lemma EntrySettles(m: Manifest, version: string, b: string)
    requires Selected(b, version) && IsBlockText(b) && AllHex(m)
    ensures Settles(BlockReader(version), m, b, Sound(b), Steady(b))
  {
    var r := BlockReader(version);
    if NewBlock(r, m, b).Some? {
      var n, c := NewBlock(r, m, b).value, m[PathOf(b).value];
      PrefixStart(StringField(b, NAME).value, version);
      WithShaWorks(b, c);
      KeepsWritten(m, version, b);
      KeepsWritten(m, version, n);
    }
  }

  function IfSelected(version: string, p: string -> bool): string -> bool {
    (b: string) => Selected(b, version) ==> p(b)
  }

  ghost predicate AllSettle(r: Reader, parts: seq<Part>, m: Manifest, sound: string -> bool, steady: string -> bool) {
    forall i | 0 <= i < |parts| && parts[i].Block? ::
      Settles(r, m, parts[i].text, sound(parts[i].text), steady(parts[i].text))
  }

  lemma BlocksSettle(parts: seq<Part>, m: Manifest, version: string)
    requires BlocksOnly(parts) && AllHex(m)
    ensures AllSettle(BlockReader(version), parts, m, IfSelected(version, Sound), IfSelected(version, Steady))
  {
    forall i | 0 <= i < |parts| && parts[i].Block?
      ensures Settles(BlockReader(version), m, parts[i].text, IfSelected(version, Sound)(parts[i].text),
                      IfSelected(version, Steady)(parts[i].text))
    {
      if Selected(parts[i].text, version) {
        EntrySettles(m, version, parts[i].text);
      } else {
        OtherSettles(BlockReader(version), m, parts[i].text);
      }
    }
  }

  lemma AllSettled(r: Reader, parts: seq<Part>, m: Manifest, sound: string -> bool, steady: string -> bool)
    requires AllWritten(r, parts, m) && AllSettle(r, parts, m, sound, steady)
    ensures var f := Writer(r, m);
            var after := Mapped(parts, f);
            && AllFaithful(r, parts, m, sound) && KeepsAll(f, parts) && KeepsAll(f, after) && AllWritten(r, after, m)
            && (Mapped(after, f) == after <==> AllBlocks(parts, steady))
  {
    var f := Writer(r, m);
    var after := Mapped(parts, f);
    forall i | 0 <= i < |parts| && parts[i].Block?
      ensures after[i].text == NewBlock(r, m, parts[i].text).value
      ensures Faithful(r, m, parts[i].text, sound(parts[i].text))
      ensures Keeps(f, parts[i].text) && Keeps(f, after[i].text) && NewBlock(r, m, after[i].text).Some?
      ensures f(after[i].text) == after[i].text <==> steady(parts[i].text)
    {
      assert Settles(r, m, parts[i].text, sound(parts[i].text), steady(parts[i].text));
    }
    assert forall i | 0 <= i < |parts| :: Mapped(after, f)[i] == after[i] <==> (parts[i].Block? ==> steady(parts[i].text));
  }

  predicate AllBlocks(parts: seq<Part>, p: string -> bool) {
    forall i | 0 <= i < |parts| && parts[i].Block? :: p(parts[i].text)
  }

  predicate OnlyEntriesChange(parts: seq<Part>, after: seq<Part>, entry: string -> bool) {
    |after| == |parts| && forall i | 0 <= i < |parts| && !IsEntry(parts[i], entry) :: after[i] == parts[i]
  }

  /** The update and its repetition, for blocks that settle. */
  lemma UpdatedTwice(r: Reader, text: string, m: Manifest, sound: string -> bool, steady: string -> bool)
    requires Updated(r, Parts(text), m).Some? && AllSettle(r, Parts(text), m, sound, steady)
    ensures var after := Updated(r, Parts(text), m).value;
            var n := Concat(after);
            && Parts(n) == after && OnlyEntriesChange(Parts(text), after, r.entry)
            && (Checks(r, after, m) <==> EntriesSound(Parts(text), r.entry, sound))
            && Updated(r, after, m).Some?
            && (Concat(Updated(r, after, m).value) == n <==> AllBlocks(Parts(text), steady))
  {
    var parts, f := Parts(text), Writer(r, m);
    AllSettled(r, parts, m, sound, steady);
    UpdatedChecks(r, parts, m, sound);
    Reparse(text, f);
    Reparse(Concat(Mapped(parts, f)), f);
  }

  /** A successful update passes the check exactly when every entry is sound, replaces only
      entries, can be repeated, and is repeated without effect exactly when every entry is
      steady. */
  lemma UpdateThenCheck(text: string, m: Manifest, version: string)
    requires UpdateText(text, m, version).Some? && AllHex(m)
    ensures var n := UpdateText(text, m, version).value;
            && (CheckText(n, m, version) <==> SoundEntries(Parts(text), version))
            && OnlyEntriesChange(Parts(text), Parts(n), (b: string) => Selected(b, version))
            && UpdateText(n, m, version).Some?
            && (UpdateText(n, m, version) == Some(n) <==> SteadyEntries(Parts(text), version))
  {
    var parts := Parts(text);
    PartsAreBlocks(text);
    BlocksSettle(parts, m, version);
    UpdatedTwice(BlockReader(version), text, m, IfSelected(version, Sound), IfSelected(version, Steady));
    SelectedSound(parts, version);
    SelectedSteady(parts, version);
  }

  lemma SelectedSound(parts: seq<Part>, version: string)
    ensures EntriesSound(parts, BlockReader(version).entry, IfSelected(version, Sound)) <==> SoundEntries(parts, version)
  {
  }

  lemma SelectedSteady(parts: seq<Part>, version: string)
    ensures AllBlocks(parts, IfSelected(version, Steady)) <==> SteadyEntries(parts, version)
  {
  }
}
