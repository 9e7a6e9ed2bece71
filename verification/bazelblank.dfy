/** Module files for which an update fails the check, or a second update is not without
    effect. */
module BazelBlank {
  import opened Text
  import opened BazelFields
  import opened BazelTokens
  import opened BazelSha
  import opened BazelInsert
  import opened BazelBlocks
  import opened BazelModule
  import opened BazelUpdate

  predicate IsPlain(v: string) {
    IsValue(v) && ')' !in v
  }

  /** A field on a line of its own, and the lines after it. */
  function Line(name: string, v: string, z: string): string {
    Token(name, " ", " ", v, "\n" + z)
  }

  /** The end of a body after its path line: nothing, or a blank line. */
  predicate IsGap(gap: string) {
    gap == "" || gap == "\n"
  }

  const CLOSE := ")\n"

  /** A block without a checksum. */
  function BlankText(name: string, path: string): string {
    OPEN + Line(NAME, name, Line(PATH, path, "\n" + CLOSE))
  }

  /** A block with a checksum in front of the path. */
  function EarlyText(name: string, v: string, path: string): string {
    OPEN + Line(NAME, name, Line(SHA, v, Line(PATH, path, "" + CLOSE)))
  }

  // ---- lines

  lemma FeedThen(z: string, name: string)
    ensures After("\n" + z, name) == First(z, name)
  {
    assert ("\n" + z)[1..] == z;
  }

  lemma LineField(name: string, v: string, z: string)
    requires IsFieldName(name) && IsPlain(v)
    ensures var s := Line(name, v, z); First(s, name) == FieldAt(s, name) == Some(Hit(v, "\n" + z)) && NextLine(s) == Some(z)
  {
    assert AllSpace(" ");
    TokenField(name, " ", " ", v, "\n" + z);
    TokenText(name, " ", " ", v, "\n" + z);
    LineThen(Token(name, " ", " ", v, ""), z);
  }

  lemma LineOther(name: string, v: string, z: string, other: string)
    requires IsFieldName(name) && IsFieldName(other) && name[0] != other[0] && IsPlain(v)
    ensures var s := Line(name, v, z); First(s, other) == First(z, other) && FieldAt(s, other) == None
  {
    assert AllSpace(" ");
    TokenOther(name, " ", " ", v, "\n" + z, other);
    TokenAfter(name, " ", " ", v, "\n" + z, other);
    FeedThen(z, other);
  }

  lemma OpenLine(z: string)
    ensures NextLine(OPEN + z) == Some(z)
  {
    assert (OPEN + z)[..|OPEN|] == OPEN && (OPEN + z)[|OPEN|..] == z;
    OpenIsLine(OPEN + z);
  }

  /** The opening line holds no field. */
  lemma AfterOpen(z: string, name: string)
    requires IsFieldName(name) && name[0] != OPEN[0]
    ensures First(OPEN + z, name) == First(z, name) && FieldAt(OPEN + z, name) == None
  {
    OpenLine(z);
    assert (OPEN + z)[0] == OPEN[0] && SkipSpace(OPEN + z) == OPEN + z;
  }

  lemma ClosedField(name: string)
    requires IsFieldName(name) && name[0] != ')'
    ensures First(CLOSE, name) == None && First("\n" + CLOSE, name) == None
  {
    assert CLOSE[1..] == "\n" && "\n"[1..] == "" && ("\n" + CLOSE)[1..] == CLOSE;
    assert NextLine(CLOSE) == Some("");
    assert SkipSpace(CLOSE) == CLOSE && SkipSpace("\n" + CLOSE) == CLOSE;
    assert First("", name) == None;
  }

  lemma PathLine(path: string, gap: string)
    requires IsPlain(path) && IsGap(gap)
    ensures var s := Line(PATH, path, gap + CLOSE);
            && PathHit(s) == First(s, PATH) == Some(Hit(path, "\n" + (gap + CLOSE)))
            && First(s, SHA) == None && First(gap + CLOSE, SHA) == None
  {
    var z := gap + CLOSE;
    NamesAreWords();
    LineField(PATH, path, z);
    LineOther(PATH, path, z, SHA);
    ClosedField(SHA);
    assert "" + CLOSE == CLOSE;
  }

  lemma NamedBlock(name: string, z: string)
    requires IsPlain(name)
    ensures var b := OPEN + Line(NAME, name, z);
            && StringField(b, NAME) == Some(name) && First(b, PATH) == First(z, PATH) && First(b, SHA) == First(z, SHA)
            && PathHit(b) == PathHit(z) && FirstHex(b) == FirstHex(z)
  {
    var s := Line(NAME, name, z);
    NamesAreWords();
    LineField(NAME, name, z);
    LineOther(NAME, name, z, PATH);
    LineOther(NAME, name, z, SHA);
    AfterOpen(s, NAME);
    AfterOpen(s, PATH);
    AfterOpen(s, SHA);
    OpenLine(s);
    assert PathHit(s) == PathHit(z) && FirstHex(s) == FirstHex(z);
  }

  // ---- the file as one part

  lemma LineText(name: string, v: string, z: string)
    ensures Line(name, v, z) == Line(name, v, "") + z
    ensures ')' !in name && ')' !in v ==> ')' !in Line(name, v, "")
  {
    var head := name + (" " + ("=" + (" " + ("\"" + (v + "\",\n")))));
    assert Line(name, v, z) == head + z && Line(name, v, "") == head;
  }

  lemma JoinPart(x: string, body: string)
    requires ')' !in x && ')' !in body && Spaced(body) && body[|body| - 1] == '\n'
    ensures var n := x + body; ')' !in n && Spaced(n) && n[|n| - 1] == '\n'
  {
  }

  lemma OnePart(body: string, b: string)
    requires ')' !in body && body != "" && body[|body| - 1] == '\n' && b == OPEN + (body + CLOSE)
    ensures Parts(b) == [Block(b)]
  {
    assert IsBody(body);
    assert CLOSE == LINE_END;
    PartsOfBlock(body, LINE_END, "");
    assert BlockText(body, LINE_END) == b && b + "" == b;
    assert Parts("") == [];
  }

  lemma OneEntry(r: Reader, b: string, m: Manifest, path: string, n: string)
    requires r.entry(b) && r.path(b) == Some(path) && m.Keys == {path} && r.write(b, m[path]) == Some(n)
    ensures Updated(r, [Block(b)], m).Some?
  {
    var parts := [Block(b)];
    assert parts[..0] == [];
    assert Paths(parts[..0], r.entry, r.path) == [];
    assert Paths(parts, r.entry, r.path) == [path];
  }

  /** What the update does with a file that is one block. */
  lemma OneBlock(b: string, path: string, version: string, c: string)
    requires Parts(b) == [Block(b)] && Selected(b, version) && PathOf(b) == Some(path) && PathHit(b).Some? && IsHex(c)
    ensures var m := map[path := c];
            var first := UpdateText(b, m, version);
            && first.Some? && (CheckText(first.value, m, version) <==> Sound(b))
            && UpdateText(first.value, m, version).Some? && (UpdateText(first.value, m, version) == first <==> Steady(b))
  {
    var m := map[path := c];
    InsertNeedsPath(b, c);
    OneEntry(BlockReader(version), b, m, path, WithSha(b, c).value);
    assert Parts(b)[0] == Block(b);
    UpdateThenCheck(b, m, version);
  }

  // ---- a blank line

  lemma TailDropsLine()
    ensures var rest := "\n" + ("\n" + CLOSE); Tail(rest) != rest
  {
    var rest := "\n" + ("\n" + CLOSE);
    assert rest[1..] == "\n" + CLOSE && ("\n" + CLOSE)[1..] == CLOSE;
    assert |Tail("\n" + CLOSE)| <= 3;
  }

  /** A module file that the update changes twice: every block of this form, whatever its
      name and path, passes the check after one update and loses the blank line in another. */
  lemma BlankLineLost(name: string, path: string, version: string, c: string)
    requires IsPlain(name) && IsPlain(path) && StartsWith(name, Prefix(version)) && IsHex(c)
    ensures var m := map[path := c];
            var first := UpdateText(BlankText(name, path), m, version);
            && first.Some? && CheckText(first.value, m, version)
            && UpdateText(first.value, m, version).Some? && UpdateText(first.value, m, version) != first
  {
    var b, z := BlankText(name, path), Line(PATH, path, "\n" + CLOSE);
    NamedBlock(name, z);
    PathLine(path, "\n");
    BlankPart(name, path);
    HexOrNoneIsSound(b);
    FirstIsHex(b);
    TailDropsLine();
    OneBlock(b, path, version, c);
  }

  lemma BlankPart(name: string, path: string)
    requires IsPlain(name) && IsPlain(path)
    ensures Parts(BlankText(name, path)) == [Block(BlankText(name, path))]
  {
    var z := Line(PATH, path, "\n" + CLOSE);
    LineText(NAME, name, z);
    LineText(PATH, path, "\n" + CLOSE);
    var l1, l2 := Line(NAME, name, ""), Line(PATH, path, "");
    JoinPart(l2, "\n");
    JoinPart(l1, l2 + "\n");
    assert l1 + (l2 + ("\n" + CLOSE)) == (l1 + (l2 + "\n")) + CLOSE;
    OnePart(l1 + (l2 + "\n"), BlankText(name, path));
  }

  lemma ExampleNames()
    ensures IsPlain("rusty_v8_1_2_3_a") && StartsWith("rusty_v8_1_2_3_a", Prefix("1.2.3"))
    ensures IsPlain("a.gz") && IsHex("00") && IsPlain("AB") && !IsHex("AB") && "AB"[0] != ','
  {
    assert Slug("1.2.3") == "1_2_3";
    assert Prefix("1.2.3") == "rusty_v8_1_2_3_";
    assert "AB"[0] == 'A';
  }

  /** One of these files. */
  lemma BlankLineExample()
    ensures var m := map["a.gz" := "00"];
            var first := UpdateText(BlankText("rusty_v8_1_2_3_a", "a.gz"), m, "1.2.3");
            && first.Some? && CheckText(first.value, m, "1.2.3")
            && UpdateText(first.value, m, "1.2.3").Some? && UpdateText(first.value, m, "1.2.3") != first
  {
    ExampleNames();
    BlankLineLost("rusty_v8_1_2_3_a", "a.gz", "1.2.3", "00");
  }

  // ---- a checksum that is not in lower-case hex

  /** A module file that the update does not repair: the new checksum is inserted after the
      path, and the one in front of it, which is not in lower-case hex, is still the one found. */
  lemma EarlyChecksumStays(name: string, v: string, path: string, version: string, c: string)
    requires IsPlain(name) && IsPlain(v) && v[0] != ',' && !IsHex(v) && IsPlain(path)
    requires StartsWith(name, Prefix(version)) && IsHex(c)
    ensures var m := map[path := c];
            var first := UpdateText(EarlyText(name, v, path), m, version);
            first.Some? && !CheckText(first.value, m, version)
  {
    var b, z, y := EarlyText(name, v, path), Line(PATH, path, "" + CLOSE), Line(SHA, v, Line(PATH, path, "" + CLOSE));
    NamesAreWords();
    NamedBlock(name, y);
    LineField(SHA, v, z);
    LineOther(SHA, v, z, PATH);
    PathLine(path, "");
    FirstIsHex(z);
    assert PathHit(y) == PathHit(z) && FirstHex(y) == FirstHex(z);
    SeenUpTo(b);
    FeedThen("" + CLOSE, SHA);
    assert ("\n" + ("" + CLOSE))[1..] == "" + CLOSE;
    EarlyPart(name, v, path);
    OneBlock(b, path, version, c);
  }

  lemma EarlyPart(name: string, v: string, path: string)
    requires IsPlain(name) && IsPlain(v) && IsPlain(path)
    ensures Parts(EarlyText(name, v, path)) == [Block(EarlyText(name, v, path))]
  {
    var z := Line(PATH, path, "" + CLOSE);
    var y := Line(SHA, v, z);
    LineText(NAME, name, y);
    LineText(SHA, v, z);
    LineText(PATH, path, "" + CLOSE);
    var l1, l2, l3 := Line(NAME, name, ""), Line(SHA, v, ""), Line(PATH, path, "");
    JoinPart(l2, l3);
    JoinPart(l1, l2 + l3);
    assert l1 + (l2 + (l3 + ("" + CLOSE))) == (l1 + (l2 + l3)) + CLOSE;
    OnePart(l1 + (l2 + l3), EarlyText(name, v, path));
  }

  /** One of these files. */
  lemma EarlyChecksumExample()
    ensures var m := map["a.gz" := "00"];
            var first := UpdateText(EarlyText("rusty_v8_1_2_3_a", "AB", "a.gz"), m, "1.2.3");
            first.Some? && !CheckText(first.value, m, "1.2.3")
  {
    ExampleNames();
    EarlyChecksumStays("rusty_v8_1_2_3_a", "AB", "a.gz", "1.2.3", "00");
  }
}
