/** Updating and checking the checksums of a Bazel module file. */
module BazelModule {
  import opened Text
  import opened BazelFields
  import opened BazelTokens
  import opened BazelSha
  import opened BazelInsert
  import opened BazelBlocks

  // ---- a block stays a block

  /** The name, if any, does not start with a comma. */
  predicate Named(b: string) {
    StringField(b, NAME).Some? ==> StringField(b, NAME).value != "" && StringField(b, NAME).value[0] != ','
  }

  /** Where the written checksum is the one found afterwards: if there are checksums in
      lower-case hex, the first checksum is one, and otherwise none is seen up to the path. */
  predicate Sound(b: string) {
    if FirstHex(b).Some? then StringField(b, SHA).Some? && IsHex(StringField(b, SHA).value)
    else Seen(UpToPath(b), SHA) == None
  }

  /** A checksum is replaced, or no blank line follows the path it is inserted after. */
  predicate Steady(b: string) {
    FirstHex(b).Some? || (PathHit(b).Some? ==> Tail(PathHit(b).value.rest) == PathHit(b).value.rest)
  }

  lemma CommonStart(x: string, a: string, y: string, z: string)
    requires x + a == y + z && |y| <= |x|
    ensures x == y + x[|y|..] && z == x[|y|..] + a
  {
    var s := x + a;
    assert x == s[..|x|] && y == s[..|y|];
    assert z == s[|y|..];
  }

  /** An indented text in front of something else holds the whole first line. */
  lemma HoldsFirstLine(x: string, a: string, h: string, t: string)
    requires x + a == h + t && Indented(x) && a != "" && '\n' !in h && h != "" && !IsPySpace(h[0]) && a[0] != h[0]
    ensures |x| > |h|
  {
    assert (x + a)[0] == (h + t)[0] == h[0];
    if |x| <= |h| {
      CommonStart(h, t, x, a);
      assert forall c | c in x :: c in h;
      NoNextLine(x);
    }
  }

  lemma AfterHead(x: string, a: string, h: string, line: string, z: string)
    requires x + a == line + z && line == h + "\n" && Indented(x) && a != ""
    requires '\n' !in h && h != "" && !IsPySpace(h[0]) && a[0] != h[0]
    ensures |x| >= |line| && x == line + x[|line|..] && z == x[|line|..] + a
  {
    Associative(h, "\n", z);
    HoldsFirstLine(x, a, h, "\n" + z);
    CommonStart(x, a, line, z);
  }

  lemma OpenHead() returns (h: string)
    ensures OPEN == h + "\n" && '\n' !in h && h != "" && h[0] == OPEN[0] && !IsPySpace(h[0])
  {
    h := "http_file(";
  }

  /** The fields of a block come after its opening line. */
  lemma AfterOpening(x: string, a: string, z: string)
    requires x + a == OPEN + z && Indented(x) && a != "" && a[0] != OPEN[0]
    ensures |x| >= |OPEN| && x == OPEN + x[|OPEN|..] && z == x[|OPEN|..] + a
  {
    var h := OpenHead();
    AfterHead(x, a, h, OPEN, z);
  }

  predicate IsEnding(end: string) {
    end == LINE_END || end == PLAIN_END
  }

  lemma RestHasEnd(p: string, rest: string, body: string, end: string) returns (r: string)
    requires p != "" && p[|p| - 1] == ',' && p + rest == body + end && IsEnding(end)
    ensures rest == r + end && body == p + r
  {
    var all := p + rest;
    assert all[|p| - 1] == ',' && all[|body|] == ')';
    assert |body| + 1 < |all| ==> all[|body| + 1] == '\n';
    r := rest[..|rest| - |end|];
    assert rest == all[|p|..] && end == all[|body|..];
    assert body == all[..|body|];
  }

  /** Lines without a parenthesis in place of other lines. */
  lemma BodySwap(q: string, m: string, m2: string, d: string, t: string)
    requires IsBody(q + (m + (d + t))) && ')' !in m2 && t != "" && t[0] != ')'
    ensures IsBody(q + (m2 + t))
  {
    var s, n := q + (m + (d + t)), q + (m2 + t);
    assert n[|n| - 1] == t[|t| - 1] == s[|s| - 1];
    assert forall j | 0 <= j < |m2| :: n[|q| + j] == m2[j];
    forall i | 0 <= i < |n| && n[i] == ')'
      ensures i > 0 && n[i - 1] != '\n'
    {
      if i < |q| {
        assert s[i] == ')';
        assert i > 0 ==> n[i - 1] == q[i - 1] == s[i - 1];
      } else if i >= |q| + |m2| {
        var j := i - |q| - |m2|;
        assert t[j] == ')' && s[|s| - |t| + j] == ')';
        assert n[i - 1] == t[j - 1] == s[|s| - |t| + j - 1];
      }
    }
  }

  lemma {:induction false} TailSplit(r: string, e: string) returns (d: string, t: string)
    requires e != "" && !IsPySpace(e[0]) && EndsLine(r + e)
    ensures r == d + t && Tail(r + e) == t + e && t != "" && IsPySpace(t[0])
  {
    assert r == "" ==> r + e == e;
    assert (r + e)[1..] == r[1..] + e;
    if EndsLine(r[1..] + e) {
      d, t := TailSplit(r[1..], e);
      d := [r[0]] + d;
    } else {
      d, t := "", r;
    }
  }

  lemma ShaParts(c: string, rest: string)
    requires IsHex(c)
    ensures Sha(c, rest) == Sha(c, "") + rest && ')' !in Sha(c, "")
  {
    assert ')' !in c;
  }

  lemma TokenText(name: string, w1: string, w2: string, v: string, rest: string)
    ensures var m := Token(name, w1, w2, v, ""); Token(name, w1, w2, v, rest) == m + rest && m[|m| - 1] == ','
  {
    var m := name + (w1 + ("=" + (w2 + ("\"" + (v + "\",")))));
    assert Token(name, w1, w2, v, "") == m && Token(name, w1, w2, v, rest) == m + rest;
  }

  /** Replacing a field of a body, up to its comma, and dropping blank lines after it. */
  lemma SwapInBody(q: string, m: string, rest: string, body: string, end: string, m2: string) returns (body2: string)
    requires body + end == q + (m + rest) && IsBody(body) && IsEnding(end)
    requires m != "" && m[|m| - 1] == ',' && ')' !in m2 && EndsLine(rest)
    ensures IsBody(body2) && body2 + end == q + (m2 + Tail(rest))
  {
    assert q + (m + rest) == (q + m) + rest;
    var r := RestHasEnd(q + m, rest, body, end);
    var d, t := TailSplit(r, end);
    assert (q + m) + r == q + (m + (d + t));
    BodySwap(q, m, m2, d, t);
    body2 := q + (m2 + t);
    assert q + (m2 + (t + end)) == body2 + end;
  }

  /** Adding text after a field of a body. */
  lemma AddToBody(p: string, rest: string, body: string, end: string, m2: string) returns (body2: string)
    requires body + end == p + rest && IsBody(body) && IsEnding(end)
    requires p != "" && p[|p| - 1] == ',' && ')' !in m2 && rest != "" && rest[0] == '\n'
    ensures IsBody(body2) && body2 + end == p + (m2 + rest)
  {
    var r := RestHasEnd(p, rest, body, end);
    assert rest[0] == (r + end)[0];
    assert p + r == p + ("" + ("" + r));
    BodySwap(p, "", m2, "", r);
    body2 := p + (m2 + r);
    assert p + (m2 + (r + end)) == body2 + end;
  }

  lemma ReplacedStays(body: string, end: string, c: string) returns (body2: string)
    requires IsBody(body) && IsEnding(end) && IsHex(c)
    requires FirstHex(BlockText(body, end)).Some?
    ensures IsBody(body2) && Rewrite(BlockText(body, end), c) == Some(BlockText(body2, end))
  {
    var b := BlockText(body, end);
    var x, a := HexSplit(b);
    RewriteAt(x, a, c);
    HexClearIndented(x, a);
    body2 := ShaInBody(x, a, body, end, c);
  }

  lemma ShaInBody(x: string, a: string, body: string, end: string, c: string) returns (body2: string)
    requires IsBody(body) && IsEnding(end) && IsHex(c) && Indented(x) && Splits(BlockText(body, end), x, a)
    requires Field(a, SHA).Some?
    ensures IsBody(body2) && x + Sha(c, Tail(Field(a, SHA).value.rest)) == BlockText(body2, end)
  {
    var h := Field(a, SHA).value;
    var w1, w2 := TokenParts(a, SHA);
    TokenText(SHA, w1, w2, h.value, h.rest);
    assert a[0] == SHA[0] && SHA[0] != OPEN[0];
    AfterOpening(x, a, body + end);
    ShaParts(c, Tail(h.rest));
    var q := x[|OPEN|..];
    body2 := SwapInBody(q, Token(SHA, w1, w2, h.value, ""), h.rest, body, end, Sha(c, ""));
    Associative(OPEN, q, Sha(c, Tail(h.rest)));
  }

  lemma InsertedStays(body: string, end: string, c: string) returns (body2: string)
    requires IsBody(body) && IsEnding(end) && IsHex(c) && PathHit(BlockText(body, end)).Some?
    ensures IsBody(body2) && Insert(BlockText(body, end), c) == Some(BlockText(body2, end))
  {
    var b := BlockText(body, end);
    var x, a, indent := PathSplit(b, c);
    body2 := PathInBody(x, a, body, end, c, indent);
  }

  lemma AddedParts(indent: string, c: string, rest: string)
    requires AllSpace(indent) && IsHex(c)
    ensures Added(indent, c, rest) == Added(indent, c, "") + rest && ')' !in Added(indent, c, "")
  {
    ShaParts(c, rest);
    assert ')' !in indent;
  }

  lemma PathInBody(x: string, a: string, body: string, end: string, c: string, indent: string) returns (body2: string)
    requires IsBody(body) && IsEnding(end) && IsHex(c) && Indented(x) && Splits(BlockText(body, end), x, a)
    requires EndsAtOnce(FieldAt(a, PATH)) && AllSpace(indent) && |FieldAt(a, PATH).value.rest| <= |a|
    ensures IsBody(body2) && x + Extended(a, FieldAt(a, PATH).value.rest, indent, c) == BlockText(body2, end)
  {
    var h := FieldAt(a, PATH).value;
    var w1, w2 := TokenParts(a, PATH);
    ExtendedToken(w1, w2, h.value, h.rest, indent, c);
    TokenText(PATH, w1, w2, h.value, h.rest);
    TokenText(PATH, w1, w2, h.value, Added(indent, c, h.rest));
    assert a[0] == PATH[0] && PATH[0] != OPEN[0];
    AfterOpening(x, a, body + end);
    AddedParts(indent, c, h.rest);
    var q, m := x[|OPEN|..], Token(PATH, w1, w2, h.value, "");
    Associative(q, m, h.rest);
    body2 := AddToBody(q + m, h.rest, body, end, Added(indent, c, ""));
    Associative(q, m, Added(indent, c, h.rest));
    Associative(OPEN, q, m + Added(indent, c, h.rest));
  }

  // ---- writing a checksum into a block

  /** Writing a checksum: it is found exactly if the block is sound, the other fields keep
      their values, and writing it once more changes nothing exactly when the block is steady. */
  lemma WithShaWorks(b: string, c: string)
    requires Named(b) && IsHex(c) && WithSha(b, c).Some?
    ensures var n := WithSha(b, c).value;
            && (StringField(n, SHA) == Some(c) <==> Sound(b))
            && StringField(n, NAME) == StringField(b, NAME) && StringField(n, PATH) == StringField(b, PATH)
            && WithSha(n, c).Some? && (WithSha(n, c) == Some(n) <==> Steady(b))
  {
    RewriteNeedsHex(b, c);
    if FirstHex(b).Some? {
      Replaced(b, c);
    } else {
      InsertNeedsPath(b, c);
      Inserted(b, c);
    }
  }

  /** A block without a checksum, or whose first one is in lower-case hex, is sound. */
  lemma HexOrNoneIsSound(b: string)
    requires StringField(b, SHA).Some? ==> IsHex(StringField(b, SHA).value)
    ensures Sound(b)
  {
    FirstIsHex(b);
    if First(b, SHA) == None && PathHit(b).Some? {
      SeenUpTo(b);
    }
  }

  lemma {:induction false} FirstIsHex(s: string)
    ensures First(s, SHA).Some? && IsHex(First(s, SHA).value.value) ==> FirstHex(s) == First(s, SHA)
    ensures First(s, SHA) == None ==> FirstHex(s) == None
    decreases |s|
  {
    if Field(s, SHA).None? && NextLine(s).Some? {
      NextLineShorter(s);
      FirstIsHex(NextLine(s).value);
      assert First(s, SHA) == First(NextLine(s).value, SHA);
    }
  }

  lemma WithShaStays(body: string, end: string, c: string) returns (body2: string)
    requires IsBody(body) && IsEnding(end) && IsHex(c) && WithSha(BlockText(body, end), c).Some?
    ensures IsBody(body2) && WithSha(BlockText(body, end), c) == Some(BlockText(body2, end))
  {
    var b := BlockText(body, end);
    RewriteNeedsHex(b, c);
    if FirstHex(b).Some? {
      body2 := ReplacedStays(body, end, c);
    } else {
      InsertNeedsPath(b, c);
      body2 := InsertedStays(body, end, c);
    }
  }

  ghost predicate IsBlockText(b: string) {
    exists body, end :: IsBody(body) && IsEnding(end) && b == BlockText(body, end)
  }

  ghost predicate BlocksOnly(parts: seq<Part>) {
    forall i | 0 <= i < |parts| && parts[i].Block? :: IsBlockText(parts[i].text)
  }

  lemma OneMoreBlock(body: string, end: string, parts: seq<Part>)
    requires IsBody(body) && IsEnding(end) && BlocksOnly(parts)
    ensures BlocksOnly([Block(BlockText(body, end))] + parts)
  {
    assert IsBlockText(BlockText(body, end));
  }

  lemma {:induction false} PartsAreBlocks(s: string)
    ensures BlocksOnly(Parts(s))
    decreases |s|, 1
  {
    if Opened(s).None? {
      SkipIsBlocks(s);
    } else {
      var cut := Opened(s).value;
      CloseShorter(s[|OPEN|..]);
      CloseExact(s[|OPEN|..]);
      if cut.rest != "" && cut.rest[0] == '\n' {
        PartsAreBlocks(cut.rest[1..]);
        OneMoreBlock(cut.head, LINE_END, Parts(cut.rest[1..]));
      } else {
        SkipIsBlocks(cut.rest);
        OneMoreBlock(cut.head, PLAIN_END, Skip(cut.rest));
      }
    }
  }

  lemma {:induction false} SkipIsBlocks(s: string)
    ensures BlocksOnly(Skip(s))
    decreases |s|, 0
  {
    if s != "" && NextLine(s).Some? {
      NextLineShorter(s);
      PartsAreBlocks(NextLine(s).value);
    }
  }
}
