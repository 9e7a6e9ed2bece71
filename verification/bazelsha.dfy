/** Writing a checksum into one `http_file` block. */
module BazelSha {
  import opened Text
  import opened BazelFields
  import opened BazelTokens

  predicate IsHex(s: string) {
    s != "" && forall i | 0 <= i < |s| :: '0' <= s[i] <= '9' || 'a' <= s[i] <= 'f'
  }

  function Leading(s: string): string {
    if s != "" && IsPySpace(s[0]) then [s[0]] + Leading(s[1..]) else ""
  }

  function LineOf(s: string): string {
    if s == "" then "" else if s[0] == '\n' then "\n" else [s[0]] + LineOf(s[1..])
  }

  /** What is left after the longest white space that reaches the end of a line. */
  function Tail(s: string): string {
    if s != "" && IsPySpace(s[0]) && EndsLine(s[1..]) then Tail(s[1..]) else s
  }

  /** The new line, with what follows it. */
  function Sha(c: string, rest: string): string {
    Token(SHA, " ", " ", c, rest)
  }

  /** A checksum in lower-case hex, which is all the rewriter replaces. */
  predicate HexField(s: string) {
    Field(s, SHA).Some? && IsHex(Field(s, SHA).value.value)
  }

  /** The first such checksum. */
  function FirstHex(s: string): Option<Hit>
    decreases |s|
  {
    if HexField(s) then Field(s, SHA)
    else match NextLine(s)
      case None => None
      case Some(r) => (NextLineShorter(s); FirstHex(r))
  }

  /** The first such checksum replaced; `None` where there is none. */
  function Rewrite(s: string, c: string): Option<string>
    decreases |s|
  {
    if HexField(s) then Some(Leading(s) + Sha(c, Tail(Field(s, SHA).value.rest)))
    else match NextLine(s)
      case None => None
      case Some(r) =>
        NextLineShorter(s);
        match Rewrite(r, c)
        case None => None
        case Some(x) => Some(LineOf(s) + x)
  }

  predicate EndsAtOnce(h: Option<Hit>) {
    h.Some? && h.value.rest != "" && h.value.rest[0] == '\n'
  }

  /** The path line after which a checksum is inserted. */
  function PathHit(s: string): Option<Hit>
    decreases |s|
  {
    var h := FieldAt(s, PATH);
    if EndsAtOnce(h) then h
    else match NextLine(s)
      case None => None
      case Some(r) => (NextLineShorter(s); PathHit(r))
  }

  lemma FieldShorter(s: string, name: string)
    requires FieldAt(s, name).Some?
    ensures |FieldAt(s, name).value.rest| <= |s|
  {
  }

  lemma {:induction false} PathShorter(s: string)
    requires PathHit(s).Some?
    ensures |PathHit(s).value.rest| <= |s|
    decreases |s|
  {
    if EndsAtOnce(FieldAt(s, PATH)) {
      FieldShorter(s, PATH);
    } else {
      NextLineShorter(s);
      PathShorter(NextLine(s).value);
    }
  }

  /** The text up to the comma of that path line. */
  function UpToPath(s: string): string {
    match PathHit(s)
    case None => ""
    case Some(h) => (PathShorter(s); s[..|s| - |h.rest|])
  }

  /** A checksum line inserted after the path line, with the same indentation. */
  function Insert(s: string, c: string): Option<string>
    decreases |s|
  {
    var h := FieldAt(s, PATH);
    if EndsAtOnce(h) then
      FieldShorter(s, PATH);
      var rest := h.value.rest;
      Some(s[..|s| - |rest|] + ("\n" + (Leading(s) + Sha(c, rest))))
    else match NextLine(s)
      case None => None
      case Some(r) =>
        NextLineShorter(s);
        match Insert(r, c)
        case None => None
        case Some(x) => Some(LineOf(s) + x)
  }

  /** `None` where the source raises. */
  function WithSha(block: string, c: string): Option<string> {
    if Rewrite(block, c).Some? then Rewrite(block, c) else Insert(block, c)
  }

  // ---- taking a text apart

  lemma AllSpaceMore(c: char, w: string)
    requires IsPySpace(c) && AllSpace(w)
    ensures AllSpace([c] + w)
  {
  }

  lemma {:induction false} LeadingSplit(s: string)
    ensures s == Leading(s) + SkipSpace(s) && AllSpace(Leading(s))
  {
    if s != "" && IsPySpace(s[0]) {
      var c, t := s[0], s[1..];
      LeadingSplit(t);
      AllSpaceMore(c, Leading(t));
      assert s == [c] + t;
      assert [c] + (Leading(t) + SkipSpace(t)) == ([c] + Leading(t)) + SkipSpace(t);
    } else {
      assert "" + s == s;
    }
  }

  lemma {:induction false} LineSplit(s: string)
    requires NextLine(s).Some?
    ensures s == LineOf(s) + NextLine(s).value
    ensures NextLine(LineOf(s)) == Some("")
  {
    if s[0] == '\n' {
      assert s == "\n" + s[1..] && "\n"[1..] == "";
    } else {
      LineSplit(s[1..]);
      assert s == [s[0]] + s[1..];
      assert LineOf(s)[1..] == LineOf(s[1..]);
    }
  }

  lemma {:induction false} LineOfConcat(x: string, a: string)
    requires NextLine(x).Some?
    ensures LineOf(x + a) == LineOf(x)
  {
    if x[0] != '\n' {
      assert (x + a)[1..] == x[1..] + a;
      LineOfConcat(x[1..], a);
    }
  }

  lemma {:induction false} SpaceConcat(x: string, a: string)
    requires AllSpace(x) && a != "" && !IsPySpace(a[0])
    ensures Leading(x + a) == x
  {
    if x == "" {
      assert x + a == a;
    } else {
      assert (x + a)[1..] == x[1..] + a;
      SpaceConcat(x[1..], a);
      assert x == [x[0]] + x[1..];
    }
  }

  lemma QuotedParts(s: string)
    requires AfterQuote(s).Some?
    ensures var h := AfterQuote(s).value; h.value != "" && '"' !in h.value && s == h.value + ("\"," + h.rest)
  {
    var q := UntilQuote(s);
    assert q.rest == "\"," + q.rest[2..];
    HeadHasNoQuote(s);
  }

  lemma {:induction false} HeadHasNoQuote(s: string)
    ensures '"' !in UntilQuote(s).head
  {
    if s != "" && s[0] != '"' {
      HeadHasNoQuote(s[1..]);
    }
  }

  lemma CharParts(s: string, c: char) returns (w: string)
    requires AfterChar(s, c).Some?
    ensures AllSpace(w) && s == w + ([c] + AfterChar(s, c).value)
  {
    LeadingSplit(s);
    w := Leading(s);
    assert SkipSpace(s) == [c] + AfterChar(s, c).value;
  }

  /** A field without leading white space is a token. */
  lemma TokenParts(a: string, name: string) returns (w1: string, w2: string)
    requires SkipSpace(a) == a && FieldAt(a, name).Some?
    ensures var h := FieldAt(a, name).value;
            && AllSpace(w1) && AllSpace(w2) && h.value != "" && '"' !in h.value
            && a == Token(name, w1, w2, h.value, h.rest)
  {
    var t := a[|name|..];
    w1 := CharParts(t, '=');
    var u := AfterChar(t, '=').value;
    w2 := CharParts(u, '"');
    QuotedParts(AfterChar(u, '"').value);
    assert a == name + t;
  }

  lemma {:induction false} SkipSpaceTwice(s: string)
    ensures SkipSpace(SkipSpace(s)) == SkipSpace(s)
  {
    if s != "" && IsPySpace(s[0]) {
      SkipSpaceTwice(s[1..]);
    }
  }

  lemma HexIsValue(v: string)
    requires IsHex(v)
    ensures IsValue(v)
  {
  }

  /** A text in front of a field: `s == x + a`, and `a` starts with the field. */
  predicate Splits(s: string, x: string, a: string) {
    s == x + a && SkipSpace(a) == a
  }

  lemma LeadingSplits(s: string)
    ensures Splits(s, Leading(s), SkipSpace(s)) && AllSpace(Leading(s))
  {
    LeadingSplit(s);
    SkipSpaceTwice(s);
  }

  lemma LineSplits(s: string, y: string, a: string)
    requires NextLine(s).Some? && Splits(NextLine(s).value, y, a)
    ensures Splits(s, LineOf(s) + y, a) && NextLine(LineOf(s) + y) == Some(y)
  {
    LineSplit(s);
    NextLineConcat(LineOf(s), y);
    assert "" + y == y;
    assert LineOf(s) + (y + a) == LineOf(s) + y + a;
  }

  lemma FieldLeading(s: string, name: string)
    ensures FieldAt(SkipSpace(s), name) == FieldAt(s, name)
  {
    SkipSpaceTwice(s);
  }

  /** No line of `x` starts a checksum in lower-case hex when `a` follows. */
  predicate HexClear(x: string, a: string)
    decreases |x|
  {
    AllSpace(x) || (!HexField(x + a) && NextLine(x).Some? && (NextLineShorter(x); HexClear(NextLine(x).value, a)))
  }

  lemma {:induction false} HexClearIndented(x: string, a: string)
    requires HexClear(x, a)
    ensures Indented(x)
    decreases |x|
  {
    if !AllSpace(x) {
      NextLineShorter(x);
      HexClearIndented(NextLine(x).value, a);
    }
  }

  /** The first checksum in lower-case hex, with the text in front of it. */
  lemma {:induction false} HexSplit(s: string) returns (x: string, a: string)
    requires FirstHex(s).Some?
    ensures Splits(s, x, a) && HexField(a) && HexClear(x, a)
    decreases |s|
  {
    if HexField(s) {
      x, a := Leading(s), SkipSpace(s);
      LeadingSplits(s);
      FieldLeading(s, SHA);
    } else {
      NextLineShorter(s);
      var y;
      y, a := HexSplit(NextLine(s).value);
      x := LineOf(s) + y;
      LineSplits(s, y, a);
    }
  }

  /** The token `a` with a checksum line put before its `rest`. */
  function Extended(a: string, rest: string, indent: string, c: string): string
    requires |rest| <= |a|
  {
    a[..|a| - |rest|] + ("\n" + (indent + Sha(c, rest)))
  }

  lemma ExtendedAfter(x: string, a: string, rest: string, indent: string, c: string)
    requires |rest| <= |a|
    ensures Extended(x + a, rest, indent, c) == x + Extended(a, rest, indent, c)
  {
    assert (x + a)[..|x + a| - |rest|] == x + a[..|a| - |rest|];
  }

  lemma InsertHere(s: string, c: string)
    requires EndsAtOnce(FieldAt(s, PATH))
    ensures var rest := FieldAt(s, PATH).value.rest;
            |rest| <= |s| && Insert(s, c) == Some(Extended(s, rest, Leading(s), c))
  {
    FieldShorter(s, PATH);
  }

  lemma InsertNext(s: string, c: string, z: string)
    requires !EndsAtOnce(FieldAt(s, PATH)) && NextLine(s).Some? && Insert(NextLine(s).value, c) == Some(z)
    ensures Insert(s, c) == Some(LineOf(s) + z)
  {
  }

  /** The path field after which `Insert` inserts, with the text in front of it. */
  lemma {:induction false} PathSplit(s: string, c: string) returns (x: string, a: string, indent: string)
    requires PathHit(s).Some?
    ensures Splits(s, x, a) && FieldAt(a, PATH) == PathHit(s) && EndsAtOnce(PathHit(s)) && Indented(x)
    ensures AllSpace(indent) && |PathHit(s).value.rest| <= |a|
    ensures Insert(s, c) == Some(x + Extended(a, PathHit(s).value.rest, indent, c))
    decreases |s|
  {
    if EndsAtOnce(FieldAt(s, PATH)) {
      x, a, indent := Leading(s), SkipSpace(s), Leading(s);
      LeadingSplits(s);
      FieldLeading(s, PATH);
      FieldShorter(a, PATH);
      InsertHere(s, c);
      ExtendedAfter(x, a, PathHit(s).value.rest, indent, c);
    } else {
      NextLineShorter(s);
      var y;
      y, a, indent := PathSplit(NextLine(s).value, c);
      x := LineOf(s) + y;
      LineSplits(s, y, a);
      NextPath(s, c, y, Extended(a, PathHit(s).value.rest, indent, c));
    }
  }

  lemma NextPath(s: string, c: string, y: string, e: string)
    requires !EndsAtOnce(FieldAt(s, PATH)) && NextLine(s).Some? && Insert(NextLine(s).value, c) == Some(y + e)
    ensures Insert(s, c) == Some((LineOf(s) + y) + e)
  {
    InsertNext(s, c, y + e);
    assert LineOf(s) + (y + e) == (LineOf(s) + y) + e;
  }

  lemma RewriteHere(x: string, a: string, c: string)
    requires AllSpace(x) && a != "" && !IsPySpace(a[0])
    requires HexField(a)
    ensures Rewrite(x + a, c) == Some(x + Sha(c, Tail(Field(a, SHA).value.rest)))
  {
    FieldAfterSpace(x, a, SHA);
    SpaceConcat(x, a);
  }

  lemma RewriteLine(s: string, c: string, z: string)
    requires !HexField(s) && NextLine(s).Some? && Rewrite(NextLine(s).value, c) == Some(z)
    ensures Rewrite(s, c) == Some(LineOf(s) + z)
  {
  }

  lemma LineThenRest(x: string, e: string)
    requires NextLine(x).Some?
    ensures LineOf(x) + (NextLine(x).value + e) == x + e
  {
    LineSplit(x);
    assert LineOf(x) + (NextLine(x).value + e) == (LineOf(x) + NextLine(x).value) + e;
  }

  lemma RewriteNext(x: string, a: string, c: string, e: string)
    requires !HexField(x + a) && NextLine(x).Some? && Rewrite(NextLine(x).value + a, c) == Some(NextLine(x).value + e)
    ensures Rewrite(x + a, c) == Some(x + e)
  {
    NextLineConcat(x, a);
    RewriteLine(x + a, c, NextLine(x).value + e);
    LineOfConcat(x, a);
    LineThenRest(x, e);
  }

  /** What `Rewrite` does where there is a checksum in lower-case hex. */
  lemma {:induction false} RewriteAt(x: string, a: string, c: string)
    requires HexClear(x, a) && HexField(a) && a != "" && !IsPySpace(a[0])
    ensures Rewrite(x + a, c) == Some(x + Sha(c, Tail(Field(a, SHA).value.rest)))
    decreases |x|
  {
    if AllSpace(x) {
      RewriteHere(x, a, c);
    } else {
      NextLineShorter(x);
      RewriteAt(NextLine(x).value, a, c);
      RewriteNext(x, a, c, Sha(c, Tail(Field(a, SHA).value.rest)));
    }
  }

  lemma {:induction false} RewriteNeedsHex(s: string, c: string)
    ensures Rewrite(s, c).Some? <==> FirstHex(s).Some?
    decreases |s|
  {
    if !HexField(s) && NextLine(s).Some? {
      NextLineShorter(s);
      RewriteNeedsHex(NextLine(s).value, c);
    }
  }

  lemma {:induction false} InsertNeedsPath(s: string, c: string)
    ensures Insert(s, c).Some? <==> PathHit(s).Some?
    decreases |s|
  {
    if !EndsAtOnce(FieldAt(s, PATH)) && NextLine(s).Some? {
      NextLineShorter(s);
      InsertNeedsPath(NextLine(s).value, c);
    }
  }

  // ---- the tail of a line

  lemma {:induction false} TailEndsLine(s: string)
    requires EndsLine(s)
    ensures EndsLine(Tail(s)) && Tail(Tail(s)) == Tail(s)
  {
    if s != "" && IsPySpace(s[0]) && EndsLine(s[1..]) {
      TailEndsLine(s[1..]);
    }
  }

  lemma {:induction false} FirstOfBlank(s: string, name: string)
    requires EndsLine(s) && IsWord(name)
    ensures First(s, name) == After(s, name)
  {
    if s != "" {
      assert SkipSpace(s) == SkipSpace(s[1..]);
      if s[0] != '\n' {
        FirstOfBlank(s[1..], name);
      }
    }
  }

  /** The blank lines that the rewriter drops hold no field. */
  lemma {:induction false} AfterTail(s: string, name: string)
    requires EndsLine(s) && IsWord(name)
    ensures After(Tail(s), name) == After(s, name)
  {
    if s != "" && IsPySpace(s[0]) && EndsLine(s[1..]) {
      AfterTail(s[1..], name);
      if s[0] == '\n' {
        FirstOfBlank(s[1..], name);
      }
    }
  }

  // ---- the fields of the new block

  lemma NamesAreWords()
    ensures IsFieldName(NAME) && IsFieldName(PATH) && IsFieldName(SHA)
    ensures NAME[0] != SHA[0] && PATH[0] != SHA[0] && NAME[0] != PATH[0]
  {
  }

  lemma ShaToken(c: string, rest: string)
    requires IsHex(c) && EndsLine(rest)
    ensures Barrier(Sha(c, rest)) && Field(Sha(c, rest), SHA) == Some(Hit(c, rest))
  {
    HexIsValue(c);
    NamesAreWords();
    assert AllSpace(" ");
    TokenBarrier(SHA, " ", " ", c, rest);
    TokenField(SHA, " ", " ", c, rest);
  }

  lemma ShaTokenOther(w1: string, w2: string, v: string, rest: string, name: string)
    requires AllSpace(w1) && AllSpace(w2) && IsHex(v) && IsFieldName(name) && name[0] != SHA[0]
    ensures First(Token(SHA, w1, w2, v, rest), name) == After(rest, name)
  {
    HexIsValue(v);
    NamesAreWords();
    TokenOther(SHA, w1, w2, v, rest, name);
    TokenAfter(SHA, w1, w2, v, rest, name);
  }

  /** Both the old and the new checksum field are barriers, with the same other fields. */
  lemma ShaSwap(a: string, c: string, name: string)
    requires SkipSpace(a) == a && HexField(a) && IsHex(c)
    requires IsFieldName(name) && name[0] != SHA[0]
    ensures var b := Sha(c, Tail(Field(a, SHA).value.rest));
            Barrier(a) && Barrier(b) && First(a, name) == First(b, name)
  {
    var h := Field(a, SHA).value;
    var w1, w2 := TokenParts(a, SHA);
    HexIsValue(h.value);
    NamesAreWords();
    TokenBarrier(SHA, w1, w2, h.value, h.rest);
    ShaTokenOther(w1, w2, h.value, h.rest, name);
    TailEndsLine(h.rest);
    ShaToken(c, Tail(h.rest));
    assert AllSpace(" ");
    ShaTokenOther(" ", " ", c, Tail(h.rest), name);
    AfterTail(h.rest, name);
  }

  /** Exchanging the first checksum in lower-case hex for another: a checksum in front of it
      is still the first, and otherwise the new one is. */
  lemma {:induction false} HexSwap(x: string, a: string, b: string)
    requires HexClear(x, a) && HexField(a) && HexField(b) && Barrier(a) && Barrier(b) && IsWord(SHA)
    ensures HexClear(x, b) && StringField(x + a, SHA).Some?
    ensures var v := StringField(x + a, SHA);
            StringField(x + b, SHA) == if IsHex(v.value) then StringField(b, SHA) else v
    decreases |x|
  {
    if AllSpace(x) {
      FirstAfterSpace(x, a, SHA);
      FirstAfterSpace(x, b, SHA);
    } else {
      HexClearIndented(x, a);
      FieldSame(x, a, b, SHA);
      FirstInLine(x, a, SHA);
      FirstInLine(x, b, SHA);
      NextLineShorter(x);
      HexSwap(NextLine(x).value, a, b);
    }
  }

  /** Replacing a checksum: the new one is found exactly if the first one was in lower-case
      hex, the other fields keep their values, and replacing it again changes nothing. */
  lemma Replaced(s: string, c: string)
    requires FirstHex(s).Some? && IsHex(c)
    ensures Rewrite(s, c).Some? && StringField(s, SHA).Some?
    ensures var n := Rewrite(s, c).value;
            && StringField(n, SHA) == (if IsHex(StringField(s, SHA).value) then Some(c) else StringField(s, SHA))
            && Rewrite(n, c) == Some(n)
            && StringField(n, NAME) == StringField(s, NAME) && StringField(n, PATH) == StringField(s, PATH)
  {
    var x, a := HexSplit(s);
    var rest := Field(a, SHA).value.rest;
    var b := Sha(c, Tail(rest));
    RewriteAt(x, a, c);
    NamesAreWords();
    ShaSwap(a, c, NAME);
    ShaSwap(a, c, PATH);
    TailEndsLine(rest);
    ShaToken(c, Tail(rest));
    HexSwap(x, a, b);
    HexClearIndented(x, a);
    SameValue(x, a, b, NAME);
    SameValue(x, a, b, PATH);
    RewriteAt(x, b, c);
  }

  // ---- inserting a checksum

  /** The text put after a path line. */
  function Added(indent: string, c: string, rest: string): string {
    "\n" + (indent + Sha(c, rest))
  }

  lemma ExtendedToken(w1: string, w2: string, v: string, rest: string, indent: string, c: string)
    ensures var a := Token(PATH, w1, w2, v, rest);
            |rest| <= |a| && Extended(a, rest, indent, c) == Token(PATH, w1, w2, v, Added(indent, c, rest))
  {
    var head := PATH + (w1 + ("=" + (w2 + ("\"" + (v + "\",")))));
    assert Token(PATH, w1, w2, v, rest) == head + rest;
    assert Token(PATH, w1, w2, v, Added(indent, c, rest)) == head + Added(indent, c, rest);
  }

  lemma SameRest(y: string, c: string, r: string, t: string)
    ensures y + Sha(c, r) == y + Sha(c, t) <==> r == t
  {
    var head := y + (SHA + (" " + ("=" + (" " + ("\"" + (c + "\","))))));
    assert y + Sha(c, r) == head + r && y + Sha(c, t) == head + t;
    assert (head + r)[|head|..] == r && (head + t)[|head|..] == t;
  }
}
