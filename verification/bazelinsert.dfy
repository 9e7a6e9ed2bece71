/** Inserting a checksum after a path line. The path may hold line feeds, so the lines of its
    value are searched for fields too. */
module BazelInsert {
  import opened Text
  import opened BazelFields
  import opened BazelTokens
  import opened BazelSha

  /** A text that ends as a field does. */
  predicate Ends(y: string) {
    |y| >= 2 && y[|y| - 2] == '"' && y[|y| - 1] == ','
  }

  predicate Solid(y: string) {
    y != "" && y[|y| - 1] == ','
  }

  predicate IsSuffix(u: string, y: string) {
    |u| <= |y| && u == y[|y| - |u|..]
  }

  lemma SuffixTrans(u: string, t: string, y: string)
    requires IsSuffix(u, t) && IsSuffix(t, y)
    ensures IsSuffix(u, y)
  {
  }

  predicate IsPlainName(name: string) {
    IsFieldName(name) && ',' !in name
  }

  // ---- fields in front of a line feed

  lemma {:induction false} SolidSkip(y: string, r: string)
    requires Solid(y)
    ensures SkipSpace(y + r) == SkipSpace(y) + r && Solid(SkipSpace(y)) && IsSuffix(SkipSpace(y), y)
  {
    if IsPySpace(y[0]) {
      assert (y + r)[1..] == y[1..] + r;
      SolidSkip(y[1..], r);
    }
  }

  lemma SolidName(t: string, r: string, name: string)
    requires Solid(t) && IsPlainName(name)
    ensures StartsWith(t + r, name) <==> StartsWith(t, name)
    ensures StartsWith(t, name) ==> Solid(t[|name|..]) && (t + r)[|name|..] == t[|name|..] + r
  {
    var last := t[|t| - 1];
    if |name| < |t| {
      assert (t + r)[..|name|] == t[..|name|];
      assert (t + r)[|name|..] == t[|name|..] + r;
    } else {
      assert name[|t| - 1] in name;
      assert name[|t| - 1] != last;
      assert |name| <= |t + r| ==> (t + r)[..|name|][|t| - 1] == last;
      assert |name| <= |t| ==> t[..|name|][|t| - 1] == last;
    }
  }

  lemma SolidChar(t: string, r: string, c: char)
    requires Solid(t) && c != ','
    ensures AfterChar(t + r, c).Some? <==> AfterChar(t, c).Some?
    ensures AfterChar(t, c).Some? ==>
              var u := AfterChar(t, c).value; Solid(u) && IsSuffix(u, t) && AfterChar(t + r, c).value == u + r
  {
    SolidSkip(t, r);
    var u := SkipSpace(t);
    assert (u + r)[0] == u[0] && (u + r)[1..] == u[1..] + r;
  }

  /** What follows `=` and an opening quote. */
  function EqualsQuote(u: string): Option<string> {
    match AfterChar(u, '=')
    case None => None
    case Some(v) => AfterChar(v, '"')
  }

  /** The text after the opening quote, if `y` starts with a field's name. */
  function Opening(y: string, name: string): Option<string> {
    var t := SkipSpace(y);
    if StartsWith(t, name) then EqualsQuote(t[|name|..]) else None
  }

  lemma EqualsQuoteSolid(u: string, r: string)
    requires Solid(u)
    ensures EqualsQuote(u + r).Some? <==> EqualsQuote(u).Some?
    ensures EqualsQuote(u).Some? ==>
              var w := EqualsQuote(u).value; Solid(w) && IsSuffix(w, u) && EqualsQuote(u + r).value == w + r
  {
    SolidChar(u, r, '=');
    if AfterChar(u, '=').Some? {
      var v := AfterChar(u, '=').value;
      SolidChar(v, r, '"');
      if AfterChar(v, '"').Some? {
        SuffixTrans(AfterChar(v, '"').value, v, u);
      }
    }
  }

  lemma FieldOpening(y: string, name: string)
    ensures FieldAt(y, name) == if Opening(y, name).Some? then AfterQuote(Opening(y, name).value) else None
  {
  }

  lemma NameSuffix(t: string, name: string, y: string)
    requires |name| <= |t| && IsSuffix(t, y)
    ensures IsSuffix(t[|name|..], y)
  {
    SuffixTrans(t[|name|..], t, y);
  }

  lemma OpeningSolid(y: string, r: string, name: string)
    requires Solid(y) && IsPlainName(name)
    ensures Opening(y + r, name).Some? <==> Opening(y, name).Some?
    ensures Opening(y, name).Some? ==>
              var u := Opening(y, name).value; Solid(u) && IsSuffix(u, y) && Opening(y + r, name).value == u + r
  {
    SolidSkip(y, r);
    var t := SkipSpace(y);
    SolidName(t, r, name);
    if StartsWith(t, name) {
      NameSuffix(t, name, y);
      EqualsQuoteSolid(t[|name|..], r);
      if EqualsQuote(t[|name|..]).Some? {
        SuffixTrans(EqualsQuote(t[|name|..]).value, t[|name|..], y);
      }
    }
  }

  lemma {:induction false} EndsSolid(t: string, r: string)
    requires (t == "" || Solid(t)) && r != "" && r[0] == '\n'
    ensures EndsLine(t + r) <==> EndsLine(t + "\n")
  {
    if t == "" {
      assert t + r == r && t + "\n" == "\n";
    } else {
      assert (t + r)[0] == (t + "\n")[0] == t[0];
      assert (t + r)[1..] == t[1..] + r && (t + "\n")[1..] == t[1..] + "\n";
      EndsSolid(t[1..], r);
    }
  }

  lemma QuoteSolid(u: string, r: string)
    requires Solid(u) && '"' in u
    ensures AfterQuote(u + r).Some? <==> AfterQuote(u).Some?
    ensures AfterQuote(u).Some? ==>
              var h := AfterQuote(u).value; (h.rest == "" || Solid(h.rest)) && AfterQuote(u + r) == Some(Hit(h.value, h.rest + r))
  {
    UntilQuoteConcat(u, r);
    HeadHasNoQuote(u);
    var q := UntilQuote(u);
    assert q.rest != "" by {
      assert q.rest == "" ==> u == q.head;
    }
    assert q.rest[|q.rest| - 1] == u[|u| - 1];
    assert (q.rest + r)[1] == q.rest[1] && (q.rest + r)[2..] == q.rest[2..] + r;
  }

  lemma LastComma(u: string, y: string)
    requires Ends(y) && Solid(u) && IsSuffix(u, y) && '"' !in u
    ensures u == ","
  {
    assert forall i | 0 <= i < |u| :: u[i] == y[|y| - |u| + i] && u[i] in u;
  }

  /** Whatever follows the line feed: a field that starts in `y` has the value it has without
      it, or opens with the last quote of `y` and starts with the comma after that. */
  lemma FieldEnds(y: string, r: string, name: string)
    requires Ends(y) && r != "" && r[0] == '\n' && IsPlainName(name)
    ensures match Field(y + "\n", name)
            case Some(h) => Field(y + r, name).Some? && Field(y + r, name).value.value == h.value
            case None => Field(y + r, name).Some? ==>
                           Opening(y, name) == Some(",") && AfterQuote("," + r) == Field(y + r, name)
  {
    OpeningSolid(y, r, name);
    OpeningSolid(y, "\n", name);
    FieldOpening(y + r, name);
    FieldOpening(y + "\n", name);
    if Opening(y, name).Some? {
      var u := Opening(y, name).value;
      if '"' in u {
        QuoteSolid(u, r);
        QuoteSolid(u, "\n");
        if AfterQuote(u).Some? {
          EndsSolid(AfterQuote(u).value.rest, r);
        }
      } else {
        LastComma(u, y);
        assert UntilQuote(",\n") == Quoted(",\n", "") by {
          assert ",\n"[1..] == "\n" && "\n"[1..] == "";
        }
        assert u + "\n" == ",\n";
      }
    }
  }

  lemma OpeningParts(y: string, name: string) returns (w: string, w1: string, w2: string)
    requires Opening(y, name).Some?
    ensures AllSpace(w) && AllSpace(w1) && AllSpace(w2)
    ensures y == w + (name + (w1 + ("=" + (w2 + ("\"" + Opening(y, name).value)))))
  {
    LeadingSplit(y);
    var t := SkipSpace(y);
    var u := t[|name|..];
    w := Leading(y);
    w1 := CharParts(u, '=');
    w2 := CharParts(AfterChar(u, '=').value, '"');
    assert t == name + u;
  }

  /** A field can open with the last quote only if there is no other quote. */
  lemma OpeningLast(y: string, name: string)
    requires IsPlainName(name) && Opening(y, name) == Some(",")
    ensures |y| >= 2 && '"' !in y[..|y| - 2]
  {
    var w, w1, w2 := OpeningParts(y, name);
    SpaceHasNoQuote(w);
    SpaceHasNoQuote(w1);
    SpaceHasNoQuote(w2);
    var head := w + (name + (w1 + ("=" + w2)));
    assert y == head + "\",";
    assert y[..|y| - 2] == head;
  }

  // ---- the search through the lines of a text that ends as a field

  lemma NextEnds(y: string)
    requires Ends(y) && NextLine(y).Some?
    ensures Ends(NextLine(y).value) && |NextLine(y).value| < |y|
  {
    NextLineSuffix(y);
    var r := NextLine(y).value;
    assert |r| >= 2;
  }

  /** The value of the first field that starts in a line of `y` and does not depend on what
      comes after it. */
  function Seen(y: string, name: string): Option<string>
    decreases |y|
  {
    match Field(y + "\n", name)
    case Some(h) => Some(h.value)
    case None =>
      match NextLine(y)
      case None => None
      case Some(r) => (NextLineShorter(y); Seen(r, name))
  }

  lemma LineFirst(y: string, r: string, name: string)
    requires r != "" && r[0] == '\n' && Field(y + r, name) == None
    ensures First(y + r, name) == match NextLine(y)
                                  case Some(z) => First(z + r, name)
                                  case None => First(r[1..], name)
  {
    NextLineConcat(y, r);
    assert NextLine(r) == Some(r[1..]);
    assert After(y + r, name) == First(NextLine(y + r).value, name);
  }

  /** A text after which no field can go on: what the lines of `y` show, and then the text. */
  lemma {:induction false} SearchClosed(y: string, r: string, name: string)
    requires Ends(y) && r != "" && r[0] == '\n' && IsPlainName(name) && AfterQuote("," + r) == None
    ensures StringField(y + r, name) == if Seen(y, name).Some? then Seen(y, name) else StringField(r[1..], name)
    decreases |y|
  {
    FieldEnds(y, r, name);
    if Field(y + "\n", name).None? {
      LineFirst(y, r, name);
      if NextLine(y).Some? {
        NextEnds(y);
        SearchClosed(NextLine(y).value, r, name);
      }
    }
  }

  /** Any text: the same, unless the field found starts with a comma. */
  lemma {:induction false} SearchOpen(y: string, r: string, name: string)
    requires Ends(y) && r != "" && r[0] == '\n' && IsPlainName(name)
    requires StringField(y + r, name).Some? ==> StringField(y + r, name).value != "" && StringField(y + r, name).value[0] != ','
    ensures StringField(y + r, name) == if Seen(y, name).Some? then Seen(y, name) else StringField(r[1..], name)
    decreases |y|
  {
    FieldEnds(y, r, name);
    if Field(y + "\n", name).None? {
      if Field(y + r, name).Some? {
        CommaFirst(r);
      } else {
        LineFirst(y, r, name);
        if NextLine(y).Some? {
          NextEnds(y);
          SearchOpen(NextLine(y).value, r, name);
        }
      }
    }
  }

  lemma CommaFirst(r: string)
    requires AfterQuote("," + r).Some?
    ensures AfterQuote("," + r).value.value[0] == ','
  {
  }

  /** The path line itself is found, or a path line before it, whatever follows. */
  lemma {:induction false} SearchPath(x: string, w1: string, w2: string, v: string, r: string)
    requires Indented(x) && AllSpace(w1) && AllSpace(w2) && v != "" && '"' !in v && r != "" && r[0] == '\n'
    ensures var y := x + Token(PATH, w1, w2, v, ""); Seen(y, PATH).Some? && StringField(y + r, PATH) == Seen(y, PATH)
    decreases |x|
  {
    var p := Token(PATH, w1, w2, v, "");
    var y := x + p;
    PathEnds(w1, w2, v);
    assert Ends(y);
    NamesArePlain();
    FieldEnds(y, r, PATH);
    NotLast(x, w1, w2, v);
    if AllSpace(x) {
      PathAtLine(x, w1, w2, v);
    } else if Field(y + "\n", PATH).None? {
      LineFirst(y, r, PATH);
      NextLineConcat(x, p);
      NextLineShorter(x);
      SearchPath(NextLine(x).value, w1, w2, v, r);
    }
  }

  lemma NamesArePlain()
    ensures IsPlainName(NAME) && IsPlainName(PATH) && IsPlainName(SHA)
  {
    NamesAreWords();
  }

  lemma PathEnds(w1: string, w2: string, v: string)
    requires v != ""
    ensures var p := Token(PATH, w1, w2, v, ""); Ends(p) && |p| >= 4 && p[0] == PATH[0]
  {
    var head := PATH + (w1 + ("=" + (w2 + ("\"" + v))));
    assert Token(PATH, w1, w2, v, "") == head + "\",";
  }

  lemma NotLast(x: string, w1: string, w2: string, v: string)
    requires v != ""
    ensures Opening(x + Token(PATH, w1, w2, v, ""), PATH) != Some(",")
  {
    var y := x + Token(PATH, w1, w2, v, "");
    var head := x + (PATH + (w1 + ("=" + w2)));
    assert y == head + ("\"" + (v + "\","));
    PathEnds(w1, w2, v);
    NamesArePlain();
    assert y[..|y| - 2][|head|] == '"';
    if Opening(y, PATH) == Some(",") {
      OpeningLast(y, PATH);
    }
  }

  lemma PathAtLine(x: string, w1: string, w2: string, v: string)
    requires AllSpace(x) && AllSpace(w1) && AllSpace(w2) && v != "" && '"' !in v
    ensures Field(x + Token(PATH, w1, w2, v, "") + "\n", PATH) == Some(Hit(v, "\n"))
  {
    NamesAreWords();
    TokenJoin(PATH, w1, w2, v, "", "\n");
    assert "" + "\n" == "\n";
    var a := Token(PATH, w1, w2, v, "\n");
    TokenField(PATH, w1, w2, v, "\n");
    assert a[0] == PATH[0];
    FieldAfterSpace(x, a, PATH);
    assert x + Token(PATH, w1, w2, v, "") + "\n" == x + a;
  }

  lemma TokenJoin(name: string, w1: string, w2: string, v: string, rest: string, more: string)
    ensures Token(name, w1, w2, v, rest) + more == Token(name, w1, w2, v, rest + more)
  {
    var head := name + (w1 + ("=" + (w2 + ("\"" + (v + "\",")))));
    assert Token(name, w1, w2, v, rest) == head + rest;
    assert Token(name, w1, w2, v, rest + more) == head + (rest + more);
  }

  // ---- the added checksum

  lemma AddedCloses(indent: string, c: string, rest: string)
    requires AllSpace(indent) && IsHex(c)
    ensures AfterQuote("," + Added(indent, c, rest)) == None
  {
    var head := "," + ("\n" + (indent + (SHA + (" " + ("=" + " ")))));
    var tail := "\"" + (c + ("\"," + rest));
    SpaceHasNoQuote(indent);
    assert "," + Added(indent, c, rest) == head + tail;
    assert '"' !in head;
    UntilQuoteSkips(head, tail);
    assert UntilQuote(tail).rest == tail && tail[1] == c[0];
  }

  lemma AddedFields(indent: string, c: string, rest: string)
    requires AllSpace(indent) && IsHex(c) && rest != "" && rest[0] == '\n'
    ensures var e := Added(indent, c, rest);
            StringField(e[1..], SHA) == Some(c) && StringField(e[1..], NAME) == StringField(rest[1..], NAME)
  {
    var e := Added(indent, c, rest);
    assert e[1..] == indent + Sha(c, rest);
    NamesAreWords();
    ShaToken(c, rest);
    FirstAfterSpace(indent, Sha(c, rest), SHA);
    FirstAfterSpace(indent, Sha(c, rest), NAME);
    assert AllSpace(" ");
    ShaTokenOther(" ", " ", c, rest, NAME);
    assert NextLine(rest) == Some(rest[1..]);
  }

  /** No line of `y` shows a checksum in lower-case hex. */
  predicate NoHexIn(y: string)
    decreases |y|
  {
    !HexField(y + "\n") && (NextLine(y).Some? ==> (NextLineShorter(y); NoHexIn(NextLine(y).value)))
  }

  lemma {:induction false} NoHexLines(y: string, r: string)
    requires Ends(y) && r != "" && r[0] == '\n' && FirstHex(y + r) == None
    ensures NoHexIn(y)
    decreases |y|
  {
    NamesArePlain();
    FieldEnds(y, r, SHA);
    NextLineConcat(y, r);
    if NextLine(y).Some? {
      NextEnds(y);
      NoHexLines(NextLine(y).value, r);
    }
  }

  lemma {:induction false} SeenIsNotHex(y: string)
    requires NoHexIn(y) && Seen(y, SHA).Some?
    ensures !IsHex(Seen(y, SHA).value)
    decreases |y|
  {
    if Field(y + "\n", SHA).None? {
      NextLineShorter(y);
      SeenIsNotHex(NextLine(y).value);
    }
  }

  /** The text in front of the added checksum holds no checksum in lower-case hex. */
  lemma {:induction false} ClearLines(y: string, indent: string, c: string, rest: string)
    requires Ends(y) && AllSpace(indent) && IsHex(c) && NoHexIn(y)
    ensures HexClear(y + ("\n" + indent), Sha(c, rest))
    decreases |y|
  {
    var e, tok := Added(indent, c, rest), Sha(c, rest);
    var z := y + ("\n" + indent);
    NamesArePlain();
    AddedCloses(indent, c, rest);
    FieldEnds(y, e, SHA);
    assert z + tok == y + e;
    assert z[|y| - 1] == ',' && !AllSpace(z);
    NextLineConcat(y, "\n" + indent);
    if NextLine(y).Some? {
      NextEnds(y);
      ClearLines(NextLine(y).value, indent, c, rest);
    } else {
      assert ("\n" + indent)[1..] == indent;
    }
  }

  /** Inserting a checksum where there is none in lower-case hex: it is found exactly if none
      is seen up to the path, the other fields keep their values, and writing it again changes
      nothing exactly when no blank line follows. */
  lemma Inserted(s: string, c: string)
    requires FirstHex(s) == None && PathHit(s).Some? && IsHex(c)
    requires StringField(s, NAME).Some? ==> StringField(s, NAME).value != "" && StringField(s, NAME).value[0] != ','
    ensures Insert(s, c).Some? && (Seen(UpToPath(s), SHA).Some? ==> !IsHex(Seen(UpToPath(s), SHA).value))
    ensures var n := Insert(s, c).value;
            && StringField(n, SHA) == (if Seen(UpToPath(s), SHA).Some? then Seen(UpToPath(s), SHA) else Some(c))
            && StringField(n, NAME) == StringField(s, NAME) && StringField(n, PATH) == StringField(s, PATH)
            && Rewrite(n, c).Some? && (Rewrite(n, c) == Some(n) <==> Tail(PathHit(s).value.rest) == PathHit(s).value.rest)
  {
    var x, a, indent := PathSplit(s, c);
    var h := PathHit(s).value;
    var w1, w2 := TokenParts(a, PATH);
    var y := x + Token(PATH, w1, w2, h.value, "");
    ExtendedToken(w1, w2, h.value, h.rest, indent, c);
    InsertedParts(x, w1, w2, h.value, h.rest, indent, c);
    UpTo(s, y, h.rest);
    NoHexLines(y, h.rest);
    InsertedFields(s, y, x, w1, w2, h.value, h.rest, indent, c);
    InsertedAgain(y, h.rest, indent, c);
    if Seen(y, SHA).Some? {
      SeenIsNotHex(y);
    }
  }

  lemma UpTo(s: string, y: string, rest: string)
    requires s == y + rest && PathHit(s).Some? && PathHit(s).value.rest == rest
    ensures UpToPath(s) == y
  {
  }

  /** The first checksum is the one seen up to the path, or comes after it. */
  lemma SeenUpTo(s: string)
    requires PathHit(s).Some? && (StringField(s, SHA).Some? ==> StringField(s, SHA).value != "" && StringField(s, SHA).value[0] != ',')
    ensures var rest := PathHit(s).value.rest;
            && rest != ""
            && StringField(s, SHA) == if Seen(UpToPath(s), SHA).Some? then Seen(UpToPath(s), SHA) else StringField(rest[1..], SHA)
  {
    var x, a, indent := PathSplit(s, "0");
    var h := PathHit(s).value;
    var w1, w2 := TokenParts(a, PATH);
    var y := x + Token(PATH, w1, w2, h.value, "");
    InsertedParts(x, w1, w2, h.value, h.rest, indent, "0");
    UpTo(s, y, h.rest);
    NamesArePlain();
    SearchOpen(y, h.rest, SHA);
  }

  lemma InsertedParts(x: string, w1: string, w2: string, v: string, rest: string, indent: string, c: string)
    requires v != ""
    ensures var y := x + Token(PATH, w1, w2, v, "");
            && Ends(y) && x + Token(PATH, w1, w2, v, rest) == y + rest
            && x + Token(PATH, w1, w2, v, Added(indent, c, rest)) == y + Added(indent, c, rest)
  {
    PathEnds(w1, w2, v);
    TokenJoin(PATH, w1, w2, v, "", rest);
    TokenJoin(PATH, w1, w2, v, "", Added(indent, c, rest));
    assert "" + rest == rest && "" + Added(indent, c, rest) == Added(indent, c, rest);
  }

  lemma InsertedFields(s: string, y: string, x: string, w1: string, w2: string, v: string, rest: string, indent: string, c: string)
    requires Indented(x) && AllSpace(w1) && AllSpace(w2) && AllSpace(indent) && IsHex(c) && v != "" && '"' !in v
    requires y == x + Token(PATH, w1, w2, v, "") && Ends(y) && s == y + rest && rest != "" && rest[0] == '\n'
    requires StringField(s, NAME).Some? ==> StringField(s, NAME).value != "" && StringField(s, NAME).value[0] != ','
    ensures var n := y + Added(indent, c, rest);
            && StringField(n, SHA) == (if Seen(y, SHA).Some? then Seen(y, SHA) else Some(c))
            && StringField(n, NAME) == StringField(s, NAME) && StringField(n, PATH) == StringField(s, PATH)
  {
    var e := Added(indent, c, rest);
    NamesArePlain();
    AddedCloses(indent, c, rest);
    AddedFields(indent, c, rest);
    SearchOpen(y, rest, NAME);
    SearchClosed(y, e, SHA);
    SearchClosed(y, e, NAME);
    SearchPath(x, w1, w2, v, rest);
    SearchPath(x, w1, w2, v, e);
  }

  lemma Regroup(y: string, indent: string, tok: string)
    ensures (y + ("\n" + indent)) + tok == y + ("\n" + (indent + tok))
  {
  }

  lemma AgainAt(z: string, c: string, rest: string)
    requires IsHex(c) && EndsLine(rest) && HexClear(z, Sha(c, rest))
    ensures var n := z + Sha(c, rest); Rewrite(n, c).Some? && (Rewrite(n, c) == Some(n) <==> Tail(rest) == rest)
  {
    ShaToken(c, rest);
    RewriteAt(z, Sha(c, rest), c);
    SameRest(z, c, Tail(rest), rest);
  }

  lemma InsertedAgain(y: string, rest: string, indent: string, c: string)
    requires Ends(y) && AllSpace(indent) && IsHex(c) && NoHexIn(y) && rest != "" && rest[0] == '\n'
    ensures var n := y + Added(indent, c, rest);
            Rewrite(n, c).Some? && (Rewrite(n, c) == Some(n) <==> Tail(rest) == rest)
  {
    var z := y + ("\n" + indent);
    ClearLines(y, indent, c, rest);
    AgainAt(z, c, rest);
    Regroup(y, indent, Sha(c, rest));
  }
}
