/** Where the first field of a text is found, and what does not move it. */
module BazelTokens {
  import opened Text
  import opened BazelFields

  lemma {:induction false} NextLineConcat(x: string, a: string)
    ensures match NextLine(x)
            case Some(r) => NextLine(x + a) == Some(r + a)
            case None => NextLine(x + a) == NextLine(a)
  {
    if x == "" {
      assert x + a == a;
    } else {
      assert (x + a)[1..] == x[1..] + a;
      if x[0] != '\n' {
        NextLineConcat(x[1..], a);
      }
    }
  }

  /** A text whose last line is white space so far. */
  predicate Indented(x: string)
    decreases |x|
  {
    AllSpace(x) || (NextLine(x).Some? && (NextLineShorter(x); Indented(NextLine(x).value)))
  }

  lemma {:induction false} NextLineSuffix(x: string)
    requires NextLine(x).Some?
    ensures var r := NextLine(x).value; |r| < |x| && r == x[|x| - |r|..] && x[|x| - |r| - 1] == '\n'
  {
    if x[0] != '\n' {
      NextLineSuffix(x[1..]);
    }
  }

  lemma {:induction false} IndentedSpaced(x: string)
    requires Indented(x) && x != ""
    ensures Spaced(x)
    decreases |x|
  {
    if !AllSpace(x) {
      NextLineSuffix(x);
      var r := NextLine(x).value;
      if r != "" {
        IndentedSpaced(r);
        assert r[|r| - 1] == x[|x| - 1];
      }
    }
  }

  lemma {:induction false} FirstAfterSpace(x: string, a: string, name: string)
    requires AllSpace(x) && a != "" && !IsPySpace(a[0])
    ensures First(x + a, name) == First(a, name)
    decreases |x|
  {
    FieldAfterSpace(x, a, name);
    NextLineConcat(x, a);
    if NextLine(x).Some? {
      NextLineSuffix(x);
      FirstAfterSpace(NextLine(x).value, a, name);
    }
  }

  // ---- the search through an indented text

  lemma FieldSame(x: string, a: string, b: string, name: string)
    requires Indented(x) && !AllSpace(x) && Barrier(a) && Barrier(b) && IsWord(name)
    ensures Field(x + a, name).Some? <==> Field(x + b, name).Some?
    ensures Field(x + a, name).Some? ==> Field(x + a, name).value.value == Field(x + b, name).value.value
  {
    IndentedSpaced(x);
    FieldConcat(x, a, name);
    FieldConcat(x, b, name);
    if FieldAt(x, name).Some? {
      EndsLineConcat(FieldAt(x, name).value.rest, a, b);
    }
  }

  lemma FirstInLine(x: string, a: string, name: string)
    requires NextLine(x).Some?
    ensures First(x + a, name) ==
            if Field(x + a, name).Some? then Field(x + a, name) else First(NextLine(x).value + a, name)
  {
    NextLineConcat(x, a);
  }

  /** Barriers in which a field has the same value are interchangeable for it. */
  lemma {:induction false} SameValue(x: string, a: string, b: string, name: string)
    requires Indented(x) && Barrier(a) && Barrier(b) && IsWord(name)
    requires StringField(a, name) == StringField(b, name)
    ensures StringField(x + a, name) == StringField(x + b, name)
    decreases |x|
  {
    if AllSpace(x) {
      FirstAfterSpace(x, a, name);
      FirstAfterSpace(x, b, name);
    } else {
      FieldSame(x, a, b, name);
      FirstInLine(x, a, name);
      FirstInLine(x, b, name);
      NextLineShorter(x);
      SameValue(NextLine(x).value, a, b, name);
    }
  }

  // ---- what a token contributes

  /** A field as it stands in the text, with the text after its comma. */
  function Token(name: string, w1: string, w2: string, value: string, rest: string): string {
    name + (w1 + ("=" + (w2 + ("\"" + (value + ("\"," + rest))))))
  }

  predicate IsValue(v: string) {
    v != "" && '"' !in v && '\n' !in v
  }

  /** Characters a name does not start with and does not hold. */
  predicate IsFieldName(name: string) {
    IsWord(name) && '"' !in name && '=' !in name && '\n' !in name
  }

  lemma UntilQuoteSkips(p: string, z: string)
    requires '"' !in p
    ensures UntilQuote(p + z).rest == UntilQuote(z).rest
  {
    var q := UntilQuote(p);
    assert forall c | c in q.rest :: c in p;
    UntilQuoteConcat(p, z);
  }

  lemma SkipSpaceExact(w: string, z: string)
    requires AllSpace(w) && z != "" && !IsPySpace(z[0])
    ensures SkipSpace(w + z) == z
  {
    SkipSpaceConcat(w, z);
    assert "" + z == z;
  }

  lemma AfterCharExact(w: string, c: char, z: string)
    requires AllSpace(w) && !IsPySpace(c)
    ensures AfterChar(w + ([c] + z), c) == Some(z)
  {
    SkipSpaceExact(w, [c] + z);
    assert ([c] + z)[1..] == z;
  }

  lemma QuotedExact(value: string, rest: string)
    requires value != "" && '"' !in value
    ensures AfterQuote(value + ("\"," + rest)) == Some(Hit(value, rest))
    ensures UntilQuote(value + ("\"," + rest)) == Quoted(value, "\"," + rest)
  {
    UntilQuoteSkips(value, "\"," + rest);
    var q := UntilQuote(value + ("\"," + rest));
    assert q.rest == "\"," + rest && q.head == (q.head + q.rest)[..|value|];
    assert ("\"," + rest)[2..] == rest;
  }

  /** A token is a field. */
  lemma TokenField(name: string, w1: string, w2: string, value: string, rest: string)
    requires IsWord(name) && AllSpace(w1) && AllSpace(w2) && value != "" && '"' !in value
    ensures FieldAt(Token(name, w1, w2, value, rest), name) == Some(Hit(value, rest))
  {
    var quoted := "\"" + (value + ("\"," + rest));
    var s := Token(name, w1, w2, value, rest);
    var after := w1 + ("=" + (w2 + quoted));
    assert s[0] == name[0] && SkipSpace(s) == s;
    assert s[..|name|] == name && s[|name|..] == after;
    AfterCharExact(w1, '=', w2 + quoted);
    AfterCharExact(w2, '"', value + ("\"," + rest));
    QuotedExact(value, rest);
  }

  lemma {:induction false} EndsLineStops(v: string, z: string)
    requires '\n' !in v && z != "" && !IsPySpace(z[0]) && z[0] != '\n'
    ensures !EndsLine(v + z)
  {
    if v == "" {
      assert v + z == z;
    } else {
      assert v[0] in v && forall c | c in v[1..] :: c in v;
      assert (v + z)[1..] == v[1..] + z;
      EndsLineStops(v[1..], z);
    }
  }

  lemma SpaceHasNoQuote(w: string)
    requires AllSpace(w)
    ensures '"' !in w
  {
  }

  lemma TokenQuote(name: string, w1: string, w2: string, value: string, rest: string)
    requires '"' !in name && AllSpace(w1) && AllSpace(w2)
    ensures UntilQuote(Token(name, w1, w2, value, rest)).rest == "\"" + (value + ("\"," + rest))
  {
    var quoted := "\"" + (value + ("\"," + rest));
    var head := name + (w1 + ("=" + w2));
    assert Token(name, w1, w2, value, rest) == head + quoted;
    SpaceHasNoQuote(w1);
    SpaceHasNoQuote(w2);
    UntilQuoteSkips(head, quoted);
  }

  /** A token with a value on one line is a barrier. */
  lemma TokenBarrier(name: string, w1: string, w2: string, value: string, rest: string)
    requires IsFieldName(name) && AllSpace(w1) && AllSpace(w2) && IsValue(value)
    ensures Barrier(Token(name, w1, w2, value, rest))
  {
    TokenQuote(name, w1, w2, value, rest);
    assert Token(name, w1, w2, value, rest)[0] == name[0] && name[0] in name;
    EndsLineStops(value[1..], "\"," + rest);
    assert ("\"" + (value + ("\"," + rest)))[2..] == value[1..] + ("\"," + rest);
  }

  lemma TokenOther(name: string, w1: string, w2: string, value: string, rest: string, other: string)
    requires IsWord(name) && IsWord(other) && name[0] != other[0]
    ensures FieldAt(Token(name, w1, w2, value, rest), other) == None
  {
    var s := Token(name, w1, w2, value, rest);
    assert s[0] == name[0] && SkipSpace(s) == s;
  }

  lemma AfterPlain(p: string, z: string, name: string)
    requires '\n' !in p
    ensures After(p + z, name) == After(z, name)
  {
    NoNextLine(p);
    NextLineConcat(p, z);
  }

  lemma {:induction false} NoNextLine(p: string)
    requires '\n' !in p
    ensures NextLine(p) == None
  {
    if p != "" {
      assert p[0] in p && forall c | c in p[1..] :: c in p;
      NoNextLine(p[1..]);
    }
  }

  lemma {:induction false} AfterSpace(w: string, z: string, name: string)
    requires AllSpace(w) && IsWord(name) && z != "" && !IsPySpace(z[0]) && z[0] != name[0]
    ensures After(w + z, name) == After(z, name)
    decreases |w|
  {
    NextLineConcat(w, z);
    if NextLine(w).Some? {
      NextLineSuffix(w);
      var r := NextLine(w).value;
      SkipSpaceExact(r, z);
      AfterSpace(r, z, name);
    }
  }

  /** The lines of a token hold no other field. */
  lemma TokenAfter(name: string, w1: string, w2: string, value: string, rest: string, other: string)
    requires IsFieldName(name) && IsFieldName(other) && AllSpace(w1) && AllSpace(w2) && IsValue(value)
    ensures After(Token(name, w1, w2, value, rest), other) == After(rest, other)
  {
    var closing := value + "\",";
    var quoted := "\"" + (value + ("\"," + rest));
    assert other[0] in other;
    AfterPlain(name, w1 + ("=" + (w2 + quoted)), other);
    AfterSpace(w1, "=" + (w2 + quoted), other);
    AfterPlain("=", w2 + quoted, other);
    AfterSpace(w2, quoted, other);
    assert quoted == ("\"" + closing) + rest;
    AfterPlain("\"" + closing, rest, other);
  }
}
