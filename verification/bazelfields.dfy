/** String fields of the `http_file` blocks in a Bazel module file, and the checksum rewriter.

    The patterns are multi-line: their white space may span lines, and a quoted value may
    hold line feeds. */
module BazelFields {
  import opened Text

  const NAME := "name"
  const PATH := "downloaded_file_path"
  const SHA := "sha256"

  // ---- the pieces of the patterns

  function SkipSpace(s: string): (r: string)
    ensures |r| <= |s|
  {
    if s != "" && IsPySpace(s[0]) then SkipSpace(s[1..]) else s
  }

  predicate AllSpace(s: string) {
    forall i | 0 <= i < |s| :: IsPySpace(s[i])
  }

  /** Optional white space and then the character `c`. */
  function AfterChar(s: string, c: char): Option<string> {
    var t := SkipSpace(s);
    if t != "" && t[0] == c then Some(t[1..]) else None
  }

  datatype Quoted = Quoted(head: string, rest: string)

  function UntilQuote(s: string): (q: Quoted)
    ensures q.head + q.rest == s && (q.rest == "" || q.rest[0] == '"')
  {
    if s == "" || s[0] == '"' then Quoted("", s)
    else
      var q := UntilQuote(s[1..]);
      Quoted([s[0]] + q.head, q.rest)
  }

  /** White space that reaches the end of a line. */
  predicate EndsLine(s: string) {
    s == "" || s[0] == '\n' || (IsPySpace(s[0]) && EndsLine(s[1..]))
  }

  /** The value of a field and the text after its comma. */
  datatype Hit = Hit(value: string, rest: string)

  function AfterQuote(s: string): Option<Hit> {
    var q := UntilQuote(s);
    if q.head == "" || |q.rest| < 2 || q.rest[1] != ',' then None else Some(Hit(q.head, q.rest[2..]))
  }

  /** `name = "value",` after white space at the start of `s`. */
  function FieldAt(s: string, name: string): Option<Hit> {
    var t := SkipSpace(s);
    if !StartsWith(t, name) then None
    else match AfterChar(t[|name|..], '=')
      case None => None
      case Some(u) =>
        match AfterChar(u, '"')
        case None => None
        case Some(v) => AfterQuote(v)
  }

  /** The same, where nothing but white space follows on the line. */
  function Field(s: string, name: string): Option<Hit> {
    var h := FieldAt(s, name);
    if h.Some? && EndsLine(h.value.rest) then h else None
  }

  function NextLine(s: string): Option<string> {
    if s == "" then None else if s[0] == '\n' then Some(s[1..]) else NextLine(s[1..])
  }

  lemma {:induction false} NextLineShorter(s: string)
    requires NextLine(s).Some?
    ensures |NextLine(s).value| < |s|
  {
    if s[0] != '\n' {
      NextLineShorter(s[1..]);
    }
  }

  /** The first field that starts at the beginning of a line. */
  function First(s: string, name: string): Option<Hit>
    decreases |s|, 1
  {
    if Field(s, name).Some? then Field(s, name) else After(s, name)
  }

  /** The first field from the next line on. */
  function After(s: string, name: string): Option<Hit>
    decreases |s|, 0
  {
    match NextLine(s)
    case None => None
    case Some(r) => (NextLineShorter(s); First(r, name))
  }

  function StringField(block: string, name: string): Option<string> {
    match First(block, name)
    case None => None
    case Some(h) => Some(h.value)
  }

  // ---- text in front of a token

  lemma {:induction false} SkipSpaceConcat(x: string, a: string)
    requires a != "" && !IsPySpace(a[0])
    ensures SkipSpace(x + a) == SkipSpace(x) + a
    ensures SkipSpace(x) == "" <==> AllSpace(x)
  {
    if x == "" {
      assert x + a == a;
    } else if IsPySpace(x[0]) {
      assert (x + a)[1..] == x[1..] + a;
      SkipSpaceConcat(x[1..], a);
    }
  }

  /** A text that ends in white space. */
  predicate Spaced(x: string) {
    x != "" && IsPySpace(x[|x| - 1])
  }

  lemma {:induction false} SkipSpaceSpaced(x: string)
    requires Spaced(x) && !AllSpace(x)
    ensures Spaced(SkipSpace(x)) && !IsPySpace(SkipSpace(x)[0])
  {
    if IsPySpace(x[0]) {
      assert !AllSpace(x[1..]);
      SkipSpaceSpaced(x[1..]);
    }
  }

  /** A text that a pattern cannot run into: it starts with a letter, and its first quote
      does not close a field. */
  predicate Barrier(a: string) {
    && a != "" && !IsPySpace(a[0]) && a[0] != '=' && a[0] != '"'
    && var q := UntilQuote(a);
       |q.rest| < 2 || q.rest[1] != ',' || !EndsLine(q.rest[2..])
  }

  lemma FirstCharConcat(t: string, a: string)
    requires t != ""
    ensures (t + a)[0] == t[0] && (t + a)[1..] == t[1..] + a
  {
  }

  lemma SpacedTail(t: string)
    requires Spaced(t) && !IsPySpace(t[0])
    ensures Spaced(t[1..])
  {
  }

  lemma AfterCharConcat(x: string, a: string, c: char)
    requires Spaced(x) && Barrier(a) && (c == '=' || c == '"')
    ensures AfterChar(x + a, c).Some? <==> AfterChar(x, c).Some?
    ensures AfterChar(x, c).Some? ==> Spaced(AfterChar(x, c).value) && AfterChar(x + a, c).value == AfterChar(x, c).value + a
  {
    SkipSpaceConcat(x, a);
    var t := SkipSpace(x);
    if AllSpace(x) {
      assert t + a == a;
    } else {
      SkipSpaceSpaced(x);
      FirstCharConcat(t, a);
      SpacedTail(t);
    }
  }

  lemma {:induction false} UntilQuoteConcat(x: string, a: string)
    ensures UntilQuote(x).rest != "" ==> UntilQuote(x + a) == Quoted(UntilQuote(x).head, UntilQuote(x).rest + a)
    ensures UntilQuote(x).rest == "" ==> UntilQuote(x + a).rest == UntilQuote(a).rest
  {
    if x == "" {
      assert x + a == a;
    } else if x[0] != '"' {
      assert (x + a)[1..] == x[1..] + a;
      UntilQuoteConcat(x[1..], a);
    }
  }

  lemma {:induction false} EndsLineConcat(x: string, a: string, b: string)
    requires a != "" && !IsPySpace(a[0]) && b != "" && !IsPySpace(b[0])
    ensures EndsLine(x + a) <==> EndsLine(x + b)
  {
    if x == "" {
      assert x + a == a && x + b == b;
    } else {
      assert (x + a)[1..] == x[1..] + a && (x + b)[1..] == x[1..] + b;
      EndsLineConcat(x[1..], a, b);
    }
  }

  lemma QuoteRestConcat(x: string, rest: string, a: string)
    requires Spaced(x) && rest != "" && rest[0] == '"' && |rest| <= |x| && x[|x| - |rest|..] == rest
    ensures |rest| >= 2 && (rest + a)[1] == rest[1] && (rest + a)[2..] == rest[2..] + a
  {
    assert rest[|rest| - 1] == x[|x| - 1];
  }

  lemma AfterQuoteConcat(x: string, a: string)
    requires Spaced(x) && Barrier(a)
    ensures match AfterQuote(x)
            case Some(h) => AfterQuote(x + a) == Some(Hit(h.value, h.rest + a))
            case None => AfterQuote(x + a).Some? ==> !EndsLine(AfterQuote(x + a).value.rest)
  {
    UntilQuoteConcat(x, a);
    var q := UntilQuote(x);
    if q.rest != "" {
      QuoteRestConcat(x, q.rest, a);
    }
  }

  predicate IsWord(name: string) {
    name != "" && forall i | 0 <= i < |name| :: !IsPySpace(name[i])
  }

  lemma NameConcat(t: string, a: string, name: string)
    requires Spaced(t) && IsWord(name)
    ensures StartsWith(t + a, name) <==> StartsWith(t, name)
    ensures StartsWith(t, name) ==> Spaced(t[|name|..]) && (t + a)[|name|..] == t[|name|..] + a
  {
    var last := t[|t| - 1];
    if |name| < |t| {
      assert (t + a)[..|name|] == t[..|name|];
      assert (t + a)[|name|..] == t[|name|..] + a;
    } else {
      assert name[|t| - 1] != last;
      assert |name| <= |t + a| ==> (t + a)[..|name|][|t| - 1] == last;
      assert |name| <= |t| ==> t[..|name|][|t| - 1] == last;
    }
  }

  /** A field that starts in a text keeps its value whatever barrier follows the text. */
  lemma FieldConcat(x: string, a: string, name: string)
    requires Spaced(x) && !AllSpace(x) && Barrier(a) && IsWord(name)
    ensures match FieldAt(x, name)
            case Some(h) => FieldAt(x + a, name) == Some(Hit(h.value, h.rest + a))
            case None => Field(x + a, name) == None
  {
    SkipSpaceConcat(x, a);
    SkipSpaceSpaced(x);
    var t := SkipSpace(x);
    NameConcat(t, a, name);
    if StartsWith(t, name) {
      AfterCharConcat(t[|name|..], a, '=');
      var u := AfterChar(t[|name|..], '=');
      if u.Some? {
        AfterCharConcat(u.value, a, '"');
        var v := AfterChar(u.value, '"');
        if v.Some? {
          AfterQuoteConcat(v.value, a);
        }
      }
    }
  }

  lemma FieldAfterSpace(x: string, a: string, name: string)
    requires AllSpace(x) && a != "" && !IsPySpace(a[0])
    ensures FieldAt(x + a, name) == FieldAt(a, name) && Field(x + a, name) == Field(a, name)
  {
    SkipSpaceConcat(x, a);
    assert SkipSpace(x) + a == a;
  }
}
