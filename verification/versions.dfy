/** Release versions and their normalised (PEP 440) forms. */
module Versions {
  import opened Text

  datatype Pre = Alpha | Beta | Rc

  /** A normalised version: dotted numbers, a numbered pre-release and a post-release. */
  datatype Version = Version(base: seq<string>, pre: Option<Pre>, number: string, post: Option<string>)

  predicate IsDigit(c: char) {
    '0' <= c <= '9'
  }

  predicate AllDigits(s: string) {
    forall i | 0 <= i < |s| :: IsDigit(s[i])
  }

  predicate IsNumber(s: string) {
    s != "" && AllDigits(s)
  }

  predicate Valid(v: Version) {
    && |v.base| >= 1
    && (forall i | 0 <= i < |v.base| :: IsNumber(v.base[i]))
    && (if v.pre.Some? then IsNumber(v.number) else v.number == "")
    && (v.post.Some? ==> IsNumber(v.post.value))
  }

  function Short(p: Pre): string {
    match p
    case Alpha => "a"
    case Beta => "b"
    case Rc => "rc"
  }

  function Long(p: Pre): string {
    match p
    case Alpha => "alpha"
    case Beta => "beta"
    case Rc => "rc"
  }

  const POST := ".post"

  function PrintBase(base: seq<string>): string
    requires |base| >= 1
  {
    if |base| == 1 then base[0] else base[0] + ("." + PrintBase(base[1..]))
  }

  function PrintPost(post: Option<string>): string {
    if post.Some? then POST + post.value else ""
  }

  function PrintPre(pre: Option<Pre>, number: string, rest: string): string {
    if pre.Some? then Short(pre.value) + (number + rest) else rest
  }

  function Print(v: Version): string
    requires |v.base| >= 1
  {
    PrintBase(v.base) + PrintPre(v.pre, v.number, PrintPost(v.post))
  }

  // ---- matching a whole string

  datatype Taken = Taken(head: string, rest: string)

  function TakeDigits(s: string): (t: Taken)
    ensures t.head + t.rest == s && AllDigits(t.head) && (t.rest == "" || !IsDigit(t.rest[0]))
  {
    if s == "" || !IsDigit(s[0]) then Taken("", s)
    else
      var t := TakeDigits(s[1..]);
      Taken([s[0]] + t.head, t.rest)
  }

  predicate DotDigit(s: string) {
    |s| >= 2 && s[0] == '.' && IsDigit(s[1])
  }

  datatype Bases = Bases(base: seq<string>, rest: string)

  function TakeBase(s: string): Option<Bases>
    decreases |s|
  {
    var t := TakeDigits(s);
    if t.head == "" then None
    else if !DotDigit(t.rest) then Some(Bases([t.head], t.rest))
    else
      assert |t.rest| <= |s|;
      var more := TakeBase(t.rest[1..]);
      if more.None? then None else Some(Bases([t.head] + more.value.base, more.value.rest))
  }

  /** A pre-release letter group at the start of `s`, and what follows it. */
  function TakeShort(s: string): Option<(Pre, string)> {
    if s != "" && s[0] == 'a' then Some((Alpha, s[1..]))
    else if s != "" && s[0] == 'b' then Some((Beta, s[1..]))
    else if |s| >= 2 && s[0] == 'r' && s[1] == 'c' then Some((Rc, s[2..]))
    else None
  }

  /** The end of the pattern: an optional post-release and nothing more. */
  function ParsePost(s: string): Option<Option<string>> {
    if s == "" then Some(None)
    else if StartsWith(s, POST) && IsNumber(s[|POST|..]) then Some(Some(s[|POST|..]))
    else None
  }

  function ParseTail(base: seq<string>, s: string): Option<Version> {
    match TakeShort(s)
    case None =>
      var post := ParsePost(s);
      if post.None? then None else Some(Version(base, None, "", post.value))
    case Some(found) =>
      var t := TakeDigits(found.1);
      var post := ParsePost(t.rest);
      if t.head == "" || post.None? then None else Some(Version(base, Some(found.0), t.head, post.value))
  }

  /** The groups of a string that is a normalised version. */
  function Parse(s: string): Option<Version> {
    var b := TakeBase(s);
    if b.None? then None else ParseTail(b.value.base, b.value.rest)
  }

  lemma {:induction false} DigitsThen(d: string, rest: string)
    requires AllDigits(d) && (rest == "" || !IsDigit(rest[0]))
    ensures TakeDigits(d + rest) == Taken(d, rest)
  {
    if d == "" {
      assert d + rest == rest;
    } else {
      assert (d + rest)[1..] == d[1..] + rest;
      DigitsThen(d[1..], rest);
      assert [d[0]] + d[1..] == d;
    }
  }

  /** One more number and a dot in front of a base. */
  lemma TakeOneMore(first: string, s: string, base: seq<string>, rest: string)
    requires IsNumber(first) && s != "" && IsDigit(s[0]) && TakeBase(s) == Some(Bases(base, rest))
    ensures TakeBase(first + ("." + s)) == Some(Bases([first] + base, rest))
  {
    DigitsThen(first, "." + s);
    assert ("." + s)[1..] == s;
  }

  lemma DotJoin(first: string, more: string, rest: string)
    ensures (first + ("." + more)) + rest == first + ("." + (more + rest))
  {
  }

  lemma {:induction false} BaseThen(base: seq<string>, rest: string)
    requires |base| >= 1 && forall i | 0 <= i < |base| :: IsNumber(base[i])
    requires (rest == "" || !IsDigit(rest[0])) && !DotDigit(rest)
    ensures TakeBase(PrintBase(base) + rest) == Some(Bases(base, rest))
  {
    if |base| == 1 {
      DigitsThen(base[0], rest);
      assert base == [base[0]];
    } else {
      var first, more := base[0], base[1..];
      BaseThen(more, rest);
      BaseStarts(more);
      TakeOneMore(first, PrintBase(more) + rest, more, rest);
      DotJoin(first, PrintBase(more), rest);
      assert base == [first] + more;
    }
  }

  lemma BaseStarts(base: seq<string>)
    requires |base| >= 1 && forall i | 0 <= i < |base| :: IsNumber(base[i])
    ensures PrintBase(base) != "" && IsDigit(PrintBase(base)[0])
  {
  }

  lemma PostThen(post: Option<string>)
    requires post.Some? ==> IsNumber(post.value)
    ensures ParsePost(PrintPost(post)) == Some(post)
    ensures var s := PrintPost(post); (s == "" || !IsDigit(s[0])) && !DotDigit(s) && TakeShort(s) == None
  {
    if post.Some? {
      assert (POST + post.value)[..|POST|] == POST;
      assert (POST + post.value)[|POST|..] == post.value;
    }
  }

  lemma ShortThen(p: Pre, rest: string)
    ensures TakeShort(Short(p) + rest) == Some((p, rest))
    ensures var s := Short(p) + rest; s != "" && !IsDigit(s[0]) && !DotDigit(s)
  {
    assert p != Rc ==> (Short(p) + rest)[1..] == rest;
    assert p == Rc ==> (Short(p) + rest)[2..] == rest;
  }

  /** Printing and matching are inverse, one way. */
  lemma ParsePrint(v: Version)
    requires Valid(v)
    ensures Parse(Print(v)) == Some(v)
  {
    var post := PrintPost(v.post);
    PostThen(v.post);
    if v.pre.Some? {
      ShortThen(v.pre.value, v.number + post);
      DigitsThen(v.number, post);
    }
    BaseThen(v.base, PrintPre(v.pre, v.number, post));
  }

  lemma {:induction false} TakeBaseExact(s: string)
    requires TakeBase(s).Some?
    ensures var b := TakeBase(s).value;
            && |b.base| >= 1 && (forall i | 0 <= i < |b.base| :: IsNumber(b.base[i]))
            && s == PrintBase(b.base) + b.rest
    decreases |s|
  {
    var t := TakeDigits(s);
    if DotDigit(t.rest) {
      assert |t.rest| <= |s|;
      TakeBaseExact(t.rest[1..]);
      var more := TakeBase(t.rest[1..]).value;
      var base := [t.head] + more.base;
      assert base[1..] == more.base;
      assert t.rest == "." + t.rest[1..];
    }
  }

  lemma ParsePostExact(s: string)
    requires ParsePost(s).Some?
    ensures s == PrintPost(ParsePost(s).value) && (ParsePost(s).value.Some? ==> IsNumber(ParsePost(s).value.value))
  {
    if s != "" {
      assert s == s[..|POST|] + s[|POST|..];
    }
  }

  lemma TakeShortExact(s: string)
    requires TakeShort(s).Some?
    ensures s == Short(TakeShort(s).value.0) + TakeShort(s).value.1
  {
  }

  lemma ParseTailExact(base: seq<string>, s: string)
    requires ParseTail(base, s).Some?
    ensures var v := ParseTail(base, s).value;
            && v.base == base && s == PrintPre(v.pre, v.number, PrintPost(v.post))
            && (if v.pre.Some? then IsNumber(v.number) else v.number == "") && (v.post.Some? ==> IsNumber(v.post.value))
  {
    if TakeShort(s).Some? {
      TakeShortExact(s);
      ParsePostExact(TakeDigits(TakeShort(s).value.1).rest);
    } else {
      ParsePostExact(s);
    }
  }

  /** And the other way: the matched strings are exactly the printed ones. */
  lemma PrintParse(s: string)
    requires Parse(s).Some?
    ensures Valid(Parse(s).value) && Print(Parse(s).value) == s
  {
    TakeBaseExact(s);
    ParseTailExact(TakeBase(s).value.base, TakeBase(s).value.rest);
  }

  // ---- rewriting a release suffix

  /** Rewrites the one suffix that `rule` matches to the end of the string. */
  function Rewrite(s: string, rule: string -> Option<string>): string {
    if rule(s).Some? then rule(s).value
    else if s == "" then ""
    else [s[0]] + Rewrite(s[1..], rule)
  }

  /** What follows `-name` and an optional dot. */
  function AfterName(s: string, name: string): Option<string> {
    if s == "" || s[0] != '-' || !StartsWith(s[1..], name) then None
    else
      var r := s[1 + |name|..];
      Some(if r != "" && r[0] == '.' then r[1..] else r)
  }

  function OneNumber(name: string, short: string): string -> Option<string> {
    (s: string) =>
      var r := AfterName(s, name);
      if r.Some? && IsNumber(r.value) then Some(short + r.value) else None
  }

  function TwoNumbers(name: string, short: string): string -> Option<string> {
    (s: string) =>
      var r := AfterName(s, name);
      if r.None? then None
      else
        var t := TakeDigits(r.value);
        if t.head != "" && t.rest != "" && t.rest[0] == '.' && IsNumber(t.rest[1..])
        then Some(short + (t.head + (POST + t.rest[1..]))) else None
  }

  ghost predicate NeedsDash(rule: string -> Option<string>) {
    forall s :: (s == "" || s[0] != '-') ==> rule(s) == None
  }

  predicate NoDash(s: string) {
    forall i | 0 <= i < |s| :: s[i] != '-'
  }

  lemma {:induction false} RewriteSkips(s: string, rest: string, rule: string -> Option<string>)
    requires NeedsDash(rule) && NoDash(s)
    ensures Rewrite(s + rest, rule) == s + Rewrite(rest, rule)
  {
    if s == "" {
      assert s + rest == rest;
    } else {
      assert (s + rest)[1..] == s[1..] + rest;
      RewriteSkips(s[1..], rest, rule);
      assert s == [s[0]] + s[1..];
    }
  }

  lemma RewriteNothing(s: string, rule: string -> Option<string>)
    requires NeedsDash(rule) && NoDash(s)
    ensures Rewrite(s, rule) == s
  {
    RewriteSkips(s, "", rule);
    assert s + "" == s;
  }

  /** A suffix the rule does not match stays. */
  lemma RewriteStays(s: string, suffix: string, rule: string -> Option<string>)
    requires NeedsDash(rule) && NoDash(s) && suffix != "" && NoDash(suffix[1..]) && rule(suffix) == None
    ensures Rewrite(s + suffix, rule) == s + suffix
  {
    RewriteSkips(s, suffix, rule);
    RewriteNothing(suffix[1..], rule);
    assert suffix == [suffix[0]] + suffix[1..];
  }
}
