/** Substituting a slash command's arguments into its template. */
module Templates {
  import opened Text

  const ARGUMENTS := "$ARGUMENTS"

  // ---- split and join

  /** The pieces between non-overlapping occurrences of `sep`, from the left. */
  function SplitOn(s: string, sep: string): (pieces: seq<string>)
    requires sep != ""
    ensures |pieces| >= 1
    decreases |s|
  {
    if s == "" then [""]
    else if StartsWith(s, sep) then [""] + SplitOn(s[|sep|..], sep)
    else
      var rest := SplitOn(s[1..], sep);
      [[s[0]] + rest[0]] + rest[1..]
  }

  function Join(pieces: seq<string>, glue: string): string
    requires |pieces| >= 1
  {
    if |pieces| == 1 then pieces[0] else pieces[0] + (glue + Join(pieces[1..], glue))
  }

  /** Every occurrence of `sep` replaced, from the left. */
  function Replace(s: string, sep: string, value: string): string
    requires sep != ""
    decreases |s|
  {
    if s == "" then ""
    else if StartsWith(s, sep) then value + Replace(s[|sep|..], sep, value)
    else [s[0]] + Replace(s[1..], sep, value)
  }

  lemma JoinHead(head: string, pieces: seq<string>, glue: string)
    requires |pieces| >= 1
    ensures Join([head + pieces[0]] + pieces[1..], glue) == head + Join(pieces, glue)
  {
    var more := [head + pieces[0]] + pieces[1..];
    if |pieces| > 1 {
      assert more[1..] == pieces[1..];
      var tail := glue + Join(pieces[1..], glue);
      assert (head + pieces[0]) + tail == head + (pieces[0] + tail);
    }
  }

  lemma {:induction false} JoinSplit(s: string, sep: string, value: string)
    requires sep != ""
    ensures Join(SplitOn(s, sep), value) == Replace(s, sep, value)
    decreases |s|
  {
    if s == "" {
    } else if StartsWith(s, sep) {
      var rest := SplitOn(s[|sep|..], sep);
      JoinSplit(s[|sep|..], sep, value);
      assert ([""] + rest)[1..] == rest;
      assert "" + (value + Join(rest, value)) == value + Join(rest, value);
    } else {
      JoinSplit(s[1..], sep, value);
      JoinHead([s[0]], SplitOn(s[1..], sep), value);
    }
  }

  // ---- the sequential code

  function Digit(i: nat): char
    requires i <= 9
  {
    ('0' as int + i) as char
  }

  /** Word `i` of the arguments, counted from 1; empty where there is none. */
  function Word(args: string, i: nat): string
    requires i >= 1
  {
    var words := SplitSpaces(args);
    if i <= |words| then words[i - 1] else ""
  }

  /** The prompt after the first `n` numbered replacements. */
  function Sequential(template: string, long: string, args: string, word: nat -> string, n: nat): string
    requires long != "" && n <= 9
  {
    if n == 0 then Replace(template, long, args)
    else Replace(Sequential(template, long, args, word, n - 1), ['$', Digit(n)], word(n))
  }

  // ---- the simultaneous substitution

  predicate Numbered(t: string, n: nat)
    requires n <= 9
  {
    |t| >= 2 && t[0] == '$' && '1' <= t[1] <= Digit(n)
  }

  /** One pass over the template: `long` becomes `args` and `$1` to `$n` become the words. */
  function Simultaneous(t: string, long: string, args: string, word: nat -> string, n: nat): string
    requires long != "" && n <= 9
    decreases |t|
  {
    if t == "" then ""
    else if StartsWith(t, long) then args + Simultaneous(t[|long|..], long, args, word, n)
    else if Numbered(t, n) then word((t[1] - '0') as nat) + Simultaneous(t[2..], long, args, word, n)
    else [t[0]] + Simultaneous(t[1..], long, args, word, n)
  }

  predicate NoDollar(s: string) {
    forall i | 0 <= i < |s| :: s[i] != '$'
  }

  predicate NoDoubleDollar(s: string) {
    forall i | 0 <= i < |s| - 1 :: s[i] == '$' ==> s[i + 1] != '$'
  }

  /** The replacement of `$n` finds nothing in the value, nor at its end. */
  predicate Inert(value: string, n: nat)
    requires n <= 9
  {
    && (forall i | 0 <= i < |value| - 1 :: value[i] == '$' ==> value[i + 1] != Digit(n))
    && (value == "" || value[|value| - 1] != '$')
  }

  /** What is put in for `long` and for each numbered token. */
  function Value(args: string, word: nat -> string, k: nat): string {
    if k == 0 then args else word(k)
  }

  /** No later replacement changes a value that was put in: it finds nothing in it, or it
      replaces its token by itself. */
  predicate Harmless(args: string, word: nat -> string, n: nat)
    requires n <= 9
  {
    forall k: nat, j: nat | k < j <= n :: word(j) == ['$', Digit(j)] || Inert(Value(args, word, k), j)
  }

  lemma NoStart(s: string, sep: string, i: nat)
    requires i < |sep| && (i < |s| ==> s[i] != sep[i])
    ensures !StartsWith(s, sep)
  {
    assert |sep| <= |s| ==> s[..|sep|][i] == s[i];
  }

  lemma {:induction false} ReplaceSkips(value: string, rest: string, n: nat, text: string)
    requires n <= 9 && Inert(value, n)
    ensures Replace(value + rest, ['$', Digit(n)], text) == value + Replace(rest, ['$', Digit(n)], text)
  {
    if value == "" {
      assert value + rest == rest;
    } else {
      var s := value + rest;
      assert s[1..] == value[1..] + rest && s[0] == value[0];
      assert |value| > 1 ==> s[1] == value[1];
      NoStart(s, ['$', Digit(n)], if value[0] == '$' then 1 else 0);
      ReplaceSkips(value[1..], rest, n, text);
      assert value == [value[0]] + value[1..];
    }
  }

  lemma ReplaceChar(c: char, rest: string, sep: string, text: string)
    requires sep != "" && !StartsWith([c] + rest, sep)
    ensures Replace([c] + rest, sep, text) == [c] + Replace(rest, sep, text)
  {
    assert ([c] + rest)[1..] == rest;
  }

  lemma ReplaceMatch(rest: string, sep: string, text: string)
    requires sep != ""
    ensures Replace(sep + rest, sep, text) == text + Replace(rest, sep, text)
  {
    assert (sep + rest)[|sep|..] == rest && (sep + rest)[..|sep|] == sep;
  }

  /** A character that starts no token is copied. */
  lemma Copied(t: string, long: string, args: string, word: nat -> string, n: nat)
    requires long != "" && long[0] == '$' && n <= 9 && t != "" && t[0] != '$'
    ensures Simultaneous(t, long, args, word, n) == [t[0]] + Simultaneous(t[1..], long, args, word, n)
  {
    assert !StartsWith(t, long);
  }

  predicate EndsInDollar(s: string) {
    s != "" && s[|s| - 1] == '$'
  }

  lemma {:induction false} ReplaceConcat(value: string, rest: string, n: nat, text: string)
    requires n <= 9 && !EndsInDollar(value)
    ensures Replace(value + rest, ['$', Digit(n)], text) == Replace(value, ['$', Digit(n)], text) + Replace(rest, ['$', Digit(n)], text)
    decreases |value|
  {
    var sep := ['$', Digit(n)];
    if value == "" {
      assert value + rest == rest;
    } else if StartsWith(value, sep) {
      var tail := value[2..];
      assert value == sep + tail && sep + tail + rest == sep + (tail + rest);
      ReplaceConcat(tail, rest, n, text);
      ReplaceMatch(tail + rest, sep, text);
      Grouped(text, Replace(tail, sep, text), Replace(rest, sep, text));
    } else {
      var c, tail := value[0], value[1..];
      assert value == [c] + tail && [c] + tail + rest == [c] + (tail + rest);
      StartsAlike(value, rest, sep);
      ReplaceConcat(tail, rest, n, text);
      ReplaceChar(c, tail + rest, sep, text);
      Grouped([c], Replace(tail, sep, text), Replace(rest, sep, text));
    }
  }

  lemma Grouped(a: string, b: string, c: string)
    ensures (a + b) + c == a + (b + c)
  {
  }

  lemma StartsAlike(value: string, rest: string, sep: string)
    requires |sep| == 2 && sep[0] == '$' && value != "" && !EndsInDollar(value) && !StartsWith(value, sep)
    ensures !StartsWith(value + rest, sep)
  {
    var s := value + rest;
    assert s[0] == value[0];
    if |value| >= 2 {
      assert s[..2] == value[..2];
    } else {
      NoStart(s, sep, 0);
    }
  }

  /** One more pass over a simultaneous substitution, if no value ends in a dollar sign: it
      is the substitution with the values after that pass. */
  lemma {:induction false} OneMorePass(t: string, long: string, args: string, word: nat -> string,
                                       args2: string, word2: nat -> string, n: nat, text: string)
    requires long != "" && long[0] == '$' && 1 <= n <= 9 && NoDoubleDollar(t) && word2(n) == text
    requires forall k: nat | k < n :: !EndsInDollar(Value(args, word, k))
    requires forall k: nat | k < n :: Value(args2, word2, k) == Replace(Value(args, word, k), ['$', Digit(n)], text)
    ensures Replace(Simultaneous(t, long, args, word, n - 1), ['$', Digit(n)], text) == Simultaneous(t, long, args2, word2, n)
    decreases |t|
  {
    if t == "" {
    } else if StartsWith(t, long) {
      OneMorePass(t[|long|..], long, args, word, args2, word2, n, text);
      PassOver(args, word, args2, word2, n, text, 0, Simultaneous(t[|long|..], long, args, word, n - 1));
    } else if Numbered(t, n - 1) {
      OneMorePass(t[2..], long, args, word, args2, word2, n, text);
      PassOver(args, word, args2, word2, n, text, (t[1] - '0') as nat, Simultaneous(t[2..], long, args, word, n - 1));
    } else if Numbered(t, n) {
      OneMorePass(t[2..], long, args, word, args2, word2, n, text);
      TokenLeft(t, long, args, word, n);
      ReplaceMatch(Simultaneous(t[2..], long, args, word, n - 1), ['$', Digit(n)], text);
    } else {
      OneMorePass(t[1..], long, args, word, args2, word2, n, text);
      CharLeft(t, long, args, word, n, text);
    }
  }

  lemma PassOver(args: string, word: nat -> string, args2: string, word2: nat -> string, n: nat, text: string, k: nat, rest: string)
    requires 1 <= n <= 9 && k < n && !EndsInDollar(Value(args, word, k))
    requires Value(args2, word2, k) == Replace(Value(args, word, k), ['$', Digit(n)], text)
    ensures Replace(Value(args, word, k) + rest, ['$', Digit(n)], text) == Value(args2, word2, k) + Replace(rest, ['$', Digit(n)], text)
  {
    ReplaceConcat(Value(args, word, k), rest, n, text);
  }

  /** The token `$n` is still there before pass `n`. */
  lemma TokenLeft(t: string, long: string, args: string, word: nat -> string, n: nat)
    requires long != "" && long[0] == '$' && 1 <= n <= 9
    requires Numbered(t, n) && !Numbered(t, n - 1) && !StartsWith(t, long)
    ensures Simultaneous(t, long, args, word, n - 1) == ['$', Digit(n)] + Simultaneous(t[2..], long, args, word, n - 1)
  {
    Copied(t[1..], long, args, word, n - 1);
    assert t[1..][1..] == t[2..];
    var rest := Simultaneous(t[2..], long, args, word, n - 1);
    assert [t[0]] + ([t[1]] + rest) == [t[0], t[1]] + rest;
  }

  lemma CharLeft(t: string, long: string, args: string, word: nat -> string, n: nat, text: string)
    requires long != "" && long[0] == '$' && 1 <= n <= 9 && NoDoubleDollar(t)
    requires t != "" && !Numbered(t, n) && !StartsWith(t, long)
    ensures var rest := Simultaneous(t[1..], long, args, word, n - 1);
            Replace([t[0]] + rest, ['$', Digit(n)], text) == [t[0]] + Replace(rest, ['$', Digit(n)], text)
  {
    var rest := Simultaneous(t[1..], long, args, word, n - 1);
    if t[0] == '$' && |t| > 1 {
      Copied(t[1..], long, args, word, n - 1);
      assert ([t[0]] + rest)[1] == t[1] && t[1] != Digit(n);
    }
    NoStart([t[0]] + rest, ['$', Digit(n)], if t[0] == '$' then 1 else 0);
    ReplaceChar(t[0], rest, ['$', Digit(n)], text);
  }

  lemma InertStays(value: string, n: nat, text: string)
    requires n <= 9 && Inert(value, n)
    ensures Replace(value, ['$', Digit(n)], text) == value && !EndsInDollar(value)
  {
    ReplaceSkips(value, "", n, text);
    assert value + "" == value;
  }

  /** The pass for `$1` to `$n-1` followed by the replacement of `$n` is the pass for `$1` to `$n`. */
  lemma OneMoreInert(t: string, long: string, args: string, word: nat -> string, n: nat)
    requires long != "" && long[0] == '$' && 1 <= n <= 9 && NoDoubleDollar(t)
    requires forall k: nat | k < n :: Inert(Value(args, word, k), n)
    ensures Replace(Simultaneous(t, long, args, word, n - 1), ['$', Digit(n)], word(n)) ==
            Simultaneous(t, long, args, word, n)
  {
    forall k: nat | k < n
      ensures !EndsInDollar(Value(args, word, k))
      ensures Value(args, word, k) == Replace(Value(args, word, k), ['$', Digit(n)], word(n))
    {
      InertStays(Value(args, word, k), n, word(n));
    }
    OneMorePass(t, long, args, word, args, word, n, word(n));
  }

  lemma {:induction false} ReplaceByItself(s: string, sep: string)
    requires sep != ""
    ensures Replace(s, sep, sep) == s
    decreases |s|
  {
    if s == "" {
    } else if StartsWith(s, sep) {
      ReplaceByItself(s[|sep|..], sep);
      assert s == sep + s[|sep|..];
    } else {
      ReplaceByItself(s[1..], sep);
      assert s == [s[0]] + s[1..];
    }
  }

  lemma {:induction false} NumberedByItself(t: string, long: string, args: string, word: nat -> string, n: nat)
    requires long != "" && long[0] == '$' && 1 <= n <= 9 && word(n) == ['$', Digit(n)]
    ensures Simultaneous(t, long, args, word, n - 1) == Simultaneous(t, long, args, word, n)
    decreases |t|
  {
    if t == "" {
    } else if StartsWith(t, long) {
      NumberedByItself(t[|long|..], long, args, word, n);
    } else if Numbered(t, n - 1) {
      NumberedByItself(t[2..], long, args, word, n);
    } else if Numbered(t, n) {
      NumberedByItself(t[2..], long, args, word, n);
      Copied(t[1..], long, args, word, n - 1);
      assert t[1..][1..] == t[2..];
      var rest := Simultaneous(t[2..], long, args, word, n - 1);
      assert [t[0]] + ([t[1]] + rest) == word(n) + rest;
    } else {
      NumberedByItself(t[1..], long, args, word, n);
    }
  }

  lemma OneMore(t: string, long: string, args: string, word: nat -> string, n: nat)
    requires long != "" && long[0] == '$' && 1 <= n <= 9 && NoDoubleDollar(t) && Harmless(args, word, n)
    ensures Replace(Simultaneous(t, long, args, word, n - 1), ['$', Digit(n)], word(n)) ==
            Simultaneous(t, long, args, word, n)
  {
    if word(n) == ['$', Digit(n)] {
      ReplaceByItself(Simultaneous(t, long, args, word, n - 1), word(n));
      NumberedByItself(t, long, args, word, n);
    } else {
      OneMoreInert(t, long, args, word, n);
    }
  }

  lemma {:induction false} NoneNumbered(t: string, long: string, args: string, word: nat -> string)
    requires long != ""
    ensures Replace(t, long, args) == Simultaneous(t, long, args, word, 0)
    decreases |t|
  {
    if t == "" {
    } else if StartsWith(t, long) {
      NoneNumbered(t[|long|..], long, args, word);
    } else {
      NoneNumbered(t[1..], long, args, word);
    }
  }

  /** The replacements one after the other are one simultaneous substitution. */
  lemma {:induction false} SequentialIsSimultaneous(t: string, long: string, args: string, word: nat -> string, n: nat)
    requires long != "" && long[0] == '$' && n <= 9 && NoDoubleDollar(t) && Harmless(args, word, n)
    ensures Sequential(t, long, args, word, n) == Simultaneous(t, long, args, word, n)
  {
    if n == 0 {
      NoneNumbered(t, long, args, word);
    } else {
      SequentialIsSimultaneous(t, long, args, word, n - 1);
      OneMore(t, long, args, word, n);
    }
  }

  // ---- the condition is exact

  lemma {:induction false} ReplaceLength(s: string, sep: string, text: string)
    requires sep != ""
    ensures |text| >= |sep| ==> |Replace(s, sep, text)| >= |s|
    ensures |text| <= |sep| ==> |Replace(s, sep, text)| <= |s|
    decreases |s|
  {
    if s == "" {
    } else if StartsWith(s, sep) {
      ReplaceLength(s[|sep|..], sep, text);
    } else {
      ReplaceLength(s[1..], sep, text);
    }
  }

  /** A replacement that finds something changes the text, unless it replaces by the same. */
  lemma {:induction false} ReplaceChanges(s: string, sep: string, text: string, i: nat)
    requires sep != "" && text != sep && i <= |s| && StartsWith(s[i..], sep)
    ensures Replace(s, sep, text) != s
    decreases |s|
  {
    if StartsWith(s, sep) {
      var rest := s[|sep|..];
      ReplaceLength(rest, sep, text);
      assert s == sep + rest;
      if |text| == |sep| {
        assert Replace(s, sep, text)[..|sep|] == text;
      }
    } else {
      assert i > 0 && s[1..][i - 1..] == s[i..];
      ReplaceChanges(s[1..], sep, text, i - 1);
      assert Replace(s, sep, text)[1..] == Replace(s[1..], sep, text);
    }
  }

  /** The template that is just one token: `long` for 0, `$k` otherwise. */
  function TokenOf(long: string, k: nat): string
    requires k <= 9
  {
    if k == 0 then long else ['$', Digit(k)]
  }

  predicate IsLong(long: string) {
    |long| > 1 && long[0] == '$' && !('0' <= long[1] <= '9') && NoDoubleDollar(long)
  }

  lemma TokenValue(long: string, args: string, word: nat -> string, k: nat, n: nat, rest: string)
    requires IsLong(long) && k <= n <= 9
    ensures Simultaneous(TokenOf(long, k) + rest, long, args, word, n) == Value(args, word, k) + Simultaneous(rest, long, args, word, n)
  {
    var t := TokenOf(long, k) + rest;
    if k == 0 {
      assert t[..|long|] == long && t[|long|..] == rest;
    } else {
      assert t[0] == '$' && t[1] == Digit(k) && t[2..] == rest;
      NoStart(t, long, 1);
    }
  }

  /** What is left of a token and perhaps one digit before pass `j`. */
  lemma TokenAndDigit(long: string, args: string, word: nat -> string, k: nat, n: nat, rest: string, j: nat)
    requires IsLong(long) && k <= n <= 9 && j <= 9 && (rest == "" || rest == [Digit(j)])
    ensures Simultaneous(TokenOf(long, k) + rest, long, args, word, n) == Value(args, word, k) + rest
  {
    TokenValue(long, args, word, k, n, rest);
    DigitCopied(long, args, word, n, rest, j);
  }

  lemma TokenIsPlain(long: string, k: nat, rest: string, j: nat)
    requires IsLong(long) && k <= 9 && j <= 9 && (rest == "" || rest == [Digit(j)])
    ensures NoDoubleDollar(TokenOf(long, k) + rest)
  {
    var t := TokenOf(long, k) + rest;
    assert forall i | 0 <= i < |TokenOf(long, k)| :: t[i] == TokenOf(long, k)[i];
    assert forall i | |TokenOf(long, k)| <= i < |t| :: t[i] == Digit(j);
  }

  lemma NotInert(value: string, j: nat) returns (rest: string, i: nat)
    requires j <= 9 && !Inert(value, j)
    ensures (rest == "" || rest == [Digit(j)]) && i <= |value + rest| && StartsWith((value + rest)[i..], ['$', Digit(j)])
  {
    if EndsInDollar(value) {
      rest, i := [Digit(j)], |value| - 1;
      assert (value + rest)[i..] == ['$', Digit(j)];
    } else {
      rest := "";
      i :| 0 <= i < |value| - 1 && value[i] == '$' && value[i + 1] == Digit(j);
      assert (value + rest)[i..][..2] == ['$', Digit(j)];
    }
  }

  /** If `$j` is replaced by something else and turns up in a value that was put in before,
      or could turn up at its end, there is a template for which pass `j` goes wrong. */
  lemma Harmful(long: string, args: string, word: nat -> string, k: nat, j: nat) returns (t: string)
    requires IsLong(long) && k < j <= 9 && word(j) != ['$', Digit(j)] && !Inert(Value(args, word, k), j)
    ensures NoDoubleDollar(t)
    ensures Replace(Simultaneous(t, long, args, word, j - 1), ['$', Digit(j)], word(j)) != Simultaneous(t, long, args, word, j)
  {
    var rest, i := NotInert(Value(args, word, k), j);
    t := TokenOf(long, k) + rest;
    TokenIsPlain(long, k, rest, j);
    TokenAndDigit(long, args, word, k, j - 1, rest, j);
    TokenAndDigit(long, args, word, k, j, rest, j);
    ReplaceChanges(Value(args, word, k) + rest, ['$', Digit(j)], word(j), i);
  }

  lemma DigitCopied(long: string, args: string, word: nat -> string, n: nat, rest: string, j: nat)
    requires IsLong(long) && n <= 9 && j <= 9 && (rest == "" || rest == [Digit(j)])
    ensures Simultaneous(rest, long, args, word, n) == rest
  {
    if rest != "" {
      Copied(rest, long, args, word, n);
      assert rest[1..] == "";
    }
  }

  /** For given arguments, every pass agrees with the simultaneous substitution on every
      template without `$$` exactly when the arguments and words are harmless. */
  lemma HarmlessIsExact(long: string, args: string, word: nat -> string)
    requires IsLong(long)
    ensures Harmless(args, word, 9) <==>
            forall t: string, n: nat | NoDoubleDollar(t) && n <= 9 ::
              Sequential(t, long, args, word, n) == Simultaneous(t, long, args, word, n)
  {
    if Harmless(args, word, 9) {
      forall t: string, n: nat | NoDoubleDollar(t) && n <= 9
        ensures Sequential(t, long, args, word, n) == Simultaneous(t, long, args, word, n)
      {
        assert Harmless(args, word, n);
        SequentialIsSimultaneous(t, long, args, word, n);
      }
    } else {
      var k: nat, j: nat :| k < j <= 9 && word(j) != ['$', Digit(j)] && !Inert(Value(args, word, k), j);
      var t := Harmful(long, args, word, k, j);
      assert Sequential(t, long, args, word, j - 1) != Simultaneous(t, long, args, word, j - 1)
             || Sequential(t, long, args, word, j) != Simultaneous(t, long, args, word, j);
    }
  }

  // ---- when the final text agrees

  /** Value `k` after the replacements up to `n`. */
  function Staged(args: string, word: nat -> string, k: nat, n: nat): string
    requires k <= n <= 9
    decreases n
  {
    if n == k then Value(args, word, k) else Replace(Staged(args, word, k, n - 1), ['$', Digit(n)], word(n))
  }

  /** No value ends in a dollar sign when a later replacement could complete it. */
  predicate Firm(args: string, word: nat -> string, n: nat)
    requires n <= 9
  {
    forall k: nat, j: nat | k < j <= n :: FirmAt(args, word, k, j)
  }

  predicate FirmAt(args: string, word: nat -> string, k: nat, j: nat)
    requires k < j <= 9
  {
    word(j) == ['$', Digit(j)] || !EndsInDollar(Staged(args, word, k, j - 1))
  }

  function StagedWords(args: string, word: nat -> string, n: nat): nat -> string
    requires n <= 9
  {
    (k: nat) => if 1 <= k <= n then Staged(args, word, k, n) else word(k)
  }

  lemma {:induction false} SameWords(t: string, long: string, args: string, word: nat -> string, args2: string, word2: nat -> string, n: nat)
    requires long != "" && n <= 9 && forall k: nat | k <= n :: Value(args, word, k) == Value(args2, word2, k)
    ensures Simultaneous(t, long, args, word, n) == Simultaneous(t, long, args2, word2, n)
    decreases |t|
  {
    assert args == Value(args, word, 0) && args2 == Value(args2, word2, 0);
    if t == "" {
    } else if StartsWith(t, long) {
      SameWords(t[|long|..], long, args, word, args2, word2, n);
    } else if Numbered(t, n) {
      var k := (t[1] - '0') as nat;
      assert word(k) == Value(args, word, k) && word2(k) == Value(args2, word2, k);
      SameWords(t[2..], long, args, word, args2, word2, n);
    } else {
      SameWords(t[1..], long, args, word, args2, word2, n);
    }
  }

  lemma StagedValue(args: string, word: nat -> string, k: nat, n: nat)
    requires k <= n <= 9
    ensures Value(Staged(args, word, 0, n), StagedWords(args, word, n), k) == Staged(args, word, k, n)
  {
  }

  lemma StagedNext(t: string, long: string, args: string, word: nat -> string, n: nat)
    requires long != "" && long[0] == '$' && 1 <= n <= 9 && NoDoubleDollar(t) && Firm(args, word, n)
    ensures Replace(Simultaneous(t, long, Staged(args, word, 0, n - 1), StagedWords(args, word, n - 1), n - 1), ['$', Digit(n)], word(n)) ==
            Simultaneous(t, long, Staged(args, word, 0, n), StagedWords(args, word, n), n)
  {
    var a, w, a2, w2 := Staged(args, word, 0, n - 1), StagedWords(args, word, n - 1), Staged(args, word, 0, n), StagedWords(args, word, n);
    forall k: nat | k < n
      ensures Value(a, w, k) == Staged(args, word, k, n - 1)
      ensures Value(a2, w2, k) == Replace(Value(a, w, k), ['$', Digit(n)], word(n))
    {
      StagedValue(args, word, k, n - 1);
      StagedValue(args, word, k, n);
    }
    StagedValue(args, word, n, n);
    if word(n) == ['$', Digit(n)] {
      forall k: nat | k <= n ensures Value(a, w, k) == Value(a2, w2, k) {
        if k < n {
          ReplaceByItself(Value(a, w, k), word(n));
        }
      }
      ReplaceByItself(Simultaneous(t, long, a, w, n - 1), word(n));
      NumberedByItself(t, long, a, w, n);
      SameWords(t, long, a, w, a2, w2, n);
    } else {
      forall k: nat | k < n ensures !EndsInDollar(Value(a, w, k)) {
        assert FirmAt(args, word, k, n);
      }
      OneMorePass(t, long, a, w, a2, w2, n, word(n));
    }
  }

  /** The replacements one after the other are one pass with the values as they end up. */
  lemma {:induction false} SequentialIsStaged(t: string, long: string, args: string, word: nat -> string, n: nat)
    requires long != "" && long[0] == '$' && n <= 9 && NoDoubleDollar(t) && Firm(args, word, n)
    ensures Sequential(t, long, args, word, n) == Simultaneous(t, long, Staged(args, word, 0, n), StagedWords(args, word, n), n)
  {
    if n == 0 {
      NoneNumbered(t, long, args, word);
      SameWords(t, long, args, word, Staged(args, word, 0, 0), StagedWords(args, word, 0), 0);
    } else {
      SequentialIsStaged(t, long, args, word, n - 1);
      StagedNext(t, long, args, word, n);
    }
  }

  /** Every value comes out of the later replacements as it was put in. */
  predicate Unchanged(args: string, word: nat -> string) {
    forall k: nat | k <= 9 :: Staged(args, word, k, 9) == Value(args, word, k)
  }

  lemma UnchangedByToken(long: string, args: string, word: nat -> string, k: nat)
    requires IsLong(long) && Firm(args, word, 9) && k <= 9
    requires forall t: string | NoDoubleDollar(t) :: Sequential(t, long, args, word, 9) == Simultaneous(t, long, args, word, 9)
    ensures Staged(args, word, k, 9) == Value(args, word, k)
  {
    var a, w, t := Staged(args, word, 0, 9), StagedWords(args, word, 9), TokenOf(long, k);
    assert t + "" == t && NoDoubleDollar(t);
    SequentialIsStaged(t, long, args, word, 9);
    TokenAndDigit(long, args, word, k, 9, "", 0);
    TokenAndDigit(long, a, w, k, 9, "", 0);
    StagedValue(args, word, k, 9);
    assert Value(args, word, k) + "" == Value(args, word, k) && Value(a, w, k) + "" == Value(a, w, k);
  }

  /** For arguments whose values stay clear of a dollar sign at the end, the final text agrees
      with the simultaneous substitution on every template without `$$` exactly when each
      value comes out of the later replacements unchanged. */
  lemma FinalIsExact(long: string, args: string, word: nat -> string)
    requires IsLong(long) && Firm(args, word, 9)
    ensures Unchanged(args, word) <==>
            forall t: string | NoDoubleDollar(t) :: Sequential(t, long, args, word, 9) == Simultaneous(t, long, args, word, 9)
  {
    if Unchanged(args, word) {
      forall t: string | NoDoubleDollar(t)
        ensures Sequential(t, long, args, word, 9) == Simultaneous(t, long, args, word, 9)
      {
        SequentialIsStaged(t, long, args, word, 9);
        forall k: nat | k <= 9 ensures Value(args, word, k) == Value(Staged(args, word, 0, 9), StagedWords(args, word, 9), k) {
          StagedValue(args, word, k, 9);
        }
        SameWords(t, long, args, word, Staged(args, word, 0, 9), StagedWords(args, word, 9), 9);
      }
    }
    if forall t: string | NoDoubleDollar(t) :: Sequential(t, long, args, word, 9) == Simultaneous(t, long, args, word, 9) {
      forall k: nat | k <= 9 ensures Staged(args, word, k, 9) == Value(args, word, k) {
        UnchangedByToken(long, args, word, k);
      }
    }
  }

  // ---- the command

  function WordOf(args: string): nat -> string {
    (i: nat) => if i == 0 then "" else Word(args, i)
  }

  lemma {:induction false} WordsNoDollar(args: string)
    requires NoDollar(args)
    ensures forall i | 0 <= i < |SplitSpaces(args)| :: NoDollar(SplitSpaces(args)[i])
    decreases |args|
  {
    if args == "" {
    } else if IsSpace(args[0]) {
      WordsNoDollar(TrimStart(args[1..]));
    } else {
      WordsNoDollar(args[1..]);
    }
  }

  /** Arguments without a dollar sign are harmless. */
  lemma NoDollarIsHarmless(args: string)
    requires NoDollar(args)
    ensures Harmless(args, WordOf(args), 9)
  {
    WordsNoDollar(args);
    forall k: nat, j: nat | k < j <= 9
      ensures Inert(Value(args, WordOf(args), k), j)
    {
      assert NoDollar(Value(args, WordOf(args), k));
    }
  }

  method Substitute(template: string, args: string) returns (prompt: string)
    ensures prompt == Sequential(template, ARGUMENTS, args, WordOf(args), 9)
    ensures Harmless(args, WordOf(args), 9) && NoDoubleDollar(template) ==>
              prompt == Simultaneous(template, ARGUMENTS, args, WordOf(args), 9)
    ensures NoDollar(args) && NoDoubleDollar(template) ==>
              prompt == Simultaneous(template, ARGUMENTS, args, WordOf(args), 9)
  {
    ghost var word := WordOf(args);
    prompt := Join(SplitOn(template, ARGUMENTS), args);
    JoinSplit(template, ARGUMENTS, args);
    for i := 1 to 10
      invariant prompt == Sequential(template, ARGUMENTS, args, word, i - 1)
    {
      JoinSplit(prompt, ['$', Digit(i)], Word(args, i));
      prompt := Join(SplitOn(prompt, ['$', Digit(i)]), Word(args, i));
    }
    if NoDollar(args) {
      NoDollarIsHarmless(args);
    }
    if Harmless(args, word, 9) && NoDoubleDollar(template) {
      SequentialIsSimultaneous(template, ARGUMENTS, args, word, 9);
    }
  }

  // ---- neither condition can be dropped

  lemma {:induction false} StaysWithoutDollar(t: string, long: string, args: string, word: nat -> string, k: nat, n: nat)
    requires long != "" && k <= n <= 9 && NoDollar(Sequential(t, long, args, word, k))
    ensures Sequential(t, long, args, word, n) == Sequential(t, long, args, word, k)
  {
    if k < n {
      StaysWithoutDollar(t, long, args, word, k, n - 1);
      var s := Sequential(t, long, args, word, n - 1);
      ReplaceSkips(s, "", n, word(n));
      assert s + "" == s;
    }
  }

  lemma ReplaceAll(sep: string, text: string)
    requires sep != ""
    ensures Replace(sep, sep, text) == text
  {
    ReplaceMatch("", sep, text);
    assert sep + "" == sep && text + Replace("", sep, text) == text;
  }

  lemma NoMatch(s: string, sep: string, text: string)
    requires |s| < |sep|
    ensures Replace(s, sep, text) == s
  {
    if s != "" {
      NoMatch(s[1..], sep, text);
      assert s == [s[0]] + s[1..];
    }
  }

  predicate NoSpace(s: string) {
    forall i | 0 <= i < |s| :: !IsSpace(s[i])
  }

  lemma SplitChar(c: char, rest: string)
    requires !IsSpace(c)
    ensures var words := SplitSpaces(rest); SplitSpaces([c] + rest) == [[c] + words[0]] + words[1..]
  {
    assert ([c] + rest)[1..] == rest;
  }

  lemma SplitAtSpace(b: string)
    requires b != "" && !IsSpace(b[0])
    ensures SplitSpaces(" " + b) == [""] + SplitSpaces(b)
  {
    assert (" " + b)[1..] == b && TrimStart(b) == b;
  }

  lemma HeadJoin(c: char, tail: string, more: seq<string>)
    ensures var words := [tail] + more; [[c] + words[0]] + words[1..] == [[c] + tail] + more
  {
  }

  lemma SplitOneMore(c: char, tail: string, rest: string, more: seq<string>)
    requires !IsSpace(c) && SplitSpaces(tail + rest) == [tail] + more
    ensures SplitSpaces(([c] + tail) + rest) == [[c] + tail] + more
  {
    Grouped([c], tail, rest);
    SplitChar(c, tail + rest);
    HeadJoin(c, tail, more);
  }

  lemma {:induction false} SplitWord(a: string, b: string)
    requires NoSpace(a) && b != "" && !IsSpace(b[0])
    ensures SplitSpaces(a + (" " + b)) == [a] + SplitSpaces(b)
  {
    if a == "" {
      assert a + (" " + b) == " " + b;
      SplitAtSpace(b);
    } else {
      SplitWord(a[1..], b);
      assert a == [a[0]] + a[1..];
      SplitOneMore(a[0], a[1..], " " + b, SplitSpaces(b));
    }
  }

  lemma {:induction false} OneWord(s: string)
    requires NoSpace(s)
    ensures SplitSpaces(s) == [s]
  {
    if s != "" {
      OneWord(s[1..]);
      assert [s[0]] + s[1..] == s;
    }
  }

  lemma TwoWords(args: string, a: string, b: string)
    requires NoSpace(a) && NoSpace(b) && b != "" && args == a + (" " + b)
    ensures WordOf(args)(1) == a && WordOf(args)(2) == b
  {
    SplitWord(a, b);
    OneWord(b);
    WordsOfTwo(args, a, b);
  }

  lemma WordsOfTwo(args: string, a: string, b: string)
    requires SplitSpaces(args) == [a] + [b]
    ensures WordOf(args)(1) == a && WordOf(args)(2) == b
  {
  }

  /** A word that itself reads `$2` is substituted again. */
  lemma DollarInWords(long: string, args: string, word: nat -> string)
    requires |long| > 2 && word(1) == "$2" && NoDollar(word(2))
    ensures Sequential("$1", long, args, word, 9) == word(2) && Simultaneous("$1", long, args, word, 9) == "$2"
  {
    NoMatch("$1", long, args);
    assert ['$', Digit(1)] == "$1" && ['$', Digit(2)] == "$2";
    ReplaceAll("$1", word(1));
    ReplaceAll("$2", word(2));
    assert Sequential("$1", long, args, word, 1) == "$2";
    StaysWithoutDollar("$1", long, args, word, 2, 9);
    assert "$1"[2..] == "" && Numbered("$1", 9);
  }

  /** A dollar sign before a token joins with the word put after it. */
  lemma DollarBeforeToken(long: string, args: string, word: nat -> string)
    requires |long| > 3 && word(1) == "2" && NoDollar(word(2))
    ensures Sequential("$$1", long, args, word, 9) == word(2) && Simultaneous("$$1", long, args, word, 9) == "$2"
  {
    NoMatch("$$1", long, args);
    assert ['$', Digit(1)] == "$1" && ['$', Digit(2)] == "$2";
    assert "$$1" == ['$'] + "$1" && (['$'] + "$1")[1] == '$';
    ReplaceChar('$', "$1", "$1", "2");
    ReplaceAll("$1", "2");
    assert ['$'] + "2" == "$2";
    assert Sequential("$$1", long, args, word, 1) == "$2";
    ReplaceAll("$2", word(2));
    StaysWithoutDollar("$$1", long, args, word, 2, 9);
    assert "$$1"[1..] == "$1" && "$1"[2..] == "" && Numbered("$1", 9);
    assert Simultaneous("$1", long, args, word, 9) == "2";
  }

  /** Arguments with a dollar sign: `$2 b` for the template `$1`. */
  lemma ArgumentsNeedNoDollar(args: string)
    requires args == "$2" + (" " + "b")
    ensures Sequential("$1", ARGUMENTS, args, WordOf(args), 9) != Simultaneous("$1", ARGUMENTS, args, WordOf(args), 9)
  {
    TwoWords(args, "$2", "b");
    DollarInWords(ARGUMENTS, args, WordOf(args));
    assert |"b"| != |"$2"|;
  }

  /** A template with `$$`: `$$1` for the arguments `2 b`. */
  lemma TemplateNeedsNoDoubleDollar(args: string)
    requires args == "2" + (" " + "b")
    ensures Sequential("$$1", ARGUMENTS, args, WordOf(args), 9) != Simultaneous("$$1", ARGUMENTS, args, WordOf(args), 9)
  {
    TwoWords(args, "2", "b");
    DollarBeforeToken(ARGUMENTS, args, WordOf(args));
    assert |"b"| != |"$2"|;
  }

  // ---- arguments that go wrong on the way and come out right

  const CIRCLE := "$$2"

  lemma {:induction false} StagedInert(args: string, word: nat -> string, k: nat, m: nat, n: nat)
    requires k <= m <= n <= 9 && forall j: nat | m < j <= n :: Inert(Staged(args, word, k, m), j)
    ensures Staged(args, word, k, n) == Staged(args, word, k, m)
    decreases n
  {
    if m < n {
      StagedInert(args, word, k, m, n - 1);
      InertStays(Staged(args, word, k, m), n, word(n));
    }
  }

  /** `$$2` becomes `$3` and then `$$2` again. */
  lemma Around()
    ensures Replace(CIRCLE, "$2", "3") == "$3" && Replace("$3", "$3", CIRCLE) == CIRCLE
    ensures !EndsInDollar(CIRCLE) && !EndsInDollar("$3")
    ensures forall j: nat | j <= 9 :: (j != 2 ==> Inert(CIRCLE, j)) && Inert("3", j) && Inert(" 3 ", j)
  {
    assert CIRCLE == ['$'] + "$2" && CIRCLE[1] == '$';
    ReplaceChar('$', "$2", "$2", "3");
    ReplaceAll("$2", "3");
    assert ['$'] + "3" == "$3";
    ReplaceAll("$3", CIRCLE);
    assert CIRCLE[2] == '2';
  }

  lemma AroundTwice(args: string, mid: string)
    requires args == CIRCLE + (" 3 " + CIRCLE) && mid == "$3" + (" 3 " + "$3")
    ensures Replace(args, "$2", "3") == mid && Replace(mid, "$3", CIRCLE) == args
  {
    Around();
    assert ['$', Digit(2)] == "$2" && ['$', Digit(3)] == "$3";
    ReplaceConcat(CIRCLE, " 3 " + CIRCLE, 2, "3");
    ReplaceSkips(" 3 ", CIRCLE, 2, "3");
    ReplaceConcat("$3", " 3 " + "$3", 3, CIRCLE);
    ReplaceSkips(" 3 ", "$3", 3, CIRCLE);
  }

  lemma ArgsInert(args: string, j: nat)
    requires args == CIRCLE + (" 3 " + CIRCLE) && j <= 9 && j != 2
    ensures Inert(args, j)
  {
    assert args == "$$2 3 $$2";
    assert forall i | 0 <= i < |args| - 1 :: args[i] == '$' ==> args[i + 1] == '$' || args[i + 1] == '2';
  }

  predicate CircleWords(word: nat -> string) {
    word(1) == CIRCLE && word(2) == "3" && word(3) == CIRCLE && forall j: nat | 4 <= j <= 9 :: word(j) == ""
  }

  /** The arguments at each stage. */
  lemma ArgsStaged(args: string, mid: string, word: nat -> string, n: nat)
    requires args == CIRCLE + (" 3 " + CIRCLE) && mid == "$3" + (" 3 " + "$3") && CircleWords(word) && n <= 9
    ensures Staged(args, word, 0, n) == if n == 2 then mid else args
  {
    AroundTwice(args, mid);
    assert ['$', Digit(2)] == "$2" && ['$', Digit(3)] == "$3";
    ArgsInert(args, 1);
    StagedInert(args, word, 0, 0, 1);
    assert Staged(args, word, 0, 2) == mid && Staged(args, word, 0, 3) == args;
    if n > 3 {
      forall j: nat | 3 < j <= n ensures Inert(args, j) {
        ArgsInert(args, j);
      }
      StagedInert(args, word, 0, 3, n);
    }
  }

  lemma WordsStaged(args: string, word: nat -> string, k: nat, n: nat)
    requires CircleWords(word) && 1 <= k <= n <= 9
    ensures Staged(args, word, k, n) == if k == 1 && n == 2 then "$3" else word(k)
  {
    Around();
    assert ['$', Digit(2)] == "$2" && ['$', Digit(3)] == "$3";
    if k == 1 {
      assert Staged(args, word, 1, 2) == "$3" && Staged(args, word, 1, 3) == CIRCLE;
      if n > 3 {
        StagedInert(args, word, 1, 3, n);
      }
    } else {
      assert forall j: nat | k < j <= n :: Inert(word(k), j);
      StagedInert(args, word, k, k, n);
    }
  }

  lemma CircleFirm(args: string, mid: string, word: nat -> string)
    requires args == CIRCLE + (" 3 " + CIRCLE) && mid == "$3" + (" 3 " + "$3") && CircleWords(word)
    ensures Firm(args, word, 9) && Unchanged(args, word)
  {
    Around();
    forall k: nat, n: nat | k <= n <= 9
      ensures !EndsInDollar(Staged(args, word, k, n)) && (n == 9 ==> Staged(args, word, k, n) == Value(args, word, k))
    {
      if k == 0 {
        ArgsStaged(args, mid, word, n);
        assert args[|args| - 1] == '2' && mid[|mid| - 1] == '3';
      } else {
        WordsStaged(args, word, k, n);
      }
    }
    forall k: nat, j: nat | k < j <= 9 ensures FirmAt(args, word, k, j) {
      assert !EndsInDollar(Staged(args, word, k, j - 1));
    }
  }

  lemma ThreeWords(a: string, b: string, c: string)
    requires NoSpace(a) && NoSpace(b) && NoSpace(c) && b != "" && c != ""
    ensures SplitSpaces(a + (" " + (b + (" " + c)))) == [a, b, c]
  {
    SplitWord(a, b + (" " + c));
    SplitWord(b, c);
    OneWord(c);
    assert [a] + ([b] + [c]) == [a, b, c];
  }

  lemma WordsOfThree(args: string, a: string, b: string, c: string)
    requires SplitSpaces(args) == [a, b, c]
    ensures var word := WordOf(args);
            word(1) == a && word(2) == b && word(3) == c && forall j: nat | 4 <= j <= 9 :: word(j) == ""
  {
  }

  lemma CircleSplits(args: string)
    requires args == CIRCLE + (" 3 " + CIRCLE)
    ensures CircleWords(WordOf(args))
  {
    assert " 3 " == " " + ("3" + " ") && args == CIRCLE + (" " + ("3" + (" " + CIRCLE)));
    ThreeWords(CIRCLE, "3", CIRCLE);
    WordsOfThree(args, CIRCLE, "3", CIRCLE);
  }

  /** Arguments that are not harmless, and for which the final text is still right for every
      template without `$$`. */
  lemma OnlyTheWayIsWrong(args: string)
    requires args == CIRCLE + (" 3 " + CIRCLE)
    ensures !Harmless(args, WordOf(args), 9)
    ensures forall t: string | NoDoubleDollar(t) ::
              Sequential(t, ARGUMENTS, args, WordOf(args), 9) == Simultaneous(t, ARGUMENTS, args, WordOf(args), 9)
  {
    var word := WordOf(args);
    CircleSplits(args);
    CircleFirm(args, "$3" + (" 3 " + "$3"), word);
    assert IsLong(ARGUMENTS);
    FinalIsExact(ARGUMENTS, args, word);
    assert Value(args, word, 1)[1] == '$' && Value(args, word, 1)[2] == Digit(2);
    assert !Inert(Value(args, word, 1), 2);
  }
}
