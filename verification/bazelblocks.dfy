/** Finding the `http_file` blocks of a module file, before and after an update. */
module BazelBlocks {
  import opened Text
  import opened BazelFields
  import opened BazelTokens
  import opened BazelSha

  const OPEN := "http_file(\n"

  datatype Cut = Cut(head: string, rest: string)

  /** The lines before the first line that starts with a closing parenthesis. */
  function CloseBody(s: string): Option<Cut>
    decreases |s|
  {
    if s != "" && s[0] == ')' then Some(Cut("", s[1..]))
    else match NextLine(s)
      case None => None
      case Some(r) =>
        NextLineShorter(s);
        match CloseBody(r)
        case None => None
        case Some(cut) => Some(Cut(LineOf(s) + cut.head, cut.rest))
  }

  lemma {:induction false} CloseShorter(s: string)
    requires CloseBody(s).Some?
    ensures |CloseBody(s).value.rest| < |s|
    decreases |s|
  {
    if s == "" || s[0] != ')' {
      NextLineShorter(s);
      CloseShorter(NextLine(s).value);
    }
  }

  /** The body of a block that starts here, and the text after its parenthesis. */
  function Opened(s: string): Option<Cut> {
    if StartsWith(s, OPEN) then CloseBody(s[|OPEN|..]) else None
  }

  datatype Part = Other(text: string) | Block(text: string)

  function BlockText(body: string, end: string): string {
    OPEN + (body + end)
  }

  const PLAIN_END := ")"
  const LINE_END := ")\n"

  /** The text from a line start on, cut into blocks and the lines around them. */
  function Parts(s: string): seq<Part>
    decreases |s|, 1
  {
    match Opened(s)
    case None => Skip(s)
    case Some(cut) =>
      CloseShorter(s[|OPEN|..]);
      if cut.rest != "" && cut.rest[0] == '\n'
      then [Block(BlockText(cut.head, LINE_END))] + Parts(cut.rest[1..])
      else [Block(BlockText(cut.head, PLAIN_END))] + Skip(cut.rest)
  }

  /** The rest of a line, and what follows it. */
  function Skip(s: string): seq<Part>
    decreases |s|, 0
  {
    if s == "" then []
    else match NextLine(s)
      case None => [Other(s)]
      case Some(r) => (NextLineShorter(s); [Other(LineOf(s))] + Parts(r))
  }

  function Concat(parts: seq<Part>): string {
    if parts == [] then "" else parts[0].text + Concat(parts[1..])
  }

  lemma ConcatFirst(p: Part, parts: seq<Part>)
    ensures Concat([p] + parts) == p.text + Concat(parts)
  {
    assert ([p] + parts)[1..] == parts;
  }

  // ---- bodies

  /** Complete lines, none of which starts with a closing parenthesis. */
  predicate IsBody(s: string) {
    && (s == "" || s[|s| - 1] == '\n')
    && forall i | 0 <= i < |s| && s[i] == ')' :: i > 0 && s[i - 1] != '\n'
  }

  lemma Associative(a: string, b: string, c: string)
    ensures a + (b + c) == (a + b) + c
  {
  }

  lemma {:induction false} CloseExact(s: string)
    requires CloseBody(s).Some?
    ensures var cut := CloseBody(s).value; IsBody(cut.head) && s == cut.head + (")" + cut.rest)
    decreases |s|
  {
    if s != "" && s[0] == ')' {
      assert s == ")" + s[1..];
    } else {
      NextLineShorter(s);
      LineSplit(s);
      CloseExact(NextLine(s).value);
      var cut := CloseBody(NextLine(s).value).value;
      BodyLine(s, cut.head);
      Associative(LineOf(s), cut.head, ")" + cut.rest);
    }
  }

  lemma {:induction false} LineShape(s: string)
    requires NextLine(s).Some?
    ensures var l := LineOf(s); l != "" && l[|l| - 1] == '\n' && l[0] == s[0] && forall i | 0 <= i < |l| - 1 :: l[i] != '\n'
  {
    if s[0] != '\n' {
      LineShape(s[1..]);
    }
  }

  lemma BodyLine(s: string, head: string)
    requires NextLine(s).Some? && s[0] != ')' && IsBody(head)
    ensures IsBody(LineOf(s) + head)
  {
    LineShape(s);
    var l := LineOf(s);
    forall i | 0 <= i < |l + head| && (l + head)[i] == ')'
      ensures i > 0 && (l + head)[i - 1] != '\n'
    {
      if i >= |l| {
        assert head[i - |l|] == ')';
      }
    }
  }

  lemma {:induction false} BodySuffix(s: string)
    requires IsBody(s) && s != ""
    ensures NextLine(s).Some? && IsBody(NextLine(s).value)
  {
    EndsWithFeed(s);
    NextLineSuffix(s);
    var r := NextLine(s).value;
    forall i | 0 <= i < |r| && r[i] == ')'
      ensures i > 0 && r[i - 1] != '\n'
    {
      assert s[|s| - |r| + i] == ')';
    }
  }

  lemma {:induction false} EndsWithFeed(s: string)
    requires s != "" && s[|s| - 1] == '\n'
    ensures NextLine(s).Some?
  {
    if s[0] != '\n' {
      EndsWithFeed(s[1..]);
    }
  }

  lemma {:induction false} CloseFound(body: string, z: string)
    requires IsBody(body)
    ensures CloseBody(body + (")" + z)) == Some(Cut(body, z))
    decreases |body|
  {
    var s := body + (")" + z);
    if body == "" {
      assert s == ")" + z;
    } else {
      BodySuffix(body);
      NextLineShorter(body);
      NextLineConcat(body, ")" + z);
      LineOfConcat(body, ")" + z);
      LineSplit(body);
      CloseFound(NextLine(body).value, z);
      assert s[0] == body[0];
    }
  }

  // ---- cutting the text again

  predicate IsEnd(end: string, z: string) {
    end == LINE_END || (end == PLAIN_END && (z == "" || z[0] != '\n'))
  }

  lemma OpenedBlock(body: string, end: string, z: string)
    requires IsBody(body) && IsEnd(end, z)
    ensures Opened(BlockText(body, end) + z) == Some(Cut(body, if end == LINE_END then "\n" + z else z))
  {
    var after := if end == LINE_END then "\n" + z else z;
    assert end + z == ")" + after;
    assert BlockText(body, end) + z == OPEN + (body + (")" + after));
    assert (OPEN + (body + (")" + after)))[|OPEN|..] == body + (")" + after);
    CloseFound(body, after);
  }

  lemma PartsOfBlock(body: string, end: string, z: string)
    requires IsBody(body) && IsEnd(end, z)
    ensures Parts(BlockText(body, end) + z) == [Block(BlockText(body, end))] + if end == LINE_END then Parts(z) else Skip(z)
  {
    OpenedBlock(body, end, z);
    assert ("\n" + z)[1..] == z;
  }

  lemma BlockThen(body: string, end: string, z: string)
    ensures BlockText(body, end) + z == OPEN + (body + (end + z))
  {
  }

  /** A block that starts here, and the text after it. */
  lemma OpenedText(s: string)
    requires Opened(s).Some?
    ensures var cut := Opened(s).value;
            && IsBody(cut.head)
            && (if cut.rest != "" && cut.rest[0] == '\n' then s == BlockText(cut.head, LINE_END) + cut.rest[1..]
                else s == BlockText(cut.head, PLAIN_END) + cut.rest)
  {
    var cut := Opened(s).value;
    CloseExact(s[|OPEN|..]);
    assert s == OPEN + s[|OPEN|..];
    if cut.rest != "" && cut.rest[0] == '\n' {
      assert ")" + cut.rest == LINE_END + cut.rest[1..];
      BlockThen(cut.head, LINE_END, cut.rest[1..]);
    } else {
      BlockThen(cut.head, PLAIN_END, cut.rest);
    }
  }

  lemma {:induction false} ConcatParts(s: string)
    ensures Concat(Parts(s)) == s
    decreases |s|, 1
  {
    var found := Opened(s);
    if found.None? {
      ConcatSkip(s);
    } else {
      var cut := found.value;
      CloseShorter(s[|OPEN|..]);
      OpenedText(s);
      if cut.rest != "" && cut.rest[0] == '\n' {
        ConcatParts(cut.rest[1..]);
        ConcatFirst(Block(BlockText(cut.head, LINE_END)), Parts(cut.rest[1..]));
      } else {
        ConcatSkip(cut.rest);
        ConcatFirst(Block(BlockText(cut.head, PLAIN_END)), Skip(cut.rest));
      }
    }
  }

  lemma {:induction false} ConcatSkip(s: string)
    ensures Concat(Skip(s)) == s
    decreases |s|, 0
  {
    if s != "" {
      if NextLine(s).Some? {
        NextLineShorter(s);
        LineSplit(s);
        ConcatParts(NextLine(s).value);
        ConcatFirst(Other(LineOf(s)), Parts(NextLine(s).value));
      } else {
        ConcatFirst(Other(s), []);
        assert [Other(s)] + [] == [Other(s)] && s + "" == s;
      }
    }
  }

  function Mapped(parts: seq<Part>, f: string -> string): seq<Part> {
    seq(|parts|, i requires 0 <= i < |parts| => if parts[i].Block? then Block(f(parts[i].text)) else parts[i])
  }

  lemma MappedFirst(p: Part, parts: seq<Part>, f: string -> string)
    ensures Mapped([p] + parts, f) == [if p.Block? then Block(f(p.text)) else p] + Mapped(parts, f)
  {
  }

  predicate NoBlocks(parts: seq<Part>) {
    forall i | 0 <= i < |parts| :: parts[i].Other?
  }

  lemma MappedNothing(parts: seq<Part>, f: string -> string)
    requires NoBlocks(parts)
    ensures Mapped(parts, f) == parts
  {
  }

  lemma {:induction false} LineThen(h: string, r: string)
    requires '\n' !in h
    ensures NextLine(h + ("\n" + r)) == Some(r) && LineOf(h + ("\n" + r)) == h + "\n"
  {
    var s := h + ("\n" + r);
    if h == "" {
      assert s == "\n" + r && s[1..] == r && h + "\n" == "\n";
    } else {
      assert h[0] in h && forall c | c in h[1..] :: c in h;
      assert s[1..] == h[1..] + ("\n" + r);
      LineThen(h[1..], r);
      assert [h[0]] + (h[1..] + "\n") == h + "\n";
    }
  }

  lemma OpenIsLine(s: string)
    requires StartsWith(s, OPEN)
    ensures NextLine(s) == Some(s[|OPEN|..]) && LineOf(s) == OPEN && s != "" && s[0] != ')'
  {
    var h, r := OPEN[..|OPEN| - 1], s[|OPEN|..];
    assert OPEN == h + "\n" && s == OPEN + r;
    assert s == h + ("\n" + r);
    LineThen(h, r);
    assert s[0] == OPEN[0];
  }

  lemma {:induction false} NoCloseNoBlock(s: string)
    requires CloseBody(s) == None
    ensures NoBlocks(Parts(s))
    decreases |s|
  {
    if StartsWith(s, OPEN) {
      OpenIsLine(s);
    }
    if NextLine(s).Some? {
      NextLineShorter(s);
      NoCloseNoBlock(NextLine(s).value);
    }
  }

  /** The map turns the block into a block that ends the same way. */
  ghost predicate Keeps(f: string -> string, block: string) {
    exists body, body2, end ::
      && IsBody(body) && IsBody(body2) && (end == LINE_END || end == PLAIN_END)
      && block == BlockText(body, end) && f(block) == BlockText(body2, end)
  }

  ghost predicate KeepsAll(f: string -> string, parts: seq<Part>) {
    forall i | 0 <= i < |parts| && parts[i].Block? :: Keeps(f, parts[i].text)
  }

  lemma KeepsRest(f: string -> string, p: Part, parts: seq<Part>)
    requires KeepsAll(f, [p] + parts)
    ensures KeepsAll(f, parts) && (p.Block? ==> Keeps(f, p.text))
  {
    var all := [p] + parts;
    forall i | 0 <= i < |parts| && parts[i].Block?
      ensures Keeps(f, parts[i].text)
    {
      assert all[i + 1] == parts[i];
    }
    assert all[0] == p;
  }

  lemma EndOfBlock(body: string, end: string)
    requires end == LINE_END || end == PLAIN_END
    ensures var b := BlockText(body, end); b != "" && (end == LINE_END <==> b[|b| - 1] == '\n')
  {
    var b := BlockText(body, end);
    assert b[|b| - 1] == end[|end| - 1];
  }

  lemma KeptBody(f: string -> string, body: string, end: string) returns (body2: string)
    requires Keeps(f, BlockText(body, end)) && (end == LINE_END || end == PLAIN_END)
    ensures IsBody(body2) && f(BlockText(body, end)) == BlockText(body2, end)
  {
    var b1, b2, e :| IsBody(b1) && IsBody(b2) && (e == LINE_END || e == PLAIN_END)
      && BlockText(body, end) == BlockText(b1, e) && f(BlockText(body, end)) == BlockText(b2, e);
    EndOfBlock(body, end);
    EndOfBlock(b1, e);
    body2 := b2;
  }

  /** A text cut into parts whose blocks are replaced by blocks is cut the same way again. */
  lemma {:induction false} Reparse(s: string, f: string -> string)
    requires KeepsAll(f, Parts(s))
    ensures Parts(Concat(Mapped(Parts(s), f))) == Mapped(Parts(s), f)
    decreases |s|, 1
  {
    var found := Opened(s);
    if found.None? {
      ReparseSkip(s, f);
      StillClosed(s, f);
    } else {
      CloseShorter(s[|OPEN|..]);
      var cut := found.value;
      if cut.rest != "" && cut.rest[0] == '\n' {
        KeepsRest(f, Block(BlockText(cut.head, LINE_END)), Parts(cut.rest[1..]));
        Reparse(cut.rest[1..], f);
        ReparseBlock(cut.head, LINE_END, Parts(cut.rest[1..]), f);
      } else {
        KeepsRest(f, Block(BlockText(cut.head, PLAIN_END)), Skip(cut.rest));
        ReparseSkip(cut.rest, f);
        SkipStart(cut.rest, f);
        ReparseBlock(cut.head, PLAIN_END, Skip(cut.rest), f);
      }
    }
  }

  lemma ReparseBlock(body: string, end: string, parts: seq<Part>, f: string -> string)
    requires Keeps(f, BlockText(body, end)) && IsEnd(end, Concat(Mapped(parts, f)))
    requires Mapped(parts, f) == var z := Concat(Mapped(parts, f)); if end == LINE_END then Parts(z) else Skip(z)
    ensures var all := [Block(BlockText(body, end))] + parts; Parts(Concat(Mapped(all, f))) == Mapped(all, f)
  {
    var block := BlockText(body, end);
    var body2 := KeptBody(f, body, end);
    MappedFirst(Block(block), parts, f);
    ConcatFirst(Block(f(block)), Mapped(parts, f));
    PartsOfBlock(body2, end, Concat(Mapped(parts, f)));
  }

  lemma {:induction false} ReparseSkip(s: string, f: string -> string)
    requires KeepsAll(f, Skip(s))
    ensures Skip(Concat(Mapped(Skip(s), f))) == Mapped(Skip(s), f)
    decreases |s|, 0
  {
    if s != "" {
      if NextLine(s).Some? {
        var line, r := LineOf(s), NextLine(s).value;
        NextLineShorter(s);
        LineSplit(s);
        LineShape(s);
        KeepsRest(f, Other(line), Parts(r));
        Reparse(r, f);
        MappedFirst(Other(line), Parts(r), f);
        var z := Concat(Mapped(Parts(r), f));
        ConcatFirst(Other(line), Mapped(Parts(r), f));
        NextLineConcat(line, z);
        LineOfConcat(line, z);
        assert "" + z == z;
        LineOfLine(s);
      } else {
        ConcatSkip(s);
        MappedNothing(Skip(s), f);
      }
    }
  }

  lemma LineOfLine(s: string)
    requires NextLine(s).Some?
    ensures LineOf(LineOf(s)) == LineOf(s)
  {
    LineSplit(s);
    LineSplit(LineOf(s));
    assert LineOf(LineOf(s)) + "" == LineOf(LineOf(s));
  }

  lemma SkipStart(s: string, f: string -> string)
    ensures var z := Concat(Mapped(Skip(s), f)); (z == "" <==> s == "") && (s != "" ==> z[0] == s[0])
  {
    if s != "" {
      if NextLine(s).Some? {
        LineShape(s);
        MappedFirst(Other(LineOf(s)), Parts(NextLine(s).value), f);
        ConcatFirst(Other(LineOf(s)), Mapped(Parts(NextLine(s).value), f));
      } else {
        ConcatSkip(s);
        MappedNothing(Skip(s), f);
      }
    }
  }

  /** A line that starts no block starts none after the update. */
  lemma StillClosed(s: string, f: string -> string)
    requires Opened(s).None?
    ensures Opened(Concat(Mapped(Skip(s), f))).None?
  {
    if s != "" && NextLine(s).Some? {
      var line, r := LineOf(s), NextLine(s).value;
      MappedFirst(Other(line), Parts(r), f);
      var z := Concat(Mapped(Parts(r), f));
      ConcatFirst(Other(line), Mapped(Parts(r), f));
      LineSplit(s);
      assert line == OPEN ==> s[..|OPEN|] == OPEN;
      if StartsWith(s, OPEN) {
        OpenIsLine(s);
        NoCloseNoBlock(r);
        MappedNothing(Parts(r), f);
        ConcatParts(r);
      } else if StartsWith(line + z, OPEN) {
        OpenIsLine(line + z);
        LineOfConcat(line, z);
        LineOfLine(s);
      }
    } else {
      ConcatSkip(s);
      MappedNothing(Skip(s), f);
    }
  }
}
