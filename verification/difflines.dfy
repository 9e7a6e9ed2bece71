/** Counting the added and deleted lines of a unified diff. */
module DiffLines {
  import opened Text

  // ---- the lines of a text

  /** At most one trailing carriage return belongs to the line end. */
  function StripCr(line: string): string {
    if line != "" && line[|line| - 1] == '\r' then line[..|line| - 1] else line
  }

  /** The pieces between line feeds; a text that ends with one has no further line. */
  function Pieces(text: string): seq<string> {
    WithoutEmptyEnd(Split(text, '\n'))
  }

  function WithoutEmptyEnd(all: seq<string>): seq<string> {
    if all != [] && all[|all| - 1] == "" then all[..|all| - 1] else all
  }

  lemma EmptyEndConcat(a: seq<string>, b: seq<string>)
    requires b != []
    ensures WithoutEmptyEnd(a + b) == a + WithoutEmptyEnd(b)
  {
  }

  predicate Ended(text: string) {
    text == "" || text[|text| - 1] == '\n'
  }

  lemma {:induction false} SplitAfter(a: string, b: string)
    requires Ended(a)
    ensures var x := Split(a, '\n'); x[|x| - 1] == "" && Split(a + b, '\n') == x[..|x| - 1] + Split(b, '\n')
  {
    if a == "" {
      assert a + b == b;
    } else {
      assert (a + b)[1..] == a[1..] + b;
      SplitAfter(a[1..], b);
      var x := Split(a[1..], '\n');
      if a[0] == '\n' {
        assert Split(a, '\n') == [""] + x;
      } else {
        assert |x| > 1 by {
          EndedSplits(a[1..]);
        }
      }
    }
  }

  lemma {:induction false} EndedSplits(a: string)
    requires a != "" && Ended(a)
    ensures |Split(a, '\n')| > 1
  {
    if a[0] != '\n' {
      EndedSplits(a[1..]);
    }
  }

  /** A text that ends its last line can be read separately from what follows. */
  lemma PiecesConcat(a: string, b: string)
    requires Ended(a)
    ensures Pieces(a + b) == Pieces(a) + Pieces(b)
  {
    SplitAfter(a, b);
    JoinedPieces(Split(a, '\n'), Split(b, '\n'), Split(a + b, '\n'));
  }

  lemma JoinedPieces(x: seq<string>, y: seq<string>, z: seq<string>)
    requires x != [] && x[|x| - 1] == "" && y != [] && z == x[..|x| - 1] + y
    ensures WithoutEmptyEnd(z) == WithoutEmptyEnd(x) + WithoutEmptyEnd(y)
  {
    EmptyEndConcat(x[..|x| - 1], y);
  }

  lemma {:induction false} SplitLine(line: string)
    requires '\n' !in line
    ensures Split(line + "\n", '\n') == [line, ""]
  {
    if line == "" {
      assert line + "\n" == "\n" && "\n"[1..] == "";
    } else {
      var rest := line[1..];
      assert line[0] in line && forall c | c in rest :: c in line;
      assert (line + "\n")[1..] == rest + "\n";
      SplitLine(rest);
      assert [line[0]] + rest == line;
    }
  }

  // ---- the counter

  datatype Kind = FileStart | HunkStart | PlusHeader | MinusHeader | Plus | Minus | Other

  /** The first pattern of the loop that a line matches, where `+++ ` and `--- ` are headers
      only outside hunks. */
  function Classify(line: string): Kind {
    if StartsWith(line, "diff --git ") then FileStart
    else if StartsWith(line, "@@ ") then HunkStart
    else if StartsWith(line, "+++ ") then PlusHeader
    else if StartsWith(line, "--- ") then MinusHeader
    else if line != "" && line[0] == '+' then Plus
    else if line != "" && line[0] == '-' then Minus
    else Other
  }

  datatype Counts = Counts(added: nat, deleted: nat)

  datatype State = State(inHunk: bool, counts: Counts)

  const ZERO := Counts(0, 0)
  const START := State(false, ZERO)

  function Add(a: Counts, b: Counts): Counts {
    Counts(a.added + b.added, a.deleted + b.deleted)
  }

  function Step(s: State, kind: Kind): State {
    match kind
    case FileStart => s.(inHunk := false)
    case HunkStart => s.(inHunk := true)
    case PlusHeader => if s.inHunk then s.(counts := Add(s.counts, Counts(1, 0))) else s
    case MinusHeader => if s.inHunk then s.(counts := Add(s.counts, Counts(0, 1))) else s
    case Plus => s.(counts := Add(s.counts, Counts(1, 0)))
    case Minus => s.(counts := Add(s.counts, Counts(0, 1)))
    case Other => s
  }

  function Run(s: State, lines: seq<string>, kind: string -> Kind): State {
    if lines == [] then s
    else Step(Run(s, lines[..|lines| - 1], kind), kind(lines[|lines| - 1]))
  }

  function KindOf(line: string): Kind {
    Classify(StripCr(line))
  }

  function CountsOf(text: string, kind: string -> Kind): Counts {
    Run(START, Pieces(text), kind).counts
  }

  /** One turn of the loop. */
  method CountLine(line: string, inHunk: bool, added: nat, deleted: nat) returns (h: bool, a: nat, d: nat)
    ensures State(h, Counts(a, d)) == Step(State(inHunk, Counts(added, deleted)), Classify(line))
  {
    h, a, d := inHunk, added, deleted;
    if StartsWith(line, "diff --git ") {
      h := false;
      return;
    }
    if StartsWith(line, "@@ ") {
      h := true;
      return;
    }
    if !inHunk && (StartsWith(line, "+++ ") || StartsWith(line, "--- ")) {
      return;
    }
    if line != "" && line[0] == '+' {
      a := a + 1;
      return;
    }
    if line != "" && line[0] == '-' {
      d := d + 1;
    }
  }

  method AcceptedLineCounts(text: string) returns (added: nat, deleted: nat)
    ensures Counts(added, deleted) == CountsOf(text, KindOf)
  {
    var lines := Pieces(text);
    var inHunk := false;
    added, deleted := 0, 0;
    for i := 0 to |lines|
      invariant State(inHunk, Counts(added, deleted)) == Run(START, lines[..i], KindOf)
    {
      RunNext(START, lines, i, KindOf);
      inHunk, added, deleted := CountLine(StripCr(lines[i]), inHunk, added, deleted);
    }
    assert lines[..|lines|] == lines;
  }

  // ---- structured diffs

  datatype HunkLine = Context(text: string) | Added(text: string) | Deleted(text: string) | Note(text: string)

  datatype Hunk = Hunk(range: string, lines: seq<HunkLine>)

  /** The rest of the `diff --git ` line, the extended header lines, and the hunks. */
  datatype FileDiff = FileDiff(paths: string, header: seq<string>, hunks: seq<Hunk>)

  /** How a diff is printed, and what the counter takes each line for. */
  datatype Format = Format(file: string, hunk: string, line: HunkLine -> string, kind: string -> Kind)

  predicate NoFeed(s: string) {
    '\n' !in s
  }

  /** A header line may be anything but a line the counter would count or start at. */
  predicate IsHeaderLine(g: Format, line: string) {
    NoFeed(line) && (g.kind(line) == Other || g.kind(line) == PlusHeader || g.kind(line) == MinusHeader)
  }

  predicate WellFormedHunk(h: Hunk) {
    NoFeed(h.range) && forall i | 0 <= i < |h.lines| :: NoFeed(h.lines[i].text)
  }

  predicate WellFormed(g: Format, f: FileDiff) {
    && NoFeed(f.paths)
    && (forall i | 0 <= i < |f.header| :: IsHeaderLine(g, f.header[i]))
    && (forall i | 0 <= i < |f.hunks| :: WellFormedHunk(f.hunks[i]))
  }

  function PrintLine(line: HunkLine): string {
    match line
    case Context(t) => " " + t
    case Added(t) => "+" + t
    case Deleted(t) => "-" + t
    case Note(t) => "\\" + t
  }

  function LineCounts(line: HunkLine): Counts {
    match line
    case Added(_) => Counts(1, 0)
    case Deleted(_) => Counts(0, 1)
    case _ => ZERO
  }

  function HunkLines(g: Format, lines: seq<HunkLine>): seq<string> {
    if lines == [] then [] else HunkLines(g, lines[..|lines| - 1]) + [g.line(lines[|lines| - 1])]
  }

  function PrintHunks(g: Format, hunks: seq<Hunk>): seq<string> {
    if hunks == [] then []
    else
      var h := hunks[|hunks| - 1];
      PrintHunks(g, hunks[..|hunks| - 1]) + ([g.hunk + h.range] + HunkLines(g, h.lines))
  }

  function PrintFile(g: Format, f: FileDiff): seq<string> {
    [g.file + f.paths] + (f.header + PrintHunks(g, f.hunks))
  }

  function PrintFiles(g: Format, files: seq<FileDiff>): seq<string> {
    if files == [] then [] else PrintFiles(g, files[..|files| - 1]) + PrintFile(g, files[|files| - 1])
  }

  /** Every line is ended by a line feed. */
  function Printed(lines: seq<string>): string {
    if lines == [] then "" else Printed(lines[..|lines| - 1]) + (lines[|lines| - 1] + "\n")
  }

  function SumLines(lines: seq<HunkLine>): Counts {
    if lines == [] then ZERO else Add(SumLines(lines[..|lines| - 1]), LineCounts(lines[|lines| - 1]))
  }

  function SumHunks(hunks: seq<Hunk>): Counts {
    if hunks == [] then ZERO else Add(SumHunks(hunks[..|hunks| - 1]), SumLines(hunks[|hunks| - 1].lines))
  }

  function SumFiles(files: seq<FileDiff>): Counts {
    if files == [] then ZERO else Add(SumFiles(files[..|files| - 1]), SumHunks(files[|files| - 1].hunks))
  }

  // ---- reading a printed diff

  /** What a line of this kind counts for inside a hunk, if it does not start anything. */
  function InHunk(kind: Kind): Option<Counts> {
    match kind
    case Plus => Some(Counts(1, 0))
    case PlusHeader => Some(Counts(1, 0))
    case Minus => Some(Counts(0, 1))
    case MinusHeader => Some(Counts(0, 1))
    case Other => Some(ZERO)
    case _ => None
  }

  /** File and hunk lines are recognised, and hunk lines count for what they are. */
  ghost predicate Recognised(g: Format) {
    && NoFeed(g.file) && NoFeed(g.hunk)
    && (forall t :: g.kind(g.file + t) == FileStart)
    && (forall t :: g.kind(g.hunk + t) == HunkStart)
    && (forall l: HunkLine :: InHunk(g.kind(g.line(l))) == Some(LineCounts(l)))
    && (forall l: HunkLine :: NoFeed(l.text) ==> NoFeed(g.line(l)))
  }

  lemma {:induction false} PiecesOfText(lines: seq<string>)
    requires forall i | 0 <= i < |lines| :: NoFeed(lines[i])
    ensures Pieces(Printed(lines)) == lines && Ended(Printed(lines))
  {
    if lines != [] {
      var n := |lines| - 1;
      PiecesOfText(lines[..n]);
      PiecesConcat(Printed(lines[..n]), lines[n] + "\n");
      SplitLine(lines[n]);
      assert lines == lines[..n] + [lines[n]];
    }
  }

  lemma StripKeepsPrefix(line: string, prefix: string)
    requires '\r' !in prefix
    ensures StartsWith(StripCr(line), prefix) <==> StartsWith(line, prefix)
  {
    if StartsWith(line, prefix) && |prefix| == |line| && prefix != "" {
      assert line == prefix && line[|line| - 1] in prefix;
    }
  }

  lemma StripKeepsKind(line: string)
    ensures KindOf(line) == Classify(line)
  {
    StripKeepsPrefix(line, "diff --git ");
    StripKeepsPrefix(line, "@@ ");
    StripKeepsPrefix(line, "+++ ");
    StripKeepsPrefix(line, "--- ");
  }

  lemma Prefixed(prefix: string, s: string)
    ensures StartsWith(prefix + s, prefix)
  {
  }

  lemma FirstChar(line: string)
    ensures line != "" && line[0] == '+' ==> Classify(line) == Plus || Classify(line) == PlusHeader
    ensures line != "" && line[0] == '-' ==> Classify(line) == Minus || Classify(line) == MinusHeader
    ensures line != "" && (line[0] == ' ' || line[0] == '\\') ==> Classify(line) == Other
  {
    assert "diff --git "[0] == 'd';
  }

  /** A printed hunk line counts for what it is, whatever its text. */
  lemma HunkLineCounts(line: HunkLine)
    ensures InHunk(KindOf(PrintLine(line))) == Some(LineCounts(line))
  {
    StripKeepsKind(PrintLine(line));
    FirstChar(PrintLine(line));
  }

  lemma HunkHeadKind(range: string)
    ensures KindOf("@@ " + range) == HunkStart
  {
    StripKeepsKind("@@ " + range);
    Prefixed("@@ ", range);
    assert ("@@ " + range)[0] == '@' && "diff --git "[0] == 'd';
  }

  lemma FileHeadKind(paths: string)
    ensures KindOf("diff --git " + paths) == FileStart
  {
    StripKeepsKind("diff --git " + paths);
    Prefixed("diff --git ", paths);
  }

  const GIT := Format("diff --git ", "@@ ", PrintLine, KindOf)

  lemma GitRecognised()
    ensures Recognised(GIT)
  {
    forall t
      ensures GIT.kind(GIT.file + t) == FileStart && GIT.kind(GIT.hunk + t) == HunkStart
    {
      FileHeadKind(t);
      HunkHeadKind(t);
    }
    forall l: HunkLine
      ensures InHunk(GIT.kind(GIT.line(l))) == Some(LineCounts(l))
    {
      HunkLineCounts(l);
    }
  }

  lemma StepInHunk(s: State, kind: Kind, c: Counts)
    requires s.inHunk && InHunk(kind) == Some(c)
    ensures Step(s, kind) == State(true, Add(s.counts, c))
  {
  }

  lemma {:induction false} HunkLinesRun(g: Format, s: State, lines: seq<HunkLine>)
    requires Recognised(g) && s.inHunk
    ensures Run(s, HunkLines(g, lines), g.kind) == State(true, Add(s.counts, SumLines(lines)))
  {
    if lines != [] {
      var n := |lines| - 1;
      var before, last := HunkLines(g, lines[..n]), lines[n];
      HunkLinesRun(g, s, lines[..n]);
      RunLast(s, before, g.line(last), g.kind);
      HunkLineStep(g, Run(s, before, g.kind), last);
    }
  }

  lemma HunkLineStep(g: Format, s: State, line: HunkLine)
    requires Recognised(g) && s.inHunk
    ensures Step(s, g.kind(g.line(line))) == State(true, Add(s.counts, LineCounts(line)))
  {
    StepInHunk(s, g.kind(g.line(line)), LineCounts(line));
  }

  lemma RunNext(s: State, lines: seq<string>, i: nat, kind: string -> Kind)
    requires i < |lines|
    ensures Run(s, lines[..i + 1], kind) == Step(Run(s, lines[..i], kind), kind(lines[i]))
  {
    assert lines[..i + 1][..i] == lines[..i];
  }

  lemma RunLast(s: State, lines: seq<string>, line: string, kind: string -> Kind)
    ensures Run(s, lines + [line], kind) == Step(Run(s, lines, kind), kind(line))
  {
    assert (lines + [line])[..|lines|] == lines;
  }

  lemma {:induction false} RunConcat(s: State, a: seq<string>, b: seq<string>, kind: string -> Kind)
    ensures Run(s, a + b, kind) == Run(Run(s, a, kind), b, kind)
  {
    if b == [] {
      assert a + b == a;
    } else {
      var before, last := b[..|b| - 1], b[|b| - 1];
      RunConcat(s, a, before, kind);
      assert b == before + [last];
      assert a + (before + [last]) == (a + before) + [last];
      RunLast(s, a + before, last, kind);
      RunLast(Run(s, a, kind), before, last, kind);
    }
  }

  lemma RunHead(s: State, head: string, rest: seq<string>, kind: string -> Kind)
    ensures Run(s, [head] + rest, kind) == Run(Step(s, kind(head)), rest, kind)
  {
    RunConcat(s, [head], rest, kind);
    RunLast(s, [], head, kind);
    assert [] + [head] == [head];
  }

  lemma {:induction false} HunksRun(g: Format, s: State, hunks: seq<Hunk>)
    requires Recognised(g)
    ensures Run(s, PrintHunks(g, hunks), g.kind).counts == Add(s.counts, SumHunks(hunks))
  {
    if hunks != [] {
      var n := |hunks| - 1;
      var h := hunks[n];
      var t := Run(s, PrintHunks(g, hunks[..n]), g.kind);
      HunksRun(g, s, hunks[..n]);
      RunConcat(s, PrintHunks(g, hunks[..n]), [g.hunk + h.range] + HunkLines(g, h.lines), g.kind);
      RunHead(t, g.hunk + h.range, HunkLines(g, h.lines), g.kind);
      HunkLinesRun(g, t.(inHunk := true), h.lines);
    }
  }

  lemma {:induction false} HeaderRun(g: Format, s: State, header: seq<string>)
    requires !s.inHunk && forall i | 0 <= i < |header| :: IsHeaderLine(g, header[i])
    ensures Run(s, header, g.kind) == s
  {
    if header != [] {
      var n := |header| - 1;
      HeaderRun(g, s, header[..n]);
      assert IsHeaderLine(g, header[n]);
    }
  }

  lemma FileRun(g: Format, s: State, f: FileDiff)
    requires Recognised(g) && WellFormed(g, f)
    ensures Run(s, PrintFile(g, f), g.kind).counts == Add(s.counts, SumHunks(f.hunks))
  {
    var t := s.(inHunk := false);
    RunHead(s, g.file + f.paths, f.header + PrintHunks(g, f.hunks), g.kind);
    RunConcat(t, f.header, PrintHunks(g, f.hunks), g.kind);
    HeaderRun(g, t, f.header);
    HunksRun(g, t, f.hunks);
  }

  lemma {:induction false} FilesRun(g: Format, s: State, files: seq<FileDiff>)
    requires Recognised(g) && forall i | 0 <= i < |files| :: WellFormed(g, files[i])
    ensures Run(s, PrintFiles(g, files), g.kind).counts == Add(s.counts, SumFiles(files))
  {
    if files != [] {
      var n := |files| - 1;
      FilesRun(g, s, files[..n]);
      RunConcat(s, PrintFiles(g, files[..n]), PrintFile(g, files[n]), g.kind);
      FileRun(g, Run(s, PrintFiles(g, files[..n]), g.kind), files[n]);
    }
  }

  predicate NoFeeds(lines: seq<string>) {
    forall i | 0 <= i < |lines| :: NoFeed(lines[i])
  }

  lemma {:induction false} HunkLinesNoFeed(g: Format, lines: seq<HunkLine>)
    requires Recognised(g) && forall i | 0 <= i < |lines| :: NoFeed(lines[i].text)
    ensures NoFeeds(HunkLines(g, lines))
  {
    if lines != [] {
      HunkLinesNoFeed(g, lines[..|lines| - 1]);
    }
  }

  lemma {:induction false} HunksNoFeed(g: Format, hunks: seq<Hunk>)
    requires Recognised(g) && forall i | 0 <= i < |hunks| :: WellFormedHunk(hunks[i])
    ensures NoFeeds(PrintHunks(g, hunks))
  {
    if hunks != [] {
      var n := |hunks| - 1;
      HunksNoFeed(g, hunks[..n]);
      assert WellFormedHunk(hunks[n]);
      HunkLinesNoFeed(g, hunks[n].lines);
    }
  }

  lemma {:induction false} FilesNoFeed(g: Format, files: seq<FileDiff>)
    requires Recognised(g) && forall i | 0 <= i < |files| :: WellFormed(g, files[i])
    ensures NoFeeds(PrintFiles(g, files))
  {
    if files != [] {
      var n := |files| - 1;
      FilesNoFeed(g, files[..n]);
      assert WellFormed(g, files[n]);
      HunksNoFeed(g, files[n].hunks);
      assert forall i | 0 <= i < |files[n].header| :: NoFeed(files[n].header[i]);
    }
  }

  lemma CountsOfPrinted(g: Format, files: seq<FileDiff>)
    requires Recognised(g) && forall i | 0 <= i < |files| :: WellFormed(g, files[i])
    ensures CountsOf(Printed(PrintFiles(g, files)), g.kind) == SumFiles(files)
  {
    FilesNoFeed(g, files);
    PiecesOfText(PrintFiles(g, files));
    FilesRun(g, START, files);
  }

  /** Counting a printed git diff gives the structural totals, whatever the texts of its lines. */
  lemma GitDiffCounts(files: seq<FileDiff>)
    requires forall i | 0 <= i < |files| :: WellFormed(GIT, files[i])
    ensures CountsOf(Printed(PrintFiles(GIT, files)), KindOf) == SumFiles(files)
  {
    GitRecognised();
    CountsOfPrinted(GIT, files);
  }

  // ---- concatenation

  lemma {:induction false} RunShift(s: State, t: State, lines: seq<string>, kind: string -> Kind)
    requires s.inHunk == t.inHunk
    ensures Run(s, lines, kind).inHunk == Run(t, lines, kind).inHunk
    ensures Run(s, lines, kind).counts.added - s.counts.added == Run(t, lines, kind).counts.added - t.counts.added
    ensures Run(s, lines, kind).counts.deleted - s.counts.deleted == Run(t, lines, kind).counts.deleted - t.counts.deleted
  {
    if lines != [] {
      RunShift(s, t, lines[..|lines| - 1], kind);
    }
  }

  /** The counter leaves a hunk where it meets a file's first line. */
  lemma RunFromFile(s: State, head: string, rest: seq<string>, kind: string -> Kind)
    requires kind(head) == FileStart
    ensures Run(s, [head] + rest, kind).counts == Add(s.counts, Run(START, [head] + rest, kind).counts)
  {
    RunHead(s, head, rest, kind);
    RunHead(START, head, rest, kind);
    RunShift(s.(inHunk := false), START, rest, kind);
  }

  lemma RunFromAny(s: State, b: seq<string>, kind: string -> Kind)
    requires b == [] || kind(b[0]) == FileStart
    ensures Run(s, b, kind).counts == Add(s.counts, Run(START, b, kind).counts)
  {
    if b != [] {
      var head, rest := b[0], b[1..];
      assert [head] + rest == b;
      RunFromFile(s, head, rest, kind);
    }
  }

  lemma RunJoined(a: seq<string>, b: seq<string>, kind: string -> Kind)
    requires b == [] || kind(b[0]) == FileStart
    ensures Run(START, a + b, kind).counts == Add(Run(START, a, kind).counts, Run(START, b, kind).counts)
  {
    RunConcat(START, a, b, kind);
    RunFromAny(Run(START, a, kind), b, kind);
  }

  /** Counts add up when the first text ends its last line and the second starts a file. */
  lemma CountsConcat(a: string, b: string, kind: string -> Kind)
    requires Ended(a)
    requires Pieces(b) == [] || kind(Pieces(b)[0]) == FileStart
    ensures CountsOf(a + b, kind) == Add(CountsOf(a, kind), CountsOf(b, kind))
  {
    PiecesConcat(a, b);
    RunJoined(Pieces(a), Pieces(b), kind);
  }
}
