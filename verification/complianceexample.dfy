/** Reports of one check for each mode and transport: one that passes, and one whose coverage
    rests on skipped checks, so that its compact form does not validate. */
module ComplianceExample {
  import opened Json
  import opened Text
  import opened ComplianceGate
  import opened ComplianceGateProofs

  const SCENARIO := "ping"

  /** One scenario for every mode. */
  function Catalog1(): Catalog {
    (mode: string) => [SCENARIO]
  }

  function StatusText(s: Status): string {
    match s
    case Pass => "PASS"
    case Fail => "FAIL"
    case Skip => "SKIP"
  }

  function CheckJson(s: Status): Json {
    Obj(map[Name.Source := Str("official"), Name.Scenario := Str(SCENARIO), Name.CheckName := Str("reply"),
            Name.Status := Str(StatusText(s)), Name.Success := Bool(s != Fail)])
  }

  function CaseFields(k: CaseKey, s: Status): Fields {
    map[Name.Mode := Str(k.mode), Name.Transport := Str(k.transport), Name.Checks := Arr([CheckJson(s)])]
  }

  function CaseItems(ks: seq<CaseKey>, s: Status): seq<Json> {
    seq(|ks|, i requires 0 <= i < |ks| => Obj(CaseFields(ks[i], s)))
  }

  const KEYS := [CaseKey(MODES[0], STDIO), CaseKey(MODES[0], HTTP), CaseKey(MODES[1], STDIO), CaseKey(MODES[1], HTTP),
                 CaseKey(MODES[2], STDIO), CaseKey(MODES[2], HTTP)]

  function Scenarios1(): Fields {
    map[Name.Other(MODES[0]) := Arr([Str(SCENARIO)]), Name.Other(MODES[1]) := Arr([Str(SCENARIO)]),
        Name.Other(MODES[2]) := Arr([Str(SCENARIO)])]
  }

  function OfficialPart(): Fields {
    map[Name.Repository := Str(REPOSITORY), Name.GitRef := Str(GIT_REF), Name.AuthenticationIncluded := Bool(true),
        Name.Scenarios := Obj(Scenarios1())]
  }

  function ReportOf(items: seq<Json>): Report {
    map[Name.SchemaVersion := Num(SCHEMA as real), Name.VersionCheck := Obj(map[Name.Success := Bool(true)]),
        Name.ModernFeatureEnablement := Bool(true), Name.OfficialConformance := Obj(OfficialPart()),
        Name.AutomaticAuthRequired := Bool(false), Name.Cases := Arr(items)]
  }

  // ---- the parts of the report

  lemma ReportHeader(items: seq<Json>, report: Report)
    requires report == ReportOf(items)
    ensures Header(report) == Found([], map[]) && Selected(report) == Scenarios1() && !IsCompact(report)
    ensures Get(report, Name.Cases) == Arr(items) && Get(report, Name.AutomaticAuthRequired) == Bool(false)
  {
    assert Get(report, Name.SchemaVersion) == Num(SCHEMA as real) && Get(report, Name.ModernFeatureEnablement) == Bool(true);
    assert Get(report, Name.VersionCheck) == Obj(map[Name.Success := Bool(true)]);
    assert Official(report) == OfficialPart();
    assert Get(OfficialPart(), Name.Repository) == Str(REPOSITORY) && Get(OfficialPart(), Name.GitRef) == Str(GIT_REF);
    assert Get(OfficialPart(), Name.AuthenticationIncluded) == Bool(true) && Get(OfficialPart(), Name.Scenarios) == Obj(Scenarios1());
  }

  lemma Agrees(m: string)
    requires m in MODES
    ensures CatalogAgrees(Scenarios1(), m, Catalog1())
  {
    ModesAre(m);
    assert Strings([SCENARIO]) == [Str(SCENARIO)];
  }

  lemma ReadStatus(s: Status)
    ensures StatusOf(Str(StatusText(s))) == Some(s)
  {
    assert "PASS"[0] == 'P' && "FAIL"[0] == 'F' && "SKIP"[0] == 'S';
  }

  lemma ReadFields(fields: Fields, s: Status, mode: string, transport: string)
    requires Get(fields, Name.Source) == Str("official") && Get(fields, Name.Scenario) == Str(SCENARIO)
    requires Get(fields, Name.CheckName) == Str("reply") && Get(fields, Name.CheckId) == Null
    requires StatusOf(Get(fields, Name.Status)) == Some(s) && Get(fields, Name.Success) == Bool(s != Fail)
    ensures CheckOf(Obj(fields), mode, transport) == Some((Check(mode, transport, "official", SCENARIO, StableName("reply")), s))
  {
  }

  lemma ReadCheck(s: Status, mode: string, transport: string)
    ensures CheckOf(CheckJson(s), mode, transport) == Some((Check(mode, transport, "official", SCENARIO, StableName("reply")), s))
  {
    ReadStatus(s);
    ReadFields(CheckJson(s).fields, s, mode, transport);
  }

  /** The table of cases with these keys. */
  function Table(ks: seq<CaseKey>, s: Status): map<CaseKey, Fields> {
    map k | k in ks :: CaseFields(k, s)
  }

  lemma AddOne(t: CaseTable, k: CaseKey, s: Status)
    requires k.mode in MODES && k !in t.cases
    ensures AddCase(t, Obj(CaseFields(k, s))) == t.(cases := t.cases[k := CaseFields(k, s)])
  {
    assert Get(CaseFields(k, s), Name.Mode) == Str(k.mode) && Get(CaseFields(k, s), Name.Transport) == Str(k.transport);
  }

  lemma TableAppend(before: seq<CaseKey>, last: CaseKey, s: Status)
    ensures Table(before + [last], s) == Table(before, s)[last := CaseFields(last, s)]
  {
  }

  lemma ItemsAppend(before: seq<CaseKey>, last: CaseKey, s: Status)
    ensures CaseItems(before + [last], s) == CaseItems(before, s) + [Obj(CaseFields(last, s))]
  {
  }

  lemma CasesAppend(t: CaseTable, items: seq<Json>, j: Json)
    ensures CasesOf(t, items + [j]) == AddCase(CasesOf(t, items), j)
  {
    assert (items + [j])[..|items|] == items;
  }

  lemma {:induction false} ReadTable(ks: seq<CaseKey>, s: Status)
    requires forall i | 0 <= i < |ks| :: ks[i].mode in MODES
    requires forall i, j | 0 <= i < j < |ks| :: ks[i] != ks[j]
    ensures CasesOf(CaseTable([], map[]), CaseItems(ks, s)) == CaseTable([], Table(ks, s))
  {
    if ks == [] {
      assert Table(ks, s) == map[];
    } else {
      var before, last := ks[..|ks| - 1], ks[|ks| - 1];
      assert ks == before + [last];
      ReadTable(before, s);
      ItemsAppend(before, last, s);
      CasesAppend(CaseTable([], map[]), CaseItems(before, s), Obj(CaseFields(last, s)));
      AddOne(CaseTable([], Table(before, s)), last, s);
      TableAppend(before, last, s);
    }
  }

  lemma ModesDiffer()
    ensures MODES[0] != MODES[1] && MODES[0] != MODES[2] && MODES[1] != MODES[2] && STDIO != HTTP
  {
    assert MODES[0][3] == '5' && MODES[1][3] == '5' && MODES[2][3] == '6';
    assert MODES[0][5] == '0' && MODES[1][5] == '1';
    assert STDIO[0] == 's' && HTTP[0] == 'o';
  }

  lemma KeysAreDistinct()
    ensures forall i, j | 0 <= i < j < |KEYS| :: KEYS[i] != KEYS[j]
    ensures forall i | 0 <= i < |KEYS| :: KEYS[i].mode in MODES
    ensures forall m | m in MODES :: CaseKey(m, STDIO) in KEYS && CaseKey(m, HTTP) in KEYS
  {
    ModesDiffer();
    forall m | m in MODES ensures CaseKey(m, STDIO) in KEYS && CaseKey(m, HTTP) in KEYS {
      ModesAre(m);
      assert KEYS[0] in KEYS && KEYS[1] in KEYS && KEYS[2] in KEYS && KEYS[3] in KEYS && KEYS[4] in KEYS && KEYS[5] in KEYS;
    }
  }

  // ---- every check has the one status

  predicate All(checks: Checks, s: Status) {
    forall c | c in checks :: checks[c] == {s}
  }

  lemma OneCase(f: Found, cases: map<CaseKey, Fields>, mode: string, transport: string, s: Status)
    requires All(f.checks, s) && CaseKey(mode, transport) in cases
    requires cases[CaseKey(mode, transport)] == CaseFields(CaseKey(mode, transport), s)
    ensures var g := FullCase(f, cases, mode, transport, Catalog1()); g.errors == f.errors && All(g.checks, s)
  {
    var items := [CheckJson(s)];
    assert Get(cases[CaseKey(mode, transport)], Name.Checks) == Arr(items);
    OneCheck(f, mode, transport, s);
    if transport == HTTP {
      assert ToSet(Catalog1()(mode)) == {SCENARIO};
      assert {SCENARIO} - {SCENARIO} == {};
    }
  }

  lemma OneCheck(f: Found, mode: string, transport: string, s: Status)
    requires All(f.checks, s)
    ensures var g := CaseChecks(f, [CheckJson(s)], mode, transport); g.errors == f.errors && All(g.checks, s)
    ensures Observed([CheckJson(s)], mode, transport) == {SCENARIO}
  {
    var items := [CheckJson(s)];
    ReadCheck(s, mode, transport);
    assert items[..0] == [] && "official"[0] != "supplemental"[0];
    assert CaseChecks(f, items[..0], mode, transport) == f && Observed(items[..0], mode, transport) == {};
  }

  ghost predicate Complete(cases: map<CaseKey, Fields>, m: string, s: Status) {
    forall t | IsTransport(t) :: CaseKey(m, t) in cases && cases[CaseKey(m, t)] == CaseFields(CaseKey(m, t), s)
  }

  lemma {:induction false} AllModes(f: Found, modes: seq<string>, cases: map<CaseKey, Fields>, s: Status)
    requires All(f.checks, s) && forall m | m in modes :: m in MODES && Complete(cases, m, s)
    ensures var g := FullModes(f, modes, cases, Scenarios1(), Catalog1()); g.errors == f.errors && All(g.checks, s)
  {
    if modes != [] {
      var before, m := modes[..|modes| - 1], modes[|modes| - 1];
      AllModes(f, before, cases, s);
      assert m in modes;
      OneMode(FullModes(f, before, cases, Scenarios1(), Catalog1()), m, cases, s);
    }
  }

  lemma OneMode(f: Found, m: string, cases: map<CaseKey, Fields>, s: Status)
    requires All(f.checks, s) && m in MODES && Complete(cases, m, s)
    ensures var g := FullMode(f, m, cases, Scenarios1(), Catalog1()); g.errors == f.errors && All(g.checks, s)
  {
    Agrees(m);
    OneCase(f, cases, m, STDIO, s);
    OneCase(FullCase(f, cases, m, STDIO, Catalog1()), cases, m, HTTP, s);
  }

  // ---- the reports

  function Example(s: Status): Report {
    ReportOf(CaseItems(KEYS, s))
  }

  lemma ExampleBody(items: seq<Json>, report: Report, cases: map<CaseKey, Fields>)
    requires report == ReportOf(items) && CasesOf(CaseTable([], map[]), items) == CaseTable([], cases)
    ensures Validated(report, Catalog1()) == FullModes(Found([], map[]), MODES, cases, Scenarios1(), Catalog1())
  {
    ReportHeader(items, report);
  }

  lemma TableComplete(ks: seq<CaseKey>, m: string, s: Status)
    requires CaseKey(m, STDIO) in ks && CaseKey(m, HTTP) in ks
    ensures Complete(Table(ks, s), m, s)
  {
  }

  lemma ChecksFrom(ks: seq<CaseKey>, report: Report, s: Status)
    requires report == ReportOf(CaseItems(ks, s))
    requires forall i | 0 <= i < |ks| :: ks[i].mode in MODES
    requires forall i, j | 0 <= i < j < |ks| :: ks[i] != ks[j]
    requires forall m | m in MODES :: CaseKey(m, STDIO) in ks && CaseKey(m, HTTP) in ks
    ensures Valid(report, Catalog1()) && All(Validated(report, Catalog1()).checks, s)
  {
    ReadTable(ks, s);
    ExampleBody(CaseItems(ks, s), report, Table(ks, s));
    forall m | m in MODES ensures Complete(Table(ks, s), m, s) {
      TableComplete(ks, m, s);
    }
    AllModes(Found([], map[]), MODES, Table(ks, s), s);
  }

  lemma ExampleChecks(s: Status)
    ensures Valid(Example(s), Catalog1()) && All(Validated(Example(s), Catalog1()).checks, s)
  {
    KeysAreDistinct();
    ChecksFrom(KEYS, Example(s), s);
  }

  lemma ExampleCompacts(s: Status)
    requires s != Fail
    ensures Valid(Example(s), Catalog1()) && Compacted(Example(s), Catalog1()).Some?
  {
    ExampleChecks(s);
    ReportHeader(CaseItems(KEYS, s), Example(s));
  }

  lemma SkippedIsNotCovered(checks: Checks)
    requires All(checks, Skip)
    ensures !CoveredWithoutSkips(checks, Catalog1())
  {
    assert Stripped(checks) == map[];
    assert MODES[0] in MODES && !HasCase(Stripped(checks), MODES[0], STDIO);
  }

  lemma PassedIsCovered(report: Report)
    requires Valid(report, Catalog1()) && All(Validated(report, Catalog1()).checks, Pass)
    ensures CoveredWithoutSkips(Validated(report, Catalog1()).checks, Catalog1())
  {
    var checks := Validated(report, Catalog1()).checks;
    forall c | c in checks ensures checks[c] - {Skip} == checks[c] {
      assert Skip !in checks[c];
    }
    assert Stripped(checks) == checks;
    forall m | m in MODES
      ensures HasCase(checks, m, STDIO) && HasCase(checks, m, HTTP) && ToSet(Catalog1()(m)) <= ScenariosOf(checks, m)
    {
      ValidCoverage(report, Catalog1(), m);
    }
  }

  /** A report that passes every check compacts to a valid baseline. */
  lemma PassedRevalidates()
    ensures Valid(Example(Pass), Catalog1()) && Compacted(Example(Pass), Catalog1()).Some?
    ensures Valid(Compacted(Example(Pass), Catalog1()).value, Catalog1())
  {
    ExampleChecks(Pass);
    ExampleCompacts(Pass);
    PassedIsCovered(Example(Pass));
    CompactRevalidatesIff(Example(Pass), Catalog1());
  }

  /** A valid report whose checks are all skipped compacts, to a baseline that does not
      validate and that no candidate passes against. */
  lemma SkippedDoesNotRevalidate(candidate: Report)
    ensures Valid(Example(Skip), Catalog1()) && Compacted(Example(Skip), Catalog1()).Some?
    ensures !Valid(Compacted(Example(Skip), Catalog1()).value, Catalog1())
    ensures !Passes(Gate(candidate, Compacted(Example(Skip), Catalog1()).value, Catalog1()))
  {
    ExampleChecks(Skip);
    ExampleCompacts(Skip);
    SkippedIsNotCovered(Validated(Example(Skip), Catalog1()).checks);
    CompactRevalidatesIff(Example(Skip), Catalog1());
    CompactKeepsVerdict(candidate, Example(Skip), Catalog1());
  }
}
