/** The compliance gate is a preorder, and compaction keeps its verdict exactly for the
    baselines whose coverage does not rest on skipped checks. */
module ComplianceGateProofs {
  import opened Json
  import opened Text
  import opened Sets
  import opened Keys
  import opened ComplianceGate

  predicate Valid(report: Report, catalog: Catalog) {
    Validated(report, catalog).errors == []
  }

  // ---- the preorder

  lemma PassesMeans(report: Report, baseline: Report, catalog: Catalog)
    ensures Passes(Gate(report, baseline, catalog)) <==>
            && Valid(report, catalog) && Valid(baseline, catalog)
            && Get(baseline, Name.AutomaticAuthRequired).Bool?
            && Get(baseline, Name.AutomaticAuthRequired) == Get(report, Name.AutomaticAuthRequired)
            && CleanComparison(Validated(baseline, catalog).checks, Validated(report, catalog).checks)
  {
    var b, r := Validated(baseline, catalog), Validated(report, catalog);
    var auth := AuthErrors(Get(baseline, Name.AutomaticAuthRequired), Get(report, Name.AutomaticAuthRequired));
    assert b.errors + r.errors + auth == [] <==> b.errors == [] && r.errors == [] && auth == [];
    CleanMeans(b.errors + r.errors + auth, b.checks, r.checks);
  }

  predicate CleanComparison(b: Checks, r: Checks) {
    && ShippingClean(b) && ShippingClean(r)
    && (forall c | c in r && Fail in r[c] :: Has(b, c, Fail))
    && (forall c | c in b :: !IsMissing(b, r, c))
  }

  lemma CleanMeans(errors: seq<Error>, b: Checks, r: Checks)
    ensures var v := Compare(errors, b, r);
            v.shipping == {} && v.regressed == {} && v.missing == {} <==> CleanComparison(b, r)
  {
    var v := Compare(errors, b, r);
    assert v.regressed == {} <==> forall c | c in r && Fail in r[c] :: Has(b, c, Fail) by {
      assert forall c | c in r && Fail in r[c] && !Has(b, c, Fail) :: c in v.regressed;
    }
    assert v.missing == {} <==> forall c | c in b :: !IsMissing(b, r, c) by {
      assert forall c | c in b && IsMissing(b, r, c) :: c in v.missing;
    }
    assert v.shipping == {} <==> ShippingClean(b) && ShippingClean(r) by {
      assert forall c | c in r && c.mode == SHIPPING && Fail in r[c] :: ShippingFailure(c) in v.shipping;
      assert forall c | c in b && c.mode == SHIPPING && Fail in b[c] :: ShippingBaselineFailure(c) in v.shipping;
    }
  }

  /** A report passes against itself exactly when it is valid, records its OAuth policy and
      has no shipping failure. */
  lemma GateReflexive(report: Report, catalog: Catalog)
    ensures Passes(Gate(report, report, catalog)) <==>
            && Valid(report, catalog) && Get(report, Name.AutomaticAuthRequired).Bool?
            && ShippingClean(Validated(report, catalog).checks)
  {
    PassesMeans(report, report, catalog);
  }

  lemma CleanTransitive(a: Checks, b: Checks, c: Checks)
    requires CleanComparison(a, b) && CleanComparison(b, c)
    ensures CleanComparison(a, c)
  {
    forall x | x in a ensures !IsMissing(a, c, x) {
      assert !IsMissing(a, b, x);
      if x in b {
        assert !IsMissing(b, c, x);
      }
    }
  }

  /** Passing against a baseline that passes against an older one is passing against the older one. */
  lemma GateTransitive(a: Report, b: Report, c: Report, catalog: Catalog)
    requires Passes(Gate(b, a, catalog)) && Passes(Gate(c, b, catalog))
    ensures Passes(Gate(c, a, catalog))
  {
    PassesMeans(b, a, catalog);
    PassesMeans(c, b, catalog);
    PassesMeans(c, a, catalog);
    CleanTransitive(Validated(a, catalog).checks, Validated(b, catalog).checks, Validated(c, catalog).checks);
  }

  // ---- what validation lets through

  predicate Printable(c: Check) {
    c.mode in MODES && IsTransport(c.transport) && IsSource(c.source) && c.id != ""
  }

  predicate WellFormed(checks: Checks) {
    forall c | c in checks :: Printable(c) && checks[c] != {}
  }

  lemma {:induction false} RecordsWellFormed(l: Listing, items: seq<Json>, status: Status)
    requires WellFormed(l.found.checks)
    ensures WellFormed(Records(l, items, status).found.checks)
  {
    if items != [] {
      RecordsWellFormed(l, items[..|items| - 1], status);
    }
  }

  lemma BucketWellFormed(f: Found, records: Json, status: Status)
    requires WellFormed(f.checks)
    ensures WellFormed(Bucket(f, records, status).checks)
  {
    if records.Arr? {
      RecordsWellFormed(Listing(f, {}), records.items, status);
    }
  }

  lemma {:induction false} CompactModesKeepChecks(f: Found, modes: seq<string>, selected: Fields, catalog: Catalog)
    ensures CompactModes(f, modes, selected, catalog).checks == f.checks
  {
    if modes != [] {
      CompactModesKeepChecks(f, modes[..|modes| - 1], selected, catalog);
    }
  }

  lemma {:induction false} CaseChecksWellFormed(f: Found, items: seq<Json>, mode: string, transport: string)
    requires WellFormed(f.checks) && mode in MODES && IsTransport(transport)
    ensures WellFormed(CaseChecks(f, items, mode, transport).checks)
  {
    if items != [] {
      CaseChecksWellFormed(f, items[..|items| - 1], mode, transport);
    }
  }

  lemma FullModeWellFormed(f: Found, mode: string, cases: map<CaseKey, Fields>, selected: Fields, catalog: Catalog)
    requires WellFormed(f.checks) && mode in MODES
    ensures WellFormed(FullMode(f, mode, cases, selected, catalog).checks)
  {
    var f1 := FailIf(f, !CatalogAgrees(selected, mode, catalog), WrongCatalog(mode));
    if CaseKey(mode, STDIO) in cases && Get(cases[CaseKey(mode, STDIO)], Name.Checks).Arr? {
      CaseChecksWellFormed(f1, Get(cases[CaseKey(mode, STDIO)], Name.Checks).items, mode, STDIO);
    }
    var f2 := FullCase(f1, cases, mode, STDIO, catalog);
    if CaseKey(mode, HTTP) in cases && Get(cases[CaseKey(mode, HTTP)], Name.Checks).Arr? {
      CaseChecksWellFormed(f2, Get(cases[CaseKey(mode, HTTP)], Name.Checks).items, mode, HTTP);
    }
  }

  lemma {:induction false} FullModesWellFormed(f: Found, modes: seq<string>, cases: map<CaseKey, Fields>, selected: Fields, catalog: Catalog)
    requires WellFormed(f.checks) && forall m | m in modes :: m in MODES
    ensures WellFormed(FullModes(f, modes, cases, selected, catalog).checks)
  {
    if modes != [] {
      var before := modes[..|modes| - 1];
      FullModesWellFormed(f, before, cases, selected, catalog);
      FullModeWellFormed(FullModes(f, before, cases, selected, catalog), modes[|modes| - 1], cases, selected, catalog);
    }
  }

  lemma CompactBodyWellFormed(f: Found, report: Report, catalog: Catalog)
    requires f.checks == map[]
    ensures WellFormed(CompactBody(f, report, catalog).checks)
  {
    var checks := Get(report, Name.Checks);
    if Get(report, Name.BaselineKind) == Str(KIND) && checks.Obj? {
      var f1 := FailIf(f, Get(report, Name.RequiredModes) != Arr(Strings(MODES)), WrongModes);
      var f2 := FailIf(f1, !BothTransports(Get(report, Name.Transports)), WrongTransports);
      BucketWellFormed(f2, Get(checks.fields, Name.Passing), Pass);
      var f3 := Bucket(f2, Get(checks.fields, Name.Passing), Pass);
      BucketWellFormed(f3, Get(checks.fields, Name.Failing), Fail);
      CompactModesKeepChecks(Bucket(f3, Get(checks.fields, Name.Failing), Fail), MODES, Selected(report), catalog);
    }
  }

  lemma ValidatedWellFormed(report: Report, catalog: Catalog)
    ensures WellFormed(Validated(report, catalog).checks)
  {
    var f := Header(report);
    if IsCompact(report) {
      CompactBodyWellFormed(f, report, catalog);
    } else {
      var items := Get(report, Name.Cases);
      var start := CaseTable(if items.Arr? then f.errors else f.errors + [NoCases], map[]);
      var table := if items.Arr? then CasesOf(start, items.items) else start;
      FullModesWellFormed(Found(table.errors, f.checks), MODES, table.cases, Selected(report), catalog);
    }
  }

  // ---- scenario coverage of a valid report

  predicate ModeOk(checks: Checks, mode: string, selected: Fields, catalog: Catalog) {
    && CatalogAgrees(selected, mode, catalog)
    && HasCase(checks, mode, STDIO) && HasCase(checks, mode, HTTP)
    && ScenariosOf(checks, mode) == ToSet(catalog(mode))
  }

  lemma ScenarioErrorsMeans(f: Found, mode: string, observed: set<string>, catalog: Catalog)
    ensures ScenarioErrors(f, mode, observed, catalog).errors == [] <==> f.errors == [] && observed == ToSet(catalog(mode))
    ensures ScenarioErrors(f, mode, observed, catalog).checks == f.checks
  {
    var expected := ToSet(catalog(mode));
    assert expected - observed == {} && observed - expected == {} <==> observed == expected;
  }

  lemma {:induction false} CompactModesMeans(f: Found, modes: seq<string>, selected: Fields, catalog: Catalog)
    ensures CompactModes(f, modes, selected, catalog).checks == f.checks
    ensures CompactModes(f, modes, selected, catalog).errors == [] <==>
            f.errors == [] && forall m | m in modes :: ModeOk(f.checks, m, selected, catalog)
  {
    if modes != [] {
      var n := |modes| - 1;
      var mode := modes[n];
      CompactModesMeans(f, modes[..n], selected, catalog);
      assert modes == modes[..n] + [mode];
      var g := CompactModes(f, modes[..n], selected, catalog);
      CompactModeMeans(g, mode, selected, catalog);
    }
  }

  lemma CompactModeMeans(f: Found, mode: string, selected: Fields, catalog: Catalog)
    ensures CompactMode(f, mode, selected, catalog).checks == f.checks
    ensures CompactMode(f, mode, selected, catalog).errors == [] <==> f.errors == [] && ModeOk(f.checks, mode, selected, catalog)
  {
    var f1 := FailIf(f, !CatalogAgrees(selected, mode, catalog), WrongCatalog(mode));
    var f2 := FailIf(f1, !HasCase(f.checks, mode, STDIO), MissingCase(mode, STDIO));
    var f3 := FailIf(f2, !HasCase(f.checks, mode, HTTP), MissingCase(mode, HTTP));
    ScenarioErrorsMeans(f3, mode, ScenariosOf(f.checks, mode), catalog);
  }

  lemma AddScenario(checks: Checks, c: Check, s: Status, m: string)
    ensures ScenariosOf(AddStatus(checks, c, s), m) ==
            ScenariosOf(checks, m) + (if c.mode == m && c.transport == HTTP && c.source != "supplemental" then {c.scenario} else {})
  {
  }

  lemma {:induction false} CaseChecksScenarios(f: Found, items: seq<Json>, mode: string, transport: string, m: string)
    ensures var g := CaseChecks(f, items, mode, transport);
            ScenariosOf(g.checks, m) == ScenariosOf(f.checks, m) + (if m == mode && transport == HTTP then Observed(items, mode, transport) else {})
    ensures CaseChecks(f, items, mode, transport).errors == [] ==> f.errors == []
  {
    if items != [] {
      var before := items[..|items| - 1];
      CaseChecksScenarios(f, before, mode, transport, m);
      var check := CheckOf(items[|items| - 1], mode, transport);
      if check.Some? {
        AddScenario(CaseChecks(f, before, mode, transport).checks, check.value.0, check.value.1, m);
      }
    }
  }

  lemma FullCaseScenarios(f: Found, cases: map<CaseKey, Fields>, mode: string, transport: string, catalog: Catalog, m: string)
    requires FullCase(f, cases, mode, transport, catalog).errors == []
    ensures f.errors == []
    ensures var g := FullCase(f, cases, mode, transport, catalog);
            ScenariosOf(g.checks, m) == ScenariosOf(f.checks, m) + (if m == mode && transport == HTTP then ToSet(catalog(mode)) else {})
  {
    var items := Get(cases[CaseKey(mode, transport)], Name.Checks).items;
    CaseChecksScenarios(f, items, mode, transport, m);
    if transport == HTTP {
      ScenarioErrorsMeans(CaseChecks(f, items, mode, transport), mode, Observed(items, mode, transport), catalog);
    }
  }

  lemma FullModeScenarios(f: Found, mode: string, cases: map<CaseKey, Fields>, selected: Fields, catalog: Catalog, m: string)
    requires FullMode(f, mode, cases, selected, catalog).errors == []
    ensures f.errors == [] && CatalogAgrees(selected, mode, catalog)
    ensures ScenariosOf(FullMode(f, mode, cases, selected, catalog).checks, m) ==
            ScenariosOf(f.checks, m) + (if m == mode then ToSet(catalog(mode)) else {})
  {
    var f1 := FailIf(f, !CatalogAgrees(selected, mode, catalog), WrongCatalog(mode));
    var f2 := FullCase(f1, cases, mode, STDIO, catalog);
    FullCaseScenarios(f2, cases, mode, HTTP, catalog, m);
    FullCaseScenarios(f1, cases, mode, STDIO, catalog, m);
  }

  lemma {:induction false} FullModesScenarios(f: Found, modes: seq<string>, cases: map<CaseKey, Fields>, selected: Fields, catalog: Catalog, m: string)
    requires FullModes(f, modes, cases, selected, catalog).errors == []
    ensures f.errors == [] && (m in modes ==> CatalogAgrees(selected, m, catalog))
    ensures ScenariosOf(FullModes(f, modes, cases, selected, catalog).checks, m) ==
            ScenariosOf(f.checks, m) + (if m in modes then ToSet(catalog(m)) else {})
  {
    if modes != [] {
      var before, last := modes[..|modes| - 1], modes[|modes| - 1];
      assert m in modes <==> m in before || m == last by {
        assert modes == before + [last];
      }
      FullModeScenarios(FullModes(f, before, cases, selected, catalog), last, cases, selected, catalog, m);
      FullModesScenarios(f, before, cases, selected, catalog, m);
    }
  }

  lemma CompactBodyMeans(f: Found, report: Report, catalog: Catalog)
    requires CompactBody(f, report, catalog).errors == []
    ensures forall m | m in MODES :: ModeOk(CompactBody(f, report, catalog).checks, m, Selected(report), catalog)
  {
    var checks := Get(report, Name.Checks).fields;
    var f1 := FailIf(f, Get(report, Name.RequiredModes) != Arr(Strings(MODES)), WrongModes);
    var f2 := FailIf(f1, !BothTransports(Get(report, Name.Transports)), WrongTransports);
    var f3 := Bucket(Bucket(f2, Get(checks, Name.Passing), Pass), Get(checks, Name.Failing), Fail);
    CompactModesMeans(f3, MODES, Selected(report), catalog);
  }

  // ---- the cases of a full report

  lemma {:induction false} CaseChecksGrow(f: Found, items: seq<Json>, mode: string, transport: string)
    ensures f.checks.Keys <= CaseChecks(f, items, mode, transport).checks.Keys
  {
    if items != [] {
      CaseChecksGrow(f, items[..|items| - 1], mode, transport);
    }
  }

  lemma IdentityCase(j: Json, mode: string, transport: string)
    requires CheckOf(j, mode, transport).Some?
    ensures CheckOf(j, mode, transport).value.0.mode == mode && CheckOf(j, mode, transport).value.0.transport == transport
  {
  }

  /** A case read without an error leaves a check of that case. */
  lemma CaseChecksHasCase(f: Found, items: seq<Json>, mode: string, transport: string)
    requires items != [] && CaseChecks(f, items, mode, transport).errors == []
    ensures HasCase(CaseChecks(f, items, mode, transport).checks, mode, transport)
  {
    var last := items[|items| - 1];
    var check := CheckOf(last, mode, transport);
    IdentityCase(last, mode, transport);
    assert check.value.0 in CaseChecks(f, items, mode, transport).checks;
  }

  lemma FullCaseHasCase(f: Found, cases: map<CaseKey, Fields>, mode: string, transport: string, catalog: Catalog)
    requires FullCase(f, cases, mode, transport, catalog).errors == []
    ensures var g := FullCase(f, cases, mode, transport, catalog);
            f.checks.Keys <= g.checks.Keys && HasCase(g.checks, mode, transport)
  {
    var items := Get(cases[CaseKey(mode, transport)], Name.Checks).items;
    CaseChecksGrow(f, items, mode, transport);
    if transport == HTTP {
      ScenarioErrorsMeans(CaseChecks(f, items, mode, transport), mode, Observed(items, mode, transport), catalog);
    }
    CaseChecksHasCase(f, items, mode, transport);
  }

  lemma HasCaseGrows(a: Checks, b: Checks, mode: string, transport: string)
    requires a.Keys <= b.Keys && HasCase(a, mode, transport)
    ensures HasCase(b, mode, transport)
  {
  }

  lemma FullModeHasCases(f: Found, mode: string, cases: map<CaseKey, Fields>, selected: Fields, catalog: Catalog)
    requires FullMode(f, mode, cases, selected, catalog).errors == []
    ensures var g := FullMode(f, mode, cases, selected, catalog);
            f.checks.Keys <= g.checks.Keys && HasCase(g.checks, mode, STDIO) && HasCase(g.checks, mode, HTTP)
  {
    var f1 := FailIf(f, !CatalogAgrees(selected, mode, catalog), WrongCatalog(mode));
    var f2 := FullCase(f1, cases, mode, STDIO, catalog);
    FullCaseScenarios(f2, cases, mode, HTTP, catalog, mode);
    FullCaseHasCase(f2, cases, mode, HTTP, catalog);
    FullCaseHasCase(f1, cases, mode, STDIO, catalog);
    HasCaseGrows(f2.checks, FullMode(f, mode, cases, selected, catalog).checks, mode, STDIO);
  }

  lemma NextModeHasCases(h: Found, g: Found, last: string, cases: map<CaseKey, Fields>, selected: Fields, catalog: Catalog)
    requires g == FullMode(h, last, cases, selected, catalog) && g.errors == []
    ensures h.errors == [] && h.checks.Keys <= g.checks.Keys && HasCase(g.checks, last, STDIO) && HasCase(g.checks, last, HTTP)
  {
    FullModeScenarios(h, last, cases, selected, catalog, last);
    FullModeHasCases(h, last, cases, selected, catalog);
  }

  lemma {:induction false} FullModesHasCases(f: Found, modes: seq<string>, cases: map<CaseKey, Fields>, selected: Fields, catalog: Catalog, m: string)
    requires FullModes(f, modes, cases, selected, catalog).errors == [] && m in modes
    ensures var g := FullModes(f, modes, cases, selected, catalog);
            HasCase(g.checks, m, STDIO) && HasCase(g.checks, m, HTTP)
  {
    var before, last := modes[..|modes| - 1], modes[|modes| - 1];
    var h, g := FullModes(f, before, cases, selected, catalog), FullModes(f, modes, cases, selected, catalog);
    NextModeHasCases(h, g, last, cases, selected, catalog);
    if m != last {
      assert m in before by {
        assert modes == before + [last];
      }
      FullModesHasCases(f, before, cases, selected, catalog, m);
      HasCaseGrows(h.checks, g.checks, m, STDIO);
      HasCaseGrows(h.checks, g.checks, m, HTTP);
    }
  }

  lemma FullCoverage(g: Found, cases: map<CaseKey, Fields>, selected: Fields, catalog: Catalog, m: string)
    requires g.checks == map[] && m in MODES && FullModes(g, MODES, cases, selected, catalog).errors == []
    ensures ModeOk(FullModes(g, MODES, cases, selected, catalog).checks, m, selected, catalog)
  {
    FullModesScenarios(g, MODES, cases, selected, catalog, m);
    FullModesHasCases(g, MODES, cases, selected, catalog, m);
    assert ScenariosOf(map[], m) == {};
  }

  lemma FullBodyCoverage(f: Found, report: Report, catalog: Catalog, m: string)
    requires f.checks == map[] && m in MODES && FullBody(f, report, catalog).errors == []
    ensures ModeOk(FullBody(f, report, catalog).checks, m, Selected(report), catalog)
  {
    var items := Get(report, Name.Cases);
    var start := CaseTable(if items.Arr? then f.errors else f.errors + [NoCases], map[]);
    var table := if items.Arr? then CasesOf(start, items.items) else start;
    FullCoverage(Found(table.errors, f.checks), table.cases, Selected(report), catalog, m);
  }

  lemma HeaderChecks(report: Report)
    ensures Header(report).checks == map[]
  {
  }

  /** A valid report runs the whole catalogue of every mode, on both transports, and observes
      exactly its scenarios. */
  lemma ValidCoverage(report: Report, catalog: Catalog, m: string)
    requires Valid(report, catalog) && m in MODES
    ensures CatalogAgrees(Selected(report), m, catalog)
    ensures ScenariosOf(Validated(report, catalog).checks, m) == ToSet(catalog(m))
    ensures HasCase(Validated(report, catalog).checks, m, STDIO) && HasCase(Validated(report, catalog).checks, m, HTTP)
  {
    HeaderChecks(report);
    if IsCompact(report) {
      CompactBodyMeans(Header(report), report, catalog);
    } else {
      FullBodyCoverage(Header(report), report, catalog, m);
    }
  }

  // ---- reading back what compaction prints

  /** The checks without their skipped runs. */
  function Stripped(checks: Checks): Checks {
    map c | c in checks && (Pass in checks[c] || Fail in checks[c]) :: checks[c] - {Skip}
  }

  function WithStatus(checks: Checks, cs: seq<Check>, s: Status): Checks {
    map c | c in checks.Keys + (set x | x in cs) ::
      (if c in checks then checks[c] else {}) + (if c in cs then {s} else {})
  }

  lemma WithNone(checks: Checks, s: Status)
    ensures WithStatus(checks, [], s) == checks
  {
    forall c | c in checks ensures WithStatus(checks, [], s)[c] == checks[c] {
      assert checks[c] + {} == checks[c];
    }
    assert checks.Keys + (set x: Check | x in []) == checks.Keys;
  }

  lemma WithOneMore(checks: Checks, cs: seq<Check>, s: Status)
    requires cs != []
    ensures WithStatus(checks, cs, s) == AddStatus(WithStatus(checks, cs[..|cs| - 1], s), cs[|cs| - 1], s)
  {
    var before, last := cs[..|cs| - 1], cs[|cs| - 1];
    assert cs == before + [last];
    forall c ensures c in WithStatus(checks, cs, s) <==> c in AddStatus(WithStatus(checks, before, s), last, s) {
    }
    forall c | c in WithStatus(checks, cs, s)
      ensures WithStatus(checks, cs, s)[c] == AddStatus(WithStatus(checks, before, s), last, s)[c]
    {
    }
  }

  lemma RecordReadBack(c: Check)
    requires Printable(c)
    ensures RecordCheck(CheckRecord(c)) == Some(c)
  {
  }

  function Members(cs: seq<Check>): set<Check> {
    set c | c in cs
  }

  lemma SeenOneMore(cs: seq<Check>)
    requires cs != [] && forall i, j | 0 <= i < j < |cs| :: cs[i] != cs[j]
    ensures cs[|cs| - 1] !in Members(cs[..|cs| - 1])
    ensures Members(cs) == Members(cs[..|cs| - 1]) + {cs[|cs| - 1]}
  {
    assert cs == cs[..|cs| - 1] + [cs[|cs| - 1]];
  }

  lemma {:induction false} CheckListReadBack(f: Found, cs: seq<Check>, s: Status)
    requires forall i | 0 <= i < |cs| :: Printable(cs[i])
    requires forall i, j | 0 <= i < j < |cs| :: cs[i] != cs[j]
    ensures Records(Listing(f, {}), CheckList(cs), s) == Listing(f.(checks := WithStatus(f.checks, cs, s)), Members(cs))
  {
    if cs == [] {
      WithNone(f.checks, s);
      assert Members(cs) == {};
    } else {
      var n := |cs| - 1;
      var items := CheckList(cs);
      assert items[..n] == CheckList(cs[..n]);
      CheckListReadBack(f, cs[..n], s);
      RecordReadBack(cs[n]);
      WithOneMore(f.checks, cs, s);
      SeenOneMore(cs);
    }
  }

  lemma SplitByStatus(checks: Checks, passing: seq<Check>, failing: seq<Check>)
    requires forall c :: c in passing <==> c in With(checks, Pass)
    requires forall c :: c in failing <==> c in With(checks, Fail)
    ensures WithStatus(WithStatus(map[], passing, Pass), failing, Fail) == Stripped(checks)
  {
    var w := WithStatus(WithStatus(map[], passing, Pass), failing, Fail);
    forall c | c in w ensures w[c] == checks[c] - {Skip} {
      assert c in checks && (Pass in w[c] <==> Pass in checks[c]) && (Fail in w[c] <==> Fail in checks[c]) && Skip !in w[c];
      forall s ensures s in w[c] <==> s in checks[c] - {Skip} {
        assert s == Pass || s == Fail || s == Skip;
      }
    }
  }

  lemma BucketsReadBack(f: Found, checks: Checks, passing: seq<Check>, failing: seq<Check>)
    requires f.checks == map[] && WellFormed(checks)
    requires passing == SortChecks(With(checks, Pass)) && failing == SortChecks(With(checks, Fail))
    ensures Bucket(Bucket(f, Arr(CheckList(passing)), Pass), Arr(CheckList(failing)), Fail) == f.(checks := Stripped(checks))
  {
    forall i | 0 <= i < |passing| ensures Printable(passing[i]) {
      assert passing[i] in passing;
    }
    forall i | 0 <= i < |failing| ensures Printable(failing[i]) {
      assert failing[i] in failing;
    }
    CheckListReadBack(f, passing, Pass);
    var g := f.(checks := WithStatus(map[], passing, Pass));
    CheckListReadBack(g, failing, Fail);
    SplitByStatus(checks, passing, failing);
  }

  lemma BaselineMembers(auth: Json, scenarios: Fields, passing: Json, failing: Json, k: Report)
    requires k == Baseline(auth, scenarios, passing, failing)
    ensures Get(k, Name.BaselineKind) == Str(KIND) && Get(k, Name.RequiredModes) == Arr(Strings(MODES))
    ensures BothTransports(Get(k, Name.Transports)) && Get(k, Name.AutomaticAuthRequired) == auth
    ensures Get(k, Name.Checks).Obj?
    ensures var buckets := Get(k, Name.Checks).fields;
            Get(buckets, Name.Passing) == passing && Get(buckets, Name.Failing) == failing
  {
  }

  lemma BaselineHeader(auth: Json, scenarios: Fields, passing: Json, failing: Json, k: Report)
    requires k == Baseline(auth, scenarios, passing, failing)
    ensures Header(k) == Found([], map[]) && Selected(k) == scenarios
  {
    assert Get(k, Name.SchemaVersion) == Num(SCHEMA as real) && Get(k, Name.ModernFeatureEnablement) == Bool(true);
    assert Get(k, Name.VersionCheck) == Obj(map[Name.Success := Bool(true)]);
    assert Get(k, Name.OfficialConformance).Obj?;
    assert Get(Official(k), Name.Repository) == Str(REPOSITORY) && Get(Official(k), Name.GitRef) == Str(GIT_REF);
    assert Get(Official(k), Name.AuthenticationIncluded) == Bool(true) && Get(Official(k), Name.Scenarios) == Obj(scenarios);
  }

  lemma ModesAre(m: string)
    ensures m in MODES <==> m == MODES[0] || m == MODES[1] || m == MODES[2]
  {
  }

  lemma ModeCatalogAgrees(selected: Fields, catalog: Catalog, m: string)
    requires m in MODES && CatalogAgrees(selected, m, catalog)
    ensures CatalogAgrees(ModeCatalog(selected), m, catalog)
  {
    ModesAre(m);
  }

  lemma ModeCatalogIdempotent(selected: Fields)
    ensures ModeCatalog(ModeCatalog(selected)) == ModeCatalog(selected)
  {
  }

  /** Validating a compact form: the stripped checks, judged mode by mode. */
  lemma CompactFormValidated(checks: Checks, auth: Json, selected: Fields, catalog: Catalog, k: Report)
    requires WellFormed(checks) && k == CompactReport(checks, auth, selected)
    ensures Validated(k, catalog).checks == Stripped(checks)
    ensures Valid(k, catalog) <==> forall m | m in MODES :: ModeOk(Stripped(checks), m, ModeCatalog(selected), catalog)
    ensures Selected(k) == ModeCatalog(selected) && Get(k, Name.AutomaticAuthRequired) == auth
  {
    var passing, failing := SortChecks(With(checks, Pass)), SortChecks(With(checks, Fail));
    BaselineMembers(auth, ModeCatalog(selected), Arr(CheckList(passing)), Arr(CheckList(failing)), k);
    BaselineHeader(auth, ModeCatalog(selected), Arr(CheckList(passing)), Arr(CheckList(failing)), k);
    BucketsReadBack(Found([], map[]), checks, passing, failing);
    CompactModesMeans(Found([], Stripped(checks)), MODES, Selected(k), catalog);
  }

  // ---- the results

  /** Every mode has a check that was not skipped on both transports, and every required
      scenario an official or harness check that was not skipped. */
  predicate CoveredWithoutSkips(checks: Checks, catalog: Catalog) {
    forall m | m in MODES ::
      && HasCase(Stripped(checks), m, STDIO) && HasCase(Stripped(checks), m, HTTP)
      && ToSet(catalog(m)) <= ScenariosOf(Stripped(checks), m)
  }

  lemma StrippedScenarios(checks: Checks, m: string)
    ensures ScenariosOf(Stripped(checks), m) <= ScenariosOf(checks, m)
  {
  }

  lemma ModesOkIffCovered(report: Report, catalog: Catalog)
    requires Valid(report, catalog)
    ensures var checks := Validated(report, catalog).checks;
            (forall m | m in MODES :: ModeOk(Stripped(checks), m, ModeCatalog(Selected(report)), catalog)) <==>
            CoveredWithoutSkips(checks, catalog)
  {
    var checks := Validated(report, catalog).checks;
    forall m | m in MODES
      ensures CatalogAgrees(ModeCatalog(Selected(report)), m, catalog)
      ensures ScenariosOf(Stripped(checks), m) == ToSet(catalog(m)) <==> ToSet(catalog(m)) <= ScenariosOf(Stripped(checks), m)
    {
      ValidCoverage(report, catalog, m);
      ModeCatalogAgrees(Selected(report), catalog, m);
      StrippedScenarios(checks, m);
    }
  }

  /** The compact form of an accepted baseline revalidates exactly when the baseline's
      coverage does not rest on skipped checks. */
  lemma CompactRevalidatesIff(report: Report, catalog: Catalog)
    requires Compacted(report, catalog).Some?
    ensures Valid(Compacted(report, catalog).value, catalog) <==> CoveredWithoutSkips(Validated(report, catalog).checks, catalog)
    ensures Validated(Compacted(report, catalog).value, catalog).checks == Stripped(Validated(report, catalog).checks)
  {
    ValidatedWellFormed(report, catalog);
    CompactFormValidated(Validated(report, catalog).checks, Get(report, Name.AutomaticAuthRequired), Selected(report), catalog,
                         Compacted(report, catalog).value);
    ModesOkIffCovered(report, catalog);
  }

  lemma StrippedCompares(errors: seq<Error>, b: Checks, r: Checks)
    ensures var v, w := Compare(errors, Stripped(b), r), Compare(errors, b, r);
            v.known == w.known && v.regressed == w.regressed && v.missing == w.missing && v.fixed == w.fixed && v.shipping == w.shipping
  {
    forall c, s | s != Skip ensures Has(Stripped(b), c, s) == Has(b, c, s) {
    }
    forall c ensures IsMissing(Stripped(b), r, c) == IsMissing(b, r, c) {
    }
    var v, w := Compare(errors, Stripped(b), r), Compare(errors, b, r);
    assert forall c :: c in v.missing <==> c in w.missing by {
      assert forall c | c in b && IsMissing(b, r, c) :: c in Stripped(b);
    }
    assert forall c :: c in v.fixed <==> c in w.fixed by {
      assert forall c | c in b && Fail in b[c] :: c in Stripped(b);
    }
    SameShipping(errors, b, r);
  }

  lemma SameShipping(errors: seq<Error>, b: Checks, r: Checks)
    ensures Compare(errors, Stripped(b), r).shipping == Compare(errors, b, r).shipping
  {
    assert (set c | c in Stripped(b) && c.mode == SHIPPING && Fail in Stripped(b)[c] :: ShippingBaselineFailure(c))
        == (set c | c in b && c.mode == SHIPPING && Fail in b[c] :: ShippingBaselineFailure(c)) by {
      assert forall c :: (c in Stripped(b) && Fail in Stripped(b)[c]) <==> (c in b && Fail in b[c]);
    }
  }

  /** Replacing a baseline by its compact form never changes the four lists. It leaves the
      whole verdict unchanged, for one candidate or for all, exactly when the baseline's
      coverage does not rest on skipped checks; otherwise no candidate passes. */
  lemma CompactKeepsVerdict(candidate: Report, baseline: Report, catalog: Catalog)
    requires Compacted(baseline, catalog).Some?
    ensures var v, w := Gate(candidate, Compacted(baseline, catalog).value, catalog), Gate(candidate, baseline, catalog);
            var covered := CoveredWithoutSkips(Validated(baseline, catalog).checks, catalog);
            && v.known == w.known && v.regressed == w.regressed && v.missing == w.missing && v.fixed == w.fixed
            && (v == w <==> covered) && (Passes(v) <==> Passes(w) && covered)
  {
    CompactRevalidatesIff(baseline, catalog);
    ValidatedWellFormed(baseline, catalog);
    var k := Compacted(baseline, catalog).value;
    CompactFormValidated(Validated(baseline, catalog).checks, Get(baseline, Name.AutomaticAuthRequired), Selected(baseline), catalog, k);
    var b, r, c := Validated(baseline, catalog), Validated(candidate, catalog), Validated(k, catalog);
    var auth := AuthErrors(Get(baseline, Name.AutomaticAuthRequired), Get(candidate, Name.AutomaticAuthRequired));
    StrippedCompares(b.errors + r.errors + auth, b.checks, r.checks);
    assert |c.errors + r.errors + auth| == |c.errors| + |b.errors + r.errors + auth|;
  }

  lemma StrippedKeepsLists(checks: Checks)
    ensures With(Stripped(checks), Pass) == With(checks, Pass) && With(Stripped(checks), Fail) == With(checks, Fail)
    ensures ShippingClean(Stripped(checks)) <==> ShippingClean(checks)
  {
    forall c, s | s != Skip ensures Has(Stripped(checks), c, s) == Has(checks, c, s) {
    }
    assert forall c :: c in With(Stripped(checks), Pass) <==> Has(Stripped(checks), c, Pass);
    assert forall c :: c in With(Stripped(checks), Fail) <==> Has(Stripped(checks), c, Fail);
    assert forall c :: c in With(checks, Pass) <==> Has(checks, c, Pass);
    assert forall c :: c in With(checks, Fail) <==> Has(checks, c, Fail);
    if ShippingClean(Stripped(checks)) {
      forall c | c in checks && c.mode == SHIPPING ensures Fail !in checks[c] {
        assert !Has(Stripped(checks), c, Fail);
      }
    }
  }

  /** Compacting a compact baseline gives it back, exactly when it revalidates. */
  lemma CompactIdempotent(report: Report, catalog: Catalog)
    requires Compacted(report, catalog).Some?
    ensures var k := Compacted(report, catalog).value;
            && (Compacted(k, catalog).Some? <==> CoveredWithoutSkips(Validated(report, catalog).checks, catalog))
            && (Compacted(k, catalog).Some? ==> Compacted(k, catalog).value == k)
  {
    var checks := Validated(report, catalog).checks;
    CompactRevalidatesIff(report, catalog);
    ValidatedWellFormed(report, catalog);
    CompactFormValidated(checks, Get(report, Name.AutomaticAuthRequired), Selected(report), catalog, Compacted(report, catalog).value);
    StrippedKeepsLists(checks);
    ModeCatalogIdempotent(Selected(report));
  }

  // ---- the order of the lists

  predicate InOrder(a: Check, b: Check) {
    KeyLeq(CheckKey(a), CheckKey(b)) && a != b
  }

  lemma SortedInOrder(s: set<Check>)
    ensures Ordered(SortChecks(s), InOrder)
  {
    var keys := set c | c in s :: CheckKey(c);
    CheckKeysDistinct(s, keys);
    var ks, cs := SortKeys(keys), SortChecks(s);
    forall i, j | 0 <= i < j < |cs|
      ensures InOrder(cs[i], cs[j])
    {
      assert ks[i] in ks && ks[j] in ks;
    }
  }

  /** Every list the gate returns is strictly increasing in the order of Python's tuples. */
  lemma ListsInOrder(s: set<Check>, listed: set<Check>)
    ensures Ordered(Select(SortChecks(s), listed), InOrder)
  {
    SortedInOrder(s);
    SelectInOrder(SortChecks(s), listed, InOrder);
  }
}
