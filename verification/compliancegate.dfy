/** The MCP compliance gate: reports are validated into a map from check identity to the
    statuses seen, compacted into a baseline, and compared.

    The required scenarios of each protocol version are the parameter `catalog`. A Python
    TypeError from hashing a list or object counts as one more validation error. */
module ComplianceGate {
  import opened Json
  import opened Keys
  import opened Sets
  import opened Text

  const SCHEMA := 4
  const KIND := "mcp-conformance-regression-baseline-v1"
  const REPOSITORY := "modelcontextprotocol/conformance"
  const GIT_REF := "49103de6ed70804e940637bf3e9e29e4a3f54e64"
  const SHIPPING := "2025-06-18"
  const MODES := [SHIPPING, "2025-11-25", "2026-07-28"]
  const STDIO := "stdio"
  const HTTP := "official-http"

  datatype Status = Pass | Fail | Skip

  datatype Check = Check(mode: string, transport: string, source: string, scenario: string, id: string)
  type Checks = map<Check, set<Status>>
  type Catalog = string -> seq<string>

  datatype Error =
    | WrongSchema | NoVersionCheck | NoModernFeature | NoOfficial | WrongRepository | WrongRevision
    | NoAuthentication | NoScenarios | WrongKind | WrongModes | WrongTransports | NoChecks
    | MalformedCheck | DuplicateCheck | WrongCatalog(mode: string) | MissingCase(mode: string, transport: string)
    | MissingScenarios(mode: string) | UnexpectedScenarios(mode: string)
    | NoCases | MalformedCase | DuplicateCase | NoAuthPolicy | DifferentAuthPolicy
    | ShippingFailure(check: Check) | ShippingBaselineFailure(check: Check)

  datatype Found = Found(errors: seq<Error>, checks: Checks)

  function Failed(f: Found, e: Error): Found {
    f.(errors := f.errors + [e])
  }

  function FailIf(f: Found, bad: bool, e: Error): Found {
    if bad then Failed(f, e) else f
  }

  predicate IsSource(s: string) {
    s == "official" || s == "harness" || s == "supplemental"
  }

  predicate IsTransport(s: string) {
    s == STDIO || s == HTTP
  }

  function AddStatus(checks: Checks, c: Check, s: Status): Checks {
    checks[c := (if c in checks then checks[c] else {}) + {s}]
  }

  // ---- the identity of a check

  predicate IsDecimal(s: string) {
    s != "" && forall i | 0 <= i < |s| :: '0' <= s[i] <= '9'
  }

  /** The name without a trailing "#<number>". */
  function StableName(name: string): (r: string)
    ensures name != "" ==> r != ""
  {
    var cut := LastHash(name, |name|);
    if 0 < cut && IsDecimal(name[cut + 1..]) then name[..cut] else name
  }

  /** Index of the last '#' among the first `n` characters, or -1. */
  function LastHash(name: string, n: nat): (i: int)
    requires n <= |name|
    ensures -1 <= i < n
  {
    if n == 0 then -1 else if name[n - 1] == '#' then n - 1 else LastHash(name, n - 1)
  }

  /** None or a non-empty string. */
  predicate IsOptionalText(j: Json) {
    j == Null || (j.Str? && j.s != "")
  }

  function Identity(mode: string, transport: string, fields: Fields): Option<Check> {
    var source, scenario := Get(fields, Name.Source), Get(fields, Name.Scenario);
    var name, id := Get(fields, Name.CheckName), Get(fields, Name.CheckId);
    if !(source.Str? && IsSource(source.s)) || !(name.Str? && name.s != "") then None
    else if !IsOptionalText(scenario) || !IsOptionalText(id) then None
    else Some(Check(mode, transport, source.s, if scenario.Str? then scenario.s else "", if id.Str? then id.s else StableName(name.s)))
  }

  function StatusOf(j: Json): Option<Status> {
    if j == Str("PASS") then Some(Pass) else if j == Str("FAIL") then Some(Fail) else if j == Str("SKIP") then Some(Skip) else None
  }

  // ---- what both report forms share

  function Official(report: Report): Fields {
    var official := Get(report, Name.OfficialConformance);
    if official.Obj? then official.fields else map[]
  }

  function Selected(report: Report): Fields {
    var scenarios := Get(Official(report), Name.Scenarios);
    if scenarios.Obj? then scenarios.fields else map[]
  }

  function Header(report: Report): Found {
    var version := Get(report, Name.VersionCheck);
    var f1 := FailIf(Found([], map[]), !EqInt(Get(report, Name.SchemaVersion), SCHEMA), WrongSchema);
    var f2 := FailIf(f1, !(version.Obj? && Get(version.fields, Name.Success) == Bool(true)), NoVersionCheck);
    var f3 := FailIf(f2, Get(report, Name.ModernFeatureEnablement) != Bool(true), NoModernFeature);
    if !Get(report, Name.OfficialConformance).Obj? then Failed(f3, NoOfficial)
    else
      var official := Official(report);
      var f4 := FailIf(f3, Get(official, Name.Repository) != Str(REPOSITORY), WrongRepository);
      var f5 := FailIf(f4, Get(official, Name.GitRef) != Str(GIT_REF), WrongRevision);
      var f6 := FailIf(f5, Get(official, Name.AuthenticationIncluded) != Bool(true), NoAuthentication);
      FailIf(f6, !Get(official, Name.Scenarios).Obj?, NoScenarios)
  }

  predicate CatalogAgrees(selected: Fields, mode: string, catalog: Catalog) {
    Get(selected, Name.Other(mode)) == Arr(Strings(catalog(mode)))
  }

  function ToSet(ss: seq<string>): set<string> {
    set s | s in ss
  }

  /** The scenarios the official runner or the harness observed for a mode. */
  function ScenariosOf(checks: Checks, mode: string): set<string> {
    set c | c in checks && c.mode == mode && c.transport == HTTP && c.source != "supplemental" :: c.scenario
  }

  function ScenarioErrors(f: Found, mode: string, observed: set<string>, catalog: Catalog): Found {
    var expected := ToSet(catalog(mode));
    FailIf(FailIf(f, expected - observed != {}, MissingScenarios(mode)), observed - expected != {}, UnexpectedScenarios(mode))
  }

  // ---- a compact baseline

  function RecordCheck(j: Json): Option<Check> {
    if !j.Obj? then None
    else
      var mode, transport := Get(j.fields, Name.Mode), Get(j.fields, Name.Transport);
      var source, scenario, id := Get(j.fields, Name.Source), Get(j.fields, Name.Scenario), Get(j.fields, Name.CheckId);
      if mode.Str? && mode.s in MODES && transport.Str? && IsTransport(transport.s) && source.Str? && IsSource(source.s)
         && scenario.Str? && id.Str? && id.s != ""
      then Some(Check(mode.s, transport.s, source.s, scenario.s, id.s)) else None
  }

  /** Validation inside one bucket, with the identities the bucket has listed. */
  datatype Listing = Listing(found: Found, seen: set<Check>)

  function AddRecord(l: Listing, c: Option<Check>, status: Status): Listing {
    if c.None? then l.(found := Failed(l.found, MalformedCheck))
    else if c.value in l.seen then l.(found := Failed(l.found, DuplicateCheck))
    else Listing(l.found.(checks := AddStatus(l.found.checks, c.value, status)), l.seen + {c.value})
  }

  function Records(l: Listing, items: seq<Json>, status: Status): Listing {
    if items == [] then l
    else AddRecord(Records(l, items[..|items| - 1], status), RecordCheck(items[|items| - 1]), status)
  }

  function Bucket(f: Found, records: Json, status: Status): Found {
    if records.Arr? then Records(Listing(f, {}), records.items, status).found else Failed(f, NoChecks)
  }

  predicate HasCase(checks: Checks, mode: string, transport: string) {
    exists c | c in checks :: c.mode == mode && c.transport == transport
  }

  function CompactMode(f: Found, mode: string, selected: Fields, catalog: Catalog): Found {
    var f1 := FailIf(f, !CatalogAgrees(selected, mode, catalog), WrongCatalog(mode));
    var f2 := FailIf(f1, !HasCase(f.checks, mode, STDIO), MissingCase(mode, STDIO));
    var f3 := FailIf(f2, !HasCase(f.checks, mode, HTTP), MissingCase(mode, HTTP));
    ScenarioErrors(f3, mode, ScenariosOf(f.checks, mode), catalog)
  }

  function CompactModes(f: Found, modes: seq<string>, selected: Fields, catalog: Catalog): Found {
    if modes == [] then f
    else CompactMode(CompactModes(f, modes[..|modes| - 1], selected, catalog), modes[|modes| - 1], selected, catalog)
  }

  predicate BothTransports(j: Json) {
    j == Arr([Str(STDIO), Str(HTTP)]) || j == Arr([Str(HTTP), Str(STDIO)])
  }

  function CompactBody(f: Found, report: Report, catalog: Catalog): Found {
    if Get(report, Name.BaselineKind) != Str(KIND) then Failed(f, WrongKind)
    else
      var f1 := FailIf(f, Get(report, Name.RequiredModes) != Arr(Strings(MODES)), WrongModes);
      var f2 := FailIf(f1, !BothTransports(Get(report, Name.Transports)), WrongTransports);
      var checks := Get(report, Name.Checks);
      if !checks.Obj? then Failed(f2, NoChecks)
      else
        var f3 := Bucket(Bucket(f2, Get(checks.fields, Name.Passing), Pass), Get(checks.fields, Name.Failing), Fail);
        CompactModes(f3, MODES, Selected(report), catalog)
  }

  // ---- a full report

  datatype CaseKey = CaseKey(mode: string, transport: string)

  /** The required cases found so far. */
  datatype CaseTable = CaseTable(errors: seq<Error>, cases: map<CaseKey, Fields>)

  function AddCase(t: CaseTable, j: Json): CaseTable {
    if !j.Obj? then t.(errors := t.errors + [MalformedCase])
    else
      var mode, transport := Get(j.fields, Name.Mode), Get(j.fields, Name.Transport);
      if !(mode.Str? && mode.s in MODES) then t
      else if !transport.Str? then t.(errors := t.errors + [MalformedCase])
      else if CaseKey(mode.s, transport.s) in t.cases then t.(errors := t.errors + [DuplicateCase])
      else t.(cases := t.cases[CaseKey(mode.s, transport.s) := j.fields])
  }

  function CasesOf(t: CaseTable, items: seq<Json>): CaseTable {
    if items == [] then t else AddCase(CasesOf(t, items[..|items| - 1]), items[|items| - 1])
  }

  /** The identity and status of a well-formed check. */
  function CheckOf(j: Json, mode: string, transport: string): Option<(Check, Status)> {
    if !j.Obj? then None
    else
      var identity, status := Identity(mode, transport, j.fields), StatusOf(Get(j.fields, Name.Status));
      if identity.None? || status.None? || Get(j.fields, Name.Success) != Bool(status.value != Fail) then None
      else Some((identity.value, status.value))
  }

  function AddCheck(f: Found, check: Option<(Check, Status)>): Found {
    if check.None? then Failed(f, MalformedCheck) else f.(checks := AddStatus(f.checks, check.value.0, check.value.1))
  }

  function CaseChecks(f: Found, items: seq<Json>, mode: string, transport: string): Found {
    if items == [] then f
    else AddCheck(CaseChecks(f, items[..|items| - 1], mode, transport), CheckOf(items[|items| - 1], mode, transport))
  }

  /** The scenarios of the official and harness checks of a case. */
  function Observed(items: seq<Json>, mode: string, transport: string): set<string> {
    if items == [] then {}
    else
      var check := CheckOf(items[|items| - 1], mode, transport);
      Observed(items[..|items| - 1], mode, transport) +
      if check.Some? && check.value.0.source != "supplemental" then {check.value.0.scenario} else {}
  }

  function FullCase(f: Found, cases: map<CaseKey, Fields>, mode: string, transport: string, catalog: Catalog): Found {
    if CaseKey(mode, transport) !in cases then Failed(f, MissingCase(mode, transport))
    else
      var checks := Get(cases[CaseKey(mode, transport)], Name.Checks);
      if !checks.Arr? || checks.items == [] then Failed(f, NoChecks)
      else
        var f1 := CaseChecks(f, checks.items, mode, transport);
        if transport == HTTP then ScenarioErrors(f1, mode, Observed(checks.items, mode, transport), catalog) else f1
  }

  function FullMode(f: Found, mode: string, cases: map<CaseKey, Fields>, selected: Fields, catalog: Catalog): Found {
    var f1 := FailIf(f, !CatalogAgrees(selected, mode, catalog), WrongCatalog(mode));
    FullCase(FullCase(f1, cases, mode, STDIO, catalog), cases, mode, HTTP, catalog)
  }

  function FullModes(f: Found, modes: seq<string>, cases: map<CaseKey, Fields>, selected: Fields, catalog: Catalog): Found {
    if modes == [] then f
    else FullMode(FullModes(f, modes[..|modes| - 1], cases, selected, catalog), modes[|modes| - 1], cases, selected, catalog)
  }

  function FullBody(f: Found, report: Report, catalog: Catalog): Found {
    var items := Get(report, Name.Cases);
    var start := CaseTable(if items.Arr? then f.errors else f.errors + [NoCases], map[]);
    var table := if items.Arr? then CasesOf(start, items.items) else start;
    FullModes(Found(table.errors, f.checks), MODES, table.cases, Selected(report), catalog)
  }

  predicate IsCompact(report: Report) {
    Get(report, Name.BaselineKind) != Null
  }

  /** The whole validation of one report. */
  function Validated(report: Report, catalog: Catalog): Found {
    var f := Header(report);
    if IsCompact(report) then CompactBody(f, report, catalog) else FullBody(f, report, catalog)
  }

  // ---- the compact form

  function With(checks: Checks, s: Status): set<Check> {
    set c | c in checks && s in checks[c]
  }

  predicate ShippingClean(checks: Checks) {
    forall c | c in checks && c.mode == SHIPPING :: Fail !in checks[c]
  }

  function CheckKey(c: Check): Key {
    [c.mode, c.transport, c.source, c.scenario, c.id]
  }

  function KeyCheck(k: Key): Check
    requires |k| == 5
  {
    Check(k[0], k[1], k[2], k[3], k[4])
  }

  lemma CheckKeysDistinct(s: set<Check>, keys: set<Key>)
    requires keys == set c | c in s :: CheckKey(c)
    ensures forall k | k in keys :: |k| == 5 && KeyCheck(k) in s && CheckKey(KeyCheck(k)) == k
    ensures forall c | c in s :: CheckKey(c) in keys && KeyCheck(CheckKey(c)) == c
  {
  }

  /** `sorted` over a set of checks. */
  function SortChecks(s: set<Check>): (cs: seq<Check>)
    ensures forall c :: c in cs <==> c in s
    ensures forall i, j | 0 <= i < j < |cs| :: cs[i] != cs[j]
  {
    var keys := set c | c in s :: CheckKey(c);
    CheckKeysDistinct(s, keys);
    ChecksOfAll(s, keys, SortKeys(keys));
    ChecksOf(SortKeys(keys))
  }

  function ChecksOf(ks: seq<Key>): (cs: seq<Check>)
    requires forall k | k in ks :: |k| == 5
    ensures |cs| == |ks| && forall i | 0 <= i < |cs| :: cs[i] == KeyCheck(ks[i])
  {
    seq(|ks|, i requires 0 <= i < |ks| => KeyCheck(ks[i]))
  }

  lemma ChecksOfAll(s: set<Check>, keys: set<Key>, ks: seq<Key>)
    requires forall k | k in keys :: |k| == 5 && KeyCheck(k) in s && CheckKey(KeyCheck(k)) == k
    requires forall c | c in s :: CheckKey(c) in keys && KeyCheck(CheckKey(c)) == c
    requires (forall k :: k in ks <==> k in keys) && forall i, j | 0 <= i < j < |ks| :: ks[i] != ks[j]
    ensures forall c :: c in ChecksOf(ks) <==> c in s
    ensures forall i, j | 0 <= i < j < |ChecksOf(ks)| :: ChecksOf(ks)[i] != ChecksOf(ks)[j]
  {
    var cs := ChecksOf(ks);
    forall i | 0 <= i < |ks|
      ensures CheckKey(cs[i]) == ks[i] && cs[i] in s
    {
      assert ks[i] in ks;
    }
    forall c | c in s
      ensures c in cs
    {
      var i :| 0 <= i < |ks| && ks[i] == CheckKey(c);
      assert cs[i] == c;
    }
  }

  function CheckRecord(c: Check): Json {
    Obj(map[Name.Mode := Str(c.mode), Name.Transport := Str(c.transport), Name.Source := Str(c.source),
            Name.Scenario := Str(c.scenario), Name.CheckId := Str(c.id)])
  }

  function CheckList(cs: seq<Check>): (items: seq<Json>)
    ensures |items| == |cs|
  {
    if cs == [] then [] else CheckList(cs[..|cs| - 1]) + [CheckRecord(cs[|cs| - 1])]
  }

  function ModeCatalog(selected: Fields): Fields {
    map[Name.Other(MODES[0]) := Get(selected, Name.Other(MODES[0])),
        Name.Other(MODES[1]) := Get(selected, Name.Other(MODES[1])),
        Name.Other(MODES[2]) := Get(selected, Name.Other(MODES[2]))]
  }

  function Baseline(auth: Json, scenarios: Fields, passing: Json, failing: Json): Report {
    map[Name.BaselineKind := Str(KIND), Name.SchemaVersion := Num(SCHEMA as real), Name.RequiredModes := Arr(Strings(MODES)),
        Name.Transports := Arr([Str(STDIO), Str(HTTP)]), Name.VersionCheck := Obj(map[Name.Success := Bool(true)]),
        Name.ModernFeatureEnablement := Bool(true), Name.AutomaticAuthRequired := auth,
        Name.OfficialConformance := Obj(map[Name.Repository := Str(REPOSITORY), Name.GitRef := Str(GIT_REF),
                                            Name.AuthenticationIncluded := Bool(true), Name.Scenarios := Obj(scenarios)]),
        Name.Checks := Obj(map[Name.Passing := passing, Name.Failing := failing])]
  }

  function CompactReport(checks: Checks, auth: Json, selected: Fields): Report {
    Baseline(auth, ModeCatalog(selected), Arr(CheckList(SortChecks(With(checks, Pass)))), Arr(CheckList(SortChecks(With(checks, Fail)))))
  }

  /** The compact baseline of a report; `None` where compaction raises. */
  function Compacted(report: Report, catalog: Catalog): Option<Report> {
    var f := Validated(report, catalog);
    var auth := Get(report, Name.AutomaticAuthRequired);
    if f.errors == [] && auth.Bool? && ShippingClean(f.checks) then Some(CompactReport(f.checks, auth, Selected(report))) else None
  }

  // ---- the gate

  datatype Verdict = Verdict(
    errors: seq<Error>, shipping: set<Error>, known: set<Check>, regressed: set<Check>, missing: set<Check>, fixed: set<Check>)

  predicate Passes(v: Verdict) {
    v.errors == [] && v.shipping == {} && v.regressed == {} && v.missing == {}
  }

  function AuthErrors(baseline: Json, candidate: Json): seq<Error> {
    if !baseline.Bool? || !candidate.Bool? then [NoAuthPolicy]
    else if baseline != candidate then [DifferentAuthPolicy] else []
  }

  predicate Has(checks: Checks, c: Check, s: Status) {
    c in checks && s in checks[c]
  }

  /** A check the baseline saw and the candidate did not complete. */
  predicate IsMissing(baseline: Checks, candidate: Checks, c: Check) {
    || (Has(baseline, c, Pass) && !Has(candidate, c, Pass))
    || (Has(baseline, c, Fail) && !Has(candidate, c, Fail) && !Has(candidate, c, Pass))
  }

  /** The comparison of validated checks; each list of the gate is the sorted form of its set. */
  function Compare(errors: seq<Error>, baseline: Checks, candidate: Checks): Verdict {
    Verdict(
      errors,
      (set c | c in candidate && c.mode == SHIPPING && Fail in candidate[c] :: ShippingFailure(c)) +
      (set c | c in baseline && c.mode == SHIPPING && Fail in baseline[c] :: ShippingBaselineFailure(c)),
      set c | c in candidate && Fail in candidate[c] && Has(baseline, c, Fail),
      set c | c in candidate && Fail in candidate[c] && !Has(baseline, c, Fail),
      set c | c in baseline && IsMissing(baseline, candidate, c),
      set c | c in baseline && !IsMissing(baseline, candidate, c) && Fail in baseline[c] && !Has(candidate, c, Fail))
  }

  function Gate(report: Report, baseline: Report, catalog: Catalog): Verdict {
    var b, r := Validated(baseline, catalog), Validated(report, catalog);
    var auth := AuthErrors(Get(baseline, Name.AutomaticAuthRequired), Get(report, Name.AutomaticAuthRequired));
    Compare(b.errors + r.errors + auth, b.checks, r.checks)
  }

  // ---- the loops of the validator and the gate

  method ReadRecords(f: Found, items: seq<Json>, status: Status) returns (g: Found)
    ensures g == Records(Listing(f, {}), items, status).found
  {
    g := f;
    var seen: set<Check> := {};
    var i := 0;
    while i < |items|
      invariant 0 <= i <= |items| && Listing(g, seen) == Records(Listing(f, {}), items[..i], status)
    {
      assert items[..i + 1][..i] == items[..i];
      var c := RecordCheck(items[i]);
      if c.None? {
        g := Failed(g, MalformedCheck);
      } else if c.value in seen {
        g := Failed(g, DuplicateCheck);
      } else {
        seen := seen + {c.value};
        g := g.(checks := AddStatus(g.checks, c.value, status));
      }
      i := i + 1;
    }
    assert items[..i] == items;
  }

  method ReadBucket(f: Found, records: Json, status: Status) returns (g: Found)
    ensures g == Bucket(f, records, status)
  {
    if records.Arr? {
      g := ReadRecords(f, records.items, status);
    } else {
      g := Failed(f, NoChecks);
    }
  }

  method ReadCompactModes(f: Found, modes: seq<string>, selected: Fields, catalog: Catalog) returns (g: Found)
    ensures g == CompactModes(f, modes, selected, catalog)
  {
    g := f;
    var i := 0;
    while i < |modes|
      invariant 0 <= i <= |modes| && g == CompactModes(f, modes[..i], selected, catalog)
    {
      assert modes[..i + 1][..i] == modes[..i];
      g := CompactMode(g, modes[i], selected, catalog);
      i := i + 1;
    }
    assert modes[..i] == modes;
  }

  method ReadCompact(f: Found, report: Report, catalog: Catalog) returns (g: Found)
    ensures g == CompactBody(f, report, catalog)
  {
    g := f;
    if Get(report, Name.BaselineKind) != Str(KIND) {
      return Failed(g, WrongKind);
    }
    g := FailIf(g, Get(report, Name.RequiredModes) != Arr(Strings(MODES)), WrongModes);
    g := FailIf(g, !BothTransports(Get(report, Name.Transports)), WrongTransports);
    var raw := Get(report, Name.Checks);
    if !raw.Obj? {
      return Failed(g, NoChecks);
    }
    g := ReadBucket(g, Get(raw.fields, Name.Passing), Pass);
    g := ReadBucket(g, Get(raw.fields, Name.Failing), Fail);
    g := ReadCompactModes(g, MODES, Selected(report), catalog);
  }

  method ReadCases(t: CaseTable, items: seq<Json>) returns (u: CaseTable)
    ensures u == CasesOf(t, items)
  {
    u := t;
    var i := 0;
    while i < |items|
      invariant 0 <= i <= |items| && u == CasesOf(t, items[..i])
    {
      assert items[..i + 1][..i] == items[..i];
      u := AddCase(u, items[i]);
      i := i + 1;
    }
    assert items[..i] == items;
  }

  method ReadCaseChecks(f: Found, items: seq<Json>, mode: string, transport: string) returns (g: Found, observed: set<string>)
    ensures g == CaseChecks(f, items, mode, transport) && observed == Observed(items, mode, transport)
  {
    g, observed := f, {};
    var i := 0;
    while i < |items|
      invariant 0 <= i <= |items|
      invariant g == CaseChecks(f, items[..i], mode, transport) && observed == Observed(items[..i], mode, transport)
    {
      assert items[..i + 1][..i] == items[..i];
      var check := CheckOf(items[i], mode, transport);
      if check.None? {
        g := Failed(g, MalformedCheck);
      } else {
        g := g.(checks := AddStatus(g.checks, check.value.0, check.value.1));
        if check.value.0.source != "supplemental" {
          observed := observed + {check.value.0.scenario};
        }
      }
      i := i + 1;
    }
    assert items[..i] == items;
  }

  method ReadCase(f: Found, cases: map<CaseKey, Fields>, mode: string, transport: string, catalog: Catalog) returns (g: Found)
    ensures g == FullCase(f, cases, mode, transport, catalog)
  {
    if CaseKey(mode, transport) !in cases {
      return Failed(f, MissingCase(mode, transport));
    }
    var checks := Get(cases[CaseKey(mode, transport)], Name.Checks);
    if !checks.Arr? || checks.items == [] {
      return Failed(f, NoChecks);
    }
    var observed;
    g, observed := ReadCaseChecks(f, checks.items, mode, transport);
    if transport == HTTP {
      g := ScenarioErrors(g, mode, observed, catalog);
    }
  }

  method ReadModes(f: Found, cases: map<CaseKey, Fields>, selected: Fields, catalog: Catalog) returns (g: Found)
    ensures g == FullModes(f, MODES, cases, selected, catalog)
  {
    g := f;
    var i := 0;
    while i < |MODES|
      invariant 0 <= i <= |MODES| && g == FullModes(f, MODES[..i], cases, selected, catalog)
    {
      assert MODES[..i + 1][..i] == MODES[..i];
      g := FailIf(g, !CatalogAgrees(selected, MODES[i], catalog), WrongCatalog(MODES[i]));
      g := ReadCase(g, cases, MODES[i], STDIO, catalog);
      g := ReadCase(g, cases, MODES[i], HTTP, catalog);
      i := i + 1;
    }
    assert MODES[..i] == MODES;
  }

  method RequiredRegressionChecks(report: Report, catalog: Catalog) returns (errors: seq<Error>, checks: Checks)
    ensures errors == Validated(report, catalog).errors && checks == Validated(report, catalog).checks
  {
    var f := Header(report);
    if IsCompact(report) {
      f := ReadCompact(f, report, catalog);
    } else {
      var items := Get(report, Name.Cases);
      var table := CaseTable(f.errors, map[]);
      if items.Arr? {
        table := ReadCases(table, items.items);
      } else {
        table := table.(errors := table.errors + [NoCases]);
      }
      f := ReadModes(Found(table.errors, f.checks), table.cases, Selected(report), catalog);
    }
    errors, checks := f.errors, f.checks;
  }

  /** The loop over the candidate's checks. */
  method SortFailures(cs: seq<Check>, baseline: Checks, candidate: Checks, v: Verdict)
    returns (known: seq<Check>, regressed: seq<Check>, shipping: bool)
    requires v == Compare(v.errors, baseline, candidate) && forall c | c in cs :: c in candidate
    ensures known == Select(cs, v.known) && regressed == Select(cs, v.regressed)
    ensures shipping <==> exists c | c in cs :: c.mode == SHIPPING && Fail in candidate[c]
  {
    known, regressed, shipping := [], [], false;
    var i := 0;
    while i < |cs|
      invariant 0 <= i <= |cs|
      invariant known == Select(cs[..i], v.known) && regressed == Select(cs[..i], v.regressed)
      invariant shipping <==> exists c | c in cs[..i] :: c in candidate && c.mode == SHIPPING && Fail in candidate[c]
    {
      var c := cs[i];
      assert c in cs && cs[..i + 1] == cs[..i] + [c] && cs[..i + 1][..i] == cs[..i];
      if Fail in candidate[c] {
        shipping := shipping || c.mode == SHIPPING;
        if Has(baseline, c, Fail) {
          known := known + [c];
        } else {
          regressed := regressed + [c];
        }
      }
      i := i + 1;
    }
    assert cs[..i] == cs;
  }

  /** The loop over the baseline's checks. */
  method SortBaseline(cs: seq<Check>, baseline: Checks, candidate: Checks, v: Verdict)
    returns (missing: seq<Check>, fixed: seq<Check>, shipping: bool)
    requires v == Compare(v.errors, baseline, candidate) && forall c | c in cs :: c in baseline
    ensures missing == Select(cs, v.missing) && fixed == Select(cs, v.fixed)
    ensures shipping <==> exists c | c in cs :: c.mode == SHIPPING && Fail in baseline[c]
  {
    missing, fixed, shipping := [], [], false;
    var i := 0;
    while i < |cs|
      invariant 0 <= i <= |cs|
      invariant missing == Select(cs[..i], v.missing) && fixed == Select(cs[..i], v.fixed)
      invariant shipping <==> exists c | c in cs[..i] :: c in baseline && c.mode == SHIPPING && Fail in baseline[c]
    {
      var c := cs[i];
      assert c in cs && cs[..i + 1] == cs[..i] + [c] && cs[..i + 1][..i] == cs[..i];
      shipping := shipping || (c.mode == SHIPPING && Fail in baseline[c]);
      if Pass in baseline[c] && !Has(candidate, c, Pass) {
        missing := missing + [c];
      } else if Fail in baseline[c] && !Has(candidate, c, Fail) && !Has(candidate, c, Pass) {
        missing := missing + [c];
      } else if Fail in baseline[c] && !Has(candidate, c, Fail) {
        fixed := fixed + [c];
      }
      i := i + 1;
    }
    assert cs[..i] == cs;
  }

  lemma ShippingEmpty(errors: seq<Error>, b: Checks, r: Checks)
    ensures Compare(errors, b, r).shipping == {} <==>
            (forall c | c in b && c.mode == SHIPPING :: Fail !in b[c]) && (forall c | c in r && c.mode == SHIPPING :: Fail !in r[c])
  {
    var v := Compare(errors, b, r);
    assert forall c | c in r && c.mode == SHIPPING && Fail in r[c] :: ShippingFailure(c) in v.shipping;
    assert forall c | c in b && c.mode == SHIPPING && Fail in b[c] :: ShippingBaselineFailure(c) in v.shipping;
  }

  /** The comparison loops: each list in the order of the checks it runs over. */
  method CompareChecks(errors: seq<Error>, b: Checks, r: Checks)
    returns (success: bool, known: seq<Check>, regressed: seq<Check>, missing: seq<Check>, fixed: seq<Check>)
    ensures var v := Compare(errors, b, r);
            && success == Passes(v)
            && known == Select(SortChecks(r.Keys), v.known) && regressed == Select(SortChecks(r.Keys), v.regressed)
            && missing == Select(SortChecks(b.Keys), v.missing) && fixed == Select(SortChecks(b.Keys), v.fixed)
  {
    var v := Compare(errors, b, r);
    var s1, s2;
    known, regressed, s1 := SortFailures(SortChecks(r.Keys), b, r, v);
    missing, fixed, s2 := SortBaseline(SortChecks(b.Keys), b, r, v);
    success := errors == [] && !s1 && !s2 && regressed == [] && missing == [];
    SelectEmpty(SortChecks(r.Keys), v.regressed);
    SelectEmpty(SortChecks(b.Keys), v.missing);
    ShippingEmpty(errors, b, r);
  }

  /** The gate returns the verdict, each list in the order of the checks it runs over. */
  method EvaluateGate(report: Report, baseline: Report, catalog: Catalog)
    returns (success: bool, known: seq<Check>, regressed: seq<Check>, missing: seq<Check>, fixed: seq<Check>)
    ensures var v := Gate(report, baseline, catalog);
            var candidates := SortChecks(Validated(report, catalog).checks.Keys);
            var baselines := SortChecks(Validated(baseline, catalog).checks.Keys);
            && success == Passes(v)
            && known == Select(candidates, v.known) && regressed == Select(candidates, v.regressed)
            && missing == Select(baselines, v.missing) && fixed == Select(baselines, v.fixed)
  {
    var e1, b := RequiredRegressionChecks(baseline, catalog);
    var e2, r := RequiredRegressionChecks(report, catalog);
    var auth := AuthErrors(Get(baseline, Name.AutomaticAuthRequired), Get(report, Name.AutomaticAuthRequired));
    success, known, regressed, missing, fixed := CompareChecks(e1 + e2 + auth, b, r);
  }
}
