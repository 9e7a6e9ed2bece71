/** The reviewer regression gate: a report is validated into a map from check identity to
    success, compacted into a baseline, and compared with a baseline.

    The set of required (mode, transport) cases is the parameter `required`. */
module ReviewGate {
  import opened Json
  import opened Keys
  import opened Sets
  import opened Text

  const SCHEMA := 1
  const KIND := "mcp-review-regression-baseline-v1"
  const REVIEWER := "codex-mcp-regression-suite"
  const MODES := ["2025-06-18", "2025-11-25", "2026-07-28"]

  datatype Case = Case(mode: string, transport: string)
  datatype Check = Check(mode: string, transport: string, id: string)
  type Checks = map<Check, bool>

  datatype Error =
    | WrongSchema | WrongReviewer | WrongModes | WrongKind | NoCases
    | MalformedCase | UnexpectedCase | DuplicateCase | NoChecks | MalformedCheck | DuplicateCheck
    | InconsistentCase | MissingCases(cases: set<Case>) | ExtraCases(cases: set<Case>)
    | InconsistentTotals | InconsistentSuccess

  /** What validation has found so far. */
  datatype Found = Found(errors: seq<Error>, observed: set<Case>, checks: Checks)

  function Fail(f: Found, e: Error): Found {
    f.(errors := f.errors + [e])
  }

  function CaseOf(c: Check): Case {
    Case(c.mode, c.transport)
  }

  // ---- a compact baseline

  function CompactCase(f: Found, j: Json): Found {
    if !j.Obj? || !Get(j.fields, Name.Mode).Str? || !Get(j.fields, Name.Transport).Str? then Fail(f, MalformedCase)
    else
      var c := Case(Get(j.fields, Name.Mode).s, Get(j.fields, Name.Transport).s);
      if c in f.observed then Fail(f, DuplicateCase) else f.(observed := f.observed + {c})
  }

  function CompactCases(f: Found, items: seq<Json>): Found {
    if items == [] then f else CompactCase(CompactCases(f, items[..|items| - 1]), items[|items| - 1])
  }

  /** The identity a compact record names, if it is well formed. */
  function RecordCheck(j: Json, required: set<Case>): Option<Check> {
    if !j.Obj? || !Get(j.fields, Name.Mode).Str? || !Get(j.fields, Name.Transport).Str? || !Get(j.fields, Name.CheckId).Str? then None
    else
      var c := Check(Get(j.fields, Name.Mode).s, Get(j.fields, Name.Transport).s, Get(j.fields, Name.CheckId).s);
      if StartsWith(c.id, "review/") && CaseOf(c) in required then Some(c) else None
  }

  function AddCheck(f: Found, c: Option<Check>, success: bool): Found {
    if c.None? then Fail(f, MalformedCheck)
    else if c.value in f.checks then Fail(f, DuplicateCheck)
    else f.(checks := f.checks[c.value := success])
  }

  function Records(f: Found, items: seq<Json>, success: bool, required: set<Case>): Found {
    if items == [] then f
    else AddCheck(Records(f, items[..|items| - 1], success, required), RecordCheck(items[|items| - 1], required), success)
  }

  function Bucket(f: Found, records: Json, success: bool, required: set<Case>): Found {
    if records.Arr? then Records(f, records.items, success, required) else Fail(f, NoChecks)
  }

  function CompactBody(f: Found, report: Report, required: set<Case>): Found {
    var f1 := if Get(report, Name.BaselineKind) == Str(KIND) then f else Fail(f, WrongKind);
    var cases := Get(report, Name.RequiredCases);
    var f2 := if cases.Arr? then CompactCases(f1, cases.items) else Fail(f1, NoCases);
    var checks := Get(report, Name.Checks);
    var f3 := if checks.Obj? then f2 else Fail(f2, NoChecks);
    var buckets := if checks.Obj? then checks.fields else map[];
    Bucket(Bucket(f3, Get(buckets, Name.Passing), true, required), Get(buckets, Name.Failing), false, required)
  }

  // ---- a full report

  /** A check of a case; `None` where it is malformed. */
  function CaseCheck(j: Json, c: Case): Option<(Check, bool)> {
    if !j.Obj? || !Get(j.fields, Name.CheckName).Str? || !Get(j.fields, Name.Success).Bool? then None
    else if !StartsWith(Get(j.fields, Name.CheckName).s, "review/") then None
    else Some((Check(c.mode, c.transport, Get(j.fields, Name.CheckName).s), Get(j.fields, Name.Success).b))
  }

  function AddCaseCheck(f: Found, check: Option<(Check, bool)>): Found {
    if check.None? then Fail(f, MalformedCheck) else AddCheck(f, Some(check.value.0), check.value.1)
  }

  function CaseChecks(f: Found, items: seq<Json>, c: Case): Found {
    if items == [] then f else AddCaseCheck(CaseChecks(f, items[..|items| - 1], c), CaseCheck(items[|items| - 1], c))
  }

  /** Whether all checks of the case that were accepted succeed. */
  predicate CaseSuccess(f: Found, items: seq<Json>, c: Case) {
    items == [] ||
    var before := items[..|items| - 1];
    var check := CaseCheck(items[|items| - 1], c);
    CaseSuccess(f, before, c) && (check.Some? && check.value.0 !in CaseChecks(f, before, c).checks ==> check.value.1)
  }

  function FullCase(f: Found, j: Json, required: set<Case>): Found {
    if !j.Obj? then Fail(f, MalformedCase)
    else if !Get(j.fields, Name.Mode).Str? || !Get(j.fields, Name.Transport).Str? then Fail(f, UnexpectedCase)
    else
      var c := Case(Get(j.fields, Name.Mode).s, Get(j.fields, Name.Transport).s);
      if c !in required then Fail(f, UnexpectedCase)
      else if c in f.observed then Fail(f, DuplicateCase)
      else
        var f1 := f.(observed := f.observed + {c});
        var checks := Get(j.fields, Name.Checks);
        if !checks.Arr? || checks.items == [] then Fail(f1, NoChecks)
        else
          var f2 := CaseChecks(f1, checks.items, c);
          if Get(j.fields, Name.Success) == Bool(CaseSuccess(f1, checks.items, c)) then f2 else Fail(f2, InconsistentCase)
  }

  function FullCases(f: Found, items: seq<Json>, required: set<Case>): Found {
    if items == [] then f else FullCase(FullCases(f, items[..|items| - 1], required), items[|items| - 1], required)
  }

  function FullBody(f: Found, report: Report, required: set<Case>): Found {
    var cases := Get(report, Name.Cases);
    if cases.Arr? then FullCases(f, cases.items, required) else Fail(f, NoCases)
  }

  // ---- totals

  function PassingChecks(checks: Checks): set<Check> {
    set c | c in checks && checks[c]
  }

  predicate CasePasses(checks: Checks, c: Case) {
    && (forall x | x in checks && CaseOf(x) == c :: checks[x])
    && (exists x | x in checks :: CaseOf(x) == c)
  }

  datatype Totals = Totals(passed: int, failed: int, total: int, casesPassed: int, casesTotal: int)

  function TotalsOf(checks: Checks, observed: set<Case>): Totals {
    var passed := |PassingChecks(checks)|;
    Totals(passed, |checks| - passed, |checks|, |set c | c in observed && CasePasses(checks, c)|, |observed|)
  }

  predicate TotalsAgree(summary: Json, t: Totals) {
    && summary.Obj?
    && EqInt(Get(summary.fields, Name.Passed), t.passed)
    && EqInt(Get(summary.fields, Name.Failed), t.failed)
    && EqInt(Get(summary.fields, Name.Total), t.total)
    && EqInt(Get(summary.fields, Name.CasesPassed), t.casesPassed)
    && EqInt(Get(summary.fields, Name.CasesTotal), t.casesTotal)
  }

  function Header(report: Report): Found {
    var modes := Get(report, if IsCompact(report) then Name.RequiredModes else Name.Modes);
    Found((if EqInt(Get(report, Name.SchemaVersion), SCHEMA) then [] else [WrongSchema]) +
          (if Get(report, Name.Reviewer) == Str(REVIEWER) then [] else [WrongReviewer]) +
          (if modes == Arr(Strings(MODES)) then [] else [WrongModes]),
          {}, map[])
  }

  predicate IsCompact(report: Report) {
    Get(report, Name.BaselineKind) != Null
  }

  function Footer(f: Found, report: Report, required: set<Case>): Found {
    var t := TotalsOf(f.checks, f.observed);
    f.(errors := f.errors +
         (if required - f.observed == {} then [] else [MissingCases(required - f.observed)]) +
         (if f.observed - required == {} then [] else [ExtraCases(f.observed - required)]) +
         (if TotalsAgree(Get(report, Name.Summary), t) then [] else [InconsistentTotals]) +
         (if IsCompact(report) || Get(report, Name.Success) == Bool(f.observed != {} && t.failed == 0) then [] else [InconsistentSuccess]))
  }

  /** The whole validation of one report. */
  function Validated(report: Report, required: set<Case>): Found {
    var f := Header(report);
    Footer(if IsCompact(report) then CompactBody(f, report, required) else FullBody(f, report, required), report, required)
  }

  // ---- the compact form

  function CheckKey(c: Check): Key {
    [c.mode, c.transport, c.id]
  }

  function CaseKey(c: Case): Key {
    [c.mode, c.transport]
  }

  function KeyCheck(k: Key): Check
    requires |k| == 3
  {
    Check(k[0], k[1], k[2])
  }

  lemma CheckKeysDistinct(s: set<Check>, keys: set<Key>)
    requires keys == set c | c in s :: CheckKey(c)
    ensures forall k | k in keys :: |k| == 3 && KeyCheck(k) in s && CheckKey(KeyCheck(k)) == k
    ensures forall c | c in s :: CheckKey(c) in keys && KeyCheck(CheckKey(c)) == c
  {
  }

  /** `sorted` over a set of checks. */
  function SortChecks(s: set<Check>): (cs: seq<Check>)
    ensures forall c :: c in cs <==> c in s
    ensures forall i, j | 0 <= i < j < |cs| :: cs[i] != cs[j]
  {
    var keys := set c | c in s :: CheckKey(c);
    CheckKeysDistinct(s, keys);
    ChecksOfAll(s, keys, SortKeys(keys));
    ChecksOf(SortKeys(keys))
  }

  function ChecksOf(ks: seq<Key>): (cs: seq<Check>)
    requires forall k | k in ks :: |k| == 3
    ensures |cs| == |ks| && forall i | 0 <= i < |cs| :: cs[i] == KeyCheck(ks[i])
  {
    seq(|ks|, i requires 0 <= i < |ks| => KeyCheck(ks[i]))
  }

  lemma ChecksOfAll(s: set<Check>, keys: set<Key>, ks: seq<Key>)
    requires forall k | k in keys :: |k| == 3 && KeyCheck(k) in s && CheckKey(KeyCheck(k)) == k
    requires forall c | c in s :: CheckKey(c) in keys && KeyCheck(CheckKey(c)) == c
    requires (forall k :: k in ks <==> k in keys) && forall i, j | 0 <= i < j < |ks| :: ks[i] != ks[j]
    ensures forall c :: c in ChecksOf(ks) <==> c in s
    ensures forall i, j | 0 <= i < j < |ChecksOf(ks)| :: ChecksOf(ks)[i] != ChecksOf(ks)[j]
  {
    var cs := ChecksOf(ks);
    forall i | 0 <= i < |ks|
      ensures CheckKey(cs[i]) == ks[i] && cs[i] in s
    {
      assert ks[i] in ks;
    }
    forall c | c in s
      ensures c in cs
    {
      var i :| 0 <= i < |ks| && ks[i] == CheckKey(c);
      assert cs[i] == c;
    }
  }

  lemma CaseKeysDistinct(s: set<Case>, keys: set<Key>)
    requires keys == set c | c in s :: CaseKey(c)
    ensures forall k | k in keys :: |k| == 2 && Case(k[0], k[1]) in s
    ensures forall c | c in s :: CaseKey(c) in keys
  {
  }

  /** `sorted` over a set of cases. */
  function SortCases(s: set<Case>): (cs: seq<Case>)
    ensures forall c :: c in cs <==> c in s
    ensures forall i, j | 0 <= i < j < |cs| :: cs[i] != cs[j]
  {
    var keys := set c | c in s :: CaseKey(c);
    CaseKeysDistinct(s, keys);
    CasesOf(SortKeys(keys))
  }

  function CasesOf(ks: seq<Key>): (cs: seq<Case>)
    requires forall k | k in ks :: |k| == 2
    requires forall i, j | 0 <= i < j < |ks| :: ks[i] != ks[j]
    ensures forall c :: c in cs <==> CaseKey(c) in ks
    ensures forall i, j | 0 <= i < j < |cs| :: cs[i] != cs[j]
  {
    if ks == [] then []
    else
      var rest := CasesOf(ks[1..]);
      assert ks == [ks[0]] + ks[1..];
      assert CaseKey(Case(ks[0][0], ks[0][1])) == ks[0];
      [Case(ks[0][0], ks[0][1])] + rest
  }

  function CheckRecord(c: Check): Json {
    Obj(map[Name.Mode := Str(c.mode), Name.Transport := Str(c.transport), Name.CheckId := Str(c.id)])
  }

  function CaseRecord(c: Case): Json {
    Obj(map[Name.Mode := Str(c.mode), Name.Transport := Str(c.transport)])
  }

  function CheckList(cs: seq<Check>): (items: seq<Json>)
    ensures |items| == |cs|
  {
    if cs == [] then [] else CheckList(cs[..|cs| - 1]) + [CheckRecord(cs[|cs| - 1])]
  }

  function CaseList(cs: seq<Case>): (items: seq<Json>)
    ensures |items| == |cs|
  {
    if cs == [] then [] else CaseList(cs[..|cs| - 1]) + [CaseRecord(cs[|cs| - 1])]
  }

  function Totals5(summary: Fields): Json {
    Obj(map[Name.Passed := Get(summary, Name.Passed), Name.Failed := Get(summary, Name.Failed), Name.Total := Get(summary, Name.Total),
            Name.CasesPassed := Get(summary, Name.CasesPassed), Name.CasesTotal := Get(summary, Name.CasesTotal)])
  }

  function Baseline(cases: Json, summary: Json, passing: Json, failing: Json): Report {
    map[Name.BaselineKind := Str(KIND), Name.SchemaVersion := Num(SCHEMA as real), Name.Reviewer := Str(REVIEWER),
        Name.RequiredModes := Arr(Strings(MODES)), Name.RequiredCases := cases, Name.Summary := summary,
        Name.Checks := Obj(map[Name.Passing := passing, Name.Failing := failing])]
  }

  function CompactReport(checks: Checks, summary: Fields, required: set<Case>): Report {
    Baseline(Arr(CaseList(SortCases(required))), Totals5(summary),
             Arr(CheckList(SortChecks(PassingChecks(checks)))),
             Arr(CheckList(SortChecks(checks.Keys - PassingChecks(checks)))))
  }

  /** The compact baseline of a report; `None` where compaction raises. */
  function Compacted(report: Report, required: set<Case>): Option<Report> {
    var f := Validated(report, required);
    var summary := Get(report, Name.Summary);
    if f.errors == [] && summary.Obj? then Some(CompactReport(f.checks, summary.fields, required)) else None
  }

  // ---- the gate

  datatype Verdict = Verdict(
    errors: seq<Error>, known: set<Check>, regressed: set<Check>, missing: set<Check>, fixed: set<Check>)

  predicate Passes(v: Verdict) {
    v.errors == [] && v.regressed == {} && v.missing == {}
  }

  /** The comparison of validated checks; each list of the gate is the sorted form of its set. */
  function Compare(errors: seq<Error>, baseline: Checks, candidate: Checks): Verdict {
    Verdict(
      errors,
      set c | c in candidate && !candidate[c] && c in baseline && !baseline[c],
      set c | c in candidate && !candidate[c] && !(c in baseline && !baseline[c]),
      set c | c in baseline && c !in candidate,
      set c | c in baseline && c in candidate && !baseline[c] && candidate[c])
  }

  function Gate(report: Report, baseline: Report, required: set<Case>): Verdict {
    var b, r := Validated(baseline, required), Validated(report, required);
    Compare(b.errors + r.errors, b.checks, r.checks)
  }

  // ---- the loops of the validator and the gate

  method ReadCompactCases(f: Found, items: seq<Json>) returns (g: Found)
    ensures g == CompactCases(f, items)
  {
    g := f;
    var i := 0;
    while i < |items|
      invariant 0 <= i <= |items| && g == CompactCases(f, items[..i])
    {
      assert items[..i + 1][..i] == items[..i];
      g := CompactCase(g, items[i]);
      i := i + 1;
    }
    assert items[..i] == items;
  }

  method ReadRecords(f: Found, items: seq<Json>, success: bool, required: set<Case>) returns (g: Found)
    ensures g == Records(f, items, success, required)
  {
    g := f;
    var i := 0;
    while i < |items|
      invariant 0 <= i <= |items| && g == Records(f, items[..i], success, required)
    {
      assert items[..i + 1][..i] == items[..i];
      g := AddCheck(g, RecordCheck(items[i], required), success);
      i := i + 1;
    }
    assert items[..i] == items;
  }

  method ReadCaseChecks(f: Found, items: seq<Json>, c: Case) returns (g: Found, success: bool)
    ensures g == CaseChecks(f, items, c) && success == CaseSuccess(f, items, c)
  {
    g, success := f, true;
    var i := 0;
    while i < |items|
      invariant 0 <= i <= |items| && g == CaseChecks(f, items[..i], c) && success == CaseSuccess(f, items[..i], c)
    {
      assert items[..i + 1][..i] == items[..i];
      var check := CaseCheck(items[i], c);
      if check.None? {
        g := Fail(g, MalformedCheck);
      } else if check.value.0 in g.checks {
        g := Fail(g, DuplicateCheck);
      } else {
        g := g.(checks := g.checks[check.value.0 := check.value.1]);
        success := success && check.value.1;
      }
      i := i + 1;
    }
    assert items[..i] == items;
  }

  method ReadFullCases(f: Found, items: seq<Json>, required: set<Case>) returns (g: Found)
    ensures g == FullCases(f, items, required)
  {
    g := f;
    var i := 0;
    while i < |items|
      invariant 0 <= i <= |items| && g == FullCases(f, items[..i], required)
    {
      assert items[..i + 1][..i] == items[..i];
      g := ReadFullCase(g, items[i], required);
      i := i + 1;
    }
    assert items[..i] == items;
  }

  method ReadFullCase(f: Found, j: Json, required: set<Case>) returns (g: Found)
    ensures g == FullCase(f, j, required)
  {
    if !j.Obj? {
      return Fail(f, MalformedCase);
    }
    var mode, transport := Get(j.fields, Name.Mode), Get(j.fields, Name.Transport);
    if !mode.Str? || !transport.Str? || Case(mode.s, transport.s) !in required {
      return Fail(f, UnexpectedCase);
    }
    var c := Case(mode.s, transport.s);
    if c in f.observed {
      return Fail(f, DuplicateCase);
    }
    g := f.(observed := f.observed + {c});
    var checks := Get(j.fields, Name.Checks);
    if !checks.Arr? || checks.items == [] {
      return Fail(g, NoChecks);
    }
    var success;
    g, success := ReadCaseChecks(g, checks.items, c);
    if Get(j.fields, Name.Success) != Bool(success) {
      g := Fail(g, InconsistentCase);
    }
  }

  method ReadBucket(f: Found, records: Json, success: bool, required: set<Case>) returns (g: Found)
    ensures g == Bucket(f, records, success, required)
  {
    if records.Arr? {
      g := ReadRecords(f, records.items, success, required);
    } else {
      g := Fail(f, NoChecks);
    }
  }

  method RequiredReviewChecks(report: Report, required: set<Case>) returns (errors: seq<Error>, checks: Checks)
    ensures errors == Validated(report, required).errors && checks == Validated(report, required).checks
  {
    var f := Header(report);
    if IsCompact(report) {
      if Get(report, Name.BaselineKind) != Str(KIND) {
        f := Fail(f, WrongKind);
      }
      var cases := Get(report, Name.RequiredCases);
      if cases.Arr? {
        f := ReadCompactCases(f, cases.items);
      } else {
        f := Fail(f, NoCases);
      }
      var raw := Get(report, Name.Checks);
      var buckets: Fields := map[];
      if raw.Obj? {
        buckets := raw.fields;
      } else {
        f := Fail(f, NoChecks);
      }
      f := ReadBucket(f, Get(buckets, Name.Passing), true, required);
      f := ReadBucket(f, Get(buckets, Name.Failing), false, required);
    } else {
      var cases := Get(report, Name.Cases);
      if cases.Arr? {
        f := ReadFullCases(f, cases.items, required);
      } else {
        f := Fail(f, NoCases);
      }
    }
    f := Footer(f, report, required);
    errors, checks := f.errors, f.checks;
  }

  /** The loop over the candidate's checks: failures known to the baseline and new ones. */
  method SortFailures(cs: seq<Check>, baseline: Checks, candidate: Checks, v: Verdict) returns (known: seq<Check>, regressed: seq<Check>)
    requires v == Compare(v.errors, baseline, candidate) && forall c | c in cs :: c in candidate
    ensures known == Select(cs, v.known) && regressed == Select(cs, v.regressed)
  {
    known, regressed := [], [];
    var i := 0;
    while i < |cs|
      invariant 0 <= i <= |cs|
      invariant known == Select(cs[..i], v.known) && regressed == Select(cs[..i], v.regressed)
    {
      var c := cs[i];
      assert c in cs && cs[..i + 1][..i] == cs[..i];
      if !candidate[c] {
        if c in baseline && !baseline[c] {
          known := known + [c];
        } else {
          regressed := regressed + [c];
        }
      }
      i := i + 1;
    }
    assert cs[..i] == cs;
  }

  /** The loop over the baseline's checks: those the candidate lacks and those it fixed. */
  method SortBaseline(cs: seq<Check>, baseline: Checks, candidate: Checks, v: Verdict) returns (missing: seq<Check>, fixed: seq<Check>)
    requires v == Compare(v.errors, baseline, candidate) && forall c | c in cs :: c in baseline
    ensures missing == Select(cs, v.missing) && fixed == Select(cs, v.fixed)
  {
    missing, fixed := [], [];
    var i := 0;
    while i < |cs|
      invariant 0 <= i <= |cs|
      invariant missing == Select(cs[..i], v.missing) && fixed == Select(cs[..i], v.fixed)
    {
      var c := cs[i];
      assert c in cs && cs[..i + 1][..i] == cs[..i];
      if c !in candidate {
        missing := missing + [c];
      } else if !baseline[c] && candidate[c] {
        fixed := fixed + [c];
      }
      i := i + 1;
    }
    assert cs[..i] == cs;
  }

  /** The gate returns the verdict, each list in the order of the checks it runs over. */
  method EvaluateGate(report: Report, baseline: Report, required: set<Case>)
    returns (success: bool, known: seq<Check>, regressed: seq<Check>, missing: seq<Check>, fixed: seq<Check>)
    ensures var v := Gate(report, baseline, required);
            var candidates := SortChecks(Validated(report, required).checks.Keys);
            var baselines := SortChecks(Validated(baseline, required).checks.Keys);
            && success == Passes(v)
            && known == Select(candidates, v.known) && regressed == Select(candidates, v.regressed)
            && missing == Select(baselines, v.missing) && fixed == Select(baselines, v.fixed)
  {
    var e1, b := RequiredReviewChecks(baseline, required);
    var e2, r := RequiredReviewChecks(report, required);
    var v := Compare(e1 + e2, b, r);
    known, regressed := SortFailures(SortChecks(r.Keys), b, r, v);
    missing, fixed := SortBaseline(SortChecks(b.Keys), b, r, v);
    success := e1 == [] && e2 == [] && regressed == [] && missing == [];
    SelectEmpty(SortChecks(r.Keys), v.regressed);
    SelectEmpty(SortChecks(b.Keys), v.missing);
  }
}
