/** The reviewer gate is a preorder, and compaction does not change its verdict. */
module ReviewGateProofs {
  import opened Json
  import opened Text
  import opened Sets
  import opened Keys
  import opened ReviewGate

  predicate Valid(report: Report, required: set<Case>) {
    Validated(report, required).errors == []
  }

  /** A valid report passes against itself. */
  lemma GateReflexive(report: Report, required: set<Case>)
    ensures Passes(Gate(report, report, required)) <==> Valid(report, required)
  {
    var f := Validated(report, required);
    assert f.errors + f.errors == [] <==> f.errors == [];
  }

  lemma SuccessMeans(report: Report, baseline: Report, required: set<Case>)
    ensures Passes(Gate(report, baseline, required)) <==>
            && Valid(report, required) && Valid(baseline, required)
            && var b, r := Validated(baseline, required).checks, Validated(report, required).checks;
               && (forall c | c in r && !r[c] :: c in b && !b[c])
               && (forall c | c in b :: c in r)
  {
    var b, r := Validated(baseline, required), Validated(report, required);
    var v := Gate(report, baseline, required);
    assert b.errors + r.errors == [] <==> b.errors == [] && r.errors == [];
    assert v.regressed == {} <==> forall c | c in r.checks && !r.checks[c] :: c in b.checks && !b.checks[c] by {
      assert forall c | c in r.checks && !r.checks[c] && !(c in b.checks && !b.checks[c]) :: c in v.regressed;
    }
    assert v.missing == {} <==> forall c | c in b.checks :: c in r.checks by {
      assert forall c | c in b.checks && c !in r.checks :: c in v.missing;
    }
  }

  /** Passing against a baseline that passes against an older one is passing against the older one. */
  lemma GateTransitive(a: Report, b: Report, c: Report, required: set<Case>)
    requires Passes(Gate(b, a, required)) && Passes(Gate(c, b, required))
    ensures Passes(Gate(c, a, required))
  {
    SuccessMeans(b, a, required);
    SuccessMeans(c, b, required);
    SuccessMeans(c, a, required);
  }

  // ---- what validation lets through

  predicate WellFormed(checks: Checks, required: set<Case>) {
    forall c | c in checks :: StartsWith(c.id, "review/") && CaseOf(c) in required
  }

  lemma {:induction false} RecordsWellFormed(f: Found, items: seq<Json>, success: bool, required: set<Case>)
    requires WellFormed(f.checks, required)
    ensures WellFormed(Records(f, items, success, required).checks, required)
  {
    if items != [] {
      RecordsWellFormed(f, items[..|items| - 1], success, required);
    }
  }

  lemma {:induction false} CaseChecksWellFormed(f: Found, items: seq<Json>, c: Case, required: set<Case>)
    requires WellFormed(f.checks, required) && c in required
    ensures WellFormed(CaseChecks(f, items, c).checks, required)
  {
    if items != [] {
      CaseChecksWellFormed(f, items[..|items| - 1], c, required);
    }
  }

  lemma {:induction false} FullCasesWellFormed(f: Found, items: seq<Json>, required: set<Case>)
    requires WellFormed(f.checks, required)
    ensures WellFormed(FullCases(f, items, required).checks, required)
  {
    if items != [] {
      var before := FullCases(f, items[..|items| - 1], required);
      FullCasesWellFormed(f, items[..|items| - 1], required);
      var j := items[|items| - 1];
      if j.Obj? && Get(j.fields, Name.Mode).Str? && Get(j.fields, Name.Transport).Str? && Get(j.fields, Name.Checks).Arr? {
        var c := Case(Get(j.fields, Name.Mode).s, Get(j.fields, Name.Transport).s);
        if c in required {
          CaseChecksWellFormed(before.(observed := before.observed + {c}), Get(j.fields, Name.Checks).items, c, required);
        }
      }
    }
  }

  lemma {:induction false} CompactCasesKeepChecks(f: Found, items: seq<Json>)
    ensures CompactCases(f, items).checks == f.checks
  {
    if items != [] {
      CompactCasesKeepChecks(f, items[..|items| - 1]);
    }
  }

  lemma BucketWellFormed(f: Found, records: Json, success: bool, required: set<Case>)
    requires WellFormed(f.checks, required)
    ensures WellFormed(Bucket(f, records, success, required).checks, required)
  {
    if records.Arr? {
      RecordsWellFormed(f, records.items, success, required);
    }
  }

  lemma CompactBodyWellFormed(f: Found, report: Report, required: set<Case>)
    requires f.checks == map[]
    ensures WellFormed(CompactBody(f, report, required).checks, required)
  {
    var f1 := if Get(report, Name.BaselineKind) == Str(KIND) then f else Fail(f, WrongKind);
    var cases := Get(report, Name.RequiredCases);
    if cases.Arr? {
      CompactCasesKeepChecks(f1, cases.items);
    }
    var f2 := if cases.Arr? then CompactCases(f1, cases.items) else Fail(f1, NoCases);
    var checks := Get(report, Name.Checks);
    var f3 := if checks.Obj? then f2 else Fail(f2, NoChecks);
    var buckets := if checks.Obj? then checks.fields else map[];
    BucketWellFormed(f3, Get(buckets, Name.Passing), true, required);
    BucketWellFormed(Bucket(f3, Get(buckets, Name.Passing), true, required), Get(buckets, Name.Failing), false, required);
  }

  lemma ValidatedWellFormed(report: Report, required: set<Case>)
    ensures WellFormed(Validated(report, required).checks, required)
  {
    if IsCompact(report) {
      CompactBodyWellFormed(Header(report), report, required);
    } else if Get(report, Name.Cases).Arr? {
      FullCasesWellFormed(Header(report), Get(report, Name.Cases).items, required);
    }
  }

  lemma ValidMeans(report: Report, required: set<Case>)
    requires Valid(report, required)
    ensures var f := Validated(report, required);
            f.observed == required && TotalsAgree(Get(report, Name.Summary), TotalsOf(f.checks, required))
  {
    var f := Validated(report, required);
    assert required - f.observed == {} && f.observed - required == {};
    assert f.observed == required;
  }

  // ---- reading back what compaction prints

  lemma CaseReadBack(f: Found, c: Case)
    requires c !in f.observed
    ensures CompactCase(f, CaseRecord(c)) == f.(observed := f.observed + {c})
  {
  }

  lemma CaseListAppend(before: seq<Case>, last: Case)
    ensures CaseList(before + [last]) == CaseList(before) + [CaseRecord(last)]
  {
    assert (before + [last])[..|before|] == before;
  }

  function CaseSet(cs: seq<Case>): set<Case> {
    set c | c in cs
  }

  lemma CasesOneMore(seen: set<Case>, before: seq<Case>, last: Case)
    ensures seen + CaseSet(before + [last]) == seen + CaseSet(before) + {last}
  {
  }

  lemma CompactCasesLast(f: Found, before: seq<Json>, last: Json)
    ensures CompactCases(f, before + [last]) == CompactCase(CompactCases(f, before), last)
  {
    assert (before + [last])[..|before|] == before;
  }

  lemma CaseListOneMore(f: Found, g: Found, items: seq<Json>, last: Case)
    requires CompactCases(f, items) == g && last !in g.observed
    ensures CompactCases(f, items + [CaseRecord(last)]) == g.(observed := g.observed + {last})
  {
    CompactCasesLast(f, items, CaseRecord(last));
    CaseReadBack(g, last);
  }

  lemma {:induction false} CaseListReadBack(f: Found, cs: seq<Case>)
    requires forall i | 0 <= i < |cs| :: cs[i] !in f.observed
    requires forall i, j | 0 <= i < j < |cs| :: cs[i] != cs[j]
    ensures CompactCases(f, CaseList(cs)) == f.(observed := f.observed + CaseSet(cs))
  {
    if cs == [] {
      assert f.observed + CaseSet(cs) == f.observed;
    } else {
      var before, last := cs[..|cs| - 1], cs[|cs| - 1];
      assert cs == before + [last];
      CaseListReadBack(f, before);
      CaseListAppend(before, last);
      CaseListOneMore(f, f.(observed := f.observed + CaseSet(before)), CaseList(before), last);
      CasesOneMore(f.observed, before, last);
    }
  }

  function WithChecks(checks: Checks, cs: seq<Check>, success: bool): Checks {
    checks + map c | c in cs :: success
  }

  lemma WithOneMore(checks: Checks, cs: seq<Check>, success: bool)
    requires cs != []
    ensures WithChecks(checks, cs, success) == WithChecks(checks, cs[..|cs| - 1], success)[cs[|cs| - 1] := success]
  {
    assert cs == cs[..|cs| - 1] + [cs[|cs| - 1]];
  }

  predicate Printable(c: Check, required: set<Case>) {
    StartsWith(c.id, "review/") && CaseOf(c) in required
  }

  lemma CheckReadBack(f: Found, c: Check, success: bool, required: set<Case>)
    requires Printable(c, required) && c !in f.checks
    ensures AddCheck(f, RecordCheck(CheckRecord(c), required), success) == f.(checks := f.checks[c := success])
  {
  }

  lemma {:induction false} CheckListReadBack(f: Found, cs: seq<Check>, success: bool, required: set<Case>)
    requires forall i | 0 <= i < |cs| :: cs[i] !in f.checks && Printable(cs[i], required)
    requires forall i, j | 0 <= i < j < |cs| :: cs[i] != cs[j]
    ensures Records(f, CheckList(cs), success, required) == f.(checks := WithChecks(f.checks, cs, success))
  {
    if cs == [] {
      assert WithChecks(f.checks, cs, success) == f.checks;
    } else {
      var n := |cs| - 1;
      var items := CheckList(cs);
      assert items[..n] == CheckList(cs[..n]);
      CheckListReadBack(f, cs[..n], success, required);
      var g := f.(checks := WithChecks(f.checks, cs[..n], success));
      CheckReadBack(g, cs[n], success, required);
      WithOneMore(f.checks, cs, success);
    }
  }

  lemma SplitByOutcome(checks: Checks, passing: seq<Check>, failing: seq<Check>)
    requires forall c :: c in passing <==> c in PassingChecks(checks)
    requires forall c :: c in failing <==> c in checks.Keys - PassingChecks(checks)
    ensures WithChecks(WithChecks(map[], passing, true), failing, false) == checks
  {
  }

  lemma BucketsReadBack(f: Found, checks: Checks, passing: seq<Check>, failing: seq<Check>, required: set<Case>)
    requires f.checks == map[] && WellFormed(checks, required)
    requires passing == SortChecks(PassingChecks(checks)) && failing == SortChecks(checks.Keys - PassingChecks(checks))
    ensures Bucket(Bucket(f, Arr(CheckList(passing)), true, required), Arr(CheckList(failing)), false, required) == f.(checks := checks)
  {
    forall i | 0 <= i < |passing| ensures Printable(passing[i], required) {
      assert passing[i] in passing;
    }
    CheckListReadBack(f, passing, true, required);
    var g := f.(checks := WithChecks(map[], passing, true));
    forall i | 0 <= i < |failing| ensures Printable(failing[i], required) && failing[i] !in g.checks {
      assert failing[i] in failing;
    }
    CheckListReadBack(g, failing, false, required);
    SplitByOutcome(checks, passing, failing);
  }

  lemma CaseSetReadBack(required: set<Case>)
    ensures CompactCases(Found([], {}, map[]), CaseList(SortCases(required))) == Found([], required, map[])
  {
    var cs := SortCases(required);
    CaseListReadBack(Found([], {}, map[]), cs);
    assert {} + CaseSet(cs) == required;
  }

  lemma BaselineMembers(cases: Json, summary: Json, passing: Json, failing: Json, k: Report)
    requires k == Baseline(cases, summary, passing, failing)
    ensures IsCompact(k) && Header(k) == Found([], {}, map[])
    ensures Get(k, Name.BaselineKind) == Str(KIND) && Get(k, Name.Summary) == summary
    ensures Get(k, Name.RequiredCases) == cases && Get(k, Name.Checks).Obj?
    ensures var buckets := Get(k, Name.Checks).fields;
            Get(buckets, Name.Passing) == passing && Get(buckets, Name.Failing) == failing
  {
  }

  /** The members of the compact form, one by one. */
  lemma CompactMembers(checks: Checks, summary: Fields, required: set<Case>, k: Report)
    requires k == CompactReport(checks, summary, required)
    ensures IsCompact(k) && Header(k) == Found([], {}, map[])
    ensures Get(k, Name.BaselineKind) == Str(KIND) && Get(k, Name.Summary) == Totals5(summary)
    ensures Get(k, Name.RequiredCases) == Arr(CaseList(SortCases(required))) && Get(k, Name.Checks).Obj?
    ensures var buckets := Get(k, Name.Checks).fields;
            && Get(buckets, Name.Passing) == Arr(CheckList(SortChecks(PassingChecks(checks))))
            && Get(buckets, Name.Failing) == Arr(CheckList(SortChecks(checks.Keys - PassingChecks(checks))))
  {
    BaselineMembers(Arr(CaseList(SortCases(required))), Totals5(summary), Arr(CheckList(SortChecks(PassingChecks(checks)))),
                    Arr(CheckList(SortChecks(checks.Keys - PassingChecks(checks)))), k);
  }

  lemma CompactBodyReadBack(checks: Checks, summary: Fields, required: set<Case>, k: Report)
    requires WellFormed(checks, required) && k == CompactReport(checks, summary, required)
    ensures CompactBody(Header(k), k, required) == Found([], required, checks)
  {
    CompactMembers(checks, summary, required, k);
    CaseSetReadBack(required);
    BucketsReadBack(Found([], required, map[]), checks, SortChecks(PassingChecks(checks)), SortChecks(checks.Keys - PassingChecks(checks)), required);
  }

  lemma TotalsCopied(summary: Json, t: Totals)
    requires TotalsAgree(summary, t)
    ensures TotalsAgree(Totals5(summary.fields), t)
  {
  }

  lemma CompactReportValidates(checks: Checks, summary: Fields, required: set<Case>, k: Report)
    requires WellFormed(checks, required) && k == CompactReport(checks, summary, required)
    requires TotalsAgree(Obj(summary), TotalsOf(checks, required))
    ensures Validated(k, required) == Found([], required, checks)
  {
    CompactMembers(checks, summary, required, k);
    CompactBodyReadBack(checks, summary, required, k);
    TotalsCopied(Obj(summary), TotalsOf(checks, required));
  }

  /** The compact form of a valid report validates without error to the same checks. */
  lemma CompactRevalidates(report: Report, required: set<Case>)
    requires Valid(report, required)
    ensures Compacted(report, required).Some?
    ensures Validated(Compacted(report, required).value, required) == Found([], required, Validated(report, required).checks)
  {
    ValidMeans(report, required);
    ValidatedWellFormed(report, required);
    var checks := Validated(report, required).checks;
    var summary := Get(report, Name.Summary).fields;
    CompactReportValidates(checks, summary, required, CompactReport(checks, summary, required));
  }

  /** Replacing a baseline by its compact form leaves the whole verdict unchanged, for
      every candidate. */
  lemma CompactKeepsVerdict(candidate: Report, baseline: Report, required: set<Case>)
    requires Compacted(baseline, required).Some?
    ensures Gate(candidate, Compacted(baseline, required).value, required) == Gate(candidate, baseline, required)
  {
    CompactRevalidates(baseline, required);
  }

  lemma TotalsIdempotent(summary: Fields)
    ensures Totals5(Totals5(summary).fields) == Totals5(summary)
  {
  }

  /** Compacting a compact baseline gives it back. */
  lemma CompactIdempotent(report: Report, required: set<Case>)
    requires Compacted(report, required).Some?
    ensures Compacted(Compacted(report, required).value, required) == Compacted(report, required)
  {
    CompactRevalidates(report, required);
    var summary := Get(report, Name.Summary).fields;
    CompactMembers(Validated(report, required).checks, summary, required, Compacted(report, required).value);
    TotalsIdempotent(summary);
  }

  // ---- the order of the lists

  predicate InOrder(a: Check, b: Check) {
    KeyLeq(CheckKey(a), CheckKey(b)) && a != b
  }

  lemma SortedInOrder(s: set<Check>)
    ensures Ordered(SortChecks(s), InOrder)
  {
    var keys := set c | c in s :: CheckKey(c);
    CheckKeysDistinct(s, keys);
    var ks, cs := SortKeys(keys), SortChecks(s);
    forall i, j | 0 <= i < j < |cs|
      ensures InOrder(cs[i], cs[j])
    {
      assert ks[i] in ks && ks[j] in ks;
    }
  }

  /** Every list the gate returns is strictly increasing in the order of Python's tuples. */
  lemma ListsInOrder(s: set<Check>, listed: set<Check>)
    ensures Ordered(Select(SortChecks(s), listed), InOrder)
  {
    SortedInOrder(s);
    SelectInOrder(SortChecks(s), listed, InOrder);
  }
}
