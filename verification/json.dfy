/** Decoded JSON values and the Python operations the gates apply to them. */
module Json {

  /** Member names of JSON objects: those the gates look up, and all others. */
  datatype Name =
    | BaselineKind | SchemaVersion | Reviewer | Modes | RequiredModes | RequiredCases | Cases
    | Checks | Passing | Failing | Mode | Transport | CheckId | CheckName | Success
    | Summary | Passed | Failed | Total | CasesPassed | CasesTotal
    | VersionCheck | ModernFeatureEnablement | OfficialConformance | Repository | GitRef
    | AuthenticationIncluded | Scenarios | Transports | Source | Scenario | Status
    | AutomaticAuthRequired | Other(text: string)

  datatype Json =
    | Null
    | Bool(b: bool)
    | Num(n: real)
    | Str(s: string)
    | Arr(items: seq<Json>)
    | Obj(fields: map<Name, Json>)

  type Fields = map<Name, Json>
  type Report = Fields

  /** `dict.get`: a missing key and a JSON null both give None. */
  function Get(o: Fields, key: Name): Json {
    if key in o then o[key] else Null
  }

  /** `==` against an integer, where True is 1 and False is 0. */
  predicate EqInt(j: Json, n: int) {
    match j
    case Num(x) => x == n as real
    case Bool(b) => n == if b then 1 else 0
    case _ => false
  }

  function Strings(ss: seq<string>): seq<Json> {
    seq(|ss|, i requires 0 <= i < |ss| => Str(ss[i]))
  }
}
