/** The five-field cron parser and the next-run search.

    JavaScript's `Number` is the parameter `num`: the integer a token denotes, or
    `None` when `Number.isInteger` rejects it. Every result holds for all `num`. */
module Cron {
  import opened Text
  import opened Calendar

  datatype Result<+T> = Ok(value: T) | Err

  datatype Field = Minute | Hour | DayOfMonth | Month | DayOfWeek

  /** One comma-separated part of a field: lo, lo + step, ... up to hi. */
  datatype ProgressionRaw = Progression(lo: int, hi: int, step: int)
  type Progression = p: ProgressionRaw | p.step >= 1 witness Progression(0, 0, 1)

  datatype Spec = Spec(
    minutes: set<int>, hours: set<int>, doms: set<int>, months: set<int>, dows: set<int>,
    domRestricted: bool, dowRestricted: bool)

  const SEARCH_MINUTES := 366 * 24 * 60

  function Min(f: Field): int {
    if f.DayOfMonth? || f.Month? then 1 else 0
  }

  function Max(f: Field): int {
    match f
    case Minute => 59
    case Hour => 23
    case DayOfMonth => 31
    case Month => 12
    case DayOfWeek => 7
  }

  const MONTH_NAMES := ["jan", "feb", "mar", "apr", "may", "jun", "jul", "aug", "sep", "oct", "nov", "dec"]
  const DAY_NAMES := ["sun", "mon", "tue", "wed", "thu", "fri", "sat"]

  function Names(f: Field): seq<string> {
    match f
    case Month => MONTH_NAMES
    case DayOfWeek => DAY_NAMES
    case _ => []
  }

  function IndexOf(names: seq<string>, tok: string): Option<int> {
    if names == [] then None
    else if names[0] == tok then Some(0)
    else match IndexOf(names[1..], tok)
      case None => None
      case Some(i) => Some(i + 1)
  }

  function ResolveVal(tok: string, names: seq<string>, num: string -> Option<int>): Option<int> {
    if names != [] && |tok| == 3 && (forall c | c in tok :: 'a' <= c <= 'z') then IndexOf(names, tok)
    else num(tok)
  }

  predicate InField(p: Progression, f: Field) {
    Min(f) <= p.lo <= p.hi <= Max(f)
  }

  /** The range check and the step check of `add`. */
  function Checked(lo: Option<int>, hi: Option<int>, step: Option<int>, f: Field): (p: Option<Progression>)
    ensures p.Some? ==> InField(p.value, f)
  {
    if lo.None? || hi.None? || step.None? then None
    else if step.value < 1 || lo.value < Min(f) || hi.value > Max(f) || lo.value > hi.value then None
    else Some(Progression(lo.value, hi.value, step.value))
  }

  /** What one part of a field denotes; `None` where the parser throws. */
  function PartOf(part: string, f: Field, num: string -> Option<int>): (p: Option<Progression>)
    ensures p.Some? ==> InField(p.value, f)
  {
    var t := Lower(Trim(part));
    if t == "" then None
    else if t == "*" then Checked(Some(Min(f)), Some(Max(f)), Some(1), f)
    else if StartsWith(t, "*/") then Checked(Some(Min(f)), Some(Max(f)), num(t[2..]), f)
    else
      var pieces := Split(t, '/');
      var step := if |pieces| > 1 then num(pieces[1]) else Some(1);
      if '-' in pieces[0] then
        var ends := Split(pieces[0], '-');
        if |ends| < 2 then None
        else Checked(ResolveVal(ends[0], Names(f), num), ResolveVal(ends[1], Names(f), num), step, f)
      else
        var v := ResolveVal(pieces[0], Names(f), num);
        Checked(v, if |pieces| > 1 then Some(Max(f)) else v, step, f)
  }

  /** Day of week 7 is Sunday, 0. */
  function Stored(v: int, f: Field): int {
    if f.DayOfWeek? then v % 7 else v
  }

  predicate OnStep(p: Progression, v: int) {
    (v - p.lo) % p.step == 0
  }

  function ProgressionValues(p: Progression, f: Field): set<int> {
    set v | p.lo <= v <= p.hi && OnStep(p, v) :: Stored(v, f)
  }

  function PartsOf(field: string, f: Field, num: string -> Option<int>): (ps: seq<Option<Progression>>)
    ensures ps != []
    ensures forall i | 0 <= i < |ps| && ps[i].Some? :: InField(ps[i].value, f)
  {
    var parts := Split(field, ',');
    seq(|parts|, i requires 0 <= i < |parts| => PartOf(parts[i], f, num))
  }

  predicate AllParse(ps: seq<Option<Progression>>) {
    forall i | 0 <= i < |ps| :: ps[i].Some?
  }

  /** The values of a list of parts that all parse. */
  function UnionOf(ps: seq<Option<Progression>>, f: Field): set<int>
    requires AllParse(ps)
  {
    if ps == [] then {} else UnionOf(ps[..|ps| - 1], f) + ProgressionValues(ps[|ps| - 1].value, f)
  }

  function MonthPart(part: string, num: string -> Option<int>): Option<int> {
    var t := Lower(Trim(part));
    match IndexOf(MONTH_NAMES, t)
    case Some(i) => Some(i + 1)
    case None => num(t)
  }

  function MonthParts(field: string, num: string -> Option<int>): (ms: seq<Option<int>>)
    ensures ms != []
  {
    var parts := Split(field, ',');
    seq(|parts|, i requires 0 <= i < |parts| => MonthPart(parts[i], num))
  }

  function ListedMonths(ms: seq<Option<int>>): Result<set<int>> {
    if forall i | 0 <= i < |ms| :: ms[i].Some? then Ok(set i | 0 <= i < |ms| :: ms[i].value) else Err
  }

  /** A month list with a letter in it is read name by name and not range-checked. */
  predicate IsMonthList(field: string, f: Field) {
    f.Month? && exists i | 0 <= i < |field| :: IsLetter(field[i])
  }

  /** What a whole field denotes. */
  function FieldValues(field: string, f: Field, num: string -> Option<int>): Result<set<int>> {
    if IsMonthList(field, f) then ListedMonths(MonthParts(field, num))
    else
      var ps := PartsOf(field, f, num);
      if AllParse(ps) then Ok(UnionOf(ps, f)) else Err
  }

  /** The spec of five fields, or an error. */
  function ParsedFields(fields: seq<string>, num: string -> Option<int>): Result<Spec> {
    if |fields| != 5 then Err
    else
      var mi, h, dom := FieldValues(fields[0], Minute, num), FieldValues(fields[1], Hour, num), FieldValues(fields[2], DayOfMonth, num);
      var mon, dow := FieldValues(fields[3], Month, num), FieldValues(fields[4], DayOfWeek, num);
      if mi.Err? || h.Err? || dom.Err? || mon.Err? || dow.Err? then Err
      else Ok(Spec(mi.value, h.value, dom.value, mon.value, dow.value, fields[2] != "*", fields[4] != "*"))
  }

  function ParsedCron(expr: string, num: string -> Option<int>): Result<Spec> {
    ParsedFields(SplitSpaces(Trim(expr)), num)
  }

  predicate Matches(s: Spec, minute: int) {
    && GetMinutes(minute) in s.minutes
    && GetHours(minute) in s.hours
    && GetMonth(minute) in s.months
    && var domOk, dowOk := GetDate(minute) in s.doms, GetDay(minute) in s.dows;
       if s.domRestricted && s.dowRestricted then domOk || dowOk
       else if s.domRestricted then domOk
       else if s.dowRestricted then dowOk
       else true
  }

  /** The first whole minute after the instant `t`, where the search starts. */
  function NextMinute(t: int): int {
    t / MS_PER_MINUTE + 1
  }

  /** The first of the `n` minutes from `minute` on that `hit` accepts. */
  function FirstHit(hit: int -> bool, minute: int, n: nat): Option<int>
    decreases n
  {
    if n == 0 then None
    else if hit(minute) then Some(minute)
    else FirstHit(hit, minute + 1, n - 1)
  }

  function NextRunOf(s: Spec, from: int): Option<int> {
    FirstHit(minute => Matches(s, minute), NextMinute(from), SEARCH_MINUTES)
  }

  // ---- the parser's loops

  lemma MultipleSize(step: int, k: int)
    requires step >= 1
    ensures k >= 1 ==> step * k >= step
    ensures k <= 0 ==> step * k <= 0
  {
  }

  lemma Distribute(a: int, b: int, c: int)
    ensures a * (b - c) == a * b - a * c
  {
  }

  lemma BetweenMultiples(step: int, q: int, r: int, d: int)
    requires 0 < d < step
    ensures step * q + d != step * r
  {
    Distribute(step, r, q);
    MultipleSize(step, r - q);
  }

  lemma ResidueGap(a: int, d: int, step: int)
    requires 0 < d < step && a % step == 0
    ensures (a + d) % step != 0
  {
    BetweenMultiples(step, a / step, (a + d) / step, d);
  }

  lemma ResidueStep(a: int, step: int)
    requires step >= 1 && a % step == 0
    ensures (a + step) % step == 0
  {
    var q := a / step;
    var r := (a + step) % step;
    Distribute(step, q, -1);
    assert a + step == step * (q + 1);
    if 0 < r {
      BetweenMultiples(step, (a + step) / step, q + 1, r);
    }
  }

  lemma NextOnStep(p: Progression, v: int)
    requires OnStep(p, v)
    ensures OnStep(p, v + p.step)
    ensures forall u {:trigger OnStep(p, u)} | v < u < v + p.step :: !OnStep(p, u)
  {
    ResidueStep(v - p.lo, p.step);
    assert v + p.step - p.lo == v - p.lo + p.step;
    forall u {:trigger OnStep(p, u)} | v < u < v + p.step ensures !OnStep(p, u) {
      ResidueGap(v - p.lo, u - v, p.step);
      assert u - p.lo == v - p.lo + (u - v);
    }
  }

  method Add(values: set<int>, p: Progression, f: Field) returns (r: set<int>)
    ensures r == values + ProgressionValues(p, f)
  {
    r := values;
    var v := p.lo;
    while v <= p.hi
      invariant p.lo <= v && OnStep(p, v)
      invariant r == values + (set u | p.lo <= u <= p.hi && u < v && OnStep(p, u) :: Stored(u, f))
      decreases p.hi - v
    {
      NextOnStep(p, v);
      r := r + {Stored(v, f)};
      v := v + p.step;
    }
  }

  /** The loop over the parts of a field; the first bad part ends it. */
  method CollectParts(ps: seq<Option<Progression>>, f: Field) returns (r: Result<set<int>>)
    requires ps != [] && forall i | 0 <= i < |ps| && ps[i].Some? :: InField(ps[i].value, f)
    ensures r == if AllParse(ps) then Ok(UnionOf(ps, f)) else Err
  {
    var values: set<int> := {};
    var i := 0;
    while i < |ps|
      invariant 0 <= i <= |ps|
      invariant AllParse(ps[..i])
      invariant values == UnionOf(ps[..i], f)
    {
      var p := ps[i];
      if p.None? {
        return Err;
      }
      assert ps[..i + 1][..i] == ps[..i];
      values := Add(values, p.value, f);
      i := i + 1;
    }
    assert ps[..i] == ps;
    UnionMembers(ps, f);
    ProgressionNonempty(ps[0].value, f);
    assert Stored(ps[0].value.lo, f) in values;
    r := if values == {} then Err else Ok(values);
  }

  method ParseField(field: string, f: Field, num: string -> Option<int>) returns (r: Result<set<int>>)
    ensures var ps := PartsOf(field, f, num); r == if AllParse(ps) then Ok(UnionOf(ps, f)) else Err
  {
    var ps := PartsOf(field, f, num);
    r := CollectParts(ps, f);
  }

  method CollectMonths(ms: seq<Option<int>>) returns (r: Result<set<int>>)
    ensures r == ListedMonths(ms)
  {
    var values: set<int> := {};
    var i := 0;
    while i < |ms|
      invariant 0 <= i <= |ms|
      invariant forall j | 0 <= j < i :: ms[j].Some?
      invariant values == set j | 0 <= j < i :: ms[j].value
    {
      if ms[i].None? {
        return Err;
      }
      values := values + {ms[i].value};
      i := i + 1;
    }
    r := Ok(values);
  }

  method ParseFieldSafe(field: string, f: Field, num: string -> Option<int>) returns (r: Result<set<int>>)
    ensures r == FieldValues(field, f, num)
  {
    if IsMonthList(field, f) {
      var ms := MonthParts(field, num);
      r := CollectMonths(ms);
    } else {
      r := ParseField(field, f, num);
    }
  }

  method ParseCron(expr: string, num: string -> Option<int>) returns (r: Result<Spec>)
    ensures r == ParsedCron(expr, num)
  {
    var fields := SplitSpaces(Trim(expr));
    if |fields| != 5 {
      return Err;
    }
    var doms := ParseFieldSafe(fields[2], DayOfMonth, num);
    var dows := ParseFieldSafe(fields[4], DayOfWeek, num);
    var minutes := ParseFieldSafe(fields[0], Minute, num);
    var hours := ParseFieldSafe(fields[1], Hour, num);
    var months := ParseFieldSafe(fields[3], Month, num);
    if doms.Err? || dows.Err? || minutes.Err? || hours.Err? || months.Err? {
      return Err;
    }
    r := Ok(Spec(minutes.value, hours.value, doms.value, months.value, dows.value, fields[2] != "*", fields[4] != "*"));
  }

  // ---- what every accepted expression satisfies

  lemma ProgressionNonempty(p: Progression, f: Field)
    requires InField(p, f)
    ensures Stored(p.lo, f) in ProgressionValues(p, f)
  {
    assert OnStep(p, p.lo);
  }

  /** A field holds exactly the values some part of it denotes. */
  lemma {:induction false} UnionMembers(ps: seq<Option<Progression>>, f: Field)
    requires AllParse(ps)
    ensures forall v :: v in UnionOf(ps, f) <==> exists i | 0 <= i < |ps| :: v in ProgressionValues(ps[i].value, f)
  {
    if ps != [] {
      UnionMembers(ps[..|ps| - 1], f);
    }
  }

  predicate Within(s: set<int>, lo: int, hi: int) {
    s != {} && forall v | v in s :: lo <= v <= hi
  }

  /** Every field but a month list is non-empty and in range, with 7 folded into Sunday. */
  lemma FieldInRange(field: string, f: Field, num: string -> Option<int>)
    requires !IsMonthList(field, f) && FieldValues(field, f, num).Ok?
    ensures Within(FieldValues(field, f, num).value, Min(f), if f.DayOfWeek? then 6 else Max(f))
  {
    var ps := PartsOf(field, f, num);
    UnionMembers(ps, f);
    ProgressionNonempty(ps[0].value, f);
    assert Stored(ps[0].value.lo, f) in UnionOf(ps, f);
  }

  predicate ValidSpec(s: Spec) {
    && Within(s.minutes, 0, 59) && Within(s.hours, 0, 23)
    && Within(s.doms, 1, 31) && Within(s.dows, 0, 6) && s.months != {}
  }

  lemma MonthsNonempty(field: string, num: string -> Option<int>)
    requires FieldValues(field, Month, num).Ok?
    ensures FieldValues(field, Month, num).value != {}
  {
    if IsMonthList(field, Month) {
      assert MonthParts(field, num)[0].value in FieldValues(field, Month, num).value;
    } else {
      FieldInRange(field, Month, num);
    }
  }

  lemma FieldsValid(fields: seq<string>, num: string -> Option<int>)
    requires ParsedFields(fields, num).Ok?
    ensures |fields| == 5 && ValidSpec(ParsedFields(fields, num).value)
    ensures !IsMonthList(fields[3], Month) ==> Within(ParsedFields(fields, num).value.months, 1, 12)
  {
    FieldInRange(fields[0], Minute, num);
    FieldInRange(fields[1], Hour, num);
    FieldInRange(fields[2], DayOfMonth, num);
    MonthsNonempty(fields[3], num);
    if !IsMonthList(fields[3], Month) {
      FieldInRange(fields[3], Month, num);
    }
    FieldInRange(fields[4], DayOfWeek, num);
  }

  /** Every accepted expression has non-empty, in-range fields; only the months of a list
      with a letter in it may be out of range. */
  lemma ParsedIsValid(expr: string, num: string -> Option<int>)
    requires ParsedCron(expr, num).Ok?
    ensures ValidSpec(ParsedCron(expr, num).value) && |SplitSpaces(Trim(expr))| == 5
    ensures !IsMonthList(SplitSpaces(Trim(expr))[3], Month) ==> Within(ParsedCron(expr, num).value.months, 1, 12)
  {
    FieldsValid(SplitSpaces(Trim(expr)), num);
  }

  // ---- the search

  /** The minutes the search looks at. */
  predicate InWindow(from: int, minute: int) {
    from < minute * MS_PER_MINUTE && minute < NextMinute(from) + SEARCH_MINUTES
  }

  lemma {:induction false} FirstHitIsFirst(hit: int -> bool, minute: int, n: nat)
    ensures FirstHit(hit, minute, n).Some? ==>
              var m := FirstHit(hit, minute, n).value;
              minute <= m < minute + n && hit(m) && forall u | minute <= u < m :: !hit(u)
    ensures FirstHit(hit, minute, n).None? ==> forall u | minute <= u < minute + n :: !hit(u)
    decreases n
  {
    if n > 0 && !hit(minute) {
      FirstHitIsFirst(hit, minute + 1, n - 1);
    }
  }

  /** The search loop of `nextRun`. */
  method Search(hit: int -> bool, first: int, n: nat) returns (r: Option<int>)
    ensures r == FirstHit(hit, first, n)
  {
    var minute := first;
    var i := 0;
    while i < n
      invariant 0 <= i <= n
      invariant minute == first + i
      invariant FirstHit(hit, first, n) == FirstHit(hit, minute, n - i)
    {
      if hit(minute) {
        return Some(minute);
      }
      minute := minute + 1;
      i := i + 1;
    }
    r := None;
  }

  /** `nextRun` is the least matching minute strictly after `from`; it fails exactly
      when the window holds no match. */
  lemma NextRunIsLeast(s: Spec, from: int)
    ensures NextRunOf(s, from).Some? ==>
              var m := NextRunOf(s, from).value;
              InWindow(from, m) && Matches(s, m) && forall u | from < u * MS_PER_MINUTE && u < m :: !Matches(s, u)
    ensures NextRunOf(s, from).None? <==> forall u | InWindow(from, u) :: !Matches(s, u)
  {
    var hit := minute => Matches(s, minute);
    FirstHitIsFirst(hit, NextMinute(from), SEARCH_MINUTES);
    forall u ensures hit(u) == Matches(s, u) {
    }
  }

  /** `nextRun`: the number of the minute it returns, or an error where it throws. */
  method NextRun(expr: string, from: int, num: string -> Option<int>) returns (r: Result<int>)
    ensures r.Ok? ==> ParsedCron(expr, num).Ok?
    ensures r.Ok? ==> var s := ParsedCron(expr, num).value;
                      && InWindow(from, r.value) && Matches(s, r.value)
                      && forall u | from < u * MS_PER_MINUTE && u < r.value :: !Matches(s, u)
    ensures r.Err? <==> ParsedCron(expr, num).Err? || forall u | InWindow(from, u) :: !Matches(ParsedCron(expr, num).value, u)
    ensures ParsedCron(expr, num).Ok? ==>
              NextRunOf(ParsedCron(expr, num).value, from) == if r.Ok? then Some(r.value) else None
  {
    var parsed := ParseCron(expr, num);
    if parsed.Err? {
      return Err;
    }
    var s := parsed.value;
    NextRunIsLeast(s, from);
    var found := Search(minute => Matches(s, minute), NextMinute(from), SEARCH_MINUTES);
    r := if found.Some? then Ok(found.value) else Err;
  }
}
