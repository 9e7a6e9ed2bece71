/** The automation scheduler: several processes run `tick` against one store.

    A tick is a sequence of atomic steps: read the due rows, compute the next time of
    the current row, claim the row by compare-and-set on `nextRunAt`, write the
    bookkeeping, fire. Steps of different processes interleave freely with a global
    clock that never goes back, and a process may crash between any two steps. */
module Scheduler {
  import opened Text
  import opened Calendar
  import Cron

  type Id = int
  type Pid = int

  datatype Unit = Minute | Hour | Day

  datatype Schedule = ByCron(spec: Cron.Spec) | Every(interval: int, unit: Unit) | Once(delayMinutes: int)

  datatype Row = Row(
    schedule: Schedule, maxRuns: Option<int>, enabled: bool,
    completed: bool, runCount: int, lastRunAt: Option<int>, nextRunAt: Option<int>)

  /** A row as one tick read it. */
  datatype Snapshot = Snapshot(id: Id, row: Row)

  /** One claimed value of an automation's `nextRunAt`. */
  datatype Stamp = Stamp(id: Id, at: int)

  /** Where a process stands in its tick; `rest` holds the due rows it has not reached. */
  datatype Phase =
    | Idle
    | Looping(now: int, rest: seq<Snapshot>, fired: nat)
    | Claiming(now: int, cur: Snapshot, next: Option<int>, rest: seq<Snapshot>, fired: nat)
    | Recording(now: int, cur: Snapshot, next: Option<int>, rest: seq<Snapshot>, fired: nat)
    | Firing(now: int, cur: Snapshot, rest: seq<Snapshot>, fired: nat)

  /** `claims`, `records`, `fires` and `lost` are the history of the run: successful
      claims, written bookkeeping, fired runs, and runs lost to a crash before firing. */
  datatype State = State(
    clock: int, rows: map<Id, Row>, procs: map<Pid, Phase>,
    claims: seq<Stamp>, records: seq<Stamp>, fires: seq<Stamp>, lost: seq<Stamp>)

  datatype Action =
    | Advance(time: int)
    | Begin(p: Pid, now: int, due: seq<Snapshot>)
    | Compute(p: Pid)
    | Claim(p: Pid)
    | Record(p: Pid)
    | Fire(p: Pid)
    | Finish(p: Pid)
    | Crash(p: Pid)

  const MAX_RUNS_PER_TICK := 5

  // ---- schedules

  function UnitMs(u: Unit): int {
    match u
    case Minute => 60000
    case Hour => 3600000
    case Day => 86400000
  }

  predicate ValidSchedule(s: Schedule) {
    s.Every? ==> 1 <= s.interval <= 200
  }

  /** The outcome of `nextAfterRun`: it may throw, or return null or a time. */
  datatype After = Throws | Never | At(time: int)

  function NextAfterRun(s: Schedule, from: int): After {
    match s
    case Once(_) => Never
    case ByCron(spec) =>
      (match Cron.NextRunOf(spec, from)
       case None => Throws
       case Some(minute) => At(minute * MS_PER_MINUTE))
    case Every(interval, unit) => At(from + interval * UnitMs(unit))
  }

  lemma NextIsLater(s: Schedule, from: int)
    requires ValidSchedule(s) && NextAfterRun(s, from).At?
    ensures NextAfterRun(s, from).time > from
  {
    if s.ByCron? {
      Cron.NextRunIsLeast(s.spec, from);
    }
  }

  // ---- the steps

  predicate IsDue(r: Row, now: int) {
    r.enabled && !r.completed && r.nextRunAt.Some? && r.nextRunAt.value <= now
  }

  /** What `dueAutomations` returns: every due row once, earliest first. */
  predicate IsDueList(rows: map<Id, Row>, now: int, due: seq<Snapshot>) {
    && (forall d | d in due :: d.id in rows && d.row == rows[d.id] && IsDue(d.row, now))
    && (forall id | id in rows && IsDue(rows[id], now) :: Snapshot(id, rows[id]) in due)
    && (forall i, j | 0 <= i < j < |due| :: due[i].id != due[j].id)
    && (forall i, j | 0 <= i < j < |due| && due[i].row.nextRunAt.Some? && due[j].row.nextRunAt.Some? ::
          due[i].row.nextRunAt.value <= due[j].row.nextRunAt.value)
  }

  function PhaseOf(s: State, p: Pid): Phase {
    if p in s.procs then s.procs[p] else Idle
  }

  /** The snapshots a process may still claim. */
  predicate Holds(ph: Phase, d: Snapshot) {
    (!ph.Idle? && d in ph.rest) || (ph.Claiming? && d == ph.cur)
  }

  /** The bookkeeping of one claimed run (automationUpdate overwrites blindly). */
  function Recorded(r: Row, snap: Row, next: Option<int>, now: int): Row {
    var runCount := snap.runCount + 1;
    var exhausted := snap.maxRuns.Some? && runCount >= snap.maxRuns.value;
    var completed := next.None? || exhausted;
    r.(runCount := runCount, lastRunAt := Some(now), nextRunAt := if completed then None else next, completed := completed)
  }

  function StampOf(d: Snapshot): Stamp
    requires d.row.nextRunAt.Some?
  {
    Stamp(d.id, d.row.nextRunAt.value)
  }

  predicate Enabled(s: State, a: Action) {
    match a
    case Advance(time) => s.clock <= time
    case Begin(p, now, due) => PhaseOf(s, p).Idle? && now <= s.clock && IsDueList(s.rows, now, due)
    case Compute(p) => PhaseOf(s, p).Looping? && PhaseOf(s, p).rest != [] && PhaseOf(s, p).fired < MAX_RUNS_PER_TICK
    case Claim(p) => PhaseOf(s, p).Claiming? && PhaseOf(s, p).cur.row.nextRunAt.Some?
    case Record(p) => PhaseOf(s, p).Recording? && PhaseOf(s, p).cur.row.nextRunAt.Some?
    case Fire(p) => PhaseOf(s, p).Firing? && PhaseOf(s, p).cur.row.nextRunAt.Some?
    case Finish(p) => PhaseOf(s, p).Looping? && (PhaseOf(s, p).rest == [] || PhaseOf(s, p).fired >= MAX_RUNS_PER_TICK)
    case Crash(p) => !PhaseOf(s, p).Idle?
  }

  /** The head of the due list becomes the current row, unless computing its next time throws. */
  function Computed(ph: Phase, after: After): Phase
    requires ph.Looping? && ph.rest != []
  {
    match after
    case Throws => Idle
    case Never => Claiming(ph.now, ph.rest[0], None, ph.rest[1..], ph.fired)
    case At(time) => Claiming(ph.now, ph.rest[0], Some(time), ph.rest[1..], ph.fired)
  }

  predicate ClaimSucceeds(s: State, ph: Phase)
    requires ph.Claiming?
  {
    ph.cur.id in s.rows && s.rows[ph.cur.id].nextRunAt == ph.cur.row.nextRunAt
  }

  function Claimed(s: State, p: Pid, ph: Phase): State
    requires ph.Claiming? && ph.cur.row.nextRunAt.Some?
  {
    if ClaimSucceeds(s, ph) then
      s.(rows := s.rows[ph.cur.id := s.rows[ph.cur.id].(nextRunAt := ph.next)],
         procs := s.procs[p := Recording(ph.now, ph.cur, ph.next, ph.rest, ph.fired)],
         claims := s.claims + [StampOf(ph.cur)])
    else s.(procs := s.procs[p := Looping(ph.now, ph.rest, ph.fired)])
  }

  function Written(s: State, p: Pid, ph: Phase): State
    requires ph.Recording? && ph.cur.row.nextRunAt.Some?
  {
    s.(rows := if ph.cur.id in s.rows
               then s.rows[ph.cur.id := Recorded(s.rows[ph.cur.id], ph.cur.row, ph.next, ph.now)]
               else s.rows,
       procs := s.procs[p := Firing(ph.now, ph.cur, ph.rest, ph.fired)],
       records := s.records + [StampOf(ph.cur)])
  }

  function Step(s: State, a: Action): State
    requires Enabled(s, a)
  {
    match a
    case Advance(time) => s.(clock := time)
    case Begin(p, now, due) => s.(procs := s.procs[p := Looping(now, due, 0)])
    case Compute(p) =>
      var ph := PhaseOf(s, p);
      s.(procs := s.procs[p := Computed(ph, NextAfterRun(ph.rest[0].row.schedule, s.clock))])
    case Claim(p) => Claimed(s, p, PhaseOf(s, p))
    case Record(p) => Written(s, p, PhaseOf(s, p))
    case Fire(p) =>
      var ph := PhaseOf(s, p);
      s.(procs := s.procs[p := Looping(ph.now, ph.rest, ph.fired + 1)], fires := s.fires + [StampOf(ph.cur)])
    case Finish(p) => s.(procs := s.procs[p := Idle])
    case Crash(p) =>
      var ph := PhaseOf(s, p);
      s.(procs := s.procs[p := Idle],
         lost := if ph.Firing? && ph.cur.row.nextRunAt.Some? then s.lost + [StampOf(ph.cur)] else s.lost)
  }

  /** The state after a run, or `None` if some step is not enabled. */
  function Run(s: State, actions: seq<Action>): Option<State> {
    if actions == [] then Some(s)
    else
      match Run(s, actions[..|actions| - 1])
      case None => None
      case Some(t) =>
        var a := actions[|actions| - 1];
        if Enabled(t, a) then Some(Step(t, a)) else None
  }

  /** A store as `create` leaves it: positive run limit not yet reached, nothing running. */
  predicate Initial(s: State) {
    && s.procs == map[]
    && s.claims == [] && s.records == [] && s.fires == [] && s.lost == []
    && forall id | id in s.rows :: ValidRow(s.rows[id])
  }

  predicate ValidRow(r: Row) {
    && ValidSchedule(r.schedule)
    && (r.completed ==> r.nextRunAt.None?)
    && (!r.completed && r.maxRuns.Some? ==> r.runCount < r.maxRuns.value)
  }
}
