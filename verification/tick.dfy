/** One tick as the code runs it, tied to the step system of the scheduler. */
module Tick {
  import opened Text
  import opened Scheduler

  class Storage {
    var rows: map<Id, Row>

    constructor (rows: map<Id, Row>)
      ensures this.rows == rows
    {
      this.rows := rows;
    }

    /** Compare-and-set on `nextRunAt`; nothing equals a null time. */
    method AutomationClaim(id: Id, expected: Option<int>, next: Option<int>) returns (claimed: bool)
      modifies this
      ensures claimed <==> id in old(rows) && expected.Some? && old(rows)[id].nextRunAt == expected
      ensures rows == if claimed then old(rows)[id := old(rows)[id].(nextRunAt := next)] else old(rows)
    {
      claimed := id in rows && expected.Some? && rows[id].nextRunAt == expected;
      if claimed {
        rows := rows[id := rows[id].(nextRunAt := next)];
      }
    }

    /** An update of a row that is there, whatever it holds. */
    method AutomationUpdate(id: Id, runCount: int, lastRunAt: int, nextRunAt: Option<int>, completed: bool)
      modifies this
      ensures rows == if id in old(rows) then old(rows)[id := Updated(old(rows)[id], runCount, lastRunAt, nextRunAt, completed)]
                      else old(rows)
    {
      if id in rows {
        rows := rows[id := Updated(rows[id], runCount, lastRunAt, nextRunAt, completed)];
      }
    }
  }

  function Updated(r: Row, runCount: int, lastRunAt: int, nextRunAt: Option<int>, completed: bool): Row {
    r.(runCount := runCount, lastRunAt := Some(lastRunAt), nextRunAt := nextRunAt, completed := completed)
  }

  /** The time is read once for each row and does not go back. */
  ghost predicate Monotone(clock: nat -> int) {
    forall i: nat, j: nat | i <= j :: clock(i) <= clock(j)
  }

  /** The run so far, and the state it leads to. */
  datatype Trace = Trace(actions: seq<Action>, at: State)

  ghost predicate Follows(s: State, r: Trace) {
    Run(s, r.actions) == Some(r.at)
  }

  lemma Then(s: State, r: Trace, a: Action) returns (next: Trace)
    requires Follows(s, r) && Enabled(r.at, a)
    ensures Follows(s, next) && next == Trace(r.actions + [a], Step(r.at, a))
  {
    assert (r.actions + [a])[..|r.actions|] == r.actions;
    next := Trace(r.actions + [a], Step(r.at, a));
  }

  /** The rows from `i` on are still as they were read. */
  ghost predicate Untouched(rows: map<Id, Row>, due: seq<Snapshot>, i: nat) {
    forall j | i <= j < |due| :: due[j].id in rows && rows[due[j].id] == due[j].row
  }

  /** The clock is read and the next time computed. */
  lemma ComputeSteps(s: State, r: Trace, p: Pid, time: int, after: After) returns (u: Trace)
    requires Follows(s, r) && r.at.clock <= time
    requires PhaseOf(r.at, p).Looping? && PhaseOf(r.at, p).rest != [] && PhaseOf(r.at, p).fired < MAX_RUNS_PER_TICK
    requires after == NextAfterRun(PhaseOf(r.at, p).rest[0].row.schedule, time)
    ensures Follows(s, u) && u.at.clock == time && u.at.rows == r.at.rows && u.at.fires == r.at.fires
    ensures PhaseOf(u.at, p) == Computed(PhaseOf(r.at, p), after)
  {
    u := Then(s, r, Advance(time));
    u := Then(s, u, Compute(p));
  }

  lemma ClaimStep(s: State, r: Trace, p: Pid) returns (u: Trace)
    requires Follows(s, r) && PhaseOf(r.at, p).Claiming?
    requires var d := PhaseOf(r.at, p).cur;
             d.row.nextRunAt.Some? && d.id in r.at.rows && r.at.rows[d.id] == d.row
    ensures Follows(s, u) && u.at.clock == r.at.clock && u.at.fires == r.at.fires
    ensures var ph := PhaseOf(r.at, p);
            && u.at.rows == r.at.rows[ph.cur.id := ph.cur.row.(nextRunAt := ph.next)]
            && PhaseOf(u.at, p) == Recording(ph.now, ph.cur, ph.next, ph.rest, ph.fired)
  {
    u := Then(s, r, Claim(p));
  }

  lemma RecordStep(s: State, r: Trace, p: Pid) returns (u: Trace)
    requires Follows(s, r) && PhaseOf(r.at, p).Recording?
    requires var d := PhaseOf(r.at, p).cur; d.row.nextRunAt.Some? && d.id in r.at.rows
    ensures Follows(s, u) && u.at.clock == r.at.clock && u.at.fires == r.at.fires
    ensures var ph := PhaseOf(r.at, p);
            && u.at.rows == r.at.rows[ph.cur.id := Recorded(r.at.rows[ph.cur.id], ph.cur.row, ph.next, ph.now)]
            && PhaseOf(u.at, p) == Firing(ph.now, ph.cur, ph.rest, ph.fired)
  {
    u := Then(s, r, Record(p));
  }

  lemma FireStep(s: State, r: Trace, p: Pid) returns (u: Trace)
    requires Follows(s, r) && PhaseOf(r.at, p).Firing? && PhaseOf(r.at, p).cur.row.nextRunAt.Some?
    ensures Follows(s, u) && u.at.clock == r.at.clock && u.at.rows == r.at.rows
    ensures var ph := PhaseOf(r.at, p);
            PhaseOf(u.at, p) == Looping(ph.now, ph.rest, ph.fired + 1) && u.at.fires == r.at.fires + [StampOf(ph.cur)]
  {
    u := Then(s, r, Fire(p));
  }

  lemma WrittenTwice(rows: map<Id, Row>, id: Id, row: Row, next: Option<int>, now: int)
    requires id in rows
    ensures var claimed := row.(nextRunAt := next);
            rows[id := claimed][id := Recorded(claimed, row, next, now)] == rows[id := Recorded(row, row, next, now)]
  {
  }

  /** The claim succeeds, and the run is recorded and fired. */
  lemma CommitSteps(s: State, r: Trace, p: Pid) returns (u: Trace)
    requires Follows(s, r) && PhaseOf(r.at, p).Claiming?
    requires var d := PhaseOf(r.at, p).cur;
             d.row.nextRunAt.Some? && d.id in r.at.rows && r.at.rows[d.id] == d.row
    ensures Follows(s, u) && u.at.clock == r.at.clock
    ensures var ph := PhaseOf(r.at, p);
            && u.at.rows == r.at.rows[ph.cur.id := Recorded(ph.cur.row, ph.cur.row, ph.next, ph.now)]
            && PhaseOf(u.at, p) == Looping(ph.now, ph.rest, ph.fired + 1)
            && u.at.fires == r.at.fires + [StampOf(ph.cur)]
  {
    var ph := PhaseOf(r.at, p);
    u := ClaimStep(s, r, p);
    u := RecordStep(s, u, p);
    WrittenTwice(r.at.rows, ph.cur.id, ph.cur.row, ph.next, ph.now);
    u := FireStep(s, u, p);
  }

  ghost function Stamps(due: seq<Snapshot>, n: nat): seq<Stamp>
    requires n <= |due| && forall i | 0 <= i < |due| :: due[i].row.nextRunAt.Some?
  {
    seq(n, i requires 0 <= i < n => StampOf(due[i]))
  }

  /** Claiming and recording one row that is still as it was read. */
  method CommitRow(store: Storage, a: Snapshot, next: Option<int>, now: int)
    requires a.id in store.rows && store.rows[a.id] == a.row && a.row.nextRunAt.Some?
    modifies store
    ensures store.rows == old(store.rows)[a.id := Recorded(a.row, a.row, next, now)]
  {
    var claimed := store.AutomationClaim(a.id, a.row.nextRunAt, next);
    if claimed {
      var runCount := a.row.runCount + 1;
      var exhausted := a.row.maxRuns.Some? && runCount >= a.row.maxRuns.value;
      var completed := next.None? || exhausted;
      store.AutomationUpdate(a.id, runCount, now, if completed then None else next, completed);
    }
  }

  /** Where the loop stands after `count` rows, in the run and in the store. */
  ghost predicate AtRow(s: State, r: Trace, p: Pid, now: int, due: seq<Snapshot>, count: nat, rows: map<Id, Row>)
    requires count <= |due| && forall i | 0 <= i < |due| :: due[i].row.nextRunAt.Some?
  {
    && Follows(s, r) && r.at.rows == rows && Untouched(rows, due, count)
    && PhaseOf(r.at, p) == Looping(now, due[count..], count)
    && r.at.fires == s.fires + Stamps(due, count)
  }

  lemma NextRow(s: State, r: Trace, p: Pid, now: int, due: seq<Snapshot>, count: nat, rows: map<Id, Row>, time: int, after: After)
    returns (u: Trace)
    requires count < |due| && count < MAX_RUNS_PER_TICK && forall i | 0 <= i < |due| :: due[i].row.nextRunAt.Some?
    requires forall i, j | 0 <= i < j < |due| :: due[i].id != due[j].id
    requires AtRow(s, r, p, now, due, count, rows) && r.at.clock <= time && !after.Throws?
    requires after == NextAfterRun(due[count].row.schedule, time)
    ensures u.at.clock == time
    ensures var d, next := due[count], if after.At? then Some(after.time) else None;
            AtRow(s, u, p, now, due, count + 1, rows[d.id := Recorded(d.row, d.row, next, now)])
  {
    u := ComputeSteps(s, r, p, time, after);
    u := CommitSteps(s, u, p);
    assert due[count..][1..] == due[count + 1..];
    assert Stamps(due, count + 1) == Stamps(due, count) + [StampOf(due[count])];
  }

  lemma FirstRow(s: State, p: Pid, now: int, due: seq<Snapshot>) returns (r: Trace)
    requires PhaseOf(s, p).Idle? && now <= s.clock && IsDueList(s.rows, now, due)
    ensures forall i | 0 <= i < |due| :: due[i].row.nextRunAt.Some?
    ensures AtRow(s, r, p, now, due, 0, s.rows) && r.at.clock == s.clock
  {
    r := Then(s, Trace([], s), Begin(p, now, due));
    assert Stamps(due, 0) == [];
  }

  lemma LastRow(s: State, r: Trace, p: Pid, now: int, due: seq<Snapshot>, count: nat, rows: map<Id, Row>) returns (u: Trace)
    requires count <= |due| && forall i | 0 <= i < |due| :: due[i].row.nextRunAt.Some?
    requires AtRow(s, r, p, now, due, count, rows) && (count == |due| || count == MAX_RUNS_PER_TICK)
    ensures Follows(s, u) && u.at.rows == rows && PhaseOf(u.at, p).Idle? && u.at.fires == s.fires + Stamps(due, count)
  {
    u := Then(s, r, Finish(p));
  }

  /** A tick that runs alone: it fires every due row, up to the limit, and its effect is
      that of a run of the step system. `None` where computing a next time throws. */
  method TickAlone(store: Storage, now: int, due: seq<Snapshot>, clock: nat -> int, ghost s: State, ghost p: Pid)
    returns (fired: Option<nat>, ghost r: Trace)
    requires s.rows == store.rows && PhaseOf(s, p).Idle?
    requires now <= s.clock <= clock(0) && Monotone(clock) && IsDueList(store.rows, now, due)
    modifies store
    ensures Follows(s, r) && r.at.rows == store.rows && PhaseOf(r.at, p).Idle?
    ensures fired.Some? ==>
              && fired.value == (if |due| < MAX_RUNS_PER_TICK then |due| else MAX_RUNS_PER_TICK)
              && r.at.fires == s.fires + Stamps(due, fired.value)
  {
    var count := 0;
    r := FirstRow(s, p, now, due);
    while count < |due| && count < MAX_RUNS_PER_TICK
      invariant 0 <= count <= |due| && count <= MAX_RUNS_PER_TICK && r.at.clock <= clock(count)
      invariant AtRow(s, r, p, now, due, count, store.rows)
    {
      var after := NextAfterRun(due[count].row.schedule, clock(count));
      if after.Throws? {
        r := ComputeSteps(s, r, p, clock(count), after);
        return None, r;
      }
      r := NextRow(s, r, p, now, due, count, store.rows, clock(count), after);
      CommitRow(store, due[count], if after.At? then Some(after.time) else None, now);
      count := count + 1;
    }
    r := LastRow(s, r, p, now, due, count, store.rows);
    fired := Some(count);
  }
}
