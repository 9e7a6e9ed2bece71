/** Every claimed run is recorded and fired at most once. */
module FireOnce {
  import opened Text
  import opened Scheduler
  import opened ClaimOnce

  predicate Distinct(stamps: seq<Stamp>) {
    forall i, j | 0 <= i < j < |stamps| :: stamps[i] != stamps[j]
  }

  predicate IsFiring(ph: Phase, x: Stamp) {
    ph.Firing? && ph.cur.row.nextRunAt.Some? && StampOf(ph.cur) == x
  }

  predicate InFlight(s: State, x: Stamp) {
    exists p | p in s.procs :: IsFiring(s.procs[p], x)
  }

  /** Every recorded run is fired, lost to a crash, or about to be fired: one of the
      three, once. */
  predicate HistoryOk(s: State) {
    && LogsOk(s) && Apart(s)
    && (forall x | x in s.records :: x in s.fires || x in s.lost || InFlight(s, x))
    && (forall p | p in s.procs :: PhaseLogged(s, s.procs[p]))
  }

  predicate LogsOk(s: State) {
    && Distinct(s.records) && Distinct(s.fires)
    && (forall x | x in s.records :: x in s.claims)
    && (forall x | x in s.fires :: x in s.records && x !in s.lost)
    && (forall x | x in s.lost :: x in s.records)
  }

  predicate PhaseLogged(s: State, ph: Phase) {
    (ph.Firing? || ph.Recording?) && ph.cur.row.nextRunAt.Some? ==>
      var x := StampOf(ph.cur);
      if ph.Firing? then x in s.records && x !in s.fires && x !in s.lost else x in s.claims && x !in s.records
  }

  /** The run a process has claimed or recorded, and whether it is recorded. */
  function Current(ph: Phase): Option<(Stamp, bool)> {
    if (ph.Firing? || ph.Recording?) && ph.cur.row.nextRunAt.Some? then Some((StampOf(ph.cur), ph.Firing?)) else None
  }

  /** No two processes are at the same run. */
  predicate Apart(s: State) {
    forall p, q | p in s.procs && q in s.procs && p != q ::
      Current(s.procs[p]).Some? ==> Current(s.procs[p]) != Current(s.procs[q])
  }

  lemma MovedApart(s: State, t: State, p: Pid)
    requires Apart(s) && p in t.procs && t.procs == s.procs[p := t.procs[p]]
    requires forall q | q in s.procs && q != p && Current(t.procs[p]).Some? :: Current(t.procs[p]) != Current(s.procs[q])
    ensures Apart(t)
  {
  }

  lemma StillInFlight(s: State, t: State, x: Stamp, p: Pid)
    requires InFlight(s, x) && p in t.procs && (p in s.procs ==> !IsFiring(s.procs[p], x))
    requires forall q | q in s.procs && q != p :: q in t.procs && t.procs[q] == s.procs[q]
    ensures InFlight(t, x)
  {
    var q :| q in s.procs && IsFiring(s.procs[q], x);
    assert q in t.procs && IsFiring(t.procs[q], x);
  }

  lemma ClaimHistory(s: State, p: Pid)
    requires HistoryOk(s) && Fresh(s) && Enabled(s, Claim(p))
    ensures HistoryOk(Step(s, Claim(p)))
  {
    var t := Step(s, Claim(p));
    assert !t.procs[p].Firing? && (t.procs[p].Recording? ==> StampOf(t.procs[p].cur) !in s.claims);
    MovedApart(s, t, p);
    forall x | x in s.records && InFlight(s, x) ensures InFlight(t, x) {
      StillInFlight(s, t, x, p);
    }
  }

  lemma RecordHistory(s: State, p: Pid)
    requires HistoryOk(s) && Enabled(s, Record(p))
    ensures HistoryOk(Step(s, Record(p)))
  {
    var t := Step(s, Record(p));
    var x := StampOf(s.procs[p].cur);
    RecordLogs(s, t, x);
    MovedApart(s, t, p);
    forall y | y in s.records && InFlight(s, y) ensures InFlight(t, y) {
      StillInFlight(s, t, y, p);
    }
    forall q | q in t.procs ensures PhaseLogged(t, t.procs[q]) {
      assert q != p ==> PhaseLogged(s, s.procs[q]) && Current(s.procs[q]) != Current(s.procs[p]);
    }
    assert IsFiring(t.procs[p], x);
  }

  lemma RecordLogs(s: State, t: State, x: Stamp)
    requires LogsOk(s) && x in s.claims && x !in s.records && t.records == s.records + [x]
    requires t.claims == s.claims && t.fires == s.fires && t.lost == s.lost
    ensures LogsOk(t)
  {
  }

  lemma FireLogs(s: State, t: State, x: Stamp)
    requires LogsOk(s) && x in s.records && x !in s.fires && x !in s.lost && t.fires == s.fires + [x]
    requires t.claims == s.claims && t.records == s.records && t.lost == s.lost
    ensures LogsOk(t)
  {
  }

  lemma FireHistory(s: State, p: Pid)
    requires HistoryOk(s) && Enabled(s, Fire(p))
    ensures HistoryOk(Step(s, Fire(p)))
  {
    var t := Step(s, Fire(p));
    var x := StampOf(s.procs[p].cur);
    assert IsFiring(s.procs[p], x);
    FireLogs(s, t, x);
    MovedApart(s, t, p);
    forall y | y in s.records && InFlight(s, y) ensures y in t.fires || InFlight(t, y) {
      if !IsFiring(s.procs[p], y) {
        StillInFlight(s, t, y, p);
      }
    }
    forall q | q in t.procs ensures PhaseLogged(t, t.procs[q]) {
      assert q != p ==> PhaseLogged(s, s.procs[q]) && Current(s.procs[q]) != Current(s.procs[p]);
    }
  }

  lemma CrashHistory(s: State, p: Pid)
    requires HistoryOk(s) && Enabled(s, Crash(p))
    ensures HistoryOk(Step(s, Crash(p)))
  {
    var t := Step(s, Crash(p));
    MovedApart(s, t, p);
    forall x | x in s.records && InFlight(s, x) ensures x in t.lost || InFlight(t, x) {
      if !IsFiring(s.procs[p], x) {
        StillInFlight(s, t, x, p);
      }
    }
    forall q | q in t.procs ensures PhaseLogged(t, t.procs[q]) {
      assert q != p ==> PhaseLogged(s, s.procs[q]) && (Current(s.procs[p]).Some? ==> Current(s.procs[q]) != Current(s.procs[p]));
    }
  }

  lemma QuietHistory(s: State, a: Action)
    requires HistoryOk(s) && Enabled(s, a) && (a.Begin? || a.Compute? || a.Finish?)
    ensures HistoryOk(Step(s, a))
  {
    var t := Step(s, a);
    assert !t.procs[a.p].Firing? && !t.procs[a.p].Recording?;
    MovedApart(s, t, a.p);
    forall x | x in s.records && InFlight(s, x) ensures InFlight(t, x) {
      StillInFlight(s, t, x, a.p);
    }
  }

  lemma StepHistory(s: State, a: Action)
    requires Enabled(s, a) && HistoryOk(s) && Fresh(s)
    ensures HistoryOk(Step(s, a))
  {
    match a
    case Claim(p) => ClaimHistory(s, p);
    case Record(p) => RecordHistory(s, p);
    case Fire(p) => FireHistory(s, p);
    case Crash(p) => CrashHistory(s, p);
    case Advance(_) =>
    case _ => QuietHistory(s, a);
  }

  lemma {:induction false} RunHistory(s: State, actions: seq<Action>)
    requires Initial(s) && Run(s, actions).Some? && NeverRevives(s, actions)
    ensures HistoryOk(Run(s, actions).value)
  {
    if actions != [] {
      var before := actions[..|actions| - 1];
      RunHistory(s, before);
      ClaimOnce.RunKeeps(s, before);
      InvIsFresh(Run(s, before).value);
      StepHistory(Run(s, before).value, actions[|actions| - 1]);
    }
  }

  /** In every run in which no bookkeeping write revives a value, each value is claimed at
      most once, later claims are for later times, the value a row holds is unclaimed, and
      each value is fired at most once. */
  lemma ClaimedAndFiredAtMostOnce(s: State, actions: seq<Action>)
    requires Initial(s) && Run(s, actions).Some? && NeverRevives(s, actions)
    ensures var t := Run(s, actions).value;
            ClaimsIncrease(t.claims) && Fresh(t) && Distinct(t.fires) && forall x | x in t.fires :: x in t.claims
  {
    ClaimOnce.RunKeeps(s, actions);
    InvIsFresh(Run(s, actions).value);
    RunHistory(s, actions);
  }

  /** A one-shot automation fires at most once. */
  lemma OneShotFiresOnce(s: State, actions: seq<Action>)
    requires Initial(s) && Run(s, actions).Some? && NeverRevives(s, actions)
    ensures var t := Run(s, actions).value;
            forall i, j | 0 <= i < j < |t.fires| && t.fires[i].id == t.fires[j].id ::
              t.fires[i].id in t.rows && !t.rows[t.fires[i].id].schedule.Once?
  {
    ClaimedAndFiredAtMostOnce(s, actions);
    ClaimOnce.RunKeeps(s, actions);
    var t := Run(s, actions).value;
    forall i, j | 0 <= i < j < |t.fires| && t.fires[i].id == t.fires[j].id
      ensures t.fires[i].id in t.rows && !t.rows[t.fires[i].id].schedule.Once?
    {
      assert t.fires[i] in t.claims && t.fires[j] in t.claims && t.fires[i] != t.fires[j];
    }
  }
}
