/** Run accounting: `runCount`, `maxRuns`, one-shot rows and completion.

    The guarantees hold in every run in which no tick reads a row as due between a claim
    of that row and its bookkeeping write. Bookkeeping that lands before the new
    `nextRunAt` becomes due is a special case. */
module RunAccounting {
  import opened Text
  import opened Scheduler
  import opened Sets
  import ClaimOnce
  import opened FireOnce

  predicate HasPending(s: State, id: Id) {
    exists p | p in s.procs :: s.procs[p].Recording? && s.procs[p].cur.id == id
  }

  /** No tick of the run reads a row whose bookkeeping is still to be written. */
  predicate QuietReads(s: State, actions: seq<Action>) {
    actions == [] ||
    var before := actions[..|actions| - 1];
    && QuietReads(s, before)
    && match (Run(s, before), actions[|actions| - 1])
       case (Some(t), Begin(_, _, due)) => forall d | d in due :: !HasPending(t, d.id)
       case _ => true
  }

  // ---- rows and snapshots

  predicate SameConfig(a: Row, b: Row) {
    a.schedule == b.schedule && a.maxRuns == b.maxRuns && a.enabled == b.enabled
  }

  /** A row not yet claimed by the tick that read it: never ahead of the store, and
      exactly the stored row as long as its `nextRunAt` is. */
  predicate SnapOk(s: State, d: Snapshot, now: int) {
    && now <= s.clock && d.id in s.rows && SameConfig(d.row, s.rows[d.id])
    && !d.row.completed && d.row.nextRunAt.Some? && d.row.nextRunAt.value <= now
    && (s.rows[d.id].nextRunAt.Some? ==> d.row.nextRunAt.value <= s.rows[d.id].nextRunAt.value)
    && (s.rows[d.id].nextRunAt == d.row.nextRunAt ==> s.rows[d.id] == d.row)
  }

  predicate PhaseOk(s: State, ph: Phase) {
    !ph.Idle? ==>
    && (forall d | d in ph.rest :: SnapOk(s, d, ph.now))
    && (!ph.Looping? ==> ph.cur.id in s.rows && ph.cur.row.nextRunAt.Some?)
    && (ph.Claiming? ==> SnapOk(s, ph.cur, ph.now)
                         && (ph.next.None? <==> ph.cur.row.schedule.Once?)
                         && (ph.next.Some? ==> ph.cur.row.nextRunAt.value < ph.next.value))
    && (ph.Recording? ==> !ph.cur.row.completed && s.rows[ph.cur.id] == ph.cur.row.(nextRunAt := ph.next))
  }

  /** Nobody holds a snapshot that could still claim what a pending claim wrote. */
  ghost predicate SnapsBefore(s: State) {
    forall p, q, d | p in s.procs && q in s.procs && s.procs[p].Recording? && s.procs[p].next.Some?
                     && Holds(s.procs[q], d) && d.id == s.procs[p].cur.id && d.row.nextRunAt.Some? ::
      d.row.nextRunAt.value < s.procs[p].next.value
  }

  predicate OnePending(s: State) {
    forall p, q | p in s.procs && q in s.procs && p != q && s.procs[p].Recording? && s.procs[q].Recording? ::
      s.procs[p].cur.id != s.procs[q].cur.id
  }

  /** Rows keep their configuration, their limits, and the identity of claimed one-shots. */
  predicate RowsOk(init: State, s: State) {
    && s.rows.Keys == init.rows.Keys
    && (forall id | id in s.rows :: ValidRow(s.rows[id]) && SameConfig(s.rows[id], init.rows[id]))
    && (forall id | id in s.rows && s.rows[id].maxRuns.Some? && !init.rows[id].completed ::
          s.rows[id].runCount <= s.rows[id].maxRuns.value)
    && OneShotsOk(s)
  }

  /** A claimed one-shot row has no next time, and was claimed once. */
  predicate OneShotsOk(s: State) {
    && (forall c | c in s.claims :: c.id in s.rows && (s.rows[c.id].schedule.Once? ==> s.rows[c.id].nextRunAt.None?))
    && (forall i, j | 0 <= i < j < |s.claims| && s.claims[i].id == s.claims[j].id ::
          s.claims[i].id in s.rows && !s.rows[s.claims[i].id].schedule.Once?)
  }

  predicate PhasesOk(s: State) {
    forall p | p in s.procs :: PhaseOk(s, s.procs[p])
  }

  ghost predicate Inv(init: State, s: State) {
    RowsOk(init, s) && OnePending(s) && SnapsBefore(s) && PhasesOk(s)
  }

  lemma InitialInv(s: State)
    requires Initial(s)
    ensures Inv(s, s)
  {
  }

  // ---- one process moves on, the store does not change

  predicate OnlyMoves(s: State, t: State, p: Pid) {
    && t.rows == s.rows && t.clock == s.clock && t.claims == s.claims
    && p in t.procs && t.procs == s.procs[p := t.procs[p]]
  }

  lemma MovedPhases(s: State, t: State, p: Pid)
    requires OnlyMoves(s, t, p) && PhasesOk(s) && PhaseOk(t, t.procs[p])
    ensures PhasesOk(t)
  {
    forall q | q in t.procs ensures PhaseOk(t, t.procs[q]) {
      if q != p {
        SamePhase(s, t, s.procs[q]);
      }
    }
  }

  lemma SamePhase(s: State, t: State, ph: Phase)
    requires t.rows == s.rows && s.clock <= t.clock && PhaseOk(s, ph)
    ensures PhaseOk(t, ph)
  {
  }

  /** The process that moves has no pending claim, and holds no new snapshot. */
  ghost predicate HoldsNoMore(s: State, t: State, p: Pid)
    requires p in t.procs
  {
    !t.procs[p].Recording? && forall d | Holds(t.procs[p], d) :: p in s.procs && Holds(s.procs[p], d)
  }

  lemma MovedPending(s: State, t: State, p: Pid)
    requires OnlyMoves(s, t, p) && OnePending(s) && !t.procs[p].Recording?
    ensures OnePending(t)
  {
  }

  lemma MovedSnaps(s: State, t: State, p: Pid)
    requires OnlyMoves(s, t, p) && SnapsBefore(s) && HoldsNoMore(s, t, p)
    ensures SnapsBefore(t)
  {
  }

  lemma MoveKeeps(init: State, s: State, t: State, p: Pid)
    requires Inv(init, s) && OnlyMoves(s, t, p) && HoldsNoMore(s, t, p) && PhaseOk(t, t.procs[p])
    ensures Inv(init, t)
  {
    MovedPhases(s, t, p);
    MovedPending(s, t, p);
    MovedSnaps(s, t, p);
  }

  lemma BeginSnaps(s: State, t: State, p: Pid, due: seq<Snapshot>)
    requires OnlyMoves(s, t, p) && SnapsBefore(s) && t.procs[p].Looping? && t.procs[p].rest == due
    requires forall d | d in due :: !HasPending(s, d.id)
    ensures SnapsBefore(t)
  {
    forall q, d | q in t.procs && t.procs[q].Recording? && Holds(t.procs[p], d) ensures t.procs[q].cur.id != d.id {
      assert d in due && s.procs[q] == t.procs[q];
    }
  }

  lemma BeginPhase(init: State, s: State, now: int, due: seq<Snapshot>)
    requires RowsOk(init, s) && now <= s.clock && IsDueList(s.rows, now, due)
    ensures PhaseOk(s, Looping(now, due, 0))
  {
  }

  lemma BeginKeeps(init: State, s: State, a: Action)
    requires a.Begin? && Enabled(s, a) && Inv(init, s)
    requires forall d | d in a.due :: !HasPending(s, d.id)
    ensures Inv(init, Step(s, a))
  {
    var t := Step(s, a);
    BeginPhase(init, s, a.now, a.due);
    SamePhase(s, t, t.procs[a.p]);
    MovedPhases(s, t, a.p);
    MovedPending(s, t, a.p);
    BeginSnaps(s, t, a.p, a.due);
  }

  lemma ComputedPhase(s: State, ph: Phase, after: After)
    requires ph.Looping? && ph.rest != [] && PhaseOk(s, ph)
    requires after.At? ==> s.clock < after.time
    requires after.Never? <==> ph.rest[0].row.schedule.Once?
    ensures PhaseOk(s, Computed(ph, after))
    ensures forall d | Holds(Computed(ph, after), d) :: Holds(ph, d)
  {
    assert ph.rest[0] in ph.rest && SnapOk(s, ph.rest[0], ph.now);
    assert forall d | d in ph.rest[1..] :: d in ph.rest;
  }

  lemma ComputedKeeps(init: State, s: State, p: Pid, after: After)
    requires Enabled(s, Compute(p)) && Inv(init, s)
    requires after.At? ==> s.clock < after.time
    requires after.Never? <==> PhaseOf(s, p).rest[0].row.schedule.Once?
    ensures Inv(init, s.(procs := s.procs[p := Computed(PhaseOf(s, p), after)]))
  {
    var t := s.(procs := s.procs[p := Computed(PhaseOf(s, p), after)]);
    ComputedPhase(s, PhaseOf(s, p), after);
    SamePhase(s, t, t.procs[p]);
    MoveKeeps(init, s, t, p);
  }

  lemma ComputeKeeps(init: State, s: State, p: Pid)
    requires Enabled(s, Compute(p)) && Inv(init, s)
    ensures Inv(init, Step(s, Compute(p)))
  {
    var d := PhaseOf(s, p).rest[0];
    assert PhaseOk(s, s.procs[p]) && SnapOk(s, d, s.procs[p].now);
    var after := NextAfterRun(d.row.schedule, s.clock);
    if after.At? {
      NextIsLater(d.row.schedule, s.clock);
    }
    ComputedKeeps(init, s, p, after);
  }

  /** A claim that succeeds finds the row as the tick read it, with nothing pending. */
  lemma ClaimFindsSnapshot(init: State, s: State, p: Pid)
    requires Enabled(s, Claim(p)) && Inv(init, s) && ClaimSucceeds(s, s.procs[p])
    ensures s.rows[s.procs[p].cur.id] == s.procs[p].cur.row
    ensures !HasPending(s, s.procs[p].cur.id)
  {
    var ph := s.procs[p];
    assert PhaseOk(s, ph) && Holds(ph, ph.cur);
    forall q | q in s.procs && s.procs[q].Recording? ensures s.procs[q].cur.id != ph.cur.id {
      assert PhaseOk(s, s.procs[q]);
    }
  }

  lemma ClaimedPhase(init: State, s: State, p: Pid, q: Pid)
    requires Enabled(s, Claim(p)) && Inv(init, s) && ClaimSucceeds(s, s.procs[p]) && q in s.procs && q != p
    ensures PhaseOk(Step(s, Claim(p)), s.procs[q])
    ensures s.procs[q].Recording? ==> s.procs[q].cur.id != s.procs[p].cur.id
  {
    ClaimFindsSnapshot(init, s, p);
    assert PhaseOk(s, s.procs[q]) && PhaseOk(s, s.procs[p]);
  }

  lemma ClaimedSnaps(init: State, s: State, p: Pid, q: Pid, d: Snapshot)
    requires Enabled(s, Claim(p)) && Inv(init, s) && ClaimSucceeds(s, s.procs[p])
    requires q in s.procs && Holds(s.procs[q], d) && d.id == s.procs[p].cur.id && s.procs[p].next.Some?
    ensures d.row.nextRunAt.Some? && d.row.nextRunAt.value < s.procs[p].next.value
  {
    assert PhaseOk(s, s.procs[q]) && PhaseOk(s, s.procs[p]);
  }

  lemma ClaimRows(init: State, s: State, p: Pid)
    requires Enabled(s, Claim(p)) && RowsOk(init, s) && PhaseOk(s, s.procs[p]) && ClaimSucceeds(s, s.procs[p])
    ensures RowsOk(init, Step(s, Claim(p)))
  {
    var t, x := Step(s, Claim(p)), StampOf(s.procs[p].cur);
    ClaimedRows(init, s.rows, t.rows, x.id, s.procs[p].next);
    ClaimedOnce(s, t, x, s.procs[p].next);
  }

  lemma ClaimedRows(init: State, rows: map<Id, Row>, after: map<Id, Row>, id: Id, next: Option<int>)
    requires id in rows && after == rows[id := rows[id].(nextRunAt := next)] && !rows[id].completed
    requires forall k | k in rows :: ValidRow(rows[k])
    ensures after.Keys == rows.Keys
    ensures forall k | k in after :: ValidRow(after[k]) && SameConfig(after[k], rows[k]) && after[k].runCount == rows[k].runCount
  {
  }

  /** The claims after one more: a one-shot row is not claimed again. */
  lemma ClaimedOnce(s: State, t: State, x: Stamp, next: Option<int>)
    requires x.id in s.rows && t.rows == s.rows[x.id := s.rows[x.id].(nextRunAt := next)] && t.claims == s.claims + [x]
    requires s.rows[x.id].nextRunAt.Some? && (s.rows[x.id].schedule.Once? ==> next.None?) && OneShotsOk(s)
    ensures OneShotsOk(t)
  {
    forall i, j | 0 <= i < j < |t.claims| && t.claims[i].id == t.claims[j].id
      ensures t.claims[i].id in t.rows && !t.rows[t.claims[i].id].schedule.Once?
    {
      assert t.claims[i] in s.claims;
    }
  }

  lemma ClaimPending(s: State, t: State, p: Pid)
    requires p in t.procs && t.procs == s.procs[p := t.procs[p]] && OnePending(s)
    requires t.procs[p].Recording? && !HasPending(s, t.procs[p].cur.id)
    ensures OnePending(t)
  {
  }

  lemma ClaimSnaps(init: State, s: State, p: Pid)
    requires Enabled(s, Claim(p)) && Inv(init, s) && ClaimSucceeds(s, s.procs[p])
    ensures SnapsBefore(Step(s, Claim(p)))
  {
    var ph, t := s.procs[p], Step(s, Claim(p));
    forall q, d | q in t.procs && Holds(t.procs[q], d)
      ensures Holds(s.procs[q], d)
      ensures d.id == ph.cur.id && ph.next.Some? ==> d.row.nextRunAt.Some? && d.row.nextRunAt.value < ph.next.value
    {
      if d.id == ph.cur.id && ph.next.Some? {
        ClaimedSnaps(init, s, p, q, d);
      }
    }
  }

  lemma ClaimPhases(init: State, s: State, p: Pid)
    requires Enabled(s, Claim(p)) && Inv(init, s) && ClaimSucceeds(s, s.procs[p])
    ensures PhasesOk(Step(s, Claim(p)))
  {
    var t := Step(s, Claim(p));
    ClaimedOwnPhase(init, s, p);
    forall q | q in t.procs ensures PhaseOk(t, t.procs[q]) {
      if q != p {
        ClaimedPhase(init, s, p, q);
      }
    }
  }

  lemma ClaimedOwnPhase(init: State, s: State, p: Pid)
    requires Enabled(s, Claim(p)) && Inv(init, s) && ClaimSucceeds(s, s.procs[p])
    ensures PhaseOk(Step(s, Claim(p)), Step(s, Claim(p)).procs[p])
  {
    var ph, t := s.procs[p], Step(s, Claim(p));
    assert PhaseOk(s, ph);
    forall d | d in ph.rest ensures SnapOk(t, d, ph.now) {
      assert SnapOk(s, d, ph.now);
    }
  }

  lemma ClaimWins(init: State, s: State, p: Pid)
    requires Enabled(s, Claim(p)) && Inv(init, s) && ClaimSucceeds(s, s.procs[p])
    ensures Inv(init, Step(s, Claim(p)))
  {
    ClaimFindsSnapshot(init, s, p);
    ClaimRows(init, s, p);
    ClaimPending(s, Step(s, Claim(p)), p);
    ClaimSnaps(init, s, p);
    ClaimPhases(init, s, p);
  }

  lemma ClaimLoses(init: State, s: State, p: Pid)
    requires Enabled(s, Claim(p)) && Inv(init, s) && !ClaimSucceeds(s, s.procs[p])
    ensures Inv(init, Step(s, Claim(p)))
  {
    DropKeeps(init, s, Step(s, Claim(p)), p);
  }

  lemma RecordedPhase(init: State, s: State, p: Pid, q: Pid)
    requires Enabled(s, Record(p)) && Inv(init, s) && q in s.procs && q != p
    ensures PhaseOk(Step(s, Record(p)), s.procs[q])
  {
    assert PhaseOk(s, s.procs[p]) && PhaseOk(s, s.procs[q]);
    var t := Step(s, Record(p));
    forall d, now | Holds(s.procs[q], d) && SnapOk(s, d, now) ensures SnapOk(t, d, now) {
    }
    forall d | !s.procs[q].Idle? && d in s.procs[q].rest ensures SnapOk(t, d, s.procs[q].now) {
      assert Holds(s.procs[q], d);
    }
  }

  lemma RecordedOwnPhase(init: State, s: State, p: Pid)
    requires Enabled(s, Record(p)) && Inv(init, s)
    ensures PhaseOk(Step(s, Record(p)), Step(s, Record(p)).procs[p])
  {
    var ph := s.procs[p];
    var t := Step(s, Record(p));
    assert PhaseOk(s, ph);
    forall d | d in ph.rest ensures SnapOk(t, d, ph.now) {
      assert Holds(ph, d) && SnapOk(s, d, ph.now);
    }
  }

  lemma RecordedRows(init: State, s: State, p: Pid)
    requires Enabled(s, Record(p)) && Inv(init, s)
    ensures RowsOk(init, Step(s, Record(p))) && !ClaimOnce.Overtaken(s, p)
  {
    assert PhaseOk(s, s.procs[p]);
  }

  lemma RecordPhases(init: State, s: State, p: Pid)
    requires Enabled(s, Record(p)) && Inv(init, s)
    ensures PhasesOk(Step(s, Record(p)))
  {
    var t := Step(s, Record(p));
    RecordedOwnPhase(init, s, p);
    forall q | q in t.procs ensures PhaseOk(t, t.procs[q]) {
      if q != p {
        RecordedPhase(init, s, p, q);
      }
    }
  }

  /** Pending claims and snapshots depend on the processes only. */
  lemma RecordSnaps(s: State, p: Pid)
    requires Enabled(s, Record(p)) && OnePending(s) && SnapsBefore(s)
    ensures OnePending(Step(s, Record(p))) && SnapsBefore(Step(s, Record(p)))
  {
    var t := Step(s, Record(p));
    var m := s.(procs := t.procs);
    MovedPending(s, m, p);
    MovedSnaps(s, m, p);
  }

  lemma RecordKeeps(init: State, s: State, p: Pid)
    requires Enabled(s, Record(p)) && Inv(init, s)
    ensures Inv(init, Step(s, Record(p)))
    ensures !ClaimOnce.Overtaken(s, p)
  {
    RecordedRows(init, s, p);
    RecordSnaps(s, p);
    RecordPhases(init, s, p);
  }

  lemma AdvanceKeeps(init: State, s: State, a: Action)
    requires a.Advance? && Enabled(s, a) && Inv(init, s)
    ensures Inv(init, Step(s, a))
  {
    var t := Step(s, a);
    forall q | q in t.procs ensures PhaseOk(t, t.procs[q]) {
      SamePhase(s, t, s.procs[q]);
    }
  }

  /** A process that gives up what it was doing, or goes on with the rest of its rows. */
  lemma DropKeeps(init: State, s: State, t: State, p: Pid)
    requires Inv(init, s) && p in s.procs && OnlyMoves(s, t, p)
    requires t.procs[p].Idle? || (t.procs[p].Looping? && !s.procs[p].Idle?
                                  && t.procs[p].rest == s.procs[p].rest && t.procs[p].now == s.procs[p].now)
    ensures Inv(init, t)
  {
    SamePhase(s, t, s.procs[p]);
    MoveKeeps(init, s, t, p);
  }

  lemma OtherKeeps(init: State, s: State, a: Action)
    requires (a.Fire? || a.Finish? || a.Crash? || a.Advance?) && Enabled(s, a) && Inv(init, s)
    ensures Inv(init, Step(s, a))
  {
    if a.Advance? {
      AdvanceKeeps(init, s, a);
    } else {
      DropKeeps(init, s, Step(s, a), a.p);
    }
  }

  lemma StepKeeps(init: State, s: State, a: Action)
    requires Enabled(s, a) && Inv(init, s)
    requires a.Begin? ==> forall d | d in a.due :: !HasPending(s, d.id)
    ensures Inv(init, Step(s, a))
    ensures a.Record? ==> !ClaimOnce.Overtaken(s, a.p)
  {
    match a
    case Begin(_, _, _) => BeginKeeps(init, s, a);
    case Compute(p) => ComputeKeeps(init, s, p);
    case Claim(p) => if ClaimSucceeds(s, s.procs[p]) { ClaimWins(init, s, p); } else { ClaimLoses(init, s, p); }
    case Record(p) => RecordKeeps(init, s, p);
    case _ => OtherKeeps(init, s, a);
  }

  // ---- counting runs

  function Count(stamps: seq<Stamp>, id: Id): nat {
    if stamps == [] then 0
    else Count(stamps[..|stamps| - 1], id) + (if stamps[|stamps| - 1].id == id then 1 else 0)
  }

  lemma CountAppend(stamps: seq<Stamp>, x: Stamp, id: Id)
    ensures Count(stamps + [x], id) == Count(stamps, id) + (if x.id == id then 1 else 0)
  {
    assert (stamps + [x])[..|stamps|] == stamps;
  }

  predicate CountsOk(init: State, s: State) {
    forall id | id in s.rows && id in init.rows :: s.rows[id].runCount == init.rows[id].runCount + Count(s.records, id)
  }

  ghost predicate Full(init: State, s: State) {
    Inv(init, s) && ClaimOnce.Inv(s) && HistoryOk(s) && CountsOk(init, s)
  }

  lemma ClaimCounts(init: State, s: State, p: Pid)
    requires CountsOk(init, s) && Enabled(s, Claim(p))
    ensures CountsOk(init, Step(s, Claim(p)))
  {
  }

  lemma RecordCounts(init: State, s: State, p: Pid)
    requires CountsOk(init, s) && Enabled(s, Record(p)) && PhaseOk(s, s.procs[p])
    ensures CountsOk(init, Step(s, Record(p)))
  {
    var t := Step(s, Record(p));
    var ph := s.procs[p];
    forall id | id in t.rows && id in init.rows
      ensures t.rows[id].runCount == init.rows[id].runCount + Count(t.records, id)
    {
      CountAppend(s.records, StampOf(ph.cur), id);
    }
  }

  lemma StepCounts(init: State, s: State, a: Action)
    requires Enabled(s, a) && CountsOk(init, s) && forall p | p in s.procs :: PhaseOk(s, s.procs[p])
    ensures CountsOk(init, Step(s, a))
  {
    match a
    case Claim(p) => ClaimCounts(init, s, p);
    case Record(p) => RecordCounts(init, s, p);
    case _ =>
  }

  lemma StepKeepsFull(init: State, s: State, a: Action)
    requires Enabled(s, a) && Full(init, s)
    requires a.Begin? ==> forall d | d in a.due :: !HasPending(s, d.id)
    ensures Full(init, Step(s, a))
    ensures a.Record? ==> !ClaimOnce.Overtaken(s, a.p)
  {
    StepKeeps(init, s, a);
    ClaimOnce.InvIsFresh(s);
    ClaimOnce.StepKeeps(s, a);
    FireOnce.StepHistory(s, a);
    StepCounts(init, s, a);
  }

  lemma {:induction false} RunKeeps(s: State, actions: seq<Action>)
    requires Initial(s) && Run(s, actions).Some? && QuietReads(s, actions)
    ensures Full(s, Run(s, actions).value)
    ensures ClaimOnce.NeverRevives(s, actions)
  {
    if actions == [] {
      InitialInv(s);
    } else {
      var before := actions[..|actions| - 1];
      RunKeeps(s, before);
      StepKeepsFull(s, Run(s, before).value, actions[|actions| - 1]);
    }
  }

  function Of(stamps: seq<Stamp>, id: Id): set<Stamp> {
    set x | x in stamps && x.id == id
  }

  lemma OfAppend(stamps: seq<Stamp>, x: Stamp, id: Id)
    requires x !in stamps
    ensures |Of(stamps + [x], id)| == |Of(stamps, id)| + (if x.id == id then 1 else 0)
  {
    var more := stamps + [x];
    if x.id == id {
      assert Of(more, id) == Of(stamps, id) + {x};
    } else {
      assert Of(more, id) == Of(stamps, id);
    }
  }

  lemma {:induction false} CountIsSize(stamps: seq<Stamp>, id: Id)
    requires Distinct(stamps)
    ensures Count(stamps, id) == |Of(stamps, id)|
  {
    if stamps != [] {
      var before, x := stamps[..|stamps| - 1], stamps[|stamps| - 1];
      CountIsSize(before, id);
      assert stamps == before + [x];
      OfAppend(before, x, id);
    }
  }

  // ---- the results

  /** `runCount` counts the recorded runs, fires never exceed it, and it never exceeds
      `maxRuns`. When no run is in flight and none was lost, fires equal it. */
  lemma RunCountIsFires(s: State, actions: seq<Action>, id: Id)
    requires Initial(s) && Run(s, actions).Some? && QuietReads(s, actions) && id in s.rows
    ensures var u := Run(s, actions).value;
            && id in u.rows && u.rows[id].maxRuns == s.rows[id].maxRuns
            && u.rows[id].runCount == s.rows[id].runCount + Count(u.records, id)
            && Count(u.fires, id) <= Count(u.records, id)
            && (!s.rows[id].completed && s.rows[id].maxRuns.Some? ==> u.rows[id].runCount <= s.rows[id].maxRuns.value)
            && (u.lost == [] && (forall p | p in u.procs :: !u.procs[p].Firing?) ==> Count(u.fires, id) == Count(u.records, id))
  {
    RunKeeps(s, actions);
    var u := Run(s, actions).value;
    CountIsSize(u.records, id);
    CountIsSize(u.fires, id);
    SubsetSize(Of(u.fires, id), Of(u.records, id));
    if u.lost == [] && (forall p | p in u.procs :: !u.procs[p].Firing?) {
      assert Of(u.fires, id) == Of(u.records, id);
    }
  }

  /** The current row of a claim that succeeds, or of a pending one, is not completed. */
  lemma ActiveRow(s: State, ph: Phase)
    requires PhaseOk(s, ph) && (ph.Recording? || (ph.Claiming? && ClaimSucceeds(s, ph)))
    ensures ph.cur.id in s.rows && !s.rows[ph.cur.id].completed
  {
  }

  lemma FrozenByOther(s: State, t: State, x: Stamp, id: Id)
    requires id in s.rows && x.id != id && id in t.rows && t.rows[id] == s.rows[id]
    requires t.claims == s.claims || t.claims == s.claims + [x]
    requires t.records == s.records || t.records == s.records + [x]
    ensures Frozen(s, t, id)
  {
    CountAppend(s.claims, x, id);
    CountAppend(s.records, x, id);
  }

  lemma CompletedStep(init: State, s: State, a: Action, id: Id)
    requires Inv(init, s) && Enabled(s, a) && id in s.rows && s.rows[id].completed
    ensures Frozen(s, Step(s, a), id)
  {
    if a.Record? || (a.Claim? && ClaimSucceeds(s, s.procs[a.p])) {
      var ph := s.procs[a.p];
      ActiveRow(s, ph);
      FrozenByOther(s, Step(s, a), StampOf(ph.cur), id);
    }
  }

  /** If the row is completed in `t`, it is unchanged in `u` with no further run. */
  predicate Frozen(t: State, u: State, id: Id) {
    id in t.rows && t.rows[id].completed ==>
      && id in u.rows && u.rows[id] == t.rows[id]
      && Count(u.claims, id) == Count(t.claims, id) && Count(u.records, id) == Count(t.records, id)
  }

  lemma CompletedNext(s: State, before: seq<Action>, a: Action, id: Id)
    requires Initial(s) && Run(s, before + [a]).Some? && QuietReads(s, before + [a])
    ensures Run(s, before).Some? && QuietReads(s, before)
    ensures Frozen(Run(s, before).value, Run(s, before + [a]).value, id)
  {
    assert (before + [a])[..|before|] == before;
    RunKeeps(s, before);
    var t := Run(s, before).value;
    if id in t.rows && t.rows[id].completed {
      CompletedStep(s, t, a, id);
    }
  }

  /** Once completed, a row never changes again and no further run of it is claimed or
      recorded, whatever follows. */
  lemma {:induction false} CompletedForever(s: State, first: seq<Action>, more: seq<Action>, id: Id)
    requires Initial(s) && Run(s, first + more).Some? && QuietReads(s, first + more)
    ensures Run(s, first).Some?
    ensures Frozen(Run(s, first).value, Run(s, first + more).value, id)
    decreases |more|
  {
    if more == [] {
      assert first + more == first;
    } else {
      var n := |more| - 1;
      assert first + more == (first + more[..n]) + [more[n]];
      CompletedNext(s, first + more[..n], more[n], id);
      CompletedForever(s, first, more[..n], id);
    }
  }

  // ---- prompt bookkeeping is enough

  /** Every pending bookkeeping write is still before the time its claim wrote. */
  predicate Prompt(s: State) {
    forall p | p in s.procs && s.procs[p].Recording? && s.procs[p].next.Some? :: s.clock < s.procs[p].next.value
  }

  predicate AlwaysPrompt(s: State, actions: seq<Action>) {
    && (Run(s, actions).Some? ==> Prompt(Run(s, actions).value))
    && (actions != [] ==> AlwaysPrompt(s, actions[..|actions| - 1]))
  }

  /** If bookkeeping always lands before the new `nextRunAt` becomes due, all the above applies. */
  lemma {:induction false} PromptIsQuiet(s: State, actions: seq<Action>)
    requires Initial(s) && Run(s, actions).Some? && AlwaysPrompt(s, actions)
    ensures QuietReads(s, actions)
  {
    if actions != [] {
      var before, a := actions[..|actions| - 1], actions[|actions| - 1];
      PromptIsQuiet(s, before);
      RunKeeps(s, before);
      var t := Run(s, before).value;
      if a.Begin? {
        forall d | d in a.due ensures !HasPending(t, d.id) {
          forall p | p in t.procs && t.procs[p].Recording? ensures t.procs[p].cur.id != d.id {
            assert PhaseOk(t, t.procs[p]);
          }
        }
      }
    }
  }

  // ---- why reads have to be quiet

  lemma Quietly(s: State, actions: seq<Action>, t: State, a: Action) returns (longer: seq<Action>, u: State)
    requires Run(s, actions) == Some(t) && Enabled(t, a) && ClaimOnce.NeverRevives(s, actions)
    requires a.Record? ==> !ClaimOnce.Revives(t, a.p)
    ensures longer == actions + [a] && u == Step(t, a) && Run(s, longer) == Some(u) && ClaimOnce.NeverRevives(s, longer)
  {
    ClaimOnce.Extend(s, actions, t, a);
    longer, u := actions + [a], Step(t, a);
  }

  /** The row at 0 as it was read, and as the two runs of it leave it. */
  function Counted(nextRunAt: int, runCount: int, lastRunAt: Option<int>): Row {
    ClaimOnce.EveryMinute(nextRunAt).(runCount := runCount, lastRunAt := lastRunAt)
  }

  function Due(row: Row): seq<Snapshot> {
    [Snapshot(ClaimOnce.AUTOMATION, row)]
  }

  function Pending(now: int, row: Row, next: int): Phase {
    Recording(now, Snapshot(ClaimOnce.AUTOMATION, row), Some(next), [], 0)
  }

  lemma FirstClaimed() returns (actions: seq<Action>, t: State)
    ensures Run(ClaimOnce.Single(Counted(0, 0, None), 0), actions) == Some(t)
    ensures ClaimOnce.NeverRevives(ClaimOnce.Single(Counted(0, 0, None), 0), actions)
    ensures t.clock == 0 && t.rows == map[ClaimOnce.AUTOMATION := Counted(60000, 0, None)] && t.fires == []
    ensures t.procs == map[1 := Pending(0, Counted(0, 0, None), 60000)]
  {
    var s := ClaimOnce.Single(Counted(0, 0, None), 0);
    ClaimOnce.SingleDue(Counted(0, 0, None), 0);
    assert NextAfterRun(Counted(0, 0, None).schedule, 0) == At(60000) && Due(Counted(0, 0, None))[1..] == [];
    actions, t := ClaimOnce.ReadAndClaim(s, [], s, 1, Due(Counted(0, 0, None)));
    assert t.rows == map[ClaimOnce.AUTOMATION := Counted(60000, 0, None)];
  }

  /** Process 1 claims 0; at 60000, process 2 reads the row before process 1 has counted its run. */
  lemma ReadsUncounted() returns (actions: seq<Action>, t: State)
    ensures Run(ClaimOnce.Single(Counted(0, 0, None), 0), actions) == Some(t)
    ensures ClaimOnce.NeverRevives(ClaimOnce.Single(Counted(0, 0, None), 0), actions)
    ensures t.clock == 60000 && t.rows == map[ClaimOnce.AUTOMATION := Counted(60000, 0, None)] && t.fires == []
    ensures t.procs == map[1 := Pending(0, Counted(0, 0, None), 60000), 2 := Looping(60000, Due(Counted(60000, 0, None)), 0)]
  {
    var s := ClaimOnce.Single(Counted(0, 0, None), 0);
    actions, t := FirstClaimed();
    actions, t := Quietly(s, actions, t, Advance(60000));
    ClaimOnce.SingleDue(Counted(60000, 0, None), 60000);
    actions, t := Quietly(s, actions, t, Begin(2, 60000, Due(Counted(60000, 0, None))));
  }

  lemma FirstCounted() returns (actions: seq<Action>, t: State)
    ensures Run(ClaimOnce.Single(Counted(0, 0, None), 0), actions) == Some(t)
    ensures ClaimOnce.NeverRevives(ClaimOnce.Single(Counted(0, 0, None), 0), actions)
    ensures t.clock == 60000 && t.rows == map[ClaimOnce.AUTOMATION := Counted(60000, 1, Some(0))]
    ensures t.fires == [Stamp(ClaimOnce.AUTOMATION, 0)]
    ensures PhaseOf(t, 2) == Looping(60000, Due(Counted(60000, 0, None)), 0)
  {
    var s := ClaimOnce.Single(Counted(0, 0, None), 0);
    actions, t := ReadsUncounted();
    assert PhaseOf(t, 1) == Pending(0, Counted(0, 0, None), 60000);
    actions, t := Quietly(s, actions, t, Record(1));
    assert t.rows == map[ClaimOnce.AUTOMATION := Counted(60000, 1, Some(0))];
    actions, t := Quietly(s, actions, t, Fire(1));
  }

  lemma SecondClaimed() returns (actions: seq<Action>, t: State)
    ensures Run(ClaimOnce.Single(Counted(0, 0, None), 0), actions) == Some(t)
    ensures ClaimOnce.NeverRevives(ClaimOnce.Single(Counted(0, 0, None), 0), actions)
    ensures t.rows == map[ClaimOnce.AUTOMATION := Counted(120000, 1, Some(0))] && t.fires == [Stamp(ClaimOnce.AUTOMATION, 0)]
    ensures PhaseOf(t, 2) == Pending(60000, Counted(60000, 0, None), 120000)
  {
    var s := ClaimOnce.Single(Counted(0, 0, None), 0);
    actions, t := FirstCounted();
    assert NextAfterRun(Counted(60000, 0, None).schedule, 60000) == At(120000);
    actions, t := Quietly(s, actions, t, Compute(2));
    assert PhaseOf(t, 2) == Claiming(60000, Due(Counted(60000, 0, None))[0], Some(120000), [], 0);
    actions, t := Quietly(s, actions, t, Claim(2));
    assert t.rows == map[ClaimOnce.AUTOMATION := Counted(120000, 1, Some(0))];
  }

  /** A run in which no claimed time is put back, and yet two runs are fired and counted as
      one: the second process had read the row before the first one's bookkeeping. */
  lemma Undercounted() returns (actions: seq<Action>)
    ensures var s := ClaimOnce.Single(Counted(0, 0, None), 0);
            && Initial(s) && Run(s, actions).Some? && ClaimOnce.NeverRevives(s, actions)
            && var u := Run(s, actions).value;
               && u.rows == map[ClaimOnce.AUTOMATION := Counted(120000, 1, Some(60000))]
               && u.fires == [Stamp(ClaimOnce.AUTOMATION, 0), Stamp(ClaimOnce.AUTOMATION, 60000)]
  {
    var s := ClaimOnce.Single(Counted(0, 0, None), 0);
    var t;
    actions, t := SecondClaimed();
    actions, t := Quietly(s, actions, t, Record(2));
    assert t.rows == map[ClaimOnce.AUTOMATION := Counted(120000, 1, Some(60000))];
    actions, t := Quietly(s, actions, t, Fire(2));
  }
}
