/** "No double fire": when is every stored `nextRunAt` value claimed at most once?

    The compare-and-set alone does not ensure it, because the bookkeeping write after a
    claim is blind: if another process has claimed the new value meanwhile, the write
    puts that value back, unless it completes the row. Each value is claimed at most once
    as long as no bookkeeping write revives a claimed value in this way, and any such
    write breaks the guarantee. */
module ClaimOnce {
  import opened Text
  import opened Scheduler

  /** The row no longer holds the value the pending claim of `p` wrote. */
  predicate Overtaken(s: State, p: Pid) {
    var ph := PhaseOf(s, p);
    ph.Recording? && ph.cur.id in s.rows && s.rows[ph.cur.id].nextRunAt != ph.next
  }

  /** Whether the bookkeeping of a pending claim completes the row. */
  predicate Completes(ph: Phase)
    requires ph.Recording?
  {
    ph.next.None? || (ph.cur.row.maxRuns.Some? && ph.cur.row.runCount + 1 >= ph.cur.row.maxRuns.value)
  }

  /** A bookkeeping write that is overtaken and leaves the row active. */
  predicate Revives(s: State, p: Pid) {
    Overtaken(s, p) && !Completes(PhaseOf(s, p))
  }

  /** No bookkeeping write of the run revives a value. */
  predicate NeverRevives(s: State, actions: seq<Action>) {
    actions == [] ||
    var before := actions[..|actions| - 1];
    && NeverRevives(s, before)
    && match (Run(s, before), actions[|actions| - 1])
       case (Some(t), Record(p)) => !Revives(t, p)
       case _ => true
  }

  /** Claims of one automation come in strictly increasing order, so none repeats. */
  predicate ClaimsIncrease(claims: seq<Stamp>) {
    forall i, j | 0 <= i < j < |claims| && claims[i].id == claims[j].id :: claims[i].at < claims[j].at
  }

  /** The value a row holds has not been claimed before. */
  predicate Fresh(s: State) {
    forall id | id in s.rows && s.rows[id].nextRunAt.Some? :: Stamp(id, s.rows[id].nextRunAt.value) !in s.claims
  }

  // ---- the invariant

  /** A row as it was read: never ahead of the stored one. */
  predicate ReadOk(s: State, d: Snapshot, now: int) {
    && now <= s.clock && d.id in s.rows && ValidSchedule(d.row.schedule)
    && d.row.schedule == s.rows[d.id].schedule && d.row.maxRuns == s.rows[d.id].maxRuns
    && d.row.nextRunAt.Some? && d.row.nextRunAt.value <= now
    && (s.rows[d.id].nextRunAt.Some? ==>
          d.row.nextRunAt.value <= s.rows[d.id].nextRunAt.value && d.row.runCount <= s.rows[d.id].runCount)
  }

  /** A row that may still be claimed: at most one bookkeeping write behind. */
  predicate SnapOk(s: State, d: Snapshot, now: int) {
    ReadOk(s, d, now) && (s.rows[d.id].nextRunAt == d.row.nextRunAt ==> s.rows[d.id].runCount <= d.row.runCount + 1)
  }

  /** The value a pending claim wrote is still there, or was claimed since, or the row is
      completed and the pending write would complete it too. */
  predicate PendingOk(s: State, ph: Phase)
    requires ph.Recording?
  {
    ph.cur.id in s.rows ==>
    var row := s.rows[ph.cur.id];
    && (ph.next.None? ==> row.nextRunAt.None?)
    && (ph.next.Some? ==>
          && (row.nextRunAt == ph.next || Stamp(ph.cur.id, ph.next.value) in s.claims || (row.nextRunAt.None? && Completes(ph)))
          && (row.nextRunAt.Some? ==> ph.next.value <= row.nextRunAt.value)
          && (row.nextRunAt == ph.next ==> row.runCount <= ph.cur.row.runCount + 1))
  }

  predicate PhaseOk(s: State, ph: Phase) {
    !ph.Idle? ==>
    && (forall d | d in ph.rest :: SnapOk(s, d, ph.now))
    && (!ph.Looping? ==> ReadOk(s, ph.cur, ph.now))
    && (ph.Claiming? ==>
          && SnapOk(s, ph.cur, ph.now)
          && (ph.next.None? <==> ph.cur.row.schedule.Once?)
          && (ph.next.Some? && ph.cur.row.nextRunAt.Some? ==> ph.cur.row.nextRunAt.value < ph.next.value))
    && (ph.Recording? ==> PendingOk(s, ph))
  }

  predicate ClaimsOk(s: State) {
    && (forall c | c in s.claims ::
          && c.id in s.rows && c.at <= s.clock
          && (s.rows[c.id].nextRunAt.Some? ==> c.at < s.rows[c.id].nextRunAt.value && !s.rows[c.id].schedule.Once?))
    && (forall i, j | 0 <= i < j < |s.claims| && s.claims[i].id == s.claims[j].id ::
          s.claims[i].id in s.rows && !s.rows[s.claims[i].id].schedule.Once?)
  }

  /** Two pending claims of one automation wrote different values, the later one with at
      least the run count of the earlier one. */
  predicate InOrder(a: Phase, b: Phase) {
    a.Recording? && b.Recording? && a.cur.id == b.cur.id && a.next.Some? && b.next.Some? ==>
      a.next != b.next && (a.next.value < b.next.value ==> a.cur.row.runCount <= b.cur.row.runCount)
  }

  /** A row read after a pending claim has at least the run count of that claim. */
  predicate ReadAfter(a: Phase, d: Snapshot) {
    a.Recording? && a.cur.id == d.id && a.next.Some? && d.row.nextRunAt.Some? && a.next.value <= d.row.nextRunAt.value ==>
      a.cur.row.runCount <= d.row.runCount
  }

  ghost predicate OrderOk(s: State) {
    && (forall p, q | p in s.procs && q in s.procs && p != q :: InOrder(s.procs[p], s.procs[q]))
    && (forall p, q, d | p in s.procs && q in s.procs && Holds(s.procs[q], d) :: ReadAfter(s.procs[p], d))
  }

  ghost predicate Inv(s: State) {
    && (forall id | id in s.rows :: ValidSchedule(s.rows[id].schedule))
    && PhasesOk(s) && ClaimsOk(s) && ClaimsIncrease(s.claims) && OrderOk(s)
  }

  predicate PhasesOk(s: State) {
    forall p | p in s.procs :: PhaseOk(s, s.procs[p])
  }

  lemma InvIsFresh(s: State)
    requires Inv(s)
    ensures Fresh(s)
  {
  }

  lemma InitialInv(s: State)
    requires Initial(s)
    ensures Inv(s)
  {
  }

  // ---- steps that leave the rows alone

  predicate OnlyMoves(s: State, t: State, p: Pid) {
    && t.rows == s.rows && t.clock == s.clock && t.claims == s.claims
    && p in t.procs && t.procs == s.procs[p := t.procs[p]]
  }

  lemma SamePhase(s: State, t: State, ph: Phase)
    requires t.rows == s.rows && t.claims == s.claims && s.clock <= t.clock && PhaseOk(s, ph)
    ensures PhaseOk(t, ph)
  {
  }

  lemma MovedPhases(s: State, t: State, p: Pid)
    requires OnlyMoves(s, t, p) && PhasesOk(s) && PhaseOk(t, t.procs[p])
    ensures PhasesOk(t)
  {
    forall q | q in t.procs ensures PhaseOk(t, t.procs[q]) {
      if q != p {
        SamePhase(s, t, s.procs[q]);
      }
    }
  }

  /** A process without a pending claim that holds no new snapshot. */
  lemma MovedOrder(s: State, t: State, p: Pid)
    requires OrderOk(s) && p in t.procs && t.procs == s.procs[p := t.procs[p]] && !t.procs[p].Recording?
    requires forall d | Holds(t.procs[p], d) :: p in s.procs && Holds(s.procs[p], d)
    ensures OrderOk(t)
  {
  }

  lemma MoveKeeps(s: State, t: State, p: Pid)
    requires Inv(s) && OnlyMoves(s, t, p) && PhaseOk(t, t.procs[p]) && !t.procs[p].Recording?
    requires forall d | Holds(t.procs[p], d) :: p in s.procs && Holds(s.procs[p], d)
    ensures Inv(t)
  {
    MovedPhases(s, t, p);
    MovedOrder(s, t, p);
  }

  lemma BeginOrder(s: State, t: State, p: Pid)
    requires OnlyMoves(s, t, p) && PhasesOk(s) && OrderOk(s) && t.procs[p].Looping?
    requires IsDueList(s.rows, t.procs[p].now, t.procs[p].rest)
    ensures OrderOk(t)
  {
    forall q, d | q in t.procs && Holds(t.procs[p], d) ensures ReadAfter(t.procs[q], d) {
      if q != p {
        assert PhaseOk(s, s.procs[q]) && d in t.procs[p].rest;
      }
    }
  }

  lemma BeginKeeps(s: State, a: Action)
    requires a.Begin? && Enabled(s, a) && Inv(s)
    ensures Inv(Step(s, a))
  {
    var t := Step(s, a);
    MovedPhases(s, t, a.p);
    BeginOrder(s, t, a.p);
  }

  lemma ComputedPhase(s: State, ph: Phase, after: After)
    requires ph.Looping? && ph.rest != [] && PhaseOk(s, ph)
    requires after.At? ==> s.clock < after.time
    requires after.Never? <==> ph.rest[0].row.schedule.Once?
    ensures PhaseOk(s, Computed(ph, after))
    ensures forall d | Holds(Computed(ph, after), d) :: Holds(ph, d)
  {
    assert ph.rest[0] in ph.rest && SnapOk(s, ph.rest[0], ph.now);
    assert forall d | d in ph.rest[1..] :: d in ph.rest;
  }

  lemma ComputedKeeps(s: State, p: Pid, after: After)
    requires Enabled(s, Compute(p)) && Inv(s) && (after.At? ==> s.clock < after.time)
    requires after.Never? <==> PhaseOf(s, p).rest[0].row.schedule.Once?
    ensures Inv(s.(procs := s.procs[p := Computed(PhaseOf(s, p), after)]))
  {
    var t := s.(procs := s.procs[p := Computed(PhaseOf(s, p), after)]);
    ComputedPhase(s, PhaseOf(s, p), after);
    SamePhase(s, t, t.procs[p]);
    MoveKeeps(s, t, p);
  }

  lemma ComputeKeeps(s: State, p: Pid)
    requires Enabled(s, Compute(p)) && Inv(s)
    ensures Inv(Step(s, Compute(p)))
  {
    var d := PhaseOf(s, p).rest[0];
    assert PhaseOk(s, s.procs[p]) && SnapOk(s, d, s.procs[p].now);
    var after := NextAfterRun(d.row.schedule, s.clock);
    if after.At? {
      NextIsLater(d.row.schedule, s.clock);
    }
    ComputedKeeps(s, p, after);
  }

  lemma AdvanceKeeps(s: State, a: Action)
    requires a.Advance? && Enabled(s, a) && Inv(s)
    ensures Inv(Step(s, a))
  {
    var t := Step(s, a);
    forall q | q in t.procs ensures PhaseOk(t, t.procs[q]) {
      SamePhase(s, t, s.procs[q]);
    }
  }

  /** A process that gives up what it was doing, or goes on with the rest of its rows. */
  lemma DropKeeps(s: State, t: State, p: Pid)
    requires Inv(s) && p in s.procs && OnlyMoves(s, t, p)
    requires t.procs[p].Idle? || (t.procs[p].Looping? && !s.procs[p].Idle?
                                  && t.procs[p].rest == s.procs[p].rest && t.procs[p].now == s.procs[p].now)
    ensures Inv(t)
  {
    SamePhase(s, t, s.procs[p]);
    MoveKeeps(s, t, p);
  }

  // ---- claims

  lemma ClaimedRead(s: State, p: Pid, d: Snapshot, now: int)
    requires Enabled(s, Claim(p)) && ClaimSucceeds(s, s.procs[p]) && PhaseOk(s, s.procs[p]) && ReadOk(s, d, now)
    ensures ReadOk(Step(s, Claim(p)), d, now)
    ensures SnapOk(s, d, now) ==> SnapOk(Step(s, Claim(p)), d, now)
  {
  }

  lemma ClaimedPhase(s: State, p: Pid, q: Pid)
    requires Enabled(s, Claim(p)) && Inv(s) && ClaimSucceeds(s, s.procs[p]) && q in s.procs && q != p
    ensures PhaseOk(Step(s, Claim(p)), s.procs[q])
  {
    var ph, t := s.procs[q], Step(s, Claim(p));
    assert PhaseOk(s, ph) && PhaseOk(s, s.procs[p]);
    forall d | !ph.Idle? && d in ph.rest ensures SnapOk(t, d, ph.now) {
      ClaimedRead(s, p, d, ph.now);
    }
    if !ph.Idle? && !ph.Looping? {
      ClaimedRead(s, p, ph.cur, ph.now);
    }
  }

  lemma ClaimedOwnPhase(s: State, p: Pid)
    requires Enabled(s, Claim(p)) && Inv(s) && ClaimSucceeds(s, s.procs[p])
    ensures var t := Step(s, Claim(p)); PhaseOk(t, t.procs[p])
  {
    var ph, t := s.procs[p], Step(s, Claim(p));
    assert PhaseOk(s, ph);
    forall d | d in ph.rest ensures SnapOk(t, d, ph.now) {
      ClaimedRead(s, p, d, ph.now);
    }
    ClaimedRead(s, p, ph.cur, ph.now);
  }

  lemma ClaimedOrder(s: State, p: Pid)
    requires Enabled(s, Claim(p)) && Inv(s) && ClaimSucceeds(s, s.procs[p])
    ensures OrderOk(Step(s, Claim(p)))
  {
    var ph, t := s.procs[p], Step(s, Claim(p));
    assert PhaseOk(s, ph) && Holds(ph, ph.cur);
    forall q | q in t.procs && q != p ensures InOrder(t.procs[q], t.procs[p]) && InOrder(t.procs[p], t.procs[q]) {
      assert PhaseOk(s, s.procs[q]) && ReadAfter(s.procs[q], ph.cur);
    }
    forall q, d | q in t.procs && Holds(t.procs[q], d) ensures Holds(s.procs[q], d) && ReadAfter(t.procs[p], d) {
      assert PhaseOk(s, s.procs[q]);
    }
  }

  /** One more claim, of the value the row holds. */
  lemma ClaimsAppend(claims: seq<Stamp>, x: Stamp)
    requires ClaimsIncrease(claims) && forall c | c in claims && c.id == x.id :: c.at < x.at
    ensures ClaimsIncrease(claims + [x])
  {
    var more := claims + [x];
    forall i, j | 0 <= i < j < |more| && more[i].id == more[j].id ensures more[i].at < more[j].at {
      assert more[i] in claims;
    }
  }

  lemma NewClaim(s: State, t: State, x: Stamp, next: Option<int>)
    requires ClaimsOk(s) && x.id in s.rows && s.rows[x.id].nextRunAt == Some(x.at) && x.at <= s.clock
    requires s.rows[x.id].schedule.Once? ==> next.None?
    requires next.Some? ==> x.at < next.value
    requires t.clock == s.clock && t.claims == s.claims + [x] && t.rows == s.rows[x.id := s.rows[x.id].(nextRunAt := next)]
    ensures ClaimsOk(t)
  {
    forall i, j | 0 <= i < j < |t.claims| && t.claims[i].id == t.claims[j].id
      ensures t.claims[i].id in t.rows && !t.rows[t.claims[i].id].schedule.Once?
    {
      assert t.claims[i] in s.claims;
    }
  }

  lemma ClaimedClaims(s: State, p: Pid)
    requires Enabled(s, Claim(p)) && Inv(s) && ClaimSucceeds(s, s.procs[p])
    ensures ClaimsOk(Step(s, Claim(p))) && ClaimsIncrease(Step(s, Claim(p)).claims)
  {
    var ph := s.procs[p];
    assert PhaseOk(s, ph);
    NewClaim(s, Step(s, Claim(p)), StampOf(ph.cur), ph.next);
    ClaimsAppend(s.claims, StampOf(ph.cur));
  }

  lemma ClaimKeeps(s: State, p: Pid)
    requires Enabled(s, Claim(p)) && Inv(s)
    ensures Inv(Step(s, Claim(p)))
  {
    var t := Step(s, Claim(p));
    if ClaimSucceeds(s, s.procs[p]) {
      ClaimedClaims(s, p);
      ClaimedOrder(s, p);
      ClaimedOwnPhase(s, p);
      forall q | q in t.procs ensures PhaseOk(t, t.procs[q]) {
        if q != p {
          ClaimedPhase(s, p, q);
        }
      }
    } else {
      DropKeeps(s, t, p);
    }
  }

  // ---- bookkeeping

  lemma RecordedRead(s: State, p: Pid, d: Snapshot, now: int)
    requires Enabled(s, Record(p)) && PhaseOk(s, s.procs[p]) && !Revives(s, p) && ReadOk(s, d, now)
    ensures ReadOk(Step(s, Record(p)), d, now)
    ensures SnapOk(s, d, now) && ReadAfter(s.procs[p], d) ==> SnapOk(Step(s, Record(p)), d, now)
  {
  }

  lemma RecordedPending(s: State, p: Pid, q: Pid)
    requires Enabled(s, Record(p)) && Inv(s) && !Revives(s, p) && q in s.procs && q != p && s.procs[q].Recording?
    ensures PendingOk(Step(s, Record(p)), s.procs[q])
  {
    assert PhaseOk(s, s.procs[p]) && PhaseOk(s, s.procs[q]);
    assert InOrder(s.procs[p], s.procs[q]) && InOrder(s.procs[q], s.procs[p]);
  }

  lemma RecordedPhase(s: State, p: Pid, q: Pid)
    requires Enabled(s, Record(p)) && Inv(s) && !Revives(s, p) && q in s.procs
    ensures var t := Step(s, Record(p)); PhaseOk(t, t.procs[q])
  {
    var ph, t := s.procs[q], Step(s, Record(p));
    assert PhaseOk(s, ph) && PhaseOk(s, s.procs[p]);
    forall d | !ph.Idle? && d in ph.rest ensures SnapOk(t, d, ph.now) {
      assert Holds(ph, d);
      RecordedRead(s, p, d, ph.now);
    }
    if !ph.Idle? && !ph.Looping? {
      RecordedRead(s, p, ph.cur, ph.now);
      assert ph.Claiming? ==> Holds(ph, ph.cur);
    }
    if q != p && ph.Recording? {
      RecordedPending(s, p, q);
    }
  }

  lemma RecordedClaims(s: State, p: Pid)
    requires Enabled(s, Record(p)) && ClaimsOk(s) && PhaseOk(s, s.procs[p]) && !Revives(s, p)
    ensures ClaimsOk(Step(s, Record(p)))
  {
  }

  lemma RecordKeeps(s: State, p: Pid)
    requires Enabled(s, Record(p)) && Inv(s) && !Revives(s, p)
    ensures Inv(Step(s, Record(p)))
  {
    var t := Step(s, Record(p));
    RecordedClaims(s, p);
    forall q | q in t.procs ensures PhaseOk(t, t.procs[q]) {
      RecordedPhase(s, p, q);
    }
    MovedOrder(s, t, p);
  }

  lemma StepKeeps(s: State, a: Action)
    requires Enabled(s, a) && Inv(s)
    requires a.Record? ==> !Revives(s, a.p)
    ensures Inv(Step(s, a))
  {
    match a
    case Begin(_, _, _) => BeginKeeps(s, a);
    case Compute(p) => ComputeKeeps(s, p);
    case Claim(p) => ClaimKeeps(s, p);
    case Record(p) => RecordKeeps(s, p);
    case Advance(_) => AdvanceKeeps(s, a);
    case _ => DropKeeps(s, Step(s, a), a.p);
  }

  // ---- the results

  lemma {:induction false} RunKeeps(s: State, actions: seq<Action>)
    requires Initial(s) && Run(s, actions).Some? && NeverRevives(s, actions)
    ensures Inv(Run(s, actions).value)
  {
    if actions == [] {
      InitialInv(s);
    } else {
      RunKeeps(s, actions[..|actions| - 1]);
      StepKeeps(Run(s, actions[..|actions| - 1]).value, actions[|actions| - 1]);
    }
  }

  lemma RevivedIsClaimed(s: State, p: Pid)
    requires Inv(s) && Enabled(s, Record(p)) && Revives(s, p)
    ensures var ph := PhaseOf(s, p);
            && ph.next.Some? && Stamp(ph.cur.id, ph.next.value) in s.claims
            && Step(s, Record(p)).rows[ph.cur.id].nextRunAt == ph.next
            && !Step(s, Record(p)).rows[ph.cur.id].completed
  {
    assert PhaseOk(s, PhaseOf(s, p));
  }

  /** The condition is exact: after any run that revived nothing, a bookkeeping write leaves
      a claimed value in the row exactly when it is overtaken and does not complete the row. */
  lemma OvertakenWriteRevives(s: State, actions: seq<Action>, p: Pid)
    requires Initial(s) && Run(s, actions).Some? && NeverRevives(s, actions)
    requires Enabled(Run(s, actions).value, Record(p))
    ensures var t := Run(s, actions).value; Fresh(Step(t, Record(p))) <==> !Revives(t, p)
  {
    RunKeeps(s, actions);
    var t := Run(s, actions).value;
    if Revives(t, p) {
      RevivedIsClaimed(t, p);
    } else {
      RecordKeeps(t, p);
      InvIsFresh(Step(t, Record(p)));
    }
  }

  // ---- a run that claims one value twice

  lemma Extend(s: State, actions: seq<Action>, t: State, a: Action)
    requires Run(s, actions) == Some(t) && Enabled(t, a)
    ensures Run(s, actions + [a]) == Some(Step(t, a))
    ensures NeverRevives(s, actions) && (a.Record? ==> !Revives(t, a.p)) ==> NeverRevives(s, actions + [a])
  {
    assert (actions + [a])[..|actions|] == actions;
  }

  function TimeAfter(after: After): Option<int> {
    if after.At? then Some(after.time) else None
  }

  lemma ReadAndCompute(s: State, actions: seq<Action>, t: State, p: Pid, due: seq<Snapshot>) returns (longer: seq<Action>, u: State)
    requires Run(s, actions) == Some(t) && Enabled(t, Begin(p, t.clock, due)) && due != []
    requires !NextAfterRun(due[0].row.schedule, t.clock).Throws?
    ensures Run(s, longer) == Some(u) && actions <= longer && (NeverRevives(s, actions) ==> NeverRevives(s, longer))
    ensures var next := TimeAfter(NextAfterRun(due[0].row.schedule, t.clock));
            u == t.(procs := t.procs[p := Claiming(t.clock, due[0], next, due[1..], 0)])
  {
    var begin := Begin(p, t.clock, due);
    Extend(s, actions, t, begin);
    var t1 := Step(t, begin);
    Extend(s, actions + [begin], t1, Compute(p));
    longer, u := actions + [begin] + [Compute(p)], Step(t1, Compute(p));
    assert u.procs == t.procs[p := u.procs[p]];
  }

  /** A process that has read a row claims it, as long as the row holds the value. */
  lemma ClaimNext(s: State, actions: seq<Action>, t: State, p: Pid) returns (longer: seq<Action>, u: State)
    requires Run(s, actions) == Some(t) && Enabled(t, Claim(p)) && ClaimSucceeds(t, t.procs[p])
    ensures Run(s, longer) == Some(u) && actions <= longer && u.clock == t.clock && u.fires == t.fires
    ensures NeverRevives(s, actions) ==> NeverRevives(s, longer)
    ensures var ph := t.procs[p];
            && u.claims == t.claims + [StampOf(ph.cur)]
            && u.rows == t.rows[ph.cur.id := t.rows[ph.cur.id].(nextRunAt := ph.next)]
            && u.procs == t.procs[p := Recording(ph.now, ph.cur, ph.next, ph.rest, ph.fired)]
  {
    Extend(s, actions, t, Claim(p));
    longer, u := actions + [Claim(p)], Step(t, Claim(p));
  }

  /** An idle process that reads a due row first, and whose next time can be computed,
      claims the value the row holds -- whether or not it was claimed before. */
  lemma ReadAndClaim(s: State, actions: seq<Action>, t: State, p: Pid, due: seq<Snapshot>) returns (longer: seq<Action>, u: State)
    requires Run(s, actions) == Some(t) && Enabled(t, Begin(p, t.clock, due)) && due != []
    requires !NextAfterRun(due[0].row.schedule, t.clock).Throws?
    ensures Run(s, longer) == Some(u) && actions <= longer && u.clock == t.clock && u.fires == t.fires
    ensures NeverRevives(s, actions) ==> NeverRevives(s, longer)
    ensures u.claims == t.claims + [StampOf(due[0])]
    ensures var next := TimeAfter(NextAfterRun(due[0].row.schedule, t.clock));
            && u.rows == t.rows[due[0].id := due[0].row.(nextRunAt := next)]
            && u.procs == t.procs[p := Recording(t.clock, due[0], next, due[1..], 0)]
  {
    var next := TimeAfter(NextAfterRun(due[0].row.schedule, t.clock));
    var some, mid := ReadAndCompute(s, actions, t, p, due);
    assert due[0] in due;
    longer, u := ClaimNext(s, some, mid, p);
    assert u.procs == t.procs[p := Recording(t.clock, due[0], next, due[1..], 0)];
  }

  predicate Repeats(claims: seq<Stamp>) {
    exists i, j | 0 <= i < j < |claims| :: claims[i] == claims[j]
  }

  lemma AppendRepeats(claims: seq<Stamp>, x: Stamp)
    requires x in claims
    ensures Repeats(claims + [x])
  {
    var i :| 0 <= i < |claims| && claims[i] == x;
    assert (claims + [x])[i] == (claims + [x])[|claims|];
  }

  /** And any such write can be followed by a second claim of the value it put back: the row
      is due at once, so an idle process that ticks next claims it, if the row is enabled,
      comes first in the due list and has a next time. */
  lemma RevivedIsClaimedAgain(s: State, actions: seq<Action>, p: Pid, q: Pid, due: seq<Snapshot>) returns (longer: seq<Action>)
    requires Initial(s) && Run(s, actions).Some? && NeverRevives(s, actions)
    requires Enabled(Run(s, actions).value, Record(p)) && Revives(Run(s, actions).value, p)
    requires var t := Step(Run(s, actions).value, Record(p));
             var id := PhaseOf(Run(s, actions).value, p).cur.id;
             && id in t.rows && t.rows[id].enabled && PhaseOf(t, q).Idle?
             && IsDueList(t.rows, t.clock, due) && (due != [] ==> due[0].id == id)
             && !NextAfterRun(t.rows[id].schedule, t.clock).Throws?
    ensures Run(s, longer).Some? && actions + [Record(p)] <= longer
    ensures Repeats(Run(s, longer).value.claims)
  {
    RunKeeps(s, actions);
    var before := Run(s, actions).value;
    RevivedIsClaimed(before, p);
    var t := Step(before, Record(p));
    var ph := PhaseOf(before, p);
    assert IsDue(t.rows[ph.cur.id], t.clock);
    assert Snapshot(ph.cur.id, t.rows[ph.cur.id]) in due;
    Extend(s, actions, before, Record(p));
    var u;
    longer, u := ReadAndClaim(s, actions + [Record(p)], t, q, due);
    AppendRepeats(t.claims, StampOf(due[0]));
  }

  const AUTOMATION := 7

  function EveryMinute(nextRunAt: int): Row {
    Row(Every(1, Minute), None, true, false, 0, None, Some(nextRunAt))
  }

  /** The row as process 1 leaves it. */
  function Revived(): Row {
    EveryMinute(60000).(runCount := 1, lastRunAt := Some(0))
  }

  /** A store with the one automation. */
  function Single(row: Row, clock: int): State {
    State(clock, map[AUTOMATION := row], map[], [], [], [], [])
  }

  lemma SingleDue(row: Row, now: int)
    requires IsDue(row, now)
    ensures IsDueList(map[AUTOMATION := row], now, [Snapshot(AUTOMATION, row)])
  {
    assert Snapshot(AUTOMATION, row) in [Snapshot(AUTOMATION, row)];
  }

  /** Process 1 claims 0 and stalls until 60000. */
  lemma OneClaim() returns (actions: seq<Action>, t: State)
    ensures Run(Single(EveryMinute(0), 0), actions) == Some(t)
    ensures t.clock == 60000 && t.claims == [Stamp(AUTOMATION, 0)] && t.fires == []
    ensures t.rows == map[AUTOMATION := EveryMinute(60000)]
    ensures t.procs == map[1 := Recording(0, Snapshot(AUTOMATION, EveryMinute(0)), Some(60000), [], 0)]
  {
    var s, due := Single(EveryMinute(0), 0), [Snapshot(AUTOMATION, EveryMinute(0))];
    SingleDue(EveryMinute(0), 0);
    assert NextAfterRun(EveryMinute(0).schedule, 0) == At(60000) && due[1..] == [];
    actions, t := ReadAndClaim(s, [], s, 1, due);
    Extend(s, actions, t, Advance(60000));
    actions, t := actions + [Advance(60000)], Step(t, Advance(60000));
    assert t.rows == map[AUTOMATION := EveryMinute(60000)];
  }

  /** Process 2 then claims the new value. */
  lemma TwoClaims() returns (actions: seq<Action>, t: State)
    ensures Run(Single(EveryMinute(0), 0), actions) == Some(t)
    ensures t.clock == 60000 && t.claims == [Stamp(AUTOMATION, 0), Stamp(AUTOMATION, 60000)] && t.fires == []
    ensures t.rows == map[AUTOMATION := EveryMinute(120000)] && PhaseOf(t, 3).Idle?
    ensures PhaseOf(t, 1) == Recording(0, Snapshot(AUTOMATION, EveryMinute(0)), Some(60000), [], 0)
    ensures PhaseOf(t, 2) == Recording(60000, Snapshot(AUTOMATION, EveryMinute(60000)), Some(120000), [], 0)
  {
    var s, due := Single(EveryMinute(0), 0), [Snapshot(AUTOMATION, EveryMinute(60000))];
    actions, t := OneClaim();
    SingleDue(EveryMinute(60000), 60000);
    assert NextAfterRun(EveryMinute(60000).schedule, 60000) == At(120000) && due[1..] == [];
    actions, t := ReadAndClaim(s, actions, t, 2, due);
    assert t.rows == map[AUTOMATION := EveryMinute(120000)];
  }

  /** The late bookkeeping of process 1 then puts 60000 back, and process 3 claims it again. */
  lemma ThreeClaims() returns (actions: seq<Action>, t: State)
    ensures Run(Single(EveryMinute(0), 0), actions) == Some(t)
    ensures t.claims == [Stamp(AUTOMATION, 0), Stamp(AUTOMATION, 60000), Stamp(AUTOMATION, 60000)] && t.fires == []
    ensures PhaseOf(t, 2).Recording? && PhaseOf(t, 2).cur == Snapshot(AUTOMATION, EveryMinute(60000))
    ensures PhaseOf(t, 3).Recording? && PhaseOf(t, 3).cur == Snapshot(AUTOMATION, Revived())
  {
    var s := Single(EveryMinute(0), 0);
    actions, t := TwoClaims();
    Extend(s, actions, t, Record(1));
    actions, t := actions + [Record(1)], Step(t, Record(1));
    assert t.rows == map[AUTOMATION := Revived()];
    SingleDue(Revived(), 60000);
    actions, t := ReadAndClaim(s, actions, t, 3, [Snapshot(AUTOMATION, Revived())]);
  }

  /** A pending claim is recorded and fired. */
  lemma RecordAndFire(s: State, actions: seq<Action>, t: State, p: Pid) returns (longer: seq<Action>, u: State)
    requires Run(s, actions) == Some(t) && Enabled(t, Record(p))
    ensures Run(s, longer) == Some(u) && u.fires == t.fires + [StampOf(PhaseOf(t, p).cur)] && u.claims == t.claims
    ensures forall q | q != p :: PhaseOf(u, q) == PhaseOf(t, q)
  {
    Extend(s, actions, t, Record(p));
    var t1 := Step(t, Record(p));
    Extend(s, actions + [Record(p)], t1, Fire(p));
    longer, u := actions + [Record(p)] + [Fire(p)], Step(t1, Fire(p));
  }

  /** Processes 2 and 3 both fire the run of 60000. */
  lemma DoubleFire() returns (actions: seq<Action>)
    ensures var s := Single(EveryMinute(0), 0);
            && Initial(s) && Run(s, actions).Some?
            && Run(s, actions).value.claims == [Stamp(AUTOMATION, 0), Stamp(AUTOMATION, 60000), Stamp(AUTOMATION, 60000)]
            && Run(s, actions).value.fires == [Stamp(AUTOMATION, 60000), Stamp(AUTOMATION, 60000)]
  {
    var s := Single(EveryMinute(0), 0);
    var t;
    actions, t := ThreeClaims();
    actions, t := RecordAndFire(s, actions, t, 2);
    actions, t := RecordAndFire(s, actions, t, 3);
  }
}
