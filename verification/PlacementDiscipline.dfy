/** Routes and reservations under interleaving.  Leases alone do not keep them in step, because
    the code decides from reads made before it takes its lease and some of its writes happen
    after the lease is gone (PlacementRaces gives the runs).  This module states the discipline
    under which they do stay in step, step by step, and proves it enough for every run. */
module PlacementDiscipline {
  import opened Store
  import opened Placement
  import opened PlacementSafety

  // ---------------------------------------------------------------- the discipline

  /** The pre-lease read "not placed, nothing reserved" is still true. */
  ghost predicate Unplaced(st: State, s: StreamId) {
    s !in st.routes && !ReservedSomewhere(st.spec, s)
  }

  /** Nobody but `self` holds the stream's lease, and the stream is not routed. */
  predicate MayDelete(st: State, s: StreamId, self: Owner) {
    s !in st.routes && Holder(st.leases, st.now, s) in {None, Some(self)}
  }

  predicate MayWrite(st: State, o: Owner)
    requires o in st.attempts
  {
    Holder(st.leases, st.now, st.attempts[o].stream) == Some(o)
  }

  predicate DisciplinedAct(st: State, o: Owner, act: Act)
    requires o in st.attempts && CanAct(st, act, st.attempts[o].phase)
  {
    var a := st.attempts[o];
    match act
    case Reserve(_) => MayWrite(st, o)
    case Commit(raises) => MayWrite(st, o) && !raises
    case Rollback(_) => MayDelete(st, a.stream, o)
    case LateRollback => MayDelete(st, a.stream, o)
    case SweepDelete(_) => MayDelete(st, a.stream, o)
    case CleanDelete => MayDelete(st, a.stream, a.phase.cleaner)
    case _ => true
  }

  ghost predicate Disciplined(st: State, step: Step)
    requires Enabled(st, step)
  {
    match step
    case Acquire(_, s, _) => Holder(st.leases, st.now, s) == None ==> Unplaced(st, s)
    case By(o, act) => DisciplinedAct(st, o, act)
    case DropEntry(_, _) => false
    case DropRoute(_) => false
    case _ => true
  }

  ghost predicate DisciplinedRun(cfg: Config, st: State, steps: seq<Step>)
    requires Valid(cfg, st, steps)
    decreases steps
  {
    steps == [] || (Disciplined(st, steps[0]) && DisciplinedRun(cfg, Apply(cfg, st, steps[0]), steps[1..]))
  }

  // ---------------------------------------------------------------- the invariant

  /** A routed stream is reserved on the pod it is routed to, and no stream on two pods. */
  ghost predicate RoutesReserved(spec: WorkloadSpec, routes: Routes) {
    && (forall s :: s in routes ==> Reserved(spec, routes[s], s))
    && (forall s, p, q :: Reserved(spec, p, s) && Reserved(spec, q, s) ==> p == q)
  }

  /** The phases in which the holder's stream is unrouted. */
  predicate Unrouted(ph: Phase) {
    ph.Reserving? || Underway(ph) || ph.RollingBack? || ph.ReleasingFirst?
  }

  /** What the holder of a stream's lease may rely on. */
  ghost predicate HolderKnows(st: State, o: Owner)
    requires o in st.attempts
  {
    var a := st.attempts[o];
    && (Unrouted(a.phase) ==> a.stream !in st.routes)
    && (a.phase.Reserving? ==> !ReservedSomewhere(st.spec, a.stream))
    && (Underway(a.phase) ==> Reserved(st.spec, a.phase.pod, a.stream))
  }

  ghost predicate DisciplineInv(st: State) {
    && LeaseInv(st)
    && RoutesReserved(st.spec, st.routes)
    && (forall o :: o in st.attempts && MayWrite(st, o) ==> HolderKnows(st, o))
  }

  // ---------------------------------------------------------------- preservation

  /** Holders are the same before and after, except that the actor may have stopped being one. */
  ghost predicate NoNewHolder(st: State, st': State) {
    forall o :: o in st'.attempts && MayWrite(st', o) ==> o in st.attempts && MayWrite(st, o)
  }

  /** The new phase needs nothing the old one did not know. */
  predicate PhaseFollows(a: Attempt, a': Attempt) {
    && a'.stream == a.stream
    && (Unrouted(a'.phase) ==> Unrouted(a.phase))
    && (a'.phase.Reserving? ==> a.phase.Reserving?)
    && (Underway(a'.phase) ==> Underway(a.phase) && a'.phase.pod == a.phase.pod)
  }

  ghost predicate PhasesFollow(st: State, st': State) {
    forall o :: o in st.attempts && o in st'.attempts ==> PhaseFollows(st.attempts[o], st'.attempts[o])
  }

  /** Acts that change neither reservations nor routes. */
  predicate Quiet(act: Act) {
    !act.Reserve? && !act.Commit? && !Deletes(act)
  }

  predicate Deletes(act: Act) {
    act.Rollback? || act.LateRollback? || act.SweepDelete? || act.CleanDelete?
  }

  lemma QuietActPhases(cfg: Config, st: State, o: Owner, act: Act)
    requires o in st.attempts && CanAct(st, act, st.attempts[o].phase) && Quiet(act)
    ensures var st' := ApplyAct(cfg, st, o, act);
            st'.spec == st.spec && st'.routes == st.routes && PhasesFollow(st, st')
  {
    var st' := ApplyAct(cfg, st, o, act);
    assert PhaseFollows(st.attempts[o], st'.attempts[o]);
    forall o1 | o1 in st.attempts && o1 != o ensures PhaseFollows(st.attempts[o1], st.attempts[o1]) {
    }
  }

  lemma QuietActHolders(cfg: Config, st: State, o: Owner, act: Act)
    requires LeaseInv(st) && o in st.attempts && CanAct(st, act, st.attempts[o].phase) && Quiet(act)
    ensures NoNewHolder(st, ApplyAct(cfg, st, o, act))
  {
    match act
    case AbortTry(_) =>
    case Finish =>
    case CleanDone =>
    case Beat =>
    case _ => UnleasedActIsLeaseFree(cfg, st, o, act);
  }

  /** Neither reservations nor routes change: whoever holds still knows what it knew. */
  lemma QuietKnowledge(st: State, st': State)
    requires RoutesReserved(st.spec, st.routes)
    requires forall o :: o in st.attempts && MayWrite(st, o) ==> HolderKnows(st, o)
    requires st'.spec == st.spec && st'.routes == st.routes && NoNewHolder(st, st') && PhasesFollow(st, st')
    ensures RoutesReserved(st'.spec, st'.routes)
    ensures forall o :: o in st'.attempts && MayWrite(st', o) ==> HolderKnows(st', o)
  {
    forall o | o in st'.attempts && MayWrite(st', o) ensures HolderKnows(st', o) {
      assert HolderKnows(st, o) && PhaseFollows(st.attempts[o], st'.attempts[o]);
    }
  }

  lemma AcquireKeepsKnowledge(cfg: Config, st: State, step: Step)
    requires DisciplineInv(st) && Enabled(st, step) && Disciplined(st, step)
    requires step.Acquire? || step.AcquireSweep?
    ensures DisciplineInv(Apply(cfg, st, step))
  {
    var st' := Apply(cfg, st, step);
    StepKeepsLeaseInv(cfg, st, step);
    forall o | o in st'.attempts && MayWrite(st', o) ensures HolderKnows(st', o) {
      assert o != step.o ==> MayWrite(st, o) && HolderKnows(st, o);
    }
  }

  lemma ReserveKnowledge(cfg: Config, st: State, o: Owner, i: nat)
    requires DisciplineInv(st) && o in st.attempts && CanAct(st, Reserve(i), st.attempts[o].phase) && MayWrite(st, o)
    ensures var st' := ApplyAct(cfg, st, o, Reserve(i));
            && RoutesReserved(st'.spec, st'.routes)
            && forall o1 :: o1 in st'.attempts && MayWrite(st', o1) ==> HolderKnows(st', o1)
  {
    var st' := ApplyAct(cfg, st, o, Reserve(i));
    var (s, p) := (st.attempts[o].stream, st.attempts[o].phase.candidates[i]);
    assert HolderKnows(st, o);
    forall q, t ensures Reserved(st'.spec, q, t) ==> Reserved(st.spec, q, t) || (q == p && t == s) {
      ReserveAddsOneEntry(st.spec, p, s, cfg.threshold, q, t);
    }
    forall q, t | Reserved(st.spec, q, t) ensures Reserved(st'.spec, q, t) {
      ReserveAddsOneEntry(st.spec, p, s, cfg.threshold, q, t);
    }
    ReserveAddsOneEntry(st.spec, p, s, cfg.threshold, p, s);
    forall o1 | o1 in st'.attempts && MayWrite(st', o1) ensures HolderKnows(st', o1) {
      assert o1 != o ==> HolderKnows(st, o1) && st.attempts[o1].stream != s;
    }
  }

  lemma CommitKnowledge(cfg: Config, st: State, o: Owner)
    requires DisciplineInv(st) && o in st.attempts && st.attempts[o].phase.Committing? && MayWrite(st, o)
    ensures var st' := ApplyAct(cfg, st, o, Commit(false));
            && RoutesReserved(st'.spec, st'.routes)
            && forall o1 :: o1 in st'.attempts && MayWrite(st', o1) ==> HolderKnows(st', o1)
  {
    var st' := ApplyAct(cfg, st, o, Commit(false));
    assert HolderKnows(st, o);
    forall o1 | o1 in st'.attempts && MayWrite(st', o1) ensures HolderKnows(st', o1) {
      assert o1 != o ==> HolderKnows(st, o1) && st.attempts[o1].stream != st.attempts[o].stream;
    }
  }

  /** The entry a delete removes. */
  function Target(st: State, o: Owner, act: Act): Pod
    requires o in st.attempts && CanAct(st, act, st.attempts[o].phase) && Deletes(act)
  {
    if act.SweepDelete? then act.p else st.attempts[o].phase.pod
  }

  ghost predicate DeleteShape(st: State, st': State, o: Owner, act: Act)
    requires o in st.attempts && CanAct(st, act, st.attempts[o].phase) && Deletes(act)
  {
    && st'.spec == DeleteEntry(st.spec, Target(st, o, act), st.attempts[o].stream)
    && st'.routes == st.routes && st'.leases == st.leases && st'.now == st.now
    && o in st'.attempts && st'.attempts == st.attempts[o := st'.attempts[o]]
    && PhaseFollows(st.attempts[o], st'.attempts[o])
    && !Underway(st'.attempts[o].phase)
  }

  lemma DeleteHasShape(cfg: Config, st: State, o: Owner, act: Act)
    requires o in st.attempts && CanAct(st, act, st.attempts[o].phase) && Deletes(act)
    ensures DeleteShape(st, ApplyAct(cfg, st, o, act), o, act)
  {
  }

  /** Every delete by an attempt: the stream is unrouted and no attempt that still counts on
      its reservation holds the lease. */
  lemma DeleteKnowledge(st: State, st': State, o: Owner, act: Act)
    requires DisciplineInv(st) && o in st.attempts && CanAct(st, act, st.attempts[o].phase) && Deletes(act)
    requires DisciplinedAct(st, o, act) && DeleteShape(st, st', o, act)
    ensures RoutesReserved(st'.spec, st'.routes)
    ensures forall o1 :: o1 in st'.attempts && MayWrite(st', o1) ==> HolderKnows(st', o1)
  {
    var s := st.attempts[o].stream;
    var p := Target(st, o, act);
    forall q, t ensures Reserved(st'.spec, q, t) <==> Reserved(st.spec, q, t) && !(q == p && t == s) {
      DeleteRemovesOneEntry(st.spec, p, s, q, t);
    }
    forall o1 | o1 in st'.attempts && MayWrite(st', o1) ensures HolderKnows(st', o1) {
      assert HolderKnows(st, o1) && AttemptInv(st, o);
    }
  }

  lemma ActKeepsDiscipline(cfg: Config, st: State, o: Owner, act: Act)
    requires DisciplineInv(st) && o in st.attempts && CanAct(st, act, st.attempts[o].phase)
    requires DisciplinedAct(st, o, act)
    ensures DisciplineInv(ApplyAct(cfg, st, o, act))
  {
    var st' := ApplyAct(cfg, st, o, act);
    ActKeepsLeaseInv(cfg, st, o, act);
    if act.Reserve? {
      ReserveKnowledge(cfg, st, o, act.choice);
    } else if act.Commit? {
      CommitKnowledge(cfg, st, o);
    } else if Deletes(act) {
      DeleteHasShape(cfg, st, o, act);
      DeleteKnowledge(st, st', o, act);
    } else {
      QuietActPhases(cfg, st, o, act);
      QuietActHolders(cfg, st, o, act);
      QuietKnowledge(st, st');
    }
  }

  lemma DeprovisionKeepsKnowledge(cfg: Config, st: State, s: StreamId)
    requires DisciplineInv(st) && Enabled(st, Deprovision(s))
    ensures DisciplineInv(Apply(cfg, st, Deprovision(s)))
  {
    var st' := Apply(cfg, st, Deprovision(s));
    StepKeepsLeaseInv(cfg, st, Deprovision(s));
    forall q, t ensures Reserved(st'.spec, q, t) <==> Reserved(st.spec, q, t) && !(q == st.routes[s] && t == s) {
      DeleteRemovesOneEntry(st.spec, st.routes[s], s, q, t);
    }
    forall o | o in st'.attempts && MayWrite(st', o) ensures HolderKnows(st', o) {
      assert HolderKnows(st, o);
    }
  }

  lemma TickKeepsDiscipline(cfg: Config, st: State, d: nat)
    requires DisciplineInv(st)
    ensures DisciplineInv(Apply(cfg, st, Tick(d)))
  {
    StepKeepsLeaseInv(cfg, st, Tick(d));
    QuietKnowledge(st, Apply(cfg, st, Tick(d)));
  }

  lemma StepKeepsDiscipline(cfg: Config, st: State, step: Step)
    requires DisciplineInv(st) && Enabled(st, step) && Disciplined(st, step)
    ensures DisciplineInv(Apply(cfg, st, step))
  {
    match step
    case Tick(d) => TickKeepsDiscipline(cfg, st, d);
    case Acquire(_, _, _) => AcquireKeepsKnowledge(cfg, st, step);
    case AcquireSweep(_, _, _) => AcquireKeepsKnowledge(cfg, st, step);
    case By(o, act) => ActKeepsDiscipline(cfg, st, o, act);
    case Deprovision(s) => DeprovisionKeepsKnowledge(cfg, st, s);
  }

  lemma {:induction false} RunKeepsDiscipline(cfg: Config, st: State, steps: seq<Step>)
    requires DisciplineInv(st) && Valid(cfg, st, steps) && DisciplinedRun(cfg, st, steps)
    ensures DisciplineInv(Run(cfg, st, steps))
    decreases steps
  {
    if steps != [] {
      StepKeepsDiscipline(cfg, st, steps[0]);
      RunKeepsDiscipline(cfg, Apply(cfg, st, steps[0]), steps[1..]);
    }
  }

  // ---------------------------------------------------------------- the theorems

  /** In every disciplined interleaving of any number of replicas, each routed stream holds
      exactly one reservation, on the pod it is routed to, and no stream holds two. */
  lemma RoutedExactlyOnce(cfg: Config, steps: seq<Step>, s: StreamId, p: Pod)
    requires Valid(cfg, INIT, steps) && DisciplinedRun(cfg, INIT, steps)
    ensures var st := Run(cfg, INIT, steps);
            && (s in st.routes ==> (Reserved(st.spec, p, s) <==> p == st.routes[s]))
            && (forall q :: Reserved(st.spec, p, s) && Reserved(st.spec, q, s) ==> p == q)
  {
    RunKeepsDiscipline(cfg, INIT, steps);
  }

  /** Distinct members of a list are no more than its length. */
  lemma {:induction false} MembersFit(members: set<StreamId>, xs: seq<StreamId>)
    requires forall s :: s in members ==> s in xs
    ensures |members| <= |xs|
    decreases xs
  {
    if xs != [] {
      MembersFit(members - {xs[0]}, xs[1..]);
    } else {
      assert members == {};
    }
  }

  /** So the traffic routed to a pod, not only its reservations, stays within the threshold. */
  lemma RoutedLoadWithinThreshold(cfg: Config, steps: seq<Step>, p: Pod)
    requires Valid(cfg, INIT, steps) && DisciplinedRun(cfg, INIT, steps)
    ensures var st := Run(cfg, INIT, steps);
            |set s | s in st.routes && st.routes[s] == p| <= cfg.threshold
  {
    var st := Run(cfg, INIT, steps);
    RunKeepsDiscipline(cfg, INIT, steps);
    CapacitySafety(cfg, INIT, steps);
    MembersFit((set s | s in st.routes && st.routes[s] == p), Streams(st.spec, p));
  }
}
