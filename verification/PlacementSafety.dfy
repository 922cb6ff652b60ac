/** What holds over every interleaving of attempts, heartbeats, cleanups and deletes, with no
    assumption about timing, freshness of reads or fairness. */
module PlacementSafety {
  import opened Store
  import opened Placement

  // ---------------------------------------------------------------- capacity

  /** A step changes the reservations by at most one atomic reserve or delete. */
  ghost predicate SpecEffect(cfg: Config, before: WorkloadSpec, after: WorkloadSpec) {
    || after == before
    || (exists p, s :: after == TryReserve(before, p, s, cfg.threshold).1)
    || (exists p, s :: after == DeleteEntry(before, p, s))
  }

  lemma ActSpecEffect(cfg: Config, st: State, o: Owner, act: Act)
    requires o in st.attempts && CanAct(st, act, st.attempts[o].phase)
    ensures SpecEffect(cfg, st.spec, ApplyAct(cfg, st, o, act).spec)
  {
  }

  lemma StepSpecEffect(cfg: Config, st: State, step: Step)
    requires Enabled(st, step)
    ensures SpecEffect(cfg, st.spec, Apply(cfg, st, step).spec)
  {
    if step.By? {
      ActSpecEffect(cfg, st, step.o, step.act);
    }
  }

  lemma EffectKeepsCapacity(cfg: Config, before: WorkloadSpec, after: WorkloadSpec)
    requires WithinCapacity(before, cfg.threshold) && SpecEffect(cfg, before, after)
    ensures WithinCapacity(after, cfg.threshold)
  {
  }

  lemma StepKeepsCapacity(cfg: Config, st: State, step: Step)
    requires WithinCapacity(st.spec, cfg.threshold) && Enabled(st, step)
    ensures WithinCapacity(Apply(cfg, st, step).spec, cfg.threshold)
  {
    StepSpecEffect(cfg, st, step);
    EffectKeepsCapacity(cfg, st.spec, Apply(cfg, st, step).spec);
  }

  /** Capacity safety: whatever the replicas do, in whatever order, and however stale the
      snapshots they chose pods from, no pod holds more streams than the threshold and no pod
      holds a stream twice. */
  lemma {:induction false} CapacitySafety(cfg: Config, st: State, steps: seq<Step>)
    requires WithinCapacity(st.spec, cfg.threshold) && Valid(cfg, st, steps)
    ensures WithinCapacity(Run(cfg, st, steps).spec, cfg.threshold)
    decreases steps
  {
    if steps != [] {
      StepKeepsCapacity(cfg, st, steps[0]);
      CapacitySafety(cfg, Apply(cfg, st, steps[0]), steps[1..]);
    }
  }

  // ---------------------------------------------------------------- leases

  /** The attempt has taken its lease and not yet released it. */
  predicate Leasing(ph: Phase) {
    !ph.RollingBackLate? && !ph.Done?
  }

  /** The lease the attempt last took or renewed has not run out, by the store's clock. */
  predicate Unexpired(st: State, o: Owner)
    requires o in st.attempts
  {
    Leasing(st.attempts[o].phase) && st.now < st.attempts[o].until
  }

  predicate CleanupUnexpired(st: State, o: Owner)
    requires o in st.attempts
  {
    st.attempts[o].phase.Cleaning? && st.now < st.attempts[o].phase.cleanUntil
  }

  predicate Owns(st: State, s: StreamId, o: Owner, until: nat) {
    s in st.leases && st.leases[s] == Lease(o, until)
  }

  ghost predicate AttemptInv(st: State, o: Owner)
    requires o in st.attempts
  {
    var a := st.attempts[o];
    && (Unexpired(st, o) ==> Owns(st, a.stream, o, a.until))
    && (a.phase.Cleaning? ==> a.phase.cleaner in st.cleaners)
    && (CleanupUnexpired(st, o) ==> Owns(st, a.stream, a.phase.cleaner, a.phase.cleanUntil))
  }

  predicate SameCleaner(st: State, o: Owner, o': Owner)
    requires o in st.attempts && o' in st.attempts
  {
    var (ph, ph') := (st.attempts[o].phase, st.attempts[o'].phase);
    ph.Cleaning? && ph'.Cleaning? && ph.cleaner == ph'.cleaner
  }

  /** A lease key belongs to an attempt on that stream, with the attempt's own end time, or to a
      cleanup owner; a released attempt leaves no live key behind. */
  predicate OwnerKnown(st: State, s: StreamId)
    requires s in st.leases
  {
    var lease := st.leases[s];
    if lease.owner in st.attempts then
      var a := st.attempts[lease.owner];
      a.stream == s && a.until == lease.expiry && (Leasing(a.phase) || lease.expiry <= st.now)
    else lease.owner in st.cleaners
  }

  ghost predicate LeaseInv(st: State) {
    && st.attempts.Keys !! st.cleaners
    && (forall s :: s in st.leases ==> OwnerKnown(st, s))
    && (forall o :: o in st.attempts ==> AttemptInv(st, o))
    && (forall o, o' :: o in st.attempts && o' in st.attempts && SameCleaner(st, o, o') ==> o == o')
  }

  /** `o` moves on without touching any lease. */
  ghost predicate LeaseFree(st: State, st': State, o: Owner) {
    && o in st.attempts && o in st'.attempts
    && st'.attempts == st.attempts[o := st'.attempts[o]]
    && st'.now == st.now && st'.leases == st.leases && st'.cleaners == st.cleaners
    && var (a, a') := (st.attempts[o], st'.attempts[o]);
       && a'.stream == a.stream && a'.until == a.until
       && (Leasing(a'.phase) <==> Leasing(a.phase))
       && (a'.phase.Cleaning? ==> a'.phase == a.phase)
  }

  /** Lease commands. */
  predicate Leased(act: Act) {
    act.AbortTry? || act.Finish? || act.CleanDone? || act.Beat?
  }

  lemma UnleasedActIsLeaseFree(cfg: Config, st: State, o: Owner, act: Act)
    requires o in st.attempts && CanAct(st, act, st.attempts[o].phase) && !Leased(act)
    ensures LeaseFree(st, ApplyAct(cfg, st, o, act), o)
  {
  }

  lemma MoveKeepsLeaseInv(st: State, st': State, o: Owner)
    requires LeaseInv(st) && LeaseFree(st, st', o)
    ensures LeaseInv(st')
  {
    forall o1 | o1 in st'.attempts ensures AttemptInv(st', o1) {
      assert AttemptInv(st, o1);
    }
  }

  lemma TickKeepsLeaseInv(cfg: Config, st: State, d: nat)
    requires LeaseInv(st)
    ensures LeaseInv(Apply(cfg, st, Tick(d)))
  {
    var st' := st.(now := st.now + d);
    forall o | o in st'.attempts ensures AttemptInv(st', o) {
      assert AttemptInv(st, o);
    }
  }

  lemma AcquireKeepsLeaseInv(cfg: Config, st: State, o: Owner, s: StreamId, ph: Phase)
    requires LeaseInv(st) && Fresh(st, o) && (ph.Reserving? || ph.Sweeping?)
    ensures LeaseInv(ApplyAcquire(cfg, st, o, s, ph))
  {
    var st' := ApplyAcquire(cfg, st, o, s, ph);
    forall o1 | o1 in st'.attempts ensures AttemptInv(st', o1) {
      assert o1 != o ==> AttemptInv(st, o1);
    }
  }

  lemma CleanupKeepsLeaseInv(cfg: Config, st: State, o: Owner, c: Owner)
    requires LeaseInv(st) && Enabled(st, By(o, AbortTry(c)))
    ensures LeaseInv(Apply(cfg, st, By(o, AbortTry(c))))
  {
    var st' := ApplyAct(cfg, st, o, AbortTry(c));
    if Holder(st.leases, st.now, st.attempts[o].stream) == None {
      CleanupGranted(st, st', o, c, st.now + cfg.ttl);
    } else {
      MoveKeepsLeaseInv(st, st', o);
    }
  }

  /** A fresh cleanup owner takes a lease nobody holds. */
  lemma CleanupGranted(st: State, st': State, o: Owner, c: Owner, until: nat)
    requires LeaseInv(st) && o in st.attempts && Leasing(st.attempts[o].phase) && st.attempts[o].phase.Aborting?
    requires Fresh(st, c) && Holder(st.leases, st.now, st.attempts[o].stream) == None
    requires st'.now == st.now && st'.cleaners == st.cleaners + {c}
    requires st'.leases == st.leases[st.attempts[o].stream := Lease(c, until)]
    requires st'.attempts == st.attempts[o := st.attempts[o].(phase := Cleaning(st.attempts[o].phase.pod, c, until))]
    ensures LeaseInv(st')
  {
    forall o1 | o1 in st'.attempts ensures AttemptInv(st', o1) {
      assert AttemptInv(st, o1);
    }
    forall s | s in st'.leases ensures OwnerKnown(st', s) {
      assert s != st.attempts[o].stream ==> OwnerKnown(st, s);
    }
  }

  /** Release by the attempt itself. */
  lemma FinishKeepsLeaseInv(cfg: Config, st: State, o: Owner)
    requires LeaseInv(st) && Enabled(st, By(o, Finish))
    ensures LeaseInv(ApplyAct(cfg, st, o, Finish))
  {
    var st' := ApplyAct(cfg, st, o, Finish);
    forall o1 | o1 in st'.attempts ensures AttemptInv(st', o1) {
      assert AttemptInv(st, o1);
    }
  }

  /** Release by its cleanup owner. */
  lemma CleanDoneKeepsLeaseInv(cfg: Config, st: State, o: Owner)
    requires LeaseInv(st) && Enabled(st, By(o, CleanDone))
    ensures LeaseInv(ApplyAct(cfg, st, o, CleanDone))
  {
    var st' := ApplyAct(cfg, st, o, CleanDone);
    forall o1 | o1 in st'.attempts ensures AttemptInv(st', o1) {
      assert AttemptInv(st, o1);
      assert o1 != o ==> !SameCleaner(st, o, o1);
    }
  }

  /** The heartbeat of the holder moves both end times together. */
  lemma RenewedLeaseInv(st: State, st': State, o: Owner, until: nat)
    requires LeaseInv(st) && o in st.attempts && Holder(st.leases, st.now, st.attempts[o].stream) == Some(o)
    requires st'.now == st.now && st'.cleaners == st.cleaners
    requires st'.leases == st.leases[st.attempts[o].stream := Lease(o, until)]
    requires st'.attempts == st.attempts[o := st.attempts[o].(until := until)]
    ensures LeaseInv(st')
  {
    forall o1 | o1 in st'.attempts ensures AttemptInv(st', o1) {
      assert AttemptInv(st, o1);
    }
    forall s | s in st'.leases ensures OwnerKnown(st', s) {
      assert OwnerKnown(st, s);
    }
  }

  lemma BeatKeepsLeaseInv(cfg: Config, st: State, o: Owner)
    requires LeaseInv(st) && o in st.attempts && CanAct(st, Beat, st.attempts[o].phase)
    ensures LeaseInv(ApplyAct(cfg, st, o, Beat))
  {
    var st' := ApplyAct(cfg, st, o, Beat);
    if Holder(st.leases, st.now, st.attempts[o].stream) == Some(o) {
      RenewedLeaseInv(st, st', o, st.now + cfg.ttl);
    } else {
      MoveKeepsLeaseInv(st, st', o);
    }
  }

  lemma ActKeepsLeaseInv(cfg: Config, st: State, o: Owner, act: Act)
    requires LeaseInv(st) && Enabled(st, By(o, act))
    ensures LeaseInv(Apply(cfg, st, By(o, act)))
  {
    match act
    case AbortTry(c) => CleanupKeepsLeaseInv(cfg, st, o, c);
    case Finish => FinishKeepsLeaseInv(cfg, st, o);
    case CleanDone => CleanDoneKeepsLeaseInv(cfg, st, o);
    case Beat => BeatKeepsLeaseInv(cfg, st, o);
    case _ =>
      UnleasedActIsLeaseFree(cfg, st, o, act);
      MoveKeepsLeaseInv(st, ApplyAct(cfg, st, o, act), o);
  }

  lemma StepKeepsLeaseInv(cfg: Config, st: State, step: Step)
    requires LeaseInv(st) && Enabled(st, step)
    ensures LeaseInv(Apply(cfg, st, step))
  {
    match step
    case Tick(d) => TickKeepsLeaseInv(cfg, st, d);
    case Acquire(o, s, cands) => AcquireKeepsLeaseInv(cfg, st, o, s, Reserving(cands));
    case AcquireSweep(o, s, pods) => AcquireKeepsLeaseInv(cfg, st, o, s, Sweeping(pods));
    case By(o, act) => ActKeepsLeaseInv(cfg, st, o, act);
    case Deprovision(_) => KeysOnly(st, Apply(cfg, st, step));
    case DropEntry(_, _) => KeysOnly(st, Apply(cfg, st, step));
    case DropRoute(_) => KeysOnly(st, Apply(cfg, st, step));
  }

  /** The delete handler takes no lease and owns no attempt. */
  lemma KeysOnly(st: State, st': State)
    requires LeaseInv(st) && st'.attempts == st.attempts && st'.leases == st.leases
    requires st'.now == st.now && st'.cleaners == st.cleaners
    ensures LeaseInv(st')
  {
    forall o | o in st'.attempts ensures AttemptInv(st', o) {
      assert AttemptInv(st, o);
    }
  }

  lemma {:induction false} RunKeepsLeaseInv(cfg: Config, st: State, steps: seq<Step>)
    requires LeaseInv(st) && Valid(cfg, st, steps)
    ensures LeaseInv(Run(cfg, st, steps))
    decreases steps
  {
    if steps != [] {
      StepKeepsLeaseInv(cfg, st, steps[0]);
      RunKeepsLeaseInv(cfg, Apply(cfg, st, steps[0]), steps[1..]);
    }
  }

  /** Lease exclusion: two attempts on one stream are both between acquire and release only if
      the lease of one of them has run out; and an attempt whose lease has not run out is the
      holder the store reports. */
  lemma LeaseExclusion(cfg: Config, steps: seq<Step>, o: Owner, o': Owner)
    requires Valid(cfg, INIT, steps)
    requires o in Run(cfg, INIT, steps).attempts && o' in Run(cfg, INIT, steps).attempts && o != o'
    requires Run(cfg, INIT, steps).attempts[o].stream == Run(cfg, INIT, steps).attempts[o'].stream
    ensures var st := Run(cfg, INIT, steps);
            && (!Unexpired(st, o) || !Unexpired(st, o'))
            && (Unexpired(st, o) <==> Holder(st.leases, st.now, st.attempts[o].stream) == Some(o))
            && (Unexpired(st, o) ==> !CleanupUnexpired(st, o'))
            && (CleanupUnexpired(st, o) ==> !CleanupUnexpired(st, o'))
  {
    RunKeepsLeaseInv(cfg, INIT, steps);
  }

  // ---------------------------------------------------------------- the lease-lost flag

  /** The last flag check is still ahead of the attempt. */
  predicate BeforeLastCheck(ph: Phase) {
    ph.Holding? || ph.Waiting? || ph.Starting? || ph.Calling? || ph.Called? || ph.Answered? || ph.Accepted?
  }

  /** The attempt has a reservation and has not yet turned to a commit or a rollback. */
  predicate Underway(ph: Phase) {
    BeforeLastCheck(ph) || ph.Committing?
  }

  /** Stopped by the flag, or already past the point where a route is written. */
  predicate NeverCommits(a: Attempt) {
    if Underway(a.phase) then a.lost && !a.phase.Committing? else !a.phase.Reserving?
  }

  lemma ActKeepsNeverCommits(cfg: Config, st: State, act: Act, o: Owner)
    requires o in st.attempts && NeverCommits(st.attempts[o]) && CanAct(st, act, st.attempts[o].phase)
    ensures o in ApplyAct(cfg, st, o, act).attempts && NeverCommits(ApplyAct(cfg, st, o, act).attempts[o])
    ensures !act.Commit?
  {
    hide TryReserve, TryAcquire, Renew, Release, DeleteEntry;
  }

  lemma ActLeavesOthers(cfg: Config, st: State, act: Act, o: Owner, o': Owner)
    requires o in st.attempts && CanAct(st, act, st.attempts[o].phase) && o' in st.attempts && o' != o
    ensures o' in ApplyAct(cfg, st, o, act).attempts
    ensures ApplyAct(cfg, st, o, act).attempts[o'] == st.attempts[o']
  {
    hide TryReserve, TryAcquire, Renew, Release, DeleteEntry;
  }

  lemma StepKeepsNeverCommits(cfg: Config, st: State, step: Step, o: Owner)
    requires o in st.attempts && NeverCommits(st.attempts[o]) && Enabled(st, step)
    ensures o in Apply(cfg, st, step).attempts && NeverCommits(Apply(cfg, st, step).attempts[o])
    ensures !(step.By? && step.o == o && step.act.Commit?)
  {
    if step.By? {
      if step.o == o {
        ActKeepsNeverCommits(cfg, st, step.act, o);
      } else {
        ActLeavesOthers(cfg, st, step.act, step.o, o);
      }
    }
  }

  /** Once the flag is set before the last check, no continuation of the run, under any
      interleaving, contains a route commit by that attempt. */
  lemma {:induction false} LostNeverCommits(cfg: Config, st: State, steps: seq<Step>, o: Owner, i: nat)
    requires o in st.attempts && NeverCommits(st.attempts[o])
    requires Valid(cfg, st, steps) && i < |steps|
    ensures !(steps[i].By? && steps[i].o == o && steps[i].act.Commit?)
    decreases steps
  {
    StepKeepsNeverCommits(cfg, st, steps[0], o);
    if i > 0 {
      LostNeverCommits(cfg, Apply(cfg, st, steps[0]), steps[1..], o, i - 1);
    }
  }

  /** The steps left to a commit when nothing goes wrong. */
  function Distance(ph: Phase): nat {
    match ph
    case Holding(_) => 7 case Waiting(_) => 6 case Starting(_) => 5 case Calling(_) => 4
    case Called(_) => 3 case Answered(_) => 2 case Accepted(_) => 1 case _ => 0
  }

  function NextTowardsCommit(ph: Phase): Act {
    match ph
    case Holding(_) => BeatStarts case Waiting(_) => StartWorker case Calling(_) => PodAnswers
    case Answered(_) => Judge(true) case Committing(_) => Commit(false) case _ => Check
  }

  /** Conversely an attempt the flag has not stopped can still commit. */
  lemma {:induction false} UnflaggedCanCommit(cfg: Config, st: State, o: Owner) returns (steps: seq<Step>)
    requires o in st.attempts && Underway(st.attempts[o].phase) && !NeverCommits(st.attempts[o])
    ensures steps != [] && Valid(cfg, st, steps) && steps[|steps| - 1] == By(o, Commit(false))
    decreases Distance(st.attempts[o].phase)
  {
    var step := By(o, NextTowardsCommit(st.attempts[o].phase));
    var st' := Apply(cfg, st, step);
    if st.attempts[o].phase.Committing? {
      steps := [step];
      assert Valid(cfg, st', []);
    } else {
      var rest := UnflaggedCanCommit(cfg, st', o);
      steps := [step] + rest;
      assert steps[1..] == rest;
    }
  }

  // ---------------------------------------------------------------- abort after lease loss

  ghost predicate AbortIsSafe(cfg: Config, st: State, o: Owner, act: Act)
    requires o in st.attempts && CanAct(st, act, st.attempts[o].phase)
  {
    var st' := ApplyAct(cfg, st, o, act);
    var a := st.attempts[o];
    && st'.routes == st.routes
    && (st'.spec != st.spec ==> act == CleanDelete)
    && (act == CleanDelete && CleanupUnexpired(st, o) ==>
          && Holder(st.leases, st.now, a.stream) == Some(a.phase.cleaner) && a.phase.cleaner !in st.attempts
          && forall o' :: o' in st.attempts && st.attempts[o'].stream == a.stream ==> !Unexpired(st, o'))
    && (act.AbortTry? && Holder(st.leases, st.now, a.stream) != None ==>
          st'.spec == st.spec && st'.leases == st.leases && st'.attempts[o].phase == Finishing)
  }

  lemma AbortActIsSafe(cfg: Config, st: State, o: Owner, act: Act)
    requires LeaseInv(st) && o in st.attempts && CanAct(st, act, st.attempts[o].phase)
    requires st.attempts[o].phase.Aborting? || st.attempts[o].phase.Cleaning?
    ensures AbortIsSafe(cfg, st, o, act)
  {
    assert AttemptInv(st, o);
    if act == CleanDelete && CleanupUnexpired(st, o) {
      forall o' | o' in st.attempts && st.attempts[o'].stream == st.attempts[o].stream
        ensures !Unexpired(st, o')
      {
        assert AttemptInv(st, o');
      }
    }
  }

  /** In every reachable state, while aborting, an attempt changes the store only through its
      cleanup: it deletes under a cleanup owner of its own, and as long as that cleanup lease
      runs no attempt on the stream holds one.  When anybody holds the stream's lease at the
      time the abort asks, the abort changes neither reservations nor routes nor leases. */
  lemma AbortSparesReplacement(cfg: Config, steps: seq<Step>, o: Owner, act: Act)
    requires Valid(cfg, INIT, steps) && Enabled(Run(cfg, INIT, steps), By(o, act))
    requires var ph := Run(cfg, INIT, steps).attempts[o].phase; ph.Aborting? || ph.Cleaning?
    ensures AbortIsSafe(cfg, Run(cfg, INIT, steps), o, act)
  {
    RunKeepsLeaseInv(cfg, INIT, steps);
    AbortActIsSafe(cfg, Run(cfg, INIT, steps), o, act);
  }
}
