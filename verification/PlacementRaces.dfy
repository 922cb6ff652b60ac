/** Runs that break the agreement between routes and reservations.  Each lists exactly the steps
    it takes outside the discipline, one hazard of the code at a time. */
module PlacementRaces {
  import opened Store
  import opened Placement
  import opened PlacementSafety
  import opened PlacementDiscipline

  ghost function Lapse(st: State, step: Step): seq<Step>
    requires Enabled(st, step)
  {
    if Disciplined(st, step) then [] else [step]
  }

  /** The steps of a run that break the discipline, in order. */
  ghost function Lapses(cfg: Config, st: State, steps: seq<Step>): seq<Step>
    requires Valid(cfg, st, steps)
    decreases steps
  {
    if steps == [] then [] else Lapse(st, steps[0]) + Lapses(cfg, Apply(cfg, st, steps[0]), steps[1..])
  }

  /** A run is a first step followed by a run. */
  lemma RunCons(cfg: Config, st: State, step: Step, rest: seq<Step>)
    requires Enabled(st, step) && Valid(cfg, Apply(cfg, st, step), rest)
    ensures Valid(cfg, st, [step] + rest)
    ensures Run(cfg, st, [step] + rest) == Run(cfg, Apply(cfg, st, step), rest)
    ensures Lapses(cfg, st, [step] + rest) == Lapse(st, step) + Lapses(cfg, Apply(cfg, st, step), rest)
  {
    var steps := [step] + rest;
    assert steps[0] == step && steps[1..] == rest;
  }

  lemma {:induction false} LapsesConcat(cfg: Config, st: State, xs: seq<Step>, ys: seq<Step>)
    requires Valid(cfg, st, xs) && Valid(cfg, Run(cfg, st, xs), ys)
    ensures Valid(cfg, st, xs + ys)
    ensures Lapses(cfg, st, xs + ys) == Lapses(cfg, st, xs) + Lapses(cfg, Run(cfg, st, xs), ys)
    decreases xs
  {
    if xs == [] {
      assert xs + ys == ys;
    } else {
      LapsesConcat(cfg, Apply(cfg, st, xs[0]), xs[1..], ys);
      RunCons(cfg, st, xs[0], xs[1..] + ys);
      assert xs + ys == [xs[0]] + (xs[1..] + ys);
    }
  }

  /** One more step at the end of a run from the initial state. */
  lemma Then(cfg: Config, steps: seq<Step>, step: Step) returns (longer: seq<Step>)
    requires Valid(cfg, INIT, steps) && Enabled(Run(cfg, INIT, steps), step)
    ensures longer == steps + [step] && Valid(cfg, INIT, longer)
    ensures Run(cfg, INIT, longer) == Apply(cfg, Run(cfg, INIT, steps), step)
    ensures Lapses(cfg, INIT, longer) == Lapses(cfg, INIT, steps) + Lapse(Run(cfg, INIT, steps), step)
  {
    var st := Run(cfg, INIT, steps);
    longer := steps + [step];
    RunCons(cfg, st, step, []);
    assert [step] + [] == [step];
    RunConcat(cfg, INIT, steps, [step]);
    LapsesConcat(cfg, INIT, steps, [step]);
  }

  // ---------------------------------------------------------------- an undisturbed placement

  function PathToDone(o: Owner, ph: Phase): seq<Step>
    requires Underway(ph)
    decreases Distance(ph)
  {
    var step := By(o, NextTowardsCommit(ph));
    match ph
    case Holding(p) => [step] + PathToDone(o, Waiting(p))
    case Waiting(p) => [step] + PathToDone(o, Starting(p))
    case Starting(p) => [step] + PathToDone(o, Calling(p))
    case Calling(p) => [step] + PathToDone(o, Called(p))
    case Called(p) => [step] + PathToDone(o, Answered(p))
    case Answered(p) => [step] + PathToDone(o, Accepted(p))
    case Accepted(p) => [step] + PathToDone(o, Committing(p))
    case Committing(p) => [By(o, Commit(false)), By(o, Finish)]
  }

  /** The store after attempt `o` routed `s` to `p` and released. */
  function Placed(st: State, o: Owner, s: StreamId, p: Pod): State
    requires o in st.attempts
  {
    st.(leases := st.leases - {s}, routes := st.routes[s := p],
        attempts := st.attempts[o := st.attempts[o].(phase := Done)])
  }

  predicate ReadyToPlace(st: State, o: Owner) {
    o in st.attempts && Underway(st.attempts[o].phase) && !st.attempts[o].lost && MayWrite(st, o)
  }

  function AdvancedPhase(ph: Phase): Phase
    requires Underway(ph) && !ph.Committing?
  {
    match ph
    case Holding(p) => Waiting(p) case Waiting(p) => Starting(p) case Starting(p) => Calling(p)
    case Calling(p) => Called(p) case Called(p) => Answered(p) case Answered(p) => Accepted(p)
    case Accepted(p) => Committing(p)
  }

  lemma AdvanceStep(cfg: Config, st: State, o: Owner)
    requires ReadyToPlace(st, o) && !st.attempts[o].phase.Committing?
    ensures var ph := st.attempts[o].phase; var step := By(o, NextTowardsCommit(ph));
            && Enabled(st, step) && Lapse(st, step) == []
            && Apply(cfg, st, step) == Move(st, o, AdvancedPhase(ph))
  {
  }

  lemma FinalSteps(cfg: Config, st: State, o: Owner)
    requires ReadyToPlace(st, o) && st.attempts[o].phase.Committing?
    ensures var a := st.attempts[o]; var path := [By(o, Commit(false)), By(o, Finish)];
            && Valid(cfg, st, path) && Lapses(cfg, st, path) == []
            && Run(cfg, st, path) == Placed(st, o, a.stream, a.phase.pod)
  {
    var a := st.attempts[o];
    var st' := Apply(cfg, st, By(o, Commit(false)));
    assert st' == Move(st.(routes := st.routes[a.stream := a.phase.pod]), o, Finishing);
    var st'' := Apply(cfg, st', By(o, Finish));
    assert st'' == Placed(st, o, a.stream, a.phase.pod);
    RunCons(cfg, st', By(o, Finish), []);
    assert [By(o, Finish)] + [] == [By(o, Finish)];
    RunCons(cfg, st, By(o, Commit(false)), [By(o, Finish)]);
    assert [By(o, Commit(false))] + [By(o, Finish)] == [By(o, Commit(false)), By(o, Finish)];
  }

  lemma {:induction false} PathCompletes(cfg: Config, st: State, o: Owner)
    requires ReadyToPlace(st, o)
    ensures var a := st.attempts[o]; var path := PathToDone(o, a.phase);
            && Valid(cfg, st, path) && Lapses(cfg, st, path) == []
            && Run(cfg, st, path) == Placed(st, o, a.stream, a.phase.pod)
    decreases Distance(st.attempts[o].phase)
  {
    var a := st.attempts[o];
    if a.phase.Committing? {
      FinalSteps(cfg, st, o);
    } else {
      AdvanceStep(cfg, st, o);
      var st' := Move(st, o, AdvancedPhase(a.phase));
      PathCompletes(cfg, st', o);
      RunCons(cfg, st, By(o, NextTowardsCommit(a.phase)), PathToDone(o, AdvancedPhase(a.phase)));
      assert Placed(st', o, a.stream, a.phase.pod) == Placed(st, o, a.stream, a.phase.pod);
    }
  }

  function PlacementSteps(o: Owner, s: StreamId, p: Pod): seq<Step> {
    [Acquire(o, s, [p])] + ([By(o, Reserve(0))] + PathToDone(o, Holding(p)))
  }

  /** The store after an undisturbed placement. */
  function AfterPlacement(cfg: Config, st: State, o: Owner, s: StreamId, p: Pod): State {
    st.(leases := st.leases - {s},
        spec := TryReserve(st.spec, p, s, cfg.threshold).1,
        routes := st.routes[s := p],
        attempts := st.attempts[o := Attempt(s, Done, st.now + cfg.ttl, false)])
  }

  predicate CanPlace(cfg: Config, st: State, o: Owner, s: StreamId, p: Pod) {
    && cfg.ttl > 0 && Fresh(st, o)
    && Holder(st.leases, st.now, s) == None
    && TryReserve(st.spec, p, s, cfg.threshold).0 != Refused
  }

  /** The store once the lease is taken, and once the slot is. */
  function Began(cfg: Config, st: State, o: Owner, s: StreamId, ph: Phase, spec: WorkloadSpec): State {
    st.(leases := st.leases[s := Lease(o, st.now + cfg.ttl)], spec := spec,
        attempts := st.attempts[o := Attempt(s, ph, st.now + cfg.ttl, false)])
  }

  lemma FirstSteps(cfg: Config, st: State, o: Owner, s: StreamId, p: Pod)
    requires CanPlace(cfg, st, o, s, p)
    ensures var st1 := Began(cfg, st, o, s, Reserving([p]), st.spec);
            var st2 := Began(cfg, st, o, s, Holding(p), TryReserve(st.spec, p, s, cfg.threshold).1);
            && Enabled(st, Acquire(o, s, [p])) && Apply(cfg, st, Acquire(o, s, [p])) == st1
            && Enabled(st1, By(o, Reserve(0))) && Apply(cfg, st1, By(o, Reserve(0))) == st2
            && Lapse(st1, By(o, Reserve(0))) == []
  {
    var st1 := Began(cfg, st, o, s, Reserving([p]), st.spec);
    assert Apply(cfg, st, Acquire(o, s, [p])) == st1;
    assert MayWrite(st1, o);
  }

  lemma ReadyAfterFirstSteps(cfg: Config, st: State, o: Owner, s: StreamId, p: Pod)
    requires CanPlace(cfg, st, o, s, p)
    ensures var st2 := Began(cfg, st, o, s, Holding(p), TryReserve(st.spec, p, s, cfg.threshold).1);
            ReadyToPlace(st2, o) && Placed(st2, o, s, p) == AfterPlacement(cfg, st, o, s, p)
  {
  }

  /** An attempt that nobody disturbs places its stream: whatever else the store holds, it ends
      with the route written, the reservation kept and the lease released. */
  lemma UndisturbedPlacement(cfg: Config, st: State, o: Owner, s: StreamId, p: Pod)
    requires CanPlace(cfg, st, o, s, p)
    ensures var steps := PlacementSteps(o, s, p);
            && Valid(cfg, st, steps)
            && Lapses(cfg, st, steps) == Lapse(st, Acquire(o, s, [p]))
            && Run(cfg, st, steps) == AfterPlacement(cfg, st, o, s, p)
  {
    FirstSteps(cfg, st, o, s, p);
    ReadyAfterFirstSteps(cfg, st, o, s, p);
    var st1 := Began(cfg, st, o, s, Reserving([p]), st.spec);
    var st2 := Began(cfg, st, o, s, Holding(p), TryReserve(st.spec, p, s, cfg.threshold).1);
    PathCompletes(cfg, st2, o);
    JoinSteps(cfg, st, Acquire(o, s, [p]), By(o, Reserve(0)), PathToDone(o, Holding(p)), st1, st2);
  }

  lemma JoinSteps(cfg: Config, st: State, x: Step, y: Step, rest: seq<Step>, st1: State, st2: State)
    requires Enabled(st, x) && st1 == Apply(cfg, st, x)
    requires Enabled(st1, y) && st2 == Apply(cfg, st1, y) && Valid(cfg, st2, rest)
    ensures Valid(cfg, st, [x] + ([y] + rest))
    ensures Run(cfg, st, [x] + ([y] + rest)) == Run(cfg, st2, rest)
    ensures Lapses(cfg, st, [x] + ([y] + rest)) == Lapse(st, x) + (Lapse(st1, y) + Lapses(cfg, st2, rest))
  {
    RunCons(cfg, st1, y, rest);
    RunCons(cfg, st, x, [y] + rest);
  }

  lemma ThenPlace(cfg: Config, steps: seq<Step>, o: Owner, s: StreamId, p: Pod) returns (longer: seq<Step>)
    requires Valid(cfg, INIT, steps) && CanPlace(cfg, Run(cfg, INIT, steps), o, s, p)
    ensures Valid(cfg, INIT, longer)
    ensures Run(cfg, INIT, longer) == AfterPlacement(cfg, Run(cfg, INIT, steps), o, s, p)
    ensures Lapses(cfg, INIT, longer)
         == Lapses(cfg, INIT, steps) + Lapse(Run(cfg, INIT, steps), Acquire(o, s, [p]))
  {
    var st := Run(cfg, INIT, steps);
    UndisturbedPlacement(cfg, st, o, s, p);
    RunConcat(cfg, INIT, steps, PlacementSteps(o, s, p));
    LapsesConcat(cfg, INIT, steps, PlacementSteps(o, s, p));
    longer := steps + PlacementSteps(o, s, p);
  }

  // ---------------------------------------------------------------- the races

  /** A run whose undisciplined steps are exactly `lapses`, ending in `st`. */
  ghost predicate Witness(cfg: Config, steps: seq<Step>, lapses: seq<Step>, st: State) {
    Valid(cfg, INIT, steps) && Lapses(cfg, INIT, steps) == lapses && Run(cfg, INIT, steps) == st
  }

  lemma Next(cfg: Config, steps: seq<Step>, lapses: seq<Step>, st: State, step: Step, st': State)
    returns (longer: seq<Step>)
    requires Witness(cfg, steps, lapses, st) && Enabled(st, step) && Apply(cfg, st, step) == st'
    ensures Witness(cfg, longer, lapses + Lapse(st, step), st')
  {
    longer := Then(cfg, steps, step);
  }

  /** Stale read: attempt 2 read "not placed" before attempt 1 placed the stream.  No lease ever
      expires, yet the stream ends up reserved on two pods. */
  lemma StaleReadRace(cfg: Config, s: StreamId, p: Pod, q: Pod) returns (steps: seq<Step>)
    requires cfg.threshold > 0 && cfg.ttl > 0 && p != q
    ensures Valid(cfg, INIT, steps) && Lapses(cfg, INIT, steps) == [Acquire(2, s, [q])]
    ensures var st := Run(cfg, INIT, steps); Reserved(st.spec, p, s) && Reserved(st.spec, q, s)
  {
    steps := ThenPlace(cfg, [], 1, s, p);
    var st := State(0, map[], map[p := [s]], map[s := p],
                    map[1 := Attempt(s, Done, cfg.ttl, false)], {});
    assert [] + [s] == [s];
    assert Run(cfg, INIT, steps) == st;
    assert Unplaced(INIT, s) && !Unplaced(st, s);
    assert Witness(cfg, steps, [], st);
    var acquired := st.(leases := map[s := Lease(2, cfg.ttl)],
                        attempts := st.attempts[2 := Attempt(s, Reserving([q]), cfg.ttl, false)]);
    steps := Next(cfg, steps, [], st, Acquire(2, s, [q]), acquired);
    var final := Apply(cfg, acquired, By(2, Reserve(0)));
    assert final.spec == map[p := [s], q := [s]];
    steps := Next(cfg, steps, [Acquire(2, s, [q])], acquired, By(2, Reserve(0)), final);
  }

  /** Another replica finds the reservation of a stalled attempt orphaned, removes it and places
      the stream itself, on `x`; every step of it is disciplined. */
  function Replaced(cfg: Config, st: State, s: StreamId, p: Pod, x: Pod): State {
    var done := Attempt(s, Done, st.now + cfg.ttl, false);
    st.(leases := st.leases - {s}, spec := map[p := []][x := [s]], routes := st.routes[s := x],
        attempts := st.attempts[8 := done][9 := done])
  }

  predicate Stalled(st: State, s: StreamId, p: Pod) {
    && st.spec == map[p := [s]] && s !in st.routes && Holder(st.leases, st.now, s) == None
    && 8 !in st.attempts && 9 !in st.attempts && 8 !in st.cleaners && 9 !in st.cleaners
  }

  /** The store after the orphan was swept. */
  function Swept(cfg: Config, st: State, s: StreamId, p: Pod): State {
    st.(leases := st.leases - {s}, spec := map[p := []],
        attempts := st.attempts[8 := Attempt(s, Done, st.now + cfg.ttl, false)])
  }

  function SweepingState(cfg: Config, st: State, s: StreamId, p: Pod, spec: WorkloadSpec): State {
    st.(leases := st.leases[s := Lease(8, st.now + cfg.ttl)], spec := spec,
        attempts := st.attempts[8 := Attempt(s, Sweeping([p]), st.now + cfg.ttl, false)])
  }

  lemma SweepActs(cfg: Config, st: State, s: StreamId, p: Pod)
    requires cfg.ttl > 0 && Stalled(st, s, p)
    ensures var st1 := SweepingState(cfg, st, s, p, map[p := [s]]);
            var st2 := SweepingState(cfg, st, s, p, map[p := []]);
            && Apply(cfg, st, AcquireSweep(8, s, [p])) == st1
            && Enabled(st1, By(8, SweepDelete(p))) && Apply(cfg, st1, By(8, SweepDelete(p))) == st2
            && Lapse(st1, By(8, SweepDelete(p))) == []
  {
    assert Without([s], s) == [];
  }

  lemma SweepEnds(cfg: Config, st: State, s: StreamId, p: Pod)
    requires cfg.ttl > 0 && Stalled(st, s, p)
    ensures var st2 := SweepingState(cfg, st, s, p, map[p := []]);
            Enabled(st2, By(8, Finish)) && Apply(cfg, st2, By(8, Finish)) == Swept(cfg, st, s, p)
  {
    var st2 := SweepingState(cfg, st, s, p, map[p := []]);
    assert st2.leases - {s} == st.leases - {s};
  }

  lemma Sweep(cfg: Config, steps: seq<Step>, st: State, s: StreamId, p: Pod) returns (longer: seq<Step>)
    requires cfg.ttl > 0 && Stalled(st, s, p) && Witness(cfg, steps, [], st)
    ensures Witness(cfg, longer, [], Swept(cfg, st, s, p))
  {
    SweepActs(cfg, st, s, p);
    SweepEnds(cfg, st, s, p);
    var st1 := SweepingState(cfg, st, s, p, map[p := [s]]);
    var st2 := SweepingState(cfg, st, s, p, map[p := []]);
    longer := Next(cfg, steps, [], st, AcquireSweep(8, s, [p]), st1);
    longer := Next(cfg, longer, [], st1, By(8, SweepDelete(p)), st2);
    longer := Next(cfg, longer, [], st2, By(8, Finish), Swept(cfg, st, s, p));
  }

  lemma SweptIsFree(cfg: Config, st: State, s: StreamId, p: Pod, x: Pod)
    requires cfg.threshold > 0 && cfg.ttl > 0 && Stalled(st, s, p)
    ensures var swept := Swept(cfg, st, s, p);
            && CanPlace(cfg, swept, 9, s, x) && Lapse(swept, Acquire(9, s, [x])) == []
            && AfterPlacement(cfg, swept, 9, s, x) == Replaced(cfg, st, s, p, x)
  {
    var swept := Swept(cfg, st, s, p);
    assert [] + [s] == [s];
    assert Unplaced(swept, s);
    assert swept.leases - {s} == st.leases - {s};
  }

  lemma Replacement(cfg: Config, steps: seq<Step>, st: State, s: StreamId, p: Pod, x: Pod)
    returns (longer: seq<Step>)
    requires cfg.threshold > 0 && cfg.ttl > 0 && Stalled(st, s, p) && Witness(cfg, steps, [], st)
    ensures Witness(cfg, longer, [], Replaced(cfg, st, s, p, x))
  {
    longer := Sweep(cfg, steps, st, s, p);
    SweptIsFree(cfg, st, s, p, x);
    longer := ThenPlace(cfg, longer, 9, s, x);
  }

  /** The state after attempt 1 alone has reserved `p` and reached phase `ph`. */
  function Alone(cfg: Config, s: StreamId, p: Pod, ph: Phase): State {
    State(0, map[s := Lease(1, cfg.ttl)], map[p := [s]], map[], map[1 := Attempt(s, ph, cfg.ttl, false)], {})
  }

  lemma AloneStarts(cfg: Config, s: StreamId, p: Pod) returns (steps: seq<Step>)
    requires cfg.threshold > 0 && cfg.ttl > 0
    ensures Witness(cfg, steps, [], Alone(cfg, s, p, Holding(p)))
  {
    assert [] + [s] == [s];
    FirstSteps(cfg, INIT, 1, s, p);
    assert Unplaced(INIT, s);
    assert Witness(cfg, [], [], INIT);
    steps := Next(cfg, [], [], INIT, Acquire(1, s, [p]), Began(cfg, INIT, 1, s, Reserving([p]), map[]));
    steps := Next(cfg, steps, [], Began(cfg, INIT, 1, s, Reserving([p]), map[]), By(1, Reserve(0)),
                  Alone(cfg, s, p, Holding(p)));
  }

  /** Late rollback: the health-wait, heartbeat and thread-start failures release the lease
      before they delete the reservation.  A replacement that placed the stream on the same pod
      in between loses its reservation while its route stays.  No clock is involved. */
  lemma LateRollbackRace(cfg: Config, s: StreamId, p: Pod) returns (steps: seq<Step>)
    requires cfg.threshold > 0 && cfg.ttl > 0
    ensures Valid(cfg, INIT, steps) && Lapses(cfg, INIT, steps) == [By(1, LateRollback)]
    ensures var st := Run(cfg, INIT, steps);
            s in st.routes && st.routes[s] == p && !Reserved(st.spec, p, s)
  {
    steps := AloneStarts(cfg, s, p);
    var failing := Alone(cfg, s, p, ReleasingFirst(p));
    steps := Next(cfg, steps, [], Alone(cfg, s, p, Holding(p)), By(1, FailEarly), failing);
    var released := Alone(cfg, s, p, RollingBackLate(p)).(leases := map[]);
    assert failing.leases - {s} == map[];
    steps := Next(cfg, steps, [], failing, By(1, Finish), released);
    steps := Replacement(cfg, steps, released, s, p, p);
    var st := Replaced(cfg, released, s, p, p);
    var final := Apply(cfg, st, By(1, LateRollback));
    steps := Next(cfg, steps, [], st, By(1, LateRollback), final);
  }

  /** Lapsed lease: the heartbeat is delayed past the lease's end, the flag stays clear, and the
      attempt that passed its last check writes its route over the replacement's. */
  lemma LapsedCommitRace(cfg: Config, s: StreamId, p: Pod, q: Pod) returns (steps: seq<Step>)
    requires cfg.threshold > 0 && cfg.ttl > 0 && p != q
    ensures Valid(cfg, INIT, steps) && Lapses(cfg, INIT, steps) == [By(1, Commit(false))]
    ensures var st := Run(cfg, INIT, steps);
            s in st.routes && st.routes[s] == p && Reserved(st.spec, q, s) && !Reserved(st.spec, p, s)
  {
    steps := AloneStarts(cfg, s, p);
    steps := Advance(cfg, steps, s, p, Holding(p));
    var late := Alone(cfg, s, p, Committing(p)).(now := cfg.ttl);
    steps := Next(cfg, steps, [], Alone(cfg, s, p, Committing(p)), Tick(cfg.ttl), late);
    steps := Replacement(cfg, steps, late, s, p, q);
    var st := Replaced(cfg, late, s, p, q);
    assert Holder(st.leases, st.now, s) == None;
    steps := Next(cfg, steps, [], st, By(1, Commit(false)), Apply(cfg, st, By(1, Commit(false))));
  }

  lemma {:induction false} Advance(cfg: Config, steps: seq<Step>, s: StreamId, p: Pod, ph: Phase)
    returns (longer: seq<Step>)
    requires cfg.ttl > 0 && Underway(ph) && ph.pod == p && Witness(cfg, steps, [], Alone(cfg, s, p, ph))
    ensures Witness(cfg, longer, [], Alone(cfg, s, p, Committing(p)))
    decreases Distance(ph)
  {
    longer := steps;
    if !ph.Committing? {
      AdvanceStep(cfg, Alone(cfg, s, p, ph), 1);
      var ph' := AdvancedPhase(ph);
      longer := Next(cfg, steps, [], Alone(cfg, s, p, ph), By(1, NextTowardsCommit(ph)), Alone(cfg, s, p, ph'));
      longer := Advance(cfg, longer, s, p, ph');
    }
  }

  /** Attempt 1 has seen the flag once its lease was over. */
  function Flagged(cfg: Config, s: StreamId, p: Pod, ph: Phase): State {
    Alone(cfg, s, p, ph).(now := cfg.ttl, attempts := map[1 := Attempt(s, ph, cfg.ttl, true)])
  }

  lemma FlaggedAborts(cfg: Config, s: StreamId, p: Pod) returns (steps: seq<Step>)
    requires cfg.threshold > 0 && cfg.ttl > 0
    ensures Witness(cfg, steps, [], Flagged(cfg, s, p, Aborting(p)))
  {
    steps := AloneStarts(cfg, s, p);
    steps := Next(cfg, steps, [], Alone(cfg, s, p, Holding(p)), By(1, BeatStarts), Alone(cfg, s, p, Waiting(p)));
    steps := Next(cfg, steps, [], Alone(cfg, s, p, Waiting(p)), By(1, StartWorker), Alone(cfg, s, p, Starting(p)));
    var late := Alone(cfg, s, p, Starting(p)).(now := cfg.ttl);
    steps := Next(cfg, steps, [], Alone(cfg, s, p, Starting(p)), Tick(cfg.ttl), late);
    steps := Next(cfg, steps, [], late, By(1, BeatErrors), Flagged(cfg, s, p, Starting(p)));
    steps := Next(cfg, steps, [], Flagged(cfg, s, p, Starting(p)), By(1, Check), Flagged(cfg, s, p, Aborting(p)));
  }

  /** Late abort: the cleanup lease guards a replacement only while the replacement still holds
      its own.  Once the replacement has finished, the abort removes its reservation. */
  lemma LateAbortRace(cfg: Config, s: StreamId, p: Pod) returns (steps: seq<Step>)
    requires cfg.threshold > 0 && cfg.ttl > 0
    ensures Valid(cfg, INIT, steps) && Lapses(cfg, INIT, steps) == [By(1, CleanDelete)]
    ensures var st := Run(cfg, INIT, steps);
            s in st.routes && st.routes[s] == p && !Reserved(st.spec, p, s)
  {
    steps := FlaggedAborts(cfg, s, p);
    var aborting := Flagged(cfg, s, p, Aborting(p));
    steps := Replacement(cfg, steps, aborting, s, p, p);
    var st := Replaced(cfg, aborting, s, p, p);
    var until := cfg.ttl + cfg.ttl;
    var cleaning := st.(leases := st.leases[s := Lease(7, until)], cleaners := {7},
                        attempts := st.attempts[1 := Attempt(s, Cleaning(p, 7, until), cfg.ttl, true)]);
    steps := Next(cfg, steps, [], st, By(1, AbortTry(7)), cleaning);
    steps := Next(cfg, steps, [], cleaning, By(1, CleanDelete), Apply(cfg, cleaning, By(1, CleanDelete)));
  }

  /** Raise after the route write: the caller's handler deletes the reservation of a route that
      has just been written, with the lease held all along. */
  lemma RaiseAfterCommitRace(cfg: Config, s: StreamId, p: Pod) returns (steps: seq<Step>)
    requires cfg.threshold > 0 && cfg.ttl > 0
    ensures Valid(cfg, INIT, steps) && Lapses(cfg, INIT, steps) == [By(1, Commit(true)), By(1, Rollback(false))]
    ensures var st := Run(cfg, INIT, steps);
            s in st.routes && st.routes[s] == p && !Reserved(st.spec, p, s)
  {
    steps := AloneStarts(cfg, s, p);
    steps := Advance(cfg, steps, s, p, Holding(p));
    var committed := Alone(cfg, s, p, RollingBack(p)).(routes := map[s := p]);
    steps := Next(cfg, steps, [], Alone(cfg, s, p, Committing(p)), By(1, Commit(true)), committed);
    steps := Next(cfg, steps, [By(1, Commit(true))], committed, By(1, Rollback(false)),
                  Apply(cfg, committed, By(1, Rollback(false))));
  }

  /** Lapsed lease, earlier: the attempt reserves after its lease ran out, next to the stream a
      replacement has placed meanwhile. */
  lemma LapsedReserveRace(cfg: Config, s: StreamId, p: Pod, q: Pod) returns (steps: seq<Step>)
    requires cfg.threshold > 0 && cfg.ttl > 0 && p != q
    ensures Valid(cfg, INIT, steps) && Lapses(cfg, INIT, steps) == [By(1, Reserve(0))]
    ensures var st := Run(cfg, INIT, steps); Reserved(st.spec, p, s) && Reserved(st.spec, q, s)
  {
    var st := OvertakenReserver(cfg, s, p, q);
    steps := OvertakenReserving(cfg, s, p, q);
    var final := Apply(cfg, st, By(1, Reserve(0)));
    assert [] + [s] == [s];
    assert final.spec == map[p := [s], q := [s]];
    steps := Next(cfg, steps, [], st, By(1, Reserve(0)), final);
  }

  /** Attempt 1 still walks its candidates, its lease over, after attempt 2 placed the stream. */
  function OvertakenReserver(cfg: Config, s: StreamId, p: Pod, q: Pod): State {
    State(cfg.ttl, map[], map[q := [s]], map[s := q],
          map[1 := Attempt(s, Reserving([p]), cfg.ttl, false), 2 := Attempt(s, Done, cfg.ttl + cfg.ttl, false)], {})
  }

  lemma OvertakenReserving(cfg: Config, s: StreamId, p: Pod, q: Pod) returns (steps: seq<Step>)
    requires cfg.threshold > 0 && cfg.ttl > 0 && p != q
    ensures Witness(cfg, steps, [], OvertakenReserver(cfg, s, p, q))
  {
    var began := State(0, map[s := Lease(1, cfg.ttl)], map[], map[],
                       map[1 := Attempt(s, Reserving([p]), cfg.ttl, false)], {});
    assert Unplaced(INIT, s) && Witness(cfg, [], [], INIT);
    steps := Next(cfg, [], [], INIT, Acquire(1, s, [p]), began);
    var late := began.(now := cfg.ttl);
    steps := Next(cfg, steps, [], began, Tick(cfg.ttl), late);
    assert Lapse(late, Acquire(2, s, [q])) == [] by {
      assert Unplaced(late, s);
    }
    steps := ThenPlace(cfg, steps, 2, s, q);
    assert [] + [s] == [s] && late.leases - {s} == map[];
    assert AfterPlacement(cfg, late, 2, s, q) == OvertakenReserver(cfg, s, p, q);
  }

  /** Stale orphan check: replica 2 read "reserved but not routed" while attempt 1 was in flight
      and sweeps the reservation after attempt 1 has committed and released. */
  lemma StaleSweepRace(cfg: Config, s: StreamId, p: Pod) returns (steps: seq<Step>)
    requires cfg.threshold > 0 && cfg.ttl > 0
    ensures Valid(cfg, INIT, steps) && Lapses(cfg, INIT, steps) == [By(2, SweepDelete(p))]
    ensures var st := Run(cfg, INIT, steps);
            s in st.routes && st.routes[s] == p && !Reserved(st.spec, p, s)
  {
    steps := ThenPlace(cfg, [], 1, s, p);
    assert [] + [s] == [s] && Unplaced(INIT, s);
    var placed := State(0, map[], map[p := [s]], map[s := p], map[1 := Attempt(s, Done, cfg.ttl, false)], {});
    assert Run(cfg, INIT, steps) == placed;
    var sweeping := placed.(leases := map[s := Lease(2, cfg.ttl)],
                            attempts := placed.attempts[2 := Attempt(s, Sweeping([p]), cfg.ttl, false)]);
    steps := Next(cfg, steps, [], placed, AcquireSweep(2, s, [p]), sweeping);
    steps := Next(cfg, steps, [], sweeping, By(2, SweepDelete(p)), Apply(cfg, sweeping, By(2, SweepDelete(p))));
  }
}
