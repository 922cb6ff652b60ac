/** One coordinator replica handling events one after the other, written as the code runs: each
    method issues the steps of the placement protocol in order against the shared store. */
module Replica {
  import opened Store
  import opened Placement
  import opened Selection

  // ---------------------------------------------------------------- what the outside does

  datatype Health = NotWaited | Healthy | Unhealthy | WaitRaises

  datatype AddCall =
    | Answers(statusOk: bool, noticeRaises: bool)  // `noticeRaises`: the failure notice did
    | AddRaises(unhealthy: bool)

  datatype RouteWrite = Written | RaisesBefore | RaisesAfter

  datatype HeartBeat = Silent | Renews | Errs

  /** Time passing before a flag check, and what the heartbeat did at its end. */
  datatype Gap = Gap(elapsed: nat, beat: HeartBeat)

  datatype AttemptEnv = AttemptEnv(
    beatStarts: bool,
    health: Health,
    async: bool,
    threadStarts: bool,
    beforeCall: Gap, duringCall: Gap, afterCall: Gap,
    add: AddCall,
    route: RouteWrite)

  // ---------------------------------------------------------------- how an attempt ends

  datatype Ending =
    | Committed              // route written, reservation kept
    | RolledBack             // no route, reservation removed
    | Aborted(cleaned: bool) // lease lost; `cleaned`: the cleanup lease was granted
    | Unaccounted            // raised after the route write: route kept, reservation removed
    | Leaked                 // health wait raised: lease, heartbeat and reservation left behind

  predicate Keeps(e: Ending) {
    e == Committed || e == Aborted(false) || e == Leaked
  }

  predicate Routed(e: Ending) {
    e == Committed || e == Unaccounted
  }

  /** Time left on the lease after a gap, by the store's clock; 0 once it is gone. */
  function LeftAfter(left: nat, ttl: nat, g: Gap): nat {
    if left <= g.elapsed then 0 else if g.beat == Renews then ttl else left - g.elapsed
  }

  /** The gap ends with the lost flag set. */
  predicate Flags(left: nat, g: Gap) {
    g.beat == Errs || (g.beat == Renews && left <= g.elapsed)
  }

  function CommitEnding(write: RouteWrite): Ending {
    match write
    case Written => Committed
    case RaisesBefore => RolledBack
    case RaisesAfter => Unaccounted
  }

  /** From the worker's first flag check on. */
  function WorkerEnding(left: nat, ttl: nat, env: AttemptEnv): Ending {
    var left1 := LeftAfter(left, ttl, env.beforeCall);
    if Flags(left, env.beforeCall) then Aborted(left1 == 0)
    else if env.add.AddRaises? then RolledBack
    else AnsweredEnding(left1, ttl, env)
  }

  /** From the pod's answer on. */
  function AnsweredEnding(left: nat, ttl: nat, env: AttemptEnv): Ending
    requires env.add.Answers?
  {
    var left2 := LeftAfter(left, ttl, env.duringCall);
    if Flags(left, env.duringCall) then Aborted(left2 == 0)
    else if !env.add.statusOk then RolledBack
    else AcceptedEnding(left2, ttl, env)
  }

  /** From the good status on. */
  function AcceptedEnding(left: nat, ttl: nat, env: AttemptEnv): Ending {
    if Flags(left, env.afterCall) then Aborted(LeftAfter(left, ttl, env.afterCall) == 0)
    else CommitEnding(env.route)
  }

  /** How the attempt ends, from what the outside did and the time left on its lease. */
  function EndingOf(left: nat, ttl: nat, env: AttemptEnv): Ending {
    if !env.beatStarts || env.health == Unhealthy then RolledBack
    else if env.health == WaitRaises then Leaked
    else if env.async && !env.threadStarts then RolledBack
    else WorkerEnding(left, ttl, env)
  }

  /** An exception leaves the worker that ended like this. */
  predicate WorkerRaises(e: Ending, env: AttemptEnv) {
    e == Unaccounted || (e == RolledBack && (env.add.AddRaises? || env.add.statusOk || env.add.noticeRaises))
  }

  /** An exception reaches the placement that started the attempt: a background worker only logs
      its own. */
  predicate Escapes(e: Ending, env: AttemptEnv) {
    if !env.beatStarts || env.health in {Unhealthy, WaitRaises} then true
    else if env.async then !env.threadStarts
    else WorkerRaises(e, env)
  }

  /** That exception says the pod did not become healthy in time. */
  predicate EscapesUnhealthy(e: Ending, env: AttemptEnv) {
    && Escapes(e, env) && env.beatStarts
    && (env.health == Unhealthy || (env.health != WaitRaises && !env.async && env.add.AddRaises? && env.add.unhealthy))
  }

  /** The heartbeat never lost the lease. */
  predicate LeaseKept(left: nat, ttl: nat, env: AttemptEnv) {
    var left1 := LeftAfter(left, ttl, env.beforeCall);
    var left2 := LeftAfter(left1, ttl, env.duringCall);
    !Flags(left, env.beforeCall) && !Flags(left1, env.duringCall) && !Flags(left2, env.afterCall)
  }

  /** The worker gets to run. */
  predicate Starts(env: AttemptEnv) {
    env.beatStarts && env.health !in {Unhealthy, WaitRaises} && (!env.async || env.threadStarts)
  }

  /** Every ending in the terms of what the outside did: the flag as it is at the three checks, the
      pod's answer and the route write.  In particular a started attempt commits exactly if no check
      sees the flag, the pod answers with a good status, and the write returns. */
  lemma EndingIff(left: nat, ttl: nat, env: AttemptEnv)
    ensures var left1 := LeftAfter(left, ttl, env.beforeCall);
            var left2 := LeftAfter(left1, ttl, env.duringCall);
            var first := Flags(left, env.beforeCall);
            var second := env.add.Answers? && Flags(left1, env.duringCall);
            var third := env.add.Answers? && env.add.statusOk && Flags(left2, env.afterCall);
            var good := Starts(env) && !first && !second && !third && env.add.Answers? && env.add.statusOk;
            var e := EndingOf(left, ttl, env);
            && (e == Committed <==> good && env.route == Written)
            && (e == Unaccounted <==> good && env.route == RaisesAfter)
            && (e == Leaked <==> env.beatStarts && env.health == WaitRaises)
            && (e.Aborted? <==> Starts(env) && (first || second || third))
            && (e == RolledBack <==>
                  || !env.beatStarts || env.health == Unhealthy
                  || (env.health != WaitRaises && env.async && !env.threadStarts)
                  || (Starts(env) && !first && !second && !third
                      && (env.add.AddRaises? || !env.add.statusOk || env.route == RaisesBefore)))
  {
  }

  /** Nothing goes wrong: everything starts, the pod is healthy and answers with a good status, the
      lease is kept throughout, and the route write works. */
  predicate AllGoesWell(env: AttemptEnv, ttl: nat) {
    && env.beatStarts && (env.health == Healthy || env.health == NotWaited) && (env.async ==> env.threadStarts)
    && LeaseKept(ttl, ttl, env)
    && env.add.Answers? && env.add.statusOk && env.route == Written
  }

  lemma AllGoesWellCommits(env: AttemptEnv, ttl: nat)
    ensures AllGoesWell(env, ttl) ==> EndingOf(ttl, ttl, env) == Committed
    ensures EndingOf(ttl, ttl, env) == Committed ==> AllGoesWell(env, ttl)
  {
    EndingIff(ttl, ttl, env);
  }

  /** Which attempts raise: all that fail before the worker starts, and of the others the synchronous
      ones whose add call raised, whose failure notice raised, or whose route write or anything after
      it raised. */
  lemma EscapesIff(left: nat, ttl: nat, env: AttemptEnv)
    ensures var e := EndingOf(left, ttl, env);
            && (!Starts(env) ==> Escapes(e, env))
            && (Starts(env) && env.async ==> !Escapes(e, env))
            && (Starts(env) && !env.async ==>
                  (Escapes(e, env) <==>
                     && !Flags(left, env.beforeCall)
                     && (|| env.add.AddRaises?
                         || (&& !e.Aborted?
                             && (if env.add.statusOk then env.route != Written else env.add.noticeRaises)))))
  {
    EndingIff(left, ttl, env);
  }

  /** With the lease kept, the reservation survives exactly when the route was written, unless
      the health wait raised or something raised after the route write; and each of those two
      breaks it whenever the attempt gets that far. */
  lemma KeptIffRouted(left: nat, ttl: nat, env: AttemptEnv)
    requires LeaseKept(left, ttl, env)
    ensures var e := EndingOf(left, ttl, env);
            && (env.health != WaitRaises && env.route != RaisesAfter ==> (Keeps(e) <==> Routed(e)))
            && (!(Keeps(e) <==> Routed(e)) <==>
                  || (env.beatStarts && env.health == WaitRaises)
                  || (env.beatStarts && env.health != Unhealthy && (!env.async || env.threadStarts)
                      && env.add.Answers? && env.add.statusOk && env.route == RaisesAfter))
  {
  }

  /** Without that hypothesis: an aborted attempt leaves its reservation behind exactly when its
      own lease was still running at the check that saw the flag, which only renewals that raised
      past their deadline can bring about; its cleanup lease is then refused. */
  lemma AbortLeavesReservationIff(left: nat, ttl: nat, env: AttemptEnv)
    requires EndingOf(left, ttl, env).Aborted?
    ensures !LeaseKept(left, ttl, env)
    ensures var left1 := LeftAfter(left, ttl, env.beforeCall);
            var left2 := LeftAfter(left1, ttl, env.duringCall);
            var (before, gap) := if Flags(left, env.beforeCall) then (left, env.beforeCall)
                                 else if Flags(left1, env.duringCall) then (left1, env.duringCall)
                                 else (left2, env.afterCall);
            && Flags(before, gap)
            && (Keeps(EndingOf(left, ttl, env)) <==> gap.elapsed < before)
            && (gap.elapsed < before ==> gap.beat == Errs)
  {
  }

  // ---------------------------------------------------------------- effects of single acts

  /** Attempt `o` on stream `s` is at `ph` with this flag; the store differs from `base` only in
      that attempt, in the lease of `s` (`left` to run, and nobody else's) and in the given
      reservations and routes. */
  predicate At(st: State, base: State, o: Owner, s: StreamId, ph: Phase, lost: bool, left: nat,
               spec: WorkloadSpec, routes: Routes)
  {
    && o in st.attempts && o in base.attempts && st.attempts == base.attempts[o := st.attempts[o]]
    && st.now >= base.now
    && st.attempts[o].stream == s && st.attempts[o].phase == ph && st.attempts[o].lost == lost
    && st.spec == spec && st.routes == routes
    && st.leases - {s} == base.leases - {s}
    && Holder(st.leases, st.now, s) == (if left > 0 then Some(o) else None)
    && (left > 0 ==> st.leases[s].expiry == st.now + left)
  }

  lemma TickEffect(cfg: Config, st: State, base: State, o: Owner, s: StreamId, ph: Phase, left: nat, d: nat)
    requires At(st, base, o, s, ph, false, left, st.spec, st.routes)
    ensures At(Apply(cfg, st, Tick(d)), base, o, s, ph, false, if left <= d then 0 else left - d,
               st.spec, st.routes)
  {
  }

  lemma BeatEffect(cfg: Config, st: State, base: State, o: Owner, s: StreamId, ph: Phase, left: nat)
    requires At(st, base, o, s, ph, false, left, st.spec, st.routes) && CanAct(st, Beat, ph)
    ensures var st' := ApplyAct(cfg, st, o, Beat);
            At(st', base, o, s, ph, left == 0, if left == 0 then 0 else cfg.ttl, st.spec, st.routes)
            && st'.cleaners == st.cleaners
    ensures var st' := ApplyAct(cfg, st, o, BeatErrors);
            At(st', base, o, s, ph, true, left, st.spec, st.routes) && st'.cleaners == st.cleaners
  {
    var st' := ApplyAct(cfg, st, o, Beat);
    assert st'.leases - {s} == st.leases - {s};
    assert st'.attempts == base.attempts[o := st'.attempts[o]];
    var st2 := ApplyAct(cfg, st, o, BeatErrors);
    assert st2.attempts == base.attempts[o := st2.attempts[o]];
  }

  /** Finish releases the attempt's own lease if it still runs. */
  lemma FinishEffect(cfg: Config, st: State, base: State, o: Owner, s: StreamId, ph: Phase, lost: bool, left: nat)
    requires At(st, base, o, s, ph, lost, left, st.spec, st.routes)
    requires ph.Finishing? || ph.ReleasingFirst? || ph.Sweeping?
    ensures At(ApplyAct(cfg, st, o, Finish), base, o, s, if ph.ReleasingFirst? then RollingBackLate(ph.pod) else Done,
               lost, 0, st.spec, st.routes)
  {
    var st' := ApplyAct(cfg, st, o, Finish);
    assert st'.leases - {s} == st.leases - {s};
  }

  /** As `At`, with the cleanup owner `c` holding the stream's lease. */
  predicate AtCleaning(st: State, base: State, o: Owner, s: StreamId, p: Pod, c: Owner,
                       spec: WorkloadSpec, routes: Routes)
  {
    && o in st.attempts && o in base.attempts && st.attempts == base.attempts[o := st.attempts[o]]
    && st.now >= base.now
    && st.attempts[o].stream == s && st.attempts[o].lost
    && st.attempts[o].phase.Cleaning? && st.attempts[o].phase.pod == p && st.attempts[o].phase.cleaner == c
    && st.spec == spec && st.routes == routes
    && st.leases - {s} == base.leases - {s}
    && Holder(st.leases, st.now, s) == Some(c)
  }

  /** The cleanup lease is granted exactly when the attempt's own lease is gone. */
  lemma AbortEffect(cfg: Config, st: State, base: State, o: Owner, s: StreamId, p: Pod, c: Owner, left: nat)
    requires At(st, base, o, s, Aborting(p), true, left, st.spec, st.routes)
    requires cfg.ttl > 0 && Fresh(st, c)
    ensures var st' := ApplyAct(cfg, st, o, AbortTry(c));
            && (if left > 0 then At(st', base, o, s, Finishing, true, left, st.spec, st.routes)
                else AtCleaning(st', base, o, s, p, c, st.spec, st.routes))
            && st'.cleaners <= st.cleaners + {c}
  {
    var st' := ApplyAct(cfg, st, o, AbortTry(c));
    assert st'.leases - {s} == st.leases - {s};
  }

  lemma CleanEffect(cfg: Config, st: State, base: State, o: Owner, s: StreamId, p: Pod, c: Owner)
    requires AtCleaning(st, base, o, s, p, c, st.spec, st.routes)
    ensures var st' := ApplyAct(cfg, st, o, CleanDelete);
            && AtCleaning(st', base, o, s, p, c, DeleteEntry(st.spec, p, s), st.routes)
            && st'.cleaners == st.cleaners
    ensures var st' := ApplyAct(cfg, st, o, CleanDone);
            && At(st', base, o, s, Finishing, true, 0, st.spec, st.routes)
            && st'.cleaners == st.cleaners
  {
    var st' := ApplyAct(cfg, st, o, CleanDone);
    assert st'.leases - {s} == st.leases - {s};
    assert st'.attempts == base.attempts[o := st'.attempts[o]];
  }

  /** Acts that touch neither lease, reservation nor route, and where they lead. */
  predicate Leads(act: Act, ph: Phase, ph': Phase) {
    match act
    case GiveUp => ph.Reserving? && ph' == Finishing
    case BeatStarts => ph.Holding? && ph' == Waiting(ph.pod)
    case FailEarly => (ph.Holding? || ph.Waiting?) && ph' == ReleasingFirst(ph.pod)
    case StartWorker => ph.Waiting? && ph' == Starting(ph.pod)
    case PodAnswers => ph.Calling? && ph' == Called(ph.pod)
    case Raises => (ph.Calling? || ph.Committing?) && ph' == RollingBack(ph.pod)
    case Judge(ok) => ph.Answered? && ph' == if ok then Accepted(ph.pod) else RollingBack(ph.pod)
    case _ => false
  }

  lemma LeadEffect(cfg: Config, st: State, base: State, o: Owner, s: StreamId, act: Act, ph: Phase, ph': Phase,
                   lost: bool, left: nat)
    requires At(st, base, o, s, ph, lost, left, st.spec, st.routes) && Leads(act, ph, ph')
    ensures CanAct(st, act, ph)
    ensures var st' := ApplyAct(cfg, st, o, act);
            At(st', base, o, s, ph', lost, left, st.spec, st.routes) && st'.cleaners == st.cleaners
  {
    var st' := ApplyAct(cfg, st, o, act);
    assert st' == Move(st, o, ph');
    assert st'.attempts == base.attempts[o := st'.attempts[o]];
  }

  lemma RollbackEffect(cfg: Config, st: State, base: State, o: Owner, s: StreamId, p: Pod, again: bool,
                       lost: bool, left: nat)
    requires At(st, base, o, s, RollingBack(p), lost, left, st.spec, st.routes)
    ensures var st' := ApplyAct(cfg, st, o, Rollback(again));
            At(st', base, o, s, if again then RollingBack(p) else Finishing, lost, left,
               DeleteEntry(st.spec, p, s), st.routes)
            && st'.cleaners == st.cleaners
  {
    var st' := ApplyAct(cfg, st, o, Rollback(again));
    assert st'.attempts == base.attempts[o := st'.attempts[o]];
  }

  lemma LateRollbackEffect(cfg: Config, st: State, base: State, o: Owner, s: StreamId, p: Pod, lost: bool)
    requires At(st, base, o, s, RollingBackLate(p), lost, 0, st.spec, st.routes)
    ensures var st' := ApplyAct(cfg, st, o, LateRollback);
            At(st', base, o, s, Done, lost, 0, DeleteEntry(st.spec, p, s), st.routes) && st'.cleaners == st.cleaners
  {
    var st' := ApplyAct(cfg, st, o, LateRollback);
    assert st'.attempts == base.attempts[o := st'.attempts[o]];
  }

  lemma CommitEffect(cfg: Config, st: State, base: State, o: Owner, s: StreamId, p: Pod, raises: bool, left: nat)
    requires At(st, base, o, s, Committing(p), false, left, st.spec, st.routes)
    ensures var st' := ApplyAct(cfg, st, o, Commit(raises));
            At(st', base, o, s, if raises then RollingBack(p) else Finishing, false, left, st.spec, st.routes[s := p])
            && st'.cleaners == st.cleaners
  {
    var st' := ApplyAct(cfg, st, o, Commit(raises));
    assert st'.attempts == base.attempts[o := st'.attempts[o]];
  }

  function AfterCheck(ph: Phase, lost: bool): Phase
    requires Checking(ph)
  {
    if lost then Aborting(ph.pod)
    else if ph.Starting? then Calling(ph.pod)
    else if ph.Called? then Answered(ph.pod)
    else Committing(ph.pod)
  }

  lemma CheckEffect(cfg: Config, st: State, base: State, o: Owner, s: StreamId, ph: Phase, lost: bool, left: nat)
    requires At(st, base, o, s, ph, lost, left, st.spec, st.routes) && Checking(ph)
    ensures At(ApplyAct(cfg, st, o, Check), base, o, s, AfterCheck(ph, lost), lost, left, st.spec, st.routes)
    ensures ApplyAct(cfg, st, o, Check).cleaners == st.cleaners
  {
  }

  /** Deleting an entry twice is deleting it once. */
  lemma DeleteTwice(spec: WorkloadSpec, p: Pod, s: StreamId)
    ensures DeleteEntry(DeleteEntry(spec, p, s), p, s) == DeleteEntry(spec, p, s)
  {
    if p in spec {
      WithoutAbsent(Without(spec[p], s), s);
    }
  }

  lemma {:induction false} WithoutAbsent(xs: seq<StreamId>, s: StreamId)
    requires s !in xs
    ensures Without(xs, s) == xs
  {
    if xs != [] {
      assert xs == [xs[0]] + xs[1..];
      WithoutAbsent(xs[1..], s);
    }
  }

  /** What an ending leaves of the reservation and the route. */
  function SpecAfter(e: Ending, spec: WorkloadSpec, p: Pod, s: StreamId): WorkloadSpec {
    if Keeps(e) then spec else DeleteEntry(spec, p, s)
  }

  function RoutesAfter(e: Ending, routes: Routes, p: Pod, s: StreamId): Routes {
    if Routed(e) then routes[s := p] else routes
  }

  /** `At` without the flag and the lease time: nobody but `o` holds the stream's lease. */
  predicate Ended(st: State, base: State, o: Owner, s: StreamId, ph: Phase, spec: WorkloadSpec, routes: Routes) {
    && o in st.attempts && o in base.attempts && st.attempts == base.attempts[o := st.attempts[o]]
    && st.now >= base.now
    && st.attempts[o].stream == s && st.attempts[o].phase == ph
    && st.spec == spec && st.routes == routes
    && st.leases - {s} == base.leases - {s}
    && Holder(st.leases, st.now, s) in {None, Some(o)}
  }

  lemma AtEnded(st: State, base: State, o: Owner, s: StreamId, ph: Phase, lost: bool, left: nat)
    requires At(st, base, o, s, ph, lost, left, st.spec, st.routes)
    ensures Ended(st, base, o, s, ph, st.spec, st.routes)
    ensures left == 0 ==> Holder(st.leases, st.now, s) == None
  {
  }

  lemma EndedFinish(cfg: Config, st: State, base: State, o: Owner, s: StreamId)
    requires Ended(st, base, o, s, Finishing, st.spec, st.routes)
    ensures var st' := ApplyAct(cfg, st, o, Finish);
            Ended(st', base, o, s, Done, st.spec, st.routes) && Holder(st'.leases, st'.now, s) == None
  {
    var st' := ApplyAct(cfg, st, o, Finish);
    assert st'.leases - {s} == st.leases - {s};
  }

  // ---------------------------------------------------------------- placement results

  datatype PlaceResult =
    | Held                                              // somebody else holds the stream's lease
    | NoRoom                                            // every candidate refused
    | ReserveRaised                                     // a reservation call raised
    | Attempted(p: Pod, ending: Ending)

  /** What a placement comes to when nobody holds the stream's lease. */
  function PlaceOf(eligible: seq<Candidate>, how: AssigningMethod, spec: WorkloadSpec, cfg: Config, s: StreamId,
                   env: AttemptEnv, raiseAt: Option<nat>): PlaceResult {
    match Walk(eligible, how, spec, cfg.threshold, s, raiseAt)
    case Taken(c) => Attempted(c.pod, EndingOf(cfg.ttl, cfg.ttl, env))
    case AllRefused => NoRoom
    case ReserveCallRaised => ReserveRaised
  }

  /** Without a raising call the walk finds a candidate whenever one accepts, and the reservation of
      a committed attempt on it is there. */
  lemma PlacedWhenTaken(eligible: seq<Candidate>, how: AssigningMethod, spec: WorkloadSpec, cfg: Config, s: StreamId,
                        env: AttemptEnv)
    requires DistinctPods(eligible)
    ensures var r := PlaceOf(eligible, how, spec, cfg, s, env, None);
            (exists c :: c in eligible && Accepts(spec, cfg.threshold, s, c)) ==>
              && r.Attempted?
              && (r.ending == Committed ==> Reserved(SpecPlaced(r, spec, s, cfg.threshold), r.p, s))
  {
    hide Walk, EndingOf;
    ReadyToTry(eligible, how, spec, cfg.threshold, s);
    WalkIsChoice(eligible, eligible, how, spec, cfg.threshold, s, None);
    var r := PlaceOf(eligible, how, spec, cfg, s, env, None);
    if r.Attempted? {
      ReserveAddsOneEntry(spec, r.p, s, cfg.threshold, r.p, s);
    }
  }

  /** No route is written by an attempt that something goes wrong for, short of an exception after
      the write. */
  lemma UnwrittenRoute(env: AttemptEnv, ttl: nat)
    ensures !AllGoesWell(env, ttl) && env.route != RaisesAfter ==> !Routed(EndingOf(ttl, ttl, env))
  {
    EndingIff(ttl, ttl, env);
  }

  /** The reservations after a placement try. */
  function SpecPlaced(r: PlaceResult, spec: WorkloadSpec, s: StreamId, threshold: nat): WorkloadSpec {
    if r.Attempted? then SpecAfter(r.ending, TryReserve(spec, r.p, s, threshold).1, r.p, s) else spec
  }

  function RoutesPlaced(r: PlaceResult, routes: Routes, s: StreamId): Routes {
    if r.Attempted? then RoutesAfter(r.ending, routes, r.p, s) else routes
  }

  lemma AcquireEffect(cfg: Config, st: State, o: Owner, s: StreamId, ph: Phase)
    requires cfg.ttl > 0 && Holder(st.leases, st.now, s) == None
    ensures var st' := ApplyAcquire(cfg, st, o, s, ph);
            At(st', st', o, s, ph, false, cfg.ttl, st.spec, st.routes)
            && st'.leases - {s} == st.leases - {s} && st'.cleaners == st.cleaners
            && st'.attempts.Keys == st.attempts.Keys + {o}
  {
    var st' := ApplyAcquire(cfg, st, o, s, ph);
    assert st'.attempts == st'.attempts[o := st'.attempts[o]];
  }

  lemma ReserveEffect(cfg: Config, st: State, base: State, o: Owner, s: StreamId, cands: seq<Candidate>,
                      i: nat, left: nat)
    requires At(st, base, o, s, Reserving(Pods(cands)), false, left, st.spec, st.routes) && i < |cands|
    ensures var (r, spec') := TryReserve(st.spec, cands[i].pod, s, cfg.threshold);
            var st' := ApplyAct(cfg, st, o, Act.Reserve(i));
            && st'.cleaners == st.cleaners
            && (if r == Refused
                then At(st', base, o, s, Reserving(Pods(RemoveAt(cands, i))), false, left, st.spec, st.routes)
                else At(st', base, o, s, Holding(cands[i].pod), false, left, spec', st.routes))
  {
    assert Pods(cands)[..i] + Pods(cands)[i + 1..] == Pods(RemoveAt(cands, i));
  }

  /** Every owner in use is below `n`, so `n` is a fresh one. */
  ghost predicate OwnersBelow(st: State, n: Owner) {
    (forall o :: o in st.attempts ==> o < n) && (forall o :: o in st.cleaners ==> o < n)
  }

  // ---------------------------------------------------------------- the replica

  class Coordinator {
    const cfg: Config
    const how: AssigningMethod
    var st: State            // the shared store and the attempts on it
    var threads: set<Owner>  // provision_add_threads
    var nextOwner: Owner     // the next fresh UUID

    constructor (cfg: Config, how: AssigningMethod)
      requires cfg.ttl > 0
      ensures this.cfg == cfg && this.how == how && st == INIT && threads == {} && OwnersKnown()
    {
      this.cfg, this.how := cfg, how;
      st, threads, nextOwner := INIT, {}, 0;
    }

    ghost predicate OwnersKnown()
      reads this
    {
      cfg.ttl > 0 && OwnersBelow(st, nextOwner)
    }

    /** One step of an attempt: the only way an attempt below changes the store. */
    method Do(o: Owner, act: Act)
      requires o in st.attempts && CanAct(st, act, st.attempts[o].phase)
      modifies this`st
      ensures st == ApplyAct(cfg, old(st), o, act)
    {
      st := ApplyAct(cfg, st, o, act);
    }

    /** Time passes, then the heartbeat renews, errs past the lease's end, or stays silent. */
    method Wait(o: Owner, g: Gap, ghost base: State, ghost s: StreamId, ghost ph: Phase, ghost left: nat)
      requires OwnersKnown() && (Checking(ph) || ph.Calling?)
      requires At(st, base, o, s, ph, false, left, st.spec, st.routes)
      modifies this`st
      ensures At(st, base, o, s, ph, Flags(left, g), LeftAfter(left, cfg.ttl, g), old(st.spec), old(st.routes))
      ensures OwnersKnown()
    {
      TickEffect(cfg, st, base, o, s, ph, left, g.elapsed);
      st := Apply(cfg, st, Tick(g.elapsed));
      if g.beat != Silent {
        Heartbeat(o, g.beat, base, s, ph, if left <= g.elapsed then 0 else left - g.elapsed);
      }
    }

    method Heartbeat(o: Owner, beat: HeartBeat, ghost base: State, ghost s: StreamId, ghost ph: Phase, ghost left: nat)
      requires OwnersKnown() && (Checking(ph) || ph.Calling?) && beat != Silent
      requires At(st, base, o, s, ph, false, left, st.spec, st.routes)
      modifies this`st
      ensures OwnersKnown()
      ensures At(st, base, o, s, ph, beat == Errs || left == 0,
                 if beat == Errs || left == 0 then left else cfg.ttl, old(st.spec), old(st.routes))
    {
      BeatEffect(cfg, st, base, o, s, ph, left);
      Do(o, if beat == Renews then Beat else BeatErrors);
    }

    /** Roll back after lease loss under a fresh cleanup owner, or leave everything alone when
        somebody holds the stream's lease. */
    method AbortAfterLeaseLoss(o: Owner, ghost base: State, ghost s: StreamId, ghost p: Pod, ghost left: nat)
      returns (cleaned: bool)
      requires OwnersKnown() && At(st, base, o, s, Aborting(p), true, left, st.spec, st.routes)
      modifies this`st, this`nextOwner
      ensures OwnersKnown() && (cleaned <==> left == 0)
      ensures At(st, base, o, s, Finishing, true, left,
                 if cleaned then DeleteEntry(old(st.spec), p, s) else old(st.spec), old(st.routes))
    {
      var cleaner := nextOwner;
      cleaned := AskCleanUp(o, cleaner, base, s, p, left);
      if cleaned {
        CleanUp(o, base, s, p, cleaner);
      }
    }

    /** The fresh cleanup owner gets the lease exactly when nobody holds it. */
    method AskCleanUp(o: Owner, cleaner: Owner, ghost base: State, ghost s: StreamId, ghost p: Pod, ghost left: nat)
      returns (granted: bool)
      requires OwnersKnown() && cleaner == nextOwner
      requires At(st, base, o, s, Aborting(p), true, left, st.spec, st.routes)
      modifies this`st, this`nextOwner
      ensures OwnersKnown() && (granted <==> left == 0)
      ensures if granted then AtCleaning(st, base, o, s, p, cleaner, old(st.spec), old(st.routes))
              else At(st, base, o, s, Finishing, true, left, old(st.spec), old(st.routes))
    {
      nextOwner := nextOwner + 1;
      AbortEffect(cfg, st, base, o, s, p, cleaner, left);
      Do(o, AbortTry(cleaner));
      granted := st.attempts[o].phase.Cleaning?;
      assert forall o1 :: o1 in st.attempts ==> o1 in old(st.attempts);
    }

    method CleanUp(o: Owner, ghost base: State, ghost s: StreamId, ghost p: Pod, ghost cleaner: Owner)
      requires OwnersKnown() && AtCleaning(st, base, o, s, p, cleaner, st.spec, st.routes)
      modifies this`st
      ensures OwnersKnown()
      ensures At(st, base, o, s, Finishing, true, 0, DeleteEntry(old(st.spec), p, s), old(st.routes))
    {
      CleanEffect(cfg, st, base, o, s, p, cleaner);
      Do(o, CleanDelete);
      CleanEffect(cfg, st, base, o, s, p, cleaner);
      Do(o, CleanDone);
    }

    /** Wait, then look at the lease-lost flag; on loss the attempt is wound up. */
    method WaitAndCheck(o: Owner, g: Gap, ghost base: State, ghost s: StreamId, ghost ph: Phase, ghost left: nat)
      returns (aborted: bool, cleaned: bool)
      requires OwnersKnown() && Checking(ph)
      requires At(st, base, o, s, ph, false, left, st.spec, st.routes)
      modifies this`st, this`nextOwner
      ensures OwnersKnown() && (aborted <==> Flags(left, g))
      ensures cleaned <==> aborted && LeftAfter(left, cfg.ttl, g) == 0
      ensures var left' := LeftAfter(left, cfg.ttl, g);
              if aborted then
                At(st, base, o, s, Finishing, true, left',
                   if cleaned then DeleteEntry(old(st.spec), ph.pod, s) else old(st.spec), old(st.routes))
              else At(st, base, o, s, AfterCheck(ph, false), false, left', old(st.spec), old(st.routes))
    {
      Wait(o, g, base, s, ph, left);
      ghost var left' := LeftAfter(left, cfg.ttl, g);
      CheckEffect(cfg, st, base, o, s, ph, Flags(left, g), left');
      Do(o, Check);
      aborted, cleaned := st.attempts[o].phase.Aborting?, false;
      if aborted {
        cleaned := AbortAfterLeaseLoss(o, base, s, ph.pod, left');
      }
    }

    /** An act that touches no lease, reservation or route. */
    method MoveOn(o: Owner, act: Act, ghost base: State, ghost s: StreamId, ghost ph: Phase, ghost ph': Phase,
                  ghost lost: bool, ghost left: nat)
      requires OwnersKnown() && At(st, base, o, s, ph, lost, left, st.spec, st.routes) && Leads(act, ph, ph')
      modifies this`st
      ensures OwnersKnown() && At(st, base, o, s, ph', lost, left, old(st.spec), old(st.routes))
    {
      LeadEffect(cfg, st, base, o, s, act, ph, ph', lost, left);
      Do(o, act);
    }

    /** Remove the attempt's own reservation once. */
    method RollBackOnce(o: Owner, again: bool, ghost base: State, ghost s: StreamId, ghost p: Pod,
                        ghost lost: bool, ghost left: nat)
      requires OwnersKnown() && At(st, base, o, s, RollingBack(p), lost, left, st.spec, st.routes)
      modifies this`st
      ensures OwnersKnown()
      ensures At(st, base, o, s, if again then RollingBack(p) else Finishing, lost, left,
                 DeleteEntry(old(st.spec), p, s), old(st.routes))
    {
      RollbackEffect(cfg, st, base, o, s, p, again, lost, left);
      Do(o, Rollback(again));
    }

    method WriteRoute(o: Owner, raises: bool, ghost base: State, ghost s: StreamId, ghost p: Pod, ghost left: nat)
      requires OwnersKnown() && At(st, base, o, s, Committing(p), false, left, st.spec, st.routes)
      modifies this`st
      ensures OwnersKnown()
      ensures At(st, base, o, s, if raises then RollingBack(p) else Finishing, false, left,
                 old(st.spec), old(st.routes)[s := p])
    {
      CommitEffect(cfg, st, base, o, s, p, raises, left);
      Do(o, Commit(raises));
    }

    /** Remove the attempt's own reservation; `again`: both the worker and its caller do. */
    method RollBack(o: Owner, again: bool, ghost base: State, ghost s: StreamId, ghost p: Pod,
                    ghost lost: bool, ghost left: nat)
      requires OwnersKnown() && At(st, base, o, s, RollingBack(p), lost, left, st.spec, st.routes)
      modifies this`st
      ensures OwnersKnown()
      ensures At(st, base, o, s, Finishing, lost, left, DeleteEntry(old(st.spec), p, s), old(st.routes))
    {
      DeleteTwice(st.spec, p, s);
      if again {
        RollBackOnce(o, true, base, s, p, lost, left);
      }
      RollBackOnce(o, false, base, s, p, lost, left);
    }

    /** `_provision_add_stream_to_pod`: three flag checks around the pod call, then the route.
        `raised` tells whether an exception leaves the worker. */
    method AddStreamToPod(o: Owner, env: AttemptEnv, ghost base: State, ghost s: StreamId, ghost p: Pod,
                          ghost left: nat)
      returns (ending: Ending, raised: bool)
      requires OwnersKnown() && At(st, base, o, s, Starting(p), false, left, st.spec, st.routes)
      modifies this`st, this`nextOwner
      ensures OwnersKnown() && ending == WorkerEnding(left, cfg.ttl, env) && (raised <==> WorkerRaises(ending, env))
      ensures Ended(st, base, o, s, Finishing, SpecAfter(ending, old(st.spec), p, s),
                    RoutesAfter(ending, old(st.routes), p, s))
    {
      hide At, Ended, Holder;
      var aborted, cleaned := WaitAndCheck(o, env.beforeCall, base, s, Starting(p), left);
      ghost var left1 := LeftAfter(left, cfg.ttl, env.beforeCall);
      if aborted {
        AtEnded(st, base, o, s, Finishing, true, left1);
        return Aborted(cleaned), false;
      }
      if env.add.AddRaises? {
        CallRaised(o, env, base, s, p, left1);
        return RolledBack, true;
      }
      MoveOn(o, PodAnswers, base, s, Calling(p), Called(p), false, left1);
      ending, raised := JudgeAnswer(o, env, base, s, p, left1);
    }

    /** The add call raised: the reservation goes, whatever the heartbeat saw meanwhile. */
    method CallRaised(o: Owner, env: AttemptEnv, ghost base: State, ghost s: StreamId, ghost p: Pod, ghost left: nat)
      requires OwnersKnown() && At(st, base, o, s, Calling(p), false, left, st.spec, st.routes) && env.add.AddRaises?
      modifies this`st
      ensures OwnersKnown()
      ensures Ended(st, base, o, s, Finishing, DeleteEntry(old(st.spec), p, s), old(st.routes))
    {
      hide At, Ended, Holder;
      Wait(o, env.duringCall, base, s, Calling(p), left);
      ghost var lost, left' := Flags(left, env.duringCall), LeftAfter(left, cfg.ttl, env.duringCall);
      MoveOn(o, Raises, base, s, Calling(p), RollingBack(p), lost, left');
      RollBack(o, env.add.unhealthy, base, s, p, lost, left');
      AtEnded(st, base, o, s, Finishing, lost, left');
    }

    method JudgeAnswer(o: Owner, env: AttemptEnv, ghost base: State, ghost s: StreamId, ghost p: Pod, ghost left: nat)
      returns (ending: Ending, raised: bool)
      requires OwnersKnown() && At(st, base, o, s, Called(p), false, left, st.spec, st.routes) && env.add.Answers?
      modifies this`st, this`nextOwner
      ensures OwnersKnown() && ending == AnsweredEnding(left, cfg.ttl, env) && (raised <==> WorkerRaises(ending, env))
      ensures Ended(st, base, o, s, Finishing, SpecAfter(ending, old(st.spec), p, s),
                    RoutesAfter(ending, old(st.routes), p, s))
    {
      hide At, Ended, Holder;
      var aborted, cleaned := WaitAndCheck(o, env.duringCall, base, s, Called(p), left);
      ghost var left2 := LeftAfter(left, cfg.ttl, env.duringCall);
      if aborted {
        AtEnded(st, base, o, s, Finishing, true, left2);
        return Aborted(cleaned), false;
      }
      if !env.add.statusOk {
        MoveOn(o, Judge(false), base, s, Answered(p), RollingBack(p), false, left2);
        RollBack(o, env.add.noticeRaises, base, s, p, false, left2);
        AtEnded(st, base, o, s, Finishing, false, left2);
        return RolledBack, env.add.noticeRaises;
      }
      MoveOn(o, Judge(true), base, s, Answered(p), Accepted(p), false, left2);
      ending, raised := AcceptAnswer(o, env, base, s, p, left2);
    }

    method AcceptAnswer(o: Owner, env: AttemptEnv, ghost base: State, ghost s: StreamId, ghost p: Pod, ghost left: nat)
      returns (ending: Ending, raised: bool)
      requires OwnersKnown() && At(st, base, o, s, Accepted(p), false, left, st.spec, st.routes)
      modifies this`st, this`nextOwner
      ensures OwnersKnown() && ending == AcceptedEnding(left, cfg.ttl, env)
      ensures raised <==> ending in {RolledBack, Unaccounted}
      ensures Ended(st, base, o, s, Finishing, SpecAfter(ending, old(st.spec), p, s),
                    RoutesAfter(ending, old(st.routes), p, s))
    {
      hide At, Ended, Holder;
      var aborted, cleaned := WaitAndCheck(o, env.afterCall, base, s, Accepted(p), left);
      if aborted {
        AtEnded(st, base, o, s, Finishing, true, LeftAfter(left, cfg.ttl, env.afterCall));
        return Aborted(cleaned), false;
      }
      ending := CommitRoute(o, env.route, base, s, p, LeftAfter(left, cfg.ttl, env.afterCall));
      raised := env.route != Written;
    }

    /** The route write, and what the caller's handler does when it or anything after it raises. */
    method CommitRoute(o: Owner, write: RouteWrite, ghost base: State, ghost s: StreamId, ghost p: Pod,
                       ghost left: nat)
      returns (ending: Ending)
      requires OwnersKnown() && At(st, base, o, s, Committing(p), false, left, st.spec, st.routes)
      modifies this`st
      ensures OwnersKnown()
      ensures ending == CommitEnding(write)
      ensures Ended(st, base, o, s, Finishing, SpecAfter(ending, old(st.spec), p, s),
                    RoutesAfter(ending, old(st.routes), p, s))
    {
      hide At, Ended, Holder;
      match write {
      case Written =>
        WriteRoute(o, false, base, s, p, left);
        ending := Committed;
      case RaisesBefore =>
        MoveOn(o, Raises, base, s, Committing(p), RollingBack(p), false, left);
        RollBack(o, false, base, s, p, false, left);
        ending := RolledBack;
      case RaisesAfter =>
        WriteRoute(o, true, base, s, p, left);
        RollBack(o, false, base, s, p, false, left);
        ending := Unaccounted;
      }
      AtEnded(st, base, o, s, Finishing, false, left);
    }

    /** The early failures: release the lease first, remove the reservation after. */
    method ReleaseThenRollBack(o: Owner, ghost base: State, ghost s: StreamId, ghost p: Pod, ghost ph: Phase,
                               ghost left: nat)
      requires OwnersKnown() && (ph == Holding(p) || ph == Waiting(p))
      requires At(st, base, o, s, ph, false, left, st.spec, st.routes)
      modifies this`st
      ensures OwnersKnown()
      ensures Ended(st, base, o, s, Done, DeleteEntry(old(st.spec), p, s), old(st.routes))
      ensures Holder(st.leases, st.now, s) == None
    {
      hide At, Ended, Holder;
      MoveOn(o, FailEarly, base, s, ph, ReleasingFirst(p), false, left);
      ReleaseEarly(o, base, s, p, left);
      RollBackLate(o, base, s, p);
      AtEnded(st, base, o, s, Done, false, 0);
    }

    method ReleaseEarly(o: Owner, ghost base: State, ghost s: StreamId, ghost p: Pod, ghost left: nat)
      requires OwnersKnown() && At(st, base, o, s, ReleasingFirst(p), false, left, st.spec, st.routes)
      modifies this`st
      ensures OwnersKnown() && At(st, base, o, s, RollingBackLate(p), false, 0, old(st.spec), old(st.routes))
    {
      FinishEffect(cfg, st, base, o, s, ReleasingFirst(p), false, left);
      Do(o, Finish);
    }

    method RollBackLate(o: Owner, ghost base: State, ghost s: StreamId, ghost p: Pod)
      requires OwnersKnown() && At(st, base, o, s, RollingBackLate(p), false, 0, st.spec, st.routes)
      modifies this`st
      ensures OwnersKnown()
      ensures At(st, base, o, s, Done, false, 0, DeleteEntry(old(st.spec), p, s), old(st.routes))
    {
      LateRollbackEffect(cfg, st, base, o, s, p, false);
      Do(o, LateRollback);
    }

    /** `_finish_provision_lease`: stop the heartbeat and release what is still held. */
    method FinishLease(o: Owner, ghost base: State, ghost s: StreamId, ghost spec: WorkloadSpec, ghost routes: Routes)
      requires OwnersKnown() && Ended(st, base, o, s, Finishing, spec, routes)
      modifies this`st
      ensures OwnersKnown() && Ended(st, base, o, s, Done, spec, routes)
      ensures Holder(st.leases, st.now, s) == None
    {
      EndedFinish(cfg, st, base, o, s);
      Do(o, Finish);
    }

    /** `_run_provision_add_stream`: heartbeat, health wait, then the worker, on this thread or on
        one of its own. */
    method RunAddStream(o: Owner, env: AttemptEnv, ghost base: State, ghost s: StreamId, ghost p: Pod, ghost left: nat)
      returns (ending: Ending, raised: bool)
      requires OwnersKnown() && o !in threads
      requires At(st, base, o, s, Holding(p), false, left, st.spec, st.routes)
      modifies this`st, this`nextOwner, this`threads
      ensures OwnersKnown() && ending == EndingOf(left, cfg.ttl, env) && threads == old(threads)
      ensures raised <==> Escapes(ending, env)
      ensures Ended(st, base, o, s, if ending == Leaked then Waiting(p) else Done,
                    SpecAfter(ending, old(st.spec), p, s), RoutesAfter(ending, old(st.routes), p, s))
      ensures ending != Leaked ==> Holder(st.leases, st.now, s) == None
    {
      hide At, Ended, Holder;
      if !env.beatStarts {
        ReleaseThenRollBack(o, base, s, p, Holding(p), left);
        return RolledBack, true;
      }
      MoveOn(o, BeatStarts, base, s, Holding(p), Waiting(p), false, left);
      if env.health == Unhealthy {
        ReleaseThenRollBack(o, base, s, p, Waiting(p), left);
        return RolledBack, true;
      }
      if env.health == WaitRaises {
        AtEnded(st, base, o, s, Waiting(p), false, left);
        return Leaked, true;
      }
      if env.async {
        threads := threads + {o};
        if !env.threadStarts {
          threads := threads - {o};
          ReleaseThenRollBack(o, base, s, p, Waiting(p), left);
          return RolledBack, true;
        }
      }
      ending, raised := RunWorker(o, env, base, s, p, left);
    }

    /** The worker and its wind-up: drop the thread entry, release the lease.  What a background
        worker raises is logged, what a synchronous one raises reaches the caller. */
    method RunWorker(o: Owner, env: AttemptEnv, ghost base: State, ghost s: StreamId, ghost p: Pod, ghost left: nat)
      returns (ending: Ending, raised: bool)
      requires OwnersKnown() && (o in threads <==> env.async)
      requires At(st, base, o, s, Waiting(p), false, left, st.spec, st.routes)
      modifies this`st, this`nextOwner, this`threads
      ensures OwnersKnown() && ending == WorkerEnding(left, cfg.ttl, env) && threads == old(threads) - {o}
      ensures Ended(st, base, o, s, Done, SpecAfter(ending, old(st.spec), p, s),
                    RoutesAfter(ending, old(st.routes), p, s))
      ensures Holder(st.leases, st.now, s) == None
      ensures raised <==> !env.async && WorkerRaises(ending, env)
    {
      hide At, Ended, Holder;
      MoveOn(o, StartWorker, base, s, Waiting(p), Starting(p), false, left);
      ending, raised := AddStreamToPod(o, env, base, s, p, left);
      if env.async {
        threads := threads - {o};
        raised := false;
      }
      FinishLease(o, base, s, SpecAfter(ending, old(st.spec), p, s), RoutesAfter(ending, old(st.routes), p, s));
    }

    /** Take the stream's lease, reserve the first candidate that accepts, run the attempt. */
    method Place(s: StreamId, eligible: seq<Candidate>, env: AttemptEnv, raiseAt: Option<nat>)
      returns (r: PlaceResult)
      requires OwnersKnown() && DistinctPods(eligible) && threads == {}
      modifies this
      ensures OwnersKnown() && threads == {}
      ensures r == Held <==> Holder(old(st.leases), old(st.now), s) != None
      ensures r == Held ==> st == old(st)
      ensures st.leases - {s} == old(st.leases) - {s} && st.now >= old(st.now)
      ensures st.spec == SpecPlaced(r, old(st.spec), s, cfg.threshold)
      ensures st.routes == RoutesPlaced(r, old(st.routes), s)
      ensures r != Held ==>
                r == PlaceOf(eligible, how, old(st.spec), cfg, s, env, raiseAt)
      ensures r == NoRoom ==> IsChoice(eligible, how, old(st.spec), cfg.threshold, s, None)
      ensures r == ReserveRaised ==> raiseAt.Some? && raiseAt.value < |eligible|
      ensures r.Attempted? ==>
                exists c: Candidate :: c.pod == r.p && IsChoice(eligible, how, old(st.spec), cfg.threshold, s, Some(c))
      ensures r != Held && !(r.Attempted? && r.ending == Leaked) ==> Holder(st.leases, st.now, s) == None
      ensures Holder(old(st.leases), old(st.now), s) == None && AllGoesWell(env, cfg.ttl) && raiseAt.None?
              && (exists c :: c in eligible && Accepts(old(st.spec), cfg.threshold, s, c)) ==>
                && s in st.routes && Reserved(st.spec, st.routes[s], s)
                && exists c: Candidate :: c.pod == st.routes[s]
                                          && IsChoice(eligible, how, old(st.spec), cfg.threshold, s, Some(c))
      ensures !AllGoesWell(env, cfg.ttl) && env.route != RaisesAfter ==> st.routes == old(st.routes)
    {
      hide Walk, IsChoice, EndingOf, AllGoesWell, Accepts, TryReserve, StillToTry;
      AllGoesWellCommits(env, cfg.ttl);
      UnwrittenRoute(env, cfg.ttl);
      PlacedWhenTaken(eligible, how, st.spec, cfg, s, env);
      var o := nextOwner;
      if Holder(st.leases, st.now, s) != None {
        return Held;
      }
      ReadyToTry(eligible, how, st.spec, cfg.threshold, s);
      WalkIsChoice(eligible, eligible, how, st.spec, cfg.threshold, s, raiseAt);
      TakeLease(o, s, Reserving(Pods(eligible)));
      ghost var base := st;
      var walked;
      ghost var rest;
      walked, rest := ReserveFirst(o, s, eligible, raiseAt, base);
      match walked {
        case Taken(c) =>
          var ending, _ := RunAddStream(o, env, base, s, c.pod, cfg.ttl);
          r := Attempted(c.pod, ending);
        case AllRefused =>
          WindUp(o, base, s, Pods(rest));
          r := NoRoom;
        case ReserveCallRaised =>
          WindUp(o, base, s, Pods(rest));
          r := ReserveRaised;
      }
    }

    /** A fresh owner takes a lease nobody holds. */
    method TakeLease(o: Owner, s: StreamId, ph: Phase)
      requires OwnersKnown() && o == nextOwner && Holder(st.leases, st.now, s) == None
      requires ph.Reserving? || ph.Sweeping?
      modifies this`st, this`nextOwner
      ensures OwnersKnown() && At(st, st, o, s, ph, false, cfg.ttl, old(st.spec), old(st.routes))
      ensures st.leases - {s} == old(st.leases) - {s} && st.now == old(st.now)
    {
      AcquireEffect(cfg, st, o, s, ph);
      nextOwner := nextOwner + 1;
      st := ApplyAcquire(cfg, st, o, s, ph);
      assert forall o1 :: o1 in st.attempts ==> o1 in old(st.attempts) || o1 == o;
    }

    method TryCandidate(o: Owner, ghost s: StreamId, cands: seq<Candidate>, i: nat, ghost base: State)
      returns (accepted: bool)
      requires OwnersKnown() && i < |cands|
      requires At(st, base, o, s, Reserving(Pods(cands)), false, cfg.ttl, st.spec, st.routes)
      modifies this`st
      ensures OwnersKnown() && (accepted <==> Accepts(old(st.spec), cfg.threshold, s, cands[i]))
      ensures if accepted
              then At(st, base, o, s, Holding(cands[i].pod), false, cfg.ttl,
                      TryReserve(old(st.spec), cands[i].pod, s, cfg.threshold).1, old(st.routes))
              else At(st, base, o, s, Reserving(Pods(RemoveAt(cands, i))), false, cfg.ttl,
                      old(st.spec), old(st.routes))
      ensures !accepted ==> st.spec == old(st.spec) && st.routes == old(st.routes)
    {
      ReserveEffect(cfg, st, base, o, s, cands, i, cfg.ttl);
      Do(o, Act.Reserve(i));
      accepted := st.attempts[o].phase.Holding?;
    }

    /** The candidate loop: select, try, drop what refuses.  `rest` is what was still to be tried
        when it ended. */
    method ReserveFirst(o: Owner, s: StreamId, eligible: seq<Candidate>, raiseAt: Option<nat>, ghost base: State)
      returns (walked: Walked, ghost rest: seq<Candidate>)
      requires OwnersKnown()
      requires At(st, base, o, s, Reserving(Pods(eligible)), false, cfg.ttl, st.spec, st.routes)
      modifies this`st
      ensures OwnersKnown() && walked == Walk(eligible, how, old(st.spec), cfg.threshold, s, raiseAt)
      ensures if walked.Taken?
              then At(st, base, o, s, Holding(walked.c.pod), false, cfg.ttl,
                      TryReserve(old(st.spec), walked.c.pod, s, cfg.threshold).1, old(st.routes))
              else At(st, base, o, s, Reserving(Pods(rest)), false, cfg.ttl, old(st.spec), old(st.routes))
    {
      hide At, Accepts, Select, TryReserve, RemoveAt, Holder, Pods;
      ghost var (spec, routes) := (st.spec, st.routes);
      var cands, left := eligible, raiseAt;
      while cands != []
        invariant OwnersKnown() && st.spec == spec && st.routes == routes
        invariant At(st, base, o, s, Reserving(Pods(cands)), false, cfg.ttl, spec, routes)
        invariant Walk(eligible, how, spec, cfg.threshold, s, raiseAt) == Walk(cands, how, spec, cfg.threshold, s, left)
        decreases |cands|
      {
        if left == Some(0) {
          return ReserveCallRaised, cands;
        }
        var c := Select(cands, how);
        var i := IndexOf(cands, c);
        var accepted := TryCandidate(o, s, cands, i, base);
        if accepted {
          return Taken(c), [];
        }
        cands := Rest(cands, how);
        left := if left.Some? then Some(left.value - 1) else None;
      }
      return AllRefused, [];
    }

    /** Release without having reserved anything. */
    method WindUp(o: Owner, ghost base: State, ghost s: StreamId, ghost pods: seq<Pod>)
      requires OwnersKnown()
      requires At(st, base, o, s, Reserving(pods), false, cfg.ttl, st.spec, st.routes)
      modifies this`st
      ensures OwnersKnown() && Ended(st, base, o, s, Done, old(st.spec), old(st.routes))
      ensures Holder(st.leases, st.now, s) == None
    {
      hide At, Ended, Holder;
      MoveOn(o, GiveUp, base, s, Reserving(pods), Finishing, false, cfg.ttl);
      AtEnded(st, base, o, s, Finishing, false, cfg.ttl);
      FinishLease(o, base, s, old(st.spec), old(st.routes));
    }

    /** Remove every reservation of a stream that has no route, under the stream's own lease. */
    method SweepOrphans(s: StreamId) returns (granted: bool)
      requires OwnersKnown()
      modifies this`st, this`nextOwner
      ensures OwnersKnown() && (granted <==> Holder(old(st.leases), old(st.now), s) == None)
      ensures !granted ==> st == old(st)
      ensures granted ==> Holder(st.leases, st.now, s) == None
      ensures st.leases - {s} == old(st.leases) - {s} && st.now >= old(st.now) && st.routes == old(st.routes)
      ensures granted ==> forall q, t :: Reserved(st.spec, q, t) <==> Reserved(old(st.spec), q, t) && t != s
    {
      var o := nextOwner;
      if Holder(st.leases, st.now, s) != None {
        return false;
      }
      var orphans := PodsHolding(s);
      TakeLease(o, s, Sweeping(orphans));
      ghost var base := st;
      var i := 0;
      while i < |orphans|
        invariant i <= |orphans| && OwnersKnown()
        invariant At(st, base, o, s, Sweeping(orphans), false, cfg.ttl, st.spec, old(st.routes))
        invariant forall q, t :: Reserved(st.spec, q, t) <==>
                    Reserved(old(st.spec), q, t) && !(t == s && q in orphans[..i])
      {
        SweepOne(o, orphans[i], base, s, orphans);
        i := i + 1;
      }
      FinishEffect(cfg, st, base, o, s, Sweeping(orphans), false, cfg.ttl);
      Do(o, Finish);
      return true;
    }

    method SweepOne(o: Owner, p: Pod, ghost base: State, ghost s: StreamId, ghost orphans: seq<Pod>)
      requires OwnersKnown() && p in orphans
      requires At(st, base, o, s, Sweeping(orphans), false, cfg.ttl, st.spec, st.routes)
      modifies this`st
      ensures OwnersKnown()
      ensures At(st, base, o, s, Sweeping(orphans), false, cfg.ttl, st.spec, old(st.routes))
      ensures forall q, t :: Reserved(st.spec, q, t) <==> Reserved(old(st.spec), q, t) && !(t == s && q == p)
    {
      forall q, t
        ensures Reserved(DeleteEntry(st.spec, p, s), q, t) <==> Reserved(st.spec, q, t) && !(q == p && t == s)
      {
        DeleteRemovesOneEntry(st.spec, p, s, q, t);
      }
      Do(o, SweepDelete(p));
    }

    /** Every pod with a reservation of the stream, in some order. */
    method PodsHolding(s: StreamId) returns (pods: seq<Pod>)
      ensures forall p :: p in pods <==> Reserved(st.spec, p, s)
    {
      var todo := set p | p in st.spec && s in st.spec[p];
      pods := [];
      while todo != {}
        invariant forall p :: p in pods || p in todo <==> Reserved(st.spec, p, s)
        decreases todo
      {
        var p :| p in todo;
        pods, todo := pods + [p], todo - {p};
      }
    }

    /** Time passes between two attempts. */
    method Sleep(elapsed: nat)
      requires OwnersKnown()
      modifies this`st
      ensures OwnersKnown() && st == old(st).(now := old(st.now) + elapsed)
    {
      st := Apply(cfg, st, Tick(elapsed));
    }

    /** Remove one reservation, outside any attempt: the delete handler's first write. */
    method DeleteReservation(p: Pod, s: StreamId)
      requires OwnersKnown()
      modifies this`st
      ensures OwnersKnown() && st == old(st).(spec := DeleteEntry(old(st.spec), p, s))
    {
      st := Apply(cfg, st, DropEntry(p, s));
    }

    /** Remove a route: the delete handler's second write. */
    method DeleteRoute(s: StreamId)
      requires OwnersKnown()
      modifies this`st
      ensures OwnersKnown() && st == old(st).(routes := old(st.routes) - {s})
    {
      st := Apply(cfg, st, DropRoute(s));
    }
  }
}
