/** Stream placement as a step system.  Any number of attempts, on any replicas, advance one
    store command at a time; between two steps of one attempt every other attempt, the clock
    and the delete handler may run.  What an attempt read before it took its lease (the route,
    the reservations, the candidate pods and their counts) puts no condition on the store when
    the step happens: the reads may be arbitrarily stale. */
module Placement {
  import opened Store

  /** Pod capacity (WDM_WL_THRESHOLD) and lease length (WDM_PROVISION_LEASE_SECONDS). */
  datatype Config = Config(threshold: nat, ttl: nat)

  datatype Phase =
    | Reserving(candidates: seq<Pod>)  // lease taken, walking the candidate pods
    | Holding(pod: Pod)                // slot reserved, heartbeat not started yet
    | Waiting(pod: Pod)                // heartbeat runs; health wait, then worker start
    | Starting(pod: Pod)               // in the worker, first flag check ahead
    | Calling(pod: Pod)                // the add call is in flight
    | Called(pod: Pod)                 // the pod answered, second flag check ahead
    | Answered(pod: Pod)               // the response status is not judged yet
    | Accepted(pod: Pod)               // status good, last flag check ahead
    | Committing(pod: Pod)             // passed the last check, route write ahead
    | RollingBack(pod: Pod)            // removes its reservation, then releases
    | ReleasingFirst(pod: Pod)         // releases, then removes its reservation
    | RollingBackLate(pod: Pod)        // has released, reservation still to be removed
    | Aborting(pod: Pod)               // saw the flag, about to ask for a cleanup lease
    | Cleaning(pod: Pod, cleaner: Owner, cleanUntil: nat)  // got the cleanup lease
    | Sweeping(pods: seq<Pod>)         // removes orphaned reservations under its own lease
    | Finishing                        // about to release its lease
    | Done

  /** `until` is when the lease this attempt last took or renewed runs out; `lost` is the
      lease-lost event its heartbeat sets. */
  datatype Attempt = Attempt(stream: StreamId, phase: Phase, until: nat, lost: bool)

  datatype State = State(
    now: nat,
    leases: Leases,
    spec: WorkloadSpec,
    routes: Routes,
    attempts: map<Owner, Attempt>,
    cleaners: set<Owner>)

  const INIT := State(0, map[], map[], map[], map[], {})

  /** What an attempt does next. */
  datatype Act =
    | Reserve(choice: nat)   // try the candidate at this index
    | GiveUp                 // no candidate left, or the reservation call raised
    | BeatStarts
    | FailEarly              // heartbeat start, health wait or thread start failed
    | StartWorker
    | Check                  // look at the lease-lost flag
    | PodAnswers
    | Raises                 // the add call, or the route write before it took effect
    | Judge(ok: bool)
    | Commit(raises: bool)   // write the route; `raises`: something after the write did
    | Rollback(again: bool)  // `again`: the caller's handler repeats the delete
    | AbortTry(c: Owner)     // ask for a cleanup lease under a fresh owner
    | CleanDelete
    | CleanDone
    | SweepDelete(p: Pod)
    | Finish
    | LateRollback
    | Beat                   // the heartbeat renews, or finds the lease gone
    | BeatErrors             // renewals kept raising past the lease's end

  datatype Step =
    | Tick(elapsed: nat)
    | Acquire(o: Owner, s: StreamId, candidates: seq<Pod>)
    | AcquireSweep(o: Owner, s: StreamId, pods: seq<Pod>)
    | By(o: Owner, act: Act)
    | Deprovision(s: StreamId)         // delete handler, both store writes back to back
    | DropEntry(p: Pod, s: StreamId)   // its first write alone
    | DropRoute(s: StreamId)           // its second write alone

  predicate Checking(ph: Phase) {
    ph.Starting? || ph.Called? || ph.Accepted?
  }

  predicate Fresh(st: State, o: Owner) {
    o !in st.attempts && o !in st.cleaners
  }

  /** The attempt is at a place where it can do this. */
  predicate CanAct(st: State, act: Act, ph: Phase) {
    match act
    case Reserve(i) => ph.Reserving? && i < |ph.candidates|
    case GiveUp => ph.Reserving?
    case BeatStarts => ph.Holding?
    case FailEarly => ph.Holding? || ph.Waiting?
    case StartWorker => ph.Waiting?
    case Check => Checking(ph)
    case PodAnswers => ph.Calling?
    case Raises => ph.Calling? || ph.Committing?
    case Judge(_) => ph.Answered?
    case Commit(_) => ph.Committing?
    case Rollback(_) => ph.RollingBack?
    case AbortTry(c) => ph.Aborting? && Fresh(st, c)
    case CleanDelete => ph.Cleaning?
    case CleanDone => ph.Cleaning?
    case SweepDelete(p) => ph.Sweeping? && p in ph.pods
    case Finish => ph.Finishing? || ph.ReleasingFirst? || ph.Sweeping?
    case LateRollback => ph.RollingBackLate?
    case Beat => !ph.Reserving? && !ph.Holding? && !ph.Sweeping?
    case BeatErrors => !ph.Reserving? && !ph.Holding? && !ph.Sweeping?
  }

  predicate Enabled(st: State, step: Step) {
    match step
    case By(o, act) => o in st.attempts && CanAct(st, act, st.attempts[o].phase)
    case Acquire(o, _, _) => Fresh(st, o)
    case AcquireSweep(o, _, _) => Fresh(st, o)
    case Deprovision(s) => s in st.routes
    case _ => true
  }

  function Move(st: State, o: Owner, ph: Phase): State
    requires o in st.attempts
  {
    st.(attempts := st.attempts[o := st.attempts[o].(phase := ph)])
  }

  function Apply(cfg: Config, st: State, step: Step): State
    requires Enabled(st, step)
  {
    match step
    case Tick(d) => st.(now := st.now + d)
    case By(o, act) => ApplyAct(cfg, st, o, act)
    case Acquire(o, s, cands) => ApplyAcquire(cfg, st, o, s, Reserving(cands))
    case AcquireSweep(o, s, pods) => ApplyAcquire(cfg, st, o, s, Sweeping(pods))
    case Deprovision(s) =>
      st.(spec := DeleteEntry(st.spec, st.routes[s], s), routes := st.routes - {s})
    case DropEntry(p, s) => st.(spec := DeleteEntry(st.spec, p, s))
    case DropRoute(s) => st.(routes := st.routes - {s})
  }

  /** A refused acquire defers the event and leaves no attempt behind. */
  function ApplyAcquire(cfg: Config, st: State, o: Owner, s: StreamId, ph: Phase): State {
    var (ok, leases') := TryAcquire(st.leases, st.now, s, o, cfg.ttl);
    if ok
    then st.(leases := leases', attempts := st.attempts[o := Attempt(s, ph, st.now + cfg.ttl, false)])
    else st
  }

  function ApplyAct(cfg: Config, st: State, o: Owner, act: Act): State
    requires o in st.attempts && CanAct(st, act, st.attempts[o].phase)
  {
    var a := st.attempts[o];
    var s := a.stream;
    match act
    case Reserve(i) =>
      var p := a.phase.candidates[i];
      var (r, spec') := TryReserve(st.spec, p, s, cfg.threshold);
      if r == Refused
      then Move(st, o, Reserving(a.phase.candidates[..i] + a.phase.candidates[i + 1..]))
      else Move(st.(spec := spec'), o, Holding(p))
    case GiveUp => Move(st, o, Finishing)
    case BeatStarts => Move(st, o, Waiting(a.phase.pod))
    case FailEarly => Move(st, o, ReleasingFirst(a.phase.pod))
    case StartWorker => Move(st, o, Starting(a.phase.pod))
    case Check =>
      Move(st, o,
           if a.lost then Aborting(a.phase.pod)
           else if a.phase.Starting? then Calling(a.phase.pod)
           else if a.phase.Called? then Answered(a.phase.pod)
           else Committing(a.phase.pod))
    case PodAnswers => Move(st, o, Called(a.phase.pod))
    case Raises => Move(st, o, RollingBack(a.phase.pod))
    case Judge(ok) => Move(st, o, if ok then Accepted(a.phase.pod) else RollingBack(a.phase.pod))
    case Commit(raises) =>
      Move(st.(routes := st.routes[s := a.phase.pod]), o,
           if raises then RollingBack(a.phase.pod) else Finishing)
    case Rollback(again) =>
      Move(st.(spec := DeleteEntry(st.spec, a.phase.pod, s)), o,
           if again then RollingBack(a.phase.pod) else Finishing)
    case AbortTry(c) =>
      var (ok, leases') := TryAcquire(st.leases, st.now, s, c, cfg.ttl);
      if ok
      then Move(st.(leases := leases', cleaners := st.cleaners + {c}), o,
                Cleaning(a.phase.pod, c, st.now + cfg.ttl))
      else Move(st, o, Finishing)
    case CleanDelete => st.(spec := DeleteEntry(st.spec, a.phase.pod, s))
    case CleanDone =>
      Move(st.(leases := Release(st.leases, st.now, s, a.phase.cleaner)), o, Finishing)
    case SweepDelete(p) => st.(spec := DeleteEntry(st.spec, p, s))
    case Finish =>
      Move(st.(leases := Release(st.leases, st.now, s, o)), o,
           if a.phase.ReleasingFirst? then RollingBackLate(a.phase.pod) else Done)
    case LateRollback => Move(st.(spec := DeleteEntry(st.spec, a.phase.pod, s)), o, Done)
    case Beat =>
      var (ok, leases') := Renew(st.leases, st.now, s, o, cfg.ttl);
      if ok
      then st.(leases := leases', attempts := st.attempts[o := a.(until := st.now + cfg.ttl)])
      else st.(attempts := st.attempts[o := a.(lost := true)])
    case BeatErrors => st.(attempts := st.attempts[o := a.(lost := true)])
  }

  // ---------------------------------------------------------------- runs

  /** `steps` can be taken one after the other from `st`. */
  predicate Valid(cfg: Config, st: State, steps: seq<Step>)
    decreases steps
  {
    steps == [] || (Enabled(st, steps[0]) && Valid(cfg, Apply(cfg, st, steps[0]), steps[1..]))
  }

  function Run(cfg: Config, st: State, steps: seq<Step>): State
    requires Valid(cfg, st, steps)
    decreases steps
  {
    if steps == [] then st else Run(cfg, Apply(cfg, st, steps[0]), steps[1..])
  }

  lemma {:induction false} RunConcat(cfg: Config, st: State, xs: seq<Step>, ys: seq<Step>)
    requires Valid(cfg, st, xs) && Valid(cfg, Run(cfg, st, xs), ys)
    ensures Valid(cfg, st, xs + ys) && Run(cfg, st, xs + ys) == Run(cfg, Run(cfg, st, xs), ys)
    decreases xs
  {
    if xs == [] {
      assert xs + ys == ys;
    } else {
      RunConcat(cfg, Apply(cfg, st, xs[0]), xs[1..], ys);
      assert (xs + ys)[1..] == xs[1..] + ys;
    }
  }
}
