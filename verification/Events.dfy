/** The events of one coordinator replica that works through them one at a time: add, delete and
    reprovision.  What each leaves of the store, and exactly when it keeps routes and reservations in
    agreement. */
module Events {
  import opened Store
  import opened Sequences
  import opened Placement
  import opened Selection
  import opened Replica

  // ---------------------------------------------------------------- what the outside does

  /** One pod as the cluster lists it. */
  datatype PodInfo = PodInfo(name: Pod, down: bool)

  /** What one pass over the cluster sees: its pods (None: the listing is unavailable), possibly
      stale stream counts, and how the pass goes. */
  datatype Pass = Pass(
    listing: Option<seq<PodInfo>>,
    counts: map<Pod, nat>,
    env: AttemptEnv,
    raiseAt: Option<nat>,  // which reservation call raises, if any
    ready: nat,            // ready replicas
    httpHealthy: nat)      // pods the health watcher calls healthy

  /** What the add handler returns: nothing to do, False (the lease is held), deferred, True, or one
      of the two ways it raises.  `Placed` is that True: the code also gives it when the attempt was
      rolled back or aborted quietly, when a Docker cluster is full and when the pods cannot be listed. */
  datatype Result = Noop | Refusal | Deferred | Placed | MaxReplicas | Raised

  predicate DistinctNames(listing: seq<PodInfo>) {
    forall i, j :: 0 <= i < j < |listing| ==> listing[i].name != listing[j].name
  }

  /** The names of the pods whose down flag is `down`, in listing order. */
  function Names(listing: seq<PodInfo>, down: bool): (r: seq<Pod>)
    ensures forall p :: p in r <==> PodInfo(p, down) in listing
  {
    if listing == [] then []
    else
      assert listing == [listing[0]] + listing[1..];
      (if listing[0].down == down then [listing[0].name] else []) + Names(listing[1..], down)
  }

  lemma {:induction false} NamesAreDistinct(listing: seq<PodInfo>, down: bool)
    requires DistinctNames(listing)
    ensures Distinct(Names(listing, down))
  {
    if listing != [] {
      var rest := listing[1..];
      assert forall i :: 0 <= i < |rest| ==> rest[i] == listing[i + 1];
      assert PodInfo(listing[0].name, down) !in rest;
      NamesAreDistinct(rest, down);
    }
  }

  /** Healthy pods with room, or failing those the unhealthy ones. */
  function Eligible(pass: Pass, threshold: nat): seq<Candidate>
    requires pass.listing.Some?
  {
    var healthy := Snapshot(Names(pass.listing.value, false), pass.counts, threshold);
    if healthy != [] then healthy else Snapshot(Names(pass.listing.value, true), pass.counts, threshold)
  }

  /** A pod that the placement may choose: its count is below the threshold, and it is healthy, or
      every healthy pod is full. */
  predicate MayTake(pass: Pass, threshold: nat, p: Pod)
    requires pass.listing.Some?
  {
    && CountOf(pass.counts, p) < threshold
    && (|| PodInfo(p, false) in pass.listing.value
        || (&& PodInfo(p, true) in pass.listing.value
            && forall info :: info in pass.listing.value && !info.down ==>
                 CountOf(pass.counts, info.name) >= threshold))
  }

  /** The candidates are exactly these pods, with their counts. */
  lemma EligibleIff(pass: Pass, threshold: nat, x: Candidate)
    requires pass.listing.Some?
    ensures x in Eligible(pass, threshold) <==>
              MayTake(pass, threshold, x.pod) && x.count == CountOf(pass.counts, x.pod)
  {
    var listing := pass.listing.value;
    var healthy := Snapshot(Names(listing, false), pass.counts, threshold);
    if healthy != [] {
      assert healthy[0] in healthy && PodInfo(healthy[0].pod, false) in listing;
    } else {
      forall info | info in listing && !info.down ensures CountOf(pass.counts, info.name) >= threshold {
        assert info == PodInfo(info.name, false);
        assert Candidate(info.name, CountOf(pass.counts, info.name)) !in healthy;
      }
    }
  }

  /** The pods as listed, by name. */
  function Listed(listing: seq<PodInfo>): (r: seq<Pod>)
    ensures |r| == |listing| && forall i :: 0 <= i < |r| ==> r[i] == listing[i].name
  {
    seq(|listing|, i requires 0 <= i < |listing| => listing[i].name)
  }

  lemma EligibleMeans(pass: Pass, threshold: nat)
    requires pass.listing.Some?
    ensures forall x :: x in Eligible(pass, threshold) ==> MayTake(pass, threshold, x.pod)
    ensures forall p :: MayTake(pass, threshold, p) ==>
              Candidate(p, CountOf(pass.counts, p)) in Eligible(pass, threshold)
    ensures Eligible(pass, threshold) == [] <==> forall p :: !MayTake(pass, threshold, p)
  {
    hide Eligible, MayTake;
    forall x
      ensures x in Eligible(pass, threshold) <==>
                MayTake(pass, threshold, x.pod) && x.count == CountOf(pass.counts, x.pod)
    {
      EligibleIff(pass, threshold, x);
    }
    if Eligible(pass, threshold) != [] {
      assert Eligible(pass, threshold)[0] in Eligible(pass, threshold);
    }
  }

  lemma {:induction false} NamesInOrder(listing: seq<PodInfo>, down: bool)
    ensures Subsequence(Names(listing, down), Listed(listing))
  {
    if listing != [] {
      NamesInOrder(listing[1..], down);
      assert Listed(listing)[1..] == Listed(listing[1..]);
      if listing[0].down == down {
        assert Names(listing, down)[1..] == Names(listing[1..], down);
      } else {
        assert Names(listing, down) == Names(listing[1..], down);
      }
    }
  }

  /** First-fit tries them in the order the cluster lists them. */
  lemma EligibleInOrder(pass: Pass, threshold: nat)
    requires pass.listing.Some?
    ensures Subsequence(Pods(Eligible(pass, threshold)), Listed(pass.listing.value))
  {
    var listing := pass.listing.value;
    forall down
      ensures Subsequence(Pods(Snapshot(Names(listing, down), pass.counts, threshold)), Listed(listing))
    {
      SnapshotInOrder(Names(listing, down), pass.counts, threshold);
      NamesInOrder(listing, down);
      SubsequenceTransitive(Pods(Snapshot(Names(listing, down), pass.counts, threshold)), Names(listing, down),
                            Listed(listing));
    }
  }

  lemma EligibleIsDistinct(pass: Pass, threshold: nat)
    requires pass.listing.Some? && DistinctNames(pass.listing.value)
    ensures DistinctPods(Eligible(pass, threshold))
  {
    forall down ensures DistinctPods(Snapshot(Names(pass.listing.value, down), pass.counts, threshold)) {
      NamesAreDistinct(pass.listing.value, down);
      SnapshotIsDistinct(Names(pass.listing.value, down), pass.counts, threshold);
    }
  }

  predicate AnyDown(pass: Pass) {
    pass.listing.Some? && exists i :: 0 <= i < |pass.listing.value| && pass.listing.value[i].down
  }

  // ---------------------------------------------------------------- agreement of routes and reservations

  /** The stream is reserved exactly on the pod it is routed to. */
  ghost predicate AgreeOn(spec: WorkloadSpec, routes: Routes, s: StreamId) {
    forall p :: Reserved(spec, p, s) <==> s in routes && routes[s] == p
  }

  ghost predicate Agreement(st: State) {
    forall s :: AgreeOn(st.spec, st.routes, s)
  }

  /** No stream's lease is held. */
  ghost predicate Idle(st: State) {
    forall s :: Holder(st.leases, st.now, s) == None
  }

  /** Reservations, routes and leases of other streams are as they were. */
  ghost predicate OnlyStream(st: State, st': State, s: StreamId) {
    && st'.leases - {s} == st.leases - {s} && st.now <= st'.now
    && st'.routes - {s} == st.routes - {s}
    && forall q, t :: t != s ==> (Reserved(st'.spec, q, t) <==> Reserved(st.spec, q, t))
  }

  lemma OnlyStreamKeepsOthers(st: State, st': State, s: StreamId)
    requires OnlyStream(st, st', s)
    ensures Agreement(st) && AgreeOn(st'.spec, st'.routes, s) ==> Agreement(st')
    ensures Idle(st) && Holder(st'.leases, st'.now, s) == None ==> Idle(st')
  {
    forall t ensures t != s ==> (t in st'.routes <==> t in st.routes) && (t in st'.leases <==> t in st.leases) {
      assert t != s ==> (t in st'.routes <==> t in st'.routes - {s}) && (t in st'.leases <==> t in st'.leases - {s});
    }
    forall t | t != s && t in st.routes ensures st'.routes[t] == st.routes[t] {
      assert (st'.routes - {s})[t] == (st.routes - {s})[t];
    }
    forall t | t != s && t in st.leases ensures st'.leases[t] == st.leases[t] {
      assert (st'.leases - {s})[t] == (st.leases - {s})[t];
    }
    if Agreement(st) && AgreeOn(st'.spec, st'.routes, s) {
      forall t ensures AgreeOn(st'.spec, st'.routes, t) {
        assert AgreeOn(st.spec, st.routes, t);
      }
    }
    if Idle(st) && Holder(st'.leases, st'.now, s) == None {
      forall t ensures Holder(st'.leases, st'.now, t) == None {
        assert Holder(st.leases, st.now, t) == None;
      }
    }
  }

  /** The attempt ended with the reservation kept exactly if the route was written. */
  predicate Clean(r: PlaceResult) {
    r.Attempted? ==> (Keeps(r.ending) <==> Routed(r.ending))
  }

  /** Spelled out: an attempt is not clean in three ways only. */
  lemma CleanMeans(r: PlaceResult)
    ensures Clean(r) <==> !(r.Attempted? && r.ending in {Unaccounted, Leaked, Aborted(false)})
  {
  }

  /** The reservation that a placement leaves on pod `q`. */
  predicate LeavesOn(r: PlaceResult, q: Pod) {
    r.Attempted? && Keeps(r.ending) && q == r.p
  }

  /** What a placement leaves of the reservations. */
  lemma PlacedReservations(r: PlaceResult, spec: WorkloadSpec, routes: Routes, s: StreamId, threshold: nat)
    requires r.Attempted? ==> TryReserve(spec, r.p, s, threshold).0 != Refused
    ensures var (spec', routes') := (SpecPlaced(r, spec, s, threshold), RoutesPlaced(r, routes, s));
            && routes' - {s} == routes - {s}
            && (forall q, t :: t != s ==> (Reserved(spec', q, t) <==> Reserved(spec, q, t)))
            && (!ReservedSomewhere(spec, s) ==> forall q :: Reserved(spec', q, s) <==> LeavesOn(r, q))
  {
    if r.Attempted? {
      var reserved := TryReserve(spec, r.p, s, threshold).1;
      forall q, t ensures Reserved(reserved, q, t) <==> Reserved(spec, q, t) || (q == r.p && t == s) {
        ReserveAddsOneEntry(spec, r.p, s, threshold, q, t);
      }
      forall q, t
        ensures Reserved(DeleteEntry(reserved, r.p, s), q, t) <==> Reserved(reserved, q, t) && !(q == r.p && t == s)
      {
        DeleteRemovesOneEntry(reserved, r.p, s, q, t);
      }
    }
  }

  // ---------------------------------------------------------------- events

  datatype DeleteCall = Responds(accepted: bool) | CallRaises

  /** How a delete goes: the pods listed, the pod's answer, and whether the route write raises. */
  datatype DeleteEnv = DeleteEnv(listing: Option<seq<PodInfo>>, call: DeleteCall, routeFails: bool)

  datatype ReprovisionEnv = ReprovisionEnv(
    recent: bool,        // this stream was reprovisioned, or any container restarted, just now
    cached: bool,        // the replica knows the stream
    watched: bool,       // a health watcher runs
    httpHealthy: nat,
    ready: nat,
    delete: DeleteEnv,
    known: bool,         // the stream registry still lists the stream
    tries: nat)          // placements before the deadline

  datatype Event =
    | Add(s: StreamId, passes: nat -> Pass)
    | Delete(s: StreamId, del: DeleteEnv)
    | Reprovision(s: StreamId, env: ReprovisionEnv, passes: nat -> Pass)

  ghost predicate Listable(passes: nat -> Pass) {
    forall k :: passes(k).listing.Some? ==> DistinctNames(passes(k).listing.value)
  }

  /** The cluster lists no pod twice. */
  ghost predicate WellFormed(ev: Event) {
    !ev.Delete? ==> Listable(ev.passes)
  }

  /** Pods may be unhealthy, refuse, fail or raise; but the lease is kept, the health wait does
      not raise, and nothing raises after a route write. */
  predicate OrderlyEnv(env: AttemptEnv, ttl: nat) {
    LeaseKept(ttl, ttl, env) && env.health != WaitRaises && env.route != RaisesAfter
  }

  ghost predicate Orderly(ev: Event, ttl: nat) {
    && (!ev.Delete? ==> forall k :: OrderlyEnv(ev.passes(k).env, ttl))
    && (ev.Delete? ==> !ev.del.routeFails)
    && (ev.Reprovision? ==> !ev.env.delete.routeFails)
  }

  // ---------------------------------------------------------------- adds

  /** What does not change while a replica runs. */
  datatype Setup = Setup(cfg: Config, how: AssigningMethod, docker: bool, maxReplicas: nat)

  /** The placement an add comes to, and the pass it ends with. */
  datatype Try = Try(place: PlaceResult, last: nat)

  /** What an add of a stream without reservations comes to when nobody holds its lease: pass after
      pass, each with one replica more, until a candidate takes the stream or no replica may be
      added. */
  function AddOf(setup: Setup, spec: WorkloadSpec, s: StreamId, passes: nat -> Pass, i: nat, replicas: nat): Try
    decreases if replicas == 0 then 1 else 0, if setup.maxReplicas > replicas then setup.maxReplicas - replicas else 0
  {
    if replicas == 0 then AddOf(setup, spec, s, passes, i + 1, 1)
    else if passes(i).listing.None? then Try(NoRoom, i)
    else
      var pass := passes(i);
      var place := PlaceOf(Eligible(pass, setup.cfg.threshold), setup.how, spec, setup.cfg, s, pass.env, pass.raiseAt);
      if place == NoRoom && !setup.docker && setup.maxReplicas > replicas
      then AddOf(setup, spec, s, passes, i + 1, replicas + 1)
      else Try(place, i)
  }

  lemma PlaceEnding(eligible: seq<Candidate>, how: AssigningMethod, spec: WorkloadSpec, cfg: Config, s: StreamId,
                    env: AttemptEnv, raiseAt: Option<nat>)
    ensures var r := PlaceOf(eligible, how, spec, cfg, s, env, raiseAt);
            r != Held && (r.Attempted? ==> r.ending == EndingOf(cfg.ttl, cfg.ttl, env))
  {
    hide Walk, EndingOf;
  }

  lemma {:induction false} AddEnding(setup: Setup, spec: WorkloadSpec, s: StreamId, passes: nat -> Pass, i: nat,
                                    replicas: nat)
    ensures var t := AddOf(setup, spec, s, passes, i, replicas);
            t.place.Attempted? ==> t.place.ending == EndingOf(setup.cfg.ttl, setup.cfg.ttl, passes(t.last).env)
    decreases if replicas == 0 then 1 else 0, if setup.maxReplicas > replicas then setup.maxReplicas - replicas else 0
  {
    hide PlaceOf, EndingOf, Eligible;
    if replicas == 0 {
      AddEnding(setup, spec, s, passes, i + 1, 1);
    } else if passes(i).listing.Some? {
      var pass := passes(i);
      PlaceEnding(Eligible(pass, setup.cfg.threshold), setup.how, spec, setup.cfg, s, pass.env, pass.raiseAt);
      if setup.maxReplicas > replicas {
        AddEnding(setup, spec, s, passes, i + 1, replicas + 1);
      }
    }
  }

  /** An add that finds room on its first pass and that nothing goes wrong for succeeds on it. */
  lemma AddSucceeds(setup: Setup, spec: WorkloadSpec, s: StreamId, passes: nat -> Pass, i: nat, replicas: nat)
    requires replicas > 0 && passes(i).listing.Some? && DistinctNames(passes(i).listing.value)
    requires AllGoesWell(passes(i).env, setup.cfg.ttl) && passes(i).raiseAt.None?
    requires exists p :: MayTake(passes(i), setup.cfg.threshold, p)
                         && TryReserve(spec, p, s, setup.cfg.threshold).0 != Refused
    ensures var t := AddOf(setup, spec, s, passes, i, replicas);
            t.last == i && t.place.Attempted? && t.place.ending == Committed
  {
    hide Eligible, MayTake, AllGoesWell, EndingOf, PlaceOf;
    var (pass, threshold) := (passes(i), setup.cfg.threshold);
    var p :| MayTake(pass, threshold, p) && TryReserve(spec, p, s, threshold).0 != Refused;
    var x := Candidate(p, CountOf(pass.counts, p));
    EligibleIff(pass, threshold, x);
    EligibleIsDistinct(pass, threshold);
    assert Accepts(spec, threshold, s, x);
    PlacedWhenTaken(Eligible(pass, threshold), setup.how, spec, setup.cfg, s, pass.env);
    PlaceEnding(Eligible(pass, threshold), setup.how, spec, setup.cfg, s, pass.env, pass.raiseAt);
    AllGoesWellCommits(pass.env, setup.cfg.ttl);
  }

  /** What an attempt's ending tells the bus handler. */
  function AfterAttempt(e: Ending, env: AttemptEnv): Result {
    if EscapesUnhealthy(e, env) then Deferred else if Escapes(e, env) then Raised else Placed
  }

  /** When that is: deferred if a pod did not become healthy in time, before the worker or in a
      synchronous add call; raised for every other exception that escapes. */
  lemma AttemptResultIff(ttl: nat, env: AttemptEnv)
    ensures var e := EndingOf(ttl, ttl, env);
            var late := && Starts(env) && !env.async && !Flags(ttl, env.beforeCall)
                        && env.add.AddRaises? && env.add.unhealthy;
            && (AfterAttempt(e, env) == Deferred <==> (env.beatStarts && env.health == Unhealthy) || late)
            && (AfterAttempt(e, env) == Raised <==>
                  || !env.beatStarts || env.health == WaitRaises
                  || (env.health != Unhealthy && env.async && !env.threadStarts)
                  || (&& Starts(env) && !env.async && !Flags(ttl, env.beforeCall) && !late
                      && (|| env.add.AddRaises?
                          || (&& !e.Aborted?
                              && (if env.add.statusOk then env.route != Written else env.add.noticeRaises)))))
            && AfterAttempt(e, env) in {Deferred, Raised, Placed}
  {
    EscapesIff(ttl, ttl, env);
    EndingIff(ttl, ttl, env);
  }

  /** The attempt left its lease behind. */
  predicate Leaks(r: PlaceResult) {
    r.Attempted? && r.ending == Leaked
  }

  /** What an add leaves of the store, by the placement it came to. */
  ghost predicate Provisioned(st: State, st': State, s: StreamId, tried: PlaceResult) {
    && OnlyStream(st, st', s)
    && st'.routes == RoutesPlaced(tried, st.routes, s)
    && (Holder(st.leases, st.now, s) == None ==>
          && (Leaks(tried) || Holder(st'.leases, st'.now, s) == None)
          && (s !in st.routes || !ReservedSomewhere(st.spec, s) ==>
                forall q :: Reserved(st'.spec, q, s) <==> LeavesOn(tried, q)))
  }

  /** So an unrouted stream agrees afterwards exactly if the attempt ended clean. */
  lemma AddAgreesIff(st: State, st': State, s: StreamId, tried: PlaceResult)
    requires Provisioned(st, st', s, tried) && Holder(st.leases, st.now, s) == None && s !in st.routes
    ensures AgreeOn(st'.spec, st'.routes, s) <==> Clean(tried)
  {
    if tried.Attempted? {
      assert Reserved(st'.spec, tried.p, s) <==> LeavesOn(tried, tried.p);
    }
  }

  /** A stale route, one without a reservation, is repaired by the next add exactly if that add
      keeps a reservation on the pod it is then routed to: one that ends committed does, one that
      rolls back or never attempts keeps the stale route. */
  lemma StaleRouteRepairedIff(st: State, st': State, s: StreamId, tried: PlaceResult)
    requires Provisioned(st, st', s, tried) && Holder(st.leases, st.now, s) == None
    requires s in st.routes && !ReservedSomewhere(st.spec, s)
    ensures AgreeOn(st'.spec, st'.routes, s) <==>
              tried.Attempted? && Keeps(tried.ending) && (Routed(tried.ending) || st.routes[s] == tried.p)
    ensures tried.Attempted? && tried.ending == Committed ==>
              AgreeOn(st'.spec, st'.routes, s) && st'.routes[s] == tried.p
    ensures !tried.Attempted? || tried.ending == RolledBack ==>
              st'.routes == st.routes && !ReservedSomewhere(st'.spec, s)
  {
    if tried.Attempted? {
      assert Reserved(st'.spec, tried.p, s) <==> LeavesOn(tried, tried.p);
    }
    assert s in st'.routes;
    assert Reserved(st'.spec, st'.routes[s], s) <==> LeavesOn(tried, st'.routes[s]);
  }

  /** How the last pass over the cluster explains the result: by an attempt on a candidate of that
      pass, by a reservation call that raised, by the lease being held, or by every candidate
      refusing. */
  ghost predicate Explains(pass: Pass, r: Result, tried: PlaceResult, cfg: Config, spec: WorkloadSpec,
                           docker: bool, replicas: nat, maxReplicas: nat, s: StreamId) {
    match tried
    case Held => r in {Refusal, Placed}
    case ReserveRaised => r == Raised && pass.raiseAt.Some?
    case Attempted(p, ending) =>
      && r == AfterAttempt(ending, pass.env) && ending == EndingOf(cfg.ttl, cfg.ttl, pass.env)
      && pass.listing.Some? && MayTake(pass, cfg.threshold, p)
    case NoRoom =>
      if pass.listing.None? then r == Placed
      else
        var down := exists info :: info in pass.listing.value && info.down;
        && (docker || replicas >= maxReplicas)
        && (r == MaxReplicas <==> !docker && pass.ready >= replicas && (!down || pass.httpHealthy > 0))
        && (r == Placed <==> docker && !down)
        && r in {MaxReplicas, Placed, Deferred}
        && forall p :: MayTake(pass, cfg.threshold, p) ==> TryReserve(spec, p, s, cfg.threshold).0 == Refused
  }

  /** The exact condition for an add to be refused: somebody holds the lease, and the add wants it,
      to sweep orphaned reservations or because some pod of the first pass may take the stream. */
  ghost predicate Refuses(st: State, s: StreamId, pass: Pass, replicas: nat, threshold: nat) {
    && Holder(st.leases, st.now, s) != None
    && (if ReservedSomewhere(st.spec, s) then s !in st.routes
        else replicas > 0 && pass.listing.Some? && exists p :: MayTake(pass, threshold, p))
  }

  /** What an add returns, from the store before it: nothing to do, refused, or what its last pass
      says.  A lease held only at a later pass, after a replica was added, reads as done. */
  ghost predicate AddResult(setup: Setup, st: State, replicas: nat, st': State, replicas': nat, s: StreamId,
                            passes: nat -> Pass, i: nat, r: Result, tried: PlaceResult, last: nat)
  {
    && (r == Noop <==> s in st.routes && ReservedSomewhere(st.spec, s))
    && (r == Refusal <==> Refuses(st, s, passes(i), replicas, setup.cfg.threshold))
    && (r in {Noop, Refusal} ==> st' == st && replicas' == replicas)
    && (r == Noop ==> tried == NoRoom)
    && (r != Noop ==>
          Explains(passes(last), r, tried, setup.cfg, st'.spec, setup.docker, replicas', setup.maxReplicas, s))
    && (tried == Held ==>
          Holder(st.leases, st.now, s) != None && (r == Refusal <==> replicas' == replicas))
  }

  /** An add of a new stream that nothing goes wrong for: the lease is free, some pod of the first
      pass may take the stream and has room, and the attempt goes well. */
  ghost predicate GoesWell(setup: Setup, st: State, s: StreamId, pass: Pass, replicas: nat) {
    && Holder(st.leases, st.now, s) == None && !ReservedSomewhere(st.spec, s)
    && replicas > 0 && pass.listing.Some? && pass.raiseAt.None? && AllGoesWell(pass.env, setup.cfg.ttl)
    && exists p :: MayTake(pass, setup.cfg.threshold, p)
                   && TryReserve(st.spec, p, s, setup.cfg.threshold).0 != Refused
  }

  /** Then the stream is routed to a pod that may take it, and reserved there. */
  lemma AddSucceededMeans(setup: Setup, st: State, replicas: nat, st': State, replicas': nat, s: StreamId,
                          passes: nat -> Pass, i: nat, r: Result, tried: PlaceResult, last: nat)
    requires Provisioned(st, st', s, tried) && Listable(passes)
    requires AddResult(setup, st, replicas, st', replicas', s, passes, i, r, tried, last)
    requires Holder(st.leases, st.now, s) == None && !ReservedSomewhere(st.spec, s) ==>
               Try(tried, last) == AddOf(setup, st.spec, s, passes, i, replicas)
    ensures GoesWell(setup, st, s, passes(i), replicas) ==>
              && r == Placed && s in st'.routes && Reserved(st'.spec, st'.routes[s], s)
              && MayTake(passes(i), setup.cfg.threshold, st'.routes[s])
  {
    hide AddOf, MayTake, TryReserve;
    if GoesWell(setup, st, s, passes(i), replicas) {
      AddSucceeds(setup, st.spec, s, passes, i, replicas);
      assert LeavesOn(tried, tried.p);
    }
  }

  /** Nothing is reserved for `s`: what a placement try then leaves. */
  lemma PlacedIsProvisioned(st: State, st': State, s: StreamId, tried: PlaceResult, threshold: nat)
    requires !ReservedSomewhere(st.spec, s) && st.now <= st'.now && st'.leases - {s} == st.leases - {s}
    requires tried.Attempted? ==> TryReserve(st.spec, tried.p, s, threshold).0 != Refused
    requires st'.spec == SpecPlaced(tried, st.spec, s, threshold) && st'.routes == RoutesPlaced(tried, st.routes, s)
    requires Holder(st.leases, st.now, s) == None ==> Leaks(tried) || Holder(st'.leases, st'.now, s) == None
    ensures Provisioned(st, st', s, tried)
  {
    PlacedReservations(tried, st.spec, st.routes, s, threshold);
  }

  /** A state that differs only in the lease of `s` and in orphaned reservations of `s` may be
      put before. */
  lemma ProvisionedAfterSweep(st: State, mid: State, st': State, s: StreamId, tried: PlaceResult)
    requires Provisioned(mid, st', s, tried) && s !in st.routes
    requires st.leases - {s} == mid.leases - {s} && st.now <= mid.now && mid.routes == st.routes
    requires forall q, t :: t != s ==> (Reserved(mid.spec, q, t) <==> Reserved(st.spec, q, t))
    requires Holder(mid.leases, mid.now, s) == None
    ensures Provisioned(st, st', s, tried)
  {
  }

  /** An unsuccessful placement may be put before the next, and so may time. */
  lemma ProvisionedAgain(st: State, mid: State, st': State, s: StreamId, tried: PlaceResult)
    requires Provisioned(mid, st', s, tried)
    requires st.leases - {s} == mid.leases - {s} && st.now <= mid.now && mid.routes == st.routes && mid.spec == st.spec
    requires Holder(st.leases, st.now, s) == None ==> Holder(mid.leases, mid.now, s) == None
    ensures Provisioned(st, st', s, tried)
  {
  }

  // ---------------------------------------------------------------- deletes

  /** The delete handler finds the routed pod among the listed ones. */
  predicate Reaches(env: DeleteEnv, replicas: nat, routes: Routes, s: StreamId) {
    && replicas != 0 && env.listing.Some? && s in routes
    && exists i :: 0 <= i < |env.listing.value| && env.listing.value[i].name == routes[s]
  }

  /** It then removes the stream: the pod agreed, or has no reservation list at all. */
  predicate Removes(env: DeleteEnv, replicas: nat, spec: WorkloadSpec, routes: Routes, s: StreamId) {
    && Reaches(env, replicas, routes, s) && env.call.Responds?
    && (env.call.accepted || routes[s] !in spec)
  }

  predicate DeleteRaises(env: DeleteEnv, replicas: nat, spec: WorkloadSpec, routes: Routes, s: StreamId) {
    || (Reaches(env, replicas, routes, s) && env.call.CallRaises?)
    || (Removes(env, replicas, spec, routes, s) && env.routeFails)
  }

  /** What the delete handler leaves of the store. */
  function AfterDelete(st: State, env: DeleteEnv, replicas: nat, s: StreamId): State {
    if !Removes(env, replicas, st.spec, st.routes, s) then st
    else st.(spec := DeleteEntry(st.spec, st.routes[s], s),
             routes := if env.routeFails then st.routes else st.routes - {s})
  }

  /** The cluster lists the pod the stream is routed to. */
  ghost predicate RoutedPodListed(env: DeleteEnv, replicas: nat, routes: Routes, s: StreamId) {
    && replicas > 0 && env.listing.Some? && s in routes
    && exists info :: info in env.listing.value && info.name == routes[s]
  }

  /** In plain terms: nothing happens unless the routed pod is listed, answers, and agrees or has no
      reservation list; then the entry is gone, and the route unless its write fails. */
  lemma DeleteMeans(st: State, env: DeleteEnv, replicas: nat, s: StreamId)
    ensures var st' := AfterDelete(st, env, replicas, s);
            var removed := RoutedPodListed(env, replicas, st.routes, s)
                           && (env.call == Responds(true) || (env.call == Responds(false) && st.routes[s] !in st.spec));
            && (!removed ==> st' == st)
            && (removed ==> !Reserved(st'.spec, st.routes[s], s) && (s in st'.routes <==> env.routeFails))
            && (DeleteRaises(env, replicas, st.spec, st.routes, s) <==>
                  || (RoutedPodListed(env, replicas, st.routes, s) && env.call == CallRaises)
                  || (removed && env.routeFails))
  {
    if replicas > 0 && env.listing.Some? {
      var listing := env.listing.value;
      assert forall i :: 0 <= i < |listing| ==> listing[i] in listing;
      assert RoutedPodListed(env, replicas, st.routes, s) <==> Reaches(env, replicas, st.routes, s);
    }
  }

  /** The delete removed the entry and failed to remove the route. */
  predicate Halves(env: DeleteEnv, replicas: nat, spec: WorkloadSpec, routes: Routes, s: StreamId) {
    Removes(env, replicas, spec, routes, s) && env.routeFails
  }

  /** Deleting the entry and the route of an agreeing stream keeps agreement; the entry alone
      breaks it. */
  lemma DeleteAgreesIff(st: State, env: DeleteEnv, replicas: nat, s: StreamId)
    ensures var st' := AfterDelete(st, env, replicas, s);
            && OnlyStream(st, st', s) && st'.leases == st.leases && st'.now == st.now
            && (AgreeOn(st.spec, st.routes, s) ==>
                  && (AgreeOn(st'.spec, st'.routes, s) <==> !Halves(env, replicas, st.spec, st.routes, s))
                  && (s !in st'.routes ==> !ReservedSomewhere(st'.spec, s)))
  {
    if Removes(env, replicas, st.spec, st.routes, s) {
      var spec' := DeleteEntry(st.spec, st.routes[s], s);
      forall q, t ensures Reserved(spec', q, t) <==> Reserved(st.spec, q, t) && !(q == st.routes[s] && t == s) {
        DeleteRemovesOneEntry(st.spec, st.routes[s], s, q, t);
      }
      assert !Reserved(spec', st.routes[s], s);
      assert (st.routes - {s}) - {s} == st.routes - {s};
    }
  }

  // ---------------------------------------------------------------- when an event keeps the agreement

  /** The store and the replica count between two events. */
  datatype Moment = Moment(st: State, replicas: nat)

  /** A reprovision waits for healthy pods before it deletes anything. */
  predicate Waits(env: ReprovisionEnv, replicas: nat) {
    replicas != 0 && ((env.watched && env.httpHealthy == 0) || env.ready < replicas)
  }

  /** A reprovision that touches nothing. */
  predicate Skips(env: ReprovisionEnv, replicas: nat) {
    env.recent || !env.cached || Waits(env, replicas)
  }

  /** The add of an agreeing stream: nothing to do, or an attempt that ends clean. */
  predicate AddKeeps(setup: Setup, st: State, s: StreamId, passes: nat -> Pass, replicas: nat) {
    s in st.routes || Clean(AddOf(setup, st.spec, s, passes, 0, replicas).place)
  }

  /** The condition, on the event and the store before it, under which the event keeps routes and
      reservations in agreement. */
  predicate KeepsAgreement(setup: Setup, ev: Event, st: State, replicas: nat) {
    match ev
    case Add(s, passes) => AddKeeps(setup, st, s, passes, replicas)
    case Delete(s, env) => !Halves(env, replicas, st.spec, st.routes, s)
    case Reprovision(s, env, passes) =>
      || Skips(env, replicas)
      || (&& !Halves(env.delete, replicas, st.spec, st.routes, s)
          && (|| DeleteRaises(env.delete, replicas, st.spec, st.routes, s) || !env.known || env.tries == 0
              || AddKeeps(setup, AfterDelete(st, env.delete, replicas, s), s, passes, replicas)))
  }

  lemma OrderlyAddKeeps(setup: Setup, st: State, s: StreamId, passes: nat -> Pass, replicas: nat)
    requires forall k :: OrderlyEnv(passes(k).env, setup.cfg.ttl)
    ensures AddKeeps(setup, st, s, passes, replicas)
  {
    var t := AddOf(setup, st.spec, s, passes, 0, replicas);
    AddEnding(setup, st.spec, s, passes, 0, replicas);
    assert OrderlyEnv(passes(t.last).env, setup.cfg.ttl);
    KeptIffRouted(setup.cfg.ttl, setup.cfg.ttl, passes(t.last).env);
  }

  /** Orderly events meet it in every state: pods may refuse, fail or raise. */
  lemma OrderlyKeeps(setup: Setup, ev: Event, st: State, replicas: nat)
    requires Orderly(ev, setup.cfg.ttl)
    ensures KeepsAgreement(setup, ev, st, replicas)
  {
    match ev
    case Add(s, passes) => OrderlyAddKeeps(setup, st, s, passes, replicas);
    case Delete(s, env) =>
    case Reprovision(s, env, passes) =>
      OrderlyAddKeeps(setup, AfterDelete(st, env.delete, replicas, s), s, passes, replicas);
  }

  /** An event that touches one stream keeps or breaks the agreement of all as it does its own. */
  lemma StreamDecidesAll(st: State, st': State, s: StreamId)
    requires OnlyStream(st, st', s) && Agreement(st) && Idle(st)
    ensures Agreement(st') <==> AgreeOn(st'.spec, st'.routes, s)
    ensures Holder(st'.leases, st'.now, s) == None ==> Idle(st')
  {
    OnlyStreamKeepsOthers(st, st', s);
  }

  /** How a reprovision's placements settle: the first that is not refused is what an add would be,
      some seconds later; if all are refused the lease outlived the tries. */
  ghost predicate SettledFrom(st: State, st': State, s: StreamId, tries: nat, passes: nat -> Pass, setup: Setup,
                              replicas: nat, replicas': nat, r: Result, tried: PlaceResult, last: nat)
  {
    if r == Refusal then
      && st' == st.(now := st.now + tries) && tries > 0
      && Holder(st.leases, st.now + tries - 1, s) != None
    else
      && Provisioned(st, st', s, tried)
      && (r == Noop <==> s in st.routes && ReservedSomewhere(st.spec, s))
      && (r == Noop ==> tried == NoRoom && st' == st.(now := st'.now))
      && (r != Noop ==>
            Explains(passes(last), r, tried, setup.cfg, st'.spec, setup.docker, replicas', setup.maxReplicas, s))
      && (Holder(st.leases, st.now, s) == None && !ReservedSomewhere(st.spec, s) ==>
            Try(tried, last) == AddOf(setup, st.spec, s, passes, 0, replicas))
  }

  /** What a reprovision returns and leaves: nothing touched while it skips, the delete's effect if
      that raised or nothing is to be placed, else how the placements settle after the delete. */
  ghost predicate ReprovisionResult(setup: Setup, st: State, replicas: nat, st': State, replicas': nat, s: StreamId,
                                    env: ReprovisionEnv, passes: nat -> Pass, r: Result, tried: PlaceResult, last: nat)
  {
    var mid := AfterDelete(st, env.delete, replicas, s);
    if Skips(env, replicas) then st' == st && r == if env.recent || !env.cached then Noop else Deferred
    else if DeleteRaises(env.delete, replicas, st.spec, st.routes, s) then r == Raised && st' == mid
    else if !env.known || env.tries == 0 then r == Noop && st' == mid
    else SettledFrom(mid, st', s, env.tries, passes, setup, replicas, replicas', r, tried, last)
  }

  /** A placement from agreement keeps it exactly if the add does. */
  lemma ProvisionKeepsIff(st: State, st': State, setup: Setup, s: StreamId, passes: nat -> Pass, replicas: nat,
                          r: Result, tried: PlaceResult, last: nat)
    requires AgreeOn(st.spec, st.routes, s) && Holder(st.leases, st.now, s) == None
    requires r != Refusal && Provisioned(st, st', s, tried)
    requires r == Noop <==> s in st.routes && ReservedSomewhere(st.spec, s)
    requires r == Noop ==> st' == st.(now := st'.now) && tried == NoRoom
    requires !ReservedSomewhere(st.spec, s) ==> Try(tried, last) == AddOf(setup, st.spec, s, passes, 0, replicas)
    ensures AgreeOn(st'.spec, st'.routes, s) <==> AddKeeps(setup, st, s, passes, replicas)
    ensures AddKeeps(setup, st, s, passes, replicas) ==> Holder(st'.leases, st'.now, s) == None
  {
    hide AddOf;
    if s in st.routes {
      assert Reserved(st.spec, st.routes[s], s);
    } else {
      AddAgreesIff(st, st', s, tried);
    }
  }

  /** The agreement before decides the agreement after, by the event's condition. */
  ghost predicate StepDecided(setup: Setup, ev: Event, m: Moment, m': Moment) {
    Agreement(m.st) && Idle(m.st) ==>
      var keeps := KeepsAgreement(setup, ev, m.st, m.replicas);
      (Agreement(m'.st) <==> keeps) && (keeps ==> Idle(m'.st))
  }

  lemma DecidedThroughout(setup: Setup, events: seq<Event>, moments: seq<Moment>)
    requires |moments| == |events| + 1 && Agreement(moments[0].st) && Idle(moments[0].st)
    requires forall i :: 0 <= i < |events| ==> StepDecided(setup, events[i], moments[i], moments[i + 1])
    ensures (forall i :: 0 <= i <= |events| ==> Agreement(moments[i].st)) <==>
            (forall i :: 0 <= i < |events| ==> KeepsAgreement(setup, events[i], moments[i].st, moments[i].replicas))
    ensures (forall i :: 0 <= i < |events| ==> Orderly(events[i], setup.cfg.ttl)) ==>
              Agreement(moments[|events|].st) && Idle(moments[|events|].st)
  {
    hide Agreement, Idle, KeepsAgreement, Orderly;
    var n := 0;
    while n < |events| && KeepsAgreement(setup, events[n], moments[n].st, moments[n].replicas)
      invariant n <= |events| && Agreement(moments[n].st) && Idle(moments[n].st)
      invariant forall i :: 0 <= i <= n ==> Agreement(moments[i].st)
      invariant forall i :: 0 <= i < n ==> KeepsAgreement(setup, events[i], moments[i].st, moments[i].replicas)
    {
      assert StepDecided(setup, events[n], moments[n], moments[n + 1]);
      n := n + 1;
    }
    if n < |events| {
      assert StepDecided(setup, events[n], moments[n], moments[n + 1]);
      if Orderly(events[n], setup.cfg.ttl) {
        OrderlyKeeps(setup, events[n], moments[n].st, moments[n].replicas);
      }
      assert !Agreement(moments[n + 1].st);
    }
  }

  /** No placement at all leaves everything as it is. */
  lemma NothingPlaced(st: State, s: StreamId, threshold: nat)
    requires !ReservedSomewhere(st.spec, s)
    ensures Provisioned(st, st, s, NoRoom) && SpecPlaced(NoRoom, st.spec, s, threshold) == st.spec
  {
  }
}
