/** The event handlers as they are written: one coordinator replica that works through its events
    one at a time, over the attempts of module Replica. */
module Handlers {
  import opened Store
  import opened Placement
  import opened Selection
  import opened Replica
  import opened Events

  class Handler {
    const c: Coordinator
    const docker: bool
    const maxReplicas: nat
    var replicas: nat

    constructor (c: Coordinator, docker: bool, maxReplicas: nat, replicas: nat)
      ensures this.c == c && this.docker == docker && this.maxReplicas == maxReplicas && this.replicas == replicas
    {
      this.c, this.docker, this.maxReplicas, this.replicas := c, docker, maxReplicas, replicas;
    }

    ghost predicate Ready()
      reads this, c
    {
      c.OwnersKnown() && c.threads == {}
    }

    ghost function Settings(): Setup {
      Setup(c.cfg, c.how, docker, maxReplicas)
    }

    /** One placement over the candidates of one snapshot. */
    method PlaceOnce(s: StreamId, pass: Pass) returns (tried: PlaceResult)
      requires Ready() && pass.listing.Some? && DistinctNames(pass.listing.value)
      modifies c
      ensures Ready() && c.st.leases - {s} == old(c.st.leases) - {s} && c.st.now >= old(c.st.now)
      ensures tried == Held ==> c.st == old(c.st) && Holder(old(c.st.leases), old(c.st.now), s) != None
      ensures tried == Held <==>
                && (exists p :: MayTake(pass, c.cfg.threshold, p))
                && Holder(old(c.st.leases), old(c.st.now), s) != None
      ensures tried != Held ==>
                tried == PlaceOf(Eligible(pass, c.cfg.threshold), c.how, old(c.st.spec), c.cfg, s, pass.env,
                                 pass.raiseAt)
      ensures tried == ReserveRaised ==> pass.raiseAt.Some?
      ensures c.st.spec == SpecPlaced(tried, old(c.st.spec), s, c.cfg.threshold)
      ensures c.st.routes == RoutesPlaced(tried, old(c.st.routes), s)
      ensures tried == NoRoom ==> forall p :: MayTake(pass, c.cfg.threshold, p) ==>
                                    TryReserve(c.st.spec, p, s, c.cfg.threshold).0 == Refused
      ensures tried.Attempted? ==>
                && tried.ending == EndingOf(c.cfg.ttl, c.cfg.ttl, pass.env)
                && TryReserve(old(c.st.spec), tried.p, s, c.cfg.threshold).0 != Refused
                && MayTake(pass, c.cfg.threshold, tried.p)
      ensures Holder(old(c.st.leases), old(c.st.now), s) == None ==>
                Leaks(tried) || Holder(c.st.leases, c.st.now, s) == None
    {
      hide Eligible, MayTake, EndingOf;
      EligibleMeans(pass, c.cfg.threshold);
      var eligible := Eligible(pass, c.cfg.threshold);
      if eligible == [] {
        return NoRoom;
      }
      EligibleIsDistinct(pass, c.cfg.threshold);
      tried := c.Place(s, eligible, pass.env, pass.raiseAt);
    }

    /** `provisionStreamRedis`.  `tried` is the placement it came to, if any, and `last` the pass
        it ended with. */
    method Provision(s: StreamId, passes: nat -> Pass, i: nat) returns (r: Result, tried: PlaceResult, last: nat)
      requires Ready() && Listable(passes)
      modifies this, c
      decreases if replicas == 0 then 1 else 0, if maxReplicas > replicas then maxReplicas - replicas else 0, 2
      ensures Ready() && Provisioned(old(c.st), c.st, s, tried)
      ensures AddResult(Settings(), old(c.st), old(replicas), c.st, replicas, s, passes, i, r, tried, last)
      ensures Holder(old(c.st.leases), old(c.st.now), s) == None && !ReservedSomewhere(old(c.st.spec), s) ==>
                && Try(tried, last) == AddOf(Settings(), old(c.st.spec), s, passes, i, old(replicas))
                && c.st.spec == SpecPlaced(tried, old(c.st.spec), s, c.cfg.threshold)
      ensures old(replicas) <= replicas && (replicas == old(replicas) || replicas <= maxReplicas || replicas == 1)
      ensures old(replicas) > 0 && (docker || old(replicas) >= maxReplicas) ==> replicas == old(replicas)
      ensures GoesWell(Settings(), old(c.st), s, passes(i), old(replicas)) ==>
                && r == Placed && s in c.st.routes && Reserved(c.st.spec, c.st.routes[s], s)
                && MayTake(passes(i), c.cfg.threshold, c.st.routes[s])
    {
      var holding := c.PodsHolding(s);
      if holding == [] {
        r, tried, last := ProvisionUnreserved(s, passes, i);
        AddSucceededMeans(Settings(), old(c.st), old(replicas), c.st, replicas, s, passes, i, r, tried, last);
        return;
      }
      assert Reserved(c.st.spec, holding[0], s);
      if s in c.st.routes {
        return Noop, NoRoom, i;
      }
      var granted := c.SweepOrphans(s);
      if !granted {
        return Refusal, Held, i;
      }
      ghost var mid := c.st;
      r, tried, last := ProvisionUnreserved(s, passes, i);
      ProvisionedAfterSweep(old(c.st), mid, c.st, s, tried);
    }

    /** The rest of it, once no reservation of the stream is left. */
    method ProvisionUnreserved(s: StreamId, passes: nat -> Pass, i: nat)
      returns (r: Result, tried: PlaceResult, last: nat)
      requires Ready() && Listable(passes) && !ReservedSomewhere(c.st.spec, s)
      modifies this, c
      decreases if replicas == 0 then 1 else 0, if maxReplicas > replicas then maxReplicas - replicas else 0, 1
      ensures Ready() && Provisioned(old(c.st), c.st, s, tried)
      ensures Explains(passes(last), r, tried, c.cfg, c.st.spec, docker, replicas, maxReplicas, s)
      ensures r != Noop
      ensures r == Refusal <==> Refuses(old(c.st), s, passes(i), old(replicas), c.cfg.threshold)
      ensures r == Refusal ==> c.st == old(c.st)
      ensures tried == Held ==>
                && Holder(old(c.st.leases), old(c.st.now), s) != None
                && (r == Refusal <==> replicas == old(replicas))
      ensures r == Refusal ==> tried == Held
      ensures Holder(old(c.st.leases), old(c.st.now), s) == None ==>
                && Try(tried, last) == AddOf(Settings(), old(c.st.spec), s, passes, i, old(replicas))
                && c.st.spec == SpecPlaced(tried, old(c.st.spec), s, c.cfg.threshold)
      ensures old(replicas) <= replicas && (replicas == old(replicas) || replicas <= maxReplicas || replicas == 1)
      ensures old(replicas) > 0 && (docker || old(replicas) >= maxReplicas) ==> replicas == old(replicas)
    {
      hide Provisioned, PlaceOf, Eligible, MayTake, Escapes, EscapesUnhealthy, EndingOf, SpecPlaced, Accepts;
      hide TryReserve;
      if replicas == 0 {
        replicas := 1;
        r, tried, last := Provision(s, passes, i + 1);
        r := if r == Refusal then Placed else r;
        return;
      }
      last := i;
      NothingPlaced(c.st, s, c.cfg.threshold);
      if passes(i).listing.None? {
        return Placed, NoRoom, i;
      }
      tried := PlaceOnce(s, passes(i));
      PlacedIsProvisioned(old(c.st), c.st, s, tried, c.cfg.threshold);
      if tried == NoRoom {
        ghost var mid := c.st;
        r, tried, last := MakeRoom(s, passes, i);
        ProvisionedAgain(old(c.st), mid, c.st, s, tried);
      } else {
        r := match tried case Held => Refusal case Attempted(_, ending) => AfterAttempt(ending, passes(i).env)
             case _ => Raised;
      }
    }

    /** No candidate took the stream: add a replica and start over, or say why not. */
    method MakeRoom(s: StreamId, passes: nat -> Pass, i: nat) returns (r: Result, tried: PlaceResult, last: nat)
      requires Ready() && Listable(passes) && replicas > 0 && passes(i).listing.Some?
      requires !ReservedSomewhere(c.st.spec, s)
      requires forall p :: MayTake(passes(i), c.cfg.threshold, p) ==>
                 TryReserve(c.st.spec, p, s, c.cfg.threshold).0 == Refused
      modifies this, c
      decreases 0, if maxReplicas > replicas then maxReplicas - replicas else 0, 0
      ensures Ready() && Provisioned(old(c.st), c.st, s, tried)
      ensures Explains(passes(last), r, tried, c.cfg, c.st.spec, docker, replicas, maxReplicas, s)
      ensures r !in {Noop, Refusal}
      ensures tried == Held ==> Holder(old(c.st.leases), old(c.st.now), s) != None && replicas != old(replicas)
      ensures Holder(old(c.st.leases), old(c.st.now), s) == None ==>
                && Try(tried, last) == (if !docker && maxReplicas > old(replicas)
                                        then AddOf(Settings(), old(c.st.spec), s, passes, i + 1, old(replicas) + 1)
                                        else Try(NoRoom, i))
                && c.st.spec == SpecPlaced(tried, old(c.st.spec), s, c.cfg.threshold)
      ensures old(replicas) <= replicas && (replicas == old(replicas) || replicas <= maxReplicas)
      ensures docker || old(replicas) >= maxReplicas ==> replicas == old(replicas)
    {
      hide AddOf, MayTake, Eligible, TryReserve, SpecPlaced, EscapesUnhealthy, Escapes, EndingOf;
      if !docker && maxReplicas > replicas {
        replicas := replicas + 1;
        r, tried, last := Provision(s, passes, i + 1);
        r := if r == Refusal then Placed else r;
        return;
      }
      tried, last := NoRoom, i;
      if docker {
        r := if AnyDown(passes(i)) then Deferred else Placed;
      } else {
        r := if passes(i).ready < replicas || (AnyDown(passes(i)) && passes(i).httpHealthy == 0)
             then Deferred else MaxReplicas;
      }
      NothingPlaced(c.st, s, c.cfg.threshold);
    }

    /** `deprovisionStreamRedis`: call the routed pod, then drop the entry and the route. */
    method Deprovision(s: StreamId, env: DeleteEnv) returns (raised: bool)
      requires Ready()
      modifies c
      ensures Ready() && c.st == AfterDelete(old(c.st), env, replicas, s)
      ensures raised <==> DeleteRaises(env, replicas, old(c.st.spec), old(c.st.routes), s)
      ensures var (spec, routes) := (old(c.st.spec), old(c.st.routes));
              var listed := RoutedPodListed(env, replicas, routes, s);
              var removed :=
                listed && (env.call == Responds(true) || (env.call == Responds(false) && routes[s] !in spec));
              && (!removed ==> c.st == old(c.st))
              && (removed ==> !Reserved(c.st.spec, routes[s], s) && (s in c.st.routes <==> env.routeFails))
              && (raised <==> (listed && env.call == CallRaises) || (removed && env.routeFails))
    {
      DeleteMeans(c.st, env, replicas, s);
      if replicas == 0 || env.listing.None? {
        return false;
      }
      var pods, j := env.listing.value, 0;
      while j < |pods|
        invariant j <= |pods| && Ready()
        invariant var (spec, routes) := (old(c.st.spec), old(c.st.routes));
                  var found := exists k :: 0 <= k < j && s in routes && pods[k].name == routes[s];
                  var removed := found && (env.call.Responds? && (env.call.accepted || routes[s] !in spec));
                  && (found ==> env.call.Responds? && (removed ==> !env.routeFails))
                  && c.st == old(c.st).(spec := if removed then DeleteEntry(spec, routes[s], s) else spec,
                                        routes := if removed then routes - {s} else routes)
      {
        if s in c.st.routes && c.st.routes[s] == pods[j].name {
          if env.call.CallRaises? {
            return true;
          }
          if env.call.accepted || pods[j].name !in c.st.spec {
            c.DeleteReservation(pods[j].name, s);
            if env.routeFails {
              return true;
            }
            c.DeleteRoute(s);
          }
        }
        j := j + 1;
      }
      return false;
    }

    /** `reprovisionStreamRedis`: delete, then place again until something other than a refusal. */
    method Reprovision(s: StreamId, env: ReprovisionEnv, passes: nat -> Pass)
      returns (r: Result, tried: PlaceResult, last: nat)
      requires Ready() && Listable(passes)
      modifies this, c
      ensures Ready() && OnlyStream(old(c.st), c.st, s)
      ensures ReprovisionResult(Settings(), old(c.st), old(replicas), c.st, replicas, s, env, passes, r, tried, last)
      ensures var waits := old(replicas) > 0 && (env.ready < old(replicas) || (env.watched && env.httpHealthy == 0));
              && (env.recent || !env.cached ==> c.st == old(c.st) && r == Noop)
              && (!env.recent && env.cached && waits ==> c.st == old(c.st) && r == Deferred)
              && (!env.recent && env.cached && !waits && !env.known
                  && RoutedPodListed(env.delete, old(replicas), old(c.st.routes), s)
                  && env.delete.call == Responds(true) && !env.delete.routeFails ==>
                    s !in c.st.routes && !Reserved(c.st.spec, old(c.st.routes)[s], s))
    {
      last, tried := 0, NoRoom;
      if env.recent || !env.cached {
        return Noop, tried, last;
      }
      if Waits(env, replicas) {
        return Deferred, tried, last;
      }
      DeleteAgreesIff(c.st, env.delete, replicas, s);
      var raised := Deprovision(s, env.delete);
      if raised {
        return Raised, tried, last;
      }
      if !env.known || env.tries == 0 {
        return Noop, tried, last;
      }
      r, tried, last := PlaceUntilSettled(s, env.tries, passes);
    }

    /** Place again while the stream's lease is refused and the deadline allows, a second apart. */
    method PlaceUntilSettled(s: StreamId, tries: nat, passes: nat -> Pass)
      returns (r: Result, tried: PlaceResult, last: nat)
      requires Ready() && Listable(passes) && tries > 0
      modifies this, c
      ensures Ready()
      ensures SettledFrom(old(c.st), c.st, s, tries, passes, Settings(), old(replicas), replicas, r, tried, last)
    {
      var k: nat, i: nat := 0, 0;
      ghost var start := c.st;
      while true
        invariant k < tries && Ready() && c.st == start.(now := start.now + k) && replicas == old(replicas)
        invariant k == 0 ==> i == 0
        invariant k > 0 ==> Holder(start.leases, start.now + k - 1, s) != None
        decreases tries - k
      {
        ghost var mid := c.st;
        r, tried, last := Provision(s, passes, i);
        if r != Refusal {
          ProvisionedAgain(start, mid, c.st, s, tried);
          return;
        }
        c.Sleep(1);
        k, i := k + 1, last + 1;
        if k == tries {
          return;
        }
      }
    }

    /** One event.  A delete that returns counts as `Placed`: the handler then reports success. */
    method Handle(ev: Event) returns (r: Result, ghost tried: PlaceResult, ghost last: nat)
      requires Ready() && WellFormed(ev)
      modifies this, c
      ensures Ready() && OnlyStream(old(c.st), c.st, ev.s)
      ensures ev.Add? ==>
                && Provisioned(old(c.st), c.st, ev.s, tried)
                && AddResult(Settings(), old(c.st), old(replicas), c.st, replicas, ev.s, ev.passes, 0, r, tried, last)
      ensures ev.Delete? ==>
                && c.st == AfterDelete(old(c.st), ev.del, replicas, ev.s)
                && r == (if DeleteRaises(ev.del, replicas, old(c.st.spec), old(c.st.routes), ev.s)
                         then Raised else Placed)
      ensures ev.Reprovision? ==>
                ReprovisionResult(Settings(), old(c.st), old(replicas), c.st, replicas, ev.s, ev.env, ev.passes,
                                  r, tried, last)
      ensures old(Agreement(c.st) && Idle(c.st)) ==>
                var keeps := KeepsAgreement(Settings(), ev, old(c.st), old(replicas));
                (Agreement(c.st) <==> keeps) && (keeps ==> Idle(c.st))
    {
      match ev {
        case Add(s, passes) => r, tried, last := HandleAdd(s, passes);
        case Delete(s, env) =>
          r := HandleDelete(s, env);
          tried, last := NoRoom, 0;
        case Reprovision(s, env, passes) => r, tried, last := HandleReprovision(s, env, passes);
      }
    }

    method HandleAdd(s: StreamId, passes: nat -> Pass) returns (r: Result, ghost tried: PlaceResult, ghost last: nat)
      requires Ready() && Listable(passes)
      modifies this, c
      ensures Ready() && Provisioned(old(c.st), c.st, s, tried)
      ensures AddResult(Settings(), old(c.st), old(replicas), c.st, replicas, s, passes, 0, r, tried, last)
      ensures old(Agreement(c.st) && Idle(c.st)) ==>
                var keeps := AddKeeps(Settings(), old(c.st), s, passes, old(replicas));
                (Agreement(c.st) <==> keeps) && (keeps ==> Idle(c.st))
    {
      hide AddOf, Explains;
      r, tried, last := Provision(s, passes, 0);
      if old(Agreement(c.st) && Idle(c.st)) {
        assert AgreeOn(old(c.st.spec), old(c.st.routes), s) && Holder(old(c.st.leases), old(c.st.now), s) == None;
        ProvisionKeepsIff(old(c.st), c.st, Settings(), s, passes, old(replicas), r, tried, last);
        StreamDecidesAll(old(c.st), c.st, s);
      }
    }

    method HandleDelete(s: StreamId, env: DeleteEnv) returns (r: Result)
      requires Ready()
      modifies c
      ensures Ready() && OnlyStream(old(c.st), c.st, s)
      ensures c.st == AfterDelete(old(c.st), env, replicas, s)
      ensures r == if DeleteRaises(env, replicas, old(c.st.spec), old(c.st.routes), s) then Raised else Placed
      ensures old(Agreement(c.st) && Idle(c.st)) ==>
                (Agreement(c.st) <==> !Halves(env, replicas, old(c.st.spec), old(c.st.routes), s)) && Idle(c.st)
    {
      DeleteAgreesIff(c.st, env, replicas, s);
      var raised := Deprovision(s, env);
      if old(Agreement(c.st) && Idle(c.st)) {
        assert AgreeOn(old(c.st.spec), old(c.st.routes), s) && Holder(old(c.st.leases), old(c.st.now), s) == None;
        StreamDecidesAll(old(c.st), c.st, s);
      }
      r := if raised then Raised else Placed;
    }

    method HandleReprovision(s: StreamId, env: ReprovisionEnv, passes: nat -> Pass)
      returns (r: Result, ghost tried: PlaceResult, ghost last: nat)
      requires Ready() && Listable(passes)
      modifies this, c
      ensures Ready() && OnlyStream(old(c.st), c.st, s)
      ensures ReprovisionResult(Settings(), old(c.st), old(replicas), c.st, replicas, s, env, passes, r, tried, last)
      ensures old(Agreement(c.st) && Idle(c.st)) ==>
                var keeps := KeepsAgreement(Settings(), Event.Reprovision(s, env, passes), old(c.st), old(replicas));
                (Agreement(c.st) <==> keeps) && (keeps ==> Idle(c.st))
    {
      hide AddOf, Explains;
      r, tried, last := Reprovision(s, env, passes);
      if old(Agreement(c.st) && Idle(c.st)) {
        assert AgreeOn(old(c.st.spec), old(c.st.routes), s) && Holder(old(c.st.leases), old(c.st.now), s) == None;
        ghost var mid := AfterDelete(old(c.st), env.delete, old(replicas), s);
        DeleteAgreesIff(old(c.st), env.delete, old(replicas), s);
        if !Skips(env, old(replicas)) && AgreeOn(mid.spec, mid.routes, s) && env.known && env.tries > 0
           && !DeleteRaises(env.delete, old(replicas), old(c.st.spec), old(c.st.routes), s)
        {
          ProvisionKeepsIff(mid, c.st, Settings(), s, passes, old(replicas), r, tried, last);
        }
        StreamDecidesAll(old(c.st), c.st, s);
      }
    }

    /** Any sequence of events.  `moments` are the states between them: the agreement is kept all
        along exactly if every event meets its condition in the state it finds, and orderly events
        always do. */
    method HandleAll(events: seq<Event>) returns (ghost moments: seq<Moment>)
      requires Ready() && forall i :: 0 <= i < |events| ==> WellFormed(events[i])
      modifies this, c
      ensures Ready() && |moments| == |events| + 1
      ensures moments[0] == Moment(old(c.st), old(replicas)) && moments[|events|] == Moment(c.st, replicas)
      ensures forall i :: 0 <= i < |events| ==> OnlyStream(moments[i].st, moments[i + 1].st, events[i].s)
      ensures old(Agreement(c.st) && Idle(c.st)) ==>
                ((forall i :: 0 <= i <= |events| ==> Agreement(moments[i].st)) <==>
                 (forall i :: 0 <= i < |events| ==>
                    KeepsAgreement(Settings(), events[i], moments[i].st, moments[i].replicas)))
      ensures old(Agreement(c.st) && Idle(c.st))
              && (forall i :: 0 <= i < |events| ==> Orderly(events[i], c.cfg.ttl)) ==>
                Agreement(c.st) && Idle(c.st)
    {
      moments := [Moment(c.st, replicas)];
      var n := 0;
      while n < |events|
        invariant n <= |events| && Ready() && |moments| == n + 1
        invariant moments[0] == Moment(old(c.st), old(replicas)) && moments[n] == Moment(c.st, replicas)
        invariant forall i :: 0 <= i < n ==> OnlyStream(moments[i].st, moments[i + 1].st, events[i].s)
        invariant forall i :: 0 <= i < n ==> StepDecided(Settings(), events[i], moments[i], moments[i + 1])
      {
        var _, _, _ := Handle(events[n]);
        moments, n := moments + [Moment(c.st, replicas)], n + 1;
      }
      if old(Agreement(c.st) && Idle(c.st)) {
        DecidedThroughout(Settings(), events, moments);
      }
    }
  }
}
