/** Round robin on the store: what module RoundRobin proves of a table of counts holds of the
    reservations that the add handler makes, as long as its snapshots are fresh. */
module Spreading {
  import opened Store
  import opened Placement
  import opened Selection
  import opened RoundRobin
  import opened Replica
  import opened Events
  import opened Handlers

  /** The stream counts a fresh snapshot reads. */
  function CountsOf(spec: WorkloadSpec): (r: Counts)
    ensures forall p :: CountOf(r, p) == |Streams(spec, p)|
  {
    map p | p in spec :: |spec[p]|
  }

  /** A cluster whose pods are all healthy. */
  function AllUp(listing: seq<Pod>): seq<PodInfo> {
    seq(|listing|, i requires 0 <= i < |listing| => PodInfo(listing[i], false))
  }

  lemma {:induction false} NamesOfAllUp(listing: seq<Pod>)
    ensures Names(AllUp(listing), false) == listing && Names(AllUp(listing), true) == []
  {
    if listing != [] {
      NamesOfAllUp(listing[1..]);
      assert AllUp(listing)[1..] == AllUp(listing[1..]);
    }
  }

  /** An add that sees all pods up, with the counts of this moment, and whose attempt meets `env`. */
  function FreshPass(listing: seq<Pod>, spec: WorkloadSpec, env: AttemptEnv): Pass {
    Pass(Some(AllUp(listing)), CountsOf(spec), env, None, |listing|, |listing|)
  }

  lemma FreshEligible(listing: seq<Pod>, spec: WorkloadSpec, env: AttemptEnv, threshold: nat)
    ensures Eligible(FreshPass(listing, spec, env), threshold) == Snapshot(listing, CountsOf(spec), threshold)
  {
    NamesOfAllUp(listing);
  }

  /** With fresh counts the first candidate tried is the round-robin winner, and it takes the
      stream; without a winner nobody would. */
  lemma FreshPlacementIsWinner(listing: seq<Pod>, spec: WorkloadSpec, cfg: Config, s: StreamId, env: AttemptEnv)
    ensures PlaceOf(Eligible(FreshPass(listing, spec, env), cfg.threshold), LruRoundRobin, spec, cfg, s, env, None)
            == match Winner(listing, CountsOf(spec), cfg.threshold)
               case None => NoRoom
               case Some(p) => Attempted(p, EndingOf(cfg.ttl, cfg.ttl, env))
  {
    hide EndingOf, Walk, Select, Eligible, FreshPass;
    FreshEligible(listing, spec, env, cfg.threshold);
    FreshWalk(Snapshot(listing, CountsOf(spec), cfg.threshold), spec, cfg.threshold, s);
  }

  /** When every candidate has room the first one selected takes the stream. */
  lemma FreshWalk(cands: seq<Candidate>, spec: WorkloadSpec, threshold: nat, s: StreamId)
    requires forall c :: c in cands ==> |Streams(spec, c.pod)| < threshold
    ensures Walk(cands, LruRoundRobin, spec, threshold, s, None)
            == if cands == [] then AllRefused else Taken(Select(cands, LruRoundRobin))
  {
    if cands != [] {
      var w := Select(cands, LruRoundRobin);
      assert w in cands;
      assert Accepts(spec, threshold, s, w);
    }
  }

  /** A committed placement adds one to the winner's count and to no other. */
  lemma FreshPlacementCounts(listing: seq<Pod>, spec: WorkloadSpec, cfg: Config, s: StreamId, r: PlaceResult)
    requires !ReservedSomewhere(spec, s)
    requires r == match Winner(listing, CountsOf(spec), cfg.threshold)
                  case None => NoRoom
                  case Some(p) => Attempted(p, Committed)
    ensures CountsOf(SpecPlaced(r, spec, s, cfg.threshold)) == AddOne(listing, CountsOf(spec), cfg.threshold)
  {
    hide Winner, TryReserve;
    if r.Attempted? {
      WinnerHasRoom(listing, CountsOf(spec), cfg.threshold);
      assert !Reserved(spec, r.p, s);
      OneMoreReservation(spec, r.p, s, cfg.threshold);
    }
  }

  lemma WinnerHasRoom(listing: seq<Pod>, counts: Counts, threshold: nat)
    ensures var w := Winner(listing, counts, threshold); w.Some? ==> CountOf(counts, w.value) < threshold
  {
    var cands := Snapshot(listing, counts, threshold);
    if cands != [] {
      assert Select(cands, LruRoundRobin) in cands;
    }
  }

  lemma OneMoreReservation(spec: WorkloadSpec, p: Pod, s: StreamId, threshold: nat)
    requires !Reserved(spec, p, s) && |Streams(spec, p)| < threshold
    ensures CountsOf(TryReserve(spec, p, s, threshold).1) == CountsOf(spec)[p := |Streams(spec, p)| + 1]
  {
  }

  /** The adds of new streams, one after the other, each on a fresh snapshot of a cluster that may
      list its pods differently every time.  The reservations they leave are what `Adds` says. */
  method AddStreams(h: Handler, streams: seq<StreamId>, listings: seq<seq<Pod>>, env: AttemptEnv)
    requires h.Ready() && h.c.how == LruRoundRobin && h.replicas > 0 && (h.docker || h.replicas >= h.maxReplicas)
    requires EndingOf(h.c.cfg.ttl, h.c.cfg.ttl, env) == Committed
    requires |streams| == |listings| && Selection.Distinct(streams)
    requires forall i :: 0 <= i < |streams| ==>
               && !ReservedSomewhere(h.c.st.spec, streams[i])
               && Holder(h.c.st.leases, h.c.st.now, streams[i]) == None
               && Selection.Distinct(listings[i])
    modifies h, h.c
    ensures h.Ready()
    ensures CountsOf(h.c.st.spec) == Adds(listings, CountsOf(old(h.c.st.spec)), h.c.cfg.threshold)
  {
    hide EndingOf;
    ghost var counts := CountsOf(h.c.st.spec);
    var i := 0;
    assert listings[..0] == [];
    while i < |streams|
      invariant i <= |streams| && h.Ready() && h.replicas == old(h.replicas)
      invariant CountsOf(h.c.st.spec) == Adds(listings[..i], counts, h.c.cfg.threshold)
      invariant forall k :: i <= k < |streams| ==>
                  && !ReservedSomewhere(h.c.st.spec, streams[k])
                  && Holder(h.c.st.leases, h.c.st.now, streams[k]) == None
    {
      AddStream(h, streams[i], listings[i], env, streams[i + 1..]);
      assert listings[..i + 1][..i] == listings[..i];
      assert forall k :: i < k < |streams| ==> streams[k] == streams[i + 1..][k - i - 1];
      i := i + 1;
    }
    assert listings[..i] == listings;
  }

  /** One of them. */
  method AddStream(h: Handler, s: StreamId, listing: seq<Pod>, env: AttemptEnv, ghost others: seq<StreamId>)
    requires h.Ready() && h.c.how == LruRoundRobin && h.replicas > 0 && (h.docker || h.replicas >= h.maxReplicas)
    requires EndingOf(h.c.cfg.ttl, h.c.cfg.ttl, env) == Committed && Selection.Distinct(listing)
    requires !ReservedSomewhere(h.c.st.spec, s) && Holder(h.c.st.leases, h.c.st.now, s) == None
    requires s !in others
    requires forall t :: t in others ==>
               !ReservedSomewhere(h.c.st.spec, t) && Holder(h.c.st.leases, h.c.st.now, t) == None
    modifies h, h.c
    ensures h.Ready() && h.replicas == old(h.replicas)
    ensures CountsOf(h.c.st.spec) == AddOne(listing, CountsOf(old(h.c.st.spec)), h.c.cfg.threshold)
    ensures forall t :: t in others ==>
              !ReservedSomewhere(h.c.st.spec, t) && Holder(h.c.st.leases, h.c.st.now, t) == None
  {
    hide EndingOf, PlaceOf, Eligible, Winner;
    var pass := FreshPass(listing, h.c.st.spec, env);
    assert AllUp(listing) == pass.listing.value;
    var passes := (k: nat) => pass;
    ghost var before := h.c.st;
    var _, tried, _ := h.Provision(s, passes, 0);
    FreshPlacementIsWinner(listing, before.spec, h.c.cfg, s, env);
    FreshPlacementCounts(listing, before.spec, h.c.cfg, s, tried);
    forall t | t in others
      ensures !ReservedSomewhere(h.c.st.spec, t) && Holder(h.c.st.leases, h.c.st.now, t) == None
    {
      OthersStayFree(before, h.c.st, s, t);
    }
  }

  lemma OthersStayFree(st: State, st': State, s: StreamId, t: StreamId)
    requires OnlyStream(st, st', s) && t != s
    requires !ReservedSomewhere(st.spec, t) && Holder(st.leases, st.now, t) == None
    ensures !ReservedSomewhere(st'.spec, t) && Holder(st'.leases, st'.now, t) == None
  {
    assert t in st'.leases <==> t in st'.leases - {s};
    assert t in st.leases <==> t in st.leases - {s};
    if t in st'.leases {
      assert (st'.leases - {s})[t] == (st.leases - {s})[t];
    }
  }

  /** From an empty store: rounds times the number of pods plus `extra` adds fill the pods evenly, in
      key order. */
  method FillEmptyStore(h: Handler, streams: seq<StreamId>, listings: seq<seq<Pod>>, env: AttemptEnv,
                        pods: seq<Pod>, rounds: nat, extra: nat)
    requires h.Ready() && h.c.how == LruRoundRobin && h.replicas > 0 && (h.docker || h.replicas >= h.maxReplicas)
    requires h.c.st.spec == map[] && (forall s :: Holder(h.c.st.leases, h.c.st.now, s) == None)
    requires EndingOf(h.c.cfg.ttl, h.c.cfg.ttl, env) == Committed
    requires |streams| == |listings| && Selection.Distinct(streams)
    requires Ordered(pods) && AllList(listings, pods)
    requires forall i :: 0 <= i < |listings| ==> Selection.Distinct(listings[i])
    requires |listings| == rounds * |pods| + extra && extra < |pods|
    requires rounds < h.c.cfg.threshold || (rounds == h.c.cfg.threshold && extra == 0)
    modifies h, h.c
    ensures forall i :: 0 <= i < |pods| ==>
              |Streams(h.c.st.spec, pods[i])| == rounds + if i < extra then 1 else 0
  {
    hide EndingOf;
    AddStreams(h, streams, listings, env);
    RoundRobinClosedForm(listings, pods, CountsOf(map[]), h.c.cfg.threshold, rounds, extra, pods);
    forall i | 0 <= i < |pods| ensures |Streams(h.c.st.spec, pods[i])| == rounds + if i < extra then 1 else 0 {
      assert CountOf(CountsOf(h.c.st.spec), pods[i]) == |Streams(h.c.st.spec, pods[i])|;
    }
  }
}
