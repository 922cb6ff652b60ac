/** The shared Redis store of the stream coordinator: one lease per stream, one list of
    reserved streams per pod, and the stream-to-pod route map.  Every function here is one
    atomic command or Lua script of the store, so concurrent replicas interleave between
    calls and never inside one. */
module Store {

  datatype Option<+T> = None | Some(value: T)

  type Pod = string
  type StreamId = string

  /** A lease owner is a fresh UUID; only its identity matters. */
  type Owner = nat

  /** A lease key with its time to live: the key exists while the clock is below `expiry`. */
  datatype Lease = Lease(owner: Owner, expiry: nat)

  type Leases = map<StreamId, Lease>
  type WorkloadSpec = map<Pod, seq<StreamId>>
  type Routes = map<StreamId, Pod>

  // ---------------------------------------------------------------- leases

  /** Who the store says owns the lease at time `now`: an expired key reads as absent. */
  function Holder(leases: Leases, now: nat, s: StreamId): Option<Owner> {
    if s in leases && now < leases[s].expiry then Some(leases[s].owner) else None
  }

  /** SET key owner NX EX ttl. */
  function TryAcquire(leases: Leases, now: nat, s: StreamId, o: Owner, ttl: nat): (bool, Leases) {
    if Holder(leases, now, s) == None then (true, leases[s := Lease(o, now + ttl)]) else (false, leases)
  }

  /** Extend the key only when its value is this owner. */
  function Renew(leases: Leases, now: nat, s: StreamId, o: Owner, ttl: nat): (bool, Leases) {
    if Holder(leases, now, s) == Some(o) then (true, leases[s := Lease(o, now + ttl)]) else (false, leases)
  }

  /** Delete the key only when its value is this owner. */
  function Release(leases: Leases, now: nat, s: StreamId, o: Owner): Leases {
    if Holder(leases, now, s) == Some(o) then leases - {s} else leases
  }

  /** What the three commands are for.  An acquire succeeds exactly if nobody holds the lease, and
      a renew exactly if this owner does; then the owner holds it for `ttl`, and not longer.  A release
      by the holder frees it at once; a command that fails changes nothing. */
  lemma LeaseCommands(leases: Leases, now: nat, s: StreamId, o: Owner, ttl: nat, t: nat)
    requires now <= t
    ensures var (ok, leases') := TryAcquire(leases, now, s, o, ttl);
            && (ok <==> Holder(leases, now, s) == None)
            && (ok ==> Holder(leases', t, s) == if t < now + ttl then Some(o) else None)
            && (!ok ==> leases' == leases)
    ensures var (ok, leases') := Renew(leases, now, s, o, ttl);
            && (ok <==> Holder(leases, now, s) == Some(o))
            && (ok ==> Holder(leases', t, s) == if t < now + ttl then Some(o) else None)
            && (!ok ==> leases' == leases)
    ensures var leases' := Release(leases, now, s, o);
            && (Holder(leases, now, s) == Some(o) ==> Holder(leases', t, s) == None)
            && (Holder(leases, now, s) != Some(o) ==> leases' == leases)
  {
  }

  /** A late renew or release by an owner that no longer holds the lease disturbs nobody, and
      one by the holder touches no other stream. */
  lemma LateOwnerIsHarmless(leases: Leases, now: nat, s: StreamId, o: Owner, ttl: nat, t: StreamId)
    requires t != s || Holder(leases, now, s) != Some(o)
    ensures Holder(Renew(leases, now, s, o, ttl).1, now, t) == Holder(leases, now, t)
    ensures Holder(Release(leases, now, s, o), now, t) == Holder(leases, now, t)
    ensures !Renew(leases, now, s, o, ttl).0 || t != s
  {
  }

  // ---------------------------------------------------------------- workload spec

  /** The streams a pod has reserved; a pod without a hash entry has none. */
  function Streams(spec: WorkloadSpec, p: Pod): seq<StreamId> {
    if p in spec then spec[p] else []
  }

  /** Stream `s` has a reservation on pod `p`. */
  predicate Reserved(spec: WorkloadSpec, p: Pod, s: StreamId) {
    s in Streams(spec, p)
  }

  /** Stream `s` has a reservation somewhere. */
  ghost predicate ReservedSomewhere(spec: WorkloadSpec, s: StreamId) {
    exists p :: Reserved(spec, p, s)
  }

  predicate NoDuplicates(xs: seq<StreamId>) {
    forall i, j :: 0 <= i < j < |xs| ==> xs[i] != xs[j]
  }

  /** Keep the entries whose id differs from `s`. */
  function Without(xs: seq<StreamId>, s: StreamId): (r: seq<StreamId>)
    ensures |r| <= |xs|
    ensures forall x :: x in r <==> x in xs && x != s
    ensures NoDuplicates(xs) ==> NoDuplicates(r)
  {
    if xs == [] then []
    else
      var rest := Without(xs[1..], s);
      assert xs == [xs[0]] + xs[1..];
      assert NoDuplicates(xs) ==> xs[0] !in xs[1..] && xs[0] !in rest;
      if xs[0] == s then rest else [xs[0]] + rest
  }

  /** Removing a stream from a duplicate-free list frees exactly one slot. */
  lemma {:induction false} WithoutFreesOneSlot(xs: seq<StreamId>, s: StreamId)
    requires NoDuplicates(xs)
    ensures |Without(xs, s)| == if s in xs then |xs| - 1 else |xs|
  {
    if xs != [] {
      assert xs == [xs[0]] + xs[1..];
      WithoutFreesOneSlot(xs[1..], s);
    }
  }

  datatype Reservation = Granted | AlreadyHeld | Refused

  /** The check-and-append that runs under the workload-spec lock. */
  function TryReserve(spec: WorkloadSpec, p: Pod, s: StreamId, threshold: nat): (Reservation, WorkloadSpec) {
    var xs := Streams(spec, p);
    if s in xs then (AlreadyHeld, spec)
    else if |xs| >= threshold then (Refused, spec)
    else (Granted, spec[p := xs + [s]])
  }

  /** The idempotent filter-and-write that runs under the workload-spec lock. */
  function DeleteEntry(spec: WorkloadSpec, p: Pod, s: StreamId): WorkloadSpec {
    if p !in spec then spec else spec[p := Without(spec[p], s)]
  }

  /** Exactly the pair (p, s) is added, and only by a grant. */
  lemma ReserveAddsOneEntry(spec: WorkloadSpec, p: Pod, s: StreamId, threshold: nat, q: Pod, t: StreamId)
    ensures var (r, spec') := TryReserve(spec, p, s, threshold);
            && (Reserved(spec', q, t) <==> Reserved(spec, q, t) || (r == Granted && q == p && t == s))
            && (r == Refused <==> !Reserved(spec, p, s) && |Streams(spec, p)| >= threshold)
            && (r == AlreadyHeld <==> Reserved(spec, p, s))
  {
    var (r, spec') := TryReserve(spec, p, s, threshold);
    if r == Granted && q == p {
      assert Streams(spec', q) == Streams(spec, p) + [s];
    }
  }

  /** Exactly the pair (p, s) is removed. */
  lemma DeleteRemovesOneEntry(spec: WorkloadSpec, p: Pod, s: StreamId, q: Pod, t: StreamId)
    ensures Reserved(DeleteEntry(spec, p, s), q, t) <==> Reserved(spec, q, t) && !(q == p && t == s)
  {
  }

  // ---------------------------------------------------------------- capacity

  /** No pod holds more than `threshold` reservations, and none holds a stream twice. */
  ghost predicate WithinCapacity(spec: WorkloadSpec, threshold: nat) {
    forall p :: p in spec ==> |spec[p]| <= threshold && NoDuplicates(spec[p])
  }
}
