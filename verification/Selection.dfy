/** Choosing a pod: the ordinal key, the assigning methods, and the loop that tries candidates
    until one accepts the reservation. */
module Selection {
  import opened Store
  import opened Sequences

  datatype AssigningMethod = Sequential | LruRoundRobin

  /** An eligible pod and the stream count read when the snapshot was taken. */
  datatype Candidate = Candidate(pod: Pod, count: nat)

  // ---------------------------------------------------------------- the ordinal key

  predicate IsDigit(c: char) {
    '0' <= c <= '9'
  }

  /** How many characters at the end of `name` are digits. */
  function TrailingDigits(name: string): (k: nat)
    ensures k <= |name|
    ensures forall i :: |name| - k <= i < |name| ==> IsDigit(name[i])
    ensures k < |name| ==> !IsDigit(name[|name| - k - 1])
  {
    if name == [] || !IsDigit(name[|name| - 1]) then 0 else 1 + TrailingDigits(name[..|name| - 1])
  }

  function DigitsToNat(digits: string): nat
    requires forall i :: 0 <= i < |digits| ==> IsDigit(digits[i])
  {
    if digits == [] then 0
    else
      assert IsDigit(digits[|digits| - 1]);
      DigitsToNat(digits[..|digits| - 1]) * 10 + (digits[|digits| - 1] as int - '0' as int)
  }

  /** The number after the last dash when nothing else follows it, else 0. */
  function Ordinal(name: string): nat {
    var k := TrailingDigits(name);
    if 0 < k < |name| && name[|name| - k - 1] == '-' then DigitsToNat(name[|name| - k..]) else 0
  }

  /** Lexicographic order of names by character code. */
  predicate NameLess(a: string, b: string) {
    b != [] && (a == [] || a[0] < b[0] || (a[0] == b[0] && NameLess(a[1..], b[1..])))
  }

  lemma {:induction false} NameOrderTotal(a: string, b: string)
    ensures !(NameLess(a, b) && NameLess(b, a))
    ensures a != b ==> NameLess(a, b) || NameLess(b, a)
    ensures a == b ==> !NameLess(a, b)
  {
    if a != [] && b != [] {
      assert a == [a[0]] + a[1..] && b == [b[0]] + b[1..];
      NameOrderTotal(a[1..], b[1..]);
    }
  }

  lemma {:induction false} NameOrderTransitive(a: string, b: string, c: string)
    requires NameLess(a, b) && NameLess(b, c)
    ensures NameLess(a, c)
  {
    if a != [] && a[0] == b[0] && b[0] == c[0] {
      NameOrderTransitive(a[1..], b[1..], c[1..]);
    }
  }

  /** The order of `_pod_ordinal` keys. */
  predicate PodBefore(p: Pod, q: Pod) {
    Ordinal(p) < Ordinal(q) || (Ordinal(p) == Ordinal(q) && NameLess(p, q))
  }

  lemma PodOrderTotal(p: Pod, q: Pod)
    ensures !(PodBefore(p, q) && PodBefore(q, p))
    ensures p != q ==> PodBefore(p, q) || PodBefore(q, p)
    ensures p == q ==> !PodBefore(p, q)
  {
    NameOrderTotal(p, q);
  }

  lemma PodOrderTransitive(p: Pod, q: Pod, r: Pod)
    requires PodBefore(p, q) && PodBefore(q, r)
    ensures PodBefore(p, r)
  {
    if Ordinal(p) == Ordinal(q) == Ordinal(r) {
      NameOrderTransitive(p, q, r);
    }
  }

  /** Fewest streams first, ties by ordinal, then by name. */
  predicate Before(a: Candidate, b: Candidate) {
    a.count < b.count || (a.count == b.count && PodBefore(a.pod, b.pod))
  }

  // ---------------------------------------------------------------- selection

  predicate DistinctPods(cands: seq<Candidate>) {
    forall i, j :: 0 <= i < j < |cands| ==> cands[i].pod != cands[j].pod
  }

  function MinCount(cands: seq<Candidate>): (m: nat)
    requires cands != []
    ensures forall c :: c in cands ==> m <= c.count
    ensures exists c :: c in cands && c.count == m
  {
    if |cands| == 1 then
      assert cands[0] in cands;
      cands[0].count
    else
      var rest := MinCount(cands[1..]);
      assert cands == [cands[0]] + cands[1..];
      if cands[0].count <= rest then
        assert cands[0] in cands;
        cands[0].count
      else rest
  }

  function WithCount(cands: seq<Candidate>, m: nat): (r: seq<Candidate>)
    ensures forall c :: c in r <==> c in cands && c.count == m
  {
    if cands == [] then []
    else
      assert cands == [cands[0]] + cands[1..];
      if cands[0].count == m then [cands[0]] + WithCount(cands[1..], m) else WithCount(cands[1..], m)
  }

  /** The first entry with the least key. */
  function LeastPod(cands: seq<Candidate>): (r: Candidate)
    requires cands != []
    ensures r in cands
    ensures forall c :: c in cands && c.pod != r.pod ==> PodBefore(r.pod, c.pod)
  {
    if |cands| == 1 then cands[0]
    else
      var rest := LeastPod(cands[1..]);
      assert cands == [cands[0]] + cands[1..];
      PodOrderTotal(rest.pod, cands[0].pod);
      if PodBefore(rest.pod, cands[0].pod) then rest
      else
        assert forall c :: c in cands && c.pod != cands[0].pod ==> PodBefore(cands[0].pod, c.pod) by {
          forall c | c in cands && c.pod != cands[0].pod ensures PodBefore(cands[0].pod, c.pod) {
            if c.pod != rest.pod && rest.pod != cands[0].pod {
              PodOrderTransitive(cands[0].pod, rest.pod, c.pod);
            }
          }
        }
        cands[0]
  }

  function Select(cands: seq<Candidate>, how: AssigningMethod): (r: Candidate)
    requires cands != []
    ensures r in cands
  {
    if how == Sequential then cands[0] else LeastPod(WithCount(cands, MinCount(cands)))
  }

  /** The lru_round_robin winner is the least candidate by (count, ordinal, name). */
  lemma SelectIsLeast(cands: seq<Candidate>, c: Candidate)
    requires cands != [] && c in cands && c.pod != Select(cands, LruRoundRobin).pod
    ensures Before(Select(cands, LruRoundRobin), c)
  {
    var m := MinCount(cands);
    assert Select(cands, LruRoundRobin) in WithCount(cands, m);
    if c.count == m {
      assert c in WithCount(cands, m);
    }
  }

  /** Two candidates cannot both precede each other, so the least one is unique. */
  lemma BeforeIsAsymmetric(a: Candidate, b: Candidate)
    ensures !(Before(a, b) && Before(b, a))
  {
    PodOrderTotal(a.pod, b.pod);
  }

  /** Whatever order the cluster lists its pods in, the same pod is chosen. */
  lemma SelectIgnoresListingOrder(xs: seq<Candidate>, ys: seq<Candidate>)
    requires xs != [] && ys != []
    requires forall c :: c in xs <==> c in ys
    requires DistinctPods(xs)
    ensures Select(xs, LruRoundRobin) == Select(ys, LruRoundRobin)
  {
    var (a, b) := (Select(xs, LruRoundRobin), Select(ys, LruRoundRobin));
    if a.pod != b.pod {
      SelectIsLeast(xs, b);
      SelectIsLeast(ys, a);
      BeforeIsAsymmetric(a, b);
    }
  }

  // ---------------------------------------------------------------- the snapshot

  type Counts = map<Pod, nat>

  /** A pod without a workload-spec entry counts as empty. */
  function CountOf(counts: Counts, p: Pod): nat {
    if p in counts then counts[p] else 0
  }

  /** The pods below the threshold, with their counts, as listed. */
  function Snapshot(listing: seq<Pod>, counts: Counts, threshold: nat): (r: seq<Candidate>)
    ensures forall c :: c in r <==> c.pod in listing && CountOf(counts, c.pod) == c.count && c.count < threshold
  {
    if listing == [] then []
    else
      assert listing == [listing[0]] + listing[1..];
      var rest := Snapshot(listing[1..], counts, threshold);
      var count := CountOf(counts, listing[0]);
      if count >= threshold then rest else [Candidate(listing[0], count)] + rest
  }

  function Pods(cands: seq<Candidate>): (r: seq<Pod>)
    ensures |r| == |cands| && forall i :: 0 <= i < |r| ==> r[i] == cands[i].pod
  {
    seq(|cands|, i requires 0 <= i < |cands| => cands[i].pod)
  }

  /** The candidates come in the order the pods are listed in. */
  lemma {:induction false} SnapshotInOrder(listing: seq<Pod>, counts: Counts, threshold: nat)
    ensures Subsequence(Pods(Snapshot(listing, counts, threshold)), listing)
  {
    if listing != [] {
      SnapshotInOrder(listing[1..], counts, threshold);
      var (r, rest) := (Snapshot(listing, counts, threshold), Snapshot(listing[1..], counts, threshold));
      if CountOf(counts, listing[0]) < threshold {
        assert Pods(r)[1..] == Pods(rest) && Pods(r)[0] == listing[0];
      }
    }
  }

  predicate Distinct(listing: seq<Pod>) {
    forall i, j :: 0 <= i < j < |listing| ==> listing[i] != listing[j]
  }

  lemma {:induction false} SnapshotIsDistinct(listing: seq<Pod>, counts: Counts, threshold: nat)
    requires Distinct(listing)
    ensures DistinctPods(Snapshot(listing, counts, threshold))
  {
    if listing != [] {
      assert listing[0] !in listing[1..];
      SnapshotIsDistinct(listing[1..], counts, threshold);
    }
  }

  // ---------------------------------------------------------------- the candidate loop

  function IndexOf(cands: seq<Candidate>, c: Candidate): (i: nat)
    requires c in cands
    ensures i < |cands| && cands[i] == c
  {
    if cands[0] == c then 0 else 1 + IndexOf(cands[1..], c)
  }

  function RemoveAt<T>(xs: seq<T>, i: nat): seq<T>
    requires i < |xs|
  {
    xs[..i] + xs[i + 1..]
  }

  /** The pod would take the stream now: it has room, or holds the stream already. */
  predicate Accepts(spec: WorkloadSpec, threshold: nat, s: StreamId, c: Candidate) {
    TryReserve(spec, c.pod, s, threshold).0 != Refused
  }

  /** What the loop is for: the preferred candidate among those that accept. */
  ghost predicate IsChoice(cands: seq<Candidate>, how: AssigningMethod, spec: WorkloadSpec,
                           threshold: nat, s: StreamId, r: Option<Candidate>) {
    match r
    case None => forall c :: c in cands ==> !Accepts(spec, threshold, s, c)
    case Some(w) =>
      && w in cands && Accepts(spec, threshold, s, w)
      && (how == LruRoundRobin ==>
            forall c :: c in cands && Accepts(spec, threshold, s, c) && c.pod != w.pod ==> Before(w, c))
      && (how == Sequential ==>
            exists i :: 0 <= i < |cands| && cands[i] == w
                        && forall j :: 0 <= j < i ==> !Accepts(spec, threshold, s, cands[j]))
  }

  /** Dropping one candidate keeps every other. */
  lemma RemoveKeepsOthers(cands: seq<Candidate>, i: nat)
    requires DistinctPods(cands) && i < |cands|
    ensures DistinctPods(RemoveAt(cands, i))
    ensures forall c :: c in RemoveAt(cands, i) <==> c in cands && c != cands[i]
  {
    var rest := RemoveAt(cands, i);
    forall c | c in cands && c != cands[i] ensures c in rest {
      var k :| 0 <= k < |cands| && cands[k] == c;
      assert if k < i then rest[k] == c else rest[k - 1] == c;
    }
  }

  /** The candidates still to be tried are those nobody has refused; first-fit drops them from
      the front. */
  ghost predicate StillToTry(eligible: seq<Candidate>, cands: seq<Candidate>, how: AssigningMethod,
                             spec: WorkloadSpec, threshold: nat, s: StreamId) {
    && DistinctPods(cands)
    && (forall c :: c in cands ==> c in eligible)
    && (forall c :: c in eligible && c !in cands ==> !Accepts(spec, threshold, s, c))
    && (how == Sequential ==>
          var k := |eligible| - |cands|;
          && 0 <= k && cands == eligible[k..]
          && forall j :: 0 <= j < k ==> !Accepts(spec, threshold, s, eligible[j]))
  }

  lemma RefusalLeavesRest(eligible: seq<Candidate>, cands: seq<Candidate>, how: AssigningMethod,
                          spec: WorkloadSpec, threshold: nat, s: StreamId)
    requires StillToTry(eligible, cands, how, spec, threshold, s) && cands != []
    requires !Accepts(spec, threshold, s, Select(cands, how))
    ensures StillToTry(eligible, Rest(cands, how), how, spec, threshold, s)
  {
    RemoveKeepsOthers(cands, IndexOf(cands, Select(cands, how)));
  }

  /** So the first candidate that accepts is the one wanted, for either assigning method. */
  lemma AcceptanceIsChoice(eligible: seq<Candidate>, cands: seq<Candidate>, how: AssigningMethod,
                           spec: WorkloadSpec, threshold: nat, s: StreamId)
    requires StillToTry(eligible, cands, how, spec, threshold, s) && cands != []
    requires Accepts(spec, threshold, s, Select(cands, how))
    ensures IsChoice(eligible, how, spec, threshold, s, Some(Select(cands, how)))
  {
    var w := Select(cands, how);
    if how == LruRoundRobin {
      forall c | c in eligible && Accepts(spec, threshold, s, c) && c.pod != w.pod ensures Before(w, c) {
        SelectIsLeast(cands, c);
      }
    } else {
      var k := |eligible| - |cands|;
      assert eligible[k] == w;
    }
  }
  datatype Walked = Taken(c: Candidate) | AllRefused | ReserveCallRaised

  /** Where the loop ends: it tries the selected candidate, drops it when it refuses, and stops at
      the first that accepts; the call after `raiseAt` refusals raises. */
  function Walk(cands: seq<Candidate>, how: AssigningMethod, spec: WorkloadSpec, threshold: nat, s: StreamId,
                raiseAt: Option<nat>): Walked
    decreases |cands|
  {
    if cands == [] then AllRefused
    else if raiseAt == Some(0) then ReserveCallRaised
    else
      var c := Select(cands, how);
      if Accepts(spec, threshold, s, c) then Taken(c)
      else
        Walk(Rest(cands, how), how, spec, threshold, s,
             if raiseAt.Some? then Some(raiseAt.value - 1) else None)
  }

  /** The candidates left after the selected one refused. */
  function Rest(cands: seq<Candidate>, how: AssigningMethod): (r: seq<Candidate>)
    requires cands != []
    ensures |r| == |cands| - 1
  {
    RemoveAt(cands, IndexOf(cands, Select(cands, how)))
  }

  lemma ReadyToTry(eligible: seq<Candidate>, how: AssigningMethod, spec: WorkloadSpec, threshold: nat, s: StreamId)
    requires DistinctPods(eligible)
    ensures StillToTry(eligible, eligible, how, spec, threshold, s)
  {
  }

  lemma NothingLeftIsChoice(eligible: seq<Candidate>, how: AssigningMethod, spec: WorkloadSpec, threshold: nat,
                            s: StreamId)
    requires StillToTry(eligible, [], how, spec, threshold, s)
    ensures IsChoice(eligible, how, spec, threshold, s, None)
  {
  }

  /** It ends with the wanted candidate, or without one only if all refuse or a call raised. */
  lemma {:induction false} WalkIsChoice(eligible: seq<Candidate>, cands: seq<Candidate>, how: AssigningMethod,
                                       spec: WorkloadSpec, threshold: nat, s: StreamId, raiseAt: Option<nat>)
    requires StillToTry(eligible, cands, how, spec, threshold, s)
    ensures match Walk(cands, how, spec, threshold, s, raiseAt)
            case Taken(c) => IsChoice(eligible, how, spec, threshold, s, Some(c))
            case AllRefused => IsChoice(eligible, how, spec, threshold, s, None)
            case ReserveCallRaised => raiseAt.Some? && raiseAt.value < |cands|
    decreases |cands|
  {
    hide StillToTry, IsChoice, Select, Accepts;
    if cands == [] {
      NothingLeftIsChoice(eligible, how, spec, threshold, s);
    } else if raiseAt != Some(0) {
      if Accepts(spec, threshold, s, Select(cands, how)) {
        AcceptanceIsChoice(eligible, cands, how, spec, threshold, s);
      } else {
        RefusalLeavesRest(eligible, cands, how, spec, threshold, s);
        WalkIsChoice(eligible, Rest(cands, how), how, spec, threshold, s,
                     if raiseAt.Some? then Some(raiseAt.value - 1) else None);
      }
    }
  }
}
