/** How a sequence of adds spreads streams over pods under lru_round_robin.  The cluster may list
    its pods in a different order at every add. */
module RoundRobin {
  import opened Store
  import opened Selection

  /** The pods in key order: the order of the documented 0, 1, 2, ... cycle. */
  ghost predicate Ordered(pods: seq<Pod>) {
    forall i, j :: 0 <= i < j < |pods| ==> PodBefore(pods[i], pods[j])
  }

  /** `listing` names exactly these pods, in any order. */
  ghost predicate Lists(listing: seq<Pod>, pods: seq<Pod>) {
    forall p :: p in listing <==> p in pods
  }

  ghost predicate AllList(listings: seq<seq<Pod>>, pods: seq<Pod>) {
    forall k :: 0 <= k < |listings| ==> Lists(listings[k], pods)
  }

  /** The pod the next stream goes to; None when every pod is full. */
  function Winner(listing: seq<Pod>, counts: Counts, threshold: nat): Option<Pod> {
    var cands := Snapshot(listing, counts, threshold);
    if cands == [] then None else Some(Select(cands, LruRoundRobin).pod)
  }

  function AddOne(listing: seq<Pod>, counts: Counts, threshold: nat): Counts {
    match Winner(listing, counts, threshold)
    case None => counts
    case Some(p) => counts[p := CountOf(counts, p) + 1]
  }

  /** One add per listing, in order. */
  function Adds(listings: seq<seq<Pod>>, counts: Counts, threshold: nat): Counts {
    if listings == [] then counts
    else AddOne(listings[|listings| - 1], Adds(listings[..|listings| - 1], counts, threshold), threshold)
  }

  /** The winner, characterised: it has room, and every other pod with room comes after it. */
  lemma WinnerIs(listing: seq<Pod>, counts: Counts, threshold: nat, p: Pod)
    requires p in listing && CountOf(counts, p) < threshold
    requires forall q :: q in listing && q != p && CountOf(counts, q) < threshold ==>
               Before(Candidate(p, CountOf(counts, p)), Candidate(q, CountOf(counts, q)))
    ensures Winner(listing, counts, threshold) == Some(p)
  {
    var cands := Snapshot(listing, counts, threshold);
    var c := Candidate(p, CountOf(counts, p));
    assert c in cands;
    var w := Select(cands, LruRoundRobin);
    if w.pod != p {
      SelectIsLeast(cands, c);
      BeforeIsAsymmetric(w, c);
    }
  }

  // ---------------------------------------------------------------- closed form

  /** After `rounds` full rounds and `extra` more adds. */
  ghost predicate EvenlyFilled(pods: seq<Pod>, counts: Counts, rounds: nat, extra: nat) {
    forall i :: 0 <= i < |pods| ==> CountOf(counts, pods[i]) == rounds + if i < extra then 1 else 0
  }

  /** With every pod filled evenly the next stream goes to pod number `extra`. */
  lemma EvenWinner(listing: seq<Pod>, pods: seq<Pod>, counts: Counts, threshold: nat, rounds: nat, extra: nat)
    requires Ordered(pods) && Lists(listing, pods) && EvenlyFilled(pods, counts, rounds, extra)
    requires extra < |pods| && rounds < threshold
    ensures Winner(listing, counts, threshold) == Some(pods[extra])
    ensures EvenlyFilled(pods, AddOne(listing, counts, threshold), rounds, extra + 1)
  {
    var p := pods[extra];
    forall q | q in listing && q != p
      ensures Before(Candidate(p, CountOf(counts, p)), Candidate(q, CountOf(counts, q)))
    {
      var i :| 0 <= i < |pods| && pods[i] == q;
      assert i > extra ==> PodBefore(p, q);
    }
    WinnerIs(listing, counts, threshold, p);
    OrderedPodsDistinct(pods);
  }

  /** Closed form: from empty pods, adds cycle through the pods in key order.  After `rounds`
      full rounds and `extra` more adds, with no round beyond the threshold, every pod holds
      `rounds` streams and the first `extra` of them one more, and the next add, if there is
      room left, goes to pod number `extra`: whatever order the cluster lists its pods in. */
  lemma {:induction false} RoundRobinClosedForm(listings: seq<seq<Pod>>, pods: seq<Pod>, counts: Counts,
                                               threshold: nat, rounds: nat, extra: nat, next: seq<Pod>)
    requires Ordered(pods) && AllList(listings, pods) && Lists(next, pods)
    requires forall p :: p in pods ==> CountOf(counts, p) == 0
    requires |listings| == rounds * |pods| + extra && extra < |pods|
    requires rounds < threshold || (rounds == threshold && extra == 0)
    ensures EvenlyFilled(pods, Adds(listings, counts, threshold), rounds, extra)
    ensures rounds < threshold ==> Winner(next, Adds(listings, counts, threshold), threshold) == Some(pods[extra])
    ensures rounds == threshold ==> Winner(next, Adds(listings, counts, threshold), threshold) == None
    decreases |listings|
  {
    if listings != [] {
      var m := |listings| - 1;
      var (rounds', extra') := if extra > 0 then (rounds, extra - 1) else (rounds - 1, |pods| - 1);
      assert rounds > 0 ==> rounds * |pods| == (rounds - 1) * |pods| + |pods|;
      RoundRobinClosedForm(listings[..m], pods, counts, threshold, rounds', extra', listings[m]);
      EvenWinner(listings[m], pods, Adds(listings[..m], counts, threshold), threshold, rounds', extra');
    } else {
      ProductAtLeast(rounds, |pods|);
    }
    var after := Adds(listings, counts, threshold);
    if rounds < threshold {
      EvenWinner(next, pods, after, threshold, rounds, extra);
    } else {
      forall p | p in next ensures CountOf(after, p) >= threshold {
        var i :| 0 <= i < |pods| && pods[i] == p;
      }
    }
  }

  lemma ProductAtLeast(a: nat, b: nat)
    requires b > 0
    ensures a * b >= a
  {
  }

  lemma OrderedPodsDistinct(pods: seq<Pod>)
    requires Ordered(pods)
    ensures forall i, j :: 0 <= i < j < |pods| ==> pods[i] != pods[j]
  {
    forall i, j | 0 <= i < j < |pods| ensures pods[i] != pods[j] {
      assert PodBefore(pods[i], pods[j]);
      PodOrderTotal(pods[i], pods[j]);
    }
  }

  // ---------------------------------------------------------------- self-healing

  /** No pod is more than `d` streams ahead of another. */
  ghost predicate SpreadAtMost(pods: seq<Pod>, counts: Counts, d: nat) {
    forall p, q :: p in pods && q in pods ==> CountOf(counts, p) <= CountOf(counts, q) + d
  }

  /** Whenever an add succeeds it goes to a pod with the fewest streams of all. */
  lemma WinnerHasFewest(listing: seq<Pod>, counts: Counts, threshold: nat, q: Pod)
    requires Winner(listing, counts, threshold).Some? && q in listing
    ensures var w := Winner(listing, counts, threshold).value;
            w in listing && CountOf(counts, w) <= CountOf(counts, q) && CountOf(counts, w) < threshold
  {
    var cands := Snapshot(listing, counts, threshold);
    var w := Select(cands, LruRoundRobin);
    assert w in cands;
    if CountOf(counts, q) < threshold && q != w.pod {
      assert Candidate(q, CountOf(counts, q)) in cands;
      SelectIsLeast(cands, Candidate(q, CountOf(counts, q)));
    }
  }

  lemma AddKeepsSpread(listing: seq<Pod>, pods: seq<Pod>, counts: Counts, threshold: nat, d: nat)
    requires Lists(listing, pods) && SpreadAtMost(pods, counts, d) && d >= 1
    ensures SpreadAtMost(pods, AddOne(listing, counts, threshold), d)
  {
    if Winner(listing, counts, threshold).Some? {
      var w := Winner(listing, counts, threshold).value;
      forall q | q in pods ensures CountOf(counts, w) <= CountOf(counts, q) {
        WinnerHasFewest(listing, counts, threshold, q);
      }
    }
  }

  /** After any uneven removal of streams, adds never widen the gap between the fullest and the
      emptiest pod beyond one or what it already was. */
  lemma {:induction false} AddsKeepSpread(listings: seq<seq<Pod>>, pods: seq<Pod>, counts: Counts,
                                         threshold: nat, d: nat)
    requires AllList(listings, pods) && SpreadAtMost(pods, counts, d) && d >= 1
    ensures SpreadAtMost(pods, Adds(listings, counts, threshold), d)
    decreases |listings|
  {
    if listings != [] {
      var m := |listings| - 1;
      AddsKeepSpread(listings[..m], pods, counts, threshold, d);
      AddKeepsSpread(listings[m], pods, Adds(listings[..m], counts, threshold), threshold, d);
    }
  }

  ghost predicate AtMost(pods: seq<Pod>, counts: Counts, top: nat) {
    forall p :: p in pods ==> CountOf(counts, p) <= top
  }

  ghost predicate Level(pods: seq<Pod>, counts: Counts, top: nat) {
    forall p :: p in pods ==> CountOf(counts, p) == top
  }

  /** How many streams the pods lack to hold `top` each. */
  function Deficit(pods: seq<Pod>, counts: Counts, top: nat): int {
    if pods == [] then 0 else (top - CountOf(counts, pods[0])) + Deficit(pods[1..], counts, top)
  }

  lemma {:induction false} OneMoreStream(pods: seq<Pod>, counts: Counts, top: nat, w: Pod)
    requires forall i, j :: 0 <= i < j < |pods| ==> pods[i] != pods[j]
    ensures Deficit(pods, counts[w := CountOf(counts, w) + 1], top)
         == Deficit(pods, counts, top) - if w in pods then 1 else 0
  {
    if pods != [] {
      assert pods == [pods[0]] + pods[1..];
      OneMoreStream(pods[1..], counts, top, w);
    }
  }

  lemma {:induction false} NoDeficitMeansLevel(pods: seq<Pod>, counts: Counts, top: nat)
    requires AtMost(pods, counts, top)
    ensures Deficit(pods, counts, top) >= 0
    ensures Deficit(pods, counts, top) == 0 <==> Level(pods, counts, top)
  {
    if pods != [] {
      assert pods == [pods[0]] + pods[1..];
      NoDeficitMeansLevel(pods[1..], counts, top);
      assert Level(pods, counts, top) <==> CountOf(counts, pods[0]) == top && Level(pods[1..], counts, top);
    }
  }

  /** While some pod lacks streams the next add succeeds, on a pod that lacks some. */
  lemma WinnerLacksStreams(listing: seq<Pod>, pods: seq<Pod>, counts: Counts, threshold: nat, top: nat)
    requires Lists(listing, pods) && AtMost(pods, counts, top)
    requires top <= threshold && Deficit(pods, counts, top) > 0
    ensures Winner(listing, counts, threshold).Some?
    ensures var w := Winner(listing, counts, threshold).value; w in pods && CountOf(counts, w) < top
  {
    NoDeficitMeansLevel(pods, counts, top);
    var q :| q in pods && CountOf(counts, q) < top;
    var cands := Snapshot(listing, counts, threshold);
    assert Candidate(q, CountOf(counts, q)) in cands;
    WinnerHasFewest(listing, counts, threshold, q);
  }

  lemma AddShrinksDeficit(listing: seq<Pod>, pods: seq<Pod>, counts: Counts, threshold: nat, top: nat)
    requires Ordered(pods) && Lists(listing, pods) && AtMost(pods, counts, top)
    requires top <= threshold && Deficit(pods, counts, top) > 0
    ensures AtMost(pods, AddOne(listing, counts, threshold), top)
    ensures Deficit(pods, AddOne(listing, counts, threshold), top) == Deficit(pods, counts, top) - 1
  {
    hide Winner, Lists, PodBefore, Deficit;
    WinnerLacksStreams(listing, pods, counts, threshold, top);
    OrderedPodsDistinct(pods);
    OneMoreStream(pods, counts, top, Winner(listing, counts, threshold).value);
  }

  /** Self-healing: from any counts at or below `top`, each of the next Deficit adds shrinks the
      deficit by one; so the pods are level after exactly that many adds and not before. */
  lemma {:induction false} AddsLevelPods(listings: seq<seq<Pod>>, pods: seq<Pod>, counts: Counts,
                                        threshold: nat, top: nat)
    requires AllList(listings, pods) && Ordered(pods) && AtMost(pods, counts, top)
    requires top <= threshold && |listings| <= Deficit(pods, counts, top)
    ensures var after := Adds(listings, counts, threshold);
            && AtMost(pods, after, top)
            && Deficit(pods, after, top) == Deficit(pods, counts, top) - |listings|
            && (|listings| == Deficit(pods, counts, top) <==> Level(pods, after, top))
    decreases |listings|
  {
    if listings != [] {
      var m := |listings| - 1;
      AddsLevelPods(listings[..m], pods, counts, threshold, top);
      AddShrinksDeficit(listings[m], pods, Adds(listings[..m], counts, threshold), threshold, top);
    }
    NoDeficitMeansLevel(pods, Adds(listings, counts, threshold), top);
  }
}
