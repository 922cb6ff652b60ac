/** What the key that breaks ties between pods means: the number a pod's name ends in, written in
    decimal, and the alphabet for names that end in none. */
module OrdinalKey {
  import opened Store
  import opened Selection
  import opened RoundRobin

  /** `n` in decimal notation, by division. */
  function Decimal(n: nat): (d: string)
    ensures d != [] && forall i :: 0 <= i < |d| ==> IsDigit(d[i])
  {
    if n < 10 then [DIGITS[n]] else Decimal(n / 10) + [DIGITS[n % 10]]
  }

  const DIGITS := "0123456789"

  lemma DigitValue(n: nat)
    requires n < 10
    ensures IsDigit(DIGITS[n]) && DIGITS[n] as int - '0' as int == n
  {
  }

  /** Reading back what was written. */
  lemma {:induction false} DecimalReadsBack(n: nat)
    ensures DigitsToNat(Decimal(n)) == n
  {
    DigitValue(n % 10);
    if n < 10 {
      assert DigitsToNat([]) == 0;
      assert Decimal(n)[..0] == [];
    } else {
      DecimalReadsBack(n / 10);
      assert Decimal(n)[..|Decimal(n)| - 1] == Decimal(n / 10);
    }
  }

  /** Zeros in front change nothing. */
  lemma {:induction false} LeadingZero(d: string)
    requires forall i :: 0 <= i < |d| ==> IsDigit(d[i])
    ensures forall i :: 0 <= i < |"0" + d| ==> IsDigit(("0" + d)[i])
    ensures DigitsToNat("0" + d) == DigitsToNat(d)
  {
    if d == [] {
      assert "0" + d == "0" && "0"[..0] == [];
    } else {
      LeadingZero(d[..|d| - 1]);
      assert ("0" + d)[..|"0" + d| - 1] == "0" + d[..|d| - 1];
      assert ("0" + d)[|"0" + d| - 1] == d[|d| - 1];
    }
  }

  lemma {:induction false} TrailingDigitsAre(name: string, k: nat)
    requires k <= |name| && (forall i :: |name| - k <= i < |name| ==> IsDigit(name[i]))
    requires k < |name| ==> !IsDigit(name[|name| - k - 1])
    ensures TrailingDigits(name) == k
  {
    if k > 0 {
      TrailingDigitsAre(name[..|name| - 1], k - 1);
    }
  }

  /** A dash and digits at the end of a name give those digits' number. */
  lemma OrdinalOfSuffix(b: string, d: string)
    requires d != [] && forall i :: 0 <= i < |d| ==> IsDigit(d[i])
    ensures Ordinal(b + "-" + d) == DigitsToNat(d)
  {
    hide DigitsToNat, TrailingDigits;
    var name := b + "-" + d;
    SuffixOfName(b, d);
    TrailingDigitsAre(name, |d|);
  }

  lemma SuffixOfName(b: string, d: string)
    ensures var (name, k) := (b + "-" + d, |b| + 1);
            && |name| == k + |d| && name[k..] == d && name[k - 1] == '-'
            && forall i :: k <= i < |name| ==> name[i] == d[i - k]
  {
    var name := (b + "-") + d;
    assert name[|b| + 1..] == d && (b + "-")[|b|] == '-';
  }

  /** An indexed pod's ordinal is its index, whatever the prefix and however many digits. */
  lemma OrdinalOfIndexed(b: string, n: nat)
    ensures Ordinal(b + "-" + Decimal(n)) == n
  {
    OrdinalOfSuffix(b, Decimal(n));
    DecimalReadsBack(n);
  }

  /** The name ends in a dash followed by digits only, at least one. */
  predicate Indexed(name: string) {
    exists i :: 0 <= i < |name| - 1 && name[i] == '-' && forall j :: i < j < |name| ==> IsDigit(name[j])
  }

  /** Every other pod has ordinal 0. */
  lemma OrdinalOfOthers(name: string)
    requires !Indexed(name)
    ensures Ordinal(name) == 0
  {
    var k := TrailingDigits(name);
    if 0 < k < |name| {
      assert forall j :: |name| - k - 1 < j < |name| ==> IsDigit(name[j]);
    }
  }

  /** Names compare as in a dictionary: at the first difference, or the shorter first. */
  lemma {:induction false} NameLessIff(a: string, b: string)
    ensures NameLess(a, b) <==>
              exists i :: 0 <= i <= |a| && i < |b| && a[..i] == b[..i] && (i == |a| || a[i] < b[i])
  {
    if b == [] {
    } else if a == [] {
      assert a[..0] == b[..0];
    } else if a[0] != b[0] {
      if a[0] < b[0] {
        assert a[..0] == b[..0];
      }
      forall i | 0 < i <= |a| && i < |b| ensures a[..i] != b[..i] {
        assert a[..i][0] != b[..i][0];
      }
    } else {
      NameLessIff(a[1..], b[1..]);
      forall i | 0 <= i < |a| && i < |b|
        ensures i + 1 <= |a| && i + 1 < |b| ==> (a[..i + 1] == b[..i + 1] <==> a[1..][..i] == b[1..][..i])
      {
        if i + 1 <= |a| && i + 1 < |b| {
          assert a[..i + 1] == [a[0]] + a[1..][..i] && b[..i + 1] == [b[0]] + b[1..][..i];
        }
      }
      if NameLess(a, b) {
        var i :| 0 <= i <= |a[1..]| && i < |b[1..]| && a[1..][..i] == b[1..][..i]
                 && (i == |a[1..]| || a[1..][i] < b[1..][i]);
        assert a[..i + 1] == b[..i + 1];
      }
      if i :| 0 <= i <= |a| && i < |b| && a[..i] == b[..i] && (i == |a| || a[i] < b[i]) {
        assert i > 0;
        assert a[1..][..i - 1] == b[1..][..i - 1];
      }
    }
  }

  // ---------------------------------------------------------------- the documented cycle

  /** Pods `b-0` to `b-(n-1)`. */
  function IndexedPods(b: string, n: nat): (pods: seq<Pod>)
    ensures |pods| == n && forall i :: 0 <= i < n ==> pods[i] == b + "-" + Decimal(i)
  {
    seq(n, i requires 0 <= i < n => b + "-" + Decimal(i))
  }

  /** They come in the order of their indices, 10 after 9 and not after 1. */
  lemma IndexedAreOrdered(b: string, n: nat)
    ensures Ordered(IndexedPods(b, n))
  {
    forall i, j | 0 <= i < j < n ensures PodBefore(IndexedPods(b, n)[i], IndexedPods(b, n)[j]) {
      OrdinalOfIndexed(b, i);
      OrdinalOfIndexed(b, j);
    }
  }

  /** So streams go round 0, 1, ..., n-1, 0, ...: after `rounds` rounds and `extra` more adds to empty
      pods, pod `i` holds `rounds` streams, one more if `i` is below `extra`, and the next stream
      goes to pod number `extra`, in whatever order the cluster lists its pods. */
  lemma Cycle(b: string, n: nat, listings: seq<seq<Pod>>, counts: Counts, threshold: nat, rounds: nat, extra: nat,
              next: seq<Pod>)
    requires AllList(listings, IndexedPods(b, n)) && Lists(next, IndexedPods(b, n))
    requires forall p :: p in IndexedPods(b, n) ==> CountOf(counts, p) == 0
    requires |listings| == rounds * n + extra && extra < n
    requires rounds < threshold || (rounds == threshold && extra == 0)
    ensures var after := Adds(listings, counts, threshold);
            && (forall i :: 0 <= i < n ==>
                  CountOf(after, b + "-" + Decimal(i)) == rounds + if i < extra then 1 else 0)
            && (rounds < threshold ==> Winner(next, after, threshold) == Some(b + "-" + Decimal(extra)))
  {
    IndexedAreOrdered(b, n);
    RoundRobinClosedForm(listings, IndexedPods(b, n), counts, threshold, rounds, extra, next);
    var after := Adds(listings, counts, threshold);
    forall i | 0 <= i < n ensures CountOf(after, b + "-" + Decimal(i)) == rounds + if i < extra then 1 else 0 {
      assert IndexedPods(b, n)[i] == b + "-" + Decimal(i);
    }
  }
}
