/** The heartbeat that renews a provision lease, in real time.  Waking up may be late and a store
    call may take any time; only the order of events is fixed. */
module Heartbeat {

  datatype Renewal = Renewed | Rejected | Erred

  /** One turn: how long the wait took, how long the call took, and when within the call the store
      extended the key. */
  datatype Turn = Turn(waited: real, call: real, extendedAfter: real, renewal: Renewal)

  /** `expiry` is when the store drops the key, `deadline` the heartbeat's own estimate, `errors`
      the renewals that raised since the last success. */
  datatype Beat = Beat(now: real, deadline: real, expiry: real, lost: bool, errors: nat)

  function Interval(ttl: nat): (i: real)
    ensures i >= 1.0 && 3.0 * i >= ttl as real
    ensures ttl >= 3 ==> 3.0 * i == ttl as real
    ensures ttl <= 3 ==> i == 1.0
  {
    if ttl as real / 3.0 > 1.0 then ttl as real / 3.0 else 1.0
  }

  function Length(ttl: nat): real {
    if ttl > 1 then ttl as real else 1.0
  }

  /** The lease was taken no later than the heartbeat started. */
  function Begin(start: real, taken: real, ttl: nat): Beat {
    Beat(start, start + Length(ttl), taken + Length(ttl), false, 0)
  }

  predicate Possible(turn: Turn, ttl: nat) {
    turn.waited >= Interval(ttl) && 0.0 <= turn.extendedAfter <= turn.call
  }

  function Next(b: Beat, turn: Turn, ttl: nat): Beat {
    var woken := b.now + turn.waited;
    var after := woken + turn.call;
    match turn.renewal
    case Rejected => b.(now := after, lost := true)
    case Renewed => Beat(after, after + Length(ttl), woken + turn.extendedAfter + Length(ttl), false, 0)
    case Erred => b.(now := after, lost := after >= b.deadline, errors := b.errors + 1)
  }

  /** The heartbeat after these turns; it stops at the first that sets the flag. */
  function After(b: Beat, turns: seq<Turn>, ttl: nat): Beat
    decreases turns
  {
    if turns == [] || b.lost then b else After(Next(b, turns[0], ttl), turns[1..], ttl)
  }

  /** `_renew_provision_lease_until_stopped`, stopped after `turns`. */
  method Renew(start: real, taken: real, ttl: nat, turns: seq<Turn>) returns (lost: bool)
    ensures lost == After(Begin(start, taken, ttl), turns, ttl).lost
    ensures lost <==> exists i :: 0 <= i < |turns| && GivesUp(start, turns, ttl, i)
  {
    FlagSetIff(start, taken, turns, ttl);
    var length := Length(ttl);
    var now, deadline := start, start + length;
    ghost var b := Begin(start, taken, ttl);
    lost := false;
    var i := 0;
    while i < |turns| && !lost
      invariant i <= |turns| && b.now == now && b.deadline == deadline && b.lost == lost
      invariant After(b, turns[i..], ttl) == After(Begin(start, taken, ttl), turns, ttl)
    {
      var turn := turns[i];
      assert turns[i..][0] == turn && turns[i..][1..] == turns[i + 1..];
      b := Next(b, turn, ttl);
      now := now + turn.waited + turn.call;
      match turn.renewal {
        case Rejected => lost := true;
        case Renewed => deadline := now + length;
        case Erred => lost := now >= deadline;
      }
      i := i + 1;
    }
  }

  // ---------------------------------------------------------------- when the flag is set

  /** When the first `n` turns are over, by adding up waits and calls. */
  function EndOf(start: real, turns: seq<Turn>, n: nat): real
    requires n <= |turns|
  {
    if n == 0 then start else EndOf(start, turns, n - 1) + turns[n - 1].waited + turns[n - 1].call
  }

  /** When the last successful renewal among the first `n` turns was over; the start if none was. */
  function LastRenewal(start: real, turns: seq<Turn>, n: nat): real
    requires n <= |turns|
  {
    if n == 0 then start
    else if turns[n - 1].renewal == Renewed then EndOf(start, turns, n)
    else LastRenewal(start, turns, n - 1)
  }

  /** Turn `i` is a reason to give the lease up: the renewal was rejected, or it raised and the lease
      was `ttl` seconds old by then, at least one. */
  predicate GivesUp(start: real, turns: seq<Turn>, ttl: nat, i: nat)
    requires i < |turns|
  {
    || turns[i].renewal == Rejected
    || (&& turns[i].renewal == Erred
        && EndOf(start, turns, i + 1) - LastRenewal(start, turns, i) >= (if ttl == 0 then 1.0 else ttl as real))
  }

  lemma {:induction false} AfterOneMore(b: Beat, turns: seq<Turn>, turn: Turn, ttl: nat)
    ensures After(b, turns + [turn], ttl) ==
            if After(b, turns, ttl).lost then After(b, turns, ttl) else Next(After(b, turns, ttl), turn, ttl)
    decreases turns
  {
    if turns == [] {
      assert turns + [turn] == [turn] && [turn][1..] == [];
    } else if !b.lost {
      AfterOneMore(Next(b, turns[0], ttl), turns[1..], turn, ttl);
      assert (turns + [turn])[1..] == turns[1..] + [turn];
    }
  }

  lemma {:induction false} TimesOfPrefix(start: real, turns: seq<Turn>, turn: Turn, n: nat)
    requires n <= |turns|
    ensures EndOf(start, turns + [turn], n) == EndOf(start, turns, n)
    ensures LastRenewal(start, turns + [turn], n) == LastRenewal(start, turns, n)
  {
    if n > 0 {
      TimesOfPrefix(start, turns, turn, n - 1);
    }
  }

  /** The flag is set exactly if some turn gave a reason to: neither sooner nor later, for any delays
      and any calls. */
  lemma {:induction false} FlagSetIff(start: real, taken: real, turns: seq<Turn>, ttl: nat)
    ensures var b := After(Begin(start, taken, ttl), turns, ttl);
            && (b.lost <==> exists i :: 0 <= i < |turns| && GivesUp(start, turns, ttl, i))
            && (!b.lost ==> b.now == EndOf(start, turns, |turns|)
                            && b.deadline == LastRenewal(start, turns, |turns|) + Length(ttl))
    decreases |turns|
  {
    if turns != [] {
      var (n, rest, last) := (|turns| - 1, turns[..|turns| - 1], turns[|turns| - 1]);
      assert turns == rest + [last];
      FlagSetIff(start, taken, rest, ttl);
      AfterOneMore(Begin(start, taken, ttl), rest, last, ttl);
      forall i | 0 <= i <= n
        ensures EndOf(start, turns, i) == EndOf(start, rest, i)
        ensures LastRenewal(start, turns, i) == LastRenewal(start, rest, i)
      {
        TimesOfPrefix(start, rest, last, i);
      }
      assert forall i :: 0 <= i < n ==> (GivesUp(start, turns, ttl, i) <==> GivesUp(start, rest, ttl, i));
      var b := After(Begin(start, taken, ttl), rest, ttl);
      if !b.lost {
        assert Next(b, last, ttl).lost <==> GivesUp(start, turns, ttl, n);
      }
    }
  }

  // ---------------------------------------------------------------- any delays

  /** Every error in a row used up at least one interval of the time to the deadline. */
  predicate ErrorsTookTime(b: Beat, ttl: nat) {
    b.now >= b.deadline - Length(ttl) + b.errors as real * Interval(ttl)
  }

  lemma {:induction false} ErrorsTakeTime(b: Beat, turns: seq<Turn>, ttl: nat)
    requires ErrorsTookTime(b, ttl) && (forall t :: t in turns ==> Possible(t, ttl))
    requires b.lost || b.errors == 0 || b.now < b.deadline
    ensures var end := After(b, turns, ttl);
            ErrorsTookTime(end, ttl) && (end.lost || end.errors == 0 || end.now < end.deadline)
    decreases turns
  {
    if turns != [] && !b.lost {
      var b' := Next(b, turns[0], ttl);
      assert Possible(turns[0], ttl);
      assert (b.errors + 1) as real * Interval(ttl) == b.errors as real * Interval(ttl) + Interval(ttl);
      ErrorsTakeTime(b', turns[1..], ttl);
    }
  }

  /** How many errors in a row the flag can survive: fewer than three, and none or one for leases
      of one or two seconds. */
  function Patience(ttl: nat): (k: nat)
    ensures k as real * Interval(ttl) == Length(ttl)
  {
    if ttl >= 3 then 3 else if ttl == 2 then 2 else 1
  }

  /** Whatever the delays, the flag is set by the time `Patience` renewals in a row have raised. */
  lemma ErrorsSetTheFlag(start: real, taken: real, turns: seq<Turn>, ttl: nat)
    requires forall t :: t in turns ==> Possible(t, ttl)
    ensures var end := After(Begin(start, taken, ttl), turns, ttl);
            end.lost || end.errors < Patience(ttl) <= 3
  {
    var end := After(Begin(start, taken, ttl), turns, ttl);
    ErrorsTakeTime(Begin(start, taken, ttl), turns, ttl);
    if !end.lost && end.errors >= Patience(ttl) {
      MoreTakesLonger(Patience(ttl), end.errors, Interval(ttl));
      assert false;
    }
  }

  lemma MoreTakesLonger(m: nat, n: nat, i: real)
    requires m <= n && i >= 0.0
    ensures m as real * i <= n as real * i
  {
  }

  // ---------------------------------------------------------------- when a clear flag means leased

  /** How far the heartbeat runs behind an ideal one since the store last extended the key: a renewal
      leaves the rest of its call, an error adds its lateness and its call. */
  function DriftAfter(drift: real, turn: Turn, ttl: nat): real {
    match turn.renewal
    case Renewed => turn.call - turn.extendedAfter
    case Erred => drift + (turn.waited - Interval(ttl)) + turn.call
    case Rejected => drift
  }

  function Drift(drift: real, b: Beat, turns: seq<Turn>, ttl: nat): real
    decreases turns
  {
    if turns == [] || b.lost then drift
    else Drift(DriftAfter(drift, turns[0], ttl), Next(b, turns[0], ttl), turns[1..], ttl)
  }

  /** The time since the last extension is one interval for every error, and the drift. */
  predicate Behind(b: Beat, drift: real, ttl: nat) {
    b.now == b.expiry - Length(ttl) + b.errors as real * Interval(ttl) + drift
  }

  lemma {:induction false} StaysBehind(b: Beat, drift: real, turns: seq<Turn>, ttl: nat)
    requires !b.lost ==> Behind(b, drift, ttl)
    ensures var end := After(b, turns, ttl); !end.lost ==> Behind(end, Drift(drift, b, turns, ttl), ttl)
    decreases turns
  {
    if turns != [] && !b.lost {
      assert (b.errors + 1) as real * Interval(ttl) == b.errors as real * Interval(ttl) + Interval(ttl);
      StaysBehind(Next(b, turns[0], ttl), DriftAfter(drift, turns[0], ttl), turns[1..], ttl);
    }
  }

  /** The intervals left to a heartbeat with a clear flag. */
  function Margin(b: Beat, ttl: nat): real {
    Patience(ttl) as real * Interval(ttl) - b.errors as real * Interval(ttl)
  }

  /** The store still has the key at time `t`. */
  predicate Leased(b: Beat, t: real) {
    t < b.expiry
  }

  /** Exactly when a clear flag means leased, for any delays, any calls and any time `t`: the lease
      has not run out before `t` if and only if the time since the last turn and the drift together
      are less than the intervals left. */
  lemma LeasedIff(start: real, taken: real, turns: seq<Turn>, ttl: nat, t: real)
    requires !After(Begin(start, taken, ttl), turns, ttl).lost
    ensures var (begin, end) := (Begin(start, taken, ttl), After(Begin(start, taken, ttl), turns, ttl));
            Leased(end, t) <==> (t - end.now) + Drift(start - taken, begin, turns, ttl) < Margin(end, ttl)
  {
    StaysBehind(Begin(start, taken, ttl), start - taken, turns, ttl);
  }

  /** So the lease lasts through the whole of the next wait exactly if that wait and the drift fit
      into the intervals left: what a late wake-up may cost. */
  lemma LeasedUntilWakeUpIff(start: real, taken: real, turns: seq<Turn>, ttl: nat, wait: real)
    requires !After(Begin(start, taken, ttl), turns, ttl).lost && wait > 0.0
    ensures var (begin, end) := (Begin(start, taken, ttl), After(Begin(start, taken, ttl), turns, ttl));
            (forall t :: end.now <= t < end.now + wait ==> Leased(end, t)) <==>
              wait + Drift(start - taken, begin, turns, ttl) <= Margin(end, ttl)
  {
    var (begin, end) := (Begin(start, taken, ttl), After(Begin(start, taken, ttl), turns, ttl));
    var drift := Drift(start - taken, begin, turns, ttl);
    StaysBehind(begin, start - taken, turns, ttl);
    if end.expiry < end.now + wait {
      var t := if end.expiry < end.now then end.now else end.expiry;
      assert end.now <= t < end.now + wait && !Leased(end, t);
    }
  }

  /** Woken on time, calls take no time. */
  predicate Punctual(turn: Turn, ttl: nat) {
    turn.waited == Interval(ttl) && turn.call == 0.0 && turn.extendedAfter == 0.0
  }

  lemma {:induction false} PunctualNeverDrifts(b: Beat, turns: seq<Turn>, ttl: nat)
    requires forall t :: t in turns ==> Punctual(t, ttl)
    ensures Drift(0.0, b, turns, ttl) == 0.0
    decreases turns
  {
    if turns != [] && !b.lost {
      assert Punctual(turns[0], ttl);
      PunctualNeverDrifts(Next(b, turns[0], ttl), turns[1..], ttl);
    }
  }

  /** A punctual heartbeat always meets that condition: while its flag is clear the lease lasts at
      least until the next wake-up. */
  lemma ClearFlagMeansLeased(start: real, turns: seq<Turn>, ttl: nat, t: real)
    requires forall x :: x in turns ==> Punctual(x, ttl)
    requires var end := After(Begin(start, start, ttl), turns, ttl);
             !end.lost && end.now <= t < end.now + Interval(ttl)
    ensures Leased(After(Begin(start, start, ttl), turns, ttl), t)
  {
    var end := After(Begin(start, start, ttl), turns, ttl);
    LeasedIff(start, start, turns, ttl, t);
    PunctualNeverDrifts(Begin(start, start, ttl), turns, ttl);
    forall x | x in turns ensures Possible(x, ttl) {
      assert Punctual(x, ttl);
    }
    ErrorsSetTheFlag(start, start, turns, ttl);
    MoreTakesLonger(end.errors + 1, Patience(ttl), Interval(ttl));
    assert (end.errors + 1) as real * Interval(ttl) == end.errors as real * Interval(ttl) + Interval(ttl);
  }

  /** How late is too late, for a punctual heartbeat with a clear flag: the lease runs out during the
      next wait exactly if that wait is longer than the intervals left, three of them after a
      renewal and one less for every error. */
  lemma LateWakeUpMissesExpiry(start: real, turns: seq<Turn>, ttl: nat, wait: real)
    requires (forall x :: x in turns ==> Punctual(x, ttl)) && wait > 0.0
    requires !After(Begin(start, start, ttl), turns, ttl).lost
    ensures var end := After(Begin(start, start, ttl), turns, ttl);
            (exists t :: end.now <= t < end.now + wait && !Leased(end, t)) <==>
              wait > (Patience(ttl) - end.errors) as real * Interval(ttl)
  {
    var end := After(Begin(start, start, ttl), turns, ttl);
    LeasedUntilWakeUpIff(start, start, turns, ttl, wait);
    PunctualNeverDrifts(Begin(start, start, ttl), turns, ttl);
    assert (Patience(ttl) - end.errors) as real * Interval(ttl) == Margin(end, ttl);
  }
}
