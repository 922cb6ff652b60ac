/** One partition under the Kafka handler: the consumer's position, the group's committed offset,
    the one-shot park that replaces the consumer's commit, and the commit that the consuming loop
    always issues after the handler.  An exception out of the handler restarts the consumer from
    the committed offset with an empty retry table. */
module KafkaPartition {
  import opened BusOutcomes

  datatype Park = NoPark | ParkAt(offset: nat)

  /** `decided` is the history of committing decisions, by offset. */
  datatype Partition = Partition(
    position: nat,
    committed: nat,
    park: Park,
    attempts: map<nat, nat>,
    decided: seq<nat>)

  const START := Partition(0, 0, NoPark, map[], [])

  /** What the outside makes of handling one record. */
  datatype Env = Env(
    outcome: Outcome,
    ownCommit: bool,   // the handler's own commit succeeds
    seek: bool,        // the seek back succeeds
    install: bool,     // replacing the commit succeeds
    postCommit: bool)  // the loop's commit succeeds

  datatype Event = Handle(env: Env) | Crash

  function Restarted(c: Partition): Partition {
    c.(position := c.committed, park := NoPark, attempts := map[])
  }

  /** Commit the position, or once the parked offset. */
  function CommitNow(c: Partition, succeeds: bool): Partition {
    c.(committed := if !succeeds then c.committed else if c.park.ParkAt? then c.park.offset else c.position,
       park := NoPark)
  }

  function DecisionAt(c: Partition, env: Env, limit: nat): Decision {
    Decide(c.attempts, c.position, env.outcome, limit).0
  }

  /** The handler neither rewinds nor parks, so it raises. */
  predicate Raises(c: Partition, env: Env, limit: nat) {
    !DecisionAt(c, env, limit).commit && !env.seek && !env.install
  }

  /** The handler installs a park. */
  predicate Parks(c: Partition, env: Env, limit: nat) {
    !DecisionAt(c, env, limit).commit && !env.seek && env.install
  }

  /** Some commit of this iteration reaches the group. */
  predicate CommitLands(c: Partition, env: Env, limit: nat) {
    !Raises(c, env, limit) && (env.postCommit || (DecisionAt(c, env, limit).commit && env.ownCommit))
  }

  /** Poll the record at the position, decide it, commit or go back, then the loop's commit. */
  function Iterate(c: Partition, env: Env, limit: nat): Partition {
    var (d, attempts) := Decide(c.attempts, c.position, env.outcome, limit);
    var polled := c.(position := c.position + 1, attempts := attempts);
    if d.commit then
      CommitNow(CommitNow(polled.(decided := c.decided + [c.position]), env.ownCommit), env.postCommit)
    else if env.seek then CommitNow(polled.(position := c.position), env.postCommit)
    else if env.install then CommitNow(polled.(park := ParkAt(c.position)), env.postCommit)
    else Restarted(polled)
  }

  function Next(c: Partition, ev: Event, limit: nat): Partition {
    match ev
    case Handle(env) => Iterate(c, env, limit)
    case Crash => Restarted(c)
  }

  function Run(c: Partition, events: seq<Event>, limit: nat): Partition {
    if events == [] then c
    else Next(Run(c, events[..|events| - 1], limit), events[|events| - 1], limit)
  }

  // ---------------------------------------------------------------- the handler as it is written

  class Consumer {
    var position: nat
    var committed: nat
    var park: Park
    const table: RetryTable<nat>
    ghost var decided: seq<nat>
    const retryLimit: int

    constructor (retryLimit: int)
      ensures Snapshot() == START && this.retryLimit == retryLimit && fresh(table)
    {
      position, committed, park, decided := 0, 0, NoPark, [];
      this.retryLimit := retryLimit;
      table := new RetryTable();
    }

    ghost function Snapshot(): Partition
      reads this, table
    {
      Partition(position, committed, park, table.attempts, decided)
    }

    ghost function Limit(): nat
    {
      EffectiveLimit(retryLimit)
    }

    method Commit(succeeds: bool)
      modifies this`committed, this`park
      ensures Snapshot() == CommitNow(old(Snapshot()), succeeds)
    {
      if succeeds {
        committed := match park case NoPark => position case ParkAt(offset) => offset;
      }
      park := NoPark;
    }

    /** `kafka_rewind_to_message`. */
    method Rewind(offset: nat, works: bool) returns (done: bool)
      modifies this`position
      ensures done == works
      ensures Snapshot() == old(Snapshot()).(position := if works then offset else old(position))
    {
      if works {
        position := offset;
      }
      done := works;
    }

    /** `kafka_park_offset_on_next_commit`. */
    method ParkNextCommit(offset: nat, works: bool) returns (done: bool)
      modifies this`park
      ensures done == works
      ensures Snapshot() == old(Snapshot()).(park := if works then ParkAt(offset) else old(park))
    {
      if works {
        park := ParkAt(offset);
      }
      done := works;
    }

    /** The decision and what follows it in `kafka_topic_handler`; `raised`: an exception leaves
        the handler. */
    method HandleRecord(offset: nat, env: Env) returns (raised: bool)
      requires offset + 1 == position
      modifies this, table
      ensures raised <==> Raises(old(Snapshot()).(position := offset), env, Limit())
      ensures var before := old(Snapshot()).(position := offset);
              if raised then Restarted(Snapshot()) == Iterate(before, env, Limit())
              else CommitNow(Snapshot(), env.postCommit) == Iterate(before, env, Limit())
    {
      var d := table.DecideCommit(env.outcome, offset, retryLimit);
      raised := false;
      if d.commit {
        decided := decided + [offset];
        Commit(env.ownCommit);
      } else {
        var rewound := Rewind(offset, env.seek);
        if !rewound {
          var parked := ParkNextCommit(offset, env.install);
          raised := !parked;
        }
      }
    }

    method Restart()
      modifies this, table
      ensures Snapshot() == Restarted(old(Snapshot()))
    {
      position, park := committed, NoPark;
      table.attempts := map[];
    }

    /** One turn of the consuming loop. */
    method Turn(env: Env)
      modifies this, table
      ensures Snapshot() == Iterate(old(Snapshot()), env, Limit())
    {
      var offset := position;
      position := position + 1;
      var raised := HandleRecord(offset, env);
      if raised {
        Restart();
      } else {
        Commit(env.postCommit);
      }
    }
  }

  // ---------------------------------------------------------------- no record is acknowledged past

  /** Every offset the group has committed past had a committing decision. */
  ghost predicate Safe(c: Partition) {
    forall k: nat :: k < c.committed ==> k in c.decided
  }

  /** The in-memory position has moved past a record that is still undecided. */
  ghost predicate Exposed(c: Partition) {
    exists k: nat :: k < c.position && k !in c.decided
  }

  /** A commit lands while the position is past an undecided record. */
  ghost predicate Overruns(c: Partition, ev: Event, limit: nat) {
    Exposed(c) && ev.Handle? && CommitLands(c, ev.env, limit)
  }

  ghost predicate NeverOverruns(events: seq<Event>, limit: nat) {
    forall i :: 0 <= i < |events| ==> !Overruns(Run(START, events[..i], limit), events[i], limit)
  }

  predicate WellPlaced(c: Partition) {
    c.committed <= c.position && c.park == NoPark
  }

  lemma StepKeepsPlace(c: Partition, ev: Event, limit: nat)
    requires WellPlaced(c)
    ensures WellPlaced(Next(c, ev, limit))
    ensures forall k :: k in c.decided ==> k in Next(c, ev, limit).decided
  {
  }

  /** One step from a safe state is safe exactly when it does not overrun. */
  lemma SafeStep(c: Partition, ev: Event, limit: nat)
    requires WellPlaced(c) && Safe(c)
    ensures Safe(Next(c, ev, limit)) <==> !Overruns(c, ev, limit)
  {
    var c' := Next(c, ev, limit);
    if Overruns(c, ev, limit) {
      var k: nat :| k < c.position && k !in c.decided;
      assert c'.committed >= c.position;
      assert k !in c'.decided;
    }
  }

  /** An unsafe state stays unsafe: what was acknowledged past is never polled again. */
  lemma UnsafeStays(c: Partition, ev: Event, limit: nat)
    requires WellPlaced(c) && !Safe(c)
    ensures !Safe(Next(c, ev, limit))
  {
    var k: nat :| k < c.committed && k !in c.decided;
    var c' := Next(c, ev, limit);
    assert c'.committed >= c.committed && k !in c'.decided;
  }

  lemma {:induction false} RunIsWellPlaced(events: seq<Event>, limit: nat)
    ensures WellPlaced(Run(START, events, limit))
  {
    if events != [] {
      RunIsWellPlaced(events[..|events| - 1], limit);
      StepKeepsPlace(Run(START, events[..|events| - 1], limit), events[|events| - 1], limit);
    }
  }

  /** Over any run of turns and crashes: no retryable record is acknowledged past if and only if
      no commit ever lands while the position is ahead of an undecided record. */
  lemma {:induction false} SafeIffNeverOverruns(events: seq<Event>, limit: nat)
    ensures Safe(Run(START, events, limit)) <==> NeverOverruns(events, limit)
  {
    if events != [] {
      var (rest, last) := (events[..|events| - 1], events[|events| - 1]);
      var c := Run(START, rest, limit);
      SafeIffNeverOverruns(rest, limit);
      RunIsWellPlaced(rest, limit);
      assert forall i :: 0 <= i < |rest| ==> rest[..i] == events[..i] && rest[i] == events[i];
      if Safe(c) {
        SafeStep(c, last, limit);
        assert forall i :: 0 <= i < |events| ==> i < |rest| || (events[..i] == rest && events[i] == last);
      } else {
        UnsafeStays(c, last, limit);
        var i :| 0 <= i < |rest| && Overruns(Run(START, rest[..i], limit), rest[i], limit);
        assert Overruns(Run(START, events[..i], limit), events[i], limit);
      }
    }
  }

  // ---------------------------------------------------------------- only a park exposes

  /** Event `i` handles a record and parks. */
  predicate ParkedAt(events: seq<Event>, i: nat, limit: nat)
    requires i < |events|
  {
    events[i].Handle? && Parks(Run(START, events[..i], limit), events[i].env, limit)
  }

  /** Event `i` ends in a restart. */
  predicate RestartsAt(events: seq<Event>, i: nat, limit: nat)
    requires i < |events|
  {
    events[i].Crash? || Raises(Run(START, events[..i], limit), events[i].env, limit)
  }

  /** The record that event `i` handles. */
  function OffsetAt(events: seq<Event>, i: nat, limit: nat): nat
    requires i < |events|
  {
    Run(START, events[..i], limit).position
  }

  /** Event `i` parked a record that is still undecided, and nothing has restarted since. */
  ghost predicate Pending(events: seq<Event>, i: nat, limit: nat)
    requires i < |events|
  {
    && ParkedAt(events, i, limit)
    && (forall j :: i < j < |events| ==> !RestartsAt(events, j, limit))
    && OffsetAt(events, i, limit) !in Run(START, events, limit).decided
  }

  /** One more event: what was pending stays so unless the event restarts or decides that record. */
  lemma PendingStep(events: seq<Event>, i: nat, limit: nat)
    requires i < |events| - 1
    ensures var rest := events[..|events| - 1];
            && OffsetAt(events, i, limit) == OffsetAt(rest, i, limit)
            && (Pending(events, i, limit) <==>
                  && Pending(rest, i, limit) && !RestartsAt(events, |events| - 1, limit)
                  && OffsetAt(rest, i, limit) !in Run(START, events, limit).decided)
  {
    var (n, rest) := (|events| - 1, events[..|events| - 1]);
    forall j | 0 <= j < n ensures RestartsAt(rest, j, limit) <==> RestartsAt(events, j, limit) {
      assert rest[..j] == events[..j];
    }
    assert rest[..i] == events[..i];
    RunIsWellPlaced(rest, limit);
    StepKeepsPlace(Run(START, rest, limit), events[n], limit);
  }

  /** The position is past an undecided record exactly when a park is pending, and a pending park
      is behind the position. */
  ghost predicate ParksExplainExposure(events: seq<Event>, limit: nat) {
    && (Exposed(Run(START, events, limit)) <==> exists i :: 0 <= i < |events| && Pending(events, i, limit))
    && (forall i :: 0 <= i < |events| && Pending(events, i, limit) ==>
          OffsetAt(events, i, limit) < Run(START, events, limit).position)
  }

  lemma ExplanationExtends(events: seq<Event>, limit: nat)
    requires events != [] && Safe(Run(START, events, limit))
    requires ParksExplainExposure(events[..|events| - 1], limit)
    ensures ParksExplainExposure(events, limit)
  {
    hide Pending, Exposed, RestartsAt, OffsetAt, Run, Safe;
    var (n, rest) := (|events| - 1, events[..|events| - 1]);
    LastEvent(events, limit);
    forall i | 0 <= i < n
      ensures Pending(events, i, limit) <==>
                && Pending(rest, i, limit) && !RestartsAt(events, n, limit)
                && OffsetAt(rest, i, limit) !in Run(START, events, limit).decided
      ensures OffsetAt(events, i, limit) == OffsetAt(rest, i, limit)
      ensures Pending(rest, i, limit) ==> OffsetAt(rest, i, limit) !in Run(START, rest, limit).decided
    {
      PendingStep(events, i, limit);
      PendingIsUndecided(rest, i, limit);
    }
    if Exposed(Run(START, events, limit)) {
      if !Pending(events, n, limit) {
        var i :| 0 <= i < n && Pending(rest, i, limit);
        assert Pending(events, i, limit);
      }
    } else {
      forall i | 0 <= i < |events| ensures !Pending(events, i, limit) {
        if i == n {
          PendingExposesLast(events, limit);
        }
      }
    }
  }

  lemma PendingIsUndecided(events: seq<Event>, i: nat, limit: nat)
    requires i < |events|
    ensures Pending(events, i, limit) ==> OffsetAt(events, i, limit) !in Run(START, events, limit).decided
  {
  }

  lemma PendingExposesLast(events: seq<Event>, limit: nat)
    requires events != [] && Safe(Run(START, events, limit))
    ensures Pending(events, |events| - 1, limit) ==> Exposed(Run(START, events, limit))
  {
    LastEvent(events, limit);
  }

  /** How the position gets ahead: as long as no commit overruns, only by parks. */
  lemma {:induction false} ExposedIffPending(events: seq<Event>, limit: nat)
    requires NeverOverruns(events, limit)
    ensures ParksExplainExposure(events, limit)
  {
    if events != [] {
      var n := |events| - 1;
      PrefixNeverOverruns(events, n, limit);
      ExposedIffPending(events[..n], limit);
      SafeIffNeverOverruns(events, limit);
      ExplanationExtends(events, limit);
    }
  }

  lemma PrefixNeverOverruns(events: seq<Event>, j: nat, limit: nat)
    requires j <= |events| && NeverOverruns(events, limit)
    ensures NeverOverruns(events[..j], limit)
  {
    forall i | 0 <= i < j ensures !Overruns(Run(START, events[..j][..i], limit), events[..j][i], limit) {
      assert events[..j][..i] == events[..i];
    }
  }

  /** The last event either restarts, or keeps what is exposed and adds what it parks. */
  lemma LastEvent(events: seq<Event>, limit: nat)
    requires events != [] && Safe(Run(START, events, limit))
    ensures var (n, c') := (|events| - 1, Run(START, events, limit));
            var c := Run(START, events[..n], limit);
            && (RestartsAt(events, n, limit) ==> !Exposed(c'))
            && (!RestartsAt(events, n, limit) ==>
                  && c.position <= c'.position
                  && (Exposed(c') <==> Exposed(c) || Pending(events, n, limit))
                  && (forall k :: k < c.position ==> (k in c'.decided <==> k in c.decided)))
            && (Pending(events, n, limit) ==> OffsetAt(events, n, limit) < c'.position)
  {
    var (n, last, c') := (|events| - 1, events[|events| - 1], Run(START, events, limit));
    var c := Run(START, events[..n], limit);
    assert c' == Next(c, last, limit);
    if !RestartsAt(events, n, limit) {
      if Exposed(c) {
        var k: nat :| k < c.position && k !in c.decided;
        assert k < c'.position && k !in c'.decided;
      }
      if Pending(events, n, limit) {
        assert c.position < c'.position && c.position !in c'.decided;
      }
      if Exposed(c') && !Exposed(c) {
        var k: nat :| k < c'.position && k !in c'.decided;
        assert k == c.position;
      }
    }
  }

  /** So a run is safe if and only if no commit lands while a park is pending. */
  lemma {:induction false} SafeIffNoCommitWhilePending(events: seq<Event>, limit: nat)
    ensures Safe(Run(START, events, limit)) <==>
              forall i, j :: 0 <= i < j < |events| && Pending(events[..j], i, limit) ==>
                !LandsAt(events, j, limit)
  {
    SafeIffNeverOverruns(events, limit);
    if !NeverOverruns(events, limit) {
      var j := FirstOverrun(events, limit);
      ExposedIffPending(events[..j], limit);
      assert events[..j][..j] == events[..j];
      var i :| 0 <= i < j && Pending(events[..j], i, limit);
      assert LandsAt(events, j, limit);
    } else {
      forall i, j | 0 <= i < j < |events| && Pending(events[..j], i, limit) ensures !LandsAt(events, j, limit) {
        PrefixNeverOverruns(events, j, limit);
        ExposedIffPending(events[..j], limit);
        assert !Overruns(Run(START, events[..j], limit), events[j], limit);
      }
    }
  }

  /** Event `j` is a turn whose commit reaches the group. */
  predicate LandsAt(events: seq<Event>, j: nat, limit: nat)
    requires j < |events|
  {
    events[j].Handle? && CommitLands(Run(START, events[..j], limit), events[j].env, limit)
  }

  lemma FirstOverrun(events: seq<Event>, limit: nat) returns (j: nat)
    requires !NeverOverruns(events, limit)
    ensures j < |events| && Overruns(Run(START, events[..j], limit), events[j], limit)
    ensures NeverOverruns(events[..j], limit)
  {
    hide Overruns, Run;
    j := 0;
    while !Overruns(Run(START, events[..j], limit), events[j], limit)
      invariant j < |events|
      invariant forall i :: 0 <= i < j ==> !Overruns(Run(START, events[..i], limit), events[i], limit)
      decreases |events| - j
    {
      j := j + 1;
    }
    forall i | 0 <= i < j ensures !Overruns(Run(START, events[..j][..i], limit), events[..j][i], limit) {
      assert events[..j][..i] == events[..i];
    }
  }

  /** Every park is followed by a crash before the next record is handled. */
  ghost predicate ParksThenCrashes(events: seq<Event>, limit: nat) {
    forall i :: 0 <= i < |events| - 1 ==> ParkedAt(events, i, limit) ==> events[i + 1] == Crash
  }

  /** A step leaves no undecided record behind, unless there was one already or it parks. */
  lemma ExposureComesFromPark(c: Partition, ev: Event, limit: nat)
    requires WellPlaced(c) && Safe(c) && !Exposed(c)
    ensures Exposed(Next(c, ev, limit)) ==> ev.Handle? && Parks(c, ev.env, limit)
    ensures Safe(Next(c, ev, limit))
  {
    SafeStep(c, ev, limit);
    var c' := Next(c, ev, limit);
    if ev.Handle? && !Parks(c, ev.env, limit) {
      forall k: nat | k < c'.position ensures k in c'.decided {
        assert k < c.position ==> k in c.decided;
      }
    }
  }

  /** With every park followed by a restart, as the handler hopes for, no run acknowledges past a
      record without a committing decision. */
  lemma {:induction false} ParkThenCrashIsSafe(events: seq<Event>, limit: nat)
    requires ParksThenCrashes(events, limit)
    ensures Safe(Run(START, events, limit))
    ensures Exposed(Run(START, events, limit)) ==> events != [] && ParkedAt(events, |events| - 1, limit)
  {
    if events != [] {
      var (n, rest, last) := (|events| - 1, events[..|events| - 1], events[|events| - 1]);
      var c := Run(START, rest, limit);
      assert forall i :: 0 <= i < |rest| ==> rest[..i] == events[..i] && rest[i] == events[i];
      assert forall i :: 0 <= i < |rest| ==> (ParkedAt(rest, i, limit) <==> ParkedAt(events, i, limit));
      ParkThenCrashIsSafe(rest, limit);
      RunIsWellPlaced(rest, limit);
      if Exposed(c) {
        assert ParkedAt(events, n - 1, limit) by {
          assert rest[..n - 1] == events[..n - 1];
        }
        assert last == Crash;
      } else {
        ExposureComesFromPark(c, last, limit);
      }
    }
  }

  const REFUSED_TURN := Handle(Env(Retryable, true, false, true, true))
  const SUCCESSFUL_TURN := Handle(Env(Outcome.Ok, true, true, true, true))

  /** The park protects one commit only: without a restart the very next success acknowledges the
      parked record, which never had a committing decision. */
  lemma ParkWithoutCrashSkips(limit: nat)
    requires limit >= 2
    ensures var c := Run(START, [REFUSED_TURN, SUCCESSFUL_TURN], limit);
            c.committed == 2 && c.decided == [1] && !Safe(c)
  {
    var events := [REFUSED_TURN, SUCCESSFUL_TURN];
    assert events[..1] == [REFUSED_TURN] && events[..1][..0] == [];
    var c1 := Run(START, [REFUSED_TURN], limit);
    assert c1 == Next(Run(START, [], limit), REFUSED_TURN, limit);
    assert c1.position == 1 && c1.committed == 0;
    assert 0 !in Run(START, events, limit).decided;
  }

  /** The other way round, commits do what they are for: a turn whose commit lands leaves the group at
      the position, except that one which parks leaves it at the parked record; any other turn
      leaves the group where it was. */
  lemma LandingCommits(c: Partition, env: Env, limit: nat)
    requires WellPlaced(c)
    ensures var c' := Iterate(c, env, limit);
            && (CommitLands(c, env, limit) && !Parks(c, env, limit) ==> c'.committed == c'.position)
            && (CommitLands(c, env, limit) && Parks(c, env, limit) ==>
                  c'.committed == c.position && c'.position == c.position + 1)
            && (!CommitLands(c, env, limit) ==> c'.committed == c.committed)
  {
  }

  /** A restart resumes at the committed offset, forgets attempts and parks, and loses no decision. */
  lemma RestartResumes(c: Partition, k: nat)
    ensures var c' := Next(c, Crash, 1);
            && c'.position == c'.committed == c.committed && c'.park == NoPark
            && Counter(c'.attempts, k) == 0 && c'.decided == c.decided
  {
  }

  // ---------------------------------------------------------------- progress

  /** No crash, and every seek succeeds. */
  predicate Smooth(events: seq<Event>) {
    forall i :: 0 <= i < |events| ==> events[i].Handle? && events[i].env.seek
  }

  function Offsets(n: nat): seq<nat> {
    seq(n, i => i)
  }

  /** Everything below the position is decided, in offset order; only the current record has an
      attempt counter, and `turns` is at most `budget` and the attempts at that record. */
  ghost predicate OnTrack(c: Partition, limit: nat, turns: nat, budget: nat) {
    && c.decided == Offsets(c.position)
    && (forall k :: k in c.attempts ==> k == c.position)
    && Counter(c.attempts, c.position) < limit
    && turns <= budget + Counter(c.attempts, c.position)
  }

  /** A turn either decides the record and moves on, or uses up one attempt at it. */
  lemma SmoothTurn(c: Partition, env: Env, limit: nat, turns: nat, budget: nat)
    requires OnTrack(c, limit, turns, budget) && env.seek
    ensures var c' := Iterate(c, env, limit);
            || (c'.position == c.position && OnTrack(c', limit, turns + 1, budget))
            || (c'.position == c.position + 1 && OnTrack(c', limit, turns + 1, budget + limit))
  {
    assert Offsets(c.position + 1) == Offsets(c.position) + [c.position];
  }

  /** Records are decided in offset order, each within `limit` turns. */
  lemma {:induction false} SmoothRun(events: seq<Event>, limit: nat)
    requires Smooth(events) && limit >= 1
    ensures var c := Run(START, events, limit);
            OnTrack(c, limit, |events|, Turns(c.position, limit))
  {
    if events != [] {
      var rest := events[..|events| - 1];
      SmoothRun(rest, limit);
      var c := Run(START, rest, limit);
      SmoothTurn(c, events[|events| - 1].env, limit, |rest|, Turns(c.position, limit));
    }
  }

  /** `limit` turns for each of `n` records. */
  function Turns(n: nat, limit: nat): nat {
    if n == 0 then 0 else Turns(n - 1, limit) + limit
  }

  lemma {:induction false} TurnsIsProduct(n: nat, limit: nat)
    ensures Turns(n, limit) == n * limit
  {
    if n > 0 {
      TurnsIsProduct(n - 1, limit);
    }
  }

  lemma {:induction false} TurnsGrow(p: nat, n: nat, limit: nat)
    requires p < n
    ensures Turns(p, limit) + limit <= Turns(n, limit)
  {
    if p + 1 < n {
      TurnsGrow(p, n - 1, limit);
    }
  }

  /** So n records are all decided, in order, after at most n times the limit turns. */
  lemma AllDecidedInTime(events: seq<Event>, limit: nat, n: nat)
    requires Smooth(events) && limit >= 1 && |events| >= n * limit
    ensures Run(START, events, limit).position >= n
    ensures Run(START, events, limit).decided == Offsets(Run(START, events, limit).position)
  {
    SmoothRun(events, limit);
    var c := Run(START, events, limit);
    TurnsIsProduct(n, limit);
    if c.position < n {
      TurnsGrow(c.position, n, limit);
    }
  }
}
