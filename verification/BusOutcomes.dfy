/** Commit decisions for bus events: retry counters kept per message, and the promotion of a
    message that failed too often. */
module BusOutcomes {

  /** An event's outcome; `Other` is any string the table does not know. */
  datatype Outcome = Ok | Noop | Terminal | Retryable | Other

  datatype Decision = Decision(commit: bool, outcome: Outcome, attempt: nat)

  datatype Handled<K> = Handled(key: K, outcome: Outcome)

  /** WDM_EVENT_RETRY_LIMIT as it is used: 0 means the default, less than 1 means 1. */
  function EffectiveLimit(configured: int): (limit: nat)
    ensures limit >= 1
    ensures configured > 0 ==> limit == configured
    ensures configured == 0 ==> limit == 20
    ensures configured < 0 ==> limit == 1
  {
    if configured == 0 then 20 else if configured < 1 then 1 else configured
  }

  function Counter<K>(table: map<K, nat>, key: K): nat {
    if key in table then table[key] else 0
  }

  function Known(outcome: Outcome): Outcome {
    if outcome == Other then Terminal else outcome
  }

  /** What deciding one event gives and leaves in the table. */
  function Decide<K>(table: map<K, nat>, key: K, outcome: Outcome, limit: nat): (Decision, map<K, nat>) {
    var attempt := Counter(table, key) + 1;
    if outcome != Retryable then (Decision(true, Known(outcome), 0), table - {key})
    else if attempt >= limit then (Decision(true, Terminal, attempt), table - {key})
    else (Decision(false, Retryable, attempt), table[key := attempt])
  }

  /** The process-wide table `_bus_retry_attempts`. */
  class RetryTable<K(==)> {
    var attempts: map<K, nat>

    constructor ()
      ensures attempts == map[]
    {
      attempts := map[];
    }

    method Bump(key: K) returns (attempt: nat)
      modifies this
      ensures attempt == Counter(old(attempts), key) + 1 && attempts == old(attempts)[key := attempt]
    {
      attempt := (if key in attempts then attempts[key] else 0) + 1;
      attempts := attempts[key := attempt];
    }

    method Clear(key: K)
      modifies this
      ensures attempts == old(attempts) - {key}
    {
      attempts := attempts - {key};
    }

    /** `decide_commit`. */
    method DecideCommit(outcome: Outcome, key: K, retryLimit: int) returns (d: Decision)
      modifies this
      ensures (d, attempts) == Decide(old(attempts), key, outcome, EffectiveLimit(retryLimit))
    {
      var limit := EffectiveLimit(retryLimit);
      var final := Known(outcome);
      var attempt := 0;
      if final == Retryable {
        attempt := Bump(key);
        if attempt >= limit {
          final := Terminal;
        } else {
          return Decision(false, final, attempt);
        }
      }
      Clear(key);
      assert attempts == old(attempts) - {key};
      d := Decision(true, final, attempt);
    }
  }

  // ---------------------------------------------------------------- the table refines its history

  /** The table after deciding these events in order, from an empty one. */
  function After<K>(history: seq<Handled<K>>, limit: nat): map<K, nat> {
    if history == [] then map[]
    else
      var last := history[|history| - 1];
      Decide(After(history[..|history| - 1], limit), last.key, last.outcome, limit).1
  }

  /** How often in a row, up to the end of the history, this message was found retryable. */
  function Streak<K(==)>(history: seq<Handled<K>>, key: K): nat {
    if history == [] then 0
    else
      var last := history[|history| - 1];
      var before := Streak(history[..|history| - 1], key);
      if last.key != key then before else if last.outcome == Retryable then before + 1 else 0
  }

  /** Count to `n`, starting over whenever `m` is reached. */
  function Wrapped(n: nat, m: nat): (w: nat)
    requires m > 0
    ensures w < m
  {
    if n == 0 then 0
    else
      var w := Wrapped(n - 1, m);
      if w + 1 == m then 0 else w + 1
  }

  lemma {:induction false} WrappedIsModulo(n: nat, m: nat)
    requires m > 0
    ensures Wrapped(n, m) == n % m
  {
    if n > 0 {
      WrappedIsModulo(n - 1, m);
      SuccessorModulo(n - 1, m);
      assert n - 1 + 1 == n;
    }
  }

  lemma SuccessorModulo(n: nat, m: nat)
    requires m > 0
    ensures (n + 1) % m == if n % m + 1 == m then 0 else n % m + 1
  {
    var q := n / m;
    if n % m + 1 == m {
      assert n + 1 == m * q + m == m * (q + 1);
      RemainderIsUnique(n + 1, m, q + 1, 0);
    } else {
      RemainderIsUnique(n + 1, m, q, n % m + 1);
    }
  }

  lemma RemainderIsUnique(n: nat, m: nat, q: int, r: nat)
    requires r < m && n == m * q + r
    ensures n % m == r
  {
    assert n == m * (n / m) + n % m;
    assert m * (n / m - q) == r - n % m;
    NoSmallMultiple(m, n / m - q);
  }

  lemma NoSmallMultiple(m: int, d: int)
    requires m > 0
    ensures d == 0 || m * d >= m || m * d <= -m
  {
    if d > 0 {
      MultipleAtLeast(m, d);
    } else if d < 0 {
      MultipleAtLeast(m, -d);
    }
  }

  lemma {:induction false} MultipleAtLeast(m: int, d: nat)
    requires m > 0 && d > 0
    ensures m * d >= m
  {
    if d > 1 {
      MultipleAtLeast(m, d - 1);
      assert m * d == m * (d - 1) + m;
    }
  }

  lemma {:induction false} CounterIsWrappedStreak<K>(history: seq<Handled<K>>, key: K, limit: nat)
    requires limit >= 1
    ensures Counter(After(history, limit), key) == Wrapped(Streak(history, key), limit)
    ensures key in After(history, limit) <==> Wrapped(Streak(history, key), limit) != 0
  {
    if history != [] {
      CounterIsWrappedStreak(history[..|history| - 1], key, limit);
    }
  }

  /** Whatever events of other messages come between, a message's counter is its current streak
      of retryable outcomes modulo the limit, and it has an entry only while that is not 0. */
  lemma {:induction false} CounterIsStreakModuloLimit<K>(history: seq<Handled<K>>, key: K, limit: nat)
    requires limit >= 1
    ensures Counter(After(history, limit), key) == Streak(history, key) % limit < limit
    ensures key in After(history, limit) <==> Streak(history, key) % limit != 0
  {
    CounterIsWrappedStreak(history, key, limit);
    WrappedIsModulo(Streak(history, key), limit);
  }

  /** So the next decision depends on the history alone: a retryable outcome is refused until it
      is the limit-th of its streak, and that one is committed as terminal; every other outcome
      is committed at once. */
  lemma DecisionFromHistory<K>(history: seq<Handled<K>>, key: K, outcome: Outcome, limit: nat)
    requires limit >= 1
    ensures var d := Decide(After(history, limit), key, outcome, limit).0;
            var streak := Streak(history + [Handled(key, outcome)], key);
            && (d.commit <==> streak % limit == 0)
            && (outcome == Retryable ==>
                  && streak > 0
                  && d.outcome == (if streak % limit == 0 then Terminal else Retryable)
                  && d.attempt == (if streak % limit == 0 then limit else streak % limit))
            && (outcome == Other ==> d == Decision(true, Terminal, 0))
            && (outcome in {Ok, Noop, Terminal} ==> d == Decision(true, outcome, 0))
            && (outcome != Retryable ==> streak == 0)
  {
    var longer := history + [Handled(key, outcome)];
    assert longer[..|longer| - 1] == history;
    CounterIsWrappedStreak(history, key, limit);
    WrappedIsModulo(Streak(longer, key), limit);
  }
}
