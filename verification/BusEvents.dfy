/** From an event's result to its fate on the bus: the outcome the handlers derive from it, and the
    commit decision that follows. */
module BusEvents {
  import opened BusOutcomes
  import opened Store
  import opened Placement
  import opened Replica
  import opened Events
  import opened Handlers

  /** An exception by the kinds it belongs to; it may belong to several. */
  datatype Error = Error(malformed: bool, unhealthyPod: bool, infrastructure: bool)

  /** `classify_exception`: a malformed event never gets better, whatever else the exception is. */
  predicate Transient(e: Error) {
    !e.malformed && (e.unhealthyPod || e.infrastructure)
  }

  /** The outcome of an event, from what its handler returned or raised.  `evict`: events that find
      no capacity are dropped. */
  function OutcomeOf(r: Result, error: Error, evict: bool): Outcome {
    match r
    case Deferred => Retryable
    case MaxReplicas => if evict then Terminal else Retryable
    case Raised => if Transient(error) then Retryable else Terminal
    case _ => Outcome.Ok
  }

  /** The events that get another chance are exactly the deferred ones, those that raised a
      transient exception and, without eviction, those that found no capacity. */
  lemma RetriedIff(r: Result, error: Error, evict: bool, attempts: map<string, nat>, key: string, limit: nat)
    requires Counter(attempts, key) + 1 < limit
    ensures !Decide(attempts, key, OutcomeOf(r, error, evict), limit).0.commit <==>
              || r == Deferred
              || (r == Raised && !error.malformed && (error.unhealthyPod || error.infrastructure))
              || (r == MaxReplicas && !evict)
    ensures OutcomeOf(r, error, evict) == Outcome.Ok <==> r in {Result.Noop, Refusal, Placed}
    ensures OutcomeOf(r, error, evict) in {Outcome.Ok, Retryable, Terminal}
  {
  }

  /** One bus event from its handler to its decision. */
  method Consume(h: Handler, table: RetryTable<string>, ev: Event, key: string, error: Error, evict: bool,
                 retryLimit: int)
    returns (r: Result, d: Decision)
    requires h.Ready() && WellFormed(ev)
    modifies h, h.c, table
    ensures h.Ready() && OnlyStream(old(h.c.st), h.c.st, ev.s)
    ensures (d, table.attempts)
            == Decide(old(table.attempts), key, OutcomeOf(r, error, evict), EffectiveLimit(retryLimit))
    ensures ev.Add? && Refuses(old(h.c.st), ev.s, ev.passes(0), old(h.replicas), h.c.cfg.threshold) ==>
              r == Refusal && d == Decision(true, Outcome.Ok, 0) && h.c.st == old(h.c.st)
  {
    ghost var tried, last;
    r, tried, last := h.Handle(ev);
    d := table.DecideCommit(OutcomeOf(r, error, evict), key, retryLimit);
  }

  /** A refused add is lost: whatever the history of its message, it is committed at once, although
      the store is untouched and the lease holder may yet roll back. */
  lemma RefusedAddIsCommitted(history: seq<Handled<string>>, key: string, error: Error, evict: bool, limit: nat)
    requires limit >= 1
    ensures Decide(After(history, limit), key, OutcomeOf(Refusal, error, evict), limit).0
            == Decision(true, Outcome.Ok, 0)
  {
    DecisionFromHistory(history, key, Outcome.Ok, limit);
  }
}
