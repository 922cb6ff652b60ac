/** Event accounting of the alert verifier's synchronous pipeline: what the batch filters drop,
    what becomes of every message that is left, and the retries of the model call.  Everything
    outside (video store, model, parser, sink, prompt lookup, enrichment) is an arbitrary outcome. */
module AlertEvents {
  import opened Sequences

  /** A message is known by its identity: the filters return the same objects they were given. */
  type Message = nat

  // ---------------------------------------------------------------- drop accounting

  function Kept(ms: seq<Message>, keep: Message -> bool): seq<Message> {
    if ms == [] then [] else (if keep(ms[0]) then [ms[0]] else []) + Kept(ms[1..], keep)
  }

  function Rejected(ms: seq<Message>, keep: Message -> bool): seq<Message> {
    if ms == [] then [] else (if keep(ms[0]) then [] else [ms[0]]) + Rejected(ms[1..], keep)
  }

  function NotIn(before: seq<Message>, after: seq<Message>): seq<Message> {
    if before == [] then [] else (if before[0] in after then [] else [before[0]]) + NotIn(before[1..], after)
  }

  /** `_dropped_messages`: found by identity, with a shortcut when the lengths agree. */
  function Dropped(before: seq<Message>, after: seq<Message>): seq<Message> {
    if |before| == |after| then [] else NotIn(before, after)
  }

  lemma {:induction false} KeptAndRejected(ms: seq<Message>, keep: Message -> bool)
    ensures |Kept(ms, keep)| + |Rejected(ms, keep)| == |ms|
    ensures multiset(Kept(ms, keep)) + multiset(Rejected(ms, keep)) == multiset(ms)
    ensures forall m :: m in Kept(ms, keep) <==> m in ms && keep(m)
  {
    if ms != [] {
      KeptAndRejected(ms[1..], keep);
      assert ms == [ms[0]] + ms[1..];
    }
  }

  /** How often a message is among those a filter keeps, and among those it rejects. */
  lemma {:induction false} FilterMultiplicity(ms: seq<Message>, keep: Message -> bool, m: Message)
    ensures multiset(Kept(ms, keep))[m] == if keep(m) then multiset(ms)[m] else 0
    ensures multiset(Rejected(ms, keep))[m] == if keep(m) then 0 else multiset(ms)[m]
  {
    if ms != [] {
      FilterMultiplicity(ms[1..], keep, m);
      assert ms == [ms[0]] + ms[1..];
    }
  }

  lemma {:induction false} KeptInOrder(ms: seq<Message>, keep: Message -> bool)
    ensures Subsequence(Kept(ms, keep), ms)
  {
    if ms != [] {
      KeptInOrder(ms[1..], keep);
      if keep(ms[0]) {
        assert Kept(ms, keep)[1..] == Kept(ms[1..], keep);
      } else {
        assert Kept(ms, keep) == Kept(ms[1..], keep);
      }
    }
  }

  predicate Distinct(ms: seq<Message>) {
    forall i, j :: 0 <= i < j < |ms| ==> ms[i] != ms[j]
  }

  lemma {:induction false} KeptStaysDistinct(ms: seq<Message>, keep: Message -> bool)
    requires Distinct(ms)
    ensures Distinct(Kept(ms, keep))
  {
    if ms != [] {
      assert ms[0] !in ms[1..];
      KeptStaysDistinct(ms[1..], keep);
      KeptAndRejected(ms[1..], keep);
    }
  }

  lemma {:induction false} NotInIsRejected(ms: seq<Message>, after: seq<Message>, keep: Message -> bool)
    requires forall m :: m in ms ==> (m in after <==> keep(m))
    ensures NotIn(ms, after) == Rejected(ms, keep)
  {
    if ms != [] {
      NotInIsRejected(ms[1..], after, keep);
    }
  }

  /** The messages reported as dropped are exactly those the filter rejected, with multiplicity. */
  lemma DroppedIsRejected(ms: seq<Message>, keep: Message -> bool)
    ensures Dropped(ms, Kept(ms, keep)) == Rejected(ms, keep)
    ensures |ms| - |Kept(ms, keep)| == |Dropped(ms, Kept(ms, keep))|
    ensures multiset(Kept(ms, keep)) + multiset(Dropped(ms, Kept(ms, keep))) == multiset(ms)
  {
    KeptAndRejected(ms, keep);
    NotInIsRejected(ms, Kept(ms, keep), keep);
  }

  // ---------------------------------------------------------------- the model call and its retries

  datatype Attempt =
    | ApiError                 // the call raised a retryable interface error
    | CallError                // the call raised anything else
    | Unreadable               // the answer failed validation
    | ParserFails              // the pluggable parser failed
    | Verified(content: bool)  // merged into the message; `content`: the answer had text

  predicate Retryable(a: Attempt) {
    a.ApiError? || a.CallError? || a.Unreadable?
  }

  datatype Verdict =
    | Settled(verified: bool, content: bool)
    | CallRaises  // the last attempt's interface error leaves the loop

  /** The verdict of an attempt that ends the loop. */
  function VerdictAfter(a: Attempt): Verdict {
    match a
    case ApiError => CallRaises
    case Verified(content) => Settled(true, content)
    case _ => Settled(false, false)
  }

  /** The verdict after `begun` attempts, the last of which ended the loop. */
  function VerdictOf(attempts: nat -> Attempt, begun: nat): Verdict {
    if begun == 0 then Settled(false, false) else VerdictAfter(attempts(begun - 1))
  }

  /** How many attempts are begun, from attempt `k` on. */
  function Begun(attempts: nat -> Attempt, k: nat, maxRetries: int): (n: nat)
    ensures k <= n && (k <= maxRetries + 1 ==> n <= maxRetries + 1)
    ensures k <= maxRetries ==> k < n
    ensures forall j :: k <= j < n - 1 ==> Retryable(attempts(j))
    ensures k < n <= maxRetries ==> !Retryable(attempts(n - 1))
    decreases maxRetries - k
  {
    if k > maxRetries then k
    else if Retryable(attempts(k)) then Begun(attempts, k + 1, maxRetries)
    else k + 1
  }

  // ---------------------------------------------------------------- one message

  datatype Prep = Malformed | CheckRaises | Confirmed | PromptRaises | NoPrompt | Prompted

  datatype Media = NoUrl | BadUrl | MediaRaises | Playable

  datatype MessageEnv = MessageEnv(
    prep: Prep,
    media: Media,
    secondLookup: bool,   // the prompt lookup of the media failure handlers returns
    maxRetries: int,
    attempts: nat -> Attempt,
    publish: bool,        // the first publish returns
    enrichRaises: bool,
    errorPublish: bool)   // the exception handler's publish returns

  datatype Record = Skipped(m: Message) | Completed(m: Message)

  datatype Published = Success(m: Message) | Failure(m: Message)

  function LoopVerdict(env: MessageEnv): Verdict {
    VerdictOf(env.attempts, Begun(env.attempts, 0, env.maxRetries))
  }

  /** An exception reaches the handler before the message was completed. */
  predicate FailsBeforeCompletion(env: MessageEnv) {
    env.prep == Prompted &&
    match env.media
    case MediaRaises => true
    case Playable => LoopVerdict(env) == CallRaises || !env.publish
    case _ => !env.secondLookup || !env.publish
  }

  /** An exception reaches the handler although the message was completed. */
  predicate FailsAfterCompletion(env: MessageEnv) {
    && env.prep == Prompted && env.media == Playable && !FailsBeforeCompletion(env)
    && LoopVerdict(env).verified && env.enrichRaises
  }

  /** An exception leaves the message's processing and ends its batch. */
  predicate Escapes(env: MessageEnv) {
    || env.prep == PromptRaises
    || ((FailsBeforeCompletion(env) || FailsAfterCompletion(env)) && !env.errorPublish)
  }

  /** What is recorded about the message. */
  function RecordsOf(m: Message, env: MessageEnv): seq<Record> {
    if env.prep == Confirmed then [Skipped(m)]
    else if env.prep == PromptRaises then []
    else
      (if FailsBeforeCompletion(env) then [] else [Completed(m)]) +
      (if (FailsBeforeCompletion(env) || FailsAfterCompletion(env)) && env.errorPublish then [Completed(m)] else [])
  }

  /** What the sink gets about the message. */
  function PublishedOf(m: Message, env: MessageEnv): seq<Published> {
    if env.prep != Prompted then []
    else
      (if FailsBeforeCompletion(env) then []
       else if env.media == Playable && LoopVerdict(env).content then [Success(m)] else [Failure(m)]) +
      (if (FailsBeforeCompletion(env) || FailsAfterCompletion(env)) && env.errorPublish then [Failure(m)] else [])
  }

  /** A success is published exactly when the message got to the model, the final attempt verified
      the response, which had text, and the sink took it. */
  lemma SuccessIffVerified(m: Message, env: MessageEnv)
    ensures Success(m) in PublishedOf(m, env) <==>
              && env.prep == Prompted && env.media == Playable && env.publish
              && var begun := Begun(env.attempts, 0, env.maxRetries);
                 0 < begun <= env.maxRetries + 1 && env.attempts(begun - 1) == Verified(true)
  {
  }

  /** The message is recorded exactly once. */
  predicate RecordedOnce(env: MessageEnv) {
    && env.prep != PromptRaises
    && (FailsBeforeCompletion(env) ==> env.errorPublish)
    && (FailsAfterCompletion(env) ==> !env.errorPublish)
  }

  lemma OneRecordIff(m: Message, env: MessageEnv)
    ensures |RecordsOf(m, env)| == 1 <==> RecordedOnce(env)
    ensures forall r :: r in RecordsOf(m, env) ==> r.m == m
    ensures env.prep != PromptRaises && env.errorPublish && !env.enrichRaises ==> RecordedOnce(env) && !Escapes(env)
  {
  }

  /** In terms of what the outside did: a message is skipped exactly if its verdict is confirmed;
      completed twice exactly if its enrichment raised after a verified, published response and the
      handler's publish worked; and left without a record exactly if the prompt lookup raised, or
      something failed before the completion and the handler's publish did too. */
  lemma RecordsIff(m: Message, env: MessageEnv)
    ensures var begun := Begun(env.attempts, 0, env.maxRetries);
            var verified := begun > 0 && env.attempts(begun - 1).Verified?;
            var failed := && env.prep == Prompted
                          && (|| env.media == MediaRaises
                              || (env.media in {NoUrl, BadUrl} && !(env.secondLookup && env.publish))
                              || (env.media == Playable
                                  && (!env.publish || (begun > 0 && env.attempts(begun - 1) == ApiError))));
            var late := env.prep == Prompted && env.media == Playable && env.publish && verified && env.enrichRaises;
            && (Skipped(m) in RecordsOf(m, env) <==> env.prep == Confirmed)
            && (|RecordsOf(m, env)| == 2 <==> late && env.errorPublish)
            && (|RecordsOf(m, env)| == 0 <==> env.prep == PromptRaises || (failed && !env.errorPublish))
            && |RecordsOf(m, env)| <= 2
            && (Escapes(env) <==> env.prep == PromptRaises || ((failed || late) && !env.errorPublish))
  {
  }

  // ---------------------------------------------------------------- the batch

  datatype Filter = Keeps(keep: Message -> bool) | FilterRaises

  datatype BatchEnv = BatchEnv(
    filtering: bool,        // the state backend is configured
    endTime: Filter,
    dedup: Filter,
    limiting: bool,
    limit: Filter,
    message: Message -> MessageEnv)

  /** The message passes every filter that applies. */
  predicate Passes(m: Message, env: BatchEnv) {
    env.filtering ==>
      && env.endTime.Keeps? && env.endTime.keep(m)
      && env.dedup.Keeps? && env.dedup.keep(m)
      && (env.limiting && env.limit.Keeps? ==> env.limit.keep(m))
  }

  lemma NothingFiltered(input: seq<Message>, env: BatchEnv)
    requires input == [] || !env.filtering
    ensures forall m :: m in input ==> Passes(m, env)
  {
  }

  datatype Reason = EndTime | Dedup | RateLimit

  /** A drop counter and its per-sensor breakdown. */
  datatype Drops = Drops(count: nat, messages: seq<Message>)

  function Add(d: Drops, before: seq<Message>, keep: Message -> bool): Drops {
    Drops(d.count + |Rejected(before, keep)|, d.messages + Rejected(before, keep))
  }

  /** The filter that drops the message: the first that applies and does not keep it. */
  predicate DroppedAt(m: Message, env: BatchEnv, reason: Reason) {
    && env.filtering && env.endTime.Keeps?
    && match reason
       case EndTime => !env.endTime.keep(m)
       case Dedup => env.endTime.keep(m) && env.dedup.Keeps? && !env.dedup.keep(m)
       case RateLimit =>
         && env.endTime.keep(m) && env.dedup.Keeps? && env.dedup.keep(m)
         && env.limiting && env.limit.Keeps? && !env.limit.keep(m)
  }

  /** A counter grew by exactly the messages of the batch that are dropped for its reason, as often as
      each is in the batch. */
  ghost predicate GrewFor(reason: Reason, d: Drops, d': Drops, input: seq<Message>, env: BatchEnv) {
    && d'.count - d.count == |d'.messages| - |d.messages|
    && forall m :: multiset(d'.messages)[m]
                   == multiset(d.messages)[m] + if DroppedAt(m, env, reason) then multiset(input)[m] else 0
  }

  /** The drop counters, by reason. */
  datatype Account = Account(endTime: Drops, dedup: Drops, rateLimit: Drops)

  function Total(a: Account): nat {
    a.endTime.count + a.dedup.count + a.rateLimit.count
  }

  function Bag(a: Account): multiset<Message> {
    multiset(a.endTime.messages) + multiset(a.dedup.messages) + multiset(a.rateLimit.messages)
  }

  /** A filter moves messages from the batch to its own counter and loses none. */
  lemma FilterConserves(a: Account, ms: seq<Message>, keep: Message -> bool)
    ensures forall a' :: a' in [a.(endTime := Add(a.endTime, ms, keep)), a.(dedup := Add(a.dedup, ms, keep)),
                                a.(rateLimit := Add(a.rateLimit, ms, keep))] ==>
              && Total(a') + |Kept(ms, keep)| == Total(a) + |ms|
              && Bag(a') + multiset(Kept(ms, keep)) == Bag(a) + multiset(ms)
  {
    KeptAndRejected(ms, keep);
  }

  /** What a filter leaves out of the messages `ms` that got as far as it, and what it hands on. */
  lemma RejectionGrows(reason: Reason, d: Drops, input: seq<Message>, ms: seq<Message>, keep: Message -> bool,
                       env: BatchEnv)
    requires forall m :: (if DroppedAt(m, env, reason) then multiset(input)[m] else 0)
                         == (if keep(m) then 0 else multiset(ms)[m])
    ensures GrewFor(reason, d, Add(d, ms, keep), input, env)
  {
    forall m ensures multiset(Rejected(ms, keep))[m] == if keep(m) then 0 else multiset(ms)[m] {
      FilterMultiplicity(ms, keep, m);
    }
  }

  lemma KeptMultiplicities(ms: seq<Message>, keep: Message -> bool)
    ensures forall m :: multiset(Kept(ms, keep))[m] == if keep(m) then multiset(ms)[m] else 0
  {
    forall m ensures multiset(Kept(ms, keep))[m] == if keep(m) then multiset(ms)[m] else 0 {
      FilterMultiplicity(ms, keep, m);
    }
  }

  /** The counters after the filters, given what each was asked about. */
  lemma FiltersAttribute(a: Account, input: seq<Message>, env: BatchEnv)
    requires env.filtering && env.endTime.Keeps?
    ensures GrewFor(EndTime, a.endTime, Add(a.endTime, input, env.endTime.keep), input, env)
    ensures env.dedup.Keeps? ==>
              var first := Kept(input, env.endTime.keep);
              && GrewFor(Dedup, a.dedup, Add(a.dedup, first, env.dedup.keep), input, env)
              && (env.limiting && env.limit.Keeps? ==>
                    GrewFor(RateLimit, a.rateLimit, Add(a.rateLimit, Kept(first, env.dedup.keep), env.limit.keep),
                            input, env))
    ensures !env.dedup.Keeps? ==> GrewFor(Dedup, a.dedup, a.dedup, input, env)
    ensures !env.dedup.Keeps? || !env.limiting || !env.limit.Keeps? ==>
              GrewFor(RateLimit, a.rateLimit, a.rateLimit, input, env)
  {
    hide GrewFor, Kept, Rejected, Add;
    RejectionGrows(EndTime, a.endTime, input, input, env.endTime.keep, env);
    NothingGrows(a, input, env);
    if env.dedup.Keeps? {
      var first := Kept(input, env.endTime.keep);
      KeptMultiplicities(input, env.endTime.keep);
      RejectionGrows(Dedup, a.dedup, input, first, env.dedup.keep, env);
      if env.limiting && env.limit.Keeps? {
        KeptMultiplicities(first, env.dedup.keep);
        RejectionGrows(RateLimit, a.rateLimit, input, Kept(first, env.dedup.keep), env.limit.keep, env);
      }
    }
  }

  /** A counter whose filter does not apply, or that no message reached, stays as it is. */
  lemma NothingGrows(a: Account, input: seq<Message>, env: BatchEnv)
    ensures input == [] || !env.filtering || !env.endTime.Keeps? ==>
              && GrewFor(EndTime, a.endTime, a.endTime, input, env)
              && GrewFor(Dedup, a.dedup, a.dedup, input, env)
              && GrewFor(RateLimit, a.rateLimit, a.rateLimit, input, env)
    ensures !env.dedup.Keeps? ==>
              && GrewFor(Dedup, a.dedup, a.dedup, input, env)
              && GrewFor(RateLimit, a.rateLimit, a.rateLimit, input, env)
    ensures !env.limiting || !env.limit.Keeps? ==> GrewFor(RateLimit, a.rateLimit, a.rateLimit, input, env)
  {
  }

  /** Nothing is added by a filter that is asked about no message. */
  lemma NoneReached(a: Account, env: BatchEnv)
    ensures env.dedup.Keeps? ==> Add(a.dedup, [], env.dedup.keep) == a.dedup && Kept([], env.dedup.keep) == []
    ensures env.limit.Keeps? ==> Add(a.rateLimit, [], env.limit.keep) == a.rateLimit
  {
    assert a.dedup.messages + [] == a.dedup.messages && a.rateLimit.messages + [] == a.rateLimit.messages;
  }

  /** The records of messages processed in order until one raises. */
  function BatchRecords(ms: seq<Message>, envs: Message -> MessageEnv): seq<Record> {
    if ms == [] then []
    else RecordsOf(ms[0], envs(ms[0])) + (if Escapes(envs(ms[0])) then [] else BatchRecords(ms[1..], envs))
  }

  function BatchPublished(ms: seq<Message>, envs: Message -> MessageEnv): seq<Published> {
    if ms == [] then []
    else PublishedOf(ms[0], envs(ms[0])) + (if Escapes(envs(ms[0])) then [] else BatchPublished(ms[1..], envs))
  }

  function About(rs: seq<Record>, m: Message): nat {
    if rs == [] then 0 else (if rs[0].m == m then 1 else 0) + About(rs[1..], m)
  }

  lemma {:induction false} AboutConcat(xs: seq<Record>, ys: seq<Record>, m: Message)
    ensures About(xs + ys, m) == About(xs, m) + About(ys, m)
  {
    if xs == [] {
      assert xs + ys == ys;
    } else {
      assert (xs + ys)[1..] == xs[1..] + ys;
      AboutConcat(xs[1..], ys, m);
    }
  }

  lemma AboutOne(m: Message, env: MessageEnv, x: Message)
    ensures About(RecordsOf(m, env), x) == if x == m then |RecordsOf(m, env)| else 0
  {
    var rs := RecordsOf(m, env);
    if |rs| == 1 {
      assert rs == [rs[0]];
    } else if |rs| == 2 {
      assert rs == [Completed(m)] + [Completed(m)];
      AboutConcat([Completed(m)], [Completed(m)], x);
    }
  }

  lemma {:induction false} OnlyItsMessages(ms: seq<Message>, envs: Message -> MessageEnv, x: Message)
    requires x !in ms
    ensures About(BatchRecords(ms, envs), x) == 0
  {
    if ms != [] {
      AboutOne(ms[0], envs(ms[0]), x);
      if !Escapes(envs(ms[0])) {
        OnlyItsMessages(ms[1..], envs, x);
        AboutConcat(RecordsOf(ms[0], envs(ms[0])), BatchRecords(ms[1..], envs), x);
      } else {
        assert BatchRecords(ms, envs) == RecordsOf(ms[0], envs(ms[0]));
      }
    }
  }

  /** Every message of the batch is recorded once. */
  ghost predicate Reconciled(ms: seq<Message>, envs: Message -> MessageEnv) {
    forall m :: m in ms ==> About(BatchRecords(ms, envs), m) == 1
  }

  /** Every message is one that is recorded once, and none but the last ends the batch. */
  predicate AllAccountedFor(ms: seq<Message>, envs: Message -> MessageEnv) {
    ms == [] || (RecordedOnce(envs(ms[0])) && (Escapes(envs(ms[0])) ==> |ms| == 1) && AllAccountedFor(ms[1..], envs))
  }

  /** Each message of a batch gets exactly one record, a confirmed skip or a completion, if and
      only if each is recorded once by itself and none before the last raises. */
  lemma {:induction false} ReconciledIff(ms: seq<Message>, envs: Message -> MessageEnv)
    requires Distinct(ms)
    ensures Reconciled(ms, envs) <==> AllAccountedFor(ms, envs)
  {
    if ms != [] {
      var (m, rest) := (ms[0], ms[1..]);
      var (first, later) := (RecordsOf(m, envs(m)), if Escapes(envs(m)) then [] else BatchRecords(rest, envs));
      assert ms == [m] + rest && Distinct(rest);
      ReconciledIff(rest, envs);
      OneRecordIff(m, envs(m));
      forall x ensures About(BatchRecords(ms, envs), x) == About(first, x) + About(later, x) {
        AboutConcat(first, later, x);
      }
      forall x ensures About(first, x) == if x == m then |first| else 0 {
        AboutOne(m, envs(m), x);
      }
      OnlyItsMessages(rest, envs, m);
      assert About(BatchRecords(ms, envs), m) == |first|;
      if Escapes(envs(m)) && rest != [] {
        assert About(BatchRecords(ms, envs), rest[0]) == 0;
      } else if !Escapes(envs(m)) {
        assert forall x :: x in rest ==> About(BatchRecords(ms, envs), x) == About(BatchRecords(rest, envs), x);
      }
    }
  }

  /** When prompt lookup, publishing and enrichment return normally, every batch reconciles,
      whatever the video store, the model and the parser do. */
  lemma {:induction false} NormalReturnsReconcile(ms: seq<Message>, envs: Message -> MessageEnv)
    requires forall m :: m in ms ==>
               envs(m).prep != PromptRaises && envs(m).errorPublish && !envs(m).enrichRaises
    ensures AllAccountedFor(ms, envs)
  {
    if ms != [] {
      assert ms[0] in ms;
      OneRecordIff(ms[0], envs(ms[0]));
      NormalReturnsReconcile(ms[1..], envs);
    }
  }

  // ---------------------------------------------------------------- the pipeline as it is written

  class Pipeline {
    var drops: Account
    var afterDedup: nat
    var records: seq<Record>
    var published: seq<Published>
    var observed: nat  // model call durations

    constructor ()
      ensures Total(drops) == 0 && Bag(drops) == multiset{} && afterDedup == 0
      ensures records == [] && published == [] && observed == 0
    {
      drops, afterDedup := Account(Drops(0, []), Drops(0, []), Drops(0, [])), 0;
      records, published, observed := [], [], 0;
    }

    /** One attempt: its duration is observed when the call returns, or by the handler when it has not
        been; `raised` tells whether an exception reaches a retry handler. */
    method CallOnce(a: Attempt) returns (raised: bool)
      modifies this`observed
      ensures observed == old(observed) + 1 && (raised <==> Retryable(a))
    {
      var seen := false;
      if a != ApiError && a != CallError {
        observed, seen := observed + 1, true;
      }
      if a == ParserFails || a.Verified? {
        return false;
      }
      if !seen {
        observed := observed + 1;
      }
      return true;
    }

    /** The retry loop: one duration per attempt begun, whichever way it fails. */
    method CallModel(attempts: nat -> Attempt, maxRetries: int) returns (verdict: Verdict)
      modifies this`observed
      ensures verdict == VerdictOf(attempts, Begun(attempts, 0, maxRetries))
      ensures observed == old(observed) + Begun(attempts, 0, maxRetries)
    {
      var attempt: nat := 0;
      while attempt <= maxRetries
        invariant Begun(attempts, 0, maxRetries) == Begun(attempts, attempt, maxRetries)
        invariant observed == old(observed) + attempt
        invariant attempt > 0 ==> attempt <= maxRetries
        decreases maxRetries - attempt
      {
        var raised := CallOnce(attempts(attempt));
        if !raised || attempt == maxRetries {
          return VerdictAfter(attempts(attempt));
        }
        attempt := attempt + 1;
      }
      return Settled(false, false);
    }

    /** Publish and complete; an exception of the publish leaves the message uncompleted. */
    method PublishAndComplete(p: Published, returns_: bool) returns (raised: bool)
      modifies this`published, this`records
      ensures raised <==> !returns_
      ensures published == if raised then old(published) else old(published) + [p]
      ensures records == if raised then old(records) else old(records) + [Completed(p.m)]
    {
      if !returns_ {
        return true;
      }
      published := published + [p];
      records := records + [Completed(p.m)];
      return false;
    }

    /** `_process_single_message`. */
    method ProcessMessage(m: Message, env: MessageEnv) returns (raised: bool)
      modifies this`records, this`published, this`observed
      ensures raised <==> Escapes(env)
      ensures records == old(records) + RecordsOf(m, env)
      ensures published == old(published) + PublishedOf(m, env)
      ensures observed == old(observed) + if env.prep == Prompted && env.media == Playable
                                          then Begun(env.attempts, 0, env.maxRetries) else 0
    {
      match env.prep {
        case Malformed =>
          records := records + [Completed(m)];
          return false;
        case CheckRaises =>
          records := records + [Completed(m)];
          return false;
        case Confirmed =>
          records := records + [Skipped(m)];
          return false;
        case PromptRaises =>
          return true;
        case NoPrompt =>
          records := records + [Completed(m)];
          return false;
        case Prompted =>
          raised := Verify(m, env);
          if raised {
            raised := PublishAndComplete(Failure(m), env.errorPublish);
          }
      }
    }

    /** The guarded part: media, model, publish, enrichment.  `failed`: an exception reaches the
        handler. */
    method Verify(m: Message, env: MessageEnv) returns (failed: bool)
      requires env.prep == Prompted
      modifies this`records, this`published, this`observed
      ensures failed <==> FailsBeforeCompletion(env) || FailsAfterCompletion(env)
      ensures records == old(records) + if FailsBeforeCompletion(env) then [] else [Completed(m)]
      ensures published == old(published) +
                if FailsBeforeCompletion(env) then []
                else if env.media == Playable && LoopVerdict(env).content then [Success(m)] else [Failure(m)]
      ensures observed == old(observed) + if env.media == Playable then Begun(env.attempts, 0, env.maxRetries) else 0
    {
      if env.media == MediaRaises {
        return true;
      }
      if env.media == NoUrl || env.media == BadUrl {
        if !env.secondLookup {
          return true;
        }
        failed := PublishAndComplete(Failure(m), env.publish);
        return;
      }
      var verdict := CallModel(env.attempts, env.maxRetries);
      if verdict == CallRaises {
        return true;
      }
      failed := PublishAndComplete(if verdict.content then Success(m) else Failure(m), env.publish);
      if failed {
        return true;
      }
      failed := verdict.verified && env.enrichRaises;
    }

    /** `process_batch_vlm`: filter, count, process until a message raises.  `lost`: a filter raised
        and the batch vanished; `kept` is what was left to process. */
    method ProcessBatch(input: seq<Message>, env: BatchEnv) returns (lost: bool, kept: seq<Message>)
      modifies this
      ensures lost <==> input != [] && env.filtering && (env.endTime.FilterRaises? ||
                          (Kept(input, env.endTime.keep) != [] && env.dedup.FilterRaises?))
      ensures afterDedup == old(afterDedup) + |kept|
      ensures Total(drops) + afterDedup == old(Total(drops) + afterDedup) + |input| <==> !lost
      ensures !lost ==> Bag(drops) + multiset(kept) == old(Bag(drops)) + multiset(input)
      ensures !lost ==> forall m :: m in kept <==> m in input && Passes(m, env)
      ensures Distinct(input) ==> Distinct(kept)
      ensures GrewFor(EndTime, old(drops.endTime), drops.endTime, input, env)
      ensures GrewFor(Dedup, old(drops.dedup), drops.dedup, input, env)
      ensures GrewFor(RateLimit, old(drops.rateLimit), drops.rateLimit, input, env)
      ensures !lost ==> Subsequence(kept, input)
      ensures records == old(records) + BatchRecords(kept, env.message)
      ensures published == old(published) + BatchPublished(kept, env.message)
    {
      hide Kept, Bag, Total, Distinct, Passes, BatchRecords, BatchPublished;
      if input != [] && env.filtering {
        lost, kept := ApplyFilters(input, env);
      } else {
        kept, lost := input, false;
        NothingFiltered(input, env);
        NothingGrows(drops, input, env);
        SubsequenceReflexive(input);
      }
      ProcessRest(kept, env.message);
    }

    /** Count the messages that are left, if any, and process them. */
    method ProcessRest(kept: seq<Message>, envs: Message -> MessageEnv)
      modifies this`afterDedup, this`records, this`published, this`observed
      ensures afterDedup == old(afterDedup) + |kept|
      ensures records == old(records) + BatchRecords(kept, envs)
      ensures published == old(published) + BatchPublished(kept, envs)
    {
      if kept == [] {
        return;
      }
      afterDedup := afterDedup + |kept|;
      ProcessKept(kept, envs);
    }

    /** Count what a filter left out and hand on the rest. */
    method Count(reason: Reason, ms: seq<Message>, keep: Message -> bool) returns (kept: seq<Message>)
      modifies this`drops
      ensures kept == Kept(ms, keep) && (forall m :: m in kept <==> m in ms && keep(m))
      ensures reason == EndTime ==> drops == old(drops).(endTime := Add(old(drops.endTime), ms, keep))
      ensures reason == Dedup ==> drops == old(drops).(dedup := Add(old(drops.dedup), ms, keep))
      ensures reason == RateLimit ==> drops == old(drops).(rateLimit := Add(old(drops.rateLimit), ms, keep))
      ensures Distinct(ms) ==> Distinct(kept)
      ensures Total(drops) + |kept| == old(Total(drops)) + |ms|
      ensures Bag(drops) + multiset(kept) == old(Bag(drops)) + multiset(ms)
    {
      hide Kept, Rejected, Dropped, Bag, Total, Distinct;
      kept := Kept(ms, keep);
      DroppedIsRejected(ms, keep);
      KeptAndRejected(ms, keep);
      if Distinct(ms) {
        KeptStaysDistinct(ms, keep);
      }
      FilterConserves(drops, ms, keep);
      var (n, dropped) := (|ms| - |kept|, Dropped(ms, kept));
      match reason {
        case EndTime => drops := drops.(endTime := Drops(drops.endTime.count + n, drops.endTime.messages + dropped));
        case Dedup => drops := drops.(dedup := Drops(drops.dedup.count + n, drops.dedup.messages + dropped));
        case RateLimit =>
          drops := drops.(rateLimit := Drops(drops.rateLimit.count + n, drops.rateLimit.messages + dropped));
      }
    }

    method ApplyFilters(input: seq<Message>, env: BatchEnv) returns (lost: bool, kept: seq<Message>)
      requires input != [] && env.filtering
      modifies this`drops
      ensures lost <==> env.endTime.FilterRaises? || (Kept(input, env.endTime.keep) != [] && env.dedup.FilterRaises?)
      ensures lost ==> kept == []
      ensures Total(drops) + |kept| == old(Total(drops)) + |input| <==> !lost
      ensures !lost ==> Bag(drops) + multiset(kept) == old(Bag(drops)) + multiset(input)
      ensures !lost ==> forall m :: m in kept <==> m in input && Passes(m, env)
      ensures Distinct(input) ==> Distinct(kept)
      ensures GrewFor(EndTime, old(drops.endTime), drops.endTime, input, env)
      ensures GrewFor(Dedup, old(drops.dedup), drops.dedup, input, env)
      ensures GrewFor(RateLimit, old(drops.rateLimit), drops.rateLimit, input, env)
      ensures !lost ==> Subsequence(kept, input)
    {
      hide GrewFor, Kept, Rejected, Add, Bag, Total;
      NothingGrows(drops, input, env);
      if env.endTime.FilterRaises? {
        return true, [];
      }
      FiltersAttribute(drops, input, env);
      kept := Count(EndTime, input, env.endTime.keep);
      KeptInOrder(input, env.endTime.keep);
      if kept == [] {
        NoneReached(drops, env);
        return false, [];
      }
      if env.dedup.FilterRaises? {
        return true, [];
      }
      ghost var first := kept;
      kept := Count(Dedup, kept, env.dedup.keep);
      KeptInOrder(first, env.dedup.keep);
      SubsequenceTransitive(kept, first, input);
      if kept != [] && env.limiting && env.limit.Keeps? {
        ghost var second := kept;
        kept := Count(RateLimit, kept, env.limit.keep);
        KeptInOrder(second, env.limit.keep);
        SubsequenceTransitive(kept, second, input);
      } else if kept == [] {
        NoneReached(drops, env);
      }
      lost := false;
    }

    method ProcessKept(ms: seq<Message>, envs: Message -> MessageEnv)
      modifies this`records, this`published, this`observed
      ensures records == old(records) + BatchRecords(ms, envs)
      ensures published == old(published) + BatchPublished(ms, envs)
    {
      hide RecordsOf, PublishedOf, Escapes;
      var i := 0;
      while i < |ms|
        invariant i <= |ms|
        invariant records + BatchRecords(ms[i..], envs) == old(records) + BatchRecords(ms, envs)
        invariant published + BatchPublished(ms[i..], envs) == old(published) + BatchPublished(ms, envs)
      {
        var m := ms[i];
        assert ms[i..][0] == m && ms[i..][1..] == ms[i + 1..];
        ghost var (rs, ps) := if Escapes(envs(m)) then ([], [])
                              else (BatchRecords(ms[i + 1..], envs), BatchPublished(ms[i + 1..], envs));
        assert records + (RecordsOf(m, envs(m)) + rs) == (records + RecordsOf(m, envs(m))) + rs;
        assert published + (PublishedOf(m, envs(m)) + ps) == (published + PublishedOf(m, envs(m))) + ps;
        var raised := ProcessMessage(m, envs(m));
        if raised {
          return;
        }
        i := i + 1;
      }
    }
  }
}
