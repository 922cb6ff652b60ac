/** Scheduling sub-batches on the alert verifier's worker slots: a queue of slot ids, one taken
    for every sub-batch submitted and put back when that sub-batch is done. */
module WorkerSlots {

  /** The chunk size in use: a configured value that is not a positive number means 2. */
  function ChunkSize(configured: int): (n: nat)
    ensures n > 0
  {
    if configured <= 0 then 2 else configured
  }

  function Smaller(a: nat, b: nat): nat {
    if a < b then a else b
  }

  /** A batch cut into consecutive chunks. */
  function Chunks<M>(batch: seq<M>, size: nat): seq<seq<M>>
    requires size > 0
    decreases |batch|
  {
    if batch == [] then []
    else
      var n := Smaller(size, |batch|);
      [batch[..n]] + Chunks(batch[n..], size)
  }

  function Flatten<M>(chunks: seq<seq<M>>): seq<M> {
    if chunks == [] then [] else chunks[0] + Flatten(chunks[1..])
  }

  /** Cutting loses, repeats and reorders nothing. */
  lemma {:induction false} ChunksFlatten<M>(batch: seq<M>, size: nat)
    requires size > 0
    ensures Flatten(Chunks(batch, size)) == batch
    decreases |batch|
  {
    if batch != [] {
      var n := Smaller(size, |batch|);
      ChunksFlatten(batch[n..], size);
      assert Chunks(batch, size)[1..] == Chunks(batch[n..], size);
      assert batch[..n] + batch[n..] == batch;
    }
  }

  /** Every chunk but the last is full and none is empty. */
  lemma {:induction false} ChunksAreFull<M>(batch: seq<M>, size: nat, i: nat)
    requires size > 0 && i < |Chunks(batch, size)|
    ensures 0 < |Chunks(batch, size)[i]| <= size
    ensures i < |Chunks(batch, size)| - 1 ==> |Chunks(batch, size)[i]| == size
    decreases |batch|
  {
    var n := Smaller(size, |batch|);
    if i > 0 {
      ChunksAreFull(batch[n..], size, i - 1);
    }
  }

  lemma {:induction false} FlattenConcat<M>(xs: seq<seq<M>>, ys: seq<seq<M>>)
    ensures Flatten(xs + ys) == Flatten(xs) + Flatten(ys)
  {
    if xs == [] {
      assert xs + ys == ys;
    } else {
      assert (xs + ys)[1..] == xs[1..] + ys;
      FlattenConcat(xs[1..], ys);
      assert xs[0] + (Flatten(xs[1..]) + Flatten(ys)) == (xs[0] + Flatten(xs[1..])) + Flatten(ys);
    }
  }

  /** A sub-batch that runs and the slot it holds. */
  datatype Job<M> = Job(slot: nat, work: seq<M>)

  function Slots<M>(running: seq<Job<M>>): (r: seq<nat>)
    ensures |r| == |running| && forall i :: 0 <= i < |r| ==> r[i] == running[i].slot
  {
    seq(|running|, i requires 0 <= i < |running| => running[i].slot)
  }

  function Ids(n: nat): (r: seq<nat>)
    ensures |r| == n
  {
    if n == 0 then [] else Ids(n - 1) + [n - 1]
  }

  lemma {:induction false} IdsAre(n: nat)
    ensures forall k :: multiset(Ids(n))[k] == if 0 <= k < n then 1 else 0
  {
    if n > 0 {
      IdsAre(n - 1);
    }
  }

  lemma SlotsAfterFinish<M>(running: seq<Job<M>>, i: nat)
    requires i < |running|
    ensures multiset(Slots(running)) == multiset(Slots(running[..i] + running[i + 1..])) + multiset{running[i].slot}
  {
    var (all, rest) := (Slots(running), Slots(running[..i] + running[i + 1..]));
    assert rest == all[..i] + all[i + 1..];
    assert all == all[..i] + [all[i]] + all[i + 1..];
  }

  class Scheduler<M> {
    const workers: nat
    var queue: seq<nat>
    var running: seq<Job<M>>
    ghost var submitted: seq<seq<M>>

    /** Every slot id is in the queue or held by one running sub-batch, once. */
    ghost predicate Valid()
      reads this
    {
      workers > 0 && multiset(queue) + multiset(Slots(running)) == multiset(Ids(workers))
    }

    constructor (workers: nat)
      requires workers > 0
      ensures Valid() && this.workers == workers && running == [] && submitted == []
    {
      this.workers := workers;
      queue, running, submitted := [], [], [];
      new;
      assert Ids(0) == [];
      for k := 0 to workers
        invariant queue == Ids(k) && running == [] && submitted == [] && this.workers == workers
      {
        queue := queue + [k];
      }
      assert Slots(running) == [];
    }

    /** Conservation means there is room: no slot is duplicated, and a put never blocks. */
    lemma SlotsAreConserved()
      requires Valid()
      ensures |queue| + |running| == workers
      ensures forall k: nat :: k in queue || k in Slots(running) <==> k < workers
      ensures forall k: nat :: k in queue ==> k !in Slots(running)
      ensures running != [] ==> |queue| < workers
    {
      assert |multiset(queue) + multiset(Slots(running))| == |queue| + |running|;
      IdsAre(workers);
      forall k: nat ensures multiset(queue)[k] + multiset(Slots(running))[k] == if k < workers then 1 else 0 {
        assert (multiset(queue) + multiset(Slots(running)))[k] == multiset(Ids(workers))[k];
      }
      forall k: nat ensures k in queue <==> multiset(queue)[k] > 0 {
        assert k in queue <==> k in multiset(queue);
      }
      forall k: nat ensures k in Slots(running) <==> multiset(Slots(running))[k] > 0 {
        assert k in Slots(running) <==> k in multiset(Slots(running));
      }
    }

    /** A sub-batch is done: its callback puts the slot back into a queue of bounded size. */
    method Finish(i: nat)
      requires Valid() && i < |running|
      modifies this`queue, this`running
      ensures Valid() && queue == old(queue) + [old(running)[i].slot] && |queue| <= workers
      ensures running == old(running)[..i] + old(running)[i + 1..]
    {
      SlotsAreConserved();
      SlotsAfterFinish(running, i);
      queue, running := queue + [running[i].slot], running[..i] + running[i + 1..];
    }

    method Submit(work: seq<M>)
      requires Valid() && queue != []
      modifies this
      ensures Valid() && queue == old(queue)[1..]
      ensures running == old(running) + [Job(old(queue)[0], work)]
      ensures submitted == old(submitted) + [work]
    {
      assert queue == [queue[0]] + queue[1..];
      assert Slots(running + [Job(queue[0], work)]) == Slots(running) + [queue[0]];
      queue, running := queue[1..], running + [Job(queue[0], work)];
      submitted := submitted + [work];
    }

    /** Any sub-batches finish, and at least one if there is no free slot. */
    method AwaitSlot()
      requires Valid()
      modifies this`queue, this`running
      ensures Valid() && queue != []
    {
      while *
        invariant Valid()
        decreases |running|
      {
        if running == [] {
          break;
        }
        var i :| 0 <= i < |running|;
        Finish(i);
      }
      if queue == [] {
        SlotsAreConserved();
        var i :| 0 <= i < |running|;
        Finish(i);
      }
    }

    /** The inner loops of `process_anomalies` for one batch: whatever finishes meanwhile, its
        chunks are submitted in order, each once. */
    method Schedule(batch: seq<M>, configured: int)
      requires Valid()
      modifies this
      ensures Valid()
      ensures submitted == old(submitted) + Chunks(batch, ChunkSize(configured))
      ensures Flatten(submitted) == Flatten(old(submitted)) + batch
      ensures var size := if configured > 0 then configured else 2;
              && |old(submitted)| <= |submitted| && submitted[..|old(submitted)|] == old(submitted)
              && (forall i :: |old(submitted)| <= i < |submitted| ==> 0 < |submitted[i]| <= size)
              && (forall i :: |old(submitted)| <= i < |submitted| - 1 ==> |submitted[i]| == size)
    {
      var size := ChunkSize(configured);
      var start := 0;
      while start < |batch|
        invariant start <= |batch| && Valid()
        invariant submitted + Chunks(batch[start..], size) == old(submitted) + Chunks(batch, size)
      {
        var end := if start + size < |batch| then start + size else |batch|;
        AwaitSlot();
        assert batch[start..][..end - start] == batch[start..end] && batch[start..][end - start..] == batch[end..];
        assert Chunks(batch[start..], size) == [batch[start..end]] + Chunks(batch[end..], size);
        ghost var before := submitted;
        Submit(batch[start..end]);
        assert submitted + Chunks(batch[end..], size) == before + Chunks(batch[start..], size);
        start := end;
      }
      assert submitted == old(submitted) + Chunks(batch, size);
      FlattenConcat(old(submitted), Chunks(batch, size));
      ChunksFlatten(batch, size);
      forall i | |old(submitted)| <= i < |submitted|
        ensures 0 < |submitted[i]| <= size && (i < |submitted| - 1 ==> |submitted[i]| == size)
      {
        ChunksAreFull(batch, size, i - |old(submitted)|);
      }
    }
  }
}
