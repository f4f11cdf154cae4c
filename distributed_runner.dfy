/**
 * DistributedRunner of src/pipeline/distributed_runner.py, in its
 * sequential meaning: items are cut into batches, and each batch is either
 * restored from its checkpoint (when resuming and one exists) or computed
 * as [func(x) for x in batch] and checkpointed.
 *
 * The checkpoint files "<stage>-<index>.json" are a map from (stage, index)
 * to the stored payload. The Ray and Dask backends compute the same list as
 * the local one, so a batch run does not depend on the backend here.
 */
module DistributedRunners {
  import opened Numeric
  import opened Text

  // ---------------------------------------------------------------------------
  // Batches

  /** _chunk(items, size). */
  function Chunk<T>(items: seq<T>, size: int): (batches: seq<seq<T>>)
    decreases |items|
  {
    if size <= 0 then [items]
    else if |items| <= size then (if |items| == 0 then [] else [items])
    else [items[..size]] + Chunk(items[size..], size)
  }

  /** The batches laid end to end. */
  function Flatten<T>(batches: seq<seq<T>>): seq<T>
  {
    if |batches| == 0 then [] else batches[0] + Flatten(batches[1..])
  }

  /** The batches concatenate back to the items. */
  lemma {:induction false} ChunkFlatten<T>(items: seq<T>, size: int)
    ensures Flatten(Chunk(items, size)) == items
    decreases |items|
  {
    if size <= 0 {
      assert Flatten([items]) == items + Flatten([items][1..]);
    } else if |items| <= size {
      if |items| > 0 {
        assert Flatten([items]) == items + Flatten([items][1..]);
      }
    } else {
      ChunkFlatten(items[size..], size);
      var rest := Chunk(items[size..], size);
      assert ([items[..size]] + rest)[1..] == rest;
      assert items[..size] + items[size..] == items;
    }
  }

  /**
   * With a positive size there are ceil(len/size) batches: none for no
   * items, otherwise the least c with len <= c * size.
   */
  lemma {:induction false} ChunkCount<T>(items: seq<T>, size: int)
    requires size > 0
    ensures |items| == 0 <==> |Chunk(items, size)| == 0
    ensures |items| > 0 ==> (|Chunk(items, size)| - 1) * size < |items| <= |Chunk(items, size)| * size
    decreases |items|
  {
    if |items| > size {
      var tail := items[size..];
      ChunkCount(tail, size);
      var c := |Chunk(tail, size)|;
      assert |Chunk(items, size)| == c + 1;
      assert (c + 1) * size == c * size + size;
      assert (c + 1 - 1) * size == (c - 1) * size + size;
    }
  }

  /** The bound of batch k: min((k + 1) * size, len). */
  function BatchEnd(n: nat, size: nat, k: nat): nat
  {
    if (k + 1) * size <= n then (k + 1) * size else n
  }

  /**
   * With a positive size, batch k is items[k*size : (k+1)*size], as the
   * comprehension over range(0, len(items), size) builds it.
   */
  lemma {:induction false} ChunkAt<T>(items: seq<T>, size: int, k: nat)
    requires size > 0 && k < |Chunk(items, size)|
    ensures k * size < BatchEnd(|items|, size, k) <= |items|
    ensures Chunk(items, size)[k] == items[k * size .. BatchEnd(|items|, size, k)]
    decreases k
  {
    if |items| <= size {
      assert k == 0;
    } else if k > 0 {
      var tail := items[size..];
      assert Chunk(items, size)[k] == Chunk(tail, size)[k - 1];
      ChunkAt(tail, size, k - 1);
      var lo, hi := (k - 1) * size, BatchEnd(|tail|, size, k - 1);
      assert lo + size == k * size;
      assert hi + size == BatchEnd(|items|, size, k);
      assert tail[lo..hi] == items[lo + size .. hi + size];
    }
  }

  /** No batch is empty, and every batch but the last holds exactly size items. */
  lemma ChunkSizes<T>(items: seq<T>, size: int, k: nat)
    requires size > 0 && k < |Chunk(items, size)|
    ensures 0 < |Chunk(items, size)[k]| <= size
    ensures k < |Chunk(items, size)| - 1 ==> |Chunk(items, size)[k]| == size
  {
    ChunkAt(items, size, k);
    ChunkCount(items, size);
    if k < |Chunk(items, size)| - 1 {
      MulMonotone(k + 1, |Chunk(items, size)| - 1, size);
    }
  }

  // ---------------------------------------------------------------------------
  // Running batches

  /** [func(item) for item in batch]. */
  function Apply<A, B>(func: A -> B, batch: seq<A>): (r: seq<B>)
    ensures |r| == |batch|
    ensures forall i :: 0 <= i < |batch| ==> r[i] == func(batch[i])
  {
    seq(|batch|, i requires 0 <= i < |batch| => func(batch[i]))
  }

  lemma ApplyConcat<A, B>(func: A -> B, a: seq<A>, b: seq<A>)
    ensures Apply(func, a + b) == Apply(func, a) + Apply(func, b)
  {
  }

  lemma {:induction false} ApplyFlatten<A, B>(func: A -> B, batches: seq<seq<A>>)
    ensures Flatten(MapBatches(func, batches)) == Apply(func, Flatten(batches))
    decreases |batches|
  {
    if |batches| > 0 {
      ApplyFlatten(func, batches[1..]);
      assert MapBatches(func, batches)[1..] == MapBatches(func, batches[1..]);
      ApplyConcat(func, batches[0], Flatten(batches[1..]));
    }
  }

  function MapBatches<A, B>(func: A -> B, batches: seq<seq<A>>): (r: seq<seq<B>>)
    ensures |r| == |batches|
    ensures forall k :: 0 <= k < |batches| ==> r[k] == Apply(func, batches[k])
  {
    seq(|batches|, k requires 0 <= k < |batches| => Apply(func, batches[k]))
  }

  /** _run_batch: Ray, Dask or a local list comprehension, all the same list. */
  method RunBatch<A, B>(backend: string, func: A -> B, batch: seq<A>) returns (computed: seq<B>)
    ensures computed == Apply(func, batch)
  {
    computed := [];
    for i := 0 to |batch|
      invariant computed == Apply(func, batch[..i])
    {
      computed := computed + [func(batch[i])];
    }
    assert batch[..|batch|] == batch;
  }

  // ---------------------------------------------------------------------------
  // The map of checkpoints

  type Checkpoints<P> = map<(string, nat), P>

  /** Batch idx is read back from disk rather than computed. */
  predicate Restored<P>(ckpts: Checkpoints<P>, resume: bool, stage: string, idx: nat)
  {
    resume && (stage, idx) in ckpts
  }

  /** What batch idx contributes to the results. */
  function BatchOutput<A, B, P>(ckpts: Checkpoints<P>, resume: bool, func: A -> B, load: P -> seq<B>,
                                stage: string, batches: seq<seq<A>>, idx: nat): seq<B>
    requires idx < |batches|
  {
    if Restored(ckpts, resume, stage, idx) then load(ckpts[(stage, idx)]) else Apply(func, batches[idx])
  }

  /** The results after the first n batches. */
  function ResultsUpTo<A, B, P>(ckpts: Checkpoints<P>, resume: bool, func: A -> B, load: P -> seq<B>,
                                stage: string, batches: seq<seq<A>>, n: nat): seq<B>
    requires n <= |batches|
  {
    if n == 0 then []
    else
      ResultsUpTo(ckpts, resume, func, load, stage, batches, n - 1)
      + BatchOutput(ckpts, resume, func, load, stage, batches, n - 1)
  }

  /** The checkpoints after the first n batches: each computed batch is written under (stage, its index). */
  function StoredUpTo<A, B, P>(ckpts: Checkpoints<P>, resume: bool, func: A -> B, dump: seq<B> -> P,
                               stage: string, batches: seq<seq<A>>, n: nat): Checkpoints<P>
    requires n <= |batches|
  {
    if n == 0 then ckpts
    else
      var s := StoredUpTo(ckpts, resume, func, dump, stage, batches, n - 1);
      if Restored(ckpts, resume, stage, n - 1) then s
      else s[(stage, n - 1) := dump(Apply(func, batches[n - 1]))]
  }

  /**
   * After n batches a checkpoint exists for each of them: a restored one
   * unchanged, a computed one holding the dump of its results. Every other
   * key is as it was.
   */
  lemma {:induction false} StoredUpToFacts<A, B, P>(ckpts: Checkpoints<P>, resume: bool, func: A -> B,
                                                   dump: seq<B> -> P, stage: string, batches: seq<seq<A>>, n: nat)
    requires n <= |batches|
    ensures var s := StoredUpTo(ckpts, resume, func, dump, stage, batches, n);
      (forall idx: nat :: idx < n ==>
         ((stage, idx) in s &&
          s[(stage, idx)] == (if Restored(ckpts, resume, stage, idx) then ckpts[(stage, idx)]
                              else dump(Apply(func, batches[idx]))))) &&
      (forall key: (string, nat) :: !(key.0 == stage && key.1 < n) ==> (key in s <==> key in ckpts) && (key in s ==> s[key] == ckpts[key]))
    decreases n
  {
    if n > 0 {
      StoredUpToFacts(ckpts, resume, func, dump, stage, batches, n - 1);
    }
  }

  /** With nothing to restore, the results are func applied to every item, in order. */
  lemma {:induction false} FreshResults<A, B, P>(ckpts: Checkpoints<P>, resume: bool, func: A -> B, load: P -> seq<B>,
                                                stage: string, batches: seq<seq<A>>, n: nat)
    requires n <= |batches|
    requires forall idx: nat :: idx < n ==> !Restored(ckpts, resume, stage, idx)
    ensures ResultsUpTo(ckpts, resume, func, load, stage, batches, n) == Flatten(MapBatches(func, batches[..n]))
    decreases n
  {
    if n > 0 {
      FreshResults(ckpts, resume, func, load, stage, batches, n - 1);
      FlattenSnoc(MapBatches(func, batches[..n - 1]), Apply(func, batches[n - 1]));
      assert MapBatches(func, batches[..n]) == MapBatches(func, batches[..n - 1]) + [Apply(func, batches[n - 1])];
    }
  }

  lemma {:induction false} FlattenSnoc<T>(batches: seq<seq<T>>, last: seq<T>)
    ensures Flatten(batches + [last]) == Flatten(batches) + last
    decreases |batches|
  {
    if |batches| == 0 {
      assert Flatten([last]) == last + Flatten([last][1..]);
    } else {
      FlattenSnoc(batches[1..], last);
      assert (batches + [last])[1..] == batches[1..] + [last];
    }
  }

  /** When every batch is restored, the results are the loaded payloads whatever func is: func is never called. */
  lemma {:induction false} RestoredIgnoresFunc<A, B, P>(ckpts: Checkpoints<P>, func1: A -> B, func2: A -> B,
                                                       load: P -> seq<B>, stage: string, batches: seq<seq<A>>, n: nat)
    requires n <= |batches|
    requires forall idx: nat :: idx < n ==> Restored(ckpts, true, stage, idx)
    ensures ResultsUpTo(ckpts, true, func1, load, stage, batches, n) == ResultsUpTo(ckpts, true, func2, load, stage, batches, n)
    decreases n
  {
    if n > 0 {
      RestoredIgnoresFunc(ckpts, func1, func2, load, stage, batches, n - 1);
    }
  }

  /** A run with resume off ignores every checkpoint: it recomputes each batch and overwrites its file. */
  lemma NoResumeRecomputes<A, B, P>(ckpts: Checkpoints<P>, func: A -> B, load: P -> seq<B>, dump: seq<B> -> P,
                                   stage: string, batches: seq<seq<A>>)
    ensures ResultsUpTo(ckpts, false, func, load, stage, batches, |batches|) == Flatten(MapBatches(func, batches))
    ensures forall idx: nat :: idx < |batches| ==>
      var s := StoredUpTo(ckpts, false, func, dump, stage, batches, |batches|);
      (stage, idx) in s && s[(stage, idx)] == dump(Apply(func, batches[idx]))
  {
    FreshResults(ckpts, false, func, load, stage, batches, |batches|);
    assert batches[..|batches|] == batches;
    StoredUpToFacts(ckpts, false, func, dump, stage, batches, |batches|);
  }

  /**
   * Running a stage again with resume on, after a run that computed every
   * batch, gives the same results when load undoes dump.
   */
  lemma {:induction false} ResumeReproduces<A, B, P>(ckpts: Checkpoints<P>, resume: bool, func: A -> B, other: A -> B,
                                                    load: P -> seq<B>, dump: seq<B> -> P, stage: string,
                                                    batches: seq<seq<A>>, n: nat)
    requires n <= |batches|
    requires forall idx: nat :: idx < n ==> !Restored(ckpts, resume, stage, idx)
    requires forall r :: load(dump(r)) == r
    ensures var after := StoredUpTo(ckpts, resume, func, dump, stage, batches, |batches|);
      ResultsUpTo(after, true, other, load, stage, batches, n) == ResultsUpTo(ckpts, resume, func, load, stage, batches, n)
    decreases n
  {
    var after := StoredUpTo(ckpts, resume, func, dump, stage, batches, |batches|);
    StoredUpToFacts(ckpts, resume, func, dump, stage, batches, |batches|);
    if n > 0 {
      ResumeReproduces(ckpts, resume, func, other, load, dump, stage, batches, n - 1);
      assert after[(stage, n - 1)] == dump(Apply(func, batches[n - 1]));
    }
  }

  // ---------------------------------------------------------------------------
  // The runner

  class DistributedRunner<P> {
    var backend: string
    var resume: bool
    /** The checkpoint directory's files. */
    var checkpoints: Checkpoints<P>

    /** The runner over a checkpoint directory that may already hold files; the backend name is lower-cased. */
    constructor(backend: string, resume: bool, existing: Checkpoints<P>)
      ensures this.backend == Lower(backend) && this.resume == resume && checkpoints == existing
    {
      this.backend := Lower(backend);
      this.resume := resume;
      checkpoints := existing;
    }

    /** map(func, items, stage_name, batch_size, dump_fn, load_fn), a missing hook being the identity. */
    method Map<A, B>(func: A -> B, items: seq<A>, stage: string, batchSize: int,
                     dump: seq<B> -> P, load: P -> seq<B>) returns (results: seq<B>)
      modifies this
      ensures results == ResultsUpTo(old(checkpoints), resume, func, load, stage, Chunk(items, batchSize),
                                     |Chunk(items, batchSize)|)
      ensures checkpoints == StoredUpTo(old(checkpoints), resume, func, dump, stage, Chunk(items, batchSize),
                                        |Chunk(items, batchSize)|)
      ensures backend == old(backend) && resume == old(resume)
    {
      var batches := Chunk(items, batchSize);
      ghost var before := checkpoints;
      results := [];
      for idx := 0 to |batches|
        invariant backend == old(backend) && resume == old(resume)
        invariant checkpoints == StoredUpTo(before, resume, func, dump, stage, batches, idx)
        invariant results == ResultsUpTo(before, resume, func, load, stage, batches, idx)
      {
        StoredUpToFacts(before, resume, func, dump, stage, batches, idx);
        assert ((stage, idx) in checkpoints) == ((stage, idx) in before);
        if resume && (stage, idx) in checkpoints {
          results := results + load(checkpoints[(stage, idx)]);
        } else {
          var computed := RunBatch(backend, func, batches[idx]);
          checkpoints := checkpoints[(stage, idx) := dump(computed)];
          results := results + computed;
        }
      }
    }
  }

  // ---------------------------------------------------------------------------
  // Seeds

  /** deterministic_seeds(total, base_seed): base_seed + i for i in range(total). */
  function DeterministicSeeds(total: int, baseSeed: int := 42): (seeds: seq<int>)
    ensures |seeds| == if total > 0 then total else 0
    ensures forall i :: 0 <= i < |seeds| ==> seeds[i] == baseSeed + i
  {
    if total <= 0 then [] else seq(total, i => baseSeed + i)
  }

  /** The seeds are distinct and increasing. */
  lemma SeedsIncreasing(total: int, baseSeed: int)
    ensures forall i, j :: 0 <= i < j < |DeterministicSeeds(total, baseSeed)| ==>
      DeterministicSeeds(total, baseSeed)[i] < DeterministicSeeds(total, baseSeed)[j]
  {
  }
}
