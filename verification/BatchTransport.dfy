/** The mutable object of `src/supabase-realtime-batch.ts`: admission, batching, restore and the
    drain loop with its fallback. */
module BatchTransport {
  import opened Common
  import opened BatchPolicy
  import opened CursorQueues

  /** The items of a list of batches, in order. */
  function Items(batches: seq<seq<Item>>): seq<Item> {
    if batches == [] then [] else Items(batches[..|batches| - 1]) + batches[|batches| - 1]
  }

  lemma ItemsSnoc(batches: seq<seq<Item>>, last: seq<Item>, rest: seq<Item>)
    ensures Items(batches + [last]) + rest == Items(batches) + (last + rest)
  {
    assert (batches + [last])[..|batches|] == batches;
    assert Items(batches) + last + rest == Items(batches) + (last + rest);
  }

  class Transport {
    const cfg: Config
    const queue: CursorQueue<Item>
    var accepting: bool
    var dropped: nat
    var failures: nat
    var reconnectAttempts: nat
    /** Records that came through `write` or `flushOnExit`, and records a send returned for. */
    ghost var offered: nat
    ghost var delivered: nat

    ghost predicate Valid()
      reads this, queue
    {
      cfg.Valid() && queue.Valid() && Sized(cfg, queue.Contents()) && |queue.Contents()| <= cfg.maxQueueSize
    }

    /** How many records offered were neither delivered nor dropped nor are queued. */
    ghost function InHand(): int
      requires queue.Valid()
      reads this, queue
    {
      offered - delivered - dropped - |queue.Contents()|
    }

    ghost predicate Accounted()
      requires queue.Valid()
      reads this, queue
    {
      InHand() == 0
    }

    constructor (cfg: Config)
      requires cfg.Valid()
      ensures Valid() && fresh(queue) && this.cfg == cfg && Accounted()
    {
      this.cfg := cfg;
      queue := new CursorQueue<Item>();
      accepting, dropped, failures, reconnectAttempts, offered, delivered := true, 0, 0, 0, 0, 0;
    }

    method Enqueue(item: Item) returns (queued: bool)
      requires Valid()
      modifies this`dropped, this`offered, queue
      ensures Valid() && InHand() == old(InHand()) && offered == old(offered) + 1
      ensures queued == (accepting && item.bytes <= cfg.maxRecordBytes)
      ensures
        var before := old(queue.Contents());
        if !queued then queue.Contents() == before
        else queue.Contents() == (if |before| < cfg.maxQueueSize then before else before[1..]) + [item]
    {
      offered := offered + 1;
      if !accepting || item.bytes > cfg.maxRecordBytes {
        dropped := dropped + 1;
        return false;
      }
      var length := queue.Length();
      if length >= cfg.maxQueueSize {
        var oldest := queue.Shift();
        if oldest.Some? { dropped := dropped + 1; }
      }
      queue.Push(item);
      return true;
    }

    method TakeBatch() returns (batch: seq<Item>)
      requires Valid()
      modifies queue
      ensures queue.Valid() && batch == old(queue.Contents())[..BatchLength(cfg, old(queue.Contents()))]
      ensures batch + queue.Contents() == old(queue.Contents())
    {
      ghost var before := queue.Contents();
      batch := [];
      var bytes := ENVELOPE_BYTES;
      var length := queue.Length();
      while |batch| < cfg.batchSize && length > 0
        invariant queue.Valid() && length == |queue.Contents()| && |batch| <= |before|
        invariant batch == before[..|batch|] && queue.Contents() == before[|batch|..]
        invariant bytes == Weight(batch)
        invariant BatchLength(cfg, before) == BatchPolicy.Count(cfg, before, |batch|)
        decreases length
      {
        var shifted := queue.Shift();
        var item := shifted.value;
        var nextBytes := item.bytes + 1;
        WeightSnoc(before, |batch|);
        if |batch| > 0 && bytes + nextBytes > cfg.maxBatchBytes {
          queue.Prepend([item]);
          assert queue.Contents() == before[|batch|..];
          return;
        }
        batch := batch + [item];
        bytes := bytes + nextBytes;
        length := queue.Length();
      }
    }

    method RestoreBatch(batch: seq<Item>)
      requires cfg.Valid() && queue.Valid()
      modifies this`dropped, queue
      ensures queue.Valid() && queue.Contents() == Restored(cfg, batch, old(queue.Contents()))
      ensures dropped == old(dropped) + RestoreDrops(cfg, batch, old(queue.Contents()))
    {
      queue.Prepend(batch);
      ghost var all := queue.Contents();
      var length := queue.Length();
      while length > cfg.maxQueueSize
        invariant queue.Valid() && length == |queue.Contents()| <= |all| && queue.Contents() == all[..length]
        invariant length >= cfg.maxQueueSize || length == |all|
        invariant dropped == old(dropped) + |all| - length
        decreases length
      {
        var displaced := queue.Pop();
        if displaced.Some? { dropped := dropped + 1; }
        length := queue.Length();
      }
    }

    function ShouldUseFallback(): bool
      reads this
    {
      cfg.hasFallback && failures >= cfg.fallbackAfterFailures
    }

    /** Takes a batch and sends it while `arrivals` are written; a batch whose send throws goes back
        in front of whatever is queued by then, and what does not fit is dropped from the back. */
    method SendNext(ok: bool, arrivals: seq<Item>) returns (batch: seq<Item>)
      requires Valid() && Accounted() && queue.Contents() != []
      modifies this`dropped, this`delivered, this`offered, queue
      ensures Valid() && Accounted() && batch != []
      ensures batch == old(queue.Contents())[..BatchLength(cfg, old(queue.Contents()))]
      ensures !ok ==> batch <= queue.Contents()
      ensures arrivals == [] ==> dropped == old(dropped)
      ensures arrivals == [] && ok ==> batch + queue.Contents() == old(queue.Contents())
      ensures arrivals == [] && !ok ==> queue.Contents() == old(queue.Contents())
    {
      BatchesFit(cfg, queue.Contents());
      RestoreUndoesTake(cfg, queue.Contents());
      ghost var before := queue.Contents();
      batch := TakeBatch();
      ghost var rest := queue.Contents();
      assert rest == before[|batch|..];
      for i := 0 to |arrivals|
        invariant Valid() && InHand() == |batch|
        invariant i == 0 ==> queue.Contents() == rest && dropped == old(dropped)
      {
        var queued := Enqueue(arrivals[i]);
      }
      if ok {
        delivered := delivered + |batch|;
      } else {
        RestoreBatch(batch);
      }
    }

    /** `drain` with no concurrent writes: `primary(n)` and `fallback(n)` say whether the n-th send
        returns, depending on where it goes. It ends, tries each batch at most twice, returns only
        when the queue is empty, and never tries again after the fallback has failed. */
    method Drain(primary: nat -> bool, fallback: nat -> bool)
      returns (ok: bool, done: seq<seq<Item>>, sends: nat)
      requires Valid() && Accounted()
      modifies this`dropped, this`failures, this`reconnectAttempts, this`delivered, this`offered, queue
      ensures Valid() && Accounted() && dropped == old(dropped)
      ensures Items(done) + queue.Contents() == old(queue.Contents())
      ensures ok ==> queue.Contents() == [] && sends <= 2 * |done|
      ensures !ok ==> queue.Contents() != [] && failures > 0 && 1 <= sends <= 2 * |done| + 2
      ensures !ok && ShouldUseFallback() ==> !fallback(sends - 1)
    {
      ok, done, sends := true, [], 0;
      ghost var retries := 0;
      assert Items(done) + queue.Contents() == queue.Contents();
      var length := queue.Length();
      while length > 0
        invariant Valid() && Accounted() && dropped == old(dropped) && length == |queue.Contents()|
        invariant Items(done) + queue.Contents() == old(queue.Contents())
        invariant retries <= 1 && sends <= 2 * |done| + retries
        invariant retries == 1 ==> ShouldUseFallback() && length > 0
        decreases length, if ShouldUseFallback() then 0 else 1
      {
        var usingFallback := ShouldUseFallback();
        var returned := if usingFallback then fallback(sends) else primary(sends);
        var batch := SendNext(returned, []);
        sends := sends + 1;
        length := queue.Length();
        if returned {
          failures := 0;
          reconnectAttempts := 0;
          ItemsSnoc(done, batch, queue.Contents());
          done := done + [batch];
          retries := 0;
        } else {
          failures := failures + 1;
          if usingFallback || !ShouldUseFallback() || !cfg.hasFallback {
            return false, done, sends;
          }
          retries := 1;
        }
      }
    }

    /** `drainToFallback`, used on exit and on close. */
    method DrainToFallback(fallback: nat -> bool) returns (ok: bool, done: seq<seq<Item>>)
      requires Valid() && Accounted()
      modifies this`dropped, this`delivered, this`offered, queue
      ensures Valid() && Accounted() && dropped == old(dropped)
      ensures Items(done) + queue.Contents() == old(queue.Contents())
      ensures ok == (queue.Contents() == [])
    {
      ok, done := true, [];
      assert Items(done) + queue.Contents() == queue.Contents();
      var length := queue.Length();
      while length > 0
        invariant Valid() && Accounted() && dropped == old(dropped) && length == |queue.Contents()|
        invariant Items(done) + queue.Contents() == old(queue.Contents())
        decreases length
      {
        var returned := fallback(|done|);
        var batch := SendNext(returned, []);
        if !returned { return false, done; }
        ItemsSnoc(done, batch, queue.Contents());
        done := done + [batch];
        length := queue.Length();
      }
    }
  }

  lemma WeightSnoc(queue: seq<Item>, n: nat)
    requires n < |queue|
    ensures Weight(queue[..n + 1]) == Weight(queue[..n]) + queue[n].bytes + 1
    ensures queue[..n + 1] == queue[..n] + [queue[n]]
  {
    assert queue[..n + 1][..n] == queue[..n];
  }
}
