/** What `src/supabase-realtime-batch.ts` puts into a batch and what it takes back. */
module BatchPolicy {
  /** `bytes` is the UTF-8 size of the record's JSON text. */
  datatype Item = Item(ticket: nat, bytes: nat)

  const ENVELOPE_BYTES := 768

  datatype Config = Config(
    batchSize: nat, maxQueueSize: nat, maxRecordBytes: nat, maxBatchBytes: nat, fallbackAfterFailures: nat,
      hasFallback: bool) {
    /** What the constructor guarantees: `maxRecordBytes` leaves room for the envelope. */
    predicate Valid() {
      1 <= batchSize && 1 <= maxQueueSize && 1_024 <= maxBatchBytes &&
      1 <= maxRecordBytes <= maxBatchBytes - ENVELOPE_BYTES
    }
  }

  function Sum(items: seq<Item>): nat {
    if items == [] then 0 else Sum(items[..|items| - 1]) + items[|items| - 1].bytes
  }

  /** The running total of `takeBatch`: the envelope, and each record with a separator. */
  function Weight(items: seq<Item>): nat { ENVELOPE_BYTES + Sum(items) + |items| }

  /** The batch as it goes out has no separator after the last record. */
  function WireBytes(items: seq<Item>): nat
    requires items != []
  {
    ENVELOPE_BYTES + Sum(items) + (|items| - 1)
  }

  /** Whether the loop of `takeBatch` takes one more record after `n`. */
  predicate TakesMore(cfg: Config, queue: seq<Item>, n: nat) {
    n < cfg.batchSize && n < |queue| && (n > 0 ==> Weight(queue[..n + 1]) <= cfg.maxBatchBytes)
  }

  function Count(cfg: Config, queue: seq<Item>, n: nat): (r: nat)
    requires n <= |queue|
    ensures n <= r <= |queue|
    decreases |queue| - n
  {
    if TakesMore(cfg, queue, n) then Count(cfg, queue, n + 1) else n
  }

  /** The size of the next batch. */
  function BatchLength(cfg: Config, queue: seq<Item>): (r: nat)
    ensures r <= |queue|
  {
    Count(cfg, queue, 0)
  }

  /** Every queued record passed the size check on admission. */
  ghost predicate Sized(cfg: Config, queue: seq<Item>) {
    forall i :: 0 <= i < |queue| ==> queue[i].bytes <= cfg.maxRecordBytes
  }

  lemma {:induction false} SumPrefix(items: seq<Item>, n: nat)
    requires n <= |items|
    ensures Sum(items[..n]) <= Sum(items)
  {
    if n < |items| {
      assert items[..|items| - 1][..n] == items[..n];
      SumPrefix(items[..|items| - 1], n);
    } else {
      assert items[..n] == items;
    }
  }

  lemma {:induction false} CountIsGreedy(cfg: Config, queue: seq<Item>, n: nat)
    requires n <= |queue| && n <= cfg.batchSize && (n > 1 ==> Weight(queue[..n]) <= cfg.maxBatchBytes)
    ensures
      var r := Count(cfg, queue, n);
      r <= cfg.batchSize && !TakesMore(cfg, queue, r) && (r > 1 ==> Weight(queue[..r]) <= cfg.maxBatchBytes) &&
      (forall k :: n <= k < r ==> TakesMore(cfg, queue, k))
    decreases |queue| - n
  {
    if TakesMore(cfg, queue, n) { CountIsGreedy(cfg, queue, n + 1); }
  }

  /** Every batch is a non-empty prefix of at most `batchSize` records that fits the byte limit on
      the wire, and it is the longest one: one more record would break a limit or does not exist. */
  lemma BatchesFit(cfg: Config, queue: seq<Item>)
    requires cfg.Valid() && Sized(cfg, queue) && queue != []
    ensures
      var n := BatchLength(cfg, queue);
      1 <= n <= cfg.batchSize && WireBytes(queue[..n]) <= cfg.maxBatchBytes &&
      (n == cfg.batchSize || n == |queue| || Weight(queue[..n + 1]) > cfg.maxBatchBytes)
  {
    CountIsGreedy(cfg, queue, 0);
    var n := BatchLength(cfg, queue);
    assert TakesMore(cfg, queue, 0);
    assert queue[..1] == [queue[0]] && Sum([queue[0]]) == queue[0].bytes by { assert [queue[0]][..0] == []; }
  }

  /** What `restoreBatch` leaves in the queue; the rest is dropped from the back. */
  function Restored(cfg: Config, batch: seq<Item>, queue: seq<Item>): seq<Item> {
    var all := batch + queue;
    if |all| <= cfg.maxQueueSize then all else all[..cfg.maxQueueSize]
  }

  function RestoreDrops(cfg: Config, batch: seq<Item>, queue: seq<Item>): nat {
    |batch| + |queue| - |Restored(cfg, batch, queue)|
  }

  /** A failed batch goes out again at the head of the next one, whatever was queued meanwhile. */
  lemma RetakeExtendsTheBatch(cfg: Config, before: seq<Item>, refill: seq<Item>)
    requires cfg.Valid() && |before| <= cfg.maxQueueSize
    ensures
      var batch := before[..BatchLength(cfg, before)];
      var again := Restored(cfg, batch, before[|batch|..] + refill);
      |batch| <= BatchLength(cfg, again) && again[..|batch|] == batch
  {
    var batch := before[..BatchLength(cfg, before)];
    var again := Restored(cfg, batch, before[|batch|..] + refill);
    CountIsGreedy(cfg, before, 0);
    assert again[..|batch|] == batch;
    forall k | 0 <= k < |batch| ensures TakesMore(cfg, again, k) {
      assert TakesMore(cfg, before, k);
      assert again[..k + 1] == before[..k + 1];
    }
    CountReaches(cfg, again, 0, |batch|);
  }

  lemma {:induction false} CountReaches(cfg: Config, queue: seq<Item>, n: nat, target: nat)
    requires n <= target <= |queue| && forall k :: n <= k < target ==> TakesMore(cfg, queue, k)
    ensures Count(cfg, queue, n) >= target
    decreases target - n
  {
    if n < target { CountReaches(cfg, queue, n + 1, target); }
  }

  /** With nothing queued meanwhile, restoring a batch is exactly undoing its taking. */
  lemma RestoreUndoesTake(cfg: Config, before: seq<Item>)
    requires |before| <= cfg.maxQueueSize
    ensures
      var n := BatchLength(cfg, before);
      Restored(cfg, before[..n], before[n..]) == before && RestoreDrops(cfg, before[..n], before[n..]) == 0
  {
    var n := BatchLength(cfg, before);
    assert before[..n] + before[n..] == before;
  }
}
