/** The mutable object of `src/supabase-websocket-ingest.ts`. Every method is proved against the
    function of the same name in `IngestClient`; the whole drain loop is proved to end. */
module IngestTransport {
  import opened Common
  import opened IngestClient
  import Spec = IngestClient

  /** What the network does with one pass of the loop, seen from the client. */
  datatype Attempt = Unreachable | Unsent | Lost | Answered(message: Message)

  /** `maxReconnectAttempts + 1` tries for each of `batches` batches. */
  function TriesFor(cfg: Config, batches: nat): nat {
    if batches == 0 then 0 else TriesFor(cfg, batches - 1) + cfg.maxReconnectAttempts + 1
  }

  /** A committed batch moves from what is held to what is done. */
  lemma MoveOver(done: seq<Batch>, batch: Batch, before: seq<Queued>, after: seq<Queued>, all: seq<Queued>)
    requires BatchRecords(done) + before == all && batch.records + after == before
    ensures BatchRecords(done + [batch]) + after == all
  {
    BatchRecordsSnoc(done, batch);
    assert BatchRecords(done) + batch.records + after == BatchRecords(done) + (batch.records + after);
  }

  class Transport {
    const cfg: Config
    var queue: seq<Queued>
    var inFlight: Option<Batch>
    var socket: Socket
    var generation: nat
    var ackWaiter: Option<Waiter>
    /** The suspended loop: not a field of the source but the frame of its `async` function. */
    var flush: Flush
    var nextSequence: nat
    var lastAcknowledged: nat
    var accepted: nat
    var duplicates: nat
    var replayed: nat
    var dropped: nat
    var failures: nat
    var protocolErrors: nat
    var reconnects: nat
    var accepting: bool
    var closed: bool

    ghost function LinkView(): Link
      reads this
    {
      Link(socket, generation, ackWaiter, flush, failures, protocolErrors, reconnects)
    }

    ghost function WorkView(): Work
      reads this
    {
      Work(queue, inFlight, nextSequence, lastAcknowledged, accepted, duplicates, replayed, dropped)
    }

    constructor (cfg: Config)
      ensures Client(LinkView(), WorkView(), accepting, closed) == FRESH && this.cfg == cfg
    {
      this.cfg := cfg;
      queue, inFlight, socket, generation, ackWaiter, flush := [], None, Absent, 0, None, Idle;
      nextSequence, lastAcknowledged, accepted, duplicates, replayed := 1, 0, 0, 0, 0;
      dropped, failures, protocolErrors, reconnects, accepting, closed := 0, 0, 0, 0, true, false;
    }

    /** `recordId` is what `recordIdFactory` returns if it is asked. */
    method Enqueue(record: Record, recordId: string) returns (pushed: bool)
      modifies this`queue, this`dropped
      ensures WorkView() == Spec.Enqueue(cfg, old(WorkView()), accepting, record, recordId)
      ensures pushed == Admits(cfg, accepting, record)
    {
      if !accepting {
        dropped := dropped + 1;
        return false;
      }
      if !record.encodable {
        return false;
      }
      if record.bytes > cfg.maxRecordBytes {
        dropped := dropped + 1;
        return false;
      }
      if |queue| >= cfg.maxQueueSize && |queue| > 0 {
        queue := queue[1..];
        dropped := dropped + 1;
      }
      queue := queue + [Queued(recordId, record)];
      return true;
    }

    method CreateBatch(batchId: string) returns (batch: Batch)
      requires queue != []
      modifies this`queue
      ensures batch == NewBatch(cfg, old(WorkView()), batchId)
      ensures batch.records + queue == old(queue)
    {
      var size := Min(cfg.batchSize, |queue|);
      batch := Batch(batchId, nextSequence, queue[..size]);
      queue := queue[size..];
    }

    method RejectAck(generation: Option<nat>)
      modifies this`ackWaiter, this`flush
      ensures LinkView() == Spec.RejectAck(old(LinkView()), generation)
    {
      if ackWaiter.None? { return; }
      if generation.Some? && ackWaiter.value.generation != generation.value { return; }
      ackWaiter := None;
      if flush.Awaiting? { flush := Failed(flush.attempts); }
    }

    method Disconnect(generation: Option<nat>)
      modifies this`socket
      ensures LinkView() == Spec.Disconnect(old(LinkView()), generation)
    {
      if socket.Absent? { return; }
      if generation.Some? && this.generation != generation.value { return; }
      socket := Absent;
    }

    method ProtocolFailure(generation: nat)
      modifies this`ackWaiter, this`flush, this`socket, this`protocolErrors
      ensures LinkView() == Spec.ProtocolFailure(old(LinkView()), generation)
    {
      if generation != this.generation { return; }
      protocolErrors := protocolErrors + 1;
      RejectAck(Some(generation));
      Disconnect(Some(generation));
    }

    method HandleMessage(generation: nat, message: Message)
      modifies this`ackWaiter, this`flush, this`socket, this`protocolErrors
      ensures LinkView() == Spec.HandleMessage(old(LinkView()), generation, message)
    {
      if generation != this.generation { return; }
      match message
      case Malformed => ProtocolFailure(generation);
      case NotAnAck =>
      case CommitAck(ack) =>
        if ackWaiter.None? || ackWaiter.value.generation != generation {
          ProtocolFailure(generation);
        } else if ack.batchId != ackWaiter.value.batchId || ack.sequence != ackWaiter.value.sequence {
          ProtocolFailure(generation);
        } else {
          ackWaiter := None;
          if flush.Awaiting? { flush := Acknowledged(flush.attempts, ack); }
        }
    }

    method Commit(batch: Batch, ack: Ack) returns (ok: bool)
      modifies this`accepted, this`duplicates, this`lastAcknowledged, this`nextSequence, this`inFlight
      ensures WorkView() == Spec.Commit(old(WorkView()), batch, ack)
      ensures ok == Commits(batch, ack)
    {
      if ack.batchId != batch.batchId || ack.sequence != batch.sequence { return false; }
      if ack.accepted + ack.duplicates != |batch.records| { return false; }
      accepted := accepted + ack.accepted;
      duplicates := duplicates + ack.duplicates;
      lastAcknowledged := batch.sequence;
      nextSequence := batch.sequence + 1;
      inFlight := None;
      return true;
    }

    method SendAndWait(batch: Batch, sent: bool)
      requires flush.Connecting?
      modifies this`ackWaiter, this`flush
      ensures LinkView() == Spec.SendAndWait(old(LinkView()), batch, sent)
    {
      if socket != Open || ackWaiter.Some? {
        flush := Failed(flush.attempts);
        return;
      }
      ackWaiter := Some(Waiter(batch.batchId, batch.sequence, generation));
      flush := Awaiting(flush.attempts);
      if !sent {
        RejectAck(Some(generation));
      }
    }

    /** What holds whenever the loop looks at the queue: nobody waits, and the in-flight batch is
        the one the next sequence number belongs to. */
    ghost predicate AtRest()
      reads this
    {
      cfg.Valid() && ackWaiter.None? && nextSequence == lastAcknowledged + 1 &&
      (inFlight.Some? ==> inFlight.value.sequence == nextSequence)
    }

    /** `connect` followed by `sendAndWait`, with the network's part supplied. */
    method ConnectAndSend(batch: Batch, attempt: Attempt) returns (ack: Option<Ack>)
      requires ackWaiter.None? && flush.Connecting?
      modifies this`socket, this`generation, this`ackWaiter, this`flush, this`protocolErrors
      ensures ackWaiter.None?
      ensures ack.Some? <==> exists a :: attempt == Answered(CommitAck(a)) && Matches(a, batch.batchId, batch.sequence)
      ensures ack.Some? ==> attempt == Answered(CommitAck(ack.value))
    {
      if socket != Open {
        if attempt.Unreachable? {
          return None;
        }
        generation := generation + 1;
        socket := Open;
      }
      SendAndWait(batch, !attempt.Unsent?);
      if flush.Awaiting? && attempt.Answered? {
        HandleMessage(generation, attempt.message);
      }
      if flush.Awaiting? {
        RejectAck(Some(generation));
      }
      ack := if flush.Acknowledged? then Some(flush.ack) else None;
    }

    /** One iteration up to the `catch`: the batch it committed, if it did. */
    method Pass(attempts: nat, attempt: Attempt, batchId: string) returns (done: Option<Batch>)
      requires AtRest() && Outstanding(WorkView())
      modifies this
      ensures AtRest()
      ensures done.Some? ==>
                inFlight.None? && nextSequence == old(nextSequence) + 1 &&
                done.value.sequence == old(nextSequence) &&
                done.value.records + HeldBy(inFlight, queue) == old(HeldBy(inFlight, queue)) &&
                attempt.Answered? && attempt.message.CommitAck? && Commits(done.value, attempt.message.ack) &&
                (old(inFlight).Some? ==> done == old(inFlight)) &&
                |queue| < |old(queue)| + if old(inFlight).Some? then 1 else 0
      ensures done.None? ==>
                inFlight.Some? && nextSequence == old(nextSequence) &&
                HeldBy(inFlight, queue) == old(HeldBy(inFlight, queue)) &&
                (old(inFlight).Some? ==> inFlight == old(inFlight)) &&
                |queue| + 1 <= |old(queue)| + if old(inFlight).Some? then 1 else 0
    {
      if inFlight.Some? {
        replayed := replayed + 1;
      } else {
        var batch := CreateBatch(batchId);
        inFlight := Some(batch);
      }
      flush := Connecting(attempts);
      var batch := inFlight.value;
      var ack := ConnectAndSend(batch, attempt);
      if ack.Some? {
        var committed := Commit(batch, ack.value);
        if committed {
          return Some(batch);
        }
      }
      return None;
    }

    /** The `catch` block: whether the loop tries again. */
    method Backoff(attempts: nat) returns (again: bool)
      modifies this`failures, this`socket, this`reconnects
      ensures again == (attempts < cfg.maxReconnectAttempts)
      ensures failures == old(failures) + 1 && reconnects == old(reconnects) + if again then 1 else 0
      ensures socket.Absent?
    {
      failures := failures + 1;
      Disconnect(None);
      if attempts >= cfg.maxReconnectAttempts {
        return false;
      }
      reconnects := reconnects + 1;
      return true;
    }

    /** `drainWithReconnect` with nothing else running: `network(n)` is what happens to the n-th
        try and `batchIds(n)` names the n-th new batch. It ends, either with nothing outstanding
        or throwing with the in-flight batch kept, after at most `maxReconnectAttempts + 1` tries
        for each batch. */
    method DrainWithReconnect(network: nat -> Attempt, batchIds: nat -> string)
      returns (ok: bool, done: seq<Batch>, tries: nat)
      requires AtRest() && flush.Idle?
      modifies this
      ensures AtRest() && flush.Idle?
      ensures ok ==> !Outstanding(WorkView())
      ensures !ok ==> inFlight.Some? && tries >= cfg.maxReconnectAttempts + 1
      ensures !ok && done == [] && old(inFlight).Some? ==> inFlight == old(inFlight)
      ensures BatchRecords(done) + HeldBy(inFlight, queue) == old(HeldBy(inFlight, queue))
      ensures forall i :: 0 <= i < |done| ==> done[i].sequence == old(nextSequence) + i
      ensures nextSequence == old(nextSequence) + |done|
      ensures tries <= TriesFor(cfg, |done| + if ok then 0 else 1)
    {
      ok, done, tries := true, [], 0;
      assert BatchRecords(done) + HeldBy(inFlight, queue) == HeldBy(inFlight, queue);
      hide Commits, BatchRecords, HeldBy;
      var attempts := 0;
      while inFlight.Some? || |queue| > 0
        invariant AtRest()
        invariant attempts <= cfg.maxReconnectAttempts && attempts <= tries
        invariant attempts > 0 ==> inFlight.Some?
        invariant nextSequence == old(nextSequence) + |done|
        invariant done == [] && old(inFlight).Some? ==> inFlight == old(inFlight)
        invariant BatchRecords(done) + HeldBy(inFlight, queue) == old(HeldBy(inFlight, queue))
        invariant forall i :: 0 <= i < |done| ==> done[i].sequence == old(nextSequence) + i
        invariant tries <= TriesFor(cfg, |done|) + attempts
        decreases |queue| + (if inFlight.Some? then 1 else 0), cfg.maxReconnectAttempts - attempts
      {
        ghost var before := HeldBy(inFlight, queue);
        var batch := Pass(attempts, network(tries), batchIds(|done|));
        tries := tries + 1;
        if batch.Some? {
          MoveOver(done, batch.value, before, HeldBy(inFlight, queue), old(HeldBy(inFlight, queue)));
          done := done + [batch.value];
          attempts := 0;
        } else {
          var again := Backoff(attempts);
          if !again {
            flush := Idle;
            return false, done, tries;
          }
          attempts := attempts + 1;
        }
      }
      flush := Idle;
    }
  }
}
