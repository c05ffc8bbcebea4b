/** The client half of `src/supabase-websocket-ingest.ts`: a stop-and-wait transport that keeps
    one batch in flight and replays exactly that batch until its commit ACK arrives.

    `Client` is the transport's state as a value and the functions below say what each
    synchronous stretch of the source does to it. The mutable object is `IngestTransport.Transport`. */
module IngestClient {
  import opened Common

  datatype Config = Config(batchSize: nat, maxQueueSize: nat, maxRecordBytes: nat, maxReconnectAttempts: nat) {
    /** What the `integer(value, fallback, minimum)` defaults guarantee. */
    predicate Valid() {
      1 <= batchSize && 1 <= maxQueueSize && 1 <= maxRecordBytes
    }
  }

  datatype Queued = Queued(recordId: string, record: Record)

  datatype Batch = Batch(batchId: string, sequence: nat, records: seq<Queued>)

  datatype Ack = Ack(batchId: string, sequence: nat, accepted: nat, duplicates: nat)

  /** What `parseMessage` and `isCommitAck` make of an inbound frame. */
  datatype Message = Malformed | NotAnAck | CommitAck(ack: Ack)

  datatype Waiter = Waiter(batchId: string, sequence: nat, generation: nat)

  datatype Socket = Absent | Opening | Open | Closing

  /** Where the asynchronous loop of `drainWithReconnect` (or of `flushOnExit`) is suspended. */
  datatype Flush =
    | Idle
    | Head(attempts: nat)
    | Connecting(attempts: nat)
    | Awaiting(attempts: nat)
    | Acknowledged(attempts: nat, ack: Ack)
    | Failed(attempts: nat)
    | Delaying(attempts: nat)
    | ExitHead
    | ExitAwaiting

  /** The connection and the coroutine that uses it. */
  datatype Link = Link(
    socket: Socket, generation: nat, waiter: Option<Waiter>, flush: Flush,
    failures: nat, protocolErrors: nat, reconnects: nat)

  /** The records and the sequence numbers. */
  datatype Work = Work(
    queue: seq<Queued>, inFlight: Option<Batch>, nextSequence: nat, lastAcknowledged: nat,
    accepted: nat, duplicates: nat, replayed: nat, dropped: nat)

  datatype Client = Client(link: Link, work: Work, accepting: bool, closed: bool)

  const FRESH := Client(Link(Absent, 0, None, Idle, 0, 0, 0), Work([], None, 1, 0, 0, 0, 0, 0), true, false)

  /** The records of a list of batches, in order. */
  function BatchRecords(batches: seq<Batch>): seq<Queued> {
    if batches == [] then [] else BatchRecords(batches[..|batches| - 1]) + batches[|batches| - 1].records
  }

  lemma BatchRecordsSnoc(batches: seq<Batch>, last: Batch)
    ensures BatchRecords(batches + [last]) == BatchRecords(batches) + last.records
  {
    assert (batches + [last])[..|batches|] == batches;
  }

  // ---------------------------------------------------------------- queue

  predicate Admits(cfg: Config, accepting: bool, record: Record) {
    accepting && record.encodable && record.bytes <= cfg.maxRecordBytes
  }

  predicate Full(cfg: Config, w: Work) {
    cfg.maxQueueSize <= |w.queue| && w.queue != []
  }

  /** A closed transport counts the drop before `JSON.stringify` runs; an unencodable record
      throws without changing anything. */
  function Enqueue(cfg: Config, w: Work, accepting: bool, record: Record, recordId: string): Work {
    if !accepting then w.(dropped := w.dropped + 1)
    else if !record.encodable then w
    else if record.bytes > cfg.maxRecordBytes then w.(dropped := w.dropped + 1)
    else if Full(cfg, w) then w.(queue := w.queue[1..] + [Queued(recordId, record)], dropped := w.dropped + 1)
    else w.(queue := w.queue + [Queued(recordId, record)])
  }

  function Min(a: nat, b: nat): nat { if a <= b then a else b }

  function NewBatch(cfg: Config, w: Work, batchId: string): Batch {
    Batch(batchId, w.nextSequence, w.queue[..Min(cfg.batchSize, |w.queue|)])
  }

  /** `inFlight ?? createBatch()`, stored back into `inFlight`. */
  function TakeBatch(cfg: Config, w: Work, batchId: string): Work {
    if w.inFlight.Some? || w.queue == [] then w
    else w.(queue := w.queue[Min(cfg.batchSize, |w.queue|)..], inFlight := Some(NewBatch(cfg, w, batchId)))
  }

  predicate Outstanding(w: Work) {
    w.inFlight.Some? || w.queue != []
  }

  function HeldBy(inFlight: Option<Batch>, queue: seq<Queued>): seq<Queued> {
    (if inFlight.Some? then inFlight.value.records else []) + queue
  }

  function Held(w: Work): seq<Queued> { HeldBy(w.inFlight, w.queue) }

  predicate Matches(ack: Ack, batchId: string, sequence: nat) {
    ack.batchId == batchId && ack.sequence == sequence
  }

  predicate Commits(batch: Batch, ack: Ack) {
    Matches(ack, batch.batchId, batch.sequence) && ack.accepted + ack.duplicates == |batch.records|
  }

  /** `commit` throws, changing nothing, unless the ACK accounts for the whole batch. */
  function Commit(w: Work, batch: Batch, ack: Ack): Work {
    if !Commits(batch, ack) then w
    else w.(accepted := w.accepted + ack.accepted, duplicates := w.duplicates + ack.duplicates,
            lastAcknowledged := batch.sequence, nextSequence := batch.sequence + 1, inFlight := None)
  }

  // ---------------------------------------------------------------- link

  function RejectAck(l: Link, generation: Option<nat>): Link {
    if l.waiter.None? || (generation.Some? && l.waiter.value.generation != generation.value) then l
    else l.(waiter := None, flush := if l.flush.Awaiting? then Failed(l.flush.attempts) else l.flush)
  }

  function Disconnect(l: Link, generation: Option<nat>): Link {
    if l.socket.Absent? || (generation.Some? && l.generation != generation.value) then l
    else l.(socket := Absent)
  }

  function ProtocolFailure(l: Link, generation: nat): Link {
    if generation != l.generation then l
    else Disconnect(RejectAck(l.(protocolErrors := l.protocolErrors + 1), Some(generation)), Some(generation))
  }

  function HandleMessage(l: Link, generation: nat, message: Message): Link {
    if generation != l.generation then l
    else match message
      case Malformed => ProtocolFailure(l, generation)
      case NotAnAck => l
      case CommitAck(ack) =>
        if l.waiter.None? || l.waiter.value.generation != generation
           || !Matches(ack, l.waiter.value.batchId, l.waiter.value.sequence)
        then ProtocolFailure(l, generation)
        else l.(waiter := None,
                flush := if l.flush.Awaiting? then Acknowledged(l.flush.attempts, ack) else l.flush)
  }

  function OpenSocket(l: Link): Link {
    if l.flush.Connecting? && l.socket != Open
    then l.(generation := l.generation + 1, socket := Opening) else l
  }

  function SocketOpened(l: Link): Link {
    if l.socket.Opening? then l.(socket := Open) else l
  }

  function ConnectFailed(l: Link): Link {
    if l.flush.Connecting?
    then l.(socket := if l.socket.Opening? then Absent else l.socket, flush := Failed(l.flush.attempts)) else l
  }

  predicate CanSend(l: Link) {
    l.flush.Connecting? && l.socket.Open? && l.waiter.None?
  }

  /** Installs the waiter and sends; a send that throws rejects the waiter at once. */
  function SendAndWait(l: Link, batch: Batch, sent: bool): Link {
    if !l.flush.Connecting? then l
    else if !CanSend(l) || !sent then l.(flush := Failed(l.flush.attempts))
    else l.(waiter := Some(Waiter(batch.batchId, batch.sequence, l.generation)),
            flush := Awaiting(l.flush.attempts))
  }

  /** `readyState` leaves OPEN before the close event arrives. */
  function SocketStalls(l: Link): Link {
    if l.socket.Open? then l.(socket := Closing) else l
  }

  /** The current socket closed or failed. */
  function SocketDown(l: Link): Link {
    if l.socket.Absent? then l
    else if l.socket.Opening? && l.flush.Connecting? then l.(socket := Absent, flush := Failed(l.flush.attempts))
    else RejectAck(l.(socket := Absent), Some(l.generation))
  }

  /** The `catch` block of `drainWithReconnect`. */
  function Catch(cfg: Config, l: Link): Link {
    if !l.flush.Failed? then l
    else
      var d := Disconnect(l.(failures := l.failures + 1), None);
      if l.flush.attempts >= cfg.maxReconnectAttempts then d.(flush := Idle)
      else d.(reconnects := d.reconnects + 1, flush := Delaying(l.flush.attempts + 1))
  }

  // ---------------------------------------------------------------- the coroutines

  function StartFlush(c: Client): Client {
    if c.link.flush.Idle? then c.(link := c.link.(flush := Head(0))) else c
  }

  function LoopHead(cfg: Config, c: Client, batchId: string): Client {
    if !c.link.flush.Head? then c
    else if !Outstanding(c.work) then c.(link := c.link.(flush := Idle))
    else
      var replay := if c.work.inFlight.Some? then 1 else 0;
      c.(work := TakeBatch(cfg, c.work, batchId).(replayed := c.work.replayed + replay),
         link := c.link.(flush := Connecting(c.link.flush.attempts)))
  }

  predicate AcksInFlight(c: Client) {
    c.link.flush.Acknowledged? && c.work.inFlight.Some? && Commits(c.work.inFlight.value, c.link.flush.ack)
  }

  function CommitStep(c: Client): Client {
    if !c.link.flush.Acknowledged? then c
    else if AcksInFlight(c) then
      c.(work := Commit(c.work, c.work.inFlight.value, c.link.flush.ack), link := c.link.(flush := Head(0)))
    else c.(link := c.link.(flush := Failed(c.link.flush.attempts)))
  }

  function DelayOver(c: Client): Client {
    if c.link.flush.Delaying? then c.(link := c.link.(flush := Head(c.link.flush.attempts))) else c
  }

  /** `flushOnExit` with a fallback. */
  function StartExit(c: Client): Client {
    if c.link.flush.Idle? then c.(link := c.link.(flush := ExitHead)) else c
  }

  predicate ExitTakes(c: Client) {
    c.link.flush.ExitHead? && Outstanding(c.work)
  }

  function ExitLoop(cfg: Config, c: Client, batchId: string): Client {
    if !c.link.flush.ExitHead? then c
    else if !Outstanding(c.work) then c.(link := c.link.(flush := Idle))
    else c.(work := TakeBatch(cfg, c.work, batchId), link := c.link.(flush := ExitAwaiting))
  }

  predicate ExitCommits(c: Client, ack: Ack) {
    c.link.flush.ExitAwaiting? && c.work.inFlight.Some? && Commits(c.work.inFlight.value, ack)
  }

  function ExitReply(c: Client, ack: Ack): Client {
    if !c.link.flush.ExitAwaiting? then c
    else if ExitCommits(c, ack) then
      c.(work := Commit(c.work, c.work.inFlight.value, ack), link := c.link.(flush := ExitHead))
    else c.(link := c.link.(flush := Idle))
  }

  function ExitFailed(c: Client): Client {
    if c.link.flush.ExitAwaiting? then c.(link := c.link.(flush := Idle)) else c
  }

  function BeginClose(c: Client): Client { c.(accepting := false) }

  /** The `finally` of `close`: it does not ask whether another flush was started meanwhile. */
  function EndClose(c: Client): Client {
    if c.accepting then c else c.(closed := true, link := RejectAck(c.link, None).(socket := Absent))
  }

  // ---------------------------------------------------------------- one-call properties

  /** A frame from any generation but the current one changes nothing, and only an ACK that names
      the awaited batch on the current connection acknowledges it. */
  lemma OnlyTheAwaitedAckCounts(l: Link, generation: nat, message: Message)
    ensures generation != l.generation ==> HandleMessage(l, generation, message) == l
    ensures
      var d := HandleMessage(l, generation, message);
      !l.flush.Acknowledged? && d.flush.Acknowledged? <==>
        generation == l.generation && l.flush.Awaiting? && message.CommitAck? && l.waiter.Some? &&
        l.waiter.value.generation == generation &&
        Matches(message.ack, l.waiter.value.batchId, l.waiter.value.sequence)
    ensures
      var d := HandleMessage(l, generation, message);
      !l.flush.Acknowledged? && d.flush.Acknowledged? ==> message == CommitAck(d.flush.ack)
  {
  }
}
