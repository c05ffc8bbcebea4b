/** The ingest client, an adversarial network and the deduplicating server as one machine.

    A run is any sequence of events; an event that cannot happen in a state leaves it unchanged.
    The network may delay, lose, repeat and reorder everything, and may deliver an ACK on any
    connection. The server applies a batch it has received at any later time, any number of times. */
module IngestSystem {
  import opened Common
  import opened IngestClient

  /** Events that move only the connection and the suspended loop. */
  datatype LinkEvent =
    | Flush
    | OpenSocket
    | SocketOpened
    | ConnectFailed
    | SocketStalls
    | SocketDown
    | Deliver(generation: nat, message: Message)
    | AckTimeout(generation: nat)
    | Catch
    | DelayOver
    | StartExit
    | ExitFailed
    | BeginClose
    | EndClose

  datatype Event =
    | Write(record: Record, recordId: string)
    | LoopHead(batchId: string)
    | Send(ok: bool)
    | CommitAcked
    | ExitLoop(batchId: string)
    | ExitReply(ack: Ack)
    | ServerApplies(index: nat)
    | OnLink(link: LinkEvent)

  /** `sent`, `acks`, `committed`, `admitted` and `kept` are history: every batch handed to the
      network, every ACK the server gave out, every batch the client committed, every record
      pushed on the queue, the positions in `admitted` of the records not evicted, and how many
      records were refused at the door. */
  datatype World = World(
    client: Client,
    sent: seq<Batch>,
    acks: set<Ack>,
    log: seq<Queued>,
    committed: seq<Batch>,
    admitted: seq<Queued>,
    kept: seq<nat>,
    refused: nat)

  const START := World(FRESH, [], {}, [], [], [], [], 0)

  // ---------------------------------------------------------------- server

  ghost predicate HasId(log: seq<Queued>, recordId: string) {
    exists i :: 0 <= i < |log| && log[i].recordId == recordId
  }

  ghost predicate HasIds(log: seq<Queued>, records: seq<Queued>) {
    forall i :: 0 <= i < |records| ==> HasId(log, records[i].recordId)
  }

  /** `insert ... on conflict (record_id) do nothing`, row by row. */
  ghost function Absorb(log: seq<Queued>, records: seq<Queued>): seq<Queued> {
    if records == [] then log
    else
      var rest := Absorb(log, records[..|records| - 1]);
      var last := records[|records| - 1];
      if HasId(rest, last.recordId) then rest else rest + [last]
  }

  /** The commit acknowledgement: rows inserted, and the rest of the batch as duplicates. */
  ghost function Receipt(log: seq<Queued>, batch: Batch): Ack
    requires |Absorb(log, batch.records)| - |log| <= |batch.records| && |log| <= |Absorb(log, batch.records)|
  {
    var inserted := |Absorb(log, batch.records)| - |log|;
    Ack(batch.batchId, batch.sequence, inserted, |batch.records| - inserted)
  }

  // ---------------------------------------------------------------- transitions

  function DropAt(order: seq<nat>, k: nat): seq<nat> {
    if k < |order| then order[..k] + order[k + 1..] else order
  }

  function Push(cfg: Config, w: World, record: Record, recordId: string): World {
    var c := w.client;
    var next := w.(client := c.(work := IngestClient.Enqueue(cfg, c.work, c.accepting, record, recordId)));
    if !Admits(cfg, c.accepting, record) then
      next.(refused := w.refused + next.client.work.dropped - c.work.dropped)
    else
      var oldest := |BatchRecords(w.committed)| + |Held(c.work)| - |c.work.queue|;
      var order := if Full(cfg, c.work) then DropAt(w.kept, oldest) else w.kept;
      next.(admitted := w.admitted + [Queued(recordId, record)], kept := order + [|w.admitted|])
  }

  function Transmit(w: World, ok: bool): World {
    var c := w.client;
    if c.work.inFlight.None? then w
    else
      var next := w.(client := c.(link := SendAndWait(c.link, c.work.inFlight.value, ok)));
      if CanSend(c.link) && ok then next.(sent := w.sent + [c.work.inFlight.value]) else next
  }

  function CommitNow(w: World): World {
    var next := w.(client := CommitStep(w.client));
    if AcksInFlight(w.client) then next.(committed := w.committed + [w.client.work.inFlight.value]) else next
  }

  function ExitTurn(cfg: Config, w: World, batchId: string): World {
    var next := w.(client := IngestClient.ExitLoop(cfg, w.client, batchId));
    if ExitTakes(w.client) && next.client.work.inFlight.Some?
    then next.(sent := w.sent + [next.client.work.inFlight.value]) else next
  }

  function ExitAnswer(w: World, ack: Ack): World {
    if ack !in w.acks then w
    else
      var next := w.(client := IngestClient.ExitReply(w.client, ack));
      if ExitCommits(w.client, ack) then next.(committed := w.committed + [w.client.work.inFlight.value]) else next
  }

  /** A connection carries only ACKs the server gave out, and only while it is current. */
  function Receive(w: World, generation: nat, message: Message): Link {
    if w.client.link.socket.Absent? || (message.CommitAck? && message.ack !in w.acks) then w.client.link
    else HandleMessage(w.client.link, generation, message)
  }

  function LinkNext(cfg: Config, w: World, e: LinkEvent): Client {
    var c := w.client;
    match e
    case Flush => StartFlush(c)
    case OpenSocket => c.(link := IngestClient.OpenSocket(c.link))
    case SocketOpened => c.(link := IngestClient.SocketOpened(c.link))
    case ConnectFailed => c.(link := IngestClient.ConnectFailed(c.link))
    case SocketStalls => c.(link := IngestClient.SocketStalls(c.link))
    case SocketDown => c.(link := IngestClient.SocketDown(c.link))
    case Deliver(generation, message) => c.(link := Receive(w, generation, message))
    case AckTimeout(generation) => c.(link := RejectAck(c.link, Some(generation)))
    case Catch => c.(link := IngestClient.Catch(cfg, c.link))
    case DelayOver => IngestClient.DelayOver(c)
    case StartExit => IngestClient.StartExit(c)
    case ExitFailed => IngestClient.ExitFailed(c)
    case BeginClose => IngestClient.BeginClose(c)
    case EndClose => IngestClient.EndClose(c)
  }

  ghost function Apply(w: World, index: nat): World {
    if index >= |w.sent| then w
    else
      AbsorbGrows(w.log, w.sent[index].records);
      w.(log := Absorb(w.log, w.sent[index].records), acks := w.acks + {Receipt(w.log, w.sent[index])})
  }

  ghost function Next(cfg: Config, w: World, e: Event): World {
    match e
    case Write(record, recordId) => Push(cfg, w, record, recordId)
    case LoopHead(batchId) => w.(client := IngestClient.LoopHead(cfg, w.client, batchId))
    case Send(ok) => Transmit(w, ok)
    case CommitAcked => CommitNow(w)
    case ExitLoop(batchId) => ExitTurn(cfg, w, batchId)
    case ExitReply(ack) => ExitAnswer(w, ack)
    case ServerApplies(index) => Apply(w, index)
    case OnLink(link) => w.(client := LinkNext(cfg, w, link))
  }

  ghost function Run(cfg: Config, events: seq<Event>): World {
    if events == [] then START
    else Next(cfg, Run(cfg, events[..|events| - 1]), events[|events| - 1])
  }

  ghost predicate Reachable(cfg: Config, w: World) {
    exists events :: w == Run(cfg, events)
  }

  // ---------------------------------------------------------------- facts about the server

  lemma AbsorbGrows(log: seq<Queued>, records: seq<Queued>)
    ensures log <= Absorb(log, records)
    ensures |Absorb(log, records)| <= |log| + |records|
  {
    if records != [] { AbsorbGrows(log, records[..|records| - 1]); }
  }

  lemma HasIdMonotone(log: seq<Queued>, more: seq<Queued>)
    requires log <= more
    ensures forall recordId :: HasId(log, recordId) ==> HasId(more, recordId)
  {
  }

  lemma {:induction false} AbsorbHolds(log: seq<Queued>, records: seq<Queued>)
    ensures HasIds(Absorb(log, records), records)
  {
    if records != [] {
      var init := records[..|records| - 1];
      AbsorbHolds(log, init);
      var rest := Absorb(log, init);
      assert rest <= Absorb(log, records);
      HasIdMonotone(rest, Absorb(log, records));
      forall i | 0 <= i < |records| ensures HasId(Absorb(log, records), records[i].recordId) {
        if i < |init| { assert init[i] == records[i]; }
        else if !HasId(rest, records[i].recordId) { assert Absorb(log, records)[|rest|] == records[i]; }
      }
    }
  }

  lemma {:induction false} AbsorbKnown(log: seq<Queued>, records: seq<Queued>)
    requires HasIds(log, records)
    ensures Absorb(log, records) == log
  {
    if records != [] {
      var init := records[..|records| - 1];
      assert forall i :: 0 <= i < |init| ==> init[i] == records[i];
      AbsorbKnown(log, init);
    }
  }

  lemma {:induction false} AbsorbAppend(log: seq<Queued>, a: seq<Queued>, b: seq<Queued>)
    ensures Absorb(log, a + b) == Absorb(Absorb(log, a), b)
  {
    if b == [] {
      assert a + b == a;
    } else {
      var init := b[..|b| - 1];
      assert (a + b)[..|a + b| - 1] == a + init;
      AbsorbAppend(log, a, init);
    }
  }

  ghost predicate DistinctIds(log: seq<Queued>) {
    forall i, j :: 0 <= i < j < |log| ==> log[i].recordId != log[j].recordId
  }

  lemma {:induction false} AbsorbDistinct(log: seq<Queued>, records: seq<Queued>)
    requires DistinctIds(log)
    ensures DistinctIds(Absorb(log, records))
  {
    if records != [] { AbsorbDistinct(log, records[..|records| - 1]); }
  }

  /** Only given records come into the log. */
  lemma {:induction false} AbsorbFrom(log: seq<Queued>, records: seq<Queued>, q: Queued)
    requires q in Absorb(log, records)
    ensures q in log || q in records
  {
    if records != [] && q !in log && q != records[|records| - 1] {
      AbsorbFrom(log, records[..|records| - 1], q);
    }
  }

  // ---------------------------------------------------------------- the invariant, in parts

  predicate Busy(f: Flush) {
    f.Connecting? || f.Awaiting? || f.Acknowledged? || f.Failed? || f.Delaying? || f.ExitAwaiting?
  }

  /** The in-flight batch and the coroutine agree about what is being waited for. */
  ghost predicate LinkInv(w: World) {
    var l, work := w.client.link, w.client.work;
    (Busy(l.flush) ==> work.inFlight.Some?) &&
    (l.waiter.Some? <==> l.flush.Awaiting?) &&
    (l.waiter.Some? ==>
       l.waiter.value == Waiter(work.inFlight.value.batchId, work.inFlight.value.sequence, l.generation)) &&
    (l.flush.Acknowledged? ==>
       l.flush.ack in w.acks && Matches(l.flush.ack, work.inFlight.value.batchId, work.inFlight.value.sequence))
  }

  /** Sequence numbers are 1, 2, 3, ... without gap or repeat. */
  ghost predicate SequenceInv(cfg: Config, w: World) {
    var work := w.client.work;
    work.lastAcknowledged == |w.committed| && work.nextSequence == |w.committed| + 1 &&
    (forall i :: 0 <= i < |w.committed| ==> w.committed[i].sequence == i + 1) &&
    (work.inFlight.Some? ==>
       work.inFlight.value.sequence == work.nextSequence &&
       1 <= |work.inFlight.value.records| <= cfg.batchSize) &&
    |work.queue| <= cfg.maxQueueSize &&
    work.accepted + work.duplicates == |BatchRecords(w.committed)|
  }

  /** `batch` is the batch its sequence number was given to. */
  ghost predicate Owned(w: World, batch: Batch) {
    (1 <= batch.sequence <= |w.committed| && batch == w.committed[batch.sequence - 1]) ||
    w.client.work.inFlight == Some(batch)
  }

  /** Only owned batches are ever sent, whatever is committed is in the log, and every ACK is
      about a batch that was sent and is in the log. */
  ghost predicate WireInv(w: World) {
    (forall i :: 0 <= i < |w.sent| ==> Owned(w, w.sent[i])) &&
    (forall i :: 0 <= i < |w.committed| ==> HasIds(w.log, w.committed[i].records)) &&
    (forall ack :: ack in w.acks ==> Backed(w, ack))
  }

  ghost predicate Backed(w: World, ack: Ack) {
    exists i :: 0 <= i < |w.sent| &&
                Matches(ack, w.sent[i].batchId, w.sent[i].sequence) && HasIds(w.log, w.sent[i].records)
  }

  function Outbound(w: World): seq<Queued> {
    BatchRecords(w.committed) + Held(w.client.work)
  }

  /** `out` is what is left of `admitted` when only the positions in `kept` are looked at. */
  ghost predicate Embeds(kept: seq<nat>, admitted: seq<Queued>, out: seq<Queued>) {
    |kept| == |out| &&
    (forall i :: 0 <= i < |kept| ==> kept[i] < |admitted| && admitted[kept[i]] == out[i]) &&
    (forall i, j :: 0 <= i < j < |kept| ==> kept[i] < kept[j])
  }

  /** Committed, in flight and queued records are, in this order, the admitted records that were
      not evicted, in admission order. */
  ghost predicate FifoInv(w: World) {
    Embeds(w.kept, w.admitted, Outbound(w))
  }

  /** Every reported drop is an eviction or a refusal. */
  ghost predicate DropInv(w: World) {
    w.client.work.dropped == w.refused + |w.admitted| - |w.kept|
  }

  /** The server's log is exactly what the client has committed, or that plus the in-flight batch. */
  ghost predicate Agreement(w: World) {
    var done := Absorb([], BatchRecords(w.committed));
    w.log == done ||
    (w.client.work.inFlight.Some? && w.log == Absorb(done, w.client.work.inFlight.value.records))
  }

  ghost predicate CoreInv(cfg: Config, w: World) {
    LinkInv(w) && SequenceInv(cfg, w) && WireInv(w) && FifoInv(w) && DropInv(w)
  }

  // ---------------------------------------------------------------- every event keeps it

  lemma LinkNextKeepsLink(cfg: Config, w: World, e: LinkEvent)
    requires LinkInv(w)
    ensures LinkInv(w.(client := LinkNext(cfg, w, e))) && LinkNext(cfg, w, e).work == w.client.work
  {
  }

  lemma LinkKeeps(cfg: Config, w: World, client: Client)
    requires CoreInv(cfg, w) && client.work == w.client.work && LinkInv(w.(client := client))
    ensures CoreInv(cfg, w.(client := client)) && (Agreement(w) ==> Agreement(w.(client := client)))
  {
    var next := w.(client := client);
    assert forall batch :: Owned(w, batch) ==> Owned(next, batch);
    forall ack | ack in next.acks ensures Backed(next, ack) { assert Backed(w, ack); }
  }

  lemma PushKeeps(cfg: Config, w: World, record: Record, recordId: string)
    requires cfg.Valid() && CoreInv(cfg, w)
    ensures CoreInv(cfg, Push(cfg, w, record, recordId))
    ensures Agreement(w) ==> Agreement(Push(cfg, w, record, recordId))
  {
    var next := Push(cfg, w, record, recordId);
    assert next.client.work.inFlight == w.client.work.inFlight;
    assert forall batch :: Owned(w, batch) ==> Owned(next, batch);
    forall ack | ack in next.acks ensures Backed(next, ack) { assert Backed(w, ack); }
    PushKeepsOrder(cfg, w, record, recordId);
  }

  lemma EmbedsPush(kept: seq<nat>, admitted: seq<Queued>, out: seq<Queued>, q: Queued)
    requires Embeds(kept, admitted, out)
    ensures Embeds(kept + [|admitted|], admitted + [q], out + [q])
  {
  }

  lemma EmbedsDrop(kept: seq<nat>, admitted: seq<Queued>, out: seq<Queued>, k: nat)
    requires Embeds(kept, admitted, out) && k < |out|
    ensures Embeds(DropAt(kept, k), admitted, out[..k] + out[k + 1..])
  {
  }

  lemma PushKeepsOrder(cfg: Config, w: World, record: Record, recordId: string)
    requires FifoInv(w)
    ensures FifoInv(Push(cfg, w, record, recordId))
  {
    hide Embeds, Push, Outbound;
    var out, q := Outbound(w), Queued(recordId, record);
    PushShape(cfg, w, record, recordId);
    if Admits(cfg, w.client.accepting, record) {
      if Full(cfg, w.client.work) {
        var k := |out| - |w.client.work.queue|;
        EmbedsDrop(w.kept, w.admitted, out, k);
        EmbedsPush(DropAt(w.kept, k), w.admitted, out[..k] + out[k + 1..], q);
      } else {
        EmbedsPush(w.kept, w.admitted, out, q);
      }
    }
  }

  /** What a push does to the admission order and to the records the client is responsible for. */
  lemma PushShape(cfg: Config, w: World, record: Record, recordId: string)
    ensures
      var next, out, q := Push(cfg, w, record, recordId), Outbound(w), Queued(recordId, record);
      var k := |out| - |w.client.work.queue|;
      0 <= k <= |out| &&
      if !Admits(cfg, w.client.accepting, record) then
        Outbound(next) == out && next.kept == w.kept && next.admitted == w.admitted
      else if Full(cfg, w.client.work) then
        k < |out| && Outbound(next) == out[..k] + out[k + 1..] + [q] && next.admitted == w.admitted + [q] &&
        next.kept == DropAt(w.kept, k) + [|w.admitted|]
      else
        Outbound(next) == out + [q] && next.admitted == w.admitted + [q] && next.kept == w.kept + [|w.admitted|]
  {
    hide BatchRecords, Held, DropAt, IngestClient.Enqueue;
    HeldAfterPush(cfg, w.client.work, w.client.accepting, record, recordId);
    var work := w.client.work;
    assert |Outbound(w)| - |work.queue| == |BatchRecords(w.committed)| + (|Held(work)| - |work.queue|);
    SpliceAfter(BatchRecords(w.committed), Held(w.client.work), |Held(w.client.work)| - |w.client.work.queue|,
      Queued(recordId, record));
  }

  lemma SpliceAfter(a: seq<Queued>, b: seq<Queued>, k: nat, q: Queued)
    requires k <= |b|
    ensures a + (b + [q]) == a + b + [q]
    ensures k < |b| ==> (a + b)[..|a| + k] + (a + b)[|a| + k + 1..] + [q] == a + (b[..k] + b[k + 1..] + [q])
  {
  }

  lemma HeldAfterPush(cfg: Config, work: Work, accepting: bool, record: Record, recordId: string)
    ensures
      var next, h, q := IngestClient.Enqueue(cfg, work, accepting, record, recordId), Held(work),
        Queued(recordId, record);
      var k := |h| - |work.queue|;
      0 <= k <= |h| &&
      if !Admits(cfg, accepting, record) then Held(next) == h
      else if Full(cfg, work) then k < |h| && Held(next) == h[..k] + h[k + 1..] + [q]
      else Held(next) == h + [q]
  {
  }

  /** Moving the head of the queue into the in-flight batch. */
  lemma TakeKeeps(cfg: Config, w: World, next: World, batchId: string)
    requires cfg.Valid() && CoreInv(cfg, w) && Outstanding(w.client.work)
    requires var taken := TakeBatch(cfg, w.client.work, batchId);
             next.client.work == taken.(replayed := next.client.work.replayed)
    requires next == w.(client := next.client) && LinkInv(next)
    ensures CoreInv(cfg, next) && (Agreement(w) ==> Agreement(next))
  {
    var work := w.client.work;
    assert Held(next.client.work) == Held(work);
    assert forall batch :: Owned(w, batch) ==> Owned(next, batch);
    forall ack | ack in next.acks ensures Backed(next, ack) { assert Backed(w, ack); }
  }

  lemma SentKeeps(cfg: Config, w: World, batch: Batch)
    requires CoreInv(cfg, w) && w.client.work.inFlight == Some(batch)
    ensures CoreInv(cfg, w.(sent := w.sent + [batch]))
    ensures Agreement(w) ==> Agreement(w.(sent := w.sent + [batch]))
  {
    var next := w.(sent := w.sent + [batch]);
    assert forall b :: Owned(w, b) ==> Owned(next, b);
    forall ack | ack in next.acks ensures Backed(next, ack) {
      assert Backed(w, ack);
      var i :| 0 <= i < |w.sent| && Matches(ack, w.sent[i].batchId, w.sent[i].sequence) &&
        HasIds(w.log, w.sent[i].records);
      assert next.sent[i] == w.sent[i];
    }
  }

  /** An ACK that matches the in-flight batch proves the server has it. */
  lemma AckProvesStored(cfg: Config, w: World, ack: Ack)
    requires SequenceInv(cfg, w) && WireInv(w) && ack in w.acks && w.client.work.inFlight.Some?
    requires Matches(ack, w.client.work.inFlight.value.batchId, w.client.work.inFlight.value.sequence)
    ensures HasIds(w.log, w.client.work.inFlight.value.records)
  {
    assert Backed(w, ack);
    var i :| 0 <= i < |w.sent| && Matches(ack, w.sent[i].batchId, w.sent[i].sequence) &&
      HasIds(w.log, w.sent[i].records);
    assert Owned(w, w.sent[i]);
  }

  lemma CommitKeeps(cfg: Config, w: World, ack: Ack, next: World)
    requires CoreInv(cfg, w) && ack in w.acks && w.client.work.inFlight.Some?
    requires Commits(w.client.work.inFlight.value, ack)
    requires next.client.work == Commit(w.client.work, w.client.work.inFlight.value, ack)
    requires next == w.(client := next.client, committed := w.committed + [w.client.work.inFlight.value])
    requires LinkInv(next)
    ensures CoreInv(cfg, next) && (Agreement(w) ==> Agreement(next))
  {
    hide LinkInv, Agreement, WireInv, Absorb, Embeds;
    var batch := w.client.work.inFlight.value;
    BatchRecordsSnoc(w.committed, batch);
    assert Outbound(next) == Outbound(w);
    CommitKeepsWire(cfg, w, ack, next);
    if Agreement(w) { CommitAgrees(cfg, w, ack, next); }
  }

  lemma CommitKeepsWire(cfg: Config, w: World, ack: Ack, next: World)
    requires SequenceInv(cfg, w) && WireInv(w) && ack in w.acks && w.client.work.inFlight.Some?
    requires Commits(w.client.work.inFlight.value, ack)
    requires next == w.(client := next.client, committed := w.committed + [w.client.work.inFlight.value])
    ensures WireInv(next)
  {
    AckProvesStored(cfg, w, ack);
    forall b | Owned(w, b) ensures Owned(next, b) {
      if w.client.work.inFlight == Some(b) { assert next.committed[b.sequence - 1] == b; }
    }
    forall a | a in next.acks ensures Backed(next, a) { assert Backed(w, a); }
  }

  lemma CommitAgrees(cfg: Config, w: World, ack: Ack, next: World)
    requires SequenceInv(cfg, w) && WireInv(w) && ack in w.acks && w.client.work.inFlight.Some?
    requires Commits(w.client.work.inFlight.value, ack)
    requires next == w.(client := next.client, committed := w.committed + [w.client.work.inFlight.value])
    requires Agreement(w)
    ensures Agreement(next)
  {
    var batch := w.client.work.inFlight.value;
    AckProvesStored(cfg, w, ack);
    BatchRecordsSnoc(w.committed, batch);
    AbsorbAppend([], BatchRecords(w.committed), batch.records);
    if w.log == Absorb([], BatchRecords(w.committed)) { AbsorbKnown(w.log, batch.records); }
  }

  lemma ApplyKeeps(cfg: Config, w: World, index: nat)
    requires CoreInv(cfg, w) && index < |w.sent|
    ensures CoreInv(cfg, Apply(w, index)) && (Agreement(w) ==> Agreement(Apply(w, index)))
  {
    var next := Apply(w, index);
    var batch := w.sent[index];
    AbsorbGrows(w.log, batch.records);
    AbsorbHolds(w.log, batch.records);
    LogGrowthKeeps(w, next);
    if Agreement(w) { ApplyAgrees(w, batch); }
  }

  /** Any growth of the log keeps ACKs backed and commits stored. */
  lemma LogGrowthKeeps(w: World, next: World)
    requires WireInv(w) && w.log <= next.log
    requires next == w.(log := next.log, acks := next.acks)
    requires forall ack :: ack in next.acks ==> ack in w.acks || Backed(next, ack)
    ensures WireInv(next)
  {
    HasIdMonotone(w.log, next.log);
    assert forall b :: Owned(w, b) ==> Owned(next, b);
    forall ack | ack in next.acks ensures Backed(next, ack) {
      if ack in w.acks {
        assert Backed(w, ack);
        var i :| 0 <= i < |w.sent| && Matches(ack, w.sent[i].batchId, w.sent[i].sequence) &&
          HasIds(w.log, w.sent[i].records);
        assert HasIds(next.log, next.sent[i].records);
      }
    }
  }

  lemma ApplyAgrees(w: World, batch: Batch)
    requires WireInv(w) && Agreement(w) && Owned(w, batch)
    ensures Agreement(w.(log := Absorb(w.log, batch.records)))
  {
    var done := Absorb([], BatchRecords(w.committed));
    if 1 <= batch.sequence <= |w.committed| && batch == w.committed[batch.sequence - 1] {
      AbsorbKnown(w.log, batch.records);
    } else if w.log != done {
      AbsorbHolds(done, batch.records);
      AbsorbKnown(w.log, batch.records);
    }
  }

  lemma LoopHeadKeeps(cfg: Config, w: World, batchId: string)
    requires cfg.Valid() && CoreInv(cfg, w)
    ensures
      var next := w.(client := IngestClient.LoopHead(cfg, w.client, batchId));
      CoreInv(cfg, next) && (Agreement(w) ==> Agreement(next))
  {
    var client := IngestClient.LoopHead(cfg, w.client, batchId);
    if w.client.link.flush.Head? && Outstanding(w.client.work) {
      TakeKeeps(cfg, w, w.(client := client), batchId);
    } else {
      LinkKeeps(cfg, w, client);
    }
  }

  lemma TransmitKeeps(cfg: Config, w: World, ok: bool)
    requires CoreInv(cfg, w)
    ensures CoreInv(cfg, Transmit(w, ok)) && (Agreement(w) ==> Agreement(Transmit(w, ok)))
  {
    if w.client.work.inFlight.Some? {
      var batch := w.client.work.inFlight.value;
      var client := w.client.(link := SendAndWait(w.client.link, batch, ok));
      LinkKeeps(cfg, w, client);
      if CanSend(w.client.link) && ok { SentKeeps(cfg, w.(client := client), batch); }
    }
  }

  lemma CommitNowKeeps(cfg: Config, w: World)
    requires CoreInv(cfg, w)
    ensures CoreInv(cfg, CommitNow(w)) && (Agreement(w) ==> Agreement(CommitNow(w)))
  {
    if AcksInFlight(w.client) {
      CommitKeeps(cfg, w, w.client.link.flush.ack, CommitNow(w));
    } else {
      LinkKeeps(cfg, w, CommitStep(w.client));
    }
  }

  lemma ExitTurnKeeps(cfg: Config, w: World, batchId: string)
    requires cfg.Valid() && CoreInv(cfg, w)
    ensures CoreInv(cfg, ExitTurn(cfg, w, batchId)) && (Agreement(w) ==> Agreement(ExitTurn(cfg, w, batchId)))
  {
    var client := IngestClient.ExitLoop(cfg, w.client, batchId);
    if ExitTakes(w.client) {
      TakeKeeps(cfg, w, w.(client := client), batchId);
      SentKeeps(cfg, w.(client := client), client.work.inFlight.value);
    } else {
      LinkKeeps(cfg, w, client);
    }
  }

  lemma ExitAnswerKeeps(cfg: Config, w: World, ack: Ack)
    requires CoreInv(cfg, w)
    ensures CoreInv(cfg, ExitAnswer(w, ack)) && (Agreement(w) ==> Agreement(ExitAnswer(w, ack)))
  {
    if ack in w.acks {
      if ExitCommits(w.client, ack) {
        CommitKeeps(cfg, w, ack, ExitAnswer(w, ack));
      } else {
        LinkKeeps(cfg, w, IngestClient.ExitReply(w.client, ack));
      }
    }
  }

  lemma NextKeeps(cfg: Config, w: World, e: Event)
    requires cfg.Valid() && CoreInv(cfg, w)
    ensures CoreInv(cfg, Next(cfg, w, e)) && (Agreement(w) ==> Agreement(Next(cfg, w, e)))
  {
    match e
    case Write(record, recordId) => PushKeeps(cfg, w, record, recordId);
    case LoopHead(batchId) => LoopHeadKeeps(cfg, w, batchId);
    case Send(ok) => TransmitKeeps(cfg, w, ok);
    case CommitAcked => CommitNowKeeps(cfg, w);
    case ExitLoop(batchId) => ExitTurnKeeps(cfg, w, batchId);
    case ExitReply(ack) => ExitAnswerKeeps(cfg, w, ack);
    case ServerApplies(index) => if index < |w.sent| { ApplyKeeps(cfg, w, index); }
    case OnLink(link) =>
      LinkNextKeepsLink(cfg, w, link);
      LinkKeeps(cfg, w, LinkNext(cfg, w, link));
  }
}
