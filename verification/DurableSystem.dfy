/** The write-ahead queue on top of the ingest system, with crashes.

    A run is any sequence of events; an event that cannot happen in a state leaves it unchanged.
    Every storage call may fail, a crash may happen between any two events, and batches sent by a
    process that has died may still reach the server. */
module DurableSystem {
  import opened Common
  import opened PersistentQueue
  import Client = IngestClient
  import Net = IngestSystem

  datatype Config = Config(store: PersistentQueue.Config, socket: Client.Config) {
    /** The constructor passes `maxQueueSize = max(maxQueueSize, maxRecords)` down, and both
        transports read the same `maxRecordBytes`. */
    predicate Valid() {
      store.Valid() && socket.Valid() && store.maxRecords <= socket.maxQueueSize
    }
  }

  /** Where `drain` is suspended. `pending` was handed to the socket queue by the write that is
      being awaited and is not resident yet. */
  datatype Drain =
    | Idle
    | Enqueuing(todo: seq<Entry>, pending: Option<string>, exit: bool)
    | Flushing(exit: bool)
    | ExitFlushing
    | Settled(ok: bool)

  /** Where a call of `close` is suspended: at the drain of its `flushOnExit`, before
      `inner.close()`, at the flush inside of it, or after it. `late`: it returned at once, because
      the socket transport was closed already. */
  datatype CloseCall = AwaitsDrain | MayClose | AwaitsFlush | Flushed(ok: bool) | Returned(late: bool) | Failed

  datatype Door = Door(accepting: bool, closed: bool, calls: seq<CloseCall>)

  /** History. `persisted` holds every pair ever stored by `persistRecord`, `reported` every id given
      to `onPersistentDrop` (or dropped with a foreign session). The others are the ids that met an
      accident: `evicted` by the socket queue; `unread` because a restore could not read storage;
      `abandoned` by a `close` that was late; `reused` by a second record. */
  datatype Ledger = Ledger(
    persisted: set<(string, Record)>, reported: set<string>,
    evicted: set<string>, unread: set<string>, abandoned: set<string>, reused: set<string>)

  datatype Durable = Durable(
    session: string, queue: Queue, drain: Drain, door: Door, cell: Cell, net: Net.World, stale: seq<Client.Batch>,
      ledger: Ledger)

  function Start(session: string): Durable {
    Durable(session, NEW_QUEUE, Idle, Door(true, false, []), Empty, Net.START, [], Ledger({}, {}, {}, {}, {}, {}))
  }

  datatype Event =
    | Write(record: Record, recordId: string, now: nat, ok: bool)
    | StartDrain(exit: bool)
    | DrainStep
    | Socket(event: Net.Event)
    | Settle(ok: bool)
    | Close
    | CloseInner(call: nat, fallback: bool)
    | InnerCloses(call: nat)
    | FinishClose(call: nat, ok: bool)
    | Crash(fingerprint: string, now: nat, readable: bool, ok: bool)
    | StaleApplies(index: nat)

  // ---------------------------------------------------------------- transitions

  function Store(cfg: Config, d: Durable): PersistentQueue.Config { cfg.store.(fingerprint := d.session) }

  /** Whether a record was persisted under this id before. */
  predicate Used(l: Ledger, recordId: string) { exists p :: p in l.persisted && p.0 == recordId }

  function Logged(l: Ledger, recordId: string, record: Record): Ledger {
    l.(persisted := l.persisted + {(recordId, record)},
      reused := l.reused + if Used(l, recordId) then {recordId} else {})
  }

  function Persist(cfg: Config, d: Durable, record: Record, recordId: string, now: nat, ok: bool): Durable {
    if !d.door.accepting then d.(queue := Report(d.queue, Drop(ClosedDrop, None)))
    else
      var p := PersistentQueue.Persist(Store(cfg, d), d.queue, d.cell, record, recordId, now, ok);
      var news := if |d.queue.drops| <= |p.queue.drops| then p.queue.drops[|d.queue.drops|..] else [];
      var l := if p.done then Logged(d.ledger, recordId, record) else d.ledger;
      d.(queue := p.queue, cell := p.cell, ledger := l.(reported := l.reported + DropIds(news)))
  }

  /** `residentIds.add` for the awaited write, then the next entry or the flush. */
  function DrainNext(cfg: Config, d: Durable): Durable {
    if !d.drain.Enqueuing? then d
    else
      var q := d.queue.(resident := d.queue.resident + if d.drain.pending.Some? then {d.drain.pending.value} else {});
      if d.drain.pending.Some? then d.(queue := q, drain := d.drain.(pending := None))
      else if d.drain.todo == [] then
        d.(net := d.net.(client := Client.StartFlush(d.net.client)), drain := Flushing(d.drain.exit))
      else
        var head := d.drain.todo[0];
        if head.recordId in q.resident then d.(drain := d.drain.(todo := d.drain.todo[1..]))
        else HandOver(cfg, d, head)
  }

  function HandOver(cfg: Config, d: Durable, head: Entry): Durable
    requires d.drain.Enqueuing? && d.drain.todo != []
  {
    var c := d.net.client;
    var consumed := Client.Admits(cfg.socket, c.accepting, head.record);
    d.(net := Net.Push(cfg.socket, d.net, head.record, head.recordId),
       drain := Enqueuing(d.drain.todo[1..], if consumed then Some(head.recordId) else None, d.drain.exit),
       ledger := if consumed && Client.Full(cfg.socket, c.work)
                 then d.ledger.(evicted := d.ledger.evicted + {c.work.queue[0].recordId}) else d.ledger)
  }

  /** The loop of the socket transport ended; it succeeds only at its head. */
  predicate Ends(before: Client.Client, after: Client.Client) { !before.link.flush.Idle? && after.link.flush.Idle? }

  predicate EndsWell(before: Client.Client) { before.link.flush.Head? || before.link.flush.ExitHead? }

  /** What the awaiting `drain` learns when that loop ends. */
  function Learn(drain: Drain, before: Client.Client, after: Client.Client): Drain {
    if !(drain.Flushing? || drain.ExitFlushing?) || !Ends(before, after) then drain
    else if EndsWell(before) then Settled(true)
    else if drain.Flushing? && drain.exit then ExitFlushing
    else Settled(false)
  }

  function Replace(calls: seq<CloseCall>, a: CloseCall, b: CloseCall): seq<CloseCall> {
    seq(|calls|, i requires 0 <= i < |calls| => if calls[i] == a then b else calls[i])
  }

  /** What the calls of `close` learn. */
  function Hear(calls: seq<CloseCall>, before: Client.Client, after: Client.Client): seq<CloseCall> {
    if Ends(before, after) then Replace(calls, AwaitsFlush, Flushed(EndsWell(before))) else calls
  }

  /** The socket transport is written to and closed only by its owner. */
  predicate Foreign(e: Net.Event) {
    !e.Write? && e != Net.OnLink(Net.BeginClose) && e != Net.OnLink(Net.EndClose)
  }

  ghost function SocketStep(cfg: Config, d: Durable, e: Net.Event): Durable {
    if !Foreign(e) then d
    else
      var net := Net.Next(cfg.socket, d.net, e);
      d.(net := net, drain := Learn(d.drain, d.net.client, net.client),
        door := d.door.(calls := Hear(d.door.calls, d.net.client, net.client)))
  }

  function Remove(cfg: Config, d: Durable, ok: bool): Durable {
    d.(queue := Removed(d.queue, d.queue.resident, ok),
       cell := RemovedCell(Store(cfg, d), d.queue, d.queue.resident, d.cell, ok))
  }

  /** The calls of `close` that share the drain go on. */
  function SettleDrain(cfg: Config, d: Durable, ok: bool): Durable {
    if !d.drain.Settled? then d
    else
      var over := d.(drain := Idle, door := d.door.(calls := Replace(d.door.calls, AwaitsDrain, MayClose)));
      if !d.drain.ok || d.queue.resident == {} then over else Remove(cfg, over, ok)
  }

  /** `close`, up to its first `await`. */
  function BeginClose(d: Durable): Durable {
    if d.door.closed then d
    else if d.queue.entries == [] then d.(door := d.door.(accepting := false, calls := d.door.calls + [MayClose]))
    else
      d.(drain := if d.drain.Idle? then Enqueuing(d.queue.entries, None, true) else d.drain,
         door := d.door.(accepting := false, calls := d.door.calls + [AwaitsDrain]))
  }

  predicate At(d: Durable, call: nat, state: CloseCall) { call < |d.door.calls| && d.door.calls[call] == state }

  function Moved(d: Durable, call: nat, state: CloseCall): Durable
    requires call < |d.door.calls|
  {
    d.(door := d.door.(calls := d.door.calls[call := state]))
  }

  /** The call of `inner.close()`, which starts a flush or joins the one that is running. */
  function EnterInner(d: Durable, call: nat, fallback: bool): Durable {
    if !At(d, call, MayClose) then d
    else if d.net.client.closed then Moved(d, call, Returned(true))
    else
      var shut := Client.BeginClose(d.net.client);
      var c := if fallback then Client.StartExit(shut) else Client.StartFlush(shut);
      Moved(d, call, AwaitsFlush).(net := d.net.(client := c))
  }

  /** Its flush is over: the socket transport is closed, and the call returns or throws. */
  function LeaveInner(d: Durable, call: nat): Durable {
    if call >= |d.door.calls| || !d.door.calls[call].Flushed? then d
    else
      var state := if d.door.calls[call].ok then Returned(false) else Failed;
      Moved(d, call, state).(net := d.net.(client := Client.EndClose(d.net.client)))
  }

  predicate Over(d: Durable, call: nat) {
    call < |d.door.calls| && (d.door.calls[call].Returned? || d.door.calls[call].Failed?)
  }

  /** The call removes what is resident, unless `inner.close()` threw, and is over. */
  function Finish(cfg: Config, d: Durable, call: nat, ok: bool): Durable {
    if !Over(d, call) then d
    else
      var state := d.door.calls[call];
      var shut := d.(door := d.door.(closed := true, calls := Without(d.door.calls, call)));
      if state.Failed? || d.queue.resident == {} then shut
      else
        Remove(cfg, shut, ok).(
          ledger := if state.late then d.ledger.(abandoned := d.ledger.abandoned + d.queue.resident) else d.ledger)
  }

  function Reborn(d: Durable): Net.World { Net.START.(log := d.net.log) }

  function Restart(cfg: Config, d: Durable, fingerprint: string, now: nat, readable: bool, ok: bool): Durable {
    var r := Restore(cfg.store.(fingerprint := fingerprint), d.cell, now, readable, ok);
    var foreign := readable && d.cell.Holds? && d.cell.state.fingerprint != fingerprint;
    d.(session := fingerprint, queue := r.queue, cell := r.cell, drain := Idle, door := Door(true, false, []),
       net := Reborn(d), stale := d.stale + d.net.sent,
       ledger := d.ledger.(
         reported := d.ledger.reported + DropIds(r.queue.drops) + if foreign then CellIds(d.cell) else {},
         unread := if readable then d.ledger.unread else d.ledger.unread + CellIds(d.cell)))
  }

  ghost function ApplyStale(d: Durable, index: nat): Durable {
    if index >= |d.stale| then d
    else d.(net := d.net.(log := Net.Absorb(d.net.log, d.stale[index].records)))
  }

  ghost function Next(cfg: Config, d: Durable, e: Event): Durable {
    match e
    case Write(record, recordId, now, ok) => Persist(cfg, d, record, recordId, now, ok)
    case StartDrain(exit) =>
      if d.drain.Idle? && d.queue.entries != [] then d.(drain := Enqueuing(d.queue.entries, None, exit)) else d
    case DrainStep => DrainNext(cfg, d)
    case Socket(event) => SocketStep(cfg, d, event)
    case Settle(ok) => SettleDrain(cfg, d, ok)
    case Close => BeginClose(d)
    case CloseInner(call, fallback) => EnterInner(d, call, fallback)
    case InnerCloses(call) => LeaveInner(d, call)
    case FinishClose(call, ok) => Finish(cfg, d, call, ok)
    case Crash(fingerprint, now, readable, ok) => Restart(cfg, d, fingerprint, now, readable, ok)
    case StaleApplies(index) => ApplyStale(d, index)
  }

  ghost function Run(cfg: Config, session: string, events: seq<Event>): Durable {
    if events == [] then Start(session)
    else Next(cfg, Run(cfg, session, events[..|events| - 1]), events[|events| - 1])
  }

  /** The states of a run, one after the other. */
  ghost predicate Follows(cfg: Config, states: seq<Durable>, events: seq<Event>, i: nat)
    requires i < |events| && |states| == |events| + 1
  {
    states[i + 1] == Next(cfg, states[i], events[i])
  }

  ghost predicate Trace(cfg: Config, session: string, states: seq<Durable>, events: seq<Event>) {
    |states| == |events| + 1 && states[0] == Start(session) &&
    forall i {:trigger Follows(cfg, states, events, i)} :: 0 <= i < |events| ==> Follows(cfg, states, events, i)
  }

  /** What some run leads to. */
  ghost predicate Reachable(cfg: Config, d: Durable) {
    exists session, states, events :: Trace(cfg, session, states, events) && states[|events|] == d
  }

  lemma {:induction false} TraceIsRun(cfg: Config, session: string, states: seq<Durable>, events: seq<Event>)
    requires Trace(cfg, session, states, events)
    ensures states[|events|] == Run(cfg, session, events)
    decreases |events|
  {
    hide Next;
    if events != [] {
      var k := |events| - 1;
      assert Follows(cfg, states, events, k);
      var before, init := states[..k + 1], events[..k];
      forall i | 0 <= i < k ensures Follows(cfg, before, init, i) { assert Follows(cfg, states, events, i); }
      TraceIsRun(cfg, session, before, init);
    }
  }

  // ---------------------------------------------------------------- the invariant

  /** The id was dropped with a report, stored by the server, or met one of the named accidents. */
  ghost predicate Accounted(d: Durable, recordId: string) {
    recordId in d.ledger.reported + d.ledger.evicted + d.ledger.unread + d.ledger.abandoned ||
    Net.HasId(d.net.log, recordId)
  }

  /** Memory is in storage, storage is in memory or accounted for, and so is everything that was
      ever persisted. */
  ghost predicate SafetyInv(d: Durable) {
    Ids(d.queue.entries) <= CellIds(d.cell) &&
    (forall id :: id in CellIds(d.cell) ==> id in Ids(d.queue.entries) || Accounted(d, id)) &&
    (forall p :: p in d.ledger.persisted ==> p.0 in CellIds(d.cell) || Accounted(d, p.0))
  }

  ghost predicate InSocket(d: Durable, recordId: string) {
    Net.HasId(Net.Outbound(d.net), recordId) || recordId in d.ledger.evicted
  }

  /** Whatever is resident went through the socket queue, and a drain that settled left it empty. */
  ghost predicate ResidentInv(d: Durable) {
    (forall id :: id in d.queue.resident ==> InSocket(d, id)) &&
    (d.drain.Enqueuing? && d.drain.pending.Some? ==> InSocket(d, d.drain.pending.value)) &&
    (d.drain == Settled(true) ==> !Client.Outstanding(d.net.client.work))
  }

  /** Past the first `inner.close()` the socket transport takes no more records, and after a flush
      that succeeded it holds none. */
  ghost predicate CallOk(c: Client.Client, call: CloseCall) {
    (call.AwaitsFlush? || call.Flushed? || call == Returned(false) ==> !c.accepting) &&
    (call == Flushed(true) || call == Returned(false) ==> !Client.Outstanding(c.work))
  }

  ghost predicate DoorInv(d: Durable) {
    forall i :: 0 <= i < |d.door.calls| ==> CallOk(d.net.client, d.door.calls[i])
  }

  /** What is stored for an id that is in memory is what is in memory. */
  ghost predicate CellInv(d: Durable) {
    d.cell.Holds? ==>
      (forall c :: c in d.cell.state.entries ==> c.Shaped? && !Blank(c.entry.recordId)) &&
      (forall i, j :: 0 <= i < j < |d.cell.state.entries| ==>
         d.cell.state.entries[i].entry.recordId != d.cell.state.entries[j].entry.recordId) &&
      (forall c :: c in d.cell.state.entries && c.entry.recordId in Ids(d.queue.entries) ==> c.entry in d.queue.entries)
  }

  ghost predicate StoreInv(cfg: Config, d: Durable) {
    QueueInv(cfg.store, d.queue) && !d.cell.Garbage? && CellInv(d)
  }

  ghost predicate Known(pairs: set<(string, Record)>, records: seq<Client.Queued>) {
    forall i :: 0 <= i < |records| ==> (records[i].recordId, records[i].record) in pairs
  }

  ghost predicate KnownEntries(pairs: set<(string, Record)>, entries: seq<Entry>) {
    forall e :: e in entries ==> (e.recordId, e.record) in pairs
  }

  ghost predicate KnownBatches(pairs: set<(string, Record)>, batches: seq<Client.Batch>) {
    forall i :: 0 <= i < |batches| ==> Known(pairs, batches[i].records)
  }

  /** Nothing is ever stored, queued or sent but what was persisted under that id. */
  ghost predicate IntegrityInv(d: Durable) {
    var pairs := d.ledger.persisted;
    KnownEntries(pairs, d.queue.entries) &&
    (d.cell.Holds? ==> forall c ::
      c in d.cell.state.entries && c.Shaped? ==> (c.entry.recordId, c.entry.record) in pairs) &&
    (d.drain.Enqueuing? ==> KnownEntries(pairs, d.drain.todo)) &&
    Known(pairs, Net.Outbound(d.net)) && Known(pairs, d.net.log) &&
    KnownBatches(pairs, d.net.sent) && KnownBatches(pairs, d.stale)
  }

  /** An id that was not reused stands for one record. */
  ghost predicate LedgerInv(l: Ledger) {
    forall p, q :: p in l.persisted && q in l.persisted && p.0 == q.0 && p.0 !in l.reused ==> p == q
  }

  ghost predicate Inv(cfg: Config, d: Durable) {
    Net.CoreInv(cfg.socket, d.net) && StoreInv(cfg, d) && SafetyInv(d) && ResidentInv(d) && DoorInv(d) &&
    IntegrityInv(d) &&
    LedgerInv(d.ledger)
  }

  // ---------------------------------------------------------------- socket-side facts

  ghost predicate SameOutbound(w: Net.World, next: Net.World) {
    Net.Outbound(next) == Net.Outbound(w) && next.client.accepting == w.client.accepting && w.log <= next.log
  }

  lemma TakeIsQuiet(cfg: Client.Config, w: Net.World, batchId: string)
    ensures SameOutbound(w, w.(client := Client.LoopHead(cfg, w.client, batchId)))
    ensures SameOutbound(w, Net.ExitTurn(cfg, w, batchId))
  {
    assert Client.Held(Client.TakeBatch(cfg, w.client.work, batchId)) == Client.Held(w.client.work);
  }

  lemma CommitIsQuiet(w: Net.World)
    ensures SameOutbound(w, Net.CommitNow(w))
  {
    if Client.AcksInFlight(w.client) { Client.BatchRecordsSnoc(w.committed, w.client.work.inFlight.value); }
  }

  lemma ExitAnswerIsQuiet(w: Net.World, ack: Client.Ack)
    ensures SameOutbound(w, Net.ExitAnswer(w, ack))
  {
    if ack in w.acks && Client.ExitCommits(w.client, ack) {
      Client.BatchRecordsSnoc(w.committed, w.client.work.inFlight.value);
    }
  }

  lemma LinkIsQuiet(cfg: Client.Config, w: Net.World, e: Net.LinkEvent)
    requires !e.BeginClose? && !e.EndClose?
    ensures SameOutbound(w, w.(client := Net.LinkNext(cfg, w, e)))
  {
  }

  /** Only the owner's writes change which records the socket transport is responsible for. */
  lemma ForeignIsQuiet(cfg: Client.Config, w: Net.World, e: Net.Event)
    requires Foreign(e)
    ensures SameOutbound(w, Net.Next(cfg, w, e))
  {
    match e
    case LoopHead(batchId) => TakeIsQuiet(cfg, w, batchId);
    case Send(ok) =>
    case CommitAcked => CommitIsQuiet(w);
    case ExitLoop(batchId) => TakeIsQuiet(cfg, w, batchId);
    case ExitReply(ack) => ExitAnswerIsQuiet(w, ack);
    case ServerApplies(index) => if index < |w.sent| { Net.AbsorbGrows(w.log, w.sent[index].records); }
    case OnLink(link) => LinkIsQuiet(cfg, w, link);
    case Write(_, _) => assert false;
  }

  lemma AbsorbKnows(pairs: set<(string, Record)>, log: seq<Client.Queued>, records: seq<Client.Queued>)
    requires Known(pairs, log) && Known(pairs, records)
    ensures Known(pairs, Net.Absorb(log, records))
  {
    if records != [] { AbsorbKnows(pairs, log, records[..|records| - 1]); }
  }

  lemma InFlightIsOutbound(pairs: set<(string, Record)>, w: Net.World)
    requires Known(pairs, Net.Outbound(w)) && w.client.work.inFlight.Some?
    ensures Known(pairs, w.client.work.inFlight.value.records)
  {
    var at := |Client.BatchRecords(w.committed)|;
    var records := w.client.work.inFlight.value.records;
    assert forall i :: 0 <= i < |records| ==> Net.Outbound(w)[at + i] == records[i];
  }

  /** The network and the server only ever see known pairs. */
  lemma ForeignSpreadsNothingNew(cfg: Client.Config, w: Net.World, e: Net.Event, pairs: set<(string, Record)>)
    requires Foreign(e)
    requires Known(pairs, Net.Outbound(w)) && Known(pairs, w.log) && KnownBatches(pairs, w.sent)
    ensures
      var next := Net.Next(cfg, w, e);
      Known(pairs, Net.Outbound(next)) && Known(pairs, next.log) && KnownBatches(pairs, next.sent)
  {
    ForeignIsQuiet(cfg, w, e);
    var next := Net.Next(cfg, w, e);
    if next.client.work.inFlight.Some? { InFlightIsOutbound(pairs, next); }
    match e
    case ServerApplies(index) => if index < |w.sent| { AbsorbKnows(pairs, w.log, w.sent[index].records); }
    case _ =>
  }

  /** A push adds the record and loses at most the head of a full queue. */
  lemma PushOutbound(cfg: Client.Config, w: Net.World, record: Record, recordId: string)
    ensures
      var next := Net.Push(cfg, w, record, recordId);
      next.log == w.log && next.sent == w.sent &&
      (forall q :: q in Net.Outbound(next) ==> q in Net.Outbound(w) || q == Client.Queued(recordId, record)) &&
      (forall q :: q in Net.Outbound(w) ==>
         q in Net.Outbound(next) ||
         (Client.Admits(cfg, w.client.accepting, record) && Client.Full(cfg, w.client.work) &&
         q == w.client.work.queue[0])) &&
      (Client.Admits(cfg, w.client.accepting, record) ==> Client.Queued(recordId, record) in Net.Outbound(next))
  {
    var next := Net.Push(cfg, w, record, recordId);
    var before, after := w.client.work.queue, next.client.work.queue;
    assert forall q :: q in after ==> q in before || q == Client.Queued(recordId, record);
    assert forall q :: q in before ==> q in after || q == before[0];
    if Client.Admits(cfg, w.client.accepting, record) {
      assert after[|after| - 1] == Client.Queued(recordId, record);
    }
  }

  lemma HasIdIsMember(s: seq<Client.Queued>, recordId: string)
    ensures Net.HasId(s, recordId) <==> exists q :: q in s && q.recordId == recordId
  {
    if Net.HasId(s, recordId) {
      var i :| 0 <= i < |s| && s[i].recordId == recordId;
      assert s[i] in s;
    }
  }

  lemma KnownIsMember(pairs: set<(string, Record)>, s: seq<Client.Queued>)
    ensures Known(pairs, s) <==> forall q :: q in s ==> (q.recordId, q.record) in pairs
  {
    if forall q :: q in s ==> (q.recordId, q.record) in pairs {
      assert forall i :: 0 <= i < |s| ==> s[i] in s;
    }
  }

  // ---------------------------------------------------------------- every event keeps it

  /** Accounting only grows. */
  ghost predicate Grows(d: Durable, next: Durable) {
    d.ledger.reported <= next.ledger.reported && d.ledger.evicted <= next.ledger.evicted &&
    d.ledger.unread <= next.ledger.unread &&
    d.ledger.abandoned <= next.ledger.abandoned && d.net.log <= next.net.log
  }

  lemma AccountedGrows(d: Durable, next: Durable)
    requires Grows(d, next)
    ensures forall id :: Accounted(d, id) ==> Accounted(next, id)
  {
    Net.HasIdMonotone(d.net.log, next.net.log);
  }

  /** The cell after a write of memory. */
  lemma WrittenIsGood(cfg: PersistentQueue.Config, q: Queue, pairs: set<(string, Record)>)
    requires QueueInv(cfg, q) && KnownEntries(pairs, q.entries)
    ensures
      var cell := Written(cfg, q.entries, q.nextSequence);
      CellIds(cell) == Ids(q.entries) && !cell.Garbage? &&
      (cell.Holds? ==>
         (forall c :: c in cell.state.entries ==>
            c.Shaped? && c.entry in q.entries && !Blank(c.entry.recordId) &&
            (c.entry.recordId, c.entry.record) in pairs) &&
         (forall i, j :: 0 <= i < j < |cell.state.entries| ==>
            cell.state.entries[i].entry.recordId != cell.state.entries[j].entry.recordId))
  {
    WrittenIds(cfg, q.entries, q.nextSequence);
    var cell := Written(cfg, q.entries, q.nextSequence);
    if cell.Holds? {
      forall c | c in cell.state.entries
        ensures c.Shaped? && c.entry in q.entries && !Blank(c.entry.recordId) &&
            (c.entry.recordId, c.entry.record) in pairs
      {
        var i :| 0 <= i < |cell.state.entries| && cell.state.entries[i] == c;
        assert q.entries[i] in q.entries;
      }
    }
  }

  lemma LoggedIsGood(l: Ledger, recordId: string, record: Record)
    requires LedgerInv(l)
    ensures LedgerInv(Logged(l, recordId, record))
  {
  }

  lemma PersistKeeps(cfg: Config, d: Durable, record: Record, recordId: string, now: nat, ok: bool)
    requires cfg.Valid() && Inv(cfg, d)
    ensures Inv(cfg, Persist(cfg, d, record, recordId, now, ok))
  {
    hide DoorInv, LedgerInv, ResidentInv, PersistentQueue.Persist;
    var next := Persist(cfg, d, record, recordId, now, ok);
    AccountedGrows(d, next);
    StillInDoor(d, next);
    if d.door.accepting {
      var p := PersistentQueue.Persist(Store(cfg, d), d.queue, d.cell, record, recordId, now, ok);
      PersistIsSafe(Store(cfg, d), d.queue, d.cell, record, recordId, now, ok);
      StillResident(d, next);
      SameLedger(d.ledger, next.ledger, recordId, record);
      if p.done {
        assert KnownEntries(next.ledger.persisted, p.queue.entries);
        WrittenIsGood(Store(cfg, d), p.queue, next.ledger.persisted);
        PersistIsAccounted(cfg, d, record, recordId, now, ok);
      }
    } else { StillResident(d, next); }
  }

  lemma PersistIsAccounted(cfg: Config, d: Durable, record: Record, recordId: string, now: nat, ok: bool)
    requires SafetyInv(d) && d.door.accepting
    requires
      var p := PersistentQueue.Persist(Store(cfg, d), d.queue, d.cell, record, recordId, now, ok);
      PersistContract(Store(cfg, d), d.queue, d.cell, record, recordId, now, p) && p.done &&
      CellIds(p.cell) == Ids(p.queue.entries)
    requires Grows(d, Persist(cfg, d, record, recordId, now, ok))
    ensures SafetyInv(Persist(cfg, d, record, recordId, now, ok))
  {
    hide PersistentQueue.Persist, QueueInv;
    var next := Persist(cfg, d, record, recordId, now, ok);
    AccountedGrows(d, next);
    forall id | id in CellIds(d.cell) ensures id in CellIds(next.cell) || Accounted(next, id) {
      assert id in Ids(d.queue.entries) || Accounted(d, id);
    }
  }

  lemma SameLedger(l: Ledger, next: Ledger, recordId: string, record: Record)
    requires LedgerInv(l)
    requires (next.persisted == l.persisted && next.reused == l.reused) ||
             (next.persisted == Logged(l, recordId, record).persisted &&
             next.reused == Logged(l, recordId, record).reused)
    ensures LedgerInv(next)
  {
    LoggedIsGood(l, recordId, record);
  }

  lemma StillInDoor(d: Durable, next: Durable)
    requires DoorInv(d) && next.door.calls == d.door.calls && next.net.client == d.net.client
    ensures DoorInv(next)
  {
  }

  lemma StillResident(d: Durable, next: Durable)
    requires ResidentInv(d) && next.queue.resident <= d.queue.resident && next.drain == d.drain && next.net == d.net
    requires d.ledger.evicted <= next.ledger.evicted
    ensures ResidentInv(next)
  {
    forall id | InSocket(d, id) ensures InSocket(next, id) {}
  }

  lemma HandOverKeeps(cfg: Config, d: Durable, head: Entry)
    requires cfg.Valid() && Inv(cfg, d) && d.drain.Enqueuing? && d.drain.todo != [] && d.drain.todo[0] == head
    requires d.drain.pending.None?
    ensures Inv(cfg, HandOver(cfg, d, head))
  {
    hide DoorInv, ResidentInv, StoreInv, LedgerInv;
    var next := HandOver(cfg, d, head);
    AccountedGrows(d, next);
    Net.PushKeeps(cfg.socket, d.net, head.record, head.recordId);
    PushOutbound(cfg.socket, d.net, head.record, head.recordId);
    assert head in d.drain.todo;
    KnownIsMember(d.ledger.persisted, Net.Outbound(d.net));
    KnownIsMember(d.ledger.persisted, Net.Outbound(next.net));
    PushKeepsResidents(cfg, d, head);
    PushKeepsDoor(cfg, d, head);
    SameStore(cfg, d, next);
    LedgerStays(d.ledger, next.ledger);
  }

  lemma SameStore(cfg: Config, d: Durable, next: Durable)
    requires StoreInv(cfg, d) && next.queue.entries == d.queue.entries &&
        next.queue.nextSequence == d.queue.nextSequence && next.cell == d.cell
    ensures StoreInv(cfg, next)
  {
  }

  lemma LedgerStays(l: Ledger, next: Ledger)
    requires LedgerInv(l) && next.persisted == l.persisted && next.reused == l.reused
    ensures LedgerInv(next)
  {
  }

  /** A socket transport that takes no more records is not changed by a write. */
  lemma PushKeepsDoor(cfg: Config, d: Durable, head: Entry)
    requires DoorInv(d) && d.drain.Enqueuing? && d.drain.todo != []
    ensures DoorInv(HandOver(cfg, d, head))
  {
    var next := HandOver(cfg, d, head);
    forall i | 0 <= i < |next.door.calls| ensures CallOk(next.net.client, next.door.calls[i]) {
      assert CallOk(d.net.client, d.door.calls[i]);
    }
  }

  lemma PushKeepsResidents(cfg: Config, d: Durable, head: Entry)
    requires ResidentInv(d) && d.drain.Enqueuing? && d.drain.todo != [] && d.drain.todo[0] == head
    ensures ResidentInv(HandOver(cfg, d, head))
  {
    var next := HandOver(cfg, d, head);
    PushOutbound(cfg.socket, d.net, head.record, head.recordId);
    var before, after := Net.Outbound(d.net), Net.Outbound(next.net);
    forall id | InSocket(d, id) ensures InSocket(next, id) {
      if id !in d.ledger.evicted {
        HasIdIsMember(before, id);
        var q :| q in before && q.recordId == id;
        HasIdIsMember(after, id);
      }
    }
    HasIdIsMember(after, head.recordId);
  }

  lemma DrainNextKeeps(cfg: Config, d: Durable)
    requires cfg.Valid() && Inv(cfg, d)
    ensures Inv(cfg, DrainNext(cfg, d))
  {
    hide HandOver;
    if d.drain.Enqueuing? {
      if d.drain.pending.Some? {
        LandingKeeps(cfg, d);
      } else if d.drain.todo == [] {
        FlushStarts(cfg, d);
      } else if d.drain.todo[0].recordId !in d.queue.resident {
        HandOverKeeps(cfg, d, d.drain.todo[0]);
      } else {
        SkipKeeps(cfg, d);
      }
    }
  }

  lemma LandingKeeps(cfg: Config, d: Durable)
    requires Inv(cfg, d) && d.drain.Enqueuing? && d.drain.pending.Some?
    ensures Inv(cfg, DrainNext(cfg, d))
  {
    hide StoreInv, HandOver, LedgerInv;
    var next := DrainNext(cfg, d);
    AccountedGrows(d, next);
    SameStore(cfg, d, next);
    StillInDoor(d, next);
    forall id | InSocket(d, id) ensures InSocket(next, id) {}
  }

  lemma SkipKeeps(cfg: Config, d: Durable)
    requires Inv(cfg, d) && d.drain.Enqueuing? && d.drain.pending.None? && d.drain.todo != []
    ensures Inv(cfg, d.(drain := d.drain.(todo := d.drain.todo[1..])))
  {
    hide StoreInv, LedgerInv;
    var next := d.(drain := d.drain.(todo := d.drain.todo[1..]));
    AccountedGrows(d, next);
    SameStore(cfg, d, next);
    StillInDoor(d, next);
    forall id | InSocket(d, id) ensures InSocket(next, id) {}
  }

  lemma FlushStarts(cfg: Config, d: Durable)
    requires cfg.Valid() && Inv(cfg, d) && d.drain.Enqueuing? && d.drain.pending.None? && d.drain.todo == []
    ensures Inv(cfg, DrainNext(cfg, d))
  {
    hide Inv, DoorInv;
    InvParts(cfg, d);
    var client := Client.StartFlush(d.net.client);
    Net.LinkNextKeepsLink(cfg.socket, d.net, Net.Flush);
    Net.LinkKeeps(cfg.socket, d.net, client);
    SameCalls(d, client);
    NetKeeps(cfg, d, d.net.(client := client), Flushing(d.drain.exit), d.door.calls);
  }

  lemma InvParts(cfg: Config, d: Durable)
    requires Inv(cfg, d)
    ensures Net.CoreInv(cfg.socket, d.net) && StoreInv(cfg, d) && SafetyInv(d) && ResidentInv(d) && DoorInv(d) &&
        IntegrityInv(d) && LedgerInv(d.ledger)
  {
  }

  /** Calls do not mind a change of the link. */
  lemma SameCalls(d: Durable, client: Client.Client)
    requires DoorInv(d) && client.work == d.net.client.work && (client.accepting ==> d.net.client.accepting)
    ensures forall i :: 0 <= i < |d.door.calls| ==> CallOk(client, d.door.calls[i])
  {
    forall i | 0 <= i < |d.door.calls|
      ensures CallOk(client, d.door.calls[i])
    {
      assert CallOk(d.net.client, d.door.calls[i]);
    }
  }

  /** Changing nothing but the socket side, in a way that keeps what it is responsible for. */
  lemma NetKeeps(cfg: Config, d: Durable, net: Net.World, drain: Drain, calls: seq<CloseCall>)
    requires Inv(cfg, d) && Net.CoreInv(cfg.socket, net) &&
        SameOutbound(d.net, net.(client := net.client.(accepting := d.net.client.accepting)))
    requires Known(d.ledger.persisted, net.log) && KnownBatches(d.ledger.persisted, net.sent)
    requires drain == Settled(true) ==> !Client.Outstanding(net.client.work)
    requires drain.Enqueuing? ==> drain == d.drain
    requires forall i :: 0 <= i < |calls| ==> CallOk(net.client, calls[i])
    ensures Inv(cfg, d.(net := net, drain := drain, door := d.door.(calls := calls)))
  {
    hide StoreInv, LedgerInv;
    var next := d.(net := net, drain := drain, door := d.door.(calls := calls));
    AccountedGrows(d, next);
    SameStore(cfg, d, next);
    assert Net.Outbound(net) == Net.Outbound(d.net);
    forall id | InSocket(d, id) ensures InSocket(next, id) {}
  }

  lemma LearnIsRight(cfg: Config, d: Durable, e: Net.Event)
    requires Foreign(e) && ResidentInv(d)
    ensures SocketStep(cfg, d, e).drain == Settled(true) ==> !Client.Outstanding(SocketStep(cfg, d, e).net.client.work)
  {
    EndIsRight(cfg.socket, d.net, e);
    QuietStaysQuiet(cfg.socket, d.net, e);
  }

  /** A loop that ends at its head has nothing left to send. */
  lemma EndIsRight(cfg: Client.Config, w: Net.World, e: Net.Event)
    requires Foreign(e)
    ensures
      var next := Net.Next(cfg, w, e);
      Ends(w.client, next.client) && EndsWell(w.client) ==> !Client.Outstanding(next.client.work)
  {
    match e
    case OnLink(link) =>
    case _ =>
  }

  /** Without a write nothing becomes outstanding, and the door of the socket transport stays. */
  lemma QuietStaysQuiet(cfg: Client.Config, w: Net.World, e: Net.Event)
    requires Foreign(e)
    ensures !Client.Outstanding(w.client.work) ==> !Client.Outstanding(Net.Next(cfg, w, e).client.work)
    ensures Net.Next(cfg, w, e).client.accepting == w.client.accepting
  {
    match e
    case OnLink(link) =>
    case _ =>
  }

  lemma HearIsRight(cfg: Config, d: Durable, e: Net.Event)
    requires Foreign(e) && DoorInv(d)
    ensures
      var next := SocketStep(cfg, d, e);
      forall i :: 0 <= i < |next.door.calls| ==> CallOk(next.net.client, next.door.calls[i])
  {
    hide Net.Next, Ends, EndsWell, Client.Outstanding;
    EndIsRight(cfg.socket, d.net, e);
    QuietStaysQuiet(cfg.socket, d.net, e);
    var next := SocketStep(cfg, d, e);
    forall i | 0 <= i < |next.door.calls| ensures CallOk(next.net.client, next.door.calls[i]) {
      assert CallOk(d.net.client, d.door.calls[i]);
    }
  }

  lemma SocketStepKeeps(cfg: Config, d: Durable, e: Net.Event)
    requires cfg.Valid() && Inv(cfg, d)
    ensures Inv(cfg, SocketStep(cfg, d, e))
  {
    hide DoorInv, Net.Next, LedgerInv, Learn, Hear;
    if Foreign(e) {
      var net := Net.Next(cfg.socket, d.net, e);
      Net.NextKeeps(cfg.socket, d.net, e);
      ForeignIsQuiet(cfg.socket, d.net, e);
      ForeignSpreadsNothingNew(cfg.socket, d.net, e, d.ledger.persisted);
      LearnIsRight(cfg, d, e);
      HearIsRight(cfg, d, e);
      assert Learn(d.drain, d.net.client, net.client).Enqueuing? ==>
        Learn(d.drain, d.net.client, net.client) == d.drain by { LearnKeepsTodo(d, net); }
      NetKeeps(cfg, d, net, Learn(d.drain, d.net.client, net.client), Hear(d.door.calls, d.net.client, net.client));
    }
  }

  lemma LearnKeepsTodo(d: Durable, net: Net.World)
    ensures Learn(d.drain, d.net.client, net.client).Enqueuing? ==> Learn(d.drain, d.net.client, net.client) == d.drain
  {
  }

  /** Removing ids that are accounted for. */
  lemma RemoveKeeps(cfg: Config, d: Durable, next: Durable, ok: bool)
    requires Inv(cfg, d) && Grows(d, next)
    requires next == Remove(cfg, d, ok).(ledger := d.ledger.(abandoned := next.ledger.abandoned))
    requires forall id :: id in d.queue.resident ==> Accounted(next, id)
    ensures Inv(cfg, next)
  {
    hide DoorInv, ResidentInv, LedgerInv, Keep, Subsequence;
    AccountedGrows(d, next);
    RemovedIsSafe(cfg.store, d.queue, d.queue.resident, ok);
    SubsequenceKeeps(next.queue.entries, d.queue.entries);
    assert KnownEntries(d.ledger.persisted, next.queue.entries);
    WrittenIsGood(Store(cfg, d), next.queue, d.ledger.persisted);
    StillInDoor(d, next);
    StillResident(d, next);
    LedgerStays(d.ledger, next.ledger);
    RemoveKeepsCell(cfg, d, next, ok);
    forall id | id in CellIds(d.cell) ensures id in Ids(next.queue.entries) || Accounted(next, id) {
      assert id in Ids(d.queue.entries) || Accounted(d, id);
    }
  }

  lemma RemoveKeepsCell(cfg: Config, d: Durable, next: Durable, ok: bool)
    requires CellInv(d) && QueueInv(cfg.store, d.queue) && next.queue == Removed(d.queue, d.queue.resident, ok)
    requires next.cell == RemovedCell(Store(cfg, d), d.queue, d.queue.resident, d.cell, ok)
    ensures CellInv(next)
  {
    var kept := Keep(d.queue.entries, d.queue.resident);
    RemovedIsSafe(cfg.store, d.queue, d.queue.resident, ok);
    if ok {
      var pairs := set e | e in kept :: (e.recordId, e.record);
      WrittenIsGood(Store(cfg, d), next.queue, pairs);
    } else if d.cell.Holds? {
      forall c | c in d.cell.state.entries && c.entry.recordId in Ids(kept) ensures c.entry in kept {
        OnlyEntry(d.queue.entries, kept, c.entry);
      }
    }
  }

  /** The entry with an id that was kept was kept. */
  lemma OnlyEntry(entries: seq<Entry>, kept: seq<Entry>, e: Entry)
    requires DistinctEntries(entries) && e in entries && e.recordId in Ids(kept) &&
        forall k :: k in kept ==> k in entries
    ensures e in kept
  {
    var i :| 0 <= i < |kept| && kept[i].recordId == e.recordId;
    assert kept[i] in entries;
    SameEntry(entries, kept[i], e);
  }

  lemma SameEntry(entries: seq<Entry>, a: Entry, b: Entry)
    requires DistinctEntries(entries) && a in entries && b in entries && a.recordId == b.recordId
    ensures a == b
  {
    var i :| 0 <= i < |entries| && entries[i] == a;
    var j :| 0 <= j < |entries| && entries[j] == b;
  }

  /** Once the socket transport holds nothing, every resident record is on the server. */
  lemma DrainedIsStored(cfg: Config, d: Durable)
    requires Net.CoreInv(cfg.socket, d.net) && ResidentInv(d) && !Client.Outstanding(d.net.client.work)
    ensures forall id :: id in d.queue.resident ==> Net.HasId(d.net.log, id) || id in d.ledger.evicted
  {
    var done := Client.BatchRecords(d.net.committed);
    assert Net.Outbound(d.net) == done;
    CommittedIsStored(d.net.log, d.net.committed);
    forall id | id in d.queue.resident && id !in d.ledger.evicted ensures Net.HasId(d.net.log, id) {
      assert Net.HasId(done, id);
      var i :| 0 <= i < |done| && done[i].recordId == id;
    }
  }

  lemma {:induction false} CommittedIsStored(log: seq<Client.Queued>, committed: seq<Client.Batch>)
    requires forall i :: 0 <= i < |committed| ==> Net.HasIds(log, committed[i].records)
    ensures Net.HasIds(log, Client.BatchRecords(committed))
  {
    if committed != [] {
      var init, last := committed[..|committed| - 1], committed[|committed| - 1];
      CommittedIsStored(log, init);
      var all, before := Client.BatchRecords(committed), Client.BatchRecords(init);
      forall i | 0 <= i < |all| ensures Net.HasId(log, all[i].recordId) {
        if i < |before| { assert all[i] == before[i]; } else { assert all[i] == last.records[i - |before|]; }
      }
    }
  }

  /** Changing nothing but the drain and the calls. */
  lemma DoorKeeps(cfg: Config, d: Durable, next: Durable)
    requires Inv(cfg, d) && next == d.(drain := next.drain, door := next.door)
    requires forall i :: 0 <= i < |next.door.calls| ==> CallOk(d.net.client, next.door.calls[i])
    requires next.drain == Settled(true) ==> d.drain == Settled(true)
    requires next.drain.Enqueuing? ==>
        next.drain == d.drain || (next.drain.pending.None? && next.drain.todo == d.queue.entries)
    ensures Inv(cfg, next)
  {
    hide StoreInv, LedgerInv, Net.CoreInv, CallOk;
    AccountedGrows(d, next);
    SameStore(cfg, d, next);
    forall id | InSocket(d, id) ensures InSocket(next, id) {}
  }

  lemma ReplaceKeeps(c: Client.Client, calls: seq<CloseCall>, a: CloseCall, b: CloseCall)
    requires (forall i :: 0 <= i < |calls| ==> CallOk(c, calls[i])) && CallOk(c, b)
    ensures forall i :: 0 <= i < |calls| ==> CallOk(c, Replace(calls, a, b)[i])
  {
  }

  lemma SettleKeeps(cfg: Config, d: Durable, ok: bool)
    requires Inv(cfg, d)
    ensures Inv(cfg, SettleDrain(cfg, d, ok))
  {
    hide Inv, Removed, RemovedCell, StoreInv, Net.CoreInv, IntegrityInv, LedgerInv, SafetyInv;
    InvParts(cfg, d);
    if d.drain.Settled? {
      var over := d.(drain := Idle, door := d.door.(calls := Replace(d.door.calls, AwaitsDrain, MayClose)));
      ReplaceKeeps(d.net.client, d.door.calls, AwaitsDrain, MayClose);
      DoorKeeps(cfg, d, over);
      if d.drain.ok && d.queue.resident != {} {
        DrainedIsStored(cfg, d);
        RemoveKeeps(cfg, over, SettleDrain(cfg, d, ok), ok);
      }
    }
  }

  lemma WithoutKeeps(c: Client.Client, calls: seq<CloseCall>, k: nat)
    requires k < |calls| && forall i :: 0 <= i < |calls| ==> CallOk(c, calls[i])
    ensures forall i :: 0 <= i < |calls| - 1 ==> CallOk(c, Without(calls, k)[i])
  {
  }

  lemma FinishKeeps(cfg: Config, d: Durable, call: nat, ok: bool)
    requires Inv(cfg, d)
    ensures Inv(cfg, Finish(cfg, d, call, ok))
  {
    hide Inv, Removed, RemovedCell, StoreInv, Net.CoreInv, IntegrityInv, LedgerInv, SafetyInv;
    InvParts(cfg, d);
    if Over(d, call) {
      var state := d.door.calls[call];
      var shut := d.(door := d.door.(closed := true, calls := Without(d.door.calls, call)));
      WithoutKeeps(d.net.client, d.door.calls, call);
      DoorKeeps(cfg, d, shut);
      if state.Returned? && d.queue.resident != {} {
        if !state.late {
          assert CallOk(d.net.client, d.door.calls[call]);
          DrainedIsStored(cfg, d);
        }
        RemoveKeeps(cfg, shut, Finish(cfg, d, call, ok), ok);
      }
    }
  }

  lemma EnterInnerKeeps(cfg: Config, d: Durable, call: nat, fallback: bool)
    requires Inv(cfg, d)
    ensures Inv(cfg, EnterInner(d, call, fallback))
  {
    hide Inv, DoorInv;
    InvParts(cfg, d);
    if At(d, call, MayClose) {
      if d.net.client.closed {
        SameCalls(d, d.net.client);
        DoorKeeps(cfg, d, Moved(d, call, Returned(true)));
      } else {
        var shut := Client.BeginClose(d.net.client);
        Net.LinkNextKeepsLink(cfg.socket, d.net, Net.BeginClose);
        var w := d.net.(client := shut);
        Net.LinkNextKeepsLink(cfg.socket, w, if fallback then Net.StartExit else Net.Flush);
        var client := if fallback then Client.StartExit(shut) else Client.StartFlush(shut);
        assert d.net.(client := client) == w.(client := client);
        Net.LinkKeeps(cfg.socket, d.net, client);
        SameCalls(d, client);
        NetKeeps(cfg, d, d.net.(client := client), d.drain, d.door.calls[call := AwaitsFlush]);
      }
    }
  }

  lemma LeaveInnerKeeps(cfg: Config, d: Durable, call: nat)
    requires Inv(cfg, d)
    ensures Inv(cfg, LeaveInner(d, call))
  {
    hide Inv, DoorInv;
    InvParts(cfg, d);
    if call < |d.door.calls| && d.door.calls[call].Flushed? {
      var client := Client.EndClose(d.net.client);
      Net.LinkNextKeepsLink(cfg.socket, d.net, Net.EndClose);
      Net.LinkKeeps(cfg.socket, d.net, client);
      SameCalls(d, client);
      NetKeeps(cfg, d, d.net.(client := client), d.drain,
        d.door.calls[call := if d.door.calls[call].ok then Returned(false) else Failed]);
    }
  }

  lemma StaleKeeps(cfg: Config, d: Durable, index: nat)
    requires Inv(cfg, d) && index < |d.stale|
    ensures Inv(cfg, ApplyStale(d, index))
  {
    hide Inv;
    InvParts(cfg, d);
    var net := d.net.(log := Net.Absorb(d.net.log, d.stale[index].records));
    Net.AbsorbGrows(d.net.log, d.stale[index].records);
    Net.LogGrowthKeeps(d.net, net);
    AbsorbKnows(d.ledger.persisted, d.net.log, d.stale[index].records);
    NetKeeps(cfg, d, net, d.drain, d.door.calls);
  }

  /** What a restore leaves in memory comes from the cell, and what it loses from it is reported. */
  lemma ReloadAccounts(cfg: PersistentQueue.Config, state: Stored, now: nat, ok: bool, pairs: set<(string, Record)>)
    requires cfg.Valid() && state.fingerprint == cfg.fingerprint
    requires forall c :: c in state.entries ==>
        c.Shaped? && !Blank(c.entry.recordId) && (c.entry.recordId, c.entry.record) in pairs
    ensures
      var r := Restore(cfg, Holds(state), now, true, ok);
      QueueInv(cfg, r.queue) && r.queue.resident == {} && KnownEntries(pairs, r.queue.entries) &&
      Ids(r.queue.entries) <= CellIds(r.cell) <= CandidateIds(state.entries) &&
      CandidateIds(state.entries) <= Ids(r.queue.entries) + DropIds(r.queue.drops) &&
      (forall e :: e in r.queue.entries ==> Shaped(e) in state.entries) &&
      r.cell == if ok then Written(cfg, r.queue.entries, r.queue.nextSequence) else Holds(state)
  {
    var r := Restore(cfg, Holds(state), now, true, ok);
    RestoreRepairs(cfg, state, now, ok);
    forall e | e in r.queue.entries ensures Shaped(e) in state.entries && (e.recordId, e.record) in pairs {
      var i :| 0 <= i < |r.queue.entries| && r.queue.entries[i] == e;
      assert Shaped(e) in state.entries;
    }
    forall id | id in Ids(r.queue.entries) ensures id in CandidateIds(state.entries) {
      var i :| 0 <= i < |r.queue.entries| && r.queue.entries[i].recordId == id;
      var j :| 0 <= j < |state.entries| && state.entries[j] == Shaped(r.queue.entries[i]);
    }
    forall id | id in CandidateIds(state.entries) ensures id in Ids(r.queue.entries) + DropIds(r.queue.drops) {
      var i :| 0 <= i < |state.entries| && state.entries[i].Shaped? && state.entries[i].entry.recordId == id;
      assert state.entries[i] in state.entries;
    }
    WrittenIds(cfg, r.queue.entries, r.queue.nextSequence);
  }

  /** Stored entries have ids of their own, so that what is restored under an id is what was
      stored. */
  lemma ReloadKeepsCell(cfg: Config, d: Durable, fingerprint: string, now: nat, ok: bool)
    requires cfg.Valid() && Inv(cfg, d) && d.cell.Holds? && d.cell.state.fingerprint == fingerprint
    ensures
      var next := Restart(cfg, d, fingerprint, now, true, ok);
      CellInv(next) && !next.cell.Garbage? &&
      (next.cell.Holds? ==> forall c ::
        c in next.cell.state.entries ==> (c.entry.recordId, c.entry.record) in d.ledger.persisted)
  {
    hide Restore, Net.CoreInv, ResidentInv, SafetyInv, DoorInv;
    var store := cfg.store.(fingerprint := fingerprint);
    var next := Restart(cfg, d, fingerprint, now, true, ok);
    ReloadAccounts(store, d.cell.state, now, ok, d.ledger.persisted);
    if ok {
      WrittenIsGood(store, next.queue, d.ledger.persisted);
    } else {
      forall c | c in d.cell.state.entries && c.entry.recordId in Ids(next.queue.entries)
        ensures c.entry in next.queue.entries
      {
        OnlyCandidate(d.cell.state.entries, next.queue.entries, c);
      }
    }
  }

  lemma OnlyCandidate(candidates: seq<Candidate>, entries: seq<Entry>, c: Candidate)
    requires forall k :: k in candidates ==> k.Shaped?
    requires forall i, j :: 0 <= i < j < |candidates| ==> candidates[i].entry.recordId != candidates[j].entry.recordId
    requires (forall e :: e in entries ==> Shaped(e) in candidates) && c in candidates &&
        c.entry.recordId in Ids(entries)
    ensures c.entry in entries
  {
    var i :| 0 <= i < |entries| && entries[i].recordId == c.entry.recordId;
    assert Shaped(entries[i]) in candidates;
    var j :| 0 <= j < |candidates| && candidates[j] == Shaped(entries[i]);
    var k :| 0 <= k < |candidates| && candidates[k] == c;
  }

  lemma RebornKeeps(cfg: Config, d: Durable)
    requires Inv(cfg, d)
    ensures Net.CoreInv(cfg.socket, Reborn(d)) && Net.Outbound(Reborn(d)) == [] &&
        !Client.Outstanding(Reborn(d).client.work)
  {
  }

  lemma RestartKeeps(cfg: Config, d: Durable, fingerprint: string, now: nat, readable: bool, ok: bool)
    requires cfg.Valid() && Inv(cfg, d)
    ensures Inv(cfg, Restart(cfg, d, fingerprint, now, readable, ok))
  {
    hide Restore, ResidentInv, SafetyInv, LedgerInv, Net.CoreInv;
    var next := Restart(cfg, d, fingerprint, now, readable, ok);
    RebornKeeps(cfg, d);
    RestoredIsGood(cfg, d, fingerprint, now, readable, ok);
    assert KnownBatches(d.ledger.persisted, next.stale);
    LedgerStays(d.ledger, next.ledger);
    AccountedGrows(d, next);
    RestartIsSafe(cfg, d, next, fingerprint, now, readable, ok);
    NothingResident(next);
  }

  lemma NothingResident(d: Durable)
    requires d.queue.resident == {} && d.drain == Idle
    ensures ResidentInv(d)
  {
  }

  /** Memory and storage after a restart. */
  lemma RestoredIsGood(cfg: Config, d: Durable, fingerprint: string, now: nat, readable: bool, ok: bool)
    requires cfg.Valid() && Inv(cfg, d)
    ensures
      var next := Restart(cfg, d, fingerprint, now, readable, ok);
      StoreInv(cfg, next) && next.queue.resident == {} && KnownEntries(d.ledger.persisted, next.queue.entries) &&
      (next.cell.Holds? ==> forall c ::
        c in next.cell.state.entries ==> (c.entry.recordId, c.entry.record) in d.ledger.persisted) &&
      (if readable && d.cell.Holds? && d.cell.state.fingerprint == fingerprint then
         Ids(next.queue.entries) <= CellIds(next.cell) <= CellIds(d.cell) <= Ids(next.queue.entries) +
           DropIds(next.queue.drops)
       else next.queue.entries == [] && Ids(next.queue.entries) == {} && CellIds(next.cell) <= CellIds(d.cell))
  {
    if readable && d.cell.Holds? && d.cell.state.fingerprint == fingerprint {
      hide Restore, Net.CoreInv, ResidentInv, SafetyInv, DoorInv;
      ReloadAccounts(cfg.store.(fingerprint := fingerprint), d.cell.state, now, ok, d.ledger.persisted);
      ReloadKeepsCell(cfg, d, fingerprint, now, ok);
    } else {
      hide Net.CoreInv, ResidentInv, SafetyInv, DoorInv;
      assert Ids([]) == {};
    }
  }

  lemma RestartIsSafe(cfg: Config, d: Durable, next: Durable, fingerprint: string, now: nat, readable: bool, ok: bool)
    requires cfg.Valid() && SafetyInv(d) && !d.cell.Garbage? && Grows(d, next)
    requires next == Restart(cfg, d, fingerprint, now, readable, ok)
    requires
      if readable && d.cell.Holds? && d.cell.state.fingerprint == fingerprint then
        Ids(next.queue.entries) <= CellIds(next.cell) <= CellIds(d.cell) <= Ids(next.queue.entries) +
          DropIds(next.queue.drops)
      else next.queue.entries == [] && Ids(next.queue.entries) == {} && CellIds(next.cell) <= CellIds(d.cell)
    ensures SafetyInv(next)
  {
    AccountedGrows(d, next);
    if !(readable && d.cell.Holds? && d.cell.state.fingerprint == fingerprint) {
      assert forall id :: id in CellIds(d.cell) ==> Accounted(next, id);
    }
  }

  lemma BeginCloseKeeps(cfg: Config, d: Durable)
    requires Inv(cfg, d)
    ensures Inv(cfg, BeginClose(d))
  {
    hide Inv;
    InvParts(cfg, d);
    DoorKeeps(cfg, d, BeginClose(d));
  }

  lemma StartDrainKeeps(cfg: Config, d: Durable, exit: bool)
    requires Inv(cfg, d)
    ensures Inv(cfg, d.(drain := Enqueuing(d.queue.entries, None, exit)))
  {
    hide Inv;
    InvParts(cfg, d);
    DoorKeeps(cfg, d, d.(drain := Enqueuing(d.queue.entries, None, exit)));
  }

  lemma NextKeeps(cfg: Config, d: Durable, e: Event)
    requires cfg.Valid() && Inv(cfg, d)
    ensures Inv(cfg, Next(cfg, d, e))
  {
    hide Inv, Persist, DrainNext, SocketStep, SettleDrain, BeginClose, EnterInner, LeaveInner, Finish, Restart,
      ApplyStale;
    match e
    case Write(record, recordId, now, ok) => PersistKeeps(cfg, d, record, recordId, now, ok);
    case StartDrain(exit) => StartDrainKeeps(cfg, d, exit);
    case DrainStep => DrainNextKeeps(cfg, d);
    case Socket(event) => SocketStepKeeps(cfg, d, event);
    case Settle(ok) => SettleKeeps(cfg, d, ok);
    case Close => BeginCloseKeeps(cfg, d);
    case CloseInner(call, fallback) => EnterInnerKeeps(cfg, d, call, fallback);
    case InnerCloses(call) => LeaveInnerKeeps(cfg, d, call);
    case FinishClose(call, ok) => FinishKeeps(cfg, d, call, ok);
    case Crash(fingerprint, now, readable, ok) => RestartKeeps(cfg, d, fingerprint, now, readable, ok);
    case StaleApplies(index) => if index < |d.stale| { StaleKeeps(cfg, d, index); } else { NoStale(d, index); }
  }

  lemma NoStale(d: Durable, index: nat)
    requires index >= |d.stale|
    ensures ApplyStale(d, index) == d
  {
  }

  lemma StartKeeps(cfg: Config, session: string)
    requires cfg.Valid()
    ensures Inv(cfg, Start(session))
  {
    assert Ids([]) == {};
  }

  lemma {:induction false} RunKeeps(cfg: Config, session: string, events: seq<Event>)
    requires cfg.Valid()
    ensures Inv(cfg, Run(cfg, session, events))
  {
    hide Inv, Next, Start;
    if events == [] {
      StartKeeps(cfg, session);
    } else {
      RunKeeps(cfg, session, events[..|events| - 1]);
      NextKeeps(cfg, Run(cfg, session, events[..|events| - 1]), events[|events| - 1]);
    }
  }
}
