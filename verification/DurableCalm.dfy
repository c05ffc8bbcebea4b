/** When the write-ahead queue of `DurableSystem` loses nothing at all: in every run in which its
    callers keep to four rules. */
module DurableCalm {
  import opened Common
  import opened PersistentQueue
  import opened DurableSystem
  import opened DurableTheorems
  import Client = IngestClient
  import Net = IngestSystem

  type Config = DurableSystem.Config

  /** What a caller can see to: no write under an id that was persisted before, none into a full
      persistent queue while a drain hands records over, no `close` while another is pending, and
      storage that can be read at start-up. */
  predicate Calm(cfg: Config, d: Durable, e: Event) {
    match e
    case Write(_, recordId, _, _) => !Used(d.ledger, recordId) &&
      (d.drain.Enqueuing? ==> |d.queue.entries| < cfg.store.maxRecords)
    case Close => d.door.calls == []
    case Crash(_, _, readable, _) => readable
    case _ => true
  }

  ghost predicate CalmRun(cfg: Config, session: string, events: seq<Event>) {
    forall k :: 0 <= k < |events| ==> Calm(cfg, Run(cfg, session, events[..k]), events[k])
  }

  function Holding(d: Durable): set<string> {
    d.queue.resident + if d.drain.Enqueuing? && d.drain.pending.Some? then {d.drain.pending.value} else {}
  }

  ghost predicate QueuedIn(queue: seq<Client.Queued>, ids: set<string>) {
    Net.DistinctIds(queue) && forall i :: 0 <= i < |queue| ==> queue[i].recordId in ids
  }

  /** The socket queue holds distinct resident entries only. */
  ghost predicate RoomInv(d: Durable) {
    Holding(d) <= Ids(d.queue.entries) && QueuedIn(d.net.client.work.queue, Holding(d)) &&
    (d.drain.Enqueuing? && d.drain.pending.Some? ==> d.drain.pending.value !in d.queue.resident) &&
    (d.drain.Enqueuing? && d.net.client.accepting ==>
       Ids(d.drain.todo) <= Ids(d.queue.entries) && DistinctEntries(d.drain.todo) &&
       (d.drain.pending.Some? ==> d.drain.pending.value !in Ids(d.drain.todo)))
  }

  /** One `close` at a time, which finds the socket transport open. */
  ghost predicate OneClose(d: Durable) {
    |d.door.calls| <= 1 && (d.door.calls != [] ==> !d.door.closed && d.door.calls[0] != Returned(true)) &&
    (d.net.client.closed ==> d.door.closed || (d.door.calls != [] && Over(d, 0)))
  }

  ghost predicate CalmInv(d: Durable) {
    Endangered(d.ledger) == {} && RoomInv(d) && OneClose(d)
  }

  lemma DistinctCount(queue: seq<Client.Queued>, ids: set<string>, extra: string)
    requires QueuedIn(queue, ids) && extra !in ids
    ensures |queue| + 1 <= |ids + {extra}|
  {
    var here := set i | 0 <= i < |queue| :: queue[i].recordId;
    DistinctCard(queue);
    SubsetSize(here, ids);
  }

  lemma {:induction false} DistinctCard(queue: seq<Client.Queued>)
    requires Net.DistinctIds(queue)
    ensures |set i | 0 <= i < |queue| :: queue[i].recordId| == |queue|
  {
    if queue != [] {
      var init, last := queue[..|queue| - 1], queue[|queue| - 1];
      DistinctCard(init);
      var before := set i | 0 <= i < |init| :: init[i].recordId;
      assert (set i | 0 <= i < |queue| :: queue[i].recordId) == before + {last.recordId};
    }
  }

  lemma {:induction false} IdsCard(entries: seq<Entry>)
    ensures |Ids(entries)| <= |entries|
  {
    if entries == [] {
      assert Ids([]) == {};
    } else {
      var init, last := entries[..|entries| - 1], entries[|entries| - 1];
      assert entries == init + [last];
      IdsCard(init);
      IdsSnoc(init, last);
    }
  }

  /** The entry to hand over is in memory and not in the socket queue, so there is room for it. */
  lemma RoomInSocket(cfg: Config, d: Durable, head: Entry)
    requires cfg.Valid() && |d.queue.entries| <= cfg.store.maxRecords &&
        QueuedIn(d.net.client.work.queue, d.queue.resident)
    requires d.queue.resident <= Ids(d.queue.entries) && head.recordId in Ids(d.queue.entries)
    requires head.recordId !in d.queue.resident
    ensures !Client.Full(cfg.socket, d.net.client.work)
  {
    DistinctCount(d.net.client.work.queue, d.queue.resident, head.recordId);
    SubsetSize(d.queue.resident + {head.recordId}, Ids(d.queue.entries));
    IdsCard(d.queue.entries);
  }

  lemma CalmHandOver(cfg: Config, d: Durable, head: Entry)
    requires cfg.Valid() && StoreInv(cfg, d) && CalmInv(d)
    requires d.drain.Enqueuing? && d.drain.pending.None? && d.drain.todo != [] && d.drain.todo[0] == head
    requires head.recordId !in d.queue.resident
    ensures CalmInv(HandOver(cfg, d, head))
  {
    TailOf(d.drain.todo);
    if Client.Admits(cfg.socket, d.net.client.accepting, head.record) {
      assert head.recordId in Ids(d.drain.todo);
      RoomInSocket(cfg, d, head);
      hide Ids, DistinctEntries, StoreInv;
      QueuedMore(d.net.client.work.queue, d.queue.resident, Client.Queued(head.recordId, head.record));
    }
  }

  lemma QueuedMore(queue: seq<Client.Queued>, ids: set<string>, q: Client.Queued)
    requires QueuedIn(queue, ids) && q.recordId !in ids
    ensures QueuedIn(queue + [q], ids + {q.recordId})
  {
  }

  lemma TailOf(todo: seq<Entry>)
    requires todo != []
    ensures Ids(todo[1..]) <= Ids(todo)
    ensures DistinctEntries(todo) ==> DistinctEntries(todo[1..]) && todo[0].recordId !in Ids(todo[1..])
  {
    var rest := todo[1..];
    assert forall i :: 0 <= i < |rest| ==> rest[i] == todo[i + 1];
  }

  lemma CalmWrite(cfg: Config, d: Durable, record: Record, recordId: string, now: nat, ok: bool)
    requires cfg.Valid() && StoreInv(cfg, d) && CalmInv(d) && Calm(cfg, d, Write(record, recordId, now, ok))
    ensures CalmInv(DurableSystem.Persist(cfg, d, record, recordId, now, ok))
  {
    hide OneClose, CellInv;
    var next := DurableSystem.Persist(cfg, d, record, recordId, now, ok);
    SameCloses(d, next);
    if d.door.accepting {
      var p := PersistentQueue.Persist(Store(cfg, d), d.queue, d.cell, record, recordId, now, ok);
      PersistIsSafe(Store(cfg, d), d.queue, d.cell, record, recordId, now, ok);
      if p.done && d.drain.Enqueuing? {
        assert p.queue.entries == d.queue.entries + [NewEntry(d.queue, record, recordId, now)];
        IdsSnoc(d.queue.entries, NewEntry(d.queue, record, recordId, now));
      }
    }
  }

  lemma SameCloses(d: Durable, next: Durable)
    requires OneClose(d) && next.door.calls == d.door.calls && next.door.closed == d.door.closed
    requires next.net.client.closed ==> d.net.client.closed
    ensures OneClose(next)
  {
  }

  /** The socket transport takes from its queue at the head only. */
  lemma ForeignShortensQueue(cfg: Client.Config, w: Net.World, e: Net.Event) returns (k: nat)
    requires Foreign(e)
    ensures k <= |w.client.work.queue| && Net.Next(cfg, w, e).client.work.queue == w.client.work.queue[k..]
    ensures Net.Next(cfg, w, e).client.accepting == w.client.accepting
    ensures Net.Next(cfg, w, e).client.closed == w.client.closed
  {
    var queue := w.client.work.queue;
    k := if Net.Next(cfg, w, e).client.work.queue == queue then 0 else Client.Min(cfg.batchSize, |queue|);
    match e
    case OnLink(link) =>
    case _ =>
  }

  lemma CalmSocket(cfg: Config, d: Durable, e: Net.Event)
    requires CalmInv(d)
    ensures CalmInv(SocketStep(cfg, d, e))
  {
    hide Net.Next;
    if Foreign(e) {
      var k := ForeignShortensQueue(cfg.socket, d.net, e);
    }
  }

  lemma CalmRemove(cfg: Config, d: Durable, ok: bool)
    requires CalmInv(d) && !Client.Outstanding(d.net.client.work)
    requires d.drain.Enqueuing? ==> !d.net.client.accepting
    ensures CalmInv(Remove(cfg, d, ok))
  {
  }

  lemma CalmDrainStep(cfg: Config, d: Durable)
    requires cfg.Valid() && StoreInv(cfg, d) && CalmInv(d)
    ensures CalmInv(DrainNext(cfg, d))
  {
    hide StoreInv, HandOver;
    if d.drain.Enqueuing? && d.drain.pending.None? && d.drain.todo != [] {
      TailOf(d.drain.todo);
      if d.drain.todo[0].recordId !in d.queue.resident { CalmHandOver(cfg, d, d.drain.todo[0]); }
    }
  }

  lemma CalmRestart(cfg: Config, d: Durable, fingerprint: string, now: nat, ok: bool)
    requires cfg.Valid() && Inv(cfg, d) && CalmInv(d)
    ensures CalmInv(Restart(cfg, d, fingerprint, now, true, ok))
  {
    if d.cell.Holds? && d.cell.state.fingerprint == fingerprint {
      ReloadAccounts(cfg.store.(fingerprint := fingerprint), d.cell.state, now, ok, d.ledger.persisted);
    }
  }

  lemma CalmOthers(cfg: Config, d: Durable, e: Event)
    requires Inv(cfg, d) && CalmInv(d) && Calm(cfg, d, e)
    requires e.StartDrain? || e.Close? || e.StaleApplies?
    ensures CalmInv(Next(cfg, d, e))
  {
    hide Net.CoreInv, SafetyInv, IntegrityInv, CellInv;
  }

  lemma CalmSettle(cfg: Config, d: Durable, ok: bool)
    requires CalmInv(d) && ResidentInv(d)
    ensures CalmInv(SettleDrain(cfg, d, ok))
  {
    hide Remove;
    if d.drain.Settled? {
      var over := d.(drain := Idle, door := d.door.(calls := Replace(d.door.calls, AwaitsDrain, MayClose)));
      assert CalmInv(over);
      if d.drain.ok { CalmRemove(cfg, over, ok); }
    }
  }

  lemma CalmInner(d: Durable, call: nat, fallback: bool)
    requires CalmInv(d)
    ensures CalmInv(EnterInner(d, call, fallback)) && CalmInv(LeaveInner(d, call))
  {
  }

  /** A `close` that is alone is not late. */
  lemma CalmFinish(cfg: Config, d: Durable, call: nat, ok: bool)
    requires CalmInv(d) && DoorInv(d)
    ensures CalmInv(Finish(cfg, d, call, ok)) && !LateClose(d, FinishClose(call, ok))
  {
    hide Removed, RemovedCell, RoomInv;
    if Over(d, call) {
      assert call == 0;
      var shut := d.(door := d.door.(closed := true, calls := Without(d.door.calls, call)));
      assert CalmInv(shut) by { SameRoom(d, shut); }
      if d.door.calls[call] == Returned(false) {
        assert CallOk(d.net.client, d.door.calls[call]);
        CalmRemove(cfg, shut, ok);
      }
    }
  }

  lemma SameRoom(d: Durable, next: Durable)
    requires RoomInv(d) && next == d.(door := next.door)
    ensures RoomInv(next)
  {
  }

  lemma CalmNext(cfg: Config, d: Durable, e: Event)
    requires cfg.Valid() && Inv(cfg, d) && CalmInv(d) && Calm(cfg, d, e)
    ensures CalmInv(Next(cfg, d, e))
  {
    hide DurableSystem.Persist, DrainNext, SocketStep, Restart, SettleDrain, Finish, EnterInner, LeaveInner, CalmInv;
    match e
    case Write(record, recordId, now, ok) => CalmWrite(cfg, d, record, recordId, now, ok);
    case DrainStep => CalmDrainStep(cfg, d);
    case Socket(event) => CalmSocket(cfg, d, event);
    case Settle(ok) => CalmSettle(cfg, d, ok);
    case CloseInner(call, fallback) => CalmInner(d, call, fallback);
    case InnerCloses(call) => CalmInner(d, call, false);
    case FinishClose(call, ok) => CalmFinish(cfg, d, call, ok);
    case Crash(fingerprint, now, readable, ok) => CalmRestart(cfg, d, fingerprint, now, ok);
    case _ => CalmOthers(cfg, d, e);
  }

  lemma {:induction false} CalmRunKeeps(cfg: Config, session: string, events: seq<Event>)
    requires cfg.Valid() && CalmRun(cfg, session, events)
    ensures CalmInv(Run(cfg, session, events))
  {
    if events == [] {
      assert Ids([]) == {};
    } else {
      var init, k := events[..|events| - 1], |events| - 1;
      assert forall j :: 0 <= j < k ==> init[..j] == events[..j];
      CalmRunKeeps(cfg, session, init);
      RunKeeps(cfg, session, init);
      assert events[..k] == init;
      CalmNext(cfg, Run(cfg, session, init), events[k]);
    }
  }

  /** In a calm run none of the accidents happens: the socket queue never evicts, and every
      persisted record is in storage, on the server, or reported as dropped. */
  lemma {:induction false} CalmRunsLoseNothing(cfg: Config, session: string, events: seq<Event>, p: Pair)
    requires cfg.Valid() && CalmRun(cfg, session, events) && p in Run(cfg, session, events).ledger.persisted
    ensures Safe(Run(cfg, session, events), p) && Endangered(Run(cfg, session, events).ledger) == {}
  {
    CalmRunKeeps(cfg, session, events);
    RunKeeps(cfg, session, events);
    SafeOrEndangered(cfg, Run(cfg, session, events), p);
  }

  /** In a calm run whatever is removed as committed is on the server. */
  lemma {:induction false} CalmRemovalsAreStored(cfg: Config, session: string, events: seq<Event>, p: Pair)
    requires cfg.Valid() && CalmRun(cfg, session, events) && p in Run(cfg, session, events).ledger.persisted
    requires
      var d := Run(cfg, session, events);
      p.0 in d.queue.resident &&
      (d.drain == Settled(true) || exists call: nat :: Over(d, call) && d.door.calls[call].Returned?)
    ensures OnServer(Run(cfg, session, events).net.log, p)
  {
    hide Run, Net.CoreInv, StoreInv;
    var d := Run(cfg, session, events);
    CalmRunKeeps(cfg, session, events);
    RunKeeps(cfg, session, events);
    if d.drain != Settled(true) {
      var call: nat :| Over(d, call) && d.door.calls[call].Returned?;
      assert call == 0;
      assert d.door.calls[0] == Returned(false);
    }
    ResidentIsStored(cfg, d, p);
  }
}
