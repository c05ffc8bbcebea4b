/** What holds in every run of the write-ahead queue with crashes, and when no accident can happen. */
module DurableTheorems {
  import opened Common
  import opened PersistentQueue
  import opened DurableSystem
  import Client = IngestClient
  import Net = IngestSystem

  type Config = DurableSystem.Config

  lemma ReachableKeeps(cfg: Config, d: Durable)
    requires cfg.Valid() && Reachable(cfg, d)
    ensures Inv(cfg, d)
  {
    var session, states, events :| Trace(cfg, session, states, events) && states[|events|] == d;
    TraceIsRun(cfg, session, states, events);
    RunKeeps(cfg, session, events);
  }

  type Pair = (string, Record)

  ghost predicate InCell(cell: Cell, p: Pair) {
    cell.Holds? && exists c :: c in cell.state.entries && c.Shaped? && (c.entry.recordId, c.entry.record) == p
  }

  ghost predicate OnServer(log: seq<Client.Queued>, p: Pair) { Client.Queued(p.0, p.1) in log }

  /** In storage, on the server, or dropped with a report. */
  ghost predicate Safe(d: Durable, p: Pair) {
    InCell(d.cell, p) || OnServer(d.net.log, p) || p.0 in d.ledger.reported
  }

  /** The ids of the records that can be lost. */
  function Endangered(l: Ledger): set<string> { l.evicted + l.unread + l.abandoned + l.reused }

  /** An id that was not reused stands for its record in storage and on the server. */
  lemma IdIsPair(cfg: Config, d: Durable, p: Pair)
    requires Inv(cfg, d) && p in d.ledger.persisted && p.0 !in d.ledger.reused
    ensures p.0 in CellIds(d.cell) ==> InCell(d.cell, p)
    ensures Net.HasId(d.net.log, p.0) ==> OnServer(d.net.log, p)
  {
    if p.0 in CellIds(d.cell) {
      var i :| 0 <= i < |d.cell.state.entries| && d.cell.state.entries[i].Shaped? &&
        d.cell.state.entries[i].entry.recordId == p.0;
      assert d.cell.state.entries[i] in d.cell.state.entries;
    }
    if Net.HasId(d.net.log, p.0) {
      var i :| 0 <= i < |d.net.log| && d.net.log[i].recordId == p.0;
      assert (d.net.log[i].recordId, d.net.log[i].record) in d.ledger.persisted;
      assert d.net.log[i] == Client.Queued(p.0, p.1);
    }
  }

  lemma SafeOrEndangered(cfg: Config, d: Durable, p: Pair)
    requires Inv(cfg, d) && p in d.ledger.persisted
    ensures Safe(d, p) || p.0 in Endangered(d.ledger)
  {
    if p.0 !in d.ledger.reused {
      IdIsPair(cfg, d, p);
      assert p.0 in CellIds(d.cell) || Accounted(d, p.0);
    }
  }

  /** Main theorem: whatever crashes, storage failures and network faults happen, a record that was
      persisted is in storage, on the server, or was dropped with a report, or its id met one of the
      named accidents. */
  lemma {:induction false} NothingIsLostSilently(cfg: Config, d: Durable, p: Pair)
    requires cfg.Valid() && Reachable(cfg, d) && p in d.ledger.persisted
    ensures Safe(d, p) || p.0 in Endangered(d.ledger)
  {
    hide Inv, Safe, Endangered;
    ReachableKeeps(cfg, d);
    SafeOrEndangered(cfg, d, p);
  }

  lemma ResidentIsStored(cfg: Config, d: Durable, p: Pair)
    requires Inv(cfg, d) && p in d.ledger.persisted && p.0 in d.queue.resident
    requires d.drain == Settled(true) || Returned(false) in d.door.calls
    ensures OnServer(d.net.log, p) || p.0 in d.ledger.evicted || p.0 in d.ledger.reused
  {
    hide Net.CoreInv, StoreInv;
    if Returned(false) in d.door.calls {
      var i :| 0 <= i < |d.door.calls| && d.door.calls[i] == Returned(false);
      assert CallOk(d.net.client, d.door.calls[i]);
    }
    DrainedIsStored(cfg, d);
    if p.0 !in d.ledger.reused { IdIsPair(cfg, d, p); }
  }

  /** `removeCommitted` after a drain, or in a `close` that was not late, removes only records the
      server has, ids that the socket queue evicted, and reused ids. */
  lemma {:induction false} RemovedAreStored(cfg: Config, d: Durable, p: Pair)
    requires cfg.Valid() && Reachable(cfg, d) && p in d.ledger.persisted && p.0 in d.queue.resident
    requires d.drain == Settled(true) || Returned(false) in d.door.calls
    ensures OnServer(d.net.log, p) || p.0 in d.ledger.evicted || p.0 in d.ledger.reused
  {
    hide Inv, OnServer;
    ReachableKeeps(cfg, d);
    ResidentIsStored(cfg, d, p);
  }

  // ---------------------------------------------------------------- the step that loses a record

  /** The call of `persistRecord` that the event makes. */
  function Attempt(cfg: Config, d: Durable, e: Event): Persisted
    requires e.Write?
  {
    PersistentQueue.Persist(Store(cfg, d), d.queue, d.cell, e.record, e.recordId, e.now, e.ok)
  }

  /** The event writes memory, less what is resident, to storage. */
  predicate Removes(d: Durable, e: Event) {
    match e
    case Settle(ok) => ok && d.drain == Settled(true) && d.queue.resident != {}
    case FinishClose(call, ok) => ok && call < |d.door.calls| && d.door.calls[call].Returned? && d.queue.resident != {}
    case _ => false
  }

  /** A removal takes the record away, because it is resident or because memory had lost it before;
      or a record is persisted when memory does not hold this one: under another id, or under the
      same id where the new record stays. */
  predicate Loses(cfg: Config, d: Durable, e: Event, p: Pair) {
    (Removes(d, e) && (p.0 in d.queue.resident || p.0 !in Ids(d.queue.entries))) ||
    (e.Write? && d.door.accepting && Attempt(cfg, d, e).done && p.0 !in Ids(d.queue.entries) &&
     (e.recordId == p.0 ==> e.record != p.1 && p.0 in Ids(Attempt(cfg, d, e).queue.entries)))
  }

  /** The event is the end of a `close` that found the socket transport closed. */
  predicate LateClose(d: Durable, e: Event) {
    e.FinishClose? && At(d, e.call, Returned(true))
  }

  /** Main theorem on losses: a stored record that nobody else has leaves storage, unreported, at
      exactly these events. */
  lemma {:induction false} LostExactlyWhen(cfg: Config, d: Durable, e: Event, p: Pair)
    requires cfg.Valid() && Reachable(cfg, d) && p in d.ledger.persisted
    requires InCell(d.cell, p) && !OnServer(d.net.log, p) && p.0 !in d.ledger.reported
    ensures !Safe(Next(cfg, d, e), p) <==> Loses(cfg, d, e, p)
  {
    ReachableKeeps(cfg, d);
    hide Inv, Reachable, Safe, DurableSystem.Persist, DrainNext, SocketStep, SettleDrain, BeginClose, EnterInner,
      LeaveInner, Finish, Restart,
      ApplyStale;
    match e
    case Write(_, _, _, _) => WriteLoses(cfg, d, e, p);
    case Settle(ok) => SettleLoses(cfg, d, ok, p);
    case FinishClose(call, ok) => FinishLoses(cfg, d, call, ok, p);
    case Crash(fingerprint, now, readable, ok) => CrashReports(cfg, d, fingerprint, now, readable, ok, p);
    case _ => OthersLeaveStorage(cfg, d, e, p);
  }

  /** What else is behind it: the id met an accident before, was used before, or the `close` is
      late. */
  lemma {:induction false} LossesHaveACause(cfg: Config, d: Durable, e: Event, p: Pair)
    requires cfg.Valid() && Reachable(cfg, d) && p in d.ledger.persisted
    requires InCell(d.cell, p) && !OnServer(d.net.log, p) && p.0 !in d.ledger.reported && Loses(cfg, d, e, p)
    ensures p.0 in Endangered(Next(cfg, d, e).ledger) || LateClose(d, e)
  {
    ReachableKeeps(cfg, d);
    hide Inv, Reachable;
    if p.0 !in Endangered(d.ledger) {
      StoredId(d, p);
      if p.0 !in d.queue.resident || e.Write? {
        Remembered(cfg, d, p);
      } else if !LateClose(d, e) {
        if e.FinishClose? { assert d.door.calls[e.call] == Returned(false); }
        RemovedAreStored(cfg, d, p);
      }
    } else { EndangeredStays(cfg, d, e, p.0); }
  }

  lemma StoredId(d: Durable, p: Pair)
    requires InCell(d.cell, p)
    ensures p.0 in CellIds(d.cell)
  {
    var c :| c in d.cell.state.entries && c.Shaped? && (c.entry.recordId, c.entry.record) == p;
    var i :| 0 <= i < |d.cell.state.entries| && d.cell.state.entries[i] == c;
  }

  /** Memory forgets nothing but what met an accident. */
  lemma Remembered(cfg: Config, d: Durable, p: Pair)
    requires Inv(cfg, d) && p in d.ledger.persisted && InCell(d.cell, p) && !OnServer(d.net.log, p) &&
        p.0 !in d.ledger.reported
    requires p.0 !in Endangered(d.ledger)
    ensures p.0 in Ids(d.queue.entries)
  {
    StoredId(d, p);
    IdIsPair(cfg, d, p);
    hide Net.CoreInv, StoreInv;
    assert p.0 in Ids(d.queue.entries) || Accounted(d, p.0);
  }

  lemma EndangeredStays(cfg: Config, d: Durable, e: Event, id: string)
    requires id in Endangered(d.ledger)
    ensures id in Endangered(Next(cfg, d, e).ledger)
  {
    hide Restore, PersistentQueue.Persist, Net.Next;
  }

  lemma OthersLeaveStorage(cfg: Config, d: Durable, e: Event, p: Pair)
    requires InCell(d.cell, p)
    requires !e.Write? && !e.Settle? && !e.FinishClose? && !e.Crash?
    ensures Safe(Next(cfg, d, e), p)
  {
    hide InCell, Net.Next, Net.Push;
  }

  /** What is stored for an id that memory holds is what memory holds. */
  lemma InMemory(cfg: Config, d: Durable, p: Pair) returns (e: Entry)
    requires Inv(cfg, d) && InCell(d.cell, p) && p.0 in Ids(d.queue.entries)
    ensures e in d.queue.entries && (e.recordId, e.record) == p
  {
    hide Net.CoreInv;
    var c :| c in d.cell.state.entries && c.Shaped? && (c.entry.recordId, c.entry.record) == p;
    e := c.entry;
  }

  lemma WrittenHolds(cfg: PersistentQueue.Config, entries: seq<Entry>, next: nat, p: Pair)
    ensures InCell(Written(cfg, entries, next), p) <==> exists e :: e in entries && (e.recordId, e.record) == p
  {
    var cell := Written(cfg, entries, next);
    if e :| e in entries && (e.recordId, e.record) == p {
      var i :| 0 <= i < |entries| && entries[i] == e;
      assert cell.state.entries[i] == Shaped(e);
      assert Shaped(e) in cell.state.entries;
    }
    if InCell(cell, p) {
      var c :| c in cell.state.entries && c.Shaped? && (c.entry.recordId, c.entry.record) == p;
      var i :| 0 <= i < |cell.state.entries| && cell.state.entries[i] == c;
      assert entries[i] in entries;
    }
  }

  lemma IdOf(entries: seq<Entry>, e: Entry)
    requires e in entries
    ensures e.recordId in Ids(entries)
  {
  }

  lemma WriteLoses(cfg: Config, d: Durable, e: Event, p: Pair)
    requires cfg.Valid() && Inv(cfg, d) && e.Write?
    requires InCell(d.cell, p) && !OnServer(d.net.log, p) && p.0 !in d.ledger.reported
    ensures !Safe(Next(cfg, d, e), p) <==> Loses(cfg, d, e, p)
  {
    hide PersistentQueue.Persist, Net.CoreInv, ResidentInv, DoorInv, IntegrityInv, InCell;
    if d.door.accepting {
      var a := Attempt(cfg, d, e);
      PersistIsSafe(Store(cfg, d), d.queue, d.cell, e.record, e.recordId, e.now, e.ok);
      if a.done { PersistedLoses(cfg, d, e, p); }
    }
  }

  lemma PersistedLoses(cfg: Config, d: Durable, e: Event, p: Pair)
    requires cfg.Valid() && Inv(cfg, d) && e.Write? && d.door.accepting && Attempt(cfg, d, e).done
    requires PersistContract(Store(cfg, d), d.queue, d.cell, e.record, e.recordId, e.now, Attempt(cfg, d, e))
    requires InCell(d.cell, p) && !OnServer(d.net.log, p) && p.0 !in d.ledger.reported
    ensures !Safe(Next(cfg, d, e), p) <==> Loses(cfg, d, e, p)
  {
    hide PersistentQueue.Persist, Net.CoreInv, ResidentInv, DoorInv, IntegrityInv, InCell, Ids, CellInv, SafetyInv,
      LedgerInv, Ordered;
    var a := Attempt(cfg, d, e);
    WrittenHolds(Store(cfg, d), a.queue.entries, a.queue.nextSequence, p);
    if p.0 in Ids(d.queue.entries) {
      var own := InMemory(cfg, d, p);
      if p.0 in Ids(a.queue.entries) {
        var kept := EntryOf(a.queue.entries, p.0);
        if kept in d.queue.entries { SameEntry(d.queue.entries, kept, own); }
      }
    } else {
      forall k | k in a.queue.entries && k.recordId == p.0 ensures k == NewEntry(d.queue, e.record, e.recordId, e.now) {
        if k in d.queue.entries { IdOf(d.queue.entries, k); }
      }
      if p.0 in Ids(a.queue.entries) { var kept := EntryOf(a.queue.entries, p.0); }
      forall k | k in a.queue.entries ensures k.recordId in Ids(a.queue.entries) { IdOf(a.queue.entries, k); }
    }
  }

  lemma EntryOf(entries: seq<Entry>, id: string) returns (e: Entry)
    requires id in Ids(entries)
    ensures e in entries && e.recordId == id
  {
    var i :| 0 <= i < |entries| && entries[i].recordId == id;
    e := entries[i];
  }

  /** A removal that reaches storage. */
  lemma RemoveLoses(cfg: Config, d: Durable, next: Durable, p: Pair)
    requires Inv(cfg, d) && next.cell == Written(Store(cfg, d), Keep(d.queue.entries, d.queue.resident),
        d.queue.nextSequence)
    requires next.net.log == d.net.log && next.ledger.reported == d.ledger.reported
    requires InCell(d.cell, p) && !OnServer(d.net.log, p) && p.0 !in d.ledger.reported
    ensures !Safe(next, p) <==> p.0 in d.queue.resident || p.0 !in Ids(d.queue.entries)
  {
    hide Net.CoreInv, ResidentInv, DoorInv, IntegrityInv, InCell, Ids, Keep, SafetyInv;
    var kept := Keep(d.queue.entries, d.queue.resident);
    WrittenHolds(Store(cfg, d), kept, d.queue.nextSequence, p);
    if p.0 in Ids(kept) {
      var own := InMemory(cfg, d, p);
      var same := EntryOf(kept, p.0);
      SameEntry(d.queue.entries, same, own);
    } else {
      forall k | k in kept ensures k.recordId in Ids(kept) { IdOf(kept, k); }
    }
  }

  lemma SettleLoses(cfg: Config, d: Durable, ok: bool, p: Pair)
    requires Inv(cfg, d) && InCell(d.cell, p) && !OnServer(d.net.log, p) && p.0 !in d.ledger.reported
    ensures !Safe(Next(cfg, d, Settle(ok)), p) <==> Loses(cfg, d, Settle(ok), p)
  {
    hide Inv, InCell, Keep;
    if Removes(d, Settle(ok)) { RemoveLoses(cfg, d, Next(cfg, d, Settle(ok)), p); }
  }

  lemma FinishLoses(cfg: Config, d: Durable, call: nat, ok: bool, p: Pair)
    requires Inv(cfg, d) && InCell(d.cell, p) && !OnServer(d.net.log, p) && p.0 !in d.ledger.reported
    ensures !Safe(Next(cfg, d, FinishClose(call, ok)), p) <==> Loses(cfg, d, FinishClose(call, ok), p)
  {
    hide Inv, InCell, Keep;
    if Removes(d, FinishClose(call, ok)) { RemoveLoses(cfg, d, Next(cfg, d, FinishClose(call, ok)), p); }
  }

  /** A restart reports what it drops. */
  lemma CrashReports(cfg: Config, d: Durable, fingerprint: string, now: nat, readable: bool, ok: bool, p: Pair)
    requires cfg.Valid() && Inv(cfg, d) && InCell(d.cell, p)
    ensures Safe(Next(cfg, d, Crash(fingerprint, now, readable, ok)), p)
  {
    hide Net.CoreInv, ResidentInv, DoorInv, SafetyInv;
    StoredId(d, p);
    if readable && d.cell.state.fingerprint == fingerprint {
      var store := cfg.store.(fingerprint := fingerprint);
      var r := Restore(store, d.cell, now, true, ok);
      ReloadAccounts(store, d.cell.state, now, ok, d.ledger.persisted);
      hide Restore;
      if p.0 !in DropIds(r.queue.drops) {
        var c :| c in d.cell.state.entries && c.Shaped? && (c.entry.recordId, c.entry.record) == p;
        assert p.0 in Ids(r.queue.entries);
        OnlyCandidate(d.cell.state.entries, r.queue.entries, c);
        WrittenHolds(store, r.queue.entries, r.queue.nextSequence, p);
      }
    }
  }

  /** Whatever the server stores under an id was persisted under that id. */
  lemma {:induction false} StoredRecordsAreGenuine(cfg: Config, d: Durable, i: nat)
    requires cfg.Valid() && Reachable(cfg, d) && i < |d.net.log|
    ensures (d.net.log[i].recordId, d.net.log[i].record) in d.ledger.persisted
  {
    ReachableKeeps(cfg, d);
  }

  lemma SocketLog(cfg: Client.Config, w: Net.World, e: Net.Event)
    requires Net.DistinctIds(w.log)
    ensures Net.DistinctIds(Net.Next(cfg, w, e).log)
  {
    if e.ServerApplies? && e.index < |w.sent| { Net.AbsorbDistinct(w.log, w.sent[e.index].records); }
  }

  lemma NextStoresOnce(cfg: Config, d: Durable, e: Event)
    requires Net.DistinctIds(d.net.log)
    ensures Net.DistinctIds(Next(cfg, d, e).net.log)
  {
    hide Restore, PersistentQueue.Persist, Net.Next, Net.DistinctIds;
    if e.Socket? { SocketLog(cfg.socket, d.net, e.event); }
    if e.StaleApplies? && e.index < |d.stale| { Net.AbsorbDistinct(d.net.log, d.stale[e.index].records); }
  }

  lemma {:induction false} RunStoresOnce(cfg: Config, session: string, events: seq<Event>)
    ensures Net.DistinctIds(Run(cfg, session, events).net.log)
  {
    if events != [] {
      RunStoresOnce(cfg, session, events[..|events| - 1]);
      NextStoresOnce(cfg, Run(cfg, session, events[..|events| - 1]), events[|events| - 1]);
    }
  }

  /** At most once: through all crashes and replays the server holds one row for each id. */
  lemma {:induction false} ServerStoresOnce(cfg: Config, d: Durable)
    requires Reachable(cfg, d)
    ensures Net.DistinctIds(d.net.log)
  {
    var session, states, events :| Trace(cfg, session, states, events) && states[|events|] == d;
    TraceIsRun(cfg, session, states, events);
    RunStoresOnce(cfg, session, events);
  }
}
