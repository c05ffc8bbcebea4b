/** Concrete runs in which records are lost: each of the four rules of `DurableCalm` is needed. */
module DurableWitnesses {
  import opened Common
  import opened PersistentQueue
  import opened DurableSystem
  import opened DurableTheorems
  import Client = IngestClient
  import Net = IngestSystem

  /** Room for two records, batches of two, no reconnect attempts. */
  const SMALL := DurableSystem.Config(PersistentQueue.Config("s", 2, 1000, 10), Client.Config(2, 2, 10, 0))

  function Rec(content: int): Record { Common.Record(content, true, 1) }

  lemma Extend(cfg: DurableSystem.Config, d: Durable, e: Event)
    requires Reachable(cfg, d)
    ensures Reachable(cfg, Next(cfg, d, e))
  {
    hide Next;
    var session, states, events :| Trace(cfg, session, states, events) && states[|events|] == d;
    var longer, more := states + [Next(cfg, d, e)], events + [e];
    forall i | 0 <= i < |more| ensures Follows(cfg, longer, more, i) {
      if i < |events| { assert Follows(cfg, states, events, i); }
    }
    assert Trace(cfg, session, longer, more) && longer[|more|] == Next(cfg, d, e);
  }

  lemma Begin(cfg: DurableSystem.Config)
    ensures Reachable(cfg, Start("s"))
  {
    assert Trace(cfg, "s", [Start("s")], []);
    assert [Start("s")][0] == Start("s");
  }

  lemma Step(d: Durable, e: Event) returns (next: Durable)
    requires Reachable(SMALL, d)
    ensures Reachable(SMALL, next) && next == Next(SMALL, d, e)
  {
    Extend(SMALL, d, e);
    next := Next(SMALL, d, e);
  }

  lemma SocketRun(d: Durable, e: Net.Event) returns (next: Durable)
    requires Reachable(SMALL, d)
    ensures Reachable(SMALL, next) && next == SocketStep(SMALL, d, e)
  {
    Extend(SMALL, d, Socket(e));
    next := Next(SMALL, d, Socket(e));
  }

  /** Persisted, and neither in storage nor on the server nor reported. */
  ghost predicate Lost(d: Durable, p: Pair) {
    p in d.ledger.persisted && !Safe(d, p)
  }

  // ---------------------------------------------------------------- writes

  /** A write into a queue with room. */
  lemma WriteFits(d: Durable, id: char, content: int)
    requires d.door.accepting && |d.queue.entries| < 2 && [id] !in Ids(d.queue.entries) && !BlankChar(id)
    ensures
      var next := Next(SMALL, d, Event.Write(Rec(content), [id], 0, true));
      var entries := d.queue.entries + [Entry([id], d.queue.nextSequence, 0, Rec(content))];
      next == d.(queue := d.queue.(entries := entries, nextSequence := d.queue.nextSequence + 1),
                 cell := Written(Store(SMALL, d), entries, d.queue.nextSequence + 1),
                 ledger := Logged(d.ledger, [id], Rec(content))) &&
      CellIds(next.cell) == Ids(entries)
  {
    assert [id][0] == id;
    var next := Next(SMALL, d, Event.Write(Rec(content), [id], 0, true));
    assert next.queue.drops == d.queue.drops;
    assert DropIds([]) == {};
    WrittenIds(Store(SMALL, d), next.queue.entries, next.queue.nextSequence);
  }

  /** The first write of a fresh process. */
  lemma OneWritten(id: char, content: int) returns (d: Durable)
    requires !BlankChar(id)
    ensures Reachable(SMALL, d)
    ensures
      var entry := Entry([id], 0, 0, Rec(content));
      d == Start("s").(queue := NEW_QUEUE.(entries := [entry], nextSequence := 1), cell := d.cell,
                       ledger := Start("s").ledger.(persisted := {([id], Rec(content))}))
  {
    Begin(SMALL);
    d := Start("s");
    assert Ids([]) == {};
    WriteFits(d, id, content);
    hide Next;
    d := Step(d, Event.Write(Rec(content), [id], 0, true));
  }

  lemma CellOfIds(d: Durable, p: Pair)
    requires p.0 !in CellIds(d.cell)
    ensures !InCell(d.cell, p)
  {
    if InCell(d.cell, p) { StoredId(d, p); }
  }

  // ---------------------------------------------------------------- a start-up that cannot read

  lemma CrashUnread(d: Durable) returns (next: Durable)
    requires Reachable(SMALL, d) && d.net.log == []
    ensures Reachable(SMALL, next) && next.queue == NEW_QUEUE.(persistenceErrors := 1) && next.door.accepting
    ensures next.net.log == [] && next.ledger.reported == d.ledger.reported &&
        next.ledger.persisted == d.ledger.persisted
  {
    Extend(SMALL, d, Crash("s", 0, false, true));
    next := Next(SMALL, d, Crash("s", 0, false, true));
    assert DropIds([]) == {};
  }

  /** A start-up that cannot read storage forgets what is there, and the next write replaces it. */
  lemma AnUnreadableStoreLosesARecord() returns (d: Durable)
    ensures Reachable(SMALL, d) && Lost(d, ("a", Rec(1)))
  {
    d := OneWritten('a', 1);
    d := CrashUnread(d);
    assert Ids([]) == {};
    WriteFits(d, 'b', 2);
    hide Next, InCell;
    d := Step(d, Event.Write(Rec(2), "b", 0, true));
    CellOfIds(d, ("a", Rec(1)));
  }

  // ---------------------------------------------------------------- drains

  /** Two steps of a drain hand one entry over and make it resident. */
  lemma HandsOver(d: Durable)
    requires d.drain.Enqueuing? && d.drain.pending.None? && d.drain.todo != []
    requires d.drain.todo[0].recordId !in d.queue.resident && d.net.client.accepting
    requires d.drain.todo[0].record.encodable && d.drain.todo[0].record.bytes <= 10 && |d.net.client.work.queue| < 2
    ensures
      var next := Next(SMALL, d, DrainStep);
      var head := d.drain.todo[0];
      next.drain == Enqueuing(d.drain.todo[1..], Some(head.recordId), d.drain.exit) &&
      next == d.(net := next.net, drain := next.drain) && next.net.log == d.net.log &&
      next.net.client == d.net.client.(work := d.net.client.work.(
        queue := d.net.client.work.queue + [Client.Queued(head.recordId, head.record)]))
  {
  }

  /** The awaited write is over. */
  lemma Lands(d: Durable)
    requires d.drain.Enqueuing? && d.drain.pending.Some?
    ensures Next(SMALL, d, DrainStep) ==
            d.(queue := d.queue.(resident := d.queue.resident + {d.drain.pending.value}),
              drain := d.drain.(pending := None))
  {
  }

  /** An entry that is resident is passed over. */
  lemma Skips(d: Durable)
    requires d.drain.Enqueuing? && d.drain.pending.None? && d.drain.todo != []
    requires d.drain.todo[0].recordId in d.queue.resident
    ensures Next(SMALL, d, DrainStep) == d.(drain := d.drain.(todo := d.drain.todo[1..]))
  {
  }

  /** The last entry was handed over, and the flush starts or joins the one that is running. */
  lemma StartsFlush(d: Durable)
    requires d.drain.Enqueuing? && d.drain.pending.None? && d.drain.todo == []
    ensures
      var link := d.net.client.link;
      var flush := if link.flush.Idle? then Client.Head(0) else link.flush;
      Next(SMALL, d, DrainStep) ==
      d.(net := d.net.(client := d.net.client.(link := link.(flush := flush))), drain := Flushing(d.drain.exit))
  {
  }

  /** What the next batch takes from the queue. */
  function Left(w: Client.Work): seq<Client.Queued> {
    if w.inFlight.Some? then w.queue else w.queue[Client.Min(2, |w.queue|)..]
  }

  function Taken(w: Client.Work): seq<Client.Queued> {
    if w.inFlight.Some? then w.inFlight.value.records else w.queue[..Client.Min(2, |w.queue|)]
  }

  lemma TakesBatch(d: Durable) returns (next: Durable)
    requires Reachable(SMALL, d) && d.net.client.link.flush == Client.Head(0) && Client.Outstanding(d.net.client.work)
    ensures Reachable(SMALL, next) && next == d.(net := d.net.(client := next.net.client))
    ensures next.net.client == d.net.client.(work := next.net.client.work,
        link := d.net.client.link.(flush := Client.Connecting(0)))
    ensures next.net.client.work.inFlight.Some? && Taken(next.net.client.work) == Taken(d.net.client.work)
    ensures next.net.client.work.queue == Left(d.net.client.work)
  {
    next := SocketRun(d, Net.LoopHead("x"));
  }

  lemma CannotConnect(d: Durable) returns (next: Durable)
    requires Reachable(SMALL, d) && d.net.client.link.flush == Client.Connecting(0) && d.net.client.link.socket.Absent?
    ensures Reachable(SMALL, next)
    ensures next == d.(net := d.net.(client := d.net.client.(link := d.net.client.link.(flush := Client.Failed(0)))))
  {
    next := SocketRun(d, Net.OnLink(Net.ConnectFailed));
  }

  /** A flush that starts with records to send and cannot connect. */
  lemma FlushFails(d: Durable) returns (next: Durable)
    requires Reachable(SMALL, d) && d.net.client.link.flush == Client.Head(0) && Client.Outstanding(d.net.client.work)
    requires d.net.client.link.socket.Absent?
    ensures Reachable(SMALL, next)
    ensures
      next == d.(net := next.net, drain := next.drain,
        door := d.door.(calls := Replace(d.door.calls, AwaitsFlush, Flushed(false))))
    ensures next.net.log == d.net.log && next.net.sent == d.net.sent
    ensures next.drain == if d.drain.Flushing? && d.drain.exit then ExitFlushing
                          else if d.drain.Flushing? || d.drain.ExitFlushing? then Settled(false) else d.drain
    ensures next.net.client.link.flush.Idle? && next.net.client.link.socket.Absent?
    ensures next.net.client.accepting == d.net.client.accepting && next.net.client.closed == d.net.client.closed
    ensures next.net.client.work.inFlight.Some? && Taken(next.net.client.work) == Taken(d.net.client.work)
    ensures next.net.client.work.queue == Left(d.net.client.work)
  {
    next := TakesBatch(d);
    next := CannotConnect(next);
    next := SocketRun(next, Net.OnLink(Net.Catch));
  }

  // ---------------------------------------------------------------- a flush that succeeds

  /** The exit fallback sends a batch, the server applies and acknowledges it. */
  lemma ExitBatch(d: Durable) returns (next: Durable)
    requires Reachable(SMALL, d) && d.net.client.link.flush == Client.ExitHead && Client.Outstanding(d.net.client.work)
    ensures Reachable(SMALL, next) && next == d.(net := next.net)
    ensures next.net.client == d.net.client.(work := next.net.client.work)
    ensures next.net.client.work.inFlight.None? && next.net.client.work.queue == Left(d.net.client.work)
    ensures next.net.log == Net.Absorb(d.net.log, Taken(d.net.client.work))
  {
    next := ExitSends(d);
    var batch := next.net.client.work.inFlight.value;
    var receipt := Net.Receipt(next.net.log, batch) by { Net.AbsorbGrows(next.net.log, batch.records); }
    next := ServerTakes(next, batch);
    next := ExitCommits(next, batch, receipt);
  }

  lemma ExitSends(d: Durable) returns (next: Durable)
    requires Reachable(SMALL, d) && d.net.client.link.flush == Client.ExitHead && Client.Outstanding(d.net.client.work)
    ensures Reachable(SMALL, next) && next == d.(net := next.net) && next.net.log == d.net.log
    ensures next.net.client == d.net.client.(work := next.net.client.work,
        link := d.net.client.link.(flush := Client.ExitAwaiting))
    ensures next.net.client.work.inFlight.Some? && next.net.client.work.queue == Left(d.net.client.work)
    ensures next.net.client.work.inFlight.value.records == Taken(d.net.client.work)
    ensures next.net.sent != [] && next.net.sent[|next.net.sent| - 1] == next.net.client.work.inFlight.value
  {
    next := SocketRun(d, Net.ExitLoop("x"));
  }

  lemma ServerTakes(d: Durable, batch: Client.Batch) returns (next: Durable)
    requires Reachable(SMALL, d) && d.net.sent != [] && d.net.sent[|d.net.sent| - 1] == batch &&
        d.net.client.link.flush == Client.ExitAwaiting
    ensures Reachable(SMALL, next) && next == d.(net := next.net) && next.net.client == d.net.client
    ensures next.net.log == Net.Absorb(d.net.log, batch.records) && d.net.log <= next.net.log
    ensures |next.net.log| - |d.net.log| <= |batch.records| && Net.Receipt(d.net.log, batch) in next.net.acks
  {
    Net.AbsorbGrows(d.net.log, batch.records);
    next := SocketRun(d, Net.ServerApplies(|d.net.sent| - 1));
  }

  lemma ExitCommits(d: Durable, batch: Client.Batch, ack: Client.Ack) returns (next: Durable)
    requires Reachable(SMALL, d) && d.net.client.link.flush == Client.ExitAwaiting &&
        d.net.client.work.inFlight == Some(batch)
    requires ack in d.net.acks && Client.Commits(batch, ack)
    ensures Reachable(SMALL, next) && next == d.(net := next.net) && next.net.log == d.net.log
    ensures next.net.client == d.net.client.(work := next.net.client.work,
        link := d.net.client.link.(flush := Client.ExitHead))
    ensures next.net.client.work.inFlight.None? && next.net.client.work.queue == d.net.client.work.queue
  {
    next := SocketRun(d, Net.ExitReply(ack));
  }

  /** The drain of an exit whose flush failed goes on with the fallback. */
  lemma Falls(d: Durable) returns (next: Durable)
    requires Reachable(SMALL, d) && d.drain == ExitFlushing && d.net.client.link.flush.Idle?
    ensures Reachable(SMALL, next)
    ensures next == d.(net := d.net.(client := d.net.client.(link := d.net.client.link.(flush := Client.ExitHead))))
  {
    next := SocketRun(d, Net.OnLink(Net.StartExit));
  }

  lemma ExitDone(d: Durable) returns (next: Durable)
    requires Reachable(SMALL, d) && d.net.client.link.flush == Client.ExitHead && !Client.Outstanding(d.net.client.work)
    requires d.drain == ExitFlushing && d.door.calls == []
    ensures Reachable(SMALL, next)
    ensures
      next == d.(net := d.net.(client := d.net.client.(link := d.net.client.link.(flush := Client.Flush.Idle))),
        drain := Settled(true))
  {
    next := SocketRun(d, Net.ExitLoop("x"));
    assert Replace([], AwaitsFlush, Flushed(true)) == [];
  }

  // ---------------------------------------------------------------- an id that is used again

  /** One record in memory, nothing in the socket transport, nothing going on. */
  ghost predicate Alone(d: Durable, id: string, content: int) {
    Resting(d) && |d.queue.entries| == 1 && d.queue.entries[0].recordId == id &&
    d.queue.entries[0].record == Rec(content)
  }

  ghost predicate Resting(d: Durable) {
    d.door == Door(true, false, []) && d.drain == Idle && d.queue.resident == {} && d.net.client.accepting &&
    d.net.client.link.flush.Idle? && d.net.client.link.socket.Absent? && !Client.Outstanding(d.net.client.work)
  }

  lemma HandedOver(d: Durable, id: string, content: int) returns (next: Durable)
    requires Reachable(SMALL, d) && Alone(d, id, content)
    ensures Reachable(SMALL, next) && next.drain == Flushing(true) && next.net.client.link.flush == Client.Head(0)
    ensures next == d.(queue := d.queue.(resident := {id}), drain := Flushing(true), net := next.net) &&
        next.net.log == d.net.log
    ensures next.net.client.work == d.net.client.work.(queue := [Client.Queued(id, Rec(content))])
    ensures next.net.client.link.socket.Absent? && next.net.client.accepting
  {
    next := Step(d, StartDrain(true));
    hide DrainNext;
    HandsOver(next);
    next := Step(next, DrainStep);
    Lands(next);
    next := Step(next, DrainStep);
    StartsFlush(next);
    next := Step(next, DrainStep);
  }

  /** The record is sent and committed. */
  lemma Commits(d: Durable, id: string, content: int) returns (next: Durable)
    requires Reachable(SMALL, d) && Alone(d, id, content)
    ensures Reachable(SMALL, next) && Resting(next) && next.queue.entries == [] && next.cell == Empty &&
        next.ledger == d.ledger
    ensures next.net.log == Net.Absorb(d.net.log, [Client.Queued(id, Rec(content))])
  {
    next := HandedOver(d, id, content);
    hide SettleDrain;
    next := FlushFails(next);
    next := Falls(next);
    next := ExitBatch(next);
    next := ExitDone(next);
    AllGo(next);
    assert Replace([], AwaitsDrain, MayClose) == [];
    next := Step(next, Settle(true));
  }

  /** A settled drain removes all that is resident. */
  lemma AllGo(d: Durable)
    requires d.drain == Settled(true) && d.queue.resident != {} && Ids(d.queue.entries) <= d.queue.resident
    ensures
      var calls := Replace(d.door.calls, AwaitsDrain, MayClose);
      Next(SMALL, d, Settle(true)) ==
      d.(drain := Idle, door := d.door.(calls := calls), queue := d.queue.(entries := [], resident := {}),
        cell := Empty)
  {
    NoneKept(d.queue.entries, d.queue.resident);
    assert d.queue.resident - d.queue.resident == {};
  }

  lemma {:induction false} NoneKept(entries: seq<Entry>, ids: set<string>)
    requires Ids(entries) <= ids
    ensures Keep(entries, ids) == []
  {
    if entries != [] {
      var init, last := entries[..|entries| - 1], entries[|entries| - 1];
      assert entries == init + [last];
      IdsSnoc(init, last);
      NoneKept(init, ids);
    }
  }

  /** A second record under an id whose first one was committed: the server skips it, and it is
      removed as committed. Nothing crashes, fails for good or overflows. */
  lemma AReusedIdLosesARecord() returns (d: Durable)
    ensures Reachable(SMALL, d) && Lost(d, ("a", Rec(2)))
    ensures d.ledger.evicted == d.ledger.unread == d.ledger.abandoned == {}
  {
    d := OneWritten('a', 1);
    d := Commits(d, "a", 1);
    assert Ids([]) == {};
    WriteFits(d, 'a', 2);
    hide Next, InCell, Resting;
    d := WritesAgain(d);
    d := Commits(d, "a", 2);
    FirstStays();
    NotInEmpty(d, ("a", Rec(2)));
  }

  lemma WritesAgain(d: Durable) returns (next: Durable)
    requires Reachable(SMALL, d) && Resting(d) && d.queue.entries == []
    ensures Reachable(SMALL, next) && Alone(next, "a", 2) && next.net.log == d.net.log
    ensures next.ledger == Logged(d.ledger, "a", Rec(2))
  {
    hide DurableSystem.Persist;
    assert Ids([]) == {};
    WriteFits(d, 'a', 2);
    next := Step(d, Event.Write(Rec(2), "a", 0, true));
  }

  lemma NotInEmpty(d: Durable, p: Pair)
    requires d.cell == Empty
    ensures !InCell(d.cell, p)
  {
  }

  /** The server keeps the first record of an id. */
  lemma FirstStays()
    ensures
      var one, two := Client.Queued("a", Rec(1)), Client.Queued("a", Rec(2));
      Net.Absorb(Net.Absorb([], [one]), [two]) == [one]
  {
    var one, two := Client.Queued("a", Rec(1)), Client.Queued("a", Rec(2));
    assert [one][..0] == [] && [two][..0] == [];
    assert Net.Absorb([], []) == [];
    assert Net.Absorb([], [one]) == [one];
    assert [one][0].recordId == "a";
  }

  // ---------------------------------------------------------------- overlapping calls of close

  /** "a" is in storage and in the socket transport, the socket is down, and nothing else happened. */
  ghost predicate Stuck(d: Durable) {
    d.net.client.link.socket.Absent? && Client.Outstanding(d.net.client.work) && d.net.log == [] &&
    d.queue == NEW_QUEUE.(entries := [Entry("a", 0, 0, Rec(1))], resident := {"a"}, nextSequence := 1) &&
    d.ledger == Start("s").ledger.(persisted := {("a", Rec(1))})
  }

  lemma FirstDrain() returns (d: Durable)
    ensures Reachable(SMALL, d) && Stuck(d) && d.drain == Flushing(true) && d.net.client.link.flush == Client.Head(0)
    ensures d.door == Door(false, false, [AwaitsDrain]) && !d.net.client.closed
  {
    d := OneWritten('a', 1);
    d := Step(d, Close);
    hide DrainNext;
    HandsOver(d);
    d := Step(d, DrainStep);
    Lands(d);
    d := Step(d, DrainStep);
    StartsFlush(d);
    d := Step(d, DrainStep);
  }

  /** The first `close`, up to its `inner.close()`: both flushes of its drain fail. */
  lemma FirstClose() returns (d: Durable)
    ensures Reachable(SMALL, d) && Stuck(d) && d.drain == Idle && d.net.client.link.flush.Idle? && !d.net.client.closed
    ensures d.door == Door(false, false, [MayClose])
  {
    d := FirstDrain();
    assert Replace([AwaitsDrain], AwaitsFlush, Flushed(false)) == [AwaitsDrain];
    d := FlushFails(d);
    d := ExitFails(d);
    d := FailedDrain(d);
    assert Replace([AwaitsDrain], AwaitsDrain, MayClose) == [MayClose];
  }

  /** The second flush of an exit drain fails as well. */
  lemma ExitFails(d: Durable) returns (next: Durable)
    requires Reachable(SMALL, d) && d.drain == ExitFlushing && d.net.client.link.flush.Idle? &&
        d.net.client.link.socket.Absent?
    requires Client.Outstanding(d.net.client.work) &&
        forall i :: 0 <= i < |d.door.calls| ==> d.door.calls[i] != AwaitsFlush
    ensures Reachable(SMALL, next) && next == d.(net := next.net, drain := Settled(false)) && next.net.log == d.net.log
    ensures next.net.client.link.flush.Idle? && next.net.client.link.socket.Absent? &&
        Client.Outstanding(next.net.client.work)
    ensures next.net.client.closed == d.net.client.closed && next.net.client.accepting == d.net.client.accepting
  {
    next := SocketRun(d, Net.OnLink(Net.Flush));
    assert Replace(d.door.calls, AwaitsFlush, Flushed(false)) == d.door.calls;
    next := FlushFails(next);
  }

  lemma FailedDrain(d: Durable) returns (next: Durable)
    requires Reachable(SMALL, d) && d.drain == Settled(false)
    ensures Reachable(SMALL, next)
    ensures next == d.(drain := Idle, door := d.door.(calls := Replace(d.door.calls, AwaitsDrain, MayClose)))
  {
    next := Step(d, Settle(true));
  }

  /** While the first call awaits `inner.close()`, a second one is made, whose drain joins the flush
      that is running. */
  lemma SecondClose(d: Durable) returns (next: Durable)
    requires Reachable(SMALL, d) && Stuck(d) && d.drain == Idle && d.net.client.link.flush.Idle? && !d.net.client.closed
    requires d.door == Door(false, false, [MayClose])
    ensures Reachable(SMALL, next) && Stuck(next) && next.drain == Flushing(true) &&
        next.net.client.link.flush == Client.Head(0)
    ensures next.door == Door(false, false, [AwaitsFlush, AwaitsDrain]) && !next.net.client.closed &&
        !next.net.client.accepting
  {
    next := Step(d, CloseInner(0, false));
    next := Step(next, Close);
    hide DrainNext;
    Skips(next);
    next := Step(next, DrainStep);
    StartsFlush(next);
    next := Step(next, DrainStep);
  }

  /** The flush fails, and with it the first call; the socket transport is closed all the same. */
  lemma FirstFails(d: Durable) returns (next: Durable)
    requires Reachable(SMALL, d) && Stuck(d) && d.drain == Flushing(true) && d.net.client.link.flush == Client.Head(0)
    requires d.door == Door(false, false, [AwaitsFlush, AwaitsDrain]) && !d.net.client.accepting
    ensures Reachable(SMALL, next) && Stuck(next) && next.drain == ExitFlushing && next.net.client.link.flush.Idle?
    ensures next.door == Door(false, true, [AwaitsDrain]) && next.net.client.closed
  {
    next := FlushFails(d);
    assert next.door.calls == [Flushed(false), AwaitsDrain];
    next := Step(next, InnerCloses(0));
    assert next.door.calls == [Failed, AwaitsDrain];
    assert Without(next.door.calls, 0) == [AwaitsDrain];
    next := Step(next, FinishClose(0, true));
  }

  /** The second call goes on with its drain, which fails too. */
  lemma SecondGoesOn(d: Durable) returns (next: Durable)
    requires Reachable(SMALL, d) && Stuck(d) && d.drain == ExitFlushing && d.net.client.link.flush.Idle?
    requires d.door == Door(false, true, [AwaitsDrain]) && d.net.client.closed
    ensures Reachable(SMALL, next) && Stuck(next) && next.net.client.closed &&
        next.door == Door(false, true, [MayClose])
  {
    next := ExitFails(d);
    next := FailedDrain(next);
    assert Replace([AwaitsDrain], AwaitsDrain, MayClose) == [MayClose];
  }

  /** A second `close` while the first awaits `inner.close()`, whose flush then fails: the second
      finds the socket transport closed, takes this for success and removes what is resident. */
  lemma AnOverlappingCloseLosesARecord() returns (d: Durable)
    ensures Reachable(SMALL, d) && Lost(d, ("a", Rec(1)))
    ensures d.ledger.evicted == d.ledger.unread == d.ledger.reused == {}
  {
    d := FirstClose();
    d := SecondClose(d);
    d := FirstFails(d);
    d := SecondGoesOn(d);
    d := Step(d, CloseInner(0, false));
    assert d.door.calls == [Returned(true)];
    hide InCell;
    assert Ids(d.queue.entries) <= {"a"};
    NoneKept(d.queue.entries, d.queue.resident);
    d := Step(d, FinishClose(0, true));
    NotInEmpty(d, ("a", Rec(1)));
  }

  // ---------------------------------------------------------------- an eviction

  lemma RoomFor(a: Entry, b: Entry, c: Entry, resident: set<string>, second: bool)
    requires if second then a.recordId in resident && b.recordId !in resident else a.recordId !in resident
    ensures
      MakeRoom(SMALL.store, [a, b, c], resident, []) == if second then Fits([a, c], [b]) else Fits([b, c], [a])
  {
    var whole := [a, b, c];
    assert whole[1..][0] == b;
    var k := if second then 1 else 0;
    assert FirstFree(whole, resident) == k;
    assert Without(whole, 0) == [b, c] && Without(whole, 1) == [a, c];
    assert [] + [a] == [a] && [] + [b] == [b];
  }

  /** A write into a full queue displaces the first entry the socket queue does not hold. */
  lemma WriteDisplaces(d: Durable, id: char, content: int, second: bool) returns (next: Durable)
    requires Reachable(SMALL, d) && d.door.accepting && |d.queue.entries| == 2
    requires [id] !in Ids(d.queue.entries) && !BlankChar(id)
    requires if second then d.queue.entries[0].recordId in d.queue.resident &&
        d.queue.entries[1].recordId !in d.queue.resident
             else d.queue.entries[0].recordId !in d.queue.resident
    ensures Reachable(SMALL, next)
    ensures
      var l := Logged(d.ledger, [id], Rec(content));
      next == d.(queue := next.queue, cell := next.cell,
                 ledger := l.(reported := l.reported + {d.queue.entries[if second then 1 else 0].recordId}))
    ensures next.queue.resident == d.queue.resident
    ensures next.queue.entries ==
            [d.queue.entries[if second then 0 else 1], Entry([id], d.queue.nextSequence, 0, Rec(content))]
  {
    Extend(SMALL, d, Event.Write(Rec(content), [id], 0, true));
    next := Next(SMALL, d, Event.Write(Rec(content), [id], 0, true));
    assert [id][0] == id;
    var a, b := d.queue.entries[0], d.queue.entries[1];
    var c := Entry([id], d.queue.nextSequence, 0, Rec(content));
    assert d.queue.entries + [c] == [a, b, c];
    RoomFor(a, b, c, d.queue.resident, second);
    SameRoom(Store(SMALL, d), [a, b, c], d.queue.resident, []);
    var gone := if second then b else a;
    assert next.queue.drops[|d.queue.drops|..] == Overflows([gone]);
    OverflowIds([gone]);
    assert Ids([gone]) == {gone.recordId};
  }

  /** The session does not matter to `MakeRoom`. */
  lemma SameRoom(cfg: PersistentQueue.Config, entries: seq<Entry>, resident: set<string>, displaced: seq<Entry>)
    requires cfg.maxRecords == SMALL.store.maxRecords
    ensures MakeRoom(cfg, entries, resident, displaced) == MakeRoom(SMALL.store, entries, resident, displaced)
    decreases |entries|
  {
    if |entries| > cfg.maxRecords {
      var index := FirstFree(entries, resident);
      if index < |entries| { SameRoom(cfg, Without(entries, index), resident, displaced + [entries[index]]); }
    }
  }

  ghost predicate Small1(e: Entry, id: string) {
    e.recordId == id && e.record.encodable && e.record.bytes <= 10
  }

  ghost predicate Named(records: seq<Client.Queued>, ids: seq<string>) {
    |records| == |ids| && forall i :: 0 <= i < |records| ==> records[i].recordId == ids[i]
  }

  ghost predicate Shows(d: Durable, entries: seq<string>, resident: set<string>, queue: seq<string>) {
    |d.queue.entries| == |entries| && (forall i :: 0 <= i < |entries| ==> Small1(d.queue.entries[i], entries[i])) &&
    d.queue.resident == resident && Named(d.net.client.work.queue, queue) &&
    d.ledger.evicted == d.ledger.unread == d.ledger.abandoned == {} && d.net.log == []
  }

  /** The socket transport is open, the socket is down, and no `close` was called. */
  ghost predicate Opened(d: Durable) {
    d.door == Door(true, false, []) && d.net.client.accepting && d.net.client.link.flush.Idle? &&
    d.net.client.link.socket.Absent?
  }

  /** A drain has handed `pending` over last and awaits that write. */
  ghost predicate Handing(d: Durable, pending: string, entries: seq<string>, resident: set<string>,
      queue: seq<string>)
  {
    Opened(d) && d.drain == Enqueuing([], Some(pending), false) && Shows(d, entries, resident, queue)
  }

  /** No drain is running, and the batch of "x" is in flight. */
  ghost predicate Waiting(d: Durable, entries: seq<string>, resident: set<string>, queue: seq<string>) {
    Opened(d) && d.drain == Idle && Shows(d, entries, resident, queue) && InFlight(d, "x")
  }

  ghost predicate InFlight(d: Durable, id: string) {
    d.net.client.work.inFlight.Some? && Named(d.net.client.work.inFlight.value.records, [id])
  }

  /** The rest of a drain whose flush fails. */
  lemma FinishDrain(d: Durable) returns (next: Durable)
    requires Reachable(SMALL, d) && d.drain.Enqueuing? && d.drain.todo == [] && d.drain.pending.Some? &&
        !d.drain.exit && Opened(d)
    requires Client.Outstanding(d.net.client.work)
    ensures Reachable(SMALL, next) && next.drain == Idle && Opened(next) && next.net.log == d.net.log
    ensures next == d.(queue := d.queue.(resident := d.queue.resident + {d.drain.pending.value}), net := next.net,
        drain := Idle)
    ensures next.net.client.work.inFlight.Some? && Taken(next.net.client.work) == Taken(d.net.client.work)
    ensures next.net.client.work.queue == Left(d.net.client.work)
  {
    hide DrainNext;
    Lands(d);
    next := Step(d, DrainStep);
    StartsFlush(next);
    next := Step(next, DrainStep);
    assert Replace([], AwaitsFlush, Flushed(false)) == [] && Replace([], AwaitsDrain, MayClose) == [];
    next := FlushFails(next);
    next := FailedDrain(next);
  }

  lemma FirstHandOver() returns (d: Durable)
    ensures Reachable(SMALL, d) && Handing(d, "x", ["x"], {}, ["x"])
    ensures d.ledger == Start("s").ledger.(persisted := {("x", Rec(0))}) && d.net.client.work.inFlight.None?
  {
    d := OneWritten('x', 0);
    d := Step(d, StartDrain(false));
    hide DrainNext;
    HandsOver(d);
    d := Step(d, DrainStep);
  }

  lemma FirstOverflow(d: Durable) returns (next: Durable)
    requires Reachable(SMALL, d) && Handing(d, "x", ["x"], {}, ["x"])
    requires d.ledger == Start("s").ledger.(persisted := {("x", Rec(0))})
    ensures Reachable(SMALL, next) && Handing(next, "x", ["p", "q"], {}, ["x"])
    ensures next.ledger.reported == {"x"} && next.ledger.reused == {}
    ensures next.ledger.persisted == {("x", Rec(0)), ("p", Rec(1)), ("q", Rec(2))}
    ensures next.net == d.net
  {
    WriteFits(d, 'p', 1);
    next := Step(d, Event.Write(Rec(1), "p", 0, true));
    next := WriteDisplaces(next, 'q', 2, false);
  }

  lemma SecondHandOver(d: Durable) returns (next: Durable)
    requires Reachable(SMALL, d) && Waiting(d, ["p", "q"], {"x"}, [])
    ensures Reachable(SMALL, next) && Handing(next, "q", ["p", "q"], {"x", "p"}, ["p", "q"])
    ensures next.ledger == d.ledger && next.net.client.work.inFlight == d.net.client.work.inFlight
  {
    next := Step(d, StartDrain(false));
    hide DrainNext;
    HandsOver(next);
    next := Step(next, DrainStep);
    Lands(next);
    next := Step(next, DrainStep);
    HandsOver(next);
    next := Step(next, DrainStep);
  }

  lemma SecondOverflow(d: Durable) returns (next: Durable)
    requires Reachable(SMALL, d) && Handing(d, "q", ["p", "q"], {"x", "p"}, ["p", "q"]) && d.ledger.reported == {"x"}
    requires d.ledger.persisted == {("x", Rec(0)), ("p", Rec(1)), ("q", Rec(2))} && d.ledger.reused == {}
    ensures Reachable(SMALL, next) && Handing(next, "q", ["p", "r"], {"x", "p"}, ["p", "q"])
    ensures next.ledger.reported == {"x", "q"} && ("p", Rec(1)) in next.ledger.persisted && next.ledger.reused == {}
    ensures next.net == d.net
  {
    next := WriteDisplaces(d, 'r', 3, true);
  }

  lemma FirstRound() returns (d: Durable)
    ensures Reachable(SMALL, d) && Waiting(d, ["p", "q"], {"x"}, [])
    ensures d.ledger.reported == {"x"} && d.ledger.reused == {}
    ensures d.ledger.persisted == {("x", Rec(0)), ("p", Rec(1)), ("q", Rec(2))}
  {
    d := FirstHandOver();
    d := FirstOverflow(d);
    d := FinishDrain(d);
  }

  /** "x" is being handed over when two more records arrive and displace it; the same happens to
      "q" while "p" is resident. */
  lemma TwoRounds() returns (d: Durable)
    ensures Reachable(SMALL, d) && Waiting(d, ["p", "r"], {"x", "p", "q"}, ["p", "q"])
    ensures d.ledger.reported == {"x", "q"} && ("p", Rec(1)) in d.ledger.persisted && d.ledger.reused == {}
  {
    d := FirstRound();
    d := SecondHandOver(d);
    d := SecondOverflow(d);
    d := FinishDrain(d);
  }

  /** Handing over to a full socket queue, which evicts its head. */
  lemma Evicts(d: Durable)
    requires d.drain.Enqueuing? && d.drain.pending.None? && d.drain.todo != [] && d.net.client.accepting
    requires d.drain.todo[0].recordId !in d.queue.resident && |d.net.client.work.queue| == 2
    requires d.drain.todo[0].record.encodable && d.drain.todo[0].record.bytes <= 10
    ensures
      var next := Next(SMALL, d, DrainStep);
      var work, head := d.net.client.work, d.drain.todo[0];
      next == d.(net := next.net, drain := Enqueuing(d.drain.todo[1..], Some(head.recordId), d.drain.exit),
                 ledger := d.ledger.(evicted := d.ledger.evicted + {work.queue[0].recordId})) &&
      next.net.log == d.net.log && next.net.client.link == d.net.client.link && next.net.client.accepting &&
      next.net.client.work.inFlight == work.inFlight &&
      next.net.client.work.queue == [work.queue[1], Client.Queued(head.recordId, head.record)]
  {
  }

  /** "r" pushes "p" out of the socket queue, and the drain waits for its flush. */
  lemma ThirdHandOver(d: Durable) returns (next: Durable)
    requires Reachable(SMALL, d) && Waiting(d, ["p", "r"], {"x", "p", "q"}, ["p", "q"])
    ensures Reachable(SMALL, next) && next.drain == Flushing(true) && next.net.client.link.flush == Client.Head(0)
    ensures next == d.(net := next.net, drain := Flushing(true), queue := d.queue.(resident := {"x", "p", "q", "r"}),
                       ledger := d.ledger.(evicted := {"p"}))
    ensures next.net.client.link.socket.Absent? && next.net.log == []
    ensures InFlight(next, "x") && Named(next.net.client.work.queue, ["q", "r"])
  {
    next := Step(d, StartDrain(true));
    hide DrainNext;
    Skips(next);
    next := Step(next, DrainStep);
    Evicts(next);
    next := Step(next, DrainStep);
    Lands(next);
    next := Step(next, DrainStep);
    StartsFlush(next);
    next := Step(next, DrainStep);
  }

  /** Everything that is in the socket transport is sent and committed. */
  lemma AllSent(d: Durable) returns (next: Durable)
    requires Reachable(SMALL, d) && d.drain == Flushing(true) && d.net.client.link.flush == Client.Head(0) &&
        d.door.calls == []
    requires d.net.client.link.socket.Absent? && d.net.log == [] && InFlight(d, "x") &&
        Named(d.net.client.work.queue, ["q", "r"])
    ensures Reachable(SMALL, next) && next == d.(net := next.net, drain := Settled(true))
    ensures forall q :: q in next.net.log ==> q.recordId in {"x", "q", "r"}
  {
    assert Replace([], AwaitsFlush, Flushed(false)) == [];
    var x, rest := Taken(d.net.client.work), d.net.client.work.queue;
    next := FlushFails(d);
    next := Falls(next);
    next := ExitBatch(next);
    assert Taken(next.net.client.work) == rest && Left(next.net.client.work) == [];
    next := ExitBatch(next);
    next := ExitDone(next);
    forall q | q in next.net.log ensures q.recordId in {"x", "q", "r"} {
      Net.AbsorbFrom(Net.Absorb([], x), rest, q);
      if q !in rest { Net.AbsorbFrom([], x, q); }
    }
  }

  /** Writes that overflow the persistent queue while a drain hands records over leave records in
      the socket queue that the persistent queue has given up. When it then evicts one that the
      persistent queue still counts on, the next drain that succeeds removes it as committed. */
  lemma AnEvictedRecordIsLost() returns (d: Durable)
    ensures Reachable(SMALL, d) && Lost(d, ("p", Rec(1)))
    ensures d.ledger.unread == d.ledger.abandoned == d.ledger.reused == {}
  {
    d := TwoRounds();
    d := ThirdHandOver(d);
    d := AllSent(d);
    hide InCell;
    assert Ids(d.queue.entries) <= d.queue.resident;
    AllGo(d);
    d := Step(d, Settle(true));
    NotInEmpty(d, ("p", Rec(1)));
  }
}
