/** Every run of the acknowledged Realtime transport keeps its books: conservation, truthful
    promises, bounded attempts and bounded queues. */
module AckSystem {
  import opened AckClient
  import opened AckMachine

  // ---------------------------------------------------------------- bags

  lemma BagJoin(a: seq<Pending>, b: seq<Pending>)
    ensures Bag(a + b) == Bag(a) + Bag(b)
  {
    var ta := seq(|a|, i requires 0 <= i < |a| => a[i].ticket);
    var tb := seq(|b|, i requires 0 <= i < |b| => b[i].ticket);
    var all := a + b;
    assert seq(|all|, i requires 0 <= i < |all| => all[i].ticket) == ta + tb;
  }

  lemma BagOne(item: Pending)
    ensures Bag([item]) == multiset{item.ticket}
  {
    assert seq(1, i requires 0 <= i < 1 => [item][i].ticket) == [item.ticket];
  }

  lemma BagHas(items: seq<Pending>, i: nat)
    requires i < |items|
    ensures items[i].ticket in Bag(items)
  {
    assert seq(|items|, i requires 0 <= i < |items| => items[i].ticket)[i] == items[i].ticket;
  }

  lemma {:induction false} UptoOnce(n: nat, k: nat)
    ensures Upto(n)[k] == if k < n then 1 else 0
  {
    if n > 0 { UptoOnce(n - 1, k); }
  }

  lemma CountSnoc(sends: seq<(nat, nat)>, ref: nat, ticket: nat)
    ensures forall k :: Count(sends + [(ref, ticket)], k) == Count(sends, k) + if k == ticket then 1 else 0
  {
    assert (sends + [(ref, ticket)])[..|sends|] == sends;
  }

  lemma FlightSplit(flights: seq<Flight>, k: nat)
    requires k < |flights|
    ensures Bag(FlightItems(flights)) ==
        Bag(FlightItems(flights[..k] + flights[k + 1..])) + multiset{flights[k].pending.ticket}
  {
    var items, rest := FlightItems(flights), flights[..k] + flights[k + 1..];
    assert items == items[..k] + [items[k]] + items[k + 1..];
    assert FlightItems(rest) == items[..k] + items[k + 1..];
    BagJoin(items[..k] + [items[k]], items[k + 1..]);
    BagJoin(items[..k], [items[k]]);
    BagJoin(items[..k], items[k + 1..]);
    BagOne(items[k]);
  }

  // ---------------------------------------------------------------- moves between the places

  /** The ticket in hand has not been settled. */
  lemma HandIsOpen(cfg: Config, t: Transport, item: Pending, hand: seq<Pending>)
    requires Core(cfg, t, [item] + hand)
    ensures item.ticket !in t.ledger.acked && item.ticket !in t.ledger.lost && item.ticket !in t.ledger.settled
  {
    BagJoin([item], hand);
    BagOne(item);
    UptoOnce(t.ledger.tickets, item.ticket);
    assert item.ticket in t.ledger.acked <==> item.ticket in multiset(t.ledger.acked);
    assert item.ticket in t.ledger.lost <==> item.ticket in multiset(t.ledger.lost);
  }

  lemma DropKeeps(cfg: Config, t: Transport, item: Pending, hand: seq<Pending>)
    requires Core(cfg, t, [item] + hand)
    ensures Core(cfg, t.(ledger := Drop(t.ledger, item)), hand)
  {
    HandIsOpen(cfg, t, item, hand);
    BagJoin([item], hand);
    BagOne(item);
    assert item in [item] + hand && forall other :: other in hand ==> other in [item] + hand;
  }

  lemma AcknowledgeKeeps(cfg: Config, t: Transport, item: Pending)
    requires Core(cfg, t, [item])
    ensures Core(cfg, t.(ledger := Acknowledge(t.ledger, item)), [])
  {
    assert [item] + [] == [item];
    HandIsOpen(cfg, t, item, []);
    BagOne(item);
    assert item in [item];
  }

  lemma {:induction false} DropAllKeeps(cfg: Config, t: Transport, items: seq<Pending>, hand: seq<Pending>)
    requires Core(cfg, t, items + hand)
    ensures Core(cfg, t.(ledger := DropAll(t.ledger, items)), hand)
  {
    if items == [] {
      assert items + hand == hand;
    } else {
      var init, last := items[..|items| - 1], items[|items| - 1];
      assert items + hand == init + ([last] + hand);
      DropAllKeeps(cfg, t, init, [last] + hand);
      DropKeeps(cfg, t.(ledger := DropAll(t.ledger, init)), last, hand);
    }
  }

  lemma UnqueueKeeps(cfg: Config, t: Transport, n: nat, hand: seq<Pending>)
    requires Core(cfg, t, hand) && n <= |t.queue|
    ensures Core(cfg, t.(queue := t.queue[n..]), t.queue[..n] + hand)
  {
    assert t.queue == t.queue[..n] + t.queue[n..];
    BagJoin(t.queue[..n], t.queue[n..]);
    BagJoin(t.queue[..n], hand);
    assert forall item :: item in t.queue[..n] ==> item in t.queue;
  }

  lemma RequeueKeeps(cfg: Config, t: Transport, items: seq<Pending>, hand: seq<Pending>)
    requires Core(cfg, t, items + hand) && ItemsInv(t.ledger, items, cfg.maxAttempts - 1)
    ensures Core(cfg, t.(queue := items + t.queue), hand)
  {
    BagJoin(items, t.queue);
    BagJoin(items, hand);
  }

  lemma LandKeeps(cfg: Config, t: Transport, k: nat)
    requires Core(cfg, t, []) && k < |t.inFlight|
    ensures Core(cfg, Remove(t, k), [t.inFlight[k].pending])
  {
    FlightSplit(t.inFlight, k);
    BagOne(t.inFlight[k].pending);
    assert t.inFlight[k] in t.inFlight;
  }

  /** Nothing else holds the ticket of the queue's head. */
  lemma HeadIsAlone(cfg: Config, t: Transport)
    requires Core(cfg, t, []) && t.queue != []
    ensures forall item :: item in t.queue[1..] ==> item.ticket != t.queue[0].ticket
    ensures forall f :: f in t.inFlight ==> f.pending.ticket != t.queue[0].ticket
    ensures Bag(t.queue) == multiset{t.queue[0].ticket} + Bag(t.queue[1..])
  {
    var head, rest := t.queue[0], t.queue[1..];
    assert t.queue == [head] + rest;
    BagJoin([head], rest);
    BagOne(head);
    UptoOnce(t.ledger.tickets, head.ticket);
    forall i | 0 <= i < |rest| ensures rest[i].ticket != head.ticket { BagHas(rest, i); }
    forall i | 0 <= i < |t.inFlight| ensures t.inFlight[i].pending.ticket != head.ticket {
      BagHas(FlightItems(t.inFlight), i);
    }
  }

  /** One more send of a ticket counts for that ticket only. */
  lemma SendCounts(cfg: Config, l: Ledger, ref: nat, head: Pending)
    requires SendsInv(cfg, l, ref) && ItemInv(l, head, cfg.maxAttempts - 1)
    ensures
      var more := l.(sends := l.sends + [(ref + 1, head.ticket)]);
      SendsInv(cfg, more, ref + 1) && ItemInv(more, Again(head), cfg.maxAttempts) &&
      (forall item: Pending, limit: int ::
        item.ticket != head.ticket && ItemInv(l, item, limit) ==> ItemInv(more, item, limit))
  {
    CountSnoc(l.sends, ref + 1, head.ticket);
  }

  lemma OthersStay(cfg: Config, t: Transport)
    requires Core(cfg, t, []) && t.queue != []
    ensures ItemsInv(Attempt(t).ledger, Attempt(t).queue, cfg.maxAttempts - 1)
    ensures FlightsInv(cfg, Attempt(t).ledger, t.inFlight)
  {
    var head, next := t.queue[0], Attempt(t);
    assert head in t.queue;
    HeadIsAlone(cfg, t);
    SendCounts(cfg, t.ledger, t.link.ref, head);
    forall item | item in next.queue ensures ItemInv(next.ledger, item, cfg.maxAttempts - 1) {
      assert item in t.queue[1..] && item in t.queue;
    }
    assert forall s :: s in t.ledger.sends ==> s in next.ledger.sends;
  }

  lemma AttemptConserves(cfg: Config, t: Transport)
    requires Core(cfg, t, []) && t.queue != []
    ensures Conserved(t.queue[1..], t.inFlight, t.ledger, [Again(t.queue[0])])
  {
    HeadIsAlone(cfg, t);
    BagOne(Again(t.queue[0]));
    assert Bag([]) == multiset{};
  }

  lemma AttemptKeeps(cfg: Config, t: Transport)
    requires Core(cfg, t, []) && t.queue != []
    ensures Core(cfg, Attempt(t), [Again(t.queue[0])])
    ensures (Attempt(t).link.ref, t.queue[0].ticket) in Attempt(t).ledger.sends
  {
    var head, next := t.queue[0], Attempt(t);
    assert head in t.queue;
    OthersStay(cfg, t);
    SendCounts(cfg, t.ledger, t.link.ref, head);
    AttemptConserves(cfg, t);
    assert next.ledger.sends[|t.ledger.sends|] == (next.link.ref, head.ticket);
  }

  lemma LaunchKeeps(cfg: Config, t: Transport, item: Pending, ref: nat)
    requires Core(cfg, t, [item]) && (ref, item.ticket) in t.ledger.sends
    ensures Core(cfg, t.(inFlight := t.inFlight + [Flight(ref, item)]), [])
  {
    var flights := t.inFlight + [Flight(ref, item)];
    assert FlightItems(flights) == FlightItems(t.inFlight) + [item];
    BagJoin(FlightItems(t.inFlight), [item]);
    assert item in [item];
  }

  // ---------------------------------------------------------------- restore, fail, reconnect

  lemma {:induction false} Partition(cfg: Config, l: Ledger, flights: seq<Flight>)
    requires forall f :: f in flights ==> ItemInv(l, f.pending, cfg.maxAttempts)
    ensures Bag(FlightItems(flights)) == Bag(Exhausted(cfg, flights)) + Bag(Survivors(cfg, flights))
    ensures ItemsInv(l, Exhausted(cfg, flights), cfg.maxAttempts)
    ensures ItemsInv(l, Survivors(cfg, flights), cfg.maxAttempts - 1)
  {
    if flights == [] {
      assert FlightItems([]) == [];
    } else {
      var init, last := flights[..|flights| - 1], flights[|flights| - 1];
      var gone, back := Exhausted(cfg, init), Survivors(cfg, init);
      Partition(cfg, l, init);
      assert last in flights;
      assert FlightItems(flights) == FlightItems(init) + [last.pending];
      BagJoin(FlightItems(init), [last.pending]);
      BagJoin(gone, [last.pending]);
      BagJoin(back, [last.pending]);
      assert gone + [] == gone && back + [] == back;
    }
  }

  lemma RestoreKeeps(cfg: Config, t: Transport)
    requires Core(cfg, t, [])
    ensures Sound(cfg, RestoreInFlight(cfg, t))
  {
    var gone, back := Exhausted(cfg, t.inFlight), Survivors(cfg, t.inFlight);
    Partition(cfg, t.ledger, t.inFlight);
    BagJoin(gone, back);
    var landed := t.(inFlight := []);
    assert FlightItems([]) == [];
    assert Core(cfg, landed, gone + back);
    DropAllKeeps(cfg, landed, gone, back);
    var dropped := landed.(ledger := DropAll(t.ledger, gone));
    DropAllLedger(t.ledger, gone);
    assert back + [] == back;
    RequeueKeeps(cfg, dropped, back, []);
  }

  /** Dropping only writes the books of what is over. */
  lemma {:induction false} DropAllLedger(l: Ledger, items: seq<Pending>)
    ensures
      var d := DropAll(l, items);
      d == l.(lost := d.lost, settled := d.settled)
  {
    if items != [] { DropAllLedger(l, items[..|items| - 1]); }
  }

  lemma FailKeeps(cfg: Config, t: Transport)
    requires Core(cfg, t, [])
    ensures Sound(cfg, FailPending(cfg, t)) && !Outstanding(FailPending(cfg, t))
  {
    var r := RestoreInFlight(cfg, t);
    RestoreKeeps(cfg, t);
    UnqueueKeeps(cfg, r, |r.queue|, []);
    assert r.queue[..|r.queue|] == r.queue && r.queue[|r.queue|..] == [];
    DropAllKeeps(cfg, r.(queue := []), r.queue, []);
  }

  lemma ScheduleKeeps(cfg: Config, t: Transport)
    requires Sound(cfg, t)
    ensures Sound(cfg, ScheduleReconnect(cfg, t))
  {
    if !(t.link.closed || !cfg.reconnect || t.link.reconnectTimer || !Outstanding(t)) {
      if t.link.reconnectAttempts >= cfg.maxReconnectAttempts { FailKeeps(cfg, t); }
    }
  }

  // ---------------------------------------------------------------- pump and retry

  lemma PumpKeeps(cfg: Config, t: Transport, sendOk: nat -> bool)
    requires Sound(cfg, t)
    ensures Sound(cfg, Pump(cfg, t, sendOk))
    decreases |t.queue|, 1
  {
    if Ready(t) { FillKeeps(cfg, t, sendOk); }
  }

  lemma FillKeeps(cfg: Config, t: Transport, sendOk: nat -> bool)
    requires Sound(cfg, t)
    ensures Sound(cfg, Fill(cfg, t, sendOk))
    decreases |t.queue|, 0
  {
    if |t.inFlight| < cfg.maxInFlight && t.queue != [] {
      var item, next := Again(t.queue[0]), Attempt(t);
      AttemptKeeps(cfg, t);
      if sendOk(next.link.ref) {
        LaunchKeeps(cfg, next, item, next.link.ref);
        FillKeeps(cfg, next.(inFlight := next.inFlight + [Flight(next.link.ref, item)]), sendOk);
      } else {
        RetryKeeps(cfg, next, item, sendOk);
      }
    }
  }

  lemma RetryKeeps(cfg: Config, t: Transport, item: Pending, sendOk: nat -> bool)
    requires Core(cfg, t, [item])
    ensures Sound(cfg, Retry(cfg, t, item, sendOk))
    decreases |t.queue|, 2
  {
    if item.attempts >= cfg.maxAttempts {
      GiveUpKeeps(cfg, t, item);
      PumpKeeps(cfg, GiveUp(t, item), sendOk);
    } else {
      PutBackKeeps(cfg, t, item);
      ScheduleKeeps(cfg, PutBack(t, item));
    }
  }

  lemma GiveUpKeeps(cfg: Config, t: Transport, item: Pending)
    requires Core(cfg, t, [item])
    ensures Sound(cfg, GiveUp(t, item))
  {
    hide Drop;
    assert [item] + [] == [item];
    DropKeeps(cfg, t, item, []);
  }

  lemma PutBackKeeps(cfg: Config, t: Transport, item: Pending)
    requires Core(cfg, t, [item]) && item.attempts < cfg.maxAttempts
    ensures Sound(cfg, PutBack(t, item))
  {
    assert [item] + [] == [item] && item in [item];
    RequeueKeeps(cfg, t, [item], []);
  }

  // ---------------------------------------------------------------- sizes

  lemma {:induction false} SurvivorsSize(cfg: Config, flights: seq<Flight>)
    ensures |Survivors(cfg, flights)| <= |flights|
  {
    if flights != [] { SurvivorsSize(cfg, flights[..|flights| - 1]); }
  }

  lemma ScheduleSize(cfg: Config, t: Transport)
    requires |t.inFlight| <= cfg.maxInFlight
    ensures NoBigger(cfg, t, 0, ScheduleReconnect(cfg, t)) && NoBigger(cfg, t, 0, RestoreInFlight(cfg, t))
    ensures NoBigger(cfg, t, 0, FailPending(cfg, t))
  {
    SurvivorsSize(cfg, t.inFlight);
  }

  lemma PumpSize(cfg: Config, t: Transport, sendOk: nat -> bool)
    requires |t.inFlight| <= cfg.maxInFlight
    ensures NoBigger(cfg, t, 0, Pump(cfg, t, sendOk))
    decreases |t.queue|, 1
  {
    if Ready(t) { FillSize(cfg, t, sendOk); }
  }

  lemma FillSize(cfg: Config, t: Transport, sendOk: nat -> bool)
    requires |t.inFlight| <= cfg.maxInFlight
    ensures NoBigger(cfg, t, 0, Fill(cfg, t, sendOk))
    decreases |t.queue|, 0
  {
    if |t.inFlight| < cfg.maxInFlight && t.queue != [] {
      var item, next := Again(t.queue[0]), Attempt(t);
      if sendOk(next.link.ref) {
        FillSize(cfg, next.(inFlight := next.inFlight + [Flight(next.link.ref, item)]), sendOk);
      } else {
        RetrySize(cfg, next, item, sendOk);
      }
    }
  }

  lemma RetrySize(cfg: Config, t: Transport, item: Pending, sendOk: nat -> bool)
    requires |t.inFlight| <= cfg.maxInFlight
    ensures NoBigger(cfg, t, 1, Retry(cfg, t, item, sendOk))
    decreases |t.queue|, 2
  {
    if item.attempts >= cfg.maxAttempts {
      PumpSize(cfg, GiveUp(t, item), sendOk);
    } else {
      ScheduleSize(cfg, PutBack(t, item));
    }
  }

  // ---------------------------------------------------------------- events

  lemma PumpInv(cfg: Config, t: Transport, sendOk: nat -> bool)
    requires Inv(cfg, t)
    ensures Inv(cfg, Pump(cfg, t, sendOk)) && Inv(cfg, Kick(cfg, t, sendOk))
  {
    PumpKeeps(cfg, t, sendOk);
    PumpSize(cfg, t, sendOk);
  }

  lemma AckedInv(cfg: Config, t: Transport, k: nat, sendOk: nat -> bool)
    requires Inv(cfg, t) && k < |t.inFlight|
    ensures
      var item, r := t.inFlight[k].pending, Remove(t, k);
      Inv(cfg, Pump(cfg, NotifyIdle(r.(ledger := Acknowledge(r.ledger, item))), sendOk))
  {
    hide Pump;
    var item, r := t.inFlight[k].pending, Remove(t, k);
    LandKeeps(cfg, t, k);
    AcknowledgeKeeps(cfg, r, item);
    PumpInv(cfg, NotifyIdle(r.(ledger := Acknowledge(r.ledger, item))), sendOk);
  }

  lemma RejectedInv(cfg: Config, t: Transport, k: nat, sendOk: nat -> bool)
    requires Inv(cfg, t) && k < |t.inFlight|
    ensures Inv(cfg, Retry(cfg, Remove(t, k), t.inFlight[k].pending, sendOk))
  {
    hide Retry;
    LandKeeps(cfg, t, k);
    RetryKeeps(cfg, Remove(t, k), t.inFlight[k].pending, sendOk);
    RetrySize(cfg, Remove(t, k), t.inFlight[k].pending, sendOk);
  }

  lemma ReplyInv(cfg: Config, t: Transport, ref: nat, ok: bool, sendOk: nat -> bool)
    requires Inv(cfg, t)
    ensures Inv(cfg, OnReply(cfg, t, ref, ok, sendOk))
  {
    hide Pump, Retry, Acknowledge, NotifyIdle;
    var k := Find(t.inFlight, ref);
    if k < |t.inFlight| {
      AckedInv(cfg, t, k, sendOk);
      RejectedInv(cfg, t, k, sendOk);
    }
  }

  lemma TimeoutInv(cfg: Config, t: Transport, ref: nat, sendOk: nat -> bool)
    requires Inv(cfg, t)
    ensures Inv(cfg, OnAckTimeout(cfg, t, ref, sendOk))
  {
    hide Retry;
    var k := Find(t.inFlight, ref);
    if k < |t.inFlight| { RejectedInv(cfg, t, k, sendOk); }
  }

  lemma ScheduleInv(cfg: Config, t: Transport)
    requires Inv(cfg, t)
    ensures Inv(cfg, ScheduleReconnect(cfg, t))
  {
    ScheduleKeeps(cfg, t);
    ScheduleSize(cfg, t);
  }

  lemma FailInv(cfg: Config, t: Transport)
    requires Core(cfg, t, []) && Bounded(cfg, t)
    ensures Inv(cfg, RestoreInFlight(cfg, t)) && Inv(cfg, FailPending(cfg, t))
  {
    RestoreKeeps(cfg, t);
    FailKeeps(cfg, t);
    ScheduleSize(cfg, t);
  }

  lemma RecoverInv(cfg: Config, t: Transport)
    requires Inv(cfg, t)
    ensures Inv(cfg, Recover(cfg, t))
  {
    if cfg.reconnect { ScheduleInv(cfg, t); } else { FailInv(cfg, t); }
  }

  lemma SocketClosedInv(cfg: Config, t: Transport)
    requires Inv(cfg, t)
    ensures Inv(cfg, OnClose(cfg, t))
  {
    hide RestoreInFlight, Recover;
    var down := t.(link := t.link.(socket := Absent, joined := false));
    FailInv(cfg, down);
    RecoverInv(cfg, RestoreInFlight(cfg, down));
  }

  /** Sockets, timers and counters are not in the books. */
  lemma LinkInv(cfg: Config, t: Transport, link: Link, failures: nat)
    requires Inv(cfg, t) && t.link.ref <= link.ref
    ensures Inv(cfg, t.(link := link, failures := failures))
  {
  }

  lemma ConnectFailedInv(cfg: Config, t: Transport)
    requires Inv(cfg, t)
    ensures Inv(cfg, OnConnectFailed(cfg, t))
  {
    hide Recover;
    RecoverInv(cfg, t.(failures := t.failures + 1));
  }

  lemma EndCloseInv(cfg: Config, t: Transport)
    requires Inv(cfg, t)
    ensures Inv(cfg, AckClient.EndClose(cfg, t))
  {
    FailInv(cfg, t.(link := t.link.(closed := true)));
  }

  /** A new ticket comes into hand. */
  lemma IssueConserves(t: Transport, item: Pending)
    requires Conserved(t.queue, t.inFlight, t.ledger, []) && item.ticket == t.ledger.tickets
    ensures Conserved(t.queue, t.inFlight, Issued(t.ledger, item.awaited), [item])
  {
    BagOne(item);
    assert Bag([]) == multiset{};
  }

  lemma IssueKeeps(cfg: Config, t: Transport, awaited: bool)
    requires Core(cfg, t, [])
    ensures Core(cfg, t.(ledger := Issued(t.ledger, awaited)), [Pending(t.ledger.tickets, 0, awaited)])
  {
    var item := Pending(t.ledger.tickets, 0, awaited);
    IssueConserves(t, item);
    NeverSent(t.ledger.sends, item.ticket);
    NotYet(t, item.ticket);
  }

  lemma {:induction false} NeverSent(sends: seq<(nat, nat)>, ticket: nat)
    requires forall i :: 0 <= i < |sends| ==> sends[i].1 < ticket
    ensures Count(sends, ticket) == 0
  {
    if sends != [] { NeverSent(sends[..|sends| - 1], ticket); }
  }

  lemma NotYet(t: Transport, ticket: nat)
    requires Conserved(t.queue, t.inFlight, t.ledger, []) && ticket == t.ledger.tickets
    ensures ticket !in t.ledger.acked && ticket !in t.ledger.lost
  {
    UptoOnce(t.ledger.tickets, ticket);
    assert ticket in t.ledger.acked <==> ticket in multiset(t.ledger.acked);
    assert ticket in t.ledger.lost <==> ticket in multiset(t.ledger.lost);
  }

  lemma RefusedInv(cfg: Config, t: Transport, awaited: bool)
    requires Inv(cfg, t)
    ensures Inv(cfg, Refuse(t, awaited))
  {
    var item := Pending(t.ledger.tickets, 0, awaited);
    IssueKeeps(cfg, t, awaited);
    assert [item] + [] == [item];
    DropKeeps(cfg, t.(ledger := Issued(t.ledger, awaited)), item, []);
    var next := Refuse(t, awaited);
    assert Core(cfg, next, []);
    assert IdleInv(next) && Bounded(cfg, next);
  }

  lemma TrimKeeps(cfg: Config, t: Transport, awaited: bool)
    requires Core(cfg, t, [])
    ensures Core(cfg, Trim(cfg, t, awaited), [Pending(t.ledger.tickets, 0, awaited)])
  {
    var item, n := Pending(t.ledger.tickets, 0, awaited), Excess(cfg, t);
    var issued := t.(ledger := Issued(t.ledger, awaited));
    IssueKeeps(cfg, t, awaited);
    UnqueueKeeps(cfg, issued, n, [item]);
    DropAllKeeps(cfg, issued.(queue := t.queue[n..]), t.queue[..n], [item]);
  }

  lemma AdmittedInv(cfg: Config, t: Transport, awaited: bool, sendOk: nat -> bool)
    requires cfg.Valid() && Inv(cfg, t)
    ensures Inv(cfg, Admit(cfg, t, awaited, sendOk))
  {
    var item, r := Pending(t.ledger.tickets, 0, awaited), Trim(cfg, t, awaited);
    TrimKeeps(cfg, t, awaited);
    if cfg.maxQueueSize == 0 {
      assert [item] + [] == [item];
      DropKeeps(cfg, r, item, []);
    } else {
      AppendKeeps(cfg, r, item);
      PumpInv(cfg, r.(queue := r.queue + [item]), sendOk);
    }
  }

  lemma WriteInv(cfg: Config, t: Transport, bytes: nat, awaited: bool, sendOk: nat -> bool)
    requires cfg.Valid() && Inv(cfg, t)
    ensures Inv(cfg, AckClient.Write(cfg, t, bytes, awaited, sendOk))
  {
    hide Refuse, Admit;
    RefusedInv(cfg, t, awaited);
    AdmittedInv(cfg, t, awaited, sendOk);
  }

  lemma AppendKeeps(cfg: Config, t: Transport, item: Pending)
    requires cfg.Valid() && Core(cfg, t, [item]) && item.attempts == 0
    ensures Core(cfg, t.(queue := t.queue + [item]), [])
  {
    BagJoin(t.queue, [item]);
    assert item in [item];
  }

  lemma ParkedInv(cfg: Config, t: Transport, link: Link, waiter: nat)
    requires Inv(cfg, t) && t.link.ref <= link.ref && Outstanding(t)
    ensures Inv(cfg, t.(link := link, idle := t.idle + {waiter}))
  {
  }

  lemma FlushInv(cfg: Config, t: Transport, waiter: nat, sendOk: nat -> bool)
    requires Inv(cfg, t)
    ensures Inv(cfg, AckClient.Flush(cfg, t, waiter, sendOk)) && Inv(cfg, AckClient.Resume(cfg, t, waiter, sendOk))
  {
    hide Kick, Inv;
    if Outstanding(t) {
      var link := t.link.(reconnectTimer := false);
      ParkedInv(cfg, t, link, waiter);
      ParkedInv(cfg, t, link.(reconnectAttempts := 0), waiter);
      PumpInv(cfg, t.(link := link, idle := t.idle + {waiter}), sendOk);
      PumpInv(cfg, t.(link := link.(reconnectAttempts := 0), idle := t.idle + {waiter}), sendOk);
    }
  }

  lemma LinkEventInv(cfg: Config, t: Transport, e: Event, sendOk: nat -> bool)
    requires Inv(cfg, t)
    requires e.SocketCreated? || e.SocketOpened? || e.LinkFailed? || e.SpendRef? || e.BeginClose?
    ensures Inv(cfg, Next(cfg, t, e, sendOk))
  {
    var next := Next(cfg, t, e, sendOk);
    LinkInv(cfg, t, next.link, next.failures);
  }

  lemma FlushTimeoutInv(cfg: Config, t: Transport, waiter: nat)
    requires Inv(cfg, t)
    ensures Inv(cfg, AckClient.FlushTimeout(t, waiter))
  {
  }

  lemma JoinedInv(cfg: Config, t: Transport, sendOk: nat -> bool)
    requires Inv(cfg, t)
    ensures Inv(cfg, OnJoined(cfg, t, sendOk)) && Inv(cfg, OnTimer(cfg, t, sendOk))
  {
    var joined := t.link.(joined := true, reconnectAttempts := 0, reconnectTimer := false);
    LinkInv(cfg, t, joined, t.failures);
    PumpInv(cfg, t.(link := joined), sendOk);
    LinkInv(cfg, t, t.link.(reconnectTimer := false), t.failures);
    PumpInv(cfg, t.(link := t.link.(reconnectTimer := false)), sendOk);
  }

  lemma NextKeeps(cfg: Config, t: Transport, e: Event, sendOk: nat -> bool)
    requires cfg.Valid() && Inv(cfg, t)
    ensures Inv(cfg, Next(cfg, t, e, sendOk))
  {
    hide AckClient.Write, AckClient.Flush, AckClient.Resume, OnReply, OnAckTimeout, OnJoined, OnClose, OnConnectFailed,
      OnTimer, Pump, Kick, AckClient.EndClose, AckClient.FlushTimeout, AckClient.RefreshAuth;
    match e
    case Write(bytes, awaited) => WriteInv(cfg, t, bytes, awaited, sendOk);
    case Flush(waiter) => FlushInv(cfg, t, waiter, sendOk);
    case Resume(waiter) => FlushInv(cfg, t, waiter, sendOk);
    case Reply(ref, ok) => ReplyInv(cfg, t, ref, ok, sendOk);
    case AckTimeout(ref) => TimeoutInv(cfg, t, ref, sendOk);
    case Joined => JoinedInv(cfg, t, sendOk);
    case SocketClosed => SocketClosedInv(cfg, t);
    case ConnectFailed => ConnectFailedInv(cfg, t);
    case ReconnectTimer => JoinedInv(cfg, t, sendOk);
    case Connected => PumpInv(cfg, t, sendOk);
    case RefreshAuth => RefreshInv(cfg, t, sendOk);
    case EndClose => EndCloseInv(cfg, t);
    case FlushTimeout(waiter) => FlushTimeoutInv(cfg, t, waiter);
    case _ => LinkEventInv(cfg, t, e, sendOk);
  }

  lemma CloseSocketInv(cfg: Config, t: Transport)
    requires Inv(cfg, t)
    ensures Inv(cfg, CloseSocket(t))
  {
    LinkInv(cfg, t, CloseSocket(t).link, t.failures);
  }

  lemma RefreshInv(cfg: Config, t: Transport, sendOk: nat -> bool)
    requires Inv(cfg, t)
    ensures Inv(cfg, AckClient.RefreshAuth(cfg, t, sendOk))
  {
    hide CloseSocket, Kick;
    PumpInv(cfg, t, sendOk);
    CloseSocketInv(cfg, t);
  }

  // ---------------------------------------------------------------- theorems about every run

  lemma {:induction false} RunKeeps(cfg: Config, events: seq<Event>, sendOk: nat -> bool)
    requires cfg.Valid()
    ensures Inv(cfg, Run(cfg, events, sendOk))
  {
    if events == [] {
      assert FlightItems([]) == [] && Bag([]) == multiset{};
    } else {
      RunKeeps(cfg, events[..|events| - 1], sendOk);
      NextKeeps(cfg, Run(cfg, events[..|events| - 1], sendOk), events[|events| - 1], sendOk);
    }
  }

  lemma ReachableKeeps(cfg: Config, t: Transport)
    requires cfg.Valid() && Reachable(cfg, t)
    ensures Inv(cfg, t)
  {
    var events, sendOk :| t == Run(cfg, events, sendOk);
    RunKeeps(cfg, events, sendOk);
  }

  /** Conservation: every write is acknowledged, dropped, queued or in flight, and in one place
      only. */
  lemma {:induction false} EveryTicketIsSomewhere(cfg: Config, t: Transport)
    requires cfg.Valid() && Reachable(cfg, t)
    ensures t.ledger.tickets == |t.ledger.acked| + |t.ledger.lost| + |t.queue| + |t.inFlight|
    ensures Bag(t.queue) + Bag(FlightItems(t.inFlight)) + multiset(t.ledger.acked) + multiset(t.ledger.lost) ==
        Upto(t.ledger.tickets)
    ensures forall k: nat :: Upto(t.ledger.tickets)[k] == if k < t.ledger.tickets then 1 else 0
  {
    ReachableKeeps(cfg, t);
    assert Bag([]) == multiset{};
    UptoSize(t.ledger.tickets);
    forall k: nat ensures Upto(t.ledger.tickets)[k] == if k < t.ledger.tickets then 1 else 0 {
      UptoOnce(t.ledger.tickets, k);
    }
    assert |Bag(t.queue)| == |t.queue| && |Bag(FlightItems(t.inFlight))| == |t.inFlight|;
  }

  lemma {:induction false} UptoSize(n: nat)
    ensures |Upto(n)| == n
  {
    if n > 0 { UptoSize(n - 1); }
  }

  /** Each delivery promise is settled once: resolved iff its write was acknowledged, rejected iff
      it was dropped, and open while the record is queued or in flight. */
  lemma {:induction false} PromisesTellTheTruth(cfg: Config, t: Transport, ticket: nat)
    requires cfg.Valid() && Reachable(cfg, t) && ticket in t.ledger.awaited
    ensures ticket in t.ledger.settled && t.ledger.settled[ticket] <==> ticket in t.ledger.acked
    ensures ticket in t.ledger.settled && !t.ledger.settled[ticket] <==> ticket in t.ledger.lost
    ensures ticket !in t.ledger.settled <==> ticket in Bag(t.queue) || ticket in Bag(FlightItems(t.inFlight))
  {
    ReachableKeeps(cfg, t);
    assert Bag([]) == multiset{};
    UptoOnce(t.ledger.tickets, ticket);
    assert ticket in t.ledger.acked <==> ticket in multiset(t.ledger.acked);
    assert ticket in t.ledger.lost <==> ticket in multiset(t.ledger.lost);
  }

  /** Bounds and wake-ups. */
  lemma {:induction false} BoundsHold(cfg: Config, t: Transport)
    requires cfg.Valid() && Reachable(cfg, t)
    ensures |t.inFlight| <= cfg.maxInFlight && |t.queue| + |t.inFlight| <= cfg.maxQueueSize + cfg.maxInFlight
    ensures forall ticket :: Count(t.ledger.sends, ticket) <= cfg.maxAttempts
    ensures !Outstanding(t) ==> t.idle == {}
  {
    ReachableKeeps(cfg, t);
  }

  /** Sending, retrying and giving up acknowledge nothing. */
  lemma {:induction false} DropsAckNothing(l: Ledger, items: seq<Pending>)
    ensures DropAll(l, items).acked == l.acked
  {
    if items != [] { DropsAckNothing(l, items[..|items| - 1]); }
  }

  lemma ScheduleAcksNothing(cfg: Config, t: Transport)
    ensures ScheduleReconnect(cfg, t).ledger.acked == t.ledger.acked
  {
    DropsAckNothing(t.ledger, Exhausted(cfg, t.inFlight));
    var r := RestoreInFlight(cfg, t);
    DropsAckNothing(r.ledger, r.queue);
  }

  lemma {:induction false} PumpAcksNothing(cfg: Config, t: Transport, sendOk: nat -> bool)
    ensures Pump(cfg, t, sendOk).ledger.acked == t.ledger.acked
    decreases |t.queue|, 1
  {
    if Ready(t) { FillAcksNothing(cfg, t, sendOk); }
  }

  lemma {:induction false} FillAcksNothing(cfg: Config, t: Transport, sendOk: nat -> bool)
    ensures Fill(cfg, t, sendOk).ledger.acked == t.ledger.acked
    decreases |t.queue|, 0
  {
    hide Retry;
    if |t.inFlight| < cfg.maxInFlight && t.queue != [] {
      var item, next := Again(t.queue[0]), Attempt(t);
      if sendOk(next.link.ref) {
        FillAcksNothing(cfg, next.(inFlight := next.inFlight + [Flight(next.link.ref, item)]), sendOk);
      } else { RetryAcksNothing(cfg, next, item, sendOk); }
    }
  }

  lemma {:induction false} RetryAcksNothing(cfg: Config, t: Transport, item: Pending, sendOk: nat -> bool)
    ensures Retry(cfg, t, item, sendOk).ledger.acked == t.ledger.acked
    decreases |t.queue|, 2
  {
    hide Pump, ScheduleReconnect;
    if item.attempts >= cfg.maxAttempts { PumpAcksNothing(cfg, GiveUp(t, item), sendOk); }
    else { ScheduleAcksNothing(cfg, PutBack(t, item)); }
  }

  /** A late reply cannot settle a later attempt: each ref was given to one ticket; a good reply
      acknowledges that ticket and no other, a bad one or a timeout none; and a ref that is not in
      flight does nothing. */
  lemma {:induction false} RepliesHitTheirOwnTicket(cfg: Config, t: Transport, ref: nat, ok: bool, sendOk: nat -> bool)
    requires cfg.Valid() && Reachable(cfg, t)
    ensures
      (forall f :: f in t.inFlight ==> f.ref != ref) ==>
        OnReply(cfg, t, ref, ok, sendOk) == t && OnAckTimeout(cfg, t, ref, sendOk) == t
    ensures forall f :: f in t.inFlight && f.ref == ref ==>
      (ref, f.pending.ticket) in t.ledger.sends &&
      OnReply(cfg, t, ref, ok, sendOk).ledger.acked == t.ledger.acked + (if ok then [f.pending.ticket] else []) &&
      OnAckTimeout(cfg, t, ref, sendOk).ledger.acked == t.ledger.acked
    ensures forall i, j :: 0 <= i < j < |t.ledger.sends| ==> t.ledger.sends[i].0 != t.ledger.sends[j].0
  {
    ReachableKeeps(cfg, t);
    var k := Find(t.inFlight, ref);
    if k < |t.inFlight| {
      assert t.inFlight[k] in t.inFlight;
      ReplyAcks(cfg, t, k, ok, sendOk);
      forall f | f in t.inFlight && f.ref == ref ensures f.pending.ticket == t.inFlight[k].pending.ticket {
        OneTicket(cfg, t, f, t.inFlight[k]);
      }
    }
  }

  lemma ReplyAcks(cfg: Config, t: Transport, k: nat, ok: bool, sendOk: nat -> bool)
    requires k < |t.inFlight| && k == Find(t.inFlight, t.inFlight[k].ref)
    ensures
      var f := t.inFlight[k];
      OnReply(cfg, t, f.ref, ok, sendOk).ledger.acked == t.ledger.acked + (if ok then [f.pending.ticket] else []) &&
      OnAckTimeout(cfg, t, f.ref, sendOk).ledger.acked == t.ledger.acked
  {
    hide Pump, Retry;
    var item, r := t.inFlight[k].pending, Remove(t, k);
    PumpAcksNothing(cfg, NotifyIdle(r.(ledger := Acknowledge(r.ledger, item))), sendOk);
    RetryAcksNothing(cfg, r, item, sendOk);
  }

  lemma OneTicket(cfg: Config, t: Transport, f: Flight, g: Flight)
    requires Inv(cfg, t) && f in t.inFlight && g in t.inFlight && f.ref == g.ref
    ensures f.pending.ticket == g.pending.ticket
  {
    assert (f.ref, f.pending.ticket) in t.ledger.sends && (g.ref, g.pending.ticket) in t.ledger.sends;
    var i :| 0 <= i < |t.ledger.sends| && t.ledger.sends[i] == (f.ref, f.pending.ticket);
    var j :| 0 <= j < |t.ledger.sends| && t.ledger.sends[j] == (g.ref, g.pending.ticket);
    assert t.ledger.sends[i].0 == t.ledger.sends[j].0;
  }
}
