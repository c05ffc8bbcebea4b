/** `src/supabase-realtime.ts` as values: the acknowledged Realtime transport with its queue, its
    in-flight table, bounded attempts and waiters.

    A record is known by its ticket, the number of the `write` call that brought it. `inFlight` is
    the source's `Map`, listed in insertion order. `sendOk(ref)` says whether `socket.send` returns
    for the frame with that ref. */
module AckClient {
  datatype Config = Config(
    maxQueueSize: nat, maxInFlight: nat, maxAttempts: nat, maxReconnectAttempts: nat,
    maxRecordBytes: nat, reconnect: bool) {
    /** What `numberOption` guarantees; only the queue size may be zero. */
    predicate Valid() {
      1 <= maxInFlight && 1 <= maxAttempts && 1 <= maxReconnectAttempts && 1 <= maxRecordBytes
    }
  }

  datatype Pending = Pending(ticket: nat, attempts: nat, awaited: bool)

  datatype Flight = Flight(ref: nat, pending: Pending)

  datatype Socket = Absent | Opening | Open | Closing

  datatype Link = Link(
    socket: Socket, joined: bool, ref: nat, reconnectTimer: bool, reconnectAttempts: nat,
    accepting: bool, closed: bool)

  /** `acked` and `lost` list the tickets acknowledged and dropped, `settled` how each delivery
      promise was settled first, and `sends` every (ref, ticket) handed to the socket. The source
      keeps only the lengths of the first two. */
  datatype Ledger = Ledger(
    tickets: nat, acked: seq<nat>, lost: seq<nat>, awaited: set<nat>, settled: map<nat, bool>,
    sends: seq<(nat, nat)>)

  datatype Transport = Transport(
    queue: seq<Pending>, inFlight: seq<Flight>, idle: set<nat>, link: Link, ledger: Ledger, failures: nat)

  const FRESH := Transport([], [], {}, Link(Absent, false, 0, false, 0, true, false), Ledger(0, [], [], {}, map[], []),
    0)

  predicate Outstanding(t: Transport) { t.queue != [] || t.inFlight != [] }

  // ---------------------------------------------------------------- settlement

  /** A promise keeps its first settlement. */
  function Settle(l: Ledger, item: Pending, ok: bool): Ledger {
    if !item.awaited || item.ticket in l.settled then l else l.(settled := l.settled[item.ticket := ok])
  }

  function Drop(l: Ledger, item: Pending): Ledger {
    Settle(l.(lost := l.lost + [item.ticket]), item, false)
  }

  function DropAll(l: Ledger, items: seq<Pending>): Ledger {
    if items == [] then l else Drop(DropAll(l, items[..|items| - 1]), items[|items| - 1])
  }

  function Acknowledge(l: Ledger, item: Pending): Ledger {
    Settle(l.(acked := l.acked + [item.ticket]), item, true)
  }

  function NotifyIdle(t: Transport): Transport {
    if Outstanding(t) then t else t.(idle := {})
  }

  // ---------------------------------------------------------------- restore and failure

  function Exhausted(cfg: Config, flights: seq<Flight>): seq<Pending> {
    if flights == [] then []
    else
      var last := flights[|flights| - 1].pending;
      Exhausted(cfg, flights[..|flights| - 1]) + if last.attempts >= cfg.maxAttempts then [last] else []
  }

  function Survivors(cfg: Config, flights: seq<Flight>): seq<Pending> {
    if flights == [] then []
    else
      var last := flights[|flights| - 1].pending;
      Survivors(cfg, flights[..|flights| - 1]) + if last.attempts >= cfg.maxAttempts then [] else [last]
  }

  function RestoreInFlight(cfg: Config, t: Transport): Transport {
    NotifyIdle(t.(ledger := DropAll(t.ledger, Exhausted(cfg, t.inFlight)), inFlight := [],
                  queue := Survivors(cfg, t.inFlight) + t.queue))
  }

  function FailPending(cfg: Config, t: Transport): Transport {
    var r := RestoreInFlight(cfg, t);
    NotifyIdle(r.(ledger := DropAll(r.ledger, r.queue), queue := []))
  }

  function ScheduleReconnect(cfg: Config, t: Transport): Transport {
    if t.link.closed || !cfg.reconnect || t.link.reconnectTimer || !Outstanding(t) then t
    else if t.link.reconnectAttempts >= cfg.maxReconnectAttempts then FailPending(cfg, t)
    else t.(link := t.link.(reconnectAttempts := t.link.reconnectAttempts + 1, reconnectTimer := true))
  }

  /** `close()` on the socket; its close event comes later. */
  function CloseSocket(t: Transport): Transport {
    if t.link.socket.Absent? then t else t.(link := t.link.(socket := Closing))
  }

  // ---------------------------------------------------------------- pump and retry

  predicate Ready(t: Transport) {
    t.link.socket.Open? && t.link.joined && !t.link.closed
  }

  /** Takes the head of the queue for one more attempt under a new ref. */
  function Attempt(t: Transport): Transport
    requires t.queue != []
  {
    t.(queue := t.queue[1..], link := t.link.(ref := t.link.ref + 1),
       ledger := t.ledger.(sends := t.ledger.sends + [(t.link.ref + 1, t.queue[0].ticket)]))
  }

  function Again(item: Pending): Pending { item.(attempts := item.attempts + 1) }

  function Pump(cfg: Config, t: Transport, sendOk: nat -> bool): Transport
    decreases |t.queue|, 1
  {
    if !Ready(t) then t else Fill(cfg, t, sendOk)
  }

  /** The loop of `pump`; a send that throws goes through `retry` and leaves the loop. */
  function Fill(cfg: Config, t: Transport, sendOk: nat -> bool): Transport
    decreases |t.queue|, 0
  {
    if |t.inFlight| >= cfg.maxInFlight || t.queue == [] then t
    else
      var item, next := Again(t.queue[0]), Attempt(t);
      if sendOk(next.link.ref) then Fill(cfg, next.(inFlight := next.inFlight + [Flight(next.link.ref, item)]), sendOk)
      else Retry(cfg, next, item, sendOk)
  }

  function GiveUp(t: Transport, item: Pending): Transport {
    NotifyIdle(t.(failures := t.failures + 1, ledger := Drop(t.ledger, item)))
  }

  function PutBack(t: Transport, item: Pending): Transport {
    CloseSocket(t.(failures := t.failures + 1, queue := [item] + t.queue))
  }

  function Retry(cfg: Config, t: Transport, item: Pending, sendOk: nat -> bool): Transport
    decreases |t.queue|, 2
  {
    if item.attempts >= cfg.maxAttempts then Pump(cfg, GiveUp(t, item), sendOk)
    else ScheduleReconnect(cfg, PutBack(t, item))
  }

  /** With no joined socket the source starts to connect, which shows up as later events. */
  function Kick(cfg: Config, t: Transport, sendOk: nat -> bool): Transport {
    if t.link.closed || t.link.reconnectTimer || !Outstanding(t) then t else Pump(cfg, t, sendOk)
  }

  // ---------------------------------------------------------------- replies and timers

  function Find(flights: seq<Flight>, ref: nat): (k: nat)
    ensures k <= |flights|
    ensures k < |flights| ==> flights[k].ref == ref
    ensures forall i :: 0 <= i < k ==> flights[i].ref != ref
  {
    if flights == [] || flights[0].ref == ref then 0 else 1 + Find(flights[1..], ref)
  }

  function Remove(t: Transport, k: nat): Transport
    requires k < |t.inFlight|
  {
    t.(inFlight := t.inFlight[..k] + t.inFlight[k + 1..])
  }

  function OnReply(cfg: Config, t: Transport, ref: nat, ok: bool, sendOk: nat -> bool): Transport {
    var k := Find(t.inFlight, ref);
    if k == |t.inFlight| then t
    else
      var item, r := t.inFlight[k].pending, Remove(t, k);
      if ok then Pump(cfg, NotifyIdle(r.(ledger := Acknowledge(r.ledger, item))), sendOk)
      else Retry(cfg, r, item, sendOk)
  }

  function OnAckTimeout(cfg: Config, t: Transport, ref: nat, sendOk: nat -> bool): Transport {
    var k := Find(t.inFlight, ref);
    if k == |t.inFlight| then t else Retry(cfg, Remove(t, k), t.inFlight[k].pending, sendOk)
  }

  /** What follows a lost connection. */
  function Recover(cfg: Config, t: Transport): Transport {
    if cfg.reconnect then ScheduleReconnect(cfg, t) else FailPending(cfg, t)
  }

  /** The close event of the current socket. */
  function OnClose(cfg: Config, t: Transport): Transport {
    if t.link.socket.Absent? then t
    else Recover(cfg, RestoreInFlight(cfg, t.(link := t.link.(socket := Absent, joined := false))))
  }

  function OnConnectFailed(cfg: Config, t: Transport): Transport {
    Recover(cfg, t.(failures := t.failures + 1))
  }

  function OnSocket(t: Transport): Transport {
    t.(link := t.link.(socket := Opening, joined := false))
  }

  function OnOpen(t: Transport): Transport {
    if t.link.socket.Opening? then t.(link := t.link.(socket := Open, ref := t.link.ref + 1)) else t
  }

  function OnJoined(cfg: Config, t: Transport, sendOk: nat -> bool): Transport {
    Pump(cfg, t.(link := t.link.(joined := true, reconnectAttempts := 0, reconnectTimer := false)), sendOk)
  }

  function OnTimer(cfg: Config, t: Transport, sendOk: nat -> bool): Transport {
    if t.link.reconnectTimer then Kick(cfg, t.(link := t.link.(reconnectTimer := false)), sendOk) else t
  }

  /** A socket error, a channel error or a heartbeat that was not answered. */
  function OnFailure(t: Transport): Transport {
    CloseSocket(t.(failures := t.failures + 1))
  }

  // ---------------------------------------------------------------- the public calls

  function Excess(cfg: Config, t: Transport): nat {
    if |t.queue| < cfg.maxQueueSize then 0
    else if cfg.maxQueueSize == 0 then |t.queue| else |t.queue| - cfg.maxQueueSize + 1
  }

  function Issued(l: Ledger, awaited: bool): Ledger {
    l.(tickets := l.tickets + 1, awaited := l.awaited + if awaited then {l.tickets} else {})
  }

  function Refuse(t: Transport, awaited: bool): Transport {
    t.(ledger := Drop(Issued(t.ledger, awaited), Pending(t.ledger.tickets, 0, awaited)))
  }

  /** Drops the oldest records until one more fits. */
  function Trim(cfg: Config, t: Transport, awaited: bool): Transport {
    var n := Excess(cfg, t);
    t.(ledger := DropAll(Issued(t.ledger, awaited), t.queue[..n]), queue := t.queue[n..])
  }

  function Admit(cfg: Config, t: Transport, awaited: bool, sendOk: nat -> bool): Transport {
    var item, r := Pending(t.ledger.tickets, 0, awaited), Trim(cfg, t, awaited);
    if cfg.maxQueueSize == 0 then r.(ledger := Drop(r.ledger, item))
    else Kick(cfg, r.(queue := r.queue + [item]), sendOk)
  }

  function Write(cfg: Config, t: Transport, bytes: nat, awaited: bool, sendOk: nat -> bool): Transport {
    if !t.link.accepting || t.link.closed || bytes > cfg.maxRecordBytes then Refuse(t, awaited)
    else Admit(cfg, t, awaited, sendOk)
  }

  /** `waiter` identifies the promise of `waitForIdle`. */
  function Flush(cfg: Config, t: Transport, waiter: nat, sendOk: nat -> bool): Transport {
    if !Outstanding(t) then t
    else Kick(cfg, t.(link := t.link.(reconnectTimer := false), idle := t.idle + {waiter}), sendOk)
  }

  function FlushTimeout(t: Transport, waiter: nat): Transport {
    if waiter in t.idle then t.(idle := t.idle - {waiter}, failures := t.failures + 1) else t
  }

  /** The page became visible or online again: back off from the start and flush. */
  function Resume(cfg: Config, t: Transport, waiter: nat, sendOk: nat -> bool): Transport {
    if t.link.closed || !Outstanding(t) then t
    else Flush(cfg, t.(link := t.link.(reconnectAttempts := 0, reconnectTimer := false)), waiter, sendOk)
  }

  function RefreshAuth(cfg: Config, t: Transport, sendOk: nat -> bool): Transport {
    if t.link.closed then t else if t.link.socket.Absent? then Kick(cfg, t, sendOk) else CloseSocket(t)
  }

  function BeginClose(t: Transport): Transport {
    t.(link := t.link.(accepting := false, reconnectTimer := false))
  }

  /** After the last flush of `performClose`, however it ended. */
  function EndClose(cfg: Config, t: Transport): Transport {
    if t.link.accepting then t
    else
      var f := FailPending(cfg, t.(link := t.link.(closed := true)));
      f.(link := f.link.(socket := Absent, joined := false), idle := {})
  }
}
