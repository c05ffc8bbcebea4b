/** The acknowledged Realtime transport under every interleaving of calls, replies, timeouts,
    socket events and failing sends, and the invariant that `AckSystem` proves of it. */
module AckMachine {
  import opened AckClient

  datatype Event =
    | Write(bytes: nat, awaited: bool)
    | Flush(waiter: nat)
    | FlushTimeout(waiter: nat)
    | Resume(waiter: nat)
    | Reply(ref: nat, ok: bool)
    | AckTimeout(ref: nat)
    | SocketCreated
    | SocketOpened
    | Joined
    | SocketClosed
    | ConnectFailed
    | LinkFailed
    | ReconnectTimer
    | Connected
    | SpendRef
    | RefreshAuth
    | BeginClose
    | EndClose

  function Next(cfg: Config, t: Transport, e: Event, sendOk: nat -> bool): Transport {
    match e
    case Write(bytes, awaited) => AckClient.Write(cfg, t, bytes, awaited, sendOk)
    case Flush(waiter) => AckClient.Flush(cfg, t, waiter, sendOk)
    case FlushTimeout(waiter) => AckClient.FlushTimeout(t, waiter)
    case Resume(waiter) => AckClient.Resume(cfg, t, waiter, sendOk)
    case Reply(ref, ok) => OnReply(cfg, t, ref, ok, sendOk)
    case AckTimeout(ref) => OnAckTimeout(cfg, t, ref, sendOk)
    case SocketCreated => OnSocket(t)
    case SocketOpened => OnOpen(t)
    case Joined => OnJoined(cfg, t, sendOk)
    case SocketClosed => OnClose(cfg, t)
    case ConnectFailed => OnConnectFailed(cfg, t)
    case LinkFailed => OnFailure(t)
    case ReconnectTimer => OnTimer(cfg, t, sendOk)
    case Connected => Pump(cfg, t, sendOk)
    case SpendRef => t.(link := t.link.(ref := t.link.ref + 1))
    case RefreshAuth => AckClient.RefreshAuth(cfg, t, sendOk)
    case BeginClose => AckClient.BeginClose(t)
    case EndClose => AckClient.EndClose(cfg, t)
  }

  /** `sendOk` decides every send of the run, since no ref is used twice. */
  function Run(cfg: Config, events: seq<Event>, sendOk: nat -> bool): Transport {
    if events == [] then FRESH
    else Next(cfg, Run(cfg, events[..|events| - 1], sendOk), events[|events| - 1], sendOk)
  }

  // ---------------------------------------------------------------- the invariant

  function Bag(items: seq<Pending>): multiset<nat> {
    multiset(seq(|items|, i requires 0 <= i < |items| => items[i].ticket))
  }

  function FlightItems(flights: seq<Flight>): seq<Pending> {
    seq(|flights|, i requires 0 <= i < |flights| => flights[i].pending)
  }

  function Count(sends: seq<(nat, nat)>, ticket: nat): nat {
    if sends == [] then 0
    else Count(sends[..|sends| - 1], ticket) + if sends[|sends| - 1].1 == ticket then 1 else 0
  }

  function Upto(n: nat): multiset<nat> {
    if n == 0 then multiset{} else Upto(n - 1) + multiset{n - 1}
  }

  /** Each ticket is in exactly one place; `hand` holds the items that are between two places. */
  ghost predicate Conserved(queue: seq<Pending>, inFlight: seq<Flight>, l: Ledger, hand: seq<Pending>) {
    Bag(queue) + Bag(FlightItems(inFlight)) + Bag(hand) + multiset(l.acked) + multiset(l.lost) == Upto(l.tickets)
  }

  /** A delivery promise is resolved iff its ticket is acknowledged and rejected iff it is lost. */
  ghost predicate Settlement(l: Ledger) {
    forall k :: (k in l.settled <==> k in l.awaited && (k in l.acked || k in l.lost)) &&
                (k in l.settled ==> (l.settled[k] <==> k in l.acked))
  }

  /** What an item remembers is what happened to its ticket. */
  ghost predicate ItemInv(l: Ledger, item: Pending, limit: int) {
    item.ticket < l.tickets && (item.awaited <==> item.ticket in l.awaited) &&
    item.attempts == Count(l.sends, item.ticket) && item.attempts <= limit
  }

  ghost predicate ItemsInv(l: Ledger, items: seq<Pending>, limit: int) {
    forall item :: item in items ==> ItemInv(l, item, limit)
  }

  /** Refs go up, so no ref is used twice, and no ticket is sent more than `maxAttempts` times. */
  ghost predicate SendsInv(cfg: Config, l: Ledger, ref: nat) {
    (forall i, j :: 0 <= i < j < |l.sends| ==> l.sends[i].0 < l.sends[j].0) &&
    (forall i :: 0 <= i < |l.sends| ==> l.sends[i].0 <= ref && l.sends[i].1 < l.tickets) &&
    (forall k :: Count(l.sends, k) <= cfg.maxAttempts) &&
    (forall k :: k in l.awaited ==> k < l.tickets)
  }

  ghost predicate FlightsInv(cfg: Config, l: Ledger, flights: seq<Flight>) {
    forall f :: f in flights ==>
      ItemInv(l, f.pending, cfg.maxAttempts) && (f.ref, f.pending.ticket) in l.sends
  }

  ghost predicate Books(cfg: Config, queue: seq<Pending>, inFlight: seq<Flight>, l: Ledger, ref: nat,
      hand: seq<Pending>)
  {
    Conserved(queue, inFlight, l, hand) && Settlement(l) && SendsInv(cfg, l, ref) && FlightsInv(cfg, l, inFlight) &&
    ItemsInv(l, queue, cfg.maxAttempts - 1) && ItemsInv(l, hand, cfg.maxAttempts)
  }

  ghost predicate Core(cfg: Config, t: Transport, hand: seq<Pending>) {
    Books(cfg, t.queue, t.inFlight, t.ledger, t.link.ref, hand)
  }

  /** No idle waiter is parked once nothing is outstanding. */
  ghost predicate IdleInv(t: Transport) {
    t.idle != {} ==> Outstanding(t)
  }

  ghost predicate Sound(cfg: Config, t: Transport) {
    Core(cfg, t, []) && IdleInv(t)
  }

  ghost predicate Bounded(cfg: Config, t: Transport) {
    |t.inFlight| <= cfg.maxInFlight && |t.queue| + |t.inFlight| <= cfg.maxQueueSize + cfg.maxInFlight &&
    (cfg.maxQueueSize == 0 ==> !Outstanding(t))
  }

  ghost predicate Inv(cfg: Config, t: Transport) {
    Sound(cfg, t) && Bounded(cfg, t)
  }

  function Size(t: Transport): nat { |t.queue| + |t.inFlight| }

  /** `next` holds no more than `t`, and no more than allowed is in flight. */
  ghost predicate NoBigger(cfg: Config, t: Transport, extra: nat, next: Transport) {
    Size(next) <= Size(t) + extra && |next.inFlight| <= cfg.maxInFlight
  }

  ghost predicate Reachable(cfg: Config, t: Transport) {
    exists events, sendOk :: t == Run(cfg, events, sendOk)
  }
}
