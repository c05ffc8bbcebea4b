/** The mutable object of `src/supabase-realtime.ts`. Every method is proved against the function
    of the same name in `AckClient`; `pump` and `retry` call each other and are proved to end. */
module AckTransport {
  import opened AckClient
  import Spec = AckClient

  /** Splitting the next entry of the in-flight table. */
  lemma OneMore(cfg: Config, flights: seq<Flight>, i: nat, l: Ledger)
    requires i < |flights|
    ensures
      var last := flights[i].pending;
      var gone, back := Exhausted(cfg, flights[..i]), Survivors(cfg, flights[..i]);
      if last.attempts >= cfg.maxAttempts then
        Survivors(cfg, flights[..i + 1]) == back &&
        DropAll(l, Exhausted(cfg, flights[..i + 1])) == AckClient.Drop(DropAll(l, gone), last)
      else
        Survivors(cfg, flights[..i + 1]) == back + [last] && Exhausted(cfg, flights[..i + 1]) == gone
  {
    var gone, back := Exhausted(cfg, flights[..i]), Survivors(cfg, flights[..i]);
    assert flights[..i + 1][..i] == flights[..i];
    assert gone + [] == gone && back + [] == back;
    assert (gone + [flights[i].pending])[..|gone|] == gone;
  }

  class Realtime {
    const cfg: Config
    var queue: seq<Pending>
    var inFlight: seq<Flight>
    var idleWaiters: set<nat>
    var socket: Socket
    var joined: bool
    var ref: nat
    var reconnectTimer: bool
    var reconnectAttempts: nat
    var accepting: bool
    var closed: bool
    var acknowledged: nat
    var dropped: nat
    var failures: nat
    /** Numbers the `write` calls; stands for the identity of the record objects. */
    var tickets: nat
    /** Which tickets the counters stand for, and how their promises were settled. */
    ghost var ledger: Ledger

    ghost predicate Valid()
      reads this
    {
      acknowledged == |ledger.acked| && dropped == |ledger.lost| && tickets == ledger.tickets
    }

    ghost function View(): Transport
      reads this
    {
      Transport(queue, inFlight, idleWaiters,
                Link(socket, joined, ref, reconnectTimer, reconnectAttempts, accepting, closed), ledger, failures)
    }

    constructor (cfg: Config)
      ensures Valid() && View() == FRESH && this.cfg == cfg
    {
      this.cfg := cfg;
      queue, inFlight, idleWaiters, socket, joined, ref := [], [], {}, Absent, false, 0;
      reconnectTimer, reconnectAttempts, accepting, closed := false, 0, true, false;
      acknowledged, dropped, failures, tickets, ledger := 0, 0, 0, 0, Ledger(0, [], [], {}, map[], []);
    }

    method Drop(item: Pending)
      requires Valid()
      modifies this`dropped, this`ledger
      ensures Valid() && ledger == Spec.Drop(old(ledger), item)
    {
      dropped := dropped + 1;
      ledger := Spec.Drop(ledger, item);
    }

    method NotifyIdle()
      modifies this`idleWaiters
      ensures View() == Spec.NotifyIdle(old(View()))
    {
      if |queue| > 0 || |inFlight| > 0 { return; }
      idleWaiters := {};
    }

    /** The loop of `restoreInFlight`: drops what is exhausted, returns the rest in order. */
    method SortOut() returns (restored: seq<Pending>)
      requires Valid()
      modifies this`dropped, this`ledger
      ensures Valid() && restored == Survivors(cfg, inFlight) &&
          ledger == DropAll(old(ledger), Exhausted(cfg, inFlight))
    {
      hide Spec.Drop;
      restored := [];
      for i := 0 to |inFlight|
        invariant Valid() && restored == Survivors(cfg, inFlight[..i])
        invariant ledger == DropAll(old(ledger), Exhausted(cfg, inFlight[..i]))
      {
        var pending := inFlight[i].pending;
        OneMore(cfg, inFlight, i, old(ledger));
        if pending.attempts >= cfg.maxAttempts {
          Drop(pending);
        } else {
          restored := restored + [pending];
        }
      }
      assert inFlight[..|inFlight|] == inFlight;
    }

    method RestoreInFlight()
      requires Valid()
      modifies this`queue, this`inFlight, this`idleWaiters, this`dropped, this`ledger
      ensures Valid() && View() == Spec.RestoreInFlight(cfg, old(View()))
    {
      var restored := SortOut();
      inFlight := [];
      queue := restored + queue;
      NotifyIdle();
    }

    method DropQueue()
      requires Valid()
      modifies this`queue, this`dropped, this`ledger
      ensures Valid() && queue == [] && ledger == DropAll(old(ledger), old(queue))
    {
      for i := 0 to |queue|
        invariant Valid() && queue == old(queue) && ledger == DropAll(old(ledger), queue[..i])
      {
        Drop(queue[i]);
        assert queue[..i + 1][..i] == queue[..i];
      }
      assert queue[..|queue|] == queue;
      queue := [];
    }

    method FailPending()
      requires Valid()
      modifies this`queue, this`inFlight, this`idleWaiters, this`dropped, this`ledger
      ensures Valid() && View() == Spec.FailPending(cfg, old(View()))
    {
      RestoreInFlight();
      DropQueue();
      NotifyIdle();
    }

    method ScheduleReconnect()
      requires Valid()
      modifies this`queue, this`inFlight, this`idleWaiters, this`dropped, this`ledger, this`reconnectAttempts,
        this`reconnectTimer
      ensures Valid() && View() == Spec.ScheduleReconnect(cfg, old(View()))
    {
      if closed || !cfg.reconnect || reconnectTimer || (|queue| == 0 && |inFlight| == 0) { return; }
      if reconnectAttempts >= cfg.maxReconnectAttempts {
        FailPending();
        return;
      }
      reconnectAttempts := reconnectAttempts + 1;
      reconnectTimer := true;
    }

    method CloseSocket()
      modifies this`socket
      ensures View() == Spec.CloseSocket(old(View()))
    {
      if !socket.Absent? { socket := Closing; }
    }

    method Retry(item: Pending, sendOk: nat -> bool)
      requires Valid()
      modifies this
      ensures Valid() && View() == Spec.Retry(cfg, old(View()), item, sendOk)
      decreases |queue|, 2
    {
      hide Spec.Pump, Spec.ScheduleReconnect, Spec.Drop;
      failures := failures + 1;
      if item.attempts >= cfg.maxAttempts {
        Drop(item);
        NotifyIdle();
        assert View() == GiveUp(old(View()), item);
        Pump(sendOk);
        return;
      }
      queue := [item] + queue;
      CloseSocket();
      assert View() == PutBack(old(View()), item);
      ScheduleReconnect();
    }

    method Pump(sendOk: nat -> bool)
      requires Valid()
      modifies this
      ensures Valid() && View() == Spec.Pump(cfg, old(View()), sendOk)
      decreases |queue|, 1
    {
      hide Spec.Retry;
      if socket != Open || !joined || closed { return; }
      while |inFlight| < cfg.maxInFlight && |queue| > 0
        invariant Valid() && |queue| <= old(|queue|)
        invariant Fill(cfg, View(), sendOk) == Fill(cfg, old(View()), sendOk)
        decreases |queue|
      {
        ghost var before := View();
        var pending := TakeHead();
        if sendOk(ref) {
          inFlight := inFlight + [Flight(ref, pending)];
          assert View() == Attempt(before).(inFlight := before.inFlight + [Flight(ref, pending)]);
        } else {
          Retry(pending, sendOk);
          return;
        }
      }
    }

    method TakeHead() returns (pending: Pending)
      requires Valid() && |queue| > 0
      modifies this`queue, this`ref, this`ledger
      ensures Valid() && View() == Attempt(old(View())) && pending == Again(old(queue[0]))
    {
      pending := queue[0].(attempts := queue[0].attempts + 1);
      queue := queue[1..];
      ref := ref + 1;
      ledger := ledger.(sends := ledger.sends + [(ref, pending.ticket)]);
    }

    method Kick(sendOk: nat -> bool)
      requires Valid()
      modifies this
      ensures Valid() && View() == Spec.Kick(cfg, old(View()), sendOk)
    {
      if closed || reconnectTimer || (|queue| == 0 && |inFlight| == 0) { return; }
      Pump(sendOk);
    }

    method OnReply(replyRef: nat, ok: bool, sendOk: nat -> bool)
      requires Valid()
      modifies this
      ensures Valid() && View() == Spec.OnReply(cfg, old(View()), replyRef, ok, sendOk)
    {
      var k := Find(inFlight, replyRef);
      if k == |inFlight| { return; }
      var item := inFlight[k].pending;
      inFlight := inFlight[..k] + inFlight[k + 1..];
      if ok {
        acknowledged := acknowledged + 1;
        ledger := Acknowledge(ledger, item);
        NotifyIdle();
        Pump(sendOk);
      } else {
        Retry(item, sendOk);
      }
    }

    method OnClose()
      requires Valid()
      modifies this
      ensures Valid() && View() == Spec.OnClose(cfg, old(View()))
    {
      if socket.Absent? { return; }
      socket := Absent;
      joined := false;
      RestoreInFlight();
      if cfg.reconnect { ScheduleReconnect(); } else { FailPending(); }
    }

    /** The displacement loop of `write`. */
    method MakeRoom()
      requires Valid()
      modifies this`queue, this`dropped, this`ledger
      ensures Valid()
      ensures
        var n := Excess(cfg, old(View()));
        queue == old(queue)[n..] && ledger == DropAll(old(ledger), old(queue)[..n])
    {
      ghost var n := 0;
      while |queue| >= cfg.maxQueueSize && |queue| > 0
        invariant Valid() && n <= Excess(cfg, old(View())) && queue == old(queue)[n..]
        invariant ledger == DropAll(old(ledger), old(queue)[..n])
        decreases |queue|
      {
        Drop(queue[0]);
        queue := queue[1..];
        n := n + 1;
        assert old(queue)[..n][..n - 1] == old(queue)[..n - 1];
      }
    }

    method Write(bytes: nat, awaited: bool, sendOk: nat -> bool)
      requires Valid()
      modifies this
      ensures Valid() && View() == Spec.Write(cfg, old(View()), bytes, awaited, sendOk)
    {
      hide Spec.Drop, DropAll, Spec.Kick;
      var item := Pending(tickets, 0, awaited);
      tickets := tickets + 1;
      ledger := Issued(ledger, awaited);
      if !accepting || closed || bytes > cfg.maxRecordBytes {
        Drop(item);
        return;
      }
      MakeRoom();
      if cfg.maxQueueSize == 0 {
        Drop(item);
        return;
      }
      queue := queue + [item];
      Kick(sendOk);
    }

    method Flush(waiter: nat, sendOk: nat -> bool)
      requires Valid()
      modifies this
      ensures Valid() && View() == Spec.Flush(cfg, old(View()), waiter, sendOk)
    {
      if |queue| == 0 && |inFlight| == 0 { return; }
      reconnectTimer := false;
      idleWaiters := idleWaiters + {waiter};
      Kick(sendOk);
    }

    method FinishClose()
      requires Valid() && !accepting
      modifies this
      ensures Valid() && View() == Spec.EndClose(cfg, old(View()))
    {
      hide Spec.FailPending;
      closed := true;
      FailPending();
      socket := Absent;
      joined := false;
      idleWaiters := {};
    }
  }
}
