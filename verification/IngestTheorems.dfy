/** What holds in every run of the ingest client, the network and the server. */
module IngestTheorems {
  import opened IngestClient
  import opened IngestSystem

  lemma {:induction false} RunKeeps(cfg: Config, events: seq<Event>)
    requires cfg.Valid()
    ensures CoreInv(cfg, Run(cfg, events)) && Agreement(Run(cfg, events))
  {
    if events != [] {
      RunKeeps(cfg, events[..|events| - 1]);
      NextKeeps(cfg, Run(cfg, events[..|events| - 1]), events[|events| - 1]);
    }
  }

  /** Main theorem: in every run the client's and the server's books agree, sequence numbers are
      gapless, and records keep their admission order. */
  lemma {:induction false} EveryRunAgrees(cfg: Config, w: World)
    requires cfg.Valid() && Reachable(cfg, w)
    ensures CoreInv(cfg, w) && Agreement(w)
  {
    var events :| w == Run(cfg, events);
    RunKeeps(cfg, events);
  }

  /** Exact replay: two frames with one sequence number are the same batch. */
  lemma {:induction false} ReplaysAreIdentical(cfg: Config, w: World, i: nat, j: nat)
    requires cfg.Valid() && Reachable(cfg, w) && i < |w.sent| && j < |w.sent|
    requires w.sent[i].sequence == w.sent[j].sequence
    ensures w.sent[i] == w.sent[j]
  {
    EveryRunAgrees(cfg, w);
    assert Owned(w, w.sent[i]) && Owned(w, w.sent[j]);
  }

  /** No other record was admitted under this id. */
  ghost predicate OnlyRecord(admitted: seq<Queued>, q: Queued) {
    forall p :: p in admitted && p.recordId == q.recordId ==> p == q
  }

  /** The server stores each record id at most once, and every committed record, unless its id was
      given to another one too; then one of the two. */
  lemma {:induction false} ServerStoresOnce(cfg: Config, w: World)
    requires cfg.Valid() && Reachable(cfg, w)
    ensures DistinctIds(w.log) && HasIds(w.log, BatchRecords(w.committed))
    ensures forall q :: q in BatchRecords(w.committed) && OnlyRecord(w.admitted, q) ==> q in w.log
  {
    EveryRunAgrees(cfg, w);
    var done := Absorb([], BatchRecords(w.committed));
    AbsorbDistinct([], BatchRecords(w.committed));
    AbsorbHolds([], BatchRecords(w.committed));
    if w.client.work.inFlight.Some? {
      AbsorbDistinct(done, w.client.work.inFlight.value.records);
      AbsorbGrows(done, w.client.work.inFlight.value.records);
      HasIdMonotone(done, Absorb(done, w.client.work.inFlight.value.records));
    }
    hide CoreInv, Agreement, Absorb;
    forall q | q in BatchRecords(w.committed) && OnlyRecord(w.admitted, q) ensures q in w.log {
      var k :| 0 <= k < |BatchRecords(w.committed)| && BatchRecords(w.committed)[k] == q;
      assert HasId(w.log, q.recordId);
      var i :| 0 <= i < |w.log| && w.log[i].recordId == q.recordId;
      LogIsAdmitted(cfg, w, w.log[i]);
    }
  }

  /** The server has nothing but admitted records. */
  lemma LogIsAdmitted(cfg: Config, w: World, q: Queued)
    requires CoreInv(cfg, w) && Agreement(w) && q in w.log
    ensures q in w.admitted
  {
    hide LinkInv, SequenceInv, WireInv, DropInv, Absorb;
    var done := BatchRecords(w.committed);
    assert Outbound(w) == done + Held(w.client.work);
    if w.log == Absorb([], done) {
      AbsorbFrom([], done, q);
      OutboundIsAdmitted(w, q);
    } else {
      var records := w.client.work.inFlight.value.records;
      AbsorbFrom(Absorb([], done), records, q);
      if q !in records { AbsorbFrom([], done, q); }
      assert forall i :: 0 <= i < |records| ==> Outbound(w)[|done| + i] == records[i];
      OutboundIsAdmitted(w, q);
    }
  }

  lemma OutboundIsAdmitted(w: World, q: Queued)
    requires FifoInv(w) && q in Outbound(w)
    ensures q in w.admitted
  {
    var i :| 0 <= i < |Outbound(w)| && Outbound(w)[i] == q;
    assert w.admitted[w.kept[i]] == q;
  }

  /** Nothing but a matching ACK commits: a step that changes the committed list appends the
      in-flight batch, and the server had already stored all of it. Nothing else touches the
      in-flight batch, so evictions never do. */
  lemma {:induction false} OnlyAcksMoveTheBatch(cfg: Config, w: World, e: Event)
    requires cfg.Valid() && CoreInv(cfg, w)
    ensures
      var next := Next(cfg, w, e);
      if next.committed != w.committed then
        w.client.work.inFlight.Some? && next.client.work.inFlight.None? &&
        next.committed == w.committed + [w.client.work.inFlight.value] &&
        HasIds(w.log, w.client.work.inFlight.value.records)
      else
        w.client.work.inFlight.Some? ==> next.client.work.inFlight == w.client.work.inFlight
  {
    if e.CommitAcked? && AcksInFlight(w.client) { AckProvesStored(cfg, w, w.client.link.flush.ack); }
    if e.ExitReply? && e.ack in w.acks && ExitCommits(w.client, e.ack) { AckProvesStored(cfg, w, e.ack); }
    if e.OnLink? { LinkNextKeepsLink(cfg, w, e.link); }
  }
}
