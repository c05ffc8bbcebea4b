/** The mutable object of `src/supabase-websocket-persistent.ts`, proved against `PersistentQueue`.
    The socket transport it wraps is `IngestTransport.Transport`. */
module PersistentTransport {
  import opened Common
  import opened PersistentQueue
  import Spec = PersistentQueue
  import Ingest = IngestClient
  import IngestTransport

  /** The entries the socket queue does not hold yet, as it will hold them. */
  ghost function Missing(entries: seq<Entry>, resident: set<string>): seq<Ingest.Queued> {
    if entries == [] then []
    else
      var last := entries[|entries| - 1];
      Missing(entries[..|entries| - 1], resident) +
      if last.recordId in resident then [] else [Ingest.Queued(last.recordId, last.record)]
  }

  /** The socket transport and the resident ids after some entries were handed over; `threw`: one of
      them could not be encoded, and the loop was left. */
  datatype Handed = Handed(work: Ingest.Work, resident: set<string>, threw: bool)

  function HandAll(cfg: Ingest.Config, accepting: bool, work: Ingest.Work, resident: set<string>,
      entries: seq<Entry>): Handed
  {
    if entries == [] then Handed(work, resident, false)
    else
      var before := HandAll(cfg, accepting, work, resident, entries[..|entries| - 1]);
      var last := entries[|entries| - 1];
      if before.threw || last.recordId in before.resident then before
      else if accepting && !last.record.encodable then before.(threw := true)
      else
        Handed(Ingest.Enqueue(cfg, before.work, accepting, last.record, last.recordId),
               before.resident + if Ingest.Admits(cfg, accepting, last.record) then {last.recordId} else {}, false)
  }

  lemma {:induction false} ThrewStays(
    cfg: Ingest.Config, accepting: bool, work: Ingest.Work, resident: set<string>, entries: seq<Entry>, i: nat)
    requires i <= |entries| && HandAll(cfg, accepting, work, resident, entries[..i]).threw
    ensures HandAll(cfg, accepting, work, resident, entries) == HandAll(cfg, accepting, work, resident, entries[..i])
    decreases |entries|
  {
    if i < |entries| {
      assert entries[..|entries| - 1][..i] == entries[..i];
      ThrewStays(cfg, accepting, work, resident, entries[..|entries| - 1], i);
    } else { assert entries[..i] == entries; }
  }

  /** With room for them all, the socket queue receives exactly the entries it does not hold yet, in
      order and under their stored ids, and all are resident afterwards. */
  lemma {:induction false} MissingAreHanded(
    cfg: Ingest.Config, work: Ingest.Work, resident: set<string>, entries: seq<Entry>)
    requires DistinctEntries(entries) && |work.queue| + |entries| <= cfg.maxQueueSize
    requires forall i :: 0 <= i < |entries| ==>
        entries[i].record.encodable && entries[i].record.bytes <= cfg.maxRecordBytes
    ensures
      var h := HandAll(cfg, true, work, resident, entries);
      h == Handed(work.(queue := work.queue + Missing(entries, resident)), resident + Ids(entries), false) &&
      |Missing(entries, resident)| <= |entries|
  {
    hide Ids;
    if entries == [] {
      assert Ids([]) == {} by { NoIds(); }
    } else {
      var n := |entries| - 1;
      var init := entries[..n];
      MissingAreHanded(cfg, work, resident, init);
      assert entries[..|entries|] == entries;
      NextMissing(entries, n, resident);
      var last := entries[n];
      if last.recordId !in resident {
        assert work.queue + Missing(init, resident) + [Ingest.Queued(last.recordId, last.record)] ==
          work.queue + Missing(entries, resident);
      }
    }
  }

  lemma NoIds()
    ensures Ids([]) == {}
  {
  }

  class Transport {
    const cfg: Config
    var cell: Cell
    var entries: seq<Entry>
    var residentIds: set<string>
    var nextSequence: nat
    var restored: nat
    var drops: seq<Drop>
    var persistenceErrors: nat
    var expectedRecordId: Option<string>

    ghost function View(): Queue
      reads this
    {
      Queue(entries, residentIds, nextSequence, restored, drops, persistenceErrors)
    }

    /** A new process finds `cell` in storage and restores from it. */
    constructor (cfg: Config, cell: Cell, now: nat, readable: bool, ok: bool)
      ensures this.cfg == cfg && expectedRecordId.None?
      ensures View() == Spec.Restore(cfg, cell, now, readable, ok).queue
      ensures this.cell == Spec.Restore(cfg, cell, now, readable, ok).cell
    {
      this.cfg := cfg;
      this.cell := cell;
      entries, residentIds, nextSequence, restored := [], {}, 0, 0;
      drops, persistenceErrors, expectedRecordId := [], 0, None;
      new;
      Restore(now, readable, ok);
    }

    method ReportDrop(reason: Reason, recordId: Option<string>)
      modifies this`drops
      ensures drops == old(drops) + [Drop(reason, recordId)]
    {
      drops := drops + [Drop(reason, recordId)];
    }

    method WriteState(entries: seq<Entry>, nextSequence: nat, ok: bool)
      modifies this`cell
      ensures cell == if ok then Written(cfg, entries, nextSequence) else old(cell)
    {
      if !ok { return; }
      if |entries| == 0 {
        cell := Empty;
      } else {
        cell := Holds(Stored(cfg.fingerprint, Some(nextSequence), Shape(entries)));
      }
    }

    /** The three loops of `restore`: sift the stored elements, trim, report. */
    method Restore(now: nat, readable: bool, ok: bool)
      requires View() == NEW_QUEUE
      modifies this`cell, this`entries, this`nextSequence, this`restored, this`drops, this`persistenceErrors
      ensures View() == Spec.Restore(cfg, old(cell), now, readable, ok).queue
      ensures cell == Spec.Restore(cfg, old(cell), now, readable, ok).cell
    {
      if !readable {
        persistenceErrors := persistenceErrors + 1;
        return;
      }
      if cell.Empty? { return; }
      if cell.Garbage? {
        if ok { cell := Empty; } else { persistenceErrors := persistenceErrors + 1; }
        ReportDrop(InvalidState, None);
        persistenceErrors := persistenceErrors + 1;
        return;
      }
      var state := cell.state;
      if state.fingerprint != cfg.fingerprint {
        if ok { cell := Empty; } else { persistenceErrors := persistenceErrors + 1; }
        RejectSession(if |state.entries| > 1 then |state.entries| else 1);
        return;
      }
      var valid := SiftAll(state.entries, now);
      ghost var sifted := drops;
      valid := Sorted(valid);
      var excess := Excess(cfg, valid);
      ghost var sorted := valid;
      for i := 0 to excess
        invariant valid == sorted[i..] && drops == sifted + Overflows(sorted[..i])
        invariant cell == old(cell) && entries == [] && residentIds == {} && persistenceErrors == 0
      {
        ReportDrop(QueueFull, Some(valid[0].recordId));
        assert Overflows(sorted[..i + 1]) == Overflows(sorted[..i]) + [Drop(QueueFull, Some(sorted[i].recordId))];
        valid := valid[1..];
      }
      entries := valid;
      restored := |valid|;
      nextSequence := NextAfter(state.nextSequence, MinimumNext(valid));
      WriteState(entries, nextSequence, ok);
      if !ok { persistenceErrors := persistenceErrors + 1; }
    }

    method RejectSession(count: nat)
      requires drops == []
      modifies this`drops
      ensures drops == Repeat(Drop(SessionMismatch, None), count)
    {
      for i := 0 to count
        invariant drops == Repeat(Drop(SessionMismatch, None), i)
      {
        ReportDrop(SessionMismatch, None);
      }
    }

    method SiftAll(candidates: seq<Candidate>, now: nat) returns (valid: seq<Entry>)
      requires drops == []
      modifies this`drops
      ensures valid == Sift(cfg, now, candidates).valid && drops == Sift(cfg, now, candidates).drops
    {
      var seen: set<string> := {};
      valid := [];
      for i := 0 to |candidates|
        invariant Sieve(seen, valid, drops) == Sift(cfg, now, candidates[..i])
      {
        var candidate := candidates[i];
        assert candidates[..i + 1][..i] == candidates[..i];
        if candidate.Alien? || Blank(candidate.entry.recordId) || candidate.entry.recordId in seen {
          ReportDrop(InvalidState, None);
        } else {
          var entry := candidate.entry;
          seen := seen + {entry.recordId};
          if entry.record.bytes > cfg.maxRecordBytes {
            ReportDrop(TooLarge, Some(entry.recordId));
          } else if entry.createdAtMillis < now - cfg.maxAgeMillis {
            ReportDrop(Expired, Some(entry.recordId));
          } else {
            valid := valid + [entry];
          }
        }
      }
      assert candidates[..|candidates|] == candidates;
    }

    method PersistRecord(record: Record, recordId: string, now: nat, ok: bool) returns (persisted: bool)
      modifies this`cell, this`entries, this`nextSequence, this`drops, this`persistenceErrors
      ensures Persisted(View(), cell, persisted) == Spec.Persist(cfg, old(View()), old(cell), record, recordId, now, ok)
    {
      if !record.encodable {
        persistenceErrors := persistenceErrors + 1;
        return false;
      }
      if record.bytes > cfg.maxRecordBytes {
        ReportDrop(TooLarge, None);
        return false;
      }
      if Blank(recordId) || recordId in Ids(entries) {
        return false;
      }
      var next := entries + [Entry(recordId, nextSequence, now, record)];
      var displaced: seq<Entry> := [];
      while |next| > cfg.maxRecords
        invariant drops == old(drops)
        invariant MakeRoom(cfg, next, residentIds, displaced)
               == MakeRoom(cfg, old(entries) + [NewEntry(old(View()), record, recordId, now)], residentIds, [])
        decreases |next|
      {
        var index := FirstFree(next, residentIds);
        if index == |next| {
          ReportDrop(QueueFull, Some(recordId));
          return false;
        }
        displaced := displaced + [next[index]];
        next := Without(next, index);
      }
      WriteState(next, nextSequence + 1, ok);
      if !ok {
        persistenceErrors := persistenceErrors + 1;
        return false;
      }
      entries := next;
      nextSequence := nextSequence + 1;
      for i := 0 to |displaced|
        invariant drops == old(drops) + Overflows(displaced[..i])
        invariant entries == next && nextSequence == old(nextSequence) + 1
        invariant cell == Written(cfg, next, nextSequence) && persistenceErrors == old(persistenceErrors)
      {
        ReportDrop(QueueFull, Some(displaced[i].recordId));
        assert Overflows(displaced[..i + 1]) ==
          Overflows(displaced[..i]) + [Drop(QueueFull, Some(displaced[i].recordId))];
      }
      assert displaced[..|displaced|] == displaced;
      return true;
    }

    method RemoveCommitted(recordIds: set<string>, ok: bool)
      modifies this`cell, this`entries, this`residentIds, this`persistenceErrors
      ensures View() == Removed(old(View()), recordIds, ok)
      ensures cell == RemovedCell(cfg, old(View()), recordIds, old(cell), ok)
    {
      entries := Keep(entries, recordIds);
      residentIds := residentIds - recordIds;
      WriteState(entries, nextSequence, ok);
      if !ok { persistenceErrors := persistenceErrors + 1; }
    }

    /** One turn of the loop: `inner.write` asks for the expected id exactly when it takes the
        record, and an id that was asked for is resident. It throws for a record that cannot be
        encoded. */
    method EnqueueEntry(inner: IngestTransport.Transport, entry: Entry) returns (threw: bool)
      requires expectedRecordId.None?
      modifies this`residentIds, this`expectedRecordId, inner`queue, inner`dropped
      ensures expectedRecordId.None? && threw == (inner.accepting && !entry.record.encodable)
      ensures inner.WorkView() == Ingest.Enqueue(inner.cfg, old(inner.WorkView()), inner.accepting, entry.record,
          entry.recordId)
      ensures residentIds == old(residentIds) +
                if Ingest.Admits(inner.cfg, inner.accepting, entry.record) then {entry.recordId} else {}
    {
      expectedRecordId := Some(entry.recordId);
      var pushed := inner.Enqueue(entry.record, entry.recordId);
      if pushed {
        expectedRecordId := None;
      }
      var consumed := expectedRecordId.None?;
      expectedRecordId := None;
      if consumed {
        residentIds := residentIds + {entry.recordId};
      }
      threw := inner.accepting && !entry.record.encodable;
    }

    /** The loop at the head of `drain`, with nothing else running. */
    method EnqueueEntries(inner: IngestTransport.Transport) returns (threw: bool)
      requires expectedRecordId.None?
      modifies this`residentIds, this`expectedRecordId, inner`queue, inner`dropped
      ensures expectedRecordId.None?
      ensures Handed(inner.WorkView(), residentIds, threw) ==
              HandAll(inner.cfg, inner.accepting, old(inner.WorkView()), old(residentIds), entries)
    {
      assert entries[..0] == [];
      for i := 0 to |entries|
        invariant expectedRecordId.None?
        invariant Handed(inner.WorkView(), residentIds, false) ==
                  HandAll(inner.cfg, inner.accepting, old(inner.WorkView()), old(residentIds), entries[..i])
      {
        assert entries[..i + 1][..i] == entries[..i];
        if entries[i].recordId !in residentIds {
          var failed := EnqueueEntry(inner, entries[i]);
          if failed {
            ThrewStays(inner.cfg, inner.accepting, old(inner.WorkView()), old(residentIds), entries, i + 1);
            return true;
          }
        }
      }
      assert entries[..|entries|] == entries;
      return false;
    }
  }

  lemma NextMissing(entries: seq<Entry>, i: nat, resident: set<string>)
    requires i < |entries| && DistinctEntries(entries)
    ensures Ids(entries[..i + 1]) == Ids(entries[..i]) + {entries[i].recordId}
    ensures entries[i].recordId !in Ids(entries[..i])
    ensures Missing(entries[..i + 1], resident) == Missing(entries[..i], resident) +
              if entries[i].recordId in resident then [] else [Ingest.Queued(entries[i].recordId, entries[i].record)]
  {
    assert entries[..i + 1] == entries[..i] + [entries[i]];
    assert entries[..i + 1][..i] == entries[..i];
    assert forall j :: 0 <= j < i ==> entries[..i][j] == entries[j];
    IdsSnoc(entries[..i], entries[i]);
  }
}
