/** The write-ahead queue of `src/supabase-websocket-persistent.ts` as values: what
    `persistRecord`, `removeCommitted` and `restore` do to memory and to storage. Storage is one
    cell written atomically; `ok` says whether a storage call returned or threw. */
module PersistentQueue {
  import opened Common

  datatype Config = Config(fingerprint: string, maxRecords: nat, maxAgeMillis: nat, maxRecordBytes: nat) {
    predicate Valid() {
      1 <= maxRecords && 1 <= maxAgeMillis && 1 <= maxRecordBytes
    }
  }

  datatype Entry = Entry(recordId: string, sequence: nat, createdAtMillis: nat, record: Record)

  /** A decoded element of the stored `entries` array: one that fails the shape test of `isEntry`,
      or one that has the shape and may still have a blank id. */
  datatype Candidate = Alien | Shaped(entry: Entry)

  datatype Stored = Stored(fingerprint: string, nextSequence: Option<int>, entries: seq<Candidate>)

  /** `Garbage` is a value that does not decode to a state of this schema and protocol. */
  datatype Cell = Empty | Garbage | Holds(state: Stored)

  datatype Reason = ClosedDrop | Expired | InvalidState | QueueFull | TooLarge | SessionMismatch

  datatype Drop = Drop(reason: Reason, recordId: Option<string>)

  /** `drops` is the sequence of `onPersistentDrop` calls; the source's `dropped` is its length. */
  datatype Queue = Queue(
    entries: seq<Entry>, resident: set<string>, nextSequence: nat,
    restored: nat, drops: seq<Drop>, persistenceErrors: nat)

  const NEW_QUEUE := Queue([], {}, 0, 0, [], 0)

  predicate BlankChar(c: char) { c == ' ' || c == '\t' || c == '\n' || c == '\r' }

  predicate Blank(s: string) { forall i :: 0 <= i < |s| ==> BlankChar(s[i]) }

  function Ids(entries: seq<Entry>): set<string> {
    set i | 0 <= i < |entries| :: entries[i].recordId
  }

  function CandidateIds(candidates: seq<Candidate>): set<string> {
    set i | 0 <= i < |candidates| && candidates[i].Shaped? :: candidates[i].entry.recordId
  }

  function CellIds(cell: Cell): set<string> {
    if cell.Holds? then CandidateIds(cell.state.entries) else {}
  }

  function DropIds(drops: seq<Drop>): set<string> {
    set i | 0 <= i < |drops| && drops[i].recordId.Some? :: drops[i].recordId.value
  }

  // ---------------------------------------------------------------- writeState

  function Shape(entries: seq<Entry>): seq<Candidate> {
    seq(|entries|, i requires 0 <= i < |entries| => Shaped(entries[i]))
  }

  /** An empty queue removes the key. */
  function Written(cfg: Config, entries: seq<Entry>, nextSequence: nat): Cell {
    if entries == [] then Empty else Holds(Stored(cfg.fingerprint, Some(nextSequence), Shape(entries)))
  }

  lemma WrittenIds(cfg: Config, entries: seq<Entry>, nextSequence: nat)
    ensures CellIds(Written(cfg, entries, nextSequence)) == Ids(entries)
  {
    if entries != [] {
      var shaped := Shape(entries);
      assert forall i :: 0 <= i < |entries| ==> shaped[i].Shaped? && shaped[i].entry == entries[i];
      forall id | id in Ids(entries) ensures id in CandidateIds(shaped) {
        var i :| 0 <= i < |entries| && entries[i].recordId == id;
        assert shaped[i].entry.recordId == id;
      }
    }
  }

  // ---------------------------------------------------------------- persistRecord

  /** `findIndex` of the first entry the socket queue does not hold. */
  function FirstFree(entries: seq<Entry>, resident: set<string>): (index: nat)
    ensures index <= |entries|
    ensures forall i :: 0 <= i < index ==> entries[i].recordId in resident
    ensures index < |entries| ==> entries[index].recordId !in resident
  {
    if entries == [] then 0
    else if entries[0].recordId !in resident then 0
    else 1 + FirstFree(entries[1..], resident)
  }

  function Without<T>(s: seq<T>, k: nat): seq<T>
    requires k < |s|
  {
    s[..k] + s[k + 1..]
  }

  datatype Fit = Refused | Fits(entries: seq<Entry>, displaced: seq<Entry>)

  /** Displaces the oldest entries that are not resident until the rest fits. */
  function MakeRoom(cfg: Config, entries: seq<Entry>, resident: set<string>, displaced: seq<Entry>): Fit
    decreases |entries|
  {
    if |entries| <= cfg.maxRecords then Fits(entries, displaced)
    else
      var index := FirstFree(entries, resident);
      if index == |entries| then Refused
      else MakeRoom(cfg, Without(entries, index), resident, displaced + [entries[index]])
  }

  function Overflows(entries: seq<Entry>): seq<Drop> {
    seq(|entries|, i requires 0 <= i < |entries| => Drop(QueueFull, Some(entries[i].recordId)))
  }

  /** The state after the call, the stored cell, and whether the record is now persisted. */
  datatype Persisted = Persisted(queue: Queue, cell: Cell, done: bool)

  function Report(q: Queue, drop: Drop): Queue { q.(drops := q.drops + [drop]) }

  function NewEntry(q: Queue, record: Record, recordId: string, now: nat): Entry {
    Entry(recordId, q.nextSequence, now, record)
  }

  /** `recordId` is the trimmed value of the id factory; a blank or duplicate one throws. */
  function Persist(cfg: Config, q: Queue, cell: Cell, record: Record, recordId: string, now: nat, ok: bool): Persisted {
    if !record.encodable then Persisted(q.(persistenceErrors := q.persistenceErrors + 1), cell, false)
    else if record.bytes > cfg.maxRecordBytes then Persisted(Report(q, Drop(TooLarge, None)), cell, false)
    else if Blank(recordId) || recordId in Ids(q.entries) then Persisted(q, cell, false)
    else
      match MakeRoom(cfg, q.entries + [NewEntry(q, record, recordId, now)], q.resident, [])
      case Refused => Persisted(Report(q, Drop(QueueFull, Some(recordId))), cell, false)
      case Fits(entries, displaced) =>
        if !ok then Persisted(q.(persistenceErrors := q.persistenceErrors + 1), cell, false)
        else Persisted(
          q.(entries := entries, nextSequence := q.nextSequence + 1, drops := q.drops + Overflows(displaced)),
          Written(cfg, entries, q.nextSequence + 1), true)
  }

  // ---------------------------------------------------------------- removeCommitted

  function Keep(entries: seq<Entry>, ids: set<string>): (kept: seq<Entry>)
    ensures Ids(kept) == Ids(entries) - ids
    ensures forall e :: e in kept ==> e in entries
  {
    if entries == [] then []
    else
      var last := entries[|entries| - 1];
      var init := entries[..|entries| - 1];
      assert entries == init + [last];
      var kept := Keep(init, ids);
      assert Ids(entries) == Ids(init) + {last.recordId} by { IdsSnoc(init, last); }
      if last.recordId in ids then kept else IdsSnoc(kept, last); kept + [last]
  }

  lemma IdsSnoc(entries: seq<Entry>, last: Entry)
    ensures Ids(entries + [last]) == Ids(entries) + {last.recordId}
  {
    var all := entries + [last];
    assert forall i :: 0 <= i < |entries| ==> all[i] == entries[i];
    assert all[|entries|] == last;
    forall id | id in Ids(entries) ensures id in Ids(all) {
      var i :| 0 <= i < |entries| && entries[i].recordId == id;
      assert all[i].recordId == id;
    }
  }

  function Removed(q: Queue, ids: set<string>, ok: bool): Queue {
    q.(entries := Keep(q.entries, ids), resident := q.resident - ids,
       persistenceErrors := if ok then q.persistenceErrors else q.persistenceErrors + 1)
  }

  /** A failed write leaves the old state behind; it can only replay stable ids. */
  function RemovedCell(cfg: Config, q: Queue, ids: set<string>, cell: Cell, ok: bool): Cell {
    if ok then Written(cfg, Keep(q.entries, ids), q.nextSequence) else cell
  }

  // ---------------------------------------------------------------- restore

  predicate Rejected(candidate: Candidate, seen: set<string>) {
    candidate.Alien? || Blank(candidate.entry.recordId) || candidate.entry.recordId in seen
  }

  /** Why an element that passed the id test is dropped, if it is. */
  function Verdict(cfg: Config, now: nat, entry: Entry): Option<Reason> {
    if entry.record.bytes > cfg.maxRecordBytes then Some(TooLarge)
    else if entry.createdAtMillis < now - cfg.maxAgeMillis then Some(Expired)
    else None
  }

  datatype Sieve = Sieve(seen: set<string>, valid: seq<Entry>, drops: seq<Drop>)

  function SiftOne(cfg: Config, now: nat, s: Sieve, candidate: Candidate): Sieve {
    if Rejected(candidate, s.seen) then s.(drops := s.drops + [Drop(InvalidState, None)])
    else
      var entry := candidate.entry;
      var next := s.(seen := s.seen + {entry.recordId});
      match Verdict(cfg, now, entry)
      case Some(reason) => next.(drops := s.drops + [Drop(reason, Some(entry.recordId))])
      case None => next.(valid := s.valid + [entry])
  }

  function Sift(cfg: Config, now: nat, candidates: seq<Candidate>): Sieve {
    if candidates == [] then Sieve({}, [], [])
    else SiftOne(cfg, now, Sift(cfg, now, candidates[..|candidates| - 1]), candidates[|candidates| - 1])
  }

  /** `Array.prototype.sort` is stable: insert after everything that is not larger. */
  function Insert(sorted: seq<Entry>, entry: Entry): seq<Entry> {
    if sorted == [] || sorted[|sorted| - 1].sequence <= entry.sequence then sorted + [entry]
    else Insert(sorted[..|sorted| - 1], entry) + [sorted[|sorted| - 1]]
  }

  function Sorted(entries: seq<Entry>): seq<Entry> {
    if entries == [] then [] else Insert(Sorted(entries[..|entries| - 1]), entries[|entries| - 1])
  }

  function Excess(cfg: Config, entries: seq<Entry>): nat {
    if |entries| > cfg.maxRecords then |entries| - cfg.maxRecords else 0
  }

  function MinimumNext(entries: seq<Entry>): nat {
    if entries == [] then 0
    else
      var before, last := MinimumNext(entries[..|entries| - 1]), entries[|entries| - 1].sequence + 1;
      if before >= last then before else last
  }

  function NextAfter(stored: Option<int>, minimum: nat): nat {
    if stored.Some? && stored.value >= minimum then stored.value else minimum
  }

  function Repeat(drop: Drop, count: nat): seq<Drop> { seq(count, _ => drop) }

  datatype Restored = Restored(queue: Queue, cell: Cell)

  function Reload(cfg: Config, state: Stored, cell: Cell, now: nat, ok: bool): Restored {
    var sieve := Sift(cfg, now, state.entries);
    var sorted := Sorted(sieve.valid);
    var excess := Excess(cfg, sorted);
    var entries := sorted[excess..];
    var next := NextAfter(state.nextSequence, MinimumNext(entries));
    Restored(
      Queue(entries, {}, next, |entries|, sieve.drops + Overflows(sorted[..excess]), if ok then 0 else 1),
      if ok then Written(cfg, entries, next) else cell)
  }

  /** `readable` is whether `getItem` returned, `ok` whether the storage call after it did. */
  function Restore(cfg: Config, cell: Cell, now: nat, readable: bool, ok: bool): Restored {
    if !readable then Restored(NEW_QUEUE.(persistenceErrors := 1), cell)
    else match cell
      case Empty => Restored(NEW_QUEUE, cell)
      case Garbage =>
        Restored(NEW_QUEUE.(drops := [Drop(InvalidState, None)], persistenceErrors := if ok then 1 else 2),
                 if ok then Empty else cell)
      case Holds(state) =>
        if state.fingerprint != cfg.fingerprint then
          var count := if |state.entries| > 1 then |state.entries| else 1;
          Restored(NEW_QUEUE.(drops := Repeat(Drop(SessionMismatch, None), count),
            persistenceErrors := if ok then 0 else 1),
                   if ok then Empty else cell)
        else Reload(cfg, state, cell, now, ok)
  }

  // ---------------------------------------------------------------- what every call keeps

  ghost predicate DistinctEntries(entries: seq<Entry>) {
    forall i, j :: 0 <= i < j < |entries| ==> entries[i].recordId != entries[j].recordId
  }

  ghost predicate Ordered(entries: seq<Entry>) {
    forall i, j :: 0 <= i < j < |entries| ==> entries[i].sequence <= entries[j].sequence
  }

  ghost predicate QueueInv(cfg: Config, q: Queue) {
    DistinctEntries(q.entries) && Ordered(q.entries) && |q.entries| <= cfg.maxRecords &&
    (forall i :: 0 <= i < |q.entries| ==> q.entries[i].sequence < q.nextSequence && !Blank(q.entries[i].recordId))
  }

  /** `rest` is `whole` with some elements left out. */
  ghost predicate Subsequence(rest: seq<Entry>, whole: seq<Entry>) {
    exists at: seq<nat> :: Picks(at, rest, whole)
  }

  ghost predicate Picks(at: seq<nat>, rest: seq<Entry>, whole: seq<Entry>) {
    |at| == |rest| && (forall i :: 0 <= i < |at| ==> at[i] < |whole| && whole[at[i]] == rest[i]) &&
    (forall i, j :: 0 <= i < j < |at| ==> at[i] < at[j])
  }

  lemma SubsequenceKeeps(rest: seq<Entry>, whole: seq<Entry>)
    requires Subsequence(rest, whole)
    ensures DistinctEntries(whole) ==> DistinctEntries(rest)
    ensures Ordered(whole) ==> Ordered(rest)
    ensures Ids(rest) <= Ids(whole)
    ensures forall e :: e in rest ==> e in whole
  {
    var at: seq<nat> :| Picks(at, rest, whole);
    forall e | e in rest ensures e in whole {
      var i :| 0 <= i < |rest| && rest[i] == e;
      assert whole[at[i]] == e;
    }
    forall id | id in Ids(rest) ensures id in Ids(whole) {
      var i :| 0 <= i < |rest| && rest[i].recordId == id;
      assert whole[at[i]].recordId == id;
    }
  }

  lemma SubsequenceRefl(s: seq<Entry>)
    ensures Subsequence(s, s)
  {
    assert Picks(seq(|s|, i => i), s, s);
  }

  lemma SubsequenceWithout(s: seq<Entry>, whole: seq<Entry>, k: nat)
    requires Subsequence(s, whole) && k < |s|
    ensures Subsequence(Without(s, k), whole)
  {
    var at: seq<nat> :| Picks(at, s, whole);
    assert Picks(Without(at, k), Without(s, k), whole);
  }

  /** Room is made only at the cost of entries that are not resident, each of them is handed
      back for reporting, and the others keep their order. */
  lemma {:induction false} MakeRoomSplits(cfg: Config, entries: seq<Entry>, resident: set<string>,
      displaced: seq<Entry>, whole: seq<Entry>)
    requires Subsequence(entries, whole) && Ids(displaced) !! resident
    ensures
      var fit := MakeRoom(cfg, entries, resident, displaced);
      fit.Fits? ==>
        Subsequence(fit.entries, whole) && |fit.entries| <= cfg.maxRecords &&
        Ids(fit.entries) + Ids(fit.displaced) == Ids(entries) + Ids(displaced) &&
        Ids(fit.displaced) !! resident && |fit.entries| + |fit.displaced| == |entries| + |displaced|
    decreases |entries|
  {
    if |entries| > cfg.maxRecords {
      var index := FirstFree(entries, resident);
      if index < |entries| {
        SubsequenceWithout(entries, whole, index);
        IdsSnoc(displaced, entries[index]);
        WithoutIds(entries, index);
        MakeRoomSplits(cfg, Without(entries, index), resident, displaced + [entries[index]], whole);
      }
    }
  }

  lemma WithoutIds(entries: seq<Entry>, k: nat)
    requires k < |entries|
    ensures Ids(Without(entries, k)) + {entries[k].recordId} == Ids(entries)
  {
    var rest := Without(entries, k);
    forall id | id in Ids(entries) && id != entries[k].recordId ensures id in Ids(rest) {
      var i :| 0 <= i < |entries| && entries[i].recordId == id;
      assert rest[if i < k then i else i - 1].recordId == id;
    }
    forall id | id in Ids(rest) ensures id in Ids(entries) {
      var i :| 0 <= i < |rest| && rest[i].recordId == id;
      assert entries[if i < k then i else i + 1].recordId == id;
    }
  }

  /** Nothing is both kept and displaced. */
  lemma {:induction false} MakeRoomParts(cfg: Config, entries: seq<Entry>, resident: set<string>, displaced: seq<Entry>)
    requires DistinctEntries(entries) && Ids(displaced) !! Ids(entries)
    ensures
      var fit := MakeRoom(cfg, entries, resident, displaced);
      fit.Fits? ==> Ids(fit.entries) !! Ids(fit.displaced)
    decreases |entries|
  {
    if |entries| > cfg.maxRecords {
      var index := FirstFree(entries, resident);
      if index < |entries| {
        IdsSnoc(displaced, entries[index]);
        WithoutIds(entries, index);
        WithoutIsDistinct(entries, index);
        MakeRoomParts(cfg, Without(entries, index), resident, displaced + [entries[index]]);
      }
    }
  }

  lemma WithoutIsDistinct(entries: seq<Entry>, k: nat)
    requires DistinctEntries(entries) && k < |entries|
    ensures DistinctEntries(Without(entries, k)) && entries[k].recordId !in Ids(Without(entries, k))
  {
    var rest := Without(entries, k);
    forall i | 0 <= i < |rest| ensures rest[i] == entries[if i < k then i else i + 1] {}
  }

  ghost predicate PersistContract(cfg: Config, q: Queue, cell: Cell, record: Record, recordId: string, now: nat,
      p: Persisted)
  {
    QueueInv(cfg, p.queue) && p.queue.resident == q.resident && q.drops <= p.queue.drops &&
    (!p.done ==> p.cell == cell && p.queue.entries == q.entries && p.queue.nextSequence == q.nextSequence) &&
    (p.done ==>
       p.queue.nextSequence == q.nextSequence + 1 && p.cell == Written(cfg, p.queue.entries, p.queue.nextSequence) &&
       recordId !in Ids(q.entries) && !Blank(recordId) &&
       Ids(p.queue.entries) + DropIds(p.queue.drops[|q.drops|..]) == Ids(q.entries) + {recordId} &&
       Ids(p.queue.entries) !! DropIds(p.queue.drops[|q.drops|..]) &&
       q.resident * Ids(q.entries) <= Ids(p.queue.entries) &&
       (forall e :: e in p.queue.entries ==> e in q.entries || e == NewEntry(q, record, recordId, now)))
  }

  /** `persistRecord` uses each sequence number once, never displaces a resident entry, reports
      every entry it displaces, and either stores the new queue or leaves everything as it was. */
  lemma PersistIsSafe(cfg: Config, q: Queue, cell: Cell, record: Record, recordId: string, now: nat, ok: bool)
    requires cfg.Valid() && QueueInv(cfg, q)
    ensures PersistContract(cfg, q, cell, record, recordId, now, Persist(cfg, q, cell, record, recordId, now, ok))
  {
    hide MakeRoom, Subsequence, DistinctEntries, Ordered, Blank, Written;
    var p := Persist(cfg, q, cell, record, recordId, now, ok);
    if p.done {
      var entry := NewEntry(q, record, recordId, now);
      var fit := MakeRoom(cfg, q.entries + [entry], q.resident, []);
      RoomForOne(cfg, q, entry, fit);
      NothingTwice(cfg, q, entry);
      PartOfWhole(cfg, q, entry, fit.entries);
      assert p.queue.drops[|q.drops|..] == Overflows(fit.displaced);
      OverflowIds(fit.displaced);
    }
  }

  lemma RoomForOne(cfg: Config, q: Queue, entry: Entry, fit: Fit)
    requires fit.Fits? && fit == MakeRoom(cfg, q.entries + [entry], q.resident, [])
    ensures Subsequence(fit.entries, q.entries + [entry]) && |fit.entries| <= cfg.maxRecords
    ensures Ids(fit.entries) + Ids(fit.displaced) == Ids(q.entries) + {entry.recordId}
    ensures Ids(fit.displaced) !! q.resident
  {
    var whole := q.entries + [entry];
    SubsequenceRefl(whole);
    assert Ids([]) == {};
    MakeRoomSplits(cfg, whole, q.resident, [], whole);
    IdsSnoc(q.entries, entry);
  }

  lemma NothingTwice(cfg: Config, q: Queue, entry: Entry)
    requires QueueInv(cfg, q) && entry.recordId !in Ids(q.entries) && entry.sequence == q.nextSequence
    ensures
      var fit := MakeRoom(cfg, q.entries + [entry], q.resident, []);
      fit.Fits? ==> Ids(fit.entries) !! Ids(fit.displaced)
  {
    hide MakeRoom;
    WholeIsGood(q, q.entries + [entry]);
    assert Ids([]) == {};
    MakeRoomParts(cfg, q.entries + [entry], q.resident, []);
  }

  lemma PartOfWhole(cfg: Config, q: Queue, entry: Entry, part: seq<Entry>)
    requires QueueInv(cfg, q) && entry.recordId !in Ids(q.entries) && entry.sequence == q.nextSequence
    requires !Blank(entry.recordId) && Subsequence(part, q.entries + [entry]) && |part| <= cfg.maxRecords
    ensures QueueInv(cfg, q.(entries := part, nextSequence := q.nextSequence + 1))
    ensures forall e :: e in part ==> e in q.entries || e == entry
  {
    var whole := q.entries + [entry];
    SubsequenceKeeps(part, whole);
    WholeIsGood(q, whole);
    forall i | 0 <= i < |part| ensures part[i].sequence < q.nextSequence + 1 && !Blank(part[i].recordId) {
      assert part[i] in whole;
    }
  }

  lemma WholeIsGood(q: Queue, whole: seq<Entry>)
    requires |whole| == |q.entries| + 1 && whole[..|q.entries|] == q.entries
    requires DistinctEntries(q.entries) && Ordered(q.entries)
    requires forall i :: 0 <= i < |q.entries| ==> q.entries[i].sequence < q.nextSequence
    requires whole[|q.entries|].sequence == q.nextSequence && whole[|q.entries|].recordId !in Ids(q.entries)
    ensures DistinctEntries(whole) && Ordered(whole)
  {
    assert forall i :: 0 <= i < |q.entries| ==> whole[i] == q.entries[i];
    forall i | 0 <= i < |q.entries| ensures whole[i].recordId != whole[|q.entries|].recordId {
      assert q.entries[i].recordId in Ids(q.entries);
    }
  }

  lemma OverflowIds(displaced: seq<Entry>)
    ensures DropIds(Overflows(displaced)) == Ids(displaced)
  {
    var drops := Overflows(displaced);
    assert forall i :: 0 <= i < |displaced| ==> drops[i].recordId == Some(displaced[i].recordId);
    forall id | id in Ids(displaced) ensures id in DropIds(drops) {
      var i :| 0 <= i < |displaced| && displaced[i].recordId == id;
      assert drops[i].recordId == Some(id);
    }
  }

  lemma SubsequenceSnoc(rest: seq<Entry>, whole: seq<Entry>, last: Entry)
    requires Subsequence(rest, whole)
    ensures Subsequence(rest, whole + [last]) && Subsequence(rest + [last], whole + [last])
  {
    var at: seq<nat> :| Picks(at, rest, whole);
    assert Picks(at, rest, whole + [last]);
    assert Picks(at + [|whole|], rest + [last], whole + [last]);
  }

  lemma {:induction false} KeepIsSubsequence(entries: seq<Entry>, ids: set<string>)
    ensures Subsequence(Keep(entries, ids), entries)
  {
    if entries == [] {
      SubsequenceRefl([]);
    } else {
      var init, last := entries[..|entries| - 1], entries[|entries| - 1];
      KeepIsSubsequence(init, ids);
      SubsequenceSnoc(Keep(init, ids), init, last);
      assert entries == init + [last];
    }
  }

  lemma {:induction false} KeepIsShorter(entries: seq<Entry>, ids: set<string>)
    ensures |Keep(entries, ids)| <= |entries|
  {
    if entries != [] { KeepIsShorter(entries[..|entries| - 1], ids); }
  }

  /** `removeCommitted` removes exactly the given ids and keeps the order of the rest. */
  lemma RemovedIsSafe(cfg: Config, q: Queue, ids: set<string>, ok: bool)
    requires QueueInv(cfg, q)
    ensures QueueInv(cfg, Removed(q, ids, ok)) && Ids(Removed(q, ids, ok).entries) == Ids(q.entries) - ids
    ensures Subsequence(Removed(q, ids, ok).entries, q.entries)
  {
    KeepIsSubsequence(q.entries, ids);
    KeepIsShorter(q.entries, ids);
    SubsequenceKeeps(Keep(q.entries, ids), q.entries);
    var r := Removed(q, ids, ok);
    forall i | 0 <= i < |r.entries| ensures r.entries[i].sequence < r.nextSequence && !Blank(r.entries[i].recordId) {
      assert r.entries[i] in q.entries;
    }
  }

  // ---------------------------------------------------------------- restore

  /** Every element is kept or dropped exactly once, and every usable id is accounted for. */
  ghost predicate SieveInv(candidates: seq<Candidate>, s: Sieve) {
    |s.valid| + |s.drops| == |candidates| && DistinctEntries(s.valid) && Ids(s.valid) <= s.seen &&
    s.seen <= Ids(s.valid) + DropIds(s.drops) &&
    (forall i :: 0 <= i < |s.valid| ==> Shaped(s.valid[i]) in candidates && !Blank(s.valid[i].recordId)) &&
    (forall i :: 0 <= i < |candidates| && candidates[i].Shaped? && !Blank(candidates[i].entry.recordId) ==>
       candidates[i].entry.recordId in s.seen)
  }

  lemma DropIdsSnoc(drops: seq<Drop>, drop: Drop)
    ensures DropIds(drops + [drop]) == DropIds(drops) + if drop.recordId.Some? then {drop.recordId.value} else {}
  {
    var all := drops + [drop];
    assert all[|drops|] == drop;
    forall id | id in DropIds(drops) ensures id in DropIds(all) {
      var i :| 0 <= i < |drops| && drops[i].recordId == Some(id);
      assert all[i].recordId == Some(id);
    }
    forall id | id in DropIds(all) && id !in DropIds(drops) ensures drop.recordId == Some(id) {
      var i :| 0 <= i < |all| && all[i].recordId == Some(id);
      if i < |drops| { assert drops[i].recordId == Some(id); }
    }
  }

  lemma {:induction false} SiftAccounts(cfg: Config, now: nat, candidates: seq<Candidate>)
    ensures SieveInv(candidates, Sift(cfg, now, candidates))
  {
    if candidates != [] {
      var init, last := candidates[..|candidates| - 1], candidates[|candidates| - 1];
      SiftAccounts(cfg, now, init);
      assert candidates == init + [last];
      SiftOneKeeps(cfg, now, init, Sift(cfg, now, init), last);
    }
  }

  lemma SiftOneKeeps(cfg: Config, now: nat, candidates: seq<Candidate>, s: Sieve, last: Candidate)
    requires SieveInv(candidates, s)
    ensures SieveInv(candidates + [last], SiftOne(cfg, now, s, last))
  {
    var all, next := candidates + [last], SiftOne(cfg, now, s, last);
    assert forall c :: c in candidates ==> c in all;
    assert last in all by { assert all[|candidates|] == last; }
    if Rejected(last, s.seen) {
      DropIdsSnoc(s.drops, Drop(InvalidState, None));
    } else if Verdict(cfg, now, last.entry).Some? {
      DropIdsSnoc(s.drops, Drop(Verdict(cfg, now, last.entry).value, Some(last.entry.recordId)));
    } else {
      IdsSnoc(s.valid, last.entry);
      forall i | 0 <= i < |s.valid| ensures s.valid[i].recordId != last.entry.recordId {
        assert s.valid[i].recordId in Ids(s.valid);
      }
    }
  }

  lemma {:induction false} InsertPlaces(sorted: seq<Entry>, entry: Entry) returns (k: nat)
    requires Ordered(sorted)
    ensures k <= |sorted| && Insert(sorted, entry) == sorted[..k] + [entry] + sorted[k..]
    ensures Ordered(Insert(sorted, entry))
    ensures forall i :: k <= i < |sorted| ==> sorted[i].sequence > entry.sequence
    ensures forall i :: 0 <= i < k ==> sorted[i].sequence <= entry.sequence
  {
    if sorted == [] || sorted[|sorted| - 1].sequence <= entry.sequence {
      k := |sorted|;
    } else {
      var init, last := sorted[..|sorted| - 1], sorted[|sorted| - 1];
      k := InsertPlaces(init, entry);
      assert Insert(sorted, entry) == init[..k] + [entry] + init[k..] + [last];
      assert sorted[k..] == init[k..] + [last] && sorted[..k] == init[..k];
    }
  }

  lemma PlacedIds(s: seq<Entry>, k: nat, entry: Entry)
    requires k <= |s|
    ensures Ids(s[..k] + [entry] + s[k..]) == Ids(s) + {entry.recordId}
  {
    var all := s[..k] + [entry] + s[k..];
    assert Without(all, k) == s;
    WithoutIds(all, k);
  }

  lemma PlacedIsDistinct(s: seq<Entry>, k: nat, entry: Entry)
    requires k <= |s| && DistinctEntries(s) && entry.recordId !in Ids(s)
    ensures DistinctEntries(s[..k] + [entry] + s[k..])
  {
    var all := s[..k] + [entry] + s[k..];
    assert forall i :: 0 <= i < |s| ==> s[i].recordId in Ids(s);
    forall i, j | 0 <= i < j < |all| ensures all[i].recordId != all[j].recordId {
      assert i < k ==> all[i] == s[i];
      assert j < k ==> all[j] == s[j];
      assert i > k ==> all[i] == s[i - 1];
      assert j > k ==> all[j] == s[j - 1];
    }
  }

  lemma PlacedMultiset(s: seq<Entry>, k: nat, entry: Entry)
    requires k <= |s|
    ensures multiset(s[..k] + [entry] + s[k..]) == multiset(s) + multiset{entry}
  {
    assert s == s[..k] + s[k..];
  }

  lemma LastIsNew(init: seq<Entry>, last: Entry)
    requires DistinctEntries(init + [last])
    ensures DistinctEntries(init) && last.recordId !in Ids(init)
  {
    var all := init + [last];
    assert forall i :: 0 <= i < |init| ==> all[i] == init[i];
    forall id | id in Ids(init) ensures id != last.recordId {
      var i :| 0 <= i < |init| && init[i].recordId == id;
      assert all[i].recordId != all[|init|].recordId;
    }
  }

  /** Sorting keeps the entries and orders them by sequence. */
  lemma {:induction false} SortedIsOrdered(entries: seq<Entry>)
    ensures Ordered(Sorted(entries)) && multiset(Sorted(entries)) == multiset(entries)
    ensures |Sorted(entries)| == |entries| && Ids(Sorted(entries)) == Ids(entries)
    ensures DistinctEntries(entries) ==> DistinctEntries(Sorted(entries))
  {
    if entries != [] {
      var init, last := entries[..|entries| - 1], entries[|entries| - 1];
      assert entries == init + [last];
      SortedIsOrdered(init);
      IdsSnoc(init, last);
      var before := Sorted(init);
      var k := InsertPlaces(before, last);
      PlacedIds(before, k, last);
      PlacedMultiset(before, k, last);
      if DistinctEntries(entries) {
        LastIsNew(init, last);
        PlacedIsDistinct(before, k, last);
      }
    }
  }

  lemma {:induction false} SortedIsIdentity(entries: seq<Entry>)
    requires Ordered(entries)
    ensures Sorted(entries) == entries
  {
    if entries != [] {
      var init, last := entries[..|entries| - 1], entries[|entries| - 1];
      SortedIsIdentity(init);
      assert Insert(init, last) == init + [last];
      assert entries == init + [last];
    }
  }

  lemma {:induction false} MinimumNextBounds(entries: seq<Entry>)
    ensures forall i :: 0 <= i < |entries| ==> entries[i].sequence < MinimumNext(entries)
    ensures MinimumNext(entries) == 0 ||
        exists i :: 0 <= i < |entries| && entries[i].sequence + 1 == MinimumNext(entries)
  {
    if entries != [] {
      var init := entries[..|entries| - 1];
      MinimumNextBounds(init);
      if MinimumNext(entries) == MinimumNext(init) && init != [] {
        var i :| 0 <= i < |init| && init[i].sequence + 1 == MinimumNext(init);
        assert entries[i] == init[i];
      }
    }
  }

  ghost predicate RestoreContract(cfg: Config, state: Stored, q: Queue) {
    QueueInv(cfg, q) && q.resident == {} && q.restored == |q.entries| &&
    |q.entries| + |q.drops| == |state.entries| &&
    (forall i :: 0 <= i < |q.entries| ==> Shaped(q.entries[i]) in state.entries) &&
    (forall i :: 0 <= i < |state.entries| && state.entries[i].Shaped? && !Blank(state.entries[i].entry.recordId) ==>
       state.entries[i].entry.recordId in Ids(q.entries) + DropIds(q.drops))
  }

  /** `restore` repairs any state of this session: it keeps or reports every stored element exactly
      once and rebuilds unique ids, ordered sequences below `nextSequence`, and the size bound. */
  lemma RestoreRepairs(cfg: Config, state: Stored, now: nat, ok: bool)
    requires cfg.Valid() && state.fingerprint == cfg.fingerprint
    ensures RestoreContract(cfg, state, Restore(cfg, Holds(state), now, true, ok).queue)
  {
    var sieve := Sift(cfg, now, state.entries);
    SiftAccounts(cfg, now, state.entries);
    TrimIsGood(cfg, sieve.valid);
    var sorted := Sorted(sieve.valid);
    var excess := Excess(cfg, sorted);
    JoinedDropIds(sieve.drops, Overflows(sorted[..excess]));
    MinimumNextBounds(sorted[excess..]);
    var q := Restore(cfg, Holds(state), now, true, ok).queue;
    assert q.entries == sorted[excess..] && q.drops == sieve.drops + Overflows(sorted[..excess]);
  }

  lemma TrimIsGood(cfg: Config, valid: seq<Entry>)
    requires DistinctEntries(valid)
    ensures
      var sorted := Sorted(valid);
      var excess := Excess(cfg, sorted);
      var entries := sorted[excess..];
      DistinctEntries(entries) && Ordered(entries) && |entries| <= cfg.maxRecords &&
      |entries| + |Overflows(sorted[..excess])| == |valid| &&
      Ids(entries) + DropIds(Overflows(sorted[..excess])) == Ids(valid) &&
      forall i :: 0 <= i < |entries| ==> entries[i] in valid
  {
    SortedIsOrdered(valid);
    var sorted := Sorted(valid);
    var excess := Excess(cfg, sorted);
    OverflowIds(sorted[..excess]);
    SplitIds(sorted, excess);
    forall i | 0 <= i < |sorted[excess..]| ensures sorted[excess..][i] in valid {
      assert sorted[excess..][i] == sorted[excess + i];
      assert sorted[excess + i] in multiset(sorted);
    }
  }

  lemma SplitIds(s: seq<Entry>, k: nat)
    requires k <= |s|
    ensures Ids(s) == Ids(s[..k]) + Ids(s[k..])
  {
    forall id | id in Ids(s) ensures id in Ids(s[..k]) + Ids(s[k..]) {
      var i :| 0 <= i < |s| && s[i].recordId == id;
      if i < k { assert s[..k][i].recordId == id; } else { assert s[k..][i - k].recordId == id; }
    }
  }

  lemma JoinedDropIds(a: seq<Drop>, b: seq<Drop>)
    ensures DropIds(a + b) == DropIds(a) + DropIds(b)
  {
    forall id | id in DropIds(a) ensures id in DropIds(a + b) {
      var i :| 0 <= i < |a| && a[i].recordId == Some(id);
      assert (a + b)[i].recordId == Some(id);
    }
    forall id | id in DropIds(b) ensures id in DropIds(a + b) {
      var i :| 0 <= i < |b| && b[i].recordId == Some(id);
      assert (a + b)[|a| + i].recordId == Some(id);
    }
    forall id | id in DropIds(a + b) ensures id in DropIds(a) + DropIds(b) {
      var i :| 0 <= i < |a + b| && (a + b)[i].recordId == Some(id);
      if i < |a| { assert a[i].recordId == Some(id); } else { assert b[i - |a|].recordId == Some(id); }
    }
  }

  /** No entry is too large, too old or blank at time `now`. */
  ghost predicate Restorable(cfg: Config, now: nat, entries: seq<Entry>) {
    DistinctEntries(entries) &&
    forall i :: 0 <= i < |entries| ==> !Blank(entries[i].recordId) && Verdict(cfg, now, entries[i]).None?
  }

  lemma {:induction false} SiftKeepsAll(cfg: Config, now: nat, entries: seq<Entry>)
    requires Restorable(cfg, now, entries)
    ensures Sift(cfg, now, Shape(entries)) == Sieve(Ids(entries), entries, [])
  {
    if entries == [] {
      assert Ids([]) == {};
    } else {
      var init, last := entries[..|entries| - 1], entries[|entries| - 1];
      assert entries == init + [last];
      assert Restorable(cfg, now, init);
      SiftKeepsAll(cfg, now, init);
      assert Shape(entries)[..|entries| - 1] == Shape(init);
      IdsSnoc(init, last);
      forall id | id in Ids(init) ensures id != last.recordId {
        var i :| 0 <= i < |init| && init[i].recordId == id;
        assert entries[i].recordId != entries[|init|].recordId;
      }
    }
  }

  lemma ReloadKeepsAll(cfg: Config, q: Queue, cell: Cell, now: nat, ok: bool)
    requires QueueInv(cfg, q) && Restorable(cfg, now, q.entries)
    ensures
      var r := Reload(cfg, Stored(cfg.fingerprint, Some(q.nextSequence), Shape(q.entries)), cell, now, ok);
      r.queue.entries == q.entries && r.queue.nextSequence == q.nextSequence && r.queue.drops == [] &&
      r.cell == if ok then Written(cfg, q.entries, q.nextSequence) else cell
  {
    hide Sift, Sorted, MinimumNext, Written, Shape;
    SiftKeepsAll(cfg, now, q.entries);
    SortedIsIdentity(q.entries);
    MinimumNextBounds(q.entries);
    assert Overflows([]) == [];
    assert q.entries[0..] == q.entries && q.entries[..0] == [];
  }

  /** Round trip: what `writeState` stored comes back unchanged, with nothing reported. */
  lemma RestoreInvertsWrite(cfg: Config, q: Queue, now: nat, ok: bool)
    requires cfg.Valid() && QueueInv(cfg, q) && q.entries != [] && Restorable(cfg, now, q.entries)
    ensures
      var cell := Written(cfg, q.entries, q.nextSequence);
      var r := Restore(cfg, cell, now, true, ok);
      r.cell == cell && r.queue.entries == q.entries && r.queue.nextSequence == q.nextSequence && r.queue.drops == []
  {
    hide Reload, Shape;
    ReloadKeepsAll(cfg, q, Written(cfg, q.entries, q.nextSequence), now, ok);
  }
}
