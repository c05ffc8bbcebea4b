/** The head-cursor queues. A queue is a growable list and the index of its first live element;
    each operation is proved to do to `Contents` what it would do to a plain sequence, so
    compaction is invisible, and compaction is proved to be paid for by earlier removals. */
module CursorQueues {
  import opened Common

  /** `src/supabase-realtime-batch.ts`; the class of `src/supabase-ingest/queue.ts` is this one
      without `Pop`. */
  class CursorQueue<T> {
    var values: seq<T>
    var head: nat
    /** Elements copied by compaction, and elements removed, since the queue was made. */
    ghost var copied: nat
    ghost var removed: nat

    /** The claim of amortised constant cost: what compaction copied is less than what was removed,
        by at least the length of the dead prefix. */
    ghost predicate Valid()
      reads this
    {
      head <= |values| && copied + head <= removed
    }

    ghost function Contents(): seq<T>
      requires Valid()
      reads this
    {
      values[head..]
    }

    constructor ()
      ensures Valid() && Contents() == [] && copied == removed == 0
    {
      values, head, copied, removed := [], 0, 0, 0;
    }

    method Length() returns (n: nat)
      requires Valid()
      ensures n == |Contents()|
    {
      n := |values| - head;
    }

    method Push(value: T)
      requires Valid()
      modifies this
      ensures Valid() && Contents() == old(Contents()) + [value]
      ensures copied == old(copied) && removed == old(removed)
    {
      values := values + [value];
    }

    method Compact()
      requires Valid()
      modifies this
      ensures Valid() && Contents() == old(Contents()) && removed == old(removed)
    {
      if head > 1024 && head * 2 > |values| {
        copied := copied + (|values| - head);
        values := values[head..];
        head := 0;
      }
    }

    method Shift() returns (value: Option<T>)
      requires Valid()
      modifies this
      ensures Valid() && removed == old(removed) + if old(Contents()) == [] then 0 else 1
      ensures old(Contents()) == [] ==> value.None? && Contents() == []
      ensures old(Contents()) != [] ==> value == Some(old(Contents())[0]) && Contents() == old(Contents())[1..]
    {
      if head >= |values| { return None; }
      value := Some(values[head]);
      head := head + 1;
      removed := removed + 1;
      Compact();
    }

    method Pop() returns (value: Option<T>)
      requires Valid()
      modifies this
      ensures Valid() && removed == old(removed) + if old(Contents()) == [] then 0 else 1
      ensures old(Contents()) == [] ==> value.None? && Contents() == []
      ensures old(Contents()) != [] ==>
                value == Some(old(Contents())[|old(Contents())| - 1]) &&
                Contents() == old(Contents())[..|old(Contents())| - 1]
    {
      if head >= |values| { return None; }
      value := Some(values[|values| - 1]);
      values := values[..|values| - 1];
      removed := removed + 1;
      if head >= |values| {
        values := [];
        head := 0;
      }
    }

    method Prepend(items: seq<T>)
      requires Valid()
      modifies this
      ensures Valid() && Contents() == items + old(Contents())
      ensures copied == old(copied) && removed == old(removed)
    {
      if |items| == 0 { return; }
      values := items + values[head..];
      head := 0;
    }
  }

  /** `src/browser-stream.ts`: drained slots are overwritten before the cursor passes them. */
  class BrowserQueue<T> {
    var items: seq<Option<T>>
    var head: nat
    ghost var copied: nat
    ghost var removed: nat

    ghost predicate Valid()
      reads this
    {
      head <= |items| && copied + head <= removed &&
      (forall i :: 0 <= i < head ==> items[i].None?) &&
      (forall i :: head <= i < |items| ==> items[i].Some?)
    }

    ghost function Contents(): seq<T>
      requires Valid()
      reads this
    {
      Live(items[head..])
    }

    /** The values of live slots. */
    static function Live(slots: seq<Option<T>>): (values: seq<T>)
      requires forall i :: 0 <= i < |slots| ==> slots[i].Some?
      ensures |values| == |slots| && forall i :: 0 <= i < |slots| ==> values[i] == slots[i].value
    {
      seq(|slots|, i requires 0 <= i < |slots| => slots[i].value)
    }

    constructor ()
      ensures Valid() && Contents() == [] && copied == removed == 0
    {
      items, head, copied, removed := [], 0, 0, 0;
    }

    method Push(item: T)
      requires Valid()
      modifies this
      ensures Valid() && Contents() == old(Contents()) + [item]
      ensures copied == old(copied) && removed == old(removed)
    {
      items := items + [Some(item)];
    }

    method Peek(count: nat) returns (front: seq<T>)
      requires Valid()
      ensures front == Contents()[..if count < |Contents()| then count else |Contents()|]
    {
      var end := if head + count < |items| then head + count else |items|;
      front := Live(items[head..end]);
    }

    method Drain(count: nat)
      requires Valid()
      modifies this
      ensures Valid()
      ensures
        var n := if count < |old(Contents())| then count else |old(Contents())|;
        Contents() == old(Contents())[n..] && removed == old(removed) + n
    {
      var next := if head + count < |items| then head + count else |items|;
      for index := head to next
        invariant |items| == |old(items)| && head == old(head) && copied == old(copied) && removed == old(removed)
        invariant forall i :: 0 <= i < index ==> items[i].None?
        invariant forall i :: index <= i < |items| ==> items[i] == old(items)[i]
      {
        items := items[index := None];
      }
      removed := removed + (next - head);
      head := next;
      assert items[head..] == old(items)[head..];
      Compact();
    }

    method TrimToLast(max: nat) returns (excess: nat)
      requires Valid()
      modifies this
      ensures Valid()
      ensures excess == if |old(Contents())| > max then |old(Contents())| - max else 0
      ensures Contents() == old(Contents())[excess..] && removed == old(removed) + excess
    {
      if |items| - head <= max { return 0; }
      excess := |items| - head - max;
      Drain(excess);
    }

    method ToArray() returns (all: seq<T>)
      requires Valid()
      ensures all == Contents()
    {
      all := Live(items[head..]);
    }

    method Compact()
      requires Valid()
      modifies this
      ensures Valid() && Contents() == old(Contents()) && removed == old(removed)
    {
      if head > 512 && head * 2 > |items| {
        copied := copied + (|items| - head);
        items := items[head..];
        head := 0;
      }
    }
  }
}
