/** The circular queue under the scheduler, the locks and the allocators (src/queue.c). */
module Queues {
  import opened Machine

  class Queue {
    // Stands for the queue's address.
    const id: int
    const items: array<int>
    var head: int
    var tail: int
    var size: int

    ghost var contents: seq<int>

    // The array index of the item k places behind the head.
    ghost function Slot(k: int): int
      reads this
    {
      if head + k < QUEUE_SIZE then head + k else head + k - QUEUE_SIZE
    }

    ghost predicate Valid()
      reads this, items
    {
      && items.Length == QUEUE_SIZE
      && 0 <= head < QUEUE_SIZE
      && 0 <= size <= QUEUE_SIZE
      && tail == Slot(size)
      && |contents| == size
      && forall k :: 0 <= k < size ==> contents[k] == items[Slot(k)]
    }

    // Zeroed memory is an empty queue.
    constructor (id: int)
      ensures Valid() && contents == [] && fresh(items) && this.id == id
    {
      this.id := id;
      items := new int[QUEUE_SIZE](_ => 0);
      head, tail, size := 0, 0, 0;
      contents := [];
    }

    method Init()
      requires items.Length == QUEUE_SIZE
      modifies this, items
      ensures Valid() && contents == []
      ensures forall i :: 0 <= i < QUEUE_SIZE ==> items[i] == 0
    {
      for i := 0 to QUEUE_SIZE
        invariant forall j :: 0 <= j < i ==> items[j] == 0
      {
        items[i] := 0;
      }
      head, tail, size := 0, 0, 0;
      contents := [];
    }

    method In(item: int) returns (rc: int)
      requires Valid()
      modifies this, items
      ensures Valid()
      ensures rc == (if |old(contents)| == QUEUE_SIZE then -1 else 0)
      ensures contents == Enqueue(old(contents), item)
    {
      if size == QUEUE_SIZE {
        return -1;
      }
      items[tail] := item;
      tail := tail + 1;
      if tail == QUEUE_SIZE {
        tail := 0;
      }
      size := size + 1;
      contents := contents + [item];
      rc := 0;
    }

    // before is what the caller's variable holds: it keeps its value when the queue is empty.
    method Out(before: int) returns (rc: int, item: int)
      requires Valid()
      modifies this, items
      ensures Valid()
      ensures if old(contents) == [] then rc == -1 && item == before && contents == []
              else rc == 0 && item == old(contents)[0] && contents == old(contents)[1..]
    {
      item := before;
      if size == 0 {
        return -1, item;
      }
      item := items[head];
      items[head] := 0;
      head := head + 1;
      if head == QUEUE_SIZE {
        head := 0;
      }
      size := size - 1;
      contents := contents[1..];
      rc := 0;
    }

    predicate IsEmpty()
      requires Valid()
      reads this, items
      ensures IsEmpty() <==> contents == []
    {
      size == 0
    }

    predicate IsFull()
      requires Valid()
      reads this, items
      ensures IsFull() <==> |contents| == QUEUE_SIZE
    {
      size == QUEUE_SIZE
    }
  }
}
