/** The byte ring between processes and terminals (src/ringbuf.c). */
module RingBufs {
  import opened Screen

  class RingBuf {
    // Stands for the buffer's address.
    const id: int
    const data: array<Char>
    var head: int
    var tail: int
    var size: int

    ghost var contents: seq<Char>

    ghost function Slot(k: int): int
      reads this
    {
      if head + k < RINGBUF_SIZE then head + k else head + k - RINGBUF_SIZE
    }

    ghost predicate Valid()
      reads this, data
    {
      && data.Length == RINGBUF_SIZE
      && 0 <= head < RINGBUF_SIZE
      && 0 <= size <= RINGBUF_SIZE
      && tail == Slot(size)
      && |contents| == size
      && forall k :: 0 <= k < size ==> contents[k] == data[Slot(k)]
    }

    constructor (id: int)
      ensures Valid() && contents == [] && fresh(data) && this.id == id
    {
      this.id := id;
      data := new Char[RINGBUF_SIZE](_ => 0);
      head, tail, size := 0, 0, 0;
      contents := [];
    }

    // memset over the first RINGBUF_SIZE bytes of the record: the three counters and all but the
    // last twelve bytes of the data that follows them.
    const COUNTER_BYTES := 12

    method Zero()
      requires data.Length == RINGBUF_SIZE
      modifies this, data
      ensures Valid() && contents == []
      ensures forall i :: 0 <= i < RINGBUF_SIZE ==>
        data[i] == (if i < RINGBUF_SIZE - COUNTER_BYTES then NUL else old(data[i]))
    {
      head, tail, size := 0, 0, 0;
      for i := 0 to RINGBUF_SIZE - COUNTER_BYTES
        invariant forall j :: 0 <= j < RINGBUF_SIZE ==> data[j] == (if j < i then NUL else old(data[j]))
        modifies data
      {
        data[i] := NUL;
      }
      contents := [];
    }

    method Init() returns (rc: int)
      requires data.Length == RINGBUF_SIZE
      modifies this, data
      ensures Valid() && contents == [] && rc == 0
    {
      Zero();
      rc := 0;
    }

    method Flush() returns (rc: int)
      requires Valid()
      modifies this, data
      ensures Valid() && contents == [] && rc == 0
    {
      Zero();
      rc := 0;
    }

    method Write(byte: Char) returns (rc: int)
      requires Valid()
      modifies this, data
      ensures Valid()
      ensures contents == Accept(old(contents), [byte])
      ensures rc == (if |old(contents)| == RINGBUF_SIZE then -1 else 0)
    {
      if size == RINGBUF_SIZE {
        return -1;
      }
      data[tail] := byte;
      tail := tail + 1;
      if tail == RINGBUF_SIZE {
        tail := 0;
      }
      size := size + 1;
      contents := contents + [byte];
      rc := 0;
    }

    method Read(before: Char) returns (rc: int, byte: Char)
      requires Valid()
      modifies this
      ensures Valid()
      ensures if old(contents) == [] then rc == -1 && byte == before && contents == []
              else rc == 0 && [byte] + contents == old(contents)
    {
      byte := before;
      if size == 0 {
        return -1, byte;
      }
      byte := data[head];
      head := head + 1;
      if head == RINGBUF_SIZE {
        head := 0;
      }
      size := size - 1;
      contents := contents[1..];
      rc := 0;
    }

    predicate IsEmpty()
      requires Valid()
      reads this, data
      ensures IsEmpty() <==> contents == []
    {
      size == 0
    }

    predicate IsFull()
      requires Valid()
      reads this, data
      ensures IsFull() <==> |contents| == RINGBUF_SIZE
    {
      size == RINGBUF_SIZE
    }

    // All n bytes or none.
    method WriteMem(mem: seq<Char>, n: int) returns (rc: int)
      requires Valid() && 0 <= n <= |mem|
      modifies this, data
      ensures Valid()
      ensures contents == Accept(old(contents), mem[..n])
      ensures rc == (if |old(contents)| + n > RINGBUF_SIZE then -1 else 0)
    {
      if size + n > RINGBUF_SIZE {
        return -1;
      }
      var i := 0;
      while i < n && !IsFull()
        invariant 0 <= i <= n && Valid()
        invariant contents == old(contents) + mem[..i]
      {
        var _ := Write(mem[i]);
        i := i + 1;
      }
      rc := 0;
    }

    // Up to n bytes, oldest first, into mem; the rest of mem stays.
    method ReadMem(mem: array<Char>, n: int) returns (count: int)
      requires Valid() && 0 <= n && mem != data
      requires n <= mem.Length
      modifies this, mem
      ensures Valid()
      ensures count == (if n <= |old(contents)| then n else |old(contents)|)
      ensures mem[..count] == old(contents)[..count] && mem[count..] == old(mem[count..])
      ensures contents == old(contents)[count..]
    {
      count := 0;
      while count < n && !IsEmpty()
        invariant 0 <= count <= n && count <= |old(contents)| && Valid()
        invariant contents == old(contents)[count..]
        invariant forall k :: 0 <= k < count ==> mem[k] == old(contents)[k]
        invariant forall k :: count <= k < mem.Length ==> mem[k] == old(mem[k])
      {
        var rc, byte := Read(mem[count]);
        mem[count] := byte;
        count := count + 1;
      }
    }
  }
}
