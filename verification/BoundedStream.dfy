/** The bounded stream of the pthread layer: a ring buffer with one producer and one
    consumer, and the wakeup of a consumer that polls. */
module BoundedStream {
  import opened CircularList
  import opened Options

  /** The consumer's thread: the stream that is to wake it. */
  class Consumer {
    var wakeup: Option<Stream>

    constructor ()
      ensures wakeup.None?
    {
      wakeup := None;
    }
  }

  class Stream {
    const buffer: array<int>
    const size: nat
    var head: nat
    var tail: nat
    var count: nat
    var registered: bool
    const consumer: Consumer

    ghost predicate Valid()
      reads this, buffer
    {
      && size == buffer.Length && size > 0 && count <= size && head < size
      && tail == Slot(head, count, size)
    }

    ghost function Items(): (s: seq<int>)
      requires Valid()
      reads this, buffer
      ensures |s| == count
    {
      Unrolled(buffer[..], head, count)
    }

    constructor (capacity: nat, thread: Consumer)
      requires capacity > 0
      ensures Valid() && Items() == [] && !registered && size == capacity && consumer == thread && fresh(buffer)
    {
      buffer := new int[capacity];
      size, head, tail, count := capacity, 0, 0, 0;
      registered := false;
      consumer := thread;
    }

    /** Append an item; a consumer that has registered is woken, unless it is being woken already. */
    method Write(item: int)
      requires Valid() && count < size
      modifies this`tail, this`count, this`registered, buffer, consumer
      ensures Valid() && Items() == old(Items()) + [item] && !registered
      ensures consumer.wakeup == (if old(registered) && old(consumer.wakeup).None? then Some(this) else old(consumer.wakeup))
    {
      ghost var before := Items();
      buffer[tail] := item;
      tail := (tail + 1) % size;
      count := count + 1;
      Following(head, count - 1, size);
      forall i | 0 <= i < count ensures buffer[..][Slot(head, i, size)] == (before + [item])[i] {
        if i < count - 1 { SlotInjective(head, i, count - 1, size); }
      }
      if registered {
        registered := false;
        if consumer.wakeup.None? {
          consumer.wakeup := Some(this);
        }
      }
    }

    /** Append an item unless the stream is full. */
    method TryWrite(item: int) returns (ok: bool)
      requires Valid()
      modifies this`tail, this`count, this`registered, buffer, consumer
      ensures Valid() && ok == (|old(Items())| != size)
      ensures Items() == (if ok then old(Items()) + [item] else old(Items()))
      ensures registered == (old(registered) && !ok)
      ensures consumer.wakeup == (if ok && old(registered) && old(consumer.wakeup).None? then Some(this) else old(consumer.wakeup))
    {
      if count == size {
        return false;
      }
      Write(item);
      return true;
    }

    /** Take the oldest item. */
    method Read() returns (item: int)
      requires Valid() && count > 0
      modifies this`head, this`count, buffer
      ensures Valid() && old(Items()) == [item] + Items()
    {
      ghost var before, from := Items(), head;
      SlotCases(from, 0, size);
      item := buffer[head];
      buffer[head] := 0;
      head := (head + 1) % size;
      count := count - 1;
      SlotCases(from, 1, size);
      SlotCases(from, count + 1, size);
      SlotCases(head, count, size);
      forall i | 0 <= i < count ensures buffer[..][Slot(head, i, size)] == before[i + 1] {
        SlotCases(head, i, size);
        SlotCases(from, i + 1, size);
        SlotInjective(from, 0, i + 1, size);
      }
    }

    /** The oldest item, if there is one. */
    method Peek() returns (top: Option<int>)
      requires Valid()
      ensures top == (if Items() == [] then None else Some(Items()[0]))
    {
      if count > 0 {
        SlotCases(head, 0, size);
        return Some(buffer[head]);
      }
      return None;
    }
  }

  lemma {:induction false} Following(start: nat, i: nat, size: nat)
    requires start < size && i < size
    ensures (Slot(start, i, size) + 1) % size == Slot(start, i + 1, size)
  {
    SlotCases(start, i, size);
    SlotCases(start, i + 1, size);
    SlotCases(Slot(start, i, size), 1, size);
  }
}
