/** The list under the input manager: a circular buffer that grows by one slot at a time. */
module CircularList {

  /** Position i of a list that starts at `start` in a ring of `size` slots. */
  function Slot(start: nat, i: nat, size: nat): (s: nat)
    requires size > 0
    ensures s < size
  {
    (start + i) % size
  }

  /** Different positions have different slots. */
  lemma {:induction false} SlotInjective(start: nat, i: nat, j: nat, size: nat)
    requires i < j < size && start < size
    ensures Slot(start, i, size) != Slot(start, j, size)
  {
    SlotCases(start, i, size);
    SlotCases(start, j, size);
  }

  lemma {:induction false} SlotCases(start: nat, i: nat, size: nat)
    requires start < size && i <= size
    ensures Slot(start, i, size) == (if start + i < size then start + i else start + i - size)
  {
    if start + i >= size { assert start + i == size * 1 + (start + i - size); }
  }

  /** What a ring holds, in list order. */
  function Unrolled<T>(ring: seq<T>, start: nat, used: nat): (s: seq<T>)
    requires used <= |ring| && (used > 0 ==> |ring| > 0)
    ensures |s| == used
    ensures forall i :: 0 <= i < used ==> s[i] == ring[Slot(start, i, |ring|)]
  {
    if used == 0 then [] else Unrolled(ring, start, used - 1) + [ring[Slot(start, used - 1, |ring|)]]
  }

  /** A full ring, cut at the start. */
  lemma {:induction false} UnrolledFull<T>(ring: seq<T>, start: nat)
    requires start < |ring| || |ring| == start == 0
    ensures Unrolled(ring, start, |ring|) == ring[start..] + ring[..start]
  {
    var s := Unrolled(ring, start, |ring|);
    var t := ring[start..] + ring[..start];
    forall i | 0 <= i < |ring| ensures s[i] == t[i] { SlotCases(start, i, |ring|); }
  }

  class List<T(0)> {
    var values: array<T>
    var size: nat
    var start: nat
    var used: nat

    ghost predicate Valid()
      reads this, values
    {
      && size == values.Length && used <= size
      && (size > 0 ==> start < size) && (size == 0 ==> start == 0)
    }

    ghost function Contents(): (s: seq<T>)
      requires Valid()
      reads this, values
      ensures |s| == used
    {
      Unrolled(values[..], start, used)
    }

    constructor ()
      ensures Valid() && Contents() == [] && fresh(values)
    {
      values, size, start, used := new T[0], 0, 0, 0;
    }

    method Length() returns (n: nat)
      requires Valid()
      ensures n == |Contents()|
    {
      n := used;
    }

    /** Copy what the full ring holds into a larger one, from slot `at` on. */
    method Unroll(larger: array<T>, at: nat)
      requires Valid() && used == size && larger != values && at + size <= larger.Length
      modifies larger
      ensures larger[at..at + size] == Contents()
    {
      hide Unrolled;
      var toEnd := used - start;
      CopyInto(larger, at, values, start, toEnd);
      CopyInto(larger, at + toEnd, values, 0, used - toEnd);
      UnrolledFull(values[..], start);
      assert larger[at..at + size] == values[..][start..] + values[..][..start];
    }

    static method CopyInto(target: array<T>, at: nat, source: array<T>, first: nat, n: nat)
      requires target != source && at + n <= target.Length && first + n <= source.Length
      modifies target
      ensures forall i :: at <= i < at + n ==> target[i] == source[first + (i - at)]
      ensures forall i :: 0 <= i < target.Length && !(at <= i < at + n) ==> target[i] == old(target[i])
    {
      for k := 0 to n
        invariant forall i :: at <= i < at + k ==> target[i] == source[first + (i - at)]
        invariant forall i :: 0 <= i < target.Length && !(at <= i < at + k) ==> target[i] == old(target[i])
      {
        target[at + k] := source[first + k];
      }
    }

    method AppendStart(val: T)
      requires Valid()
      modifies this, values
      ensures Valid() && Contents() == [val] + old(Contents()) && (values == old(values) || fresh(values))
    {
      ghost var before := Contents();
      if used == size {
        GrowFront(before);
      }
      PushFront(val, before);
    }

    /** One slot more, left free at the front: the list starts at the second slot. */
    method GrowFront(ghost before: seq<T>)
      requires Valid() && used == size && before == Contents()
      modifies this
      ensures fresh(values) && size == values.Length == old(size) + 1 && used == old(used) && start == 1
      ensures forall i :: 0 <= i < used ==> values[Slot(start, i, size)] == before[i]
    {
      var larger := new T[size + 1];
      Unroll(larger, 1);
      values := larger;
      size := size + 1;
      start := 1;
      assert values[1..size] == before;
      forall i | 0 <= i < used ensures values[Slot(start, i, size)] == before[i] {
        SlotCases(start, i, size);
        assert values[1..size][i] == before[i];
      }
    }

    /** Step the start back by one slot and fill it. */
    method PushFront(val: T, ghost before: seq<T>)
      requires size == values.Length && used < size && |before| == used
      requires start < size || (start == size == 1)
      requires forall i :: 0 <= i < used ==> values[Slot(start, i, size)] == before[i]
      modifies this, values
      ensures Valid() && values == old(values) && Contents() == [val] + before
    {
      ghost var from := start;
      start := (start + size - 1) % size;
      if from < size { SlotCases(from, size - 1, size); }
      values[start] := val;
      used := used + 1;
      forall i | 0 <= i < used ensures values[..][Slot(start, i, size)] == ([val] + before)[i] {
        SlotCases(start, i, size);
        if i > 0 {
          SlotCases(from, i - 1, size);
          assert Slot(start, i, size) == Slot(from, i - 1, size) != start;
        }
      }
    }

    method AppendEnd(val: T)
      requires Valid()
      modifies this, values
      ensures Valid() && Contents() == old(Contents()) + [val] && (values == old(values) || fresh(values))
    {
      ghost var before := Contents();
      if used == size {
        var larger := new T[size + 1];
        Unroll(larger, 0);
        values := larger;
        size := size + 1;
        start := 0;
        assert values[0..used] == before;
        forall i | 0 <= i < used ensures values[Slot(start, i, size)] == before[i] {
          SlotCases(start, i, size);
          assert values[0..used][i] == before[i];
        }
      }
      PushBack(val, before);
    }

    method PushBack(val: T, ghost before: seq<T>)
      requires Valid() && used < size && |before| == used
      requires forall i :: 0 <= i < used ==> values[Slot(start, i, size)] == before[i]
      modifies this, values
      ensures Valid() && values == old(values) && Contents() == before + [val]
    {
      values[(start + used) % size] := val;
      used := used + 1;
      forall i | 0 <= i < used ensures values[..][Slot(start, i, size)] == (before + [val])[i] {
        if i < used - 1 { SlotInjective(start, i, used - 1, size); }
      }
    }

    method PopStart() returns (val: T)
      requires Valid() && used > 0
      modifies this
      ensures Valid() && values == old(values)
      ensures old(Contents()) == [val] + Contents()
    {
      ghost var before, from := Contents(), start;
      used := used - 1;
      start := (start + 1) % size;
      SlotCases(from, 1, size);
      SlotCases(start, size - 1, size);
      SlotCases(from, 0, size);
      val := values[(start + size - 1) % size];
      forall i | 0 <= i < used ensures Contents()[i] == before[i + 1] {
        SlotCases(start, i, size);
        SlotCases(from, i + 1, size);
      }
    }

    method PopEnd() returns (val: T)
      requires Valid() && used > 0
      modifies this
      ensures Valid() && values == old(values)
      ensures old(Contents()) == Contents() + [val]
    {
      used := used - 1;
      val := values[(start + used) % size];
    }

    method Get(i: nat) returns (val: T)
      requires Valid() && i < used
      ensures val == Contents()[i]
    {
      val := values[(start + i) % size];
    }
  }
}
