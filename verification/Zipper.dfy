/** The fused sync-star as the landing keeps it: a linked list of groups of
    partial synchrocells. All cells of a group wait for the same patterns, so a
    record tests a pattern once, at the first group that still waits for it. */
module Zipper {
  import opened Options
  import opened Records
  import opened Synchrocell
  import opened StarChain
  import opened ZipperSpec

  /** The mask with the bits below width set. A mask is the set of its set bits. */
  function NewMask(width: nat): (mask: set<nat>)
    ensures forall i: nat :: i in mask <==> i < width
  {
    if width == 0 then {} else NewMask(width - 1) + {width - 1}
  }

  /** A synchrocell in progress. `next` leads from group head to group head,
      `same` runs through a group, `tail` of a head is the last of its group. */
  class Matching {
    var next: Matching?
    var same: Matching?
    var tail: Matching?
    var unmatched: set<nat>
    var storage: seq<Option<Record>>

    constructor (width: nat)
      ensures next == null && same == null && tail == null
      ensures unmatched == NewMask(width) && |storage| == width
      ensures View(this) == Fresh(width)
    {
      next, same, tail := null, null, null;
      unmatched := NewMask(width);
      storage := seq(width, _ => None);
    }
  }

  function ViewOf(unmatched: set<nat>, storage: seq<Option<Record>>): (cell: Cell)
    ensures |cell| == |storage|
  {
    seq(|storage|, i requires 0 <= i < |storage| =>
      if i in unmatched then Dummy else if storage[i].None? then Empty else Stored(storage[i].value))
  }

  /** The synchrocell a matching stands for: storage of unmatched patterns is unused. */
  ghost function View(m: Matching): (cell: Cell)
    reads m`unmatched, m`storage
    ensures |cell| == |m.storage|
  {
    ViewOf(m.unmatched, m.storage)
  }

  ghost function Cells(flat: seq<Matching>): (cells: seq<Cell>)
    reads flat`unmatched, flat`storage
    ensures |cells| == |flat|
    ensures forall i :: 0 <= i < |flat| ==> cells[i] == View(flat[i])
  {
    if |flat| == 0 then [] else Cells(flat[..|flat| - 1]) + [View(flat[|flat| - 1])]
  }

  /** The end of the group that starts at i. */
  ghost function End(starts: seq<bool>, i: nat): (e: nat)
    requires i < |starts|
    ensures i < e <= |starts|
    ensures forall j :: i < j < e ==> !starts[j]
    ensures e < |starts| ==> starts[e]
    decreases |starts| - i
  {
    if i + 1 == |starts| || starts[i + 1] then i + 1 else End(starts, i + 1)
  }

  ghost function NodeAt(flat: seq<Matching>, i: nat): Matching? {
    if i < |flat| then flat[i] else null
  }

  lemma {:induction false} EndUnique(starts: seq<bool>, i: nat, e: nat)
    requires i < e <= |starts| && (forall j :: i < j < e ==> !starts[j]) && (e < |starts| ==> starts[e])
    ensures End(starts, i) == e
    decreases |starts| - i
  {
    if i + 1 < e {
      EndUnique(starts, i + 1, e);
    }
  }

  lemma EndSetTrue(starts: seq<bool>, h: nat, g: nat)
    requires h < |starts| && g < |starts|
    ensures End(starts[h := true], g) == (if g < h < End(starts, g) then h else End(starts, g))
  {
    EndUnique(starts[h := true], g, if g < h < End(starts, g) then h else End(starts, g));
  }

  lemma EndSetFalse(starts: seq<bool>, h: nat, g: nat)
    requires h < |starts| && g < |starts|
    ensures End(starts[h := false], g) == (if g < h == End(starts, g) then End(starts, h) else End(starts, g))
  {
    EndUnique(starts[h := false], g, if g < h == End(starts, g) then End(starts, h) else End(starts, g));
  }

  ghost function Removed<T>(s: seq<T>, h: nat): (r: seq<T>)
    requires h < |s|
    ensures |r| == |s| - 1
    ensures forall i :: 0 <= i < |r| ==> r[i] == s[if i < h then i else i + 1]
  {
    s[..h] + s[h + 1..]
  }

  lemma EndRemove(starts: seq<bool>, h: nat, g: nat)
    requires h < |starts| && g < |starts| && g != h && (g < h ==> End(starts, g) <= h)
    requires h + 1 < |starts| ==> starts[h + 1]
    ensures End(Removed(starts, h), if g < h then g else g - 1) ==
      (if g < h then End(starts, g) else End(starts, g) - 1)
  {
    EndUnique(Removed(starts, h), if g < h then g else g - 1, if g < h then End(starts, g) else End(starts, g) - 1);
  }

  lemma EndAppend(starts: seq<bool>, g: nat)
    requires g <= |starts|
    ensures End(starts + [true], g) == (if g < |starts| then End(starts, g) else |starts| + 1)
  {
    EndUnique(starts + [true], g, if g < |starts| then End(starts, g) else |starts| + 1);
  }

  /** The pointers of one node. starts[i] says that flat[i] heads a group. */
  ghost predicate NodeOk(flat: seq<Matching>, starts: seq<bool>, i: nat)
    requires i < |flat| == |starts|
    reads flat`next, flat`same, flat`tail
  {
    && flat[i].next == (if starts[i] then NodeAt(flat, End(starts, i)) else null)
    && flat[i].same == (if i + 1 < |flat| && !starts[i + 1] then flat[i + 1] else null)
    && (starts[i] ==> TailOk(flat, starts, i))
  }

  ghost predicate Distinct(flat: seq<Matching>) {
    forall i, j :: 0 <= i < j < |flat| ==> flat[i] != flat[j]
  }

  lemma DistinctRemoved(flat: seq<Matching>, h: nat)
    requires h < |flat| && Distinct(flat)
    ensures Distinct(Removed(flat, h))
  {
  }

  /** The pointers of the list. */
  ghost predicate Shape(flat: seq<Matching>, starts: seq<bool>)
    reads flat`next, flat`same, flat`tail
  {
    && |flat| == |starts|
    && (|flat| > 0 ==> starts[0])
    && Distinct(flat)
    && (forall i :: 0 <= i < |flat| ==> NodeOk(flat, starts, i))
  }

  /** The tail of a head: the last of its group; a group of one may also have none. */
  ghost predicate TailOk(flat: seq<Matching>, starts: seq<bool>, i: nat)
    requires i < |flat| == |starts|
    reads flat`next, flat`same, flat`tail
  {
    flat[i].tail == flat[End(starts, i) - 1] || (End(starts, i) == i + 1 && flat[i].tail == null)
  }

  lemma PassFreshEmpty(node: SyncStar, rec: Record)
    requires node.NoSpin() && !node.Exits(rec)
    ensures node.AllWaiting([Fresh(|node.sync|)])
    ensures Alike(Pass(node, [], 0, rec, false), Pass(node, [Fresh(|node.sync|)], 0, rec, false))
  {
    PassFresh(node, [], 0, rec, false);
    assert [] + [Fresh(|node.sync|)] == [Fresh(|node.sync|)];
  }

  lemma EmptyShape()
    ensures Shape([], [])
  {
  }

  lemma NextOf(flat: seq<Matching>, starts: seq<bool>, q: nat)
    requires Shape(flat, starts) && q < |flat| && starts[q]
    ensures flat[q].next == NodeAt(flat, End(starts, q))
  {
    assert NodeOk(flat, starts, q);
  }

  /** Once the previous head skips a group of one, the rest is a list again. */
  lemma ShapeRemoved(flat: seq<Matching>, starts: seq<bool>, p: nat, h: nat)
    requires |flat| == |starts| && p <= h < |flat| && starts[0] && starts[p] && starts[h] && End(starts, h) == h + 1
    requires Distinct(flat)
    requires forall i :: 0 <= i < |flat| && i != p ==> NodeOk(flat, starts, i)
    requires (if p == h then h == 0 else
      && End(starts, p) == h && flat[p].next == NodeAt(flat, h + 1) && TailOk(flat, starts, p)
      && flat[p].same == (if !starts[p + 1] then flat[p + 1] else null))
    ensures Shape(Removed(flat, h), Removed(starts, h))
  {
    hide End, Removed, Distinct;
    DistinctRemoved(flat, h);
    var flat', starts' := Removed(flat, h), Removed(starts, h);
    forall i | 0 <= i < |flat'| ensures NodeOk(flat', starts', i) {
      var g := if i < h then i else i + 1;
      EndRemove(starts, h, g);
      if g != p {
        assert NodeOk(flat, starts, g);
      }
    }
  }

  /** A new node behind the last group, which already leads to it. */
  lemma ShapeExtended(flat: seq<Matching>, starts: seq<bool>, m: Matching, p: nat)
    requires |flat| == |starts| && Distinct(flat) && m !in flat
    requires m.next == null && m.same == null && m.tail == null
    requires (if flat == [] then true else
      && p < |flat| && starts[0] && starts[p] && End(starts, p) == |flat| && flat[p].next == m && TailOk(flat, starts, p)
      && flat[p].same == (if p + 1 < |flat| && !starts[p + 1] then flat[p + 1] else null)
      && forall i :: 0 <= i < |flat| && i != p ==> NodeOk(flat, starts, i))
    ensures Shape(flat + [m], starts + [true])
  {
    hide End;
    forall i | 0 <= i <= |flat| ensures NodeOk(flat + [m], starts + [true], i) {
      if i < |flat| && i != p {
        assert NodeOk(flat, starts, i);
      }
      EndAppend(starts, i);
    }
  }

  lemma MasksExtended(flat: seq<Matching>, starts: seq<bool>, m: Matching, width: nat)
    requires |flat| == |starts| && (|flat| > 0 ==> starts[0]) && Masks(flat, starts, width, -1)
    requires m.unmatched == NewMask(width) && |m.storage| == width
    ensures Masks(flat + [m], starts + [true], width, -1)
    ensures Cells(flat + [m]) == Cells(flat) + [View(m)]
  {
    assert (flat + [m])[..|flat|] == flat;
  }

  /** The members of a group wait for the same patterns; `but` exempts one cell. */
  ghost predicate Masks(flat: seq<Matching>, starts: seq<bool>, width: nat, but: int)
    requires |flat| == |starts| && (|flat| > 0 ==> starts[0])
    reads flat`unmatched, flat`storage
  {
    && (forall i :: 0 <= i < |flat| ==> |flat[i].storage| == width && forall k :: k in flat[i].unmatched ==> k < width)
    && (forall i :: 0 < i < |flat| && !starts[i] && i != but ==> flat[i].unmatched == flat[i - 1].unmatched)
  }

  /** What storage slot j holds once patterns before i have been tested. */
  ghost function SlotStorage(rules: seq<Rule>, cell: Cell, slots: seq<Option<Record>>, rec: Record, i: nat, j: nat): Option<Record>
    requires |cell| == |rules| == |slots| && j < |rules|
  {
    if j < i && TakesAt(rules, cell, rec, j) then
      if TakesBefore(rules, cell, rec, j) then None else Some(rec.(detref := []))
    else slots[j]
  }

  /** The state of the pattern test: patterns before i have been tested. */
  ghost predicate Tested(rules: seq<Rule>, mask: set<nat>, slots: seq<Option<Record>>, rec: Record,
                         i: nat, unmatched: set<nat>, storage: seq<Option<Record>>, newMatches: nat)
    requires |slots| == |rules| && i <= |rules|
  {
    var cell := ViewOf(mask, slots);
    && |storage| == |rules|
    && (forall j: nat :: j in unmatched <==> j in mask && !(j < i && TakesAt(rules, cell, rec, j)))
    && (forall j :: 0 <= j < |rules| ==> storage[j] == SlotStorage(rules, cell, slots, rec, i, j))
    && newMatches == NumTaken(rules, cell, rec, i)
  }

  lemma TestedNone(rules: seq<Rule>, mask: set<nat>, slots: seq<Option<Record>>, rec: Record)
    requires |slots| == |rules|
    ensures Tested(rules, mask, slots, rec, 0, mask, slots, 0)
  {
  }

  /** One more pattern tested, with its outcome. */
  lemma TestedStep(rules: seq<Rule>, mask: set<nat>, slots: seq<Option<Record>>, rec: Record,
                   i: nat, unmatched: set<nat>, storage: seq<Option<Record>>, newMatches: nat)
    requires |slots| == |rules| && i < |rules|
    requires Tested(rules, mask, slots, rec, i, unmatched, storage, newMatches)
    ensures |storage| == |rules| && (i in unmatched <==> i in mask)
    ensures i in mask && Accepts(rules[i], rec) ==>
      Tested(rules, mask, slots, rec, i + 1, unmatched - {i},
             storage[i := if newMatches == 0 then Some(rec.(detref := [])) else None], newMatches + 1)
    ensures !(i in mask && Accepts(rules[i], rec)) ==>
      Tested(rules, mask, slots, rec, i + 1, unmatched, storage, newMatches)
  {
    NumTakenPositive(rules, ViewOf(mask, slots), rec, i);
    assert TakesAt(rules, ViewOf(mask, slots), rec, i) <==> i in mask && Accepts(rules[i], rec);
  }

  /** With nothing left unmatched the remaining patterns need no test. */
  lemma {:induction false} TestedAll(rules: seq<Rule>, mask: set<nat>, slots: seq<Option<Record>>, rec: Record,
                  i: nat, unmatched: set<nat>, storage: seq<Option<Record>>, newMatches: nat)
    requires |slots| == |rules| && i <= |rules| && unmatched == {}
    requires Tested(rules, mask, slots, rec, i, unmatched, storage, newMatches)
    ensures Tested(rules, mask, slots, rec, |rules|, unmatched, storage, newMatches)
    decreases |rules| - i
  {
    if i < |rules| {
      assert i !in unmatched;
      TestedAll(rules, mask, slots, rec, i + 1, unmatched, storage, newMatches);
    }
  }

  /** What the finished test leaves is the filled cell. */
  lemma TestedFill(rules: seq<Rule>, mask: set<nat>, slots: seq<Option<Record>>, rec: Record,
                   unmatched: set<nat>, storage: seq<Option<Record>>, newMatches: nat)
    requires |slots| == |rules|
    requires Tested(rules, mask, slots, rec, |rules|, unmatched, storage, newMatches)
    ensures ViewOf(unmatched, storage) == Fill(rules, ViewOf(mask, slots), rec)
    ensures newMatches > 0 <==> Takes(rules, ViewOf(mask, slots), rec)
    ensures newMatches == 0 ==> forall j: nat :: j in mask && j < |rules| ==> !Accepts(rules[j], rec)
    ensures newMatches == 0 ==> unmatched == mask
  {
    var cell := ViewOf(mask, slots);
    NumTakenPositive(rules, cell, rec, |rules|);
    forall j: nat | newMatches == 0 && j in mask && j < |rules| ensures !Accepts(rules[j], rec) {
      assert !TakesAt(rules, cell, rec, j);
    }
    if newMatches == 0 {
      forall j: nat ensures j in unmatched <==> j in mask {
        if j < |rules| {
          assert !TakesAt(rules, cell, rec, j);
        }
      }
    }
  }

  lemma MasksSplit(flat: seq<Matching>, was: seq<bool>, starts: seq<bool>, width: nat, h: nat)
    requires |flat| == |was| && h < |flat| && was[0] && Masks(flat, was, width, h + 1)
    requires starts == (if h + 1 < |flat| then was[h + 1 := true] else was)
    ensures Masks(flat, starts, width, -1)
  {
  }

  lemma MasksJoin(flat: seq<Matching>, starts: seq<bool>, width: nat, h: nat)
    requires |flat| == |starts| && 0 < h < |flat| && starts[0] && Masks(flat, starts[h := true], width, -1)
    requires flat[h].unmatched == flat[h - 1].unmatched
    ensures Masks(flat, starts, width, -1)
  {
  }

  /** Whether a cell takes a record depends on its unmatched patterns only. */
  lemma TakesByMask(rules: seq<Rule>, a: Matching, b: Matching, rec: Record)
    requires |a.storage| == |b.storage| == |rules| && a.unmatched == b.unmatched
    ensures Takes(rules, View(a), rec) <==> Takes(rules, View(b), rec)
  {
    forall i: nat | i < |rules| ensures TakesAt(rules, View(a), rec, i) <==> TakesAt(rules, View(b), rec, i) {
    }
  }

  lemma {:induction false} GroupMask(flat: seq<Matching>, starts: seq<bool>, width: nat, h: nat, j: nat)
    requires |flat| == |starts| && (|flat| > 0 ==> starts[0]) && Masks(flat, starts, width, -1)
    requires h <= j < |flat| && (forall k :: h < k <= j ==> !starts[k])
    ensures flat[j].unmatched == flat[h].unmatched
    decreases j
  {
    if h < j {
      GroupMask(flat, starts, width, h, j - 1);
    }
  }

  /** A record that no cell from h to e takes passes them. */
  lemma {:induction false} PassGroup(node: SyncStar, cells: seq<Cell>, h: nat, e: nat, rec: Record)
    requires node.NoSpin() && node.AllWaiting(cells) && h <= e <= |cells| && !node.Exits(rec)
    requires forall j :: h <= j < e ==> !Takes(node.sync, cells[j], rec)
    ensures Pass(node, cells, h, rec, false) == Pass(node, cells, e, rec, false)
    decreases e - h
  {
    hide Fill, Complete, Merge, Accepts, MatchesAny, SyncStar.NoSpin;
    if h < e {
      PassGroup(node, cells, h + 1, e, rec);
    }
  }

  /** A record that no pattern accepts changes nothing. */
  lemma {:induction false} PassNobody(node: SyncStar, cells: seq<Cell>, h: nat, rec: Record)
    requires node.NoSpin() && node.AllWaiting(cells) && h <= |cells| && !node.Exits(rec)
    requires forall i :: 0 <= i < |node.sync| ==> !Accepts(node.sync[i], rec)
    ensures Pass(node, cells, h, rec, false) == Outcome(cells, [])
    decreases |cells| - h
  {
    hide Takes, Fill, Complete, Merge, Accepts, MatchesAny, SyncStar.NoSpin;
    if h < |cells| {
      TakesNone(node, cells[h], rec);
      PassNobody(node, cells, h + 1, rec);
    } else {
      TakesNone(node, Fresh(|node.sync|), rec);
    }
  }

  lemma TakesNone(node: SyncStar, cell: Cell, rec: Record)
    requires |cell| == |node.sync| && forall i :: 0 <= i < |node.sync| ==> !Accepts(node.sync[i], rec)
    ensures !Takes(node.sync, cell, rec)
  {
    hide Accepts;
  }

  lemma CompleteMask(m: Matching)
    requires forall i :: i in m.unmatched ==> i < |m.storage|
    ensures m.unmatched == {} <==> Complete(View(m))
  {
    if m.unmatched != {} {
      var i :| i in m.unmatched;
      assert View(m)[i].Dummy?;
    }
  }

  lemma FillNothing(rules: seq<Rule>, cell: Cell, rec: Record)
    requires |cell| == |rules| && !Takes(rules, cell, rec)
    ensures Fill(rules, cell, rec) == cell
  {
  }

  /** A head none of whose patterns is still untested does not take the record. */
  lemma RejectedHead(node: SyncStar, flat: seq<Matching>, starts: seq<bool>, h: nat, untested: set<nat>, rec: Record)
    requires |flat| == |starts| && h < |flat| && starts[0] && Masks(flat, starts, |node.sync|, -1)
    requires untested * flat[h].unmatched == {}
    requires forall i: nat :: i < |node.sync| && i !in untested ==> !Accepts(node.sync[i], rec)
    ensures |Cells(flat)[h]| == |node.sync| && !Takes(node.sync, Cells(flat)[h], rec)
    ensures untested == untested - flat[h].unmatched
  {
    forall i: nat | i < |node.sync| ensures !TakesAt(node.sync, Cells(flat)[h], rec, i) {
      assert i !in untested * flat[h].unmatched;
    }
    assert forall i :: i in untested ==> i !in flat[h].unmatched by {
      forall i | i in untested ensures i !in flat[h].unmatched {
        assert i !in untested * flat[h].unmatched;
      }
    }
  }

  /** What the head of a group does not take, no member of the group takes. */
  lemma RejectedGroup(node: SyncStar, flat: seq<Matching>, starts: seq<bool>, h: nat, rec: Record)
    requires |flat| == |starts| && h < |flat| && starts[0] && Masks(flat, starts, |node.sync|, -1)
    requires |Cells(flat)[h]| == |node.sync| && !Takes(node.sync, Cells(flat)[h], rec)
    ensures forall j :: h <= j < End(starts, h) ==>
      |Cells(flat)[j]| == |node.sync| && !Takes(node.sync, Cells(flat)[j], rec)
  {
    hide View, Takes;
    forall j | h <= j < End(starts, h)
      ensures |Cells(flat)[j]| == |node.sync| && !Takes(node.sync, Cells(flat)[j], rec)
    {
      GroupMask(flat, starts, |node.sync|, h, j);
      TakesByMask(node.sync, flat[h], flat[j], rec);
    }
  }

  lemma StoredView(m: Matching)
    requires |m.storage| > 0 && View(m)[0].Stored?
    ensures m.storage[0].Some?
  {
  }

  lemma CellsRemoved(flat: seq<Matching>, h: nat)
    requires h < |flat|
    ensures Cells(Removed(flat, h)) == Without(Cells(flat), h)
  {
    hide Cells, View, Removed;
    forall i | 0 <= i < |flat| - 1 ensures Cells(Removed(flat, h))[i] == Without(Cells(flat), h)[i] {
      assert Removed(flat, h)[i] == flat[if i < h then i else i + 1];
    }
  }

  lemma WithoutSame(a: seq<Cell>, b: seq<Cell>, h: nat)
    requires |a| == |b| && h < |a| && forall i :: 0 <= i < |a| && i != h ==> a[i] == b[i]
    ensures Without(a, h) == Without(b, h)
  {
  }

  lemma MasksRemoved(flat: seq<Matching>, starts: seq<bool>, width: nat, h: nat)
    requires |flat| == |starts| && h < |flat| && starts[0] && starts[h] && (h + 1 < |flat| ==> starts[h + 1])
    requires Masks(flat, starts, width, -1)
    ensures Masks(Removed(flat, h), Removed(starts, h), width, -1)
  {
  }

  class ZipperLanding {
    const node: SyncStar
    var head: Matching?
    ghost var flat: seq<Matching>
    ghost var starts: seq<bool>

    constructor (node: SyncStar)
      requires node.NoSpin()
      ensures Valid() && this.node == node && Cells(flat) == []
    {
      this.node := node;
      head, flat, starts := null, [], [];
    }

    ghost predicate Valid()
      reads this, flat
    {
      && node.NoSpin()
      && Shape(flat, starts) && Masks(flat, starts, |node.sync|, -1)
      && head == NodeAt(flat, 0)
      && node.AllWaiting(Cells(flat))
    }

    /** Split the first matching off its group: the rest becomes a group of its own. */
    method SplitOff(match_: Matching, ghost h: nat)
      requires Shape(flat, starts) && h < |flat| && flat[h] == match_ && starts[h]
      modifies this`starts, flat`next, flat`same, flat`tail
      ensures Shape(flat, starts) && End(starts, h) == h + 1
      ensures starts == (if h + 1 < |flat| then old(starts)[h + 1 := true] else old(starts))
    {
      hide End;
      ghost var was := starts;
      assert NodeOk(flat, starts, h);
      if match_.same != null {
        assert NodeOk(flat, starts, h + 1);
        match_.same.next := match_.next;
        match_.next := match_.same;
        match_.same.tail := match_.tail;
        match_.same, match_.tail := null, null;
        starts := starts[h + 1 := true];
        EndSetTrue(was, h + 1, h);
        forall i | 0 <= i < |flat| ensures NodeOk(flat, starts, i) {
          assert old(NodeOk(flat, was, i));
          EndSetTrue(was, h + 1, i);
        }
      } else if h + 1 < |flat| {
        assert starts[h + 1 := true] == starts;
      }
    }

    /** Append a group of one to the previous group, which waits for the same patterns. */
    method Join(prev: Matching, match_: Matching, ghost p: nat, ghost h: nat)
      requires Shape(flat, starts) && p < h < |flat| && flat[p] == prev && flat[h] == match_
      requires starts[p] && starts[h] && End(starts, p) == h && End(starts, h) == h + 1
      modifies this`starts, flat`next, flat`same, flat`tail
      ensures Shape(flat, starts) && starts == old(starts)[h := false]
    {
      hide End;
      ghost var was := starts;
      assert NodeOk(flat, starts, p) && NodeOk(flat, starts, h) && NodeOk(flat, starts, h - 1);
      prev.next := match_.next;
      match_.next := null;
      if prev.tail != null {
        prev.tail.same := match_;
        prev.tail := match_;
      } else {
        prev.same, prev.tail := match_, match_;
      }
      starts := starts[h := false];
      forall i | 0 <= i < |flat| ensures NodeOk(flat, starts, i) {
        assert old(NodeOk(flat, was, i));
        EndSetFalse(was, h, i);
        if i != p && i != h {
          assert flat[i].next == old(flat[i].next) && flat[i].tail == old(flat[i].tail);
          assert was[i] ==> End(was, i) != h;
          assert i != h - 1 ==> flat[i].same == old(flat[i].same);
        }
      }
    }

    /** Unlink a group of one. */
    method Unlink(prev: Matching?, match_: Matching, ghost p: nat, ghost h: nat)
      requires Shape(flat, starts) && h < |flat| && flat[h] == match_ && head == NodeAt(flat, 0)
      requires starts[h] && End(starts, h) == h + 1
      requires (if prev == null then h == 0 else p < h && flat[p] == prev && starts[p] && End(starts, p) == h)
      modifies this, flat`next
      ensures flat == Removed(old(flat), h) && starts == Removed(old(starts), h)
      ensures Shape(flat, starts) && head == NodeAt(flat, 0)
    {
      assert NodeOk(flat, starts, h);
      if prev != null {
        assert NodeOk(flat, starts, p);
        prev.next := match_.next;
      } else {
        head := match_.next;
      }
      forall i | 0 <= i < |flat| && (prev == null || i != p) ensures NodeOk(flat, starts, i) {
        assert old(NodeOk(flat, starts, i));
      }
      ShapeRemoved(flat, starts, if prev == null then h else p, h);
      flat := Removed(flat, h);
      starts := Removed(starts, h);
    }

    /** Append a fresh matching behind the last group. */
    method Extend(prev: Matching?, ghost p: nat) returns (match_: Matching)
      requires Shape(flat, starts) && Masks(flat, starts, |node.sync|, -1)
      requires (if prev == null then flat == [] else
        head == NodeAt(flat, 0) && p < |flat| && flat[p] == prev && starts[p] && End(starts, p) == |flat|)
      modifies this, flat`next
      ensures fresh(match_) && flat == old(flat) + [match_] && starts == old(starts) + [true]
      ensures Shape(flat, starts) && head == NodeAt(flat, 0)
      ensures View(match_) == Fresh(|node.sync|) && match_.unmatched == NewMask(|node.sync|)
      ensures Masks(flat, starts, |node.sync|, -1) && Cells(flat) == old(Cells(flat)) + [Fresh(|node.sync|)]
    {
      hide End, View, Fresh, Masks, Cells;
      match_ := new Matching(|node.sync|);
      if prev != null {
        prev.next := match_;
      } else {
        head := match_;
      }
      forall i | 0 <= i < |flat| && i != p ensures NodeOk(flat, starts, i) {
        assert old(NodeOk(flat, starts, i));
      }
      assert prev != null ==> old(NodeOk(flat, starts, p));
      ShapeExtended(flat, starts, match_, p);
      MasksExtended(flat, starts, match_, |node.sync|);
      flat := flat + [match_];
      starts := starts + [true];
    }

    /** Test the record against the patterns that the matching waits for and that
        have not been tested yet; store it where it matches. */
    method TestPatterns(match_: Matching, untested: set<nat>, rec: Record) returns (rest: set<nat>, newMatches: nat)
      requires |match_.storage| == |node.sync| && forall i :: i in match_.unmatched ==> i < |node.sync|
      requires forall i: nat :: i < |node.sync| && i !in untested ==> !Accepts(node.sync[i], rec)
      modifies match_`unmatched, match_`storage
      ensures View(match_) == Fill(node.sync, old(View(match_)), rec)
      ensures newMatches > 0 <==> Takes(node.sync, old(View(match_)), rec)
      ensures forall i :: 0 <= i < |node.sync| ==>
        (View(match_)[i] != old(View(match_))[i] <==>
          old(View(match_))[i].Dummy? && node.sync[i].pattern.fields <= rec.fields.Keys && node.sync[i].pattern.tags <= rec.tags.Keys &&
          node.sync[i].pattern.btags <= rec.btags.Keys && node.sync[i].guard(rec.(detref := [])))
      ensures match_.unmatched <= old(match_.unmatched)
      ensures newMatches == 0 ==> rest == untested - old(match_.unmatched) && match_.unmatched == old(match_.unmatched)
      ensures newMatches == 0 ==> forall i: nat :: i < |node.sync| && i !in rest ==> !Accepts(node.sync[i], rec)
    {
      hide Tested;
      ghost var mask, slots := match_.unmatched, match_.storage;
      assert Tested(node.sync, mask, slots, rec, 0, mask, slots, 0) by {
        TestedNone(node.sync, mask, slots, rec);
      }
      rest, newMatches := untested, 0;
      for i := 0 to |node.sync|
        invariant Tested(node.sync, mask, slots, rec, i, match_.unmatched, match_.storage, newMatches)
        invariant match_.unmatched <= mask
        invariant forall j: nat :: j in rest <==> j in untested && !(j < i && j in mask)
      {
        TestedStep(node.sync, mask, slots, rec, i, match_.unmatched, match_.storage, newMatches);
        if i in rest && i in match_.unmatched {
          rest := rest - {i};
          if PatternMatches(node.sync[i].pattern, rec) && node.sync[i].guard(rec.(detref := [])) {
            newMatches := newMatches + 1;
            match_.storage := match_.storage[i := if newMatches == 1 then Some(rec.(detref := [])) else None];
            match_.unmatched := match_.unmatched - {i};
            if match_.unmatched == {} {
              TestedAll(node.sync, mask, slots, rec, i + 1, match_.unmatched, match_.storage, newMatches);
              break;
            }
          }
        }
      }
      TestedFill(node.sync, mask, slots, rec, match_.unmatched, match_.storage, newMatches);
      forall i | 0 <= i < |node.sync| ensures View(match_)[i] == Fill(node.sync, old(View(match_)), rec)[i] {
        FillMeans(node.sync, old(View(match_)), rec, i);
      }
    }

    /** Merge the other stored records of a complete matching into the first one. */
    method MergeFromStorage(match_: Matching, rec: Record) returns (result: Record)
      requires |match_.storage| == |node.sync| > 0 && match_.unmatched == {} && match_.storage[0].Some?
      modifies match_`storage
      ensures |match_.storage| == |node.sync|
      ensures old(View(match_))[0].Stored? && result == Merge(node.sync, old(View(match_)), rec.detref)
    {
      ghost var cell := View(match_);
      result := match_.storage[0].value;
      match_.storage := match_.storage[0 := None];
      for i := 0 to |node.sync|
        invariant |match_.storage| == |node.sync|
        invariant forall j :: i <= j < |node.sync| && j > 0 ==> match_.storage[j] == old(match_.storage)[j]
        invariant i == 0 ==> match_.storage[0].None? && result == cell[0].rec
        invariant i > 0 ==> result == MergeUpTo(node.sync, cell, cell[0].rec, i)
      {
        if match_.storage[i].Some? {
          result := MergeOne(result, node.sync[i].pattern, match_.storage[i].value);
          match_.storage := match_.storage[i := None];
        }
      }
      result := result.(detref := rec.detref);
    }

    /** Go on behind the group of cur; behind the last one a fresh matching is made.
        Without a group to go on from, the list starts again with a fresh matching. */
    method Next(cur: Matching?, ghost q: nat) returns (match_: Matching, ghost atEnd: bool)
      requires Valid()
      requires cur != null ==> q < |flat| && flat[q] == cur && starts[q]
      modifies this, flat
      ensures Valid() && |flat| == |starts| && atEnd == (cur == null || old(End(starts, q)) == |old(flat)|)
      ensures cur == null ==> fresh(match_) && flat == [match_] && starts[0]
      ensures cur != null ==> flat == (if atEnd then old(flat) + [match_] else old(flat))
      ensures cur != null ==> var h := old(End(starts, q));
        q < h < |flat| && flat[h] == match_ && starts[h] && starts[q] && End(starts, q) == h
      ensures atEnd ==> fresh(match_) && View(match_) == Fresh(|node.sync|) && match_.unmatched == NewMask(|node.sync|)
      ensures Cells(flat) == (if cur == null then [Fresh(|node.sync|)]
        else if atEnd then old(Cells(flat)) + [Fresh(|node.sync|)] else old(Cells(flat)))
    {
      hide End, NodeOk, Distinct, Sound, Matched, Complete, MatchesAny, Accepts;
      FreshIsSound(node.sync);
      atEnd := cur == null || End(starts, q) == |flat|;
      if cur == null {
        flat, starts := [], [];
        EmptyShape();
        assert Cells(flat) == [];
        match_ := Extend(null, 0);
      } else {
        NextOf(flat, starts, q);
        EndAppend(starts, q);
        if cur.next == null {
          match_ := Extend(cur, q);
        } else {
          match_ := cur.next;
        }
      }
    }

    /** The head at h has taken a record: its group is split, and when it still waits
        for patterns it joins the previous group if that waits for the same ones. */
    method Regroup(prev: Matching?, match_: Matching, ghost p: nat, ghost h: nat)
      requires Shape(flat, starts) && h < |flat| && flat[h] == match_ && starts[h]
      requires Masks(flat, starts, |node.sync|, h + 1)
      requires (if prev == null then h == 0 else p < h && flat[p] == prev && starts[p] && End(starts, p) == h)
      modifies this`starts, flat`next, flat`same, flat`tail
      ensures Shape(flat, starts) && Masks(flat, starts, |node.sync|, -1)
      ensures match_.unmatched == {} ==> starts[h] && End(starts, h) == h + 1
      ensures match_.unmatched == {} && prev != null ==> starts[p] && End(starts, p) == h
    {
      hide End, NodeOk, Distinct, Masks, View, Cells;
      ghost var was := starts;
      SplitOff(match_, h);
      MasksSplit(flat, was, starts, |node.sync|, h);
      if prev != null {
        if h + 1 < |was| {
          EndSetTrue(was, h + 1, p);
        }
        if match_.unmatched != {} && prev.unmatched == match_.unmatched {
          GroupMask(flat, starts, |node.sync|, p, h - 1);
          ghost var split := starts;
          Join(prev, match_, p, h);
          assert starts[h := true] == split;
          MasksJoin(flat, starts, |node.sync|, h);
        }
      }
    }

    /** The loop's cursor: match_ heads the group at h, prev heads the one before. */
    ghost predicate Cursor(prev: Matching?, match_: Matching, p: nat, h: nat)
      reads this
    {
      && |flat| == |starts| && h < |flat| && flat[h] == match_ && starts[h]
      && if prev == null then h == 0 else p < h && flat[p] == prev && starts[p] && End(starts, p) == h
    }

    /** Nothing outside the untested patterns accepts the record. */
    ghost predicate Rejected(untested: set<nat>, rec: Record) {
      forall i: nat :: i < |node.sync| && i !in untested ==> !Accepts(node.sync[i], rec)
    }

    /** TestPatterns, seen from the list. */
    method TestHead(match_: Matching, ghost h: nat, untested: set<nat>, rec: Record)
      returns (rest: set<nat>, newMatches: nat)
      requires Shape(flat, starts) && Masks(flat, starts, |node.sync|, -1)
      requires h < |flat| && flat[h] == match_ && starts[h] && Rejected(untested, rec)
      modifies match_`unmatched, match_`storage
      ensures Masks(flat, starts, |node.sync|, if newMatches > 0 then h + 1 else -1) && |match_.storage| == |node.sync|
      ensures |Cells(flat)[h]| == |node.sync| == |old(Cells(flat))[h]|
      ensures Cells(flat) == old(Cells(flat))[h := Fill(node.sync, old(Cells(flat))[h], rec)]
      ensures newMatches > 0 <==> Takes(node.sync, old(Cells(flat))[h], rec)
      ensures newMatches == 0 ==> Rejected(rest, rec) && rest == untested - match_.unmatched
      ensures newMatches == 0 ==> match_.unmatched == old(match_.unmatched) && Cells(flat) == old(Cells(flat))
      ensures match_.unmatched == {} <==> Complete(Cells(flat)[h])
    {
      hide End, NodeOk, Fill, Takes, Complete, View;
      assert |View(match_)| == |node.sync|;
      rest, newMatches := TestPatterns(match_, untested, rec);
      CompleteMask(match_);
      if newMatches == 0 {
        FillNothing(node.sync, old(Cells(flat))[h], rec);
      }
    }

    /** Offer the record to the group at the cursor. */
    method Offer(prev: Matching?, match_: Matching, ghost p: nat, ghost h: nat, untested: set<nat>, rec: Record)
      returns (rest: set<nat>, newMatches: nat)
      requires Valid() && Cursor(prev, match_, p, h) && Rejected(untested, rec)
      modifies this`starts, flat
      ensures |flat| == |starts|
      ensures newMatches == 0 ==>
        && Valid() && Cursor(prev, match_, p, h) && Rejected(rest, rec) && rest == untested - match_.unmatched
        && starts == old(starts) && Cells(flat) == old(Cells(flat)) && match_.unmatched == old(match_.unmatched)
        && (forall j :: h <= j < End(starts, h) ==> !Takes(node.sync, Cells(flat)[j], rec))
      ensures newMatches > 0 ==>
        && Takes(node.sync, old(Cells(flat))[h], rec)
        && Cells(flat) == old(Cells(flat))[h := Fill(node.sync, old(Cells(flat))[h], rec)]
        && |match_.storage| == |node.sync| && Shape(flat, starts) && Masks(flat, starts, |node.sync|, -1)
        && node.AllWaiting(old(Cells(flat)))
        && (match_.unmatched == {} <==> Complete(Fill(node.sync, old(Cells(flat))[h], rec)))
        && (match_.unmatched != {} ==> Valid())
        && (match_.unmatched == {} ==> Cursor(prev, match_, p, h) && End(starts, h) == h + 1)
    {
      hide End, NodeOk, Distinct, Fill, Takes, Complete, View, Masks, Cells;
      ghost var cells := Cells(flat);
      rest, newMatches := untested, 0;
      if untested * match_.unmatched != {} {
        rest, newMatches := TestHead(match_, h, untested, rec);
      } else {
        RejectedHead(node, flat, starts, h, untested, rec);
      }
      if newMatches == 0 {
        RejectedGroup(node, flat, starts, h, rec);
      } else {
        assert node.Waiting(cells[h]);
        FillKeepsSound(node.sync, cells[h], rec);
        Regroup(prev, match_, p, h);
      }
    }
    /** MergeFromStorage, seen from the list. */
    method MergeHead(match_: Matching, ghost h: nat, rec: Record) returns (merged: Record)
      requires Shape(flat, starts) && Masks(flat, starts, |node.sync|, -1)
      requires h < |flat| && flat[h] == match_ && |node.sync| > 0
      requires match_.unmatched == {} && Sound(Cells(flat)[h])
      modifies match_`storage
      ensures Masks(flat, starts, |node.sync|, -1)
      ensures |old(Cells(flat))[h]| == |node.sync| && old(Cells(flat))[h][0].Stored?
      ensures merged == Merge(node.sync, old(Cells(flat))[h], rec.detref)
      ensures forall i :: 0 <= i < |flat| && i != h ==> Cells(flat)[i] == old(Cells(flat))[i]
    {
      hide End, NodeOk, MergeUpTo, Cells, View, Complete;
      CompleteMask(match_);
      CompleteHasFirst(View(match_));
      StoredView(match_);
      merged := MergeFromStorage(match_, rec);
    }

    /** A complete matching fires: its records are merged and it leaves the list. */
    method Fire(prev: Matching?, match_: Matching, ghost p: nat, ghost h: nat, rec: Record) returns (merged: Record)
      requires Shape(flat, starts) && Masks(flat, starts, |node.sync|, -1) && head == NodeAt(flat, 0)
      requires Cursor(prev, match_, p, h) && End(starts, h) == h + 1
      requires |node.sync| > 0 && match_.unmatched == {} && Sound(Cells(flat)[h])
      modifies this, flat
      ensures |old(Cells(flat))[h]| == |node.sync| && old(Cells(flat))[h][0].Stored?
      ensures merged == Merge(node.sync, old(Cells(flat))[h], rec.detref)
      ensures Shape(flat, starts) && Masks(flat, starts, |node.sync|, -1) && head == NodeAt(flat, 0)
      ensures Cells(flat) == Without(old(Cells(flat)), h) && flat == Removed(old(flat), h) && |flat| == |starts|
      ensures prev != null ==> p < h && p < |flat| && flat[p] == prev && starts[p] && End(starts, p) == h
    {
      hide End, NodeOk, Distinct, MergeUpTo, Masks, Cells, View, Without, Removed, Sound;
      merged := MergeHead(match_, h, rec);
      ghost var list, was := flat, starts;
      WithoutSame(old(Cells(flat)), Cells(flat), h);
      MasksRemoved(list, was, |node.sync|, h);
      CellsRemoved(list, h);
      Unlink(prev, match_, p, h);
      if prev != null {
        EndRemove(was, h, p);
      }
    }

    /** One round of the loop at the cursor: the record is stored, or leaves merged,
        or goes on behind the group of cur (from an empty list if there is none). */
    method Visit(prev: Matching?, match_: Matching, ghost p: nat, ghost h: nat, untested: set<nat>, input: Record,
                 ghost target: Outcome)
      returns (rest: set<nat>, rec: Record, done: bool, events: seq<Event>, cur: Matching?, ghost q: nat)
      requires Valid() && Cursor(prev, match_, p, h) && Rejected(untested, input) && !node.Exits(input)
      requires Alike(Pass(node, Cells(flat), h, input, false), target)
      modifies this, flat
      ensures Valid() && |flat| == |starts| && forall i :: 0 <= i < |flat| ==> flat[i] in old(flat)
      ensures !done ==> forall i :: i in rest ==> i in untested || i < |node.sync|
      ensures done ==> Alike(Outcome(Cells(flat), events), target)
      ensures !done ==> events == [] && !node.Exits(rec) && Rejected(rest, rec)
      ensures !done && cur == null ==> Alike(Pass(node, [], 0, rec, false), target)
      ensures !done && cur != null ==>
        && q < |flat| && flat[q] == cur && starts[q]
        && Alike(Pass(node, Cells(flat), End(starts, q), rec, false), target)
      ensures !done && cur != null ==>
        || (flat == old(flat) && q == h && rest == untested - old(match_.unmatched))
        || (|flat| == |old(flat)| - 1 && End(starts, q) == h && !node.Exits(rec)
            && Complete(Fill(node.sync, old(Cells(flat))[h], input)))
      ensures !done && cur == null ==> Complete(Fill(node.sync, old(Cells(flat))[h], input))
    {
      hide End, Masks, Shape, Alike, Trim, View, Cells, Fill, Takes, Complete, Merge, NewMask, Removed, Without, Pass;
      hide MatchesAny, Accepts, Sound, Matched, NodeAt;
      ghost var cells := Cells(flat);
      var newMatches: nat;
      rec, done, events, cur, q := input, false, [], match_, h;
      rest, newMatches := Offer(prev, match_, p, h, untested, rec);
      if newMatches > 0 {
        ghost var filled := Fill(node.sync, cells[h], rec);
        PassTakes(node, cells, h, rec, false, filled);
        WithoutSame(cells[h := filled], cells, h);
        if match_.unmatched != {} {
          done, events := true, [Release(rec.detref)];
        } else {
          FillKeepsSound(node.sync, cells[h], rec);
          rec := Fire(prev, match_, p, h, rec);
          var leaves := MatchExitPatterns(node.exits, rec);
          if leaves {
            done, events := true, [Output(rec)];
          } else {
            cur, q, rest := prev, p, NewMask(|node.sync|);
          }
        }
      } else {
        PassGroup(node, cells, h, End(starts, h), rec);
      }
    }

    /** What the loop of NodeZipperData keeps. A matching made at the end of the list
        is fresh (atEnd); target is what the record does to the list as it was. */
    ghost predicate LoopState(prev: Matching?, match_: Matching, p: nat, h: nat, untested: set<nat>, rec: Record,
                              atEnd: bool, target: Outcome)
      reads this, flat
    {
      && Valid() && Cursor(prev, match_, p, h) && Rejected(untested, rec)
      && !node.Exits(rec) && (forall i :: i in untested ==> i < |node.sync|)
      && (atEnd ==> h == |flat| - 1 && Cells(flat)[h] == Fresh(|node.sync|) && match_.unmatched == NewMask(|node.sync|))
      && Alike(Pass(node, Cells(flat), h, rec, false), target)
    }

    ghost function Measure(untested: set<nat>, atEnd: bool, h: nat): int
      reads this
    {
      if untested == {} then 0 else if atEnd then 1 else 2 + |flat| - h
    }

    /** From the group of prev to the next one, or to a fresh matching. */
    method Advance(prev: Matching?, ghost p: nat, untested: set<nat>, rec: Record, ghost target: Outcome)
      returns (match_: Matching, ghost h: nat, ghost atEnd: bool)
      requires Valid() && Rejected(untested, rec) && !node.Exits(rec) && forall i :: i in untested ==> i < |node.sync|
      requires prev == null ==> Alike(Pass(node, [], 0, rec, false), target)
      requires prev != null ==>
        && p < |flat| && flat[p] == prev && starts[p]
        && Alike(Pass(node, Cells(flat), End(starts, p), rec, false), target)
      modifies this, flat
      ensures forall i :: 0 <= i < |flat| ==> flat[i] in old(flat) || fresh(flat[i])
      ensures LoopState(prev, match_, p, h, untested, rec, atEnd, target)
      ensures prev == null ==> atEnd
      ensures prev != null ==> h == old(End(starts, p)) && (!atEnd ==> |flat| == |old(flat)|)
    {
      hide End, Masks, NodeOk, Distinct, Trim, View, Cells, Fill, Takes, Complete, Merge, Removed, Without, Pass;
      hide MatchesAny, Accepts, Sound, Matched, Rejected, SyncStar.NoSpin, SyncStar.Waiting;
      h := if prev == null then 0 else End(starts, p);
      if prev == null {
        PassFreshEmpty(node, rec);
      } else {
        PassFresh(node, Cells(flat), h, rec, false);
      }
      match_, atEnd := Next(prev, p);
    }

    /** One round of the loop, up to the next group. */
    method Round(prev: Matching?, match_: Matching, ghost p: nat, ghost h: nat, untested: set<nat>, rec: Record,
                 ghost atEnd: bool, ghost target: Outcome)
      returns (done: bool, events: seq<Event>, prev': Matching?, match': Matching, ghost p': nat, ghost h': nat,
               untested': set<nat>, rec': Record, ghost atEnd': bool)
      requires LoopState(prev, match_, p, h, untested, rec, atEnd, target) && untested != {}
      modifies this, flat
      ensures forall i :: 0 <= i < |flat| ==> flat[i] in old(flat) || fresh(flat[i])
      ensures done ==> Valid() && Alike(Outcome(Cells(flat), events), target)
      ensures !done ==> events == [] && LoopState(prev', match', p', h', untested', rec', atEnd', target)
      ensures !done ==> 0 <= Measure(untested', atEnd', h') < old(Measure(untested, atEnd, h))
    {
      hide End, Masks, NodeOk, Distinct, Trim, View, Cells, Fill, Takes, Complete, Merge, Removed, Without, Pass;
      hide MatchesAny, Accepts, Sound, Matched, Rejected, SyncStar.NoSpin, SyncStar.Waiting;
      if atEnd {
        FreshStaysOpen(node, rec);
      }
      match', p', h', atEnd' := match_, p, h, atEnd;
      untested', rec', done, events, prev', p' := Visit(prev, match_, p, h, untested, rec, target);
      if !done {
        match', h', atEnd' := Advance(prev', p', untested', rec', target);
      }
    }

    /** Take a data record that matches no exit pattern into the list. */
    method NodeZipperData(input: Record) returns (events: seq<Event>)
      requires Valid() && !node.Exits(input)
      modifies this, flat
      ensures Valid() && forall i :: 0 <= i < |flat| ==> flat[i] in old(flat) || fresh(flat[i])
      ensures Alike(Outcome(Cells(flat), events), Pass(node, old(Cells(flat)), 0, input, false))
    {
      hide End, Masks, NodeOk, Distinct, Trim, View, Cells, Pass, SyncStar.NoSpin, SyncStar.Waiting;
      var rec := input;
      var untested: set<nat> := NewMask(|node.sync|);
      var prev: Matching? := null;
      ghost var p: nat, h: nat := 0, 0;
      ghost var target := Pass(node, Cells(flat), 0, rec, false);
      var match_: Matching;
      ghost var atEnd := head == null;
      if head == null {
        assert Cells(flat) == [];
        PassFreshEmpty(node, rec);
        match_, atEnd := Next(null, 0);
      } else {
        match_ := head;
      }
      events := [];
      var done := false;
      while untested != {}
        invariant LoopState(prev, match_, p, h, untested, rec, atEnd, target) && events == []
        invariant forall i :: 0 <= i < |flat| ==> flat[i] in old(flat) || fresh(flat[i])
        decreases Measure(untested, atEnd, h)
      {
        done, events, prev, match_, p, h, untested, rec, atEnd :=
          Round(prev, match_, p, h, untested, rec, atEnd, target);
        if done {
          return;
        }
      }
      PassNobody(node, Cells(flat), h, rec);
    }

    /** The node on any data record: it leaves through an exit pattern, or is taken in. */
    method NodeZipper(rec: Record) returns (events: seq<Event>)
      requires Valid()
      modifies this, flat
      ensures Valid() && forall i :: 0 <= i < |flat| ==> flat[i] in old(flat) || fresh(flat[i])
      ensures Alike(Outcome(Cells(flat), events), Zip(node, old(Cells(flat)), rec))
    {
      hide End, Masks, Shape, NodeOk, Distinct, Trim, View, Cells, Pass, SyncStar.NoSpin, SyncStar.Waiting, MatchesAny;
      var leaves := MatchExitPatterns(node.exits, rec);
      if leaves {
        events := [Output(rec)];
      } else {
        events := NodeZipperData(rec);
      }
    }
  }
}
