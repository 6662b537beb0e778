/** A node with guards, in the chain and in the zipper: what the guards decide. */
module GuardedNode {
  import opened Records
  import opened Synchrocell
  import opened StarChain
  import opened ZipperSpec

  /** Fields 1 and 2 are to be joined; what has both leaves, and what has tag 0 above 5. The
      first field is only taken from a record whose tag is not 0. */
  const FIRST := Rule(Variant({1}, {0}, {}), (rec: Record) => 0 in rec.tags && rec.tags[0] != 0)
  const SECOND := Rule(Variant({2}, {}, {}), (rec: Record) => true)
  const JOINED := Rule(Variant({1, 2}, {}, {}), (rec: Record) => true)
  const ABOVE := Rule(Variant({}, {0}, {}), (rec: Record) => 0 in rec.tags && rec.tags[0] > 5)
  const ANY := Rule(Variant({}, {0}, {}), (rec: Record) => true)

  const GUARDED := SyncStar([FIRST, SECOND], [JOINED, ABOVE])
  const UNGUARDED := SyncStar([FIRST, SECOND], [JOINED, ANY])

  function Tagged(n: int): Record { Record(map[1 := 7], map[0 := n], map[], []) }

  lemma NoneSpins(node: SyncStar)
    requires node == GUARDED || node == UNGUARDED
    ensures node.NoSpin() && |node.sync| == 2
  {
    forall rec: Record | forall i :: 0 <= i < |node.sync| ==> Accepts(node.sync[i], rec) ensures node.Exits(rec) {
      assert Accepts(node.sync[0], rec) && Accepts(node.sync[1], rec);
      assert Accepts(node.exits[0], rec);
    }
  }

  lemma Tests(n: int)
    ensures GUARDED.Exits(Tagged(n)) <==> n > 5
    ensures UNGUARDED.Exits(Tagged(n))
    ensures Takes(GUARDED.sync, Fresh(2), Tagged(n)) <==> n != 0
    ensures n != 0 ==> Fill(GUARDED.sync, Fresh(2), Tagged(n)) == [Stored(Tagged(n)), Dummy]
  {
    assert Accepts(GUARDED.exits[1], Tagged(n)) <==> n > 5;
    assert !Accepts(GUARDED.exits[0], Tagged(n));
    assert Accepts(UNGUARDED.exits[1], Tagged(n));
    assert TakesAt(GUARDED.sync, Fresh(2), Tagged(n), 0) <==> n != 0;
    assert !TakesAt(GUARDED.sync, Fresh(2), Tagged(n), 1);
    assert Tagged(n).(detref := []) == Tagged(n);
  }

  /** At a star of the chain the exit guard decides whether the record leaves, and the sync
      guard whether the cell behind takes it. */
  lemma ChainGuards(n: int)
    ensures |GUARDED.sync| == |UNGUARDED.sync| == 2
    ensures Hop(UNGUARDED, At([], 0, Tagged(n))) == Settled([], Output(Tagged(n)))
    ensures n > 5 ==> Hop(GUARDED, At([], 0, Tagged(n))) == Settled([], Output(Tagged(n)))
    ensures n <= 5 && n != 0 ==> Hop(GUARDED, At([], 0, Tagged(n))) == Settled([Open([Stored(Tagged(n)), Dummy])], Release([]))
    ensures n == 0 ==> Hop(GUARDED, At([], 0, Tagged(n))) == At([Open([Dummy, Dummy])], 1, Tagged(0))
  {
    Tests(n);
    assert Fresh(2) == [Dummy, Dummy];
    var filled: Cell := [Stored(Tagged(n)), Dummy];
    assert filled[1].Dummy?;
    assert ([] + [Open(Fresh(2))])[0 := Open(filled)] == [Open(filled)];
  }

  /** So it is in the zipper. */
  lemma ZipperGuards(n: int)
    ensures GUARDED.NoSpin() && UNGUARDED.NoSpin()
    ensures Zip(UNGUARDED, [], Tagged(n)) == Outcome([], [Output(Tagged(n))])
    ensures n > 5 ==> Zip(GUARDED, [], Tagged(n)) == Outcome([], [Output(Tagged(n))])
    ensures n <= 5 && n != 0 ==> Zip(GUARDED, [], Tagged(n)) == Outcome([[Stored(Tagged(n)), Dummy]], [Release([])])
    ensures n == 0 ==> Zip(GUARDED, [], Tagged(n)) == Outcome([], [])
  {
    NoneSpins(GUARDED);
    NoneSpins(UNGUARDED);
    Tests(n);
    if n <= 5 {
      GoesToFirst(GUARDED, [], Tagged(n), 0);
      assert [] + [Fill(GUARDED.sync, Fresh(2), Tagged(n))] == [Fill(GUARDED.sync, Fresh(2), Tagged(n))];
    }
  }
}
