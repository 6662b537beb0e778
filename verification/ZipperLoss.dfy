/** A run on which the fused sync-star forgets a record that the chain keeps. */
module ZipperLoss {
  import opened Options
  import opened Records
  import opened Synchrocell
  import opened StarChain
  import opened ZipperSpec

  /** A pattern of one field, without a guard. */
  function Field(name: int): Rule { Rule(Variant({name}, {}, {}), rec => true) }

  /** Synchronise fields 0, 1 and 2; a record with all three leaves the star. */
  const NODE := SyncStar([Field(0), Field(1), Field(2)], [Rule(Variant({0, 1, 2}, {}, {}), rec => true)])

  function With(fields: map<int, int>): Record { Record(fields, map[], map[], []) }

  const A := With(map[0 := 7])
  const A2 := With(map[0 := 8])
  const BC := With(map[1 := 7, 2 := 7])
  const AB := With(map[0 := 7, 1 := 7])

  lemma Patterns(rec: Record)
    ensures forall i :: 0 <= i < 3 ==> (Accepts(NODE.sync[i], rec) <==> i in rec.fields)
    ensures NODE.Exits(rec) <==> 0 in rec.fields && 1 in rec.fields && 2 in rec.fields
    ensures NODE.NoSpin()
  {
    NoRecordSpins();
    assert NODE.Exits(rec) <==> Accepts(NODE.exits[0], rec);
  }

  lemma NoRecordSpins()
    ensures NODE.NoSpin()
  {
    forall rec: Record | forall i :: 0 <= i < |NODE.sync| ==> Accepts(NODE.sync[i], rec) ensures NODE.Exits(rec) {
      assert Accepts(NODE.sync[0], rec) && Accepts(NODE.sync[1], rec) && Accepts(NODE.sync[2], rec);
      assert Accepts(NODE.exits[0], rec);
    }
  }

  lemma Slots(cell: Cell, rec: Record)
    requires |cell| == 3
    ensures Fill(NODE.sync, cell, rec) == [
      if cell[0].Dummy? && 0 in rec.fields then Stored(rec.(detref := [])) else cell[0],
      if cell[1].Dummy? && 1 in rec.fields then (if cell[0].Dummy? && 0 in rec.fields then Empty else Stored(rec.(detref := []))) else cell[1],
      if cell[2].Dummy? && 2 in rec.fields then
        (if (cell[0].Dummy? && 0 in rec.fields) || (cell[1].Dummy? && 1 in rec.fields) then Empty else Stored(rec.(detref := [])))
      else cell[2]]
    ensures Takes(NODE.sync, cell, rec) <==>
      (cell[0].Dummy? && 0 in rec.fields) || (cell[1].Dummy? && 1 in rec.fields) || (cell[2].Dummy? && 2 in rec.fields)
  {
    Patterns(rec);
    assert forall i :: 0 <= i < 3 ==> (TakesAt(NODE.sync, cell, rec, i) <==> cell[i].Dummy? && i in rec.fields);
    assert TakesBefore(NODE.sync, cell, rec, 1) <==> TakesAt(NODE.sync, cell, rec, 0);
    assert TakesBefore(NODE.sync, cell, rec, 2) <==> TakesAt(NODE.sync, cell, rec, 0) || TakesAt(NODE.sync, cell, rec, 1);
  }

  const FIRST: Cell := [Stored(A), Dummy, Dummy]
  const SECOND: Cell := [Stored(A2), Dummy, Dummy]

  lemma BothWait()
    ensures NODE.NoSpin() && NODE.AllWaiting([]) && NODE.AllWaiting([FIRST]) && NODE.AllWaiting([FIRST, SECOND])
    ensures NODE.AllWaiting([SECOND])
  {
    NoRecordSpins();
    Waits(A);
    Waits(A2);
  }

  lemma Waits(rec: Record)
    requires 0 in rec.fields
    ensures NODE.Waiting([Stored(rec), Dummy, Dummy])
  {
    var cell: Cell := [Stored(rec), Dummy, Dummy];
    assert cell[1].Dummy?;
  }

  /** The first record waits in a cell of its own. */
  lemma FirstWaits()
    ensures NODE.NoSpin() && NODE.AllWaiting([]) && Zip(NODE, [], A) == Outcome([FIRST], [Release([])])
  {
    hide Takes, Fill, Accepts;
    BothWait();
    Patterns(A);
    Slots(Fresh(3), A);
    assert Zip(NODE, [], A) == Pass(NODE, [], 0, A, false);
  }

  /** The second one passes it and waits behind. */
  lemma SecondWaits()
    ensures NODE.NoSpin() && NODE.AllWaiting([FIRST]) && Zip(NODE, [FIRST], A2) == Outcome([FIRST, SECOND], [Release([])])
  {
    hide Takes, Fill, Accepts;
    BothWait();
    Patterns(A2);
    Slots(FIRST, A2);
    Slots(Fresh(3), A2);
    assert Pass(NODE, [FIRST], 0, A2, false) == Pass(NODE, [FIRST], 1, A2, false);
    assert [FIRST] + [SECOND] == [FIRST, SECOND];
  }

  /** The third completes the first cell, and the merged record still lacks a field. */
  lemma ThirdMerges(keepRest: bool)
    ensures NODE.NoSpin() && NODE.AllWaiting([FIRST, SECOND]) && NODE.AllWaiting([SECOND]) && !NODE.Exits(BC) && !NODE.Exits(AB)
    ensures Pass(NODE, [FIRST, SECOND], 0, BC, keepRest) == Pass(NODE, if keepRest then [SECOND] else [], 0, AB, keepRest)
    ensures HeadLoss(NODE, [FIRST, SECOND], BC)
  {
    hide Takes, Fill, Accepts, Pass, HeadLoss, Trim, Complete;
    BothWait();
    FirstMerges();
    Patterns(BC);
    Patterns(AB);
    PassTakes(NODE, [FIRST, SECOND], 0, BC, keepRest, [Stored(A), Stored(BC), Empty]);
    LosesSecond(SECOND);
    assert Without([FIRST, SECOND], 0) == [SECOND];
  }

  lemma MergedWaits(keepRest: bool)
    ensures NODE.NoSpin() && NODE.AllWaiting([]) && NODE.AllWaiting([SECOND]) && !NODE.Exits(AB)
    ensures !keepRest ==> Pass(NODE, [], 0, AB, keepRest) == Outcome([[Stored(AB), Empty, Dummy]], [Release([])])
    ensures keepRest ==> Pass(NODE, [SECOND], 0, AB, keepRest) == Outcome([[Stored(A2), Stored(AB), Dummy]], [Release([])])
  {
    hide Takes, Fill, Accepts;
    BothWait();
    Patterns(AB);
    Slots(SECOND, AB);
    Slots(Fresh(3), AB);
    assert [SECOND][0 := [Stored(A2), Stored(AB), Dummy]] == [[Stored(A2), Stored(AB), Dummy]];
  }

  /** Three records whose run the refinement does not cover: the zipper ends with the merged
      record alone, the chain (Pass with keepRest, by ChainPasses) still has the second record. */
  lemma SecondRecordIsLost()
    ensures NODE.NoSpin() && NODE.AllWaiting([]) && !Lossless(NODE, [], [A, A2, BC])
    ensures ZipRun(NODE, [], [A, A2, BC]).cells == [[Stored(AB), Empty, Dummy]]
    ensures ZipRun(NODE, [], [A, A2]).cells == [FIRST, SECOND] && NODE.AllWaiting([FIRST, SECOND]) && !NODE.Exits(BC)
    ensures Pass(NODE, [FIRST, SECOND], 0, BC, true).cells == [[Stored(A2), Stored(AB), Dummy]]
  {
    hide Zip, Pass, HeadLoss, Keeps, Accepts, ZipRun, Lossless;
    FirstWaits();
    SecondWaits();
    ThirdLoses();
    SecondMissed();
    Patterns(A);
    Patterns(A2);
    OneMore([], A, [A2, BC]);
    OneMore([FIRST], A2, [BC]);
    OneMore([FIRST, SECOND], BC, []);
    OneMore([], A, [A2]);
    OneMore([FIRST], A2, []);
    NoMore([FIRST, SECOND]);
    NoMore([[Stored(AB), Empty, Dummy]]);
    assert [A] + [A2, BC] == [A, A2, BC] && [A2] + [BC] == [A2, BC] && [BC] + [] == [BC] && [A] + [A2] == [A, A2] && [A2] + [] == [A2];
  }

  // ---------- inputs without loss ----------

  /** Records with at most one of the three fields: on these the node loses nothing, because
      a merged record then has all three. */
  lemma SinglesLoseNothing(inputs: iset<Record>, recs: seq<Record>)
    returns (states: seq<seq<Stage>>, events: seq<seq<Event>>)
    requires forall rec, i, j :: rec in inputs && 0 <= i < j < 3 ==> i !in rec.fields || j !in rec.fields
    requires Among(recs, inputs)
    ensures MergedExits(NODE, inputs) && NODE.NoSpin() && NODE.AllWaiting([])
    ensures ChainRun(NODE, recs, states, events) && states[0] == []
    ensures ZipRun(NODE, [], recs).events == Flatten(events)
  {
    NoRecordSpins();
    forall rec, i, j | rec in inputs && 0 <= i < j < |NODE.sync|
      ensures !(Accepts(NODE.sync[i], rec) && Accepts(NODE.sync[j], rec))
    {
      Patterns(rec);
    }
    assert AsksForUnion(NODE, NODE.exits[0]) by {
      assert 0 in NODE.sync[0].pattern.fields && 1 in NODE.sync[1].pattern.fields && 2 in NODE.sync[2].pattern.fields;
    }
    UnionMergedExits(NODE, inputs);
    states, events := MergedExitsRefines(NODE, inputs, recs);
  }

  // ---------- loss without a trace ----------

  const USED: Cell := [Dummy, Stored(BC), Empty]

  lemma UsedWaits()
    ensures NODE.NoSpin() && NODE.AllWaiting([]) && NODE.AllWaiting([USED]) && NODE.AllWaiting([FIRST, USED])
  {
    BothWait();
    assert USED[0].Dummy?;
    assert USED[1].Stored? && Accepts(NODE.sync[2], USED[1].rec);
    assert Owed(NODE.sync, USED, 2);
  }

  /** In the chain the merged record completes the second cell as well, takes a value from
      it that it has already, and still does not leave. */
  lemma UsedUp()
    ensures NODE.NoSpin() && NODE.AllWaiting([USED]) && NODE.AllWaiting([]) && !NODE.Exits(AB)
    ensures Pass(NODE, [USED], 0, AB, true) == Pass(NODE, [], 0, AB, true)
  {
    hide Takes, Fill, Accepts;
    UsedWaits();
    Patterns(AB);
    Slots(USED, AB);
    var filled: Cell := [Stored(AB), Stored(BC), Empty];
    assert Fill(NODE.sync, USED, AB) == filled && Complete(filled);
    assert MergeUpTo(NODE.sync, filled, AB, 1) == AB;
    assert MergeUpTo(NODE.sync, filled, AB, 2) == MergeOne(AB, NODE.sync[1].pattern, BC) == AB;
    assert MergeUpTo(NODE.sync, filled, AB, 3) == AB;
    assert Merge(NODE.sync, filled, []) == AB;
    assert Without([USED], 0) == [];
  }

  /** Head loss, and yet zipper and chain agree: the cell that the zipper forgets is one that
      the chain uses up without a trace. */
  lemma LossWithoutTrace()
    ensures NODE.NoSpin() && NODE.AllWaiting([FIRST, USED]) && !NODE.Exits(BC) && HeadLoss(NODE, [FIRST, USED], BC)
    ensures Alike(Pass(NODE, [FIRST, USED], 0, BC, false), Pass(NODE, [FIRST, USED], 0, BC, true)) && Keeps(NODE, [FIRST, USED], BC)
  {
    hide Takes, Fill, Accepts, Pass, HeadLoss, Keeps, Trim, Complete;
    UsedWaits();
    FirstMerges();
    UsedUp();
    Patterns(BC);
    Patterns(AB);
    PassTakes(NODE, [FIRST, USED], 0, BC, false, [Stored(A), Stored(BC), Empty]);
    PassTakes(NODE, [FIRST, USED], 0, BC, true, [Stored(A), Stored(BC), Empty]);
    LosesSecond(USED);
    assert Without([FIRST, USED], 0) == [USED];
    SamePass(NODE, [], 0, AB);
    ZipAgreesExactly(NODE, [FIRST, USED], BC);
  }

  /** The head is complete, its record does not leave, and a cell that is not fresh waits behind it. */
  lemma LosesSecond(second: Cell)
    requires |second| == 3 && NODE.AllWaiting([FIRST, second]) && (second[0] != Dummy || second[1] != Dummy)
    ensures NODE.NoSpin() && HeadLoss(NODE, [FIRST, second], BC)
  {
    hide Takes, Fill, Accepts, Merge;
    NoRecordSpins();
    FirstMerges();
    Patterns(AB);
    assert NODE.Waiting([FIRST, second][1]);
    assert [FIRST, second][1..] == [second] && [second][0] != Fresh(|second|);
    assert [second][..0] == [];
  }

  lemma FirstMerges()
    ensures Takes(NODE.sync, FIRST, BC) && Fill(NODE.sync, FIRST, BC) == [Stored(A), Stored(BC), Empty]
    ensures Complete([Stored(A), Stored(BC), Empty]) && Merge(NODE.sync, [Stored(A), Stored(BC), Empty], []) == AB
  {
    hide Takes, Fill, Accepts;
    Patterns(BC);
    Slots(FIRST, BC);
    var filled: Cell := [Stored(A), Stored(BC), Empty];
    assert MergeUpTo(NODE.sync, filled, A, 1) == A;
    assert MergeUpTo(NODE.sync, filled, A, 2) == MergeOne(A, NODE.sync[1].pattern, BC) == AB;
    assert MergeUpTo(NODE.sync, filled, A, 3) == AB;
  }

  lemma ThirdLoses()
    ensures NODE.NoSpin() && NODE.AllWaiting([FIRST, SECOND]) && !NODE.Exits(BC) && HeadLoss(NODE, [FIRST, SECOND], BC)
    ensures Zip(NODE, [FIRST, SECOND], BC) == Outcome([[Stored(AB), Empty, Dummy]], [Release([])])
    ensures Pass(NODE, [FIRST, SECOND], 0, BC, true).cells == [[Stored(A2), Stored(AB), Dummy]]
  {
    hide Pass, HeadLoss, Accepts, MatchesAny;
    ThirdMerges(true);
    ThirdMerges(false);
    MergedWaits(true);
    MergedWaits(false);
  }

  lemma SecondMissed()
    ensures NODE.NoSpin() && NODE.AllWaiting([FIRST, SECOND]) && !NODE.Exits(BC) && !Keeps(NODE, [FIRST, SECOND], BC)
  {
    hide Pass, HeadLoss, Keeps, Accepts, MatchesAny, Trim;
    ThirdLoses();
    ZipAgreesExactly(NODE, [FIRST, SECOND], BC);
    var merged: Cell, second: Cell := [Stored(AB), Empty, Dummy], [Stored(A2), Stored(AB), Dummy];
    assert merged[0].Stored? && second[0].Stored? && second[1].Stored? && merged[1].Empty? && Fresh(3)[0].Dummy?;
    OneTrims([merged]);
    OneTrims([second]);
  }

  lemma OneMore(cells: seq<Cell>, rec: Record, rest: seq<Record>)
    requires NODE.NoSpin() && NODE.AllWaiting(cells)
    ensures ZipRun(NODE, cells, [rec] + rest).cells == ZipRun(NODE, Zip(NODE, cells, rec).cells, rest).cells
    ensures Lossless(NODE, cells, [rec] + rest) <==>
      (!NODE.Exits(rec) ==> Keeps(NODE, cells, rec)) && Lossless(NODE, Zip(NODE, cells, rec).cells, rest)
  {
    hide Zip, Keeps, MatchesAny;
    assert ([rec] + rest)[1..] == rest;
  }

  lemma NoMore(cells: seq<Cell>)
    requires NODE.NoSpin() && NODE.AllWaiting(cells)
    ensures ZipRun(NODE, cells, []).cells == cells
  {
  }
}
