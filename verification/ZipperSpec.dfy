/** The fused sync-star on plain values, and its refinement of the chain.
    The zipper keeps only the unfinished cells, in chain order. */
module ZipperSpec {
  import opened Options
  import opened Records
  import opened Synchrocell
  import opened StarChain

  datatype Outcome = Outcome(cells: seq<Cell>, events: seq<Event>)

  /** What the zipper does with a record that has passed the first k cells.
      A merge at the head of the list whose result matches no exit pattern goes
      on with an empty list: `keepRest` says whether the remaining cells survive
      this (they do in the chain, they do not in the zipper). */
  ghost function Pass(node: SyncStar, cells: seq<Cell>, k: nat, rec: Record, keepRest: bool): (o: Outcome)
    requires node.NoSpin() && node.AllWaiting(cells) && k <= |cells| && !node.Exits(rec)
    ensures node.AllWaiting(o.cells)
    decreases |cells| - k
  {
    FreshIsSound(node.sync);
    if k == |cells| then
      var blank := Fresh(|node.sync|);
      if !Takes(node.sync, blank, rec) then Outcome(cells, [])
      else
        FillKeepsSound(node.sync, blank, rec);
        FreshStaysOpen(node, rec);
        Outcome(cells + [Fill(node.sync, blank, rec)], [Release(rec.detref)])
    else if !Takes(node.sync, cells[k], rec) then Pass(node, cells, k + 1, rec, keepRest)
    else
      FillKeepsSound(node.sync, cells[k], rec);
      var filled := Fill(node.sync, cells[k], rec);
      if !Complete(filled) then Outcome(cells[k := filled], [Release(rec.detref)])
      else
        CompleteHasFirst(filled);
        var merged := Merge(node.sync, filled, rec.detref);
        if node.Exits(merged) then Outcome(Without(cells, k), [Output(merged)])
        else if k == 0 && !keepRest then Pass(node, [], 0, merged, keepRest)
        else Pass(node, Without(cells, k), k, merged, keepRest)
  }

  /** The zipper node on one data record. */
  ghost function Zip(node: SyncStar, cells: seq<Cell>, rec: Record): (o: Outcome)
    requires node.NoSpin() && node.AllWaiting(cells)
    ensures node.AllWaiting(o.cells)
  {
    if node.Exits(rec) then Outcome(cells, [Output(rec)]) else Pass(node, cells, 0, rec, false)
  }

  // ---------- what Zip means for a record ----------

  /** The determinism references that leave with a record, or are given up. */
  function Carried(e: Event): seq<int> {
    match e
    case Output(rec) => rec.detref
    case Release(detref) => detref
  }

  /** A record leaves the node, on its own or merged, only if it has all labels of some exit
      pattern whose guard holds; and one that comes like this leaves unchanged, at once. What
      leaves or is given up are the determinism references of the record that came. */
  lemma {:induction false} LeavesMatching(node: SyncStar, cells: seq<Cell>, rec: Record)
    requires node.NoSpin() && node.AllWaiting(cells)
    ensures |Zip(node, cells, rec).events| <= 1
    ensures forall x :: Output(x) in Zip(node, cells, rec).events ==> ExitMatches(node, x)
    ensures forall e :: e in Zip(node, cells, rec).events ==> Carried(e) == rec.detref
    ensures ExitMatches(node, rec) ==> Zip(node, cells, rec) == Outcome(cells, [Output(rec)])
  {
    hide Pass;
    ExitsMeans(node);
    if !node.Exits(rec) { PassLeaves(node, cells, 0, rec); }
  }

  ghost predicate ExitMatches(node: SyncStar, x: Record) {
    exists i ::
      && 0 <= i < |node.exits| && node.exits[i].pattern.fields <= x.fields.Keys && node.exits[i].pattern.tags <= x.tags.Keys
      && node.exits[i].pattern.btags <= x.btags.Keys && node.exits[i].guard(x.(detref := []))
  }

  lemma ExitsMeans(node: SyncStar)
    ensures forall x :: ExitMatches(node, x) <==> node.Exits(x)
  {
    forall x ensures ExitMatches(node, x) <==> node.Exits(x) {
      assert node.Exits(x) <==> exists i :: 0 <= i < |node.exits| && Accepts(node.exits[i], x);
    }
  }

  lemma {:induction false} PassLeaves(node: SyncStar, cells: seq<Cell>, k: nat, rec: Record)
    requires node.NoSpin() && node.AllWaiting(cells) && k <= |cells| && !node.Exits(rec)
    ensures |Pass(node, cells, k, rec, false).events| <= 1
    ensures forall x :: Output(x) in Pass(node, cells, k, rec, false).events ==> node.Exits(x)
    ensures forall e :: e in Pass(node, cells, k, rec, false).events ==> Carried(e) == rec.detref
    decreases |cells| - k
  {
    hide Fill, Takes, Complete, MergeUpTo, MatchesAny;
    if k < |cells| {
      if !Takes(node.sync, cells[k], rec) {
        PassLeaves(node, cells, k + 1, rec);
      } else {
        FillKeepsSound(node.sync, cells[k], rec);
        var filled := Fill(node.sync, cells[k], rec);
        if Complete(filled) {
          CompleteHasFirst(filled);
          var merged := Merge(node.sync, filled, rec.detref);
          if !node.Exits(merged) {
            if k == 0 { EmptyLeaves(node, merged); } else { PassLeaves(node, Without(cells, k), k, merged); }
          }
        }
      }
    }
  }

  lemma EmptyLeaves(node: SyncStar, rec: Record)
    requires node.NoSpin() && !node.Exits(rec)
    ensures |Pass(node, [], 0, rec, false).events| <= 1
    ensures forall x :: Output(x) !in Pass(node, [], 0, rec, false).events
    ensures forall e :: e in Pass(node, [], 0, rec, false).events ==> Carried(e) == rec.detref
  {
  }

  /** A record that does not leave goes to the first cell that takes it, or to a fresh one
      behind them all, or nowhere; no other cell changes. */
  lemma {:induction false} GoesToFirst(node: SyncStar, cells: seq<Cell>, rec: Record, j: nat)
    requires node.NoSpin() && node.AllWaiting(cells) && !node.Exits(rec) && j <= |cells|
    requires forall i :: 0 <= i < j ==> !Takes(node.sync, cells[i], rec)
    ensures var blank := Fresh(|node.sync|);
      && (j == |cells| && !Takes(node.sync, blank, rec) ==> Zip(node, cells, rec) == Outcome(cells, []))
      && (j == |cells| && Takes(node.sync, blank, rec) ==>
            Zip(node, cells, rec) == Outcome(cells + [Fill(node.sync, blank, rec)], [Release(rec.detref)]))
    ensures j < |cells| && Takes(node.sync, cells[j], rec) ==>
      var filled := Fill(node.sync, cells[j], rec);
      && (!Complete(filled) ==> Zip(node, cells, rec) == Outcome(cells[j := filled], [Release(rec.detref)]))
      && (Complete(filled) ==> filled[0].Stored?)
      && (Complete(filled) && node.Exits(Merge(node.sync, filled, rec.detref)) ==>
            Zip(node, cells, rec) == Outcome(cells[..j] + cells[j + 1..], [Output(Merge(node.sync, filled, rec.detref))]))
  {
    hide Fill, Takes, Complete, Merge, MatchesAny;
    PassReaches(node, cells, 0, rec, j);
    if j < |cells| && Takes(node.sync, cells[j], rec) { PassTakes(node, cells, j, rec, false, Fill(node.sync, cells[j], rec)); }
  }

  /** A merged record that does not leave goes on behind its cell: to the first cell there that
      takes it, or to a fresh one, or nowhere; the cells before are not asked again. */
  lemma {:induction false} MergedGoesOn(node: SyncStar, cells: seq<Cell>, rec: Record, j: nat, merged: Record, i: nat)
    requires node.NoSpin() && node.AllWaiting(cells) && !node.Exits(rec) && 0 < j < |cells|
    requires forall h :: 0 <= h < j ==> !Takes(node.sync, cells[h], rec)
    requires Takes(node.sync, cells[j], rec) && Complete(Fill(node.sync, cells[j], rec)) && Fill(node.sync, cells[j], rec)[0].Stored?
    requires merged == Merge(node.sync, Fill(node.sync, cells[j], rec), rec.detref) && !node.Exits(merged)
    requires j < i <= |cells| && forall h :: j < h < i ==> !Takes(node.sync, cells[h], merged)
    ensures var blank, rest := Fresh(|node.sync|), cells[..j] + cells[j + 1..];
      && (i == |cells| && !Takes(node.sync, blank, merged) ==> Zip(node, cells, rec) == Outcome(rest, []))
      && (i == |cells| && Takes(node.sync, blank, merged) ==>
            Zip(node, cells, rec) == Outcome(rest + [Fill(node.sync, blank, merged)], [Release(rec.detref)]))
      && (i < |cells| && Takes(node.sync, cells[i], merged) && !Complete(Fill(node.sync, cells[i], merged)) ==>
            Zip(node, cells, rec) == Outcome(rest[i - 1 := Fill(node.sync, cells[i], merged)], [Release(rec.detref)]))
  {
    hide Fill, Takes, Complete, MergeUpTo, MatchesAny;
    PassReaches(node, cells, 0, rec, j);
    PassTakes(node, cells, j, rec, false, Fill(node.sync, cells[j], rec));
    var rest := Without(cells, j);
    assert forall h :: j <= h < i - 1 ==> rest[h] == cells[h + 1];
    PassReaches(node, rest, j, merged, i - 1);
    if i < |cells| && Takes(node.sync, cells[i], merged) {
      assert rest[i - 1] == cells[i];
      PassTakes(node, rest, i - 1, merged, false, Fill(node.sync, cells[i], merged));
    }
  }

  lemma {:induction false} PassReaches(node: SyncStar, cells: seq<Cell>, k: nat, rec: Record, j: nat)
    requires node.NoSpin() && node.AllWaiting(cells) && !node.Exits(rec) && k <= j <= |cells|
    requires forall i :: k <= i < j ==> !Takes(node.sync, cells[i], rec)
    ensures Pass(node, cells, k, rec, false) == Pass(node, cells, j, rec, false)
    decreases j - k
  {
    hide Fill, Takes, Complete, Merge, MatchesAny;
    if k < j { PassReaches(node, cells, k + 1, rec, j); }
  }

  lemma FreshStaysOpen(node: SyncStar, rec: Record)
    requires node.NoSpin() && !node.Exits(rec)
    ensures !Complete(Fill(node.sync, Fresh(|node.sync|), rec))
  {
    var i :| 0 <= i < |node.sync| && !Accepts(node.sync[i], rec);
    assert Fill(node.sync, Fresh(|node.sync|), rec)[i].Dummy?;
  }

  // ---------- the chain does what Pass with keepRest does ----------

  /** After n hops from c the chain has done what the outcome says. */
  ghost predicate Does(node: SyncStar, c: Config, n: nat, o: Outcome)
    requires |node.sync| > 0 && Good(node, c)
  {
    var c' := Hops(node, c, n);
    && Unfinished(c'.stages) == o.cells
    && if c'.Settled? then o.events == [c'.event] else o.events == [] && Lost(node, c')
  }

  lemma DoesNext(node: SyncStar, c: Config, m: nat, o: Outcome)
    requires |node.sync| > 0 && Good(node, c) && Does(node, Hop(node, c), m, o)
    ensures Does(node, c, m + 1, o)
  {
  }

  lemma DoesSettle(node: SyncStar, c: Config, o: Outcome)
    requires |node.sync| > 0 && Good(node, c) && Hop(node, c).Settled?
    requires o == Outcome(Unfinished(Hop(node, c).stages), [Hop(node, c).event])
    ensures Does(node, c, 1, o)
  {
    assert Hops(node, Hop(node, c), 0) == Hop(node, c);
    assert Hops(node, c, 1) == Hop(node, c);
  }

  /** Pass, at a cell that takes the record. */
  lemma PassTakes(node: SyncStar, cells: seq<Cell>, k: nat, rec: Record, keepRest: bool, filled: Cell)
    requires node.NoSpin() && node.AllWaiting(cells) && k < |cells| && !node.Exits(rec)
    requires Takes(node.sync, cells[k], rec) && filled == Fill(node.sync, cells[k], rec)
    ensures !Complete(filled) ==>
      Pass(node, cells, k, rec, keepRest) == Outcome(cells[k := filled], [Release(rec.detref)])
    ensures Complete(filled) ==> filled[0].Stored? && node.AllWaiting(Without(cells, k))
    ensures Complete(filled) ==>
      Pass(node, cells, k, rec, keepRest) == PassOn(node, Without(cells, k), k, Merge(node.sync, filled, rec.detref), keepRest)
    ensures !Complete(filled) ==> node.AllWaiting(cells[k := filled])
  {
    hide Fill, Takes, Complete, Merge;
    FillKeepsSound(node.sync, cells[k], rec);
    if Complete(filled) {
      CompleteHasFirst(filled);
    }
  }

  /** The merged record leaves, or goes on. */
  ghost function PassOn(node: SyncStar, cells: seq<Cell>, k: nat, merged: Record, keepRest: bool): Outcome
    requires node.NoSpin() && node.AllWaiting(cells) && k <= |cells|
  {
    if node.Exits(merged) then Outcome(cells, [Output(merged)])
    else if k == 0 && !keepRest then Pass(node, [], 0, merged, keepRest)
    else Pass(node, cells, k, merged, keepRest)
  }

  lemma {:induction false} ChainPasses(node: SyncStar, stages: seq<Stage>, pos: nat, rec: Record) returns (n: nat)
    requires node.NoSpin() && WellFormed(node, stages) && pos <= |stages| && !node.Exits(rec)
    ensures node.AllWaiting(Unfinished(stages)) && |Unfinished(stages[..pos])| <= |Unfinished(stages)|
    ensures Does(node, At(stages, pos, rec), n, Pass(node, Unfinished(stages), |Unfinished(stages[..pos])|, rec, true))
    decreases |stages| - pos, 1
  {
    hide Hop, Hops, Lost, Fill, Pass, Takes, Complete, Merge, Does, Unfinished, CellOf, Sound, Matched, MatchesAny, Accepts;
    UnfinishedWaiting(node, stages);
    if pos == |stages| {
      assert stages[..pos] == stages;
      n := PassesEnd(node, stages, rec);
    } else {
      UnfinishedAt(stages, pos);
      if stages[pos].Open? && Takes(node.sync, stages[pos].cell, rec) {
        n := PassesTaken(node, stages, pos, rec);
      } else {
        var m := ChainPasses(node, stages, pos + 1, rec);
        HopSkips(node, stages, pos, rec);
        DoesNext(node, At(stages, pos, rec), m,
                 Pass(node, Unfinished(stages), |Unfinished(stages[..pos])|, rec, true));
        n := m + 1;
      }
    }
  }

  /** A transparent cell, or one that does not take the record, is passed by. */
  lemma HopSkips(node: SyncStar, stages: seq<Stage>, pos: nat, rec: Record)
    requires node.NoSpin() && WellFormed(node, stages) && pos < |stages| && !node.Exits(rec)
    requires stages[pos].Done? || !Takes(node.sync, stages[pos].cell, rec)
    requires node.AllWaiting(Unfinished(stages))
    ensures Hop(node, At(stages, pos, rec)) == At(stages, pos + 1, rec)
    ensures |Unfinished(stages[..pos])| <= |Unfinished(stages[..pos + 1])| <= |Unfinished(stages)|
    ensures Pass(node, Unfinished(stages), |Unfinished(stages[..pos])|, rec, true) ==
            Pass(node, Unfinished(stages), |Unfinished(stages[..pos + 1])|, rec, true)
  {
    UnfinishedAt(stages, pos);
    if stages[pos].Open? {
      assert Unfinished(stages)[|Unfinished(stages[..pos])|] == stages[pos].cell;
    }
  }

  /** What one hop does when the cell at pos takes the record. */
  lemma HopTakes(node: SyncStar, stages: seq<Stage>, pos: nat, rec: Record, filled: Cell)
    requires |node.sync| > 0 && WellFormed(node, stages) && pos < |stages| && !node.Exits(rec)
    requires stages[pos].Open? && Takes(node.sync, stages[pos].cell, rec) && filled == Fill(node.sync, stages[pos].cell, rec)
    ensures !Complete(filled) ==>
      Hop(node, At(stages, pos, rec)) == Settled(stages[pos := Open(filled)], Release(rec.detref))
    ensures Complete(filled) ==> filled[0].Stored?
    ensures Complete(filled) ==>
      Hop(node, At(stages, pos, rec)) == At(stages[pos := Done], pos + 1, Merge(node.sync, filled, rec.detref))
  {
    FillKeepsSound(node.sync, stages[pos].cell, rec);
  }

  /** The position among the waiting cells, once the cell at pos is complete. */
  lemma AfterDone(node: SyncStar, stages: seq<Stage>, pos: nat)
    requires WellFormed(node, stages) && pos < |stages| && stages[pos].Open?
    ensures var k := |Unfinished(stages[..pos])|; var stages' := stages[pos := Done];
      && k < |Unfinished(stages)| && Unfinished(stages)[k] == stages[pos].cell
      && Unfinished(stages') == Without(Unfinished(stages), k)
      && |Unfinished(stages'[..pos + 1])| == k
      && WellFormed(node, stages') && node.AllWaiting(Unfinished(stages'))
  {
    hide Unfinished, SyncStar.Waiting;
    UnfinishedReplace(stages, pos, Done);
    UnfinishedWaiting(node, stages[pos := Done]);
  }

  /** The cell at pos takes the record. */
  lemma {:induction false} PassesTaken(node: SyncStar, stages: seq<Stage>, pos: nat, rec: Record) returns (n: nat)
    requires node.NoSpin() && WellFormed(node, stages) && pos < |stages| && !node.Exits(rec)
    requires stages[pos].Open? && Takes(node.sync, stages[pos].cell, rec)
    requires node.AllWaiting(Unfinished(stages))
    ensures |Unfinished(stages[..pos])| <= |Unfinished(stages)|
    ensures Does(node, At(stages, pos, rec), n, Pass(node, Unfinished(stages), |Unfinished(stages[..pos])|, rec, true))
    decreases |stages| - pos, 0
  {
    hide Hop, Hops, Lost, Fill, Pass, PassOn, Takes, Complete, Merge, Unfinished, Does, Sound, Matched, MatchesAny, Accepts;
    var here := At(stages, pos, rec);
    var filled := Fill(node.sync, stages[pos].cell, rec);
    HopTakes(node, stages, pos, rec, filled);
    AfterDone(node, stages, pos);
    var cells, k := Unfinished(stages), |Unfinished(stages[..pos])|;
    PassTakes(node, cells, k, rec, true, filled);
    var o := Pass(node, cells, k, rec, true);
    if !Complete(filled) {
      UnfinishedReplace(stages, pos, Open(filled));
      assert cells[k := filled] == cells[..k] + [filled] + cells[k + 1..];
      n := 1;
      DoesSettle(node, here, o);
    } else {
      var m := PassesMerged(node, stages[pos := Done], pos + 1, k, Merge(node.sync, filled, rec.detref));
      n := m + 1;
      DoesNext(node, here, m, o);
    }
  }

  /** The merged record goes on to the next star. */
  lemma {:induction false} PassesMerged(node: SyncStar, stages: seq<Stage>, pos: nat, k: nat, merged: Record) returns (n: nat)
    requires node.NoSpin() && WellFormed(node, stages) && pos <= |stages| && node.AllWaiting(Unfinished(stages))
    requires k == |Unfinished(stages[..pos])| <= |Unfinished(stages)|
    ensures Does(node, At(stages, pos, merged), n, PassOn(node, Unfinished(stages), k, merged, true))
    decreases |stages| - pos, 2
  {
    var here := At(stages, pos, merged);
    if node.Exits(merged) {
      n := 1;
      DoesSettle(node, here, Outcome(Unfinished(stages), [Output(merged)]));
    } else {
      n := ChainPasses(node, stages, pos, merged);
    }
  }

  lemma UnfinishedReplace(stages: seq<Stage>, pos: nat, stage: Stage)
    requires pos < |stages| && stages[pos].Open?
    ensures |Unfinished(stages[..pos])| < |Unfinished(stages)|
    ensures Unfinished(stages)[|Unfinished(stages[..pos])|] == stages[pos].cell
    ensures Unfinished(stages[pos := stage]) ==
      Unfinished(stages)[..|Unfinished(stages[..pos])|] + CellOf(stage) + Unfinished(stages)[|Unfinished(stages[..pos])| + 1..]
    ensures |Unfinished(stages[pos := stage][..pos + 1])| == |Unfinished(stages[..pos])| + |CellOf(stage)|
  {
    UnfinishedAt(stages, pos);
    UnfinishedAt(stages[pos := stage], pos);
    assert stages[pos := stage][..pos] == stages[..pos];
    assert stages[pos := stage][pos + 1..] == stages[pos + 1..];
    Middle(Unfinished(stages[..pos]), stages[pos].cell, Unfinished(stages[pos + 1..]));
  }

  lemma Middle<T>(a: seq<T>, x: T, b: seq<T>)
    ensures (a + [x] + b)[..|a|] == a && (a + [x] + b)[|a|] == x && (a + [x] + b)[|a| + 1..] == b
  {
  }

  /** Behind the last instantiated cell a fresh one is tried; a record it does not
      take is lost. */
  lemma PassesEnd(node: SyncStar, stages: seq<Stage>, rec: Record) returns (n: nat)
    requires node.NoSpin() && WellFormed(node, stages) && !node.Exits(rec)
    requires node.AllWaiting(Unfinished(stages))
    ensures Does(node, At(stages, |stages|, rec), n, Pass(node, Unfinished(stages), |Unfinished(stages)|, rec, true))
  {
    hide Hop, Hops, Does, Lost, Fill, Takes, Complete, Unfinished, Trim, MatchesAny;
    if Takes(node.sync, Fresh(|node.sync|), rec) {
      n := 1;
      EndStores(node, stages, rec);
      DoesSettle(node, At(stages, |stages|, rec), Pass(node, Unfinished(stages), |Unfinished(stages)|, rec, true));
    } else {
      n := 0;
      EndLoses(node, stages, rec);
    }
  }

  lemma EndStores(node: SyncStar, stages: seq<Stage>, rec: Record)
    requires node.NoSpin() && WellFormed(node, stages) && !node.Exits(rec)
    requires Takes(node.sync, Fresh(|node.sync|), rec)
    ensures var c := Hop(node, At(stages, |stages|, rec));
      && c.Settled? && c.event == Release(rec.detref)
      && Unfinished(c.stages) == Unfinished(stages) + [Fill(node.sync, Fresh(|node.sync|), rec)]
  {
    hide Takes, Complete, Fill, MatchesAny, Unfinished, CellOf, SyncStar.Waiting, Sound, Matched;
    var blank := Fresh(|node.sync|);
    FreshStaysOpen(node, rec);
    var filled := Open(Fill(node.sync, blank, rec));
    assert (stages + [Open(blank)])[|stages| := filled] == stages + [filled];
    UnfinishedConcat(stages, [filled]);
    UnfinishedOne(filled.cell);
  }

  lemma EndLoses(node: SyncStar, stages: seq<Stage>, rec: Record)
    requires node.NoSpin() && WellFormed(node, stages) && !node.Exits(rec)
    requires !Takes(node.sync, Fresh(|node.sync|), rec)
    ensures Does(node, At(stages, |stages|, rec), 0, Outcome(Unfinished(stages), []))
  {
    hide Unfinished, Trim, MatchesAny, Lost;
    forall i | 0 <= i < |node.sync| ensures !Accepts(node.sync[i], rec) {
      assert !TakesAt(node.sync, Fresh(|node.sync|), rec, i);
    }
    NobodyTakes(node, At(stages, |stages|, rec));
  }

  // ---------- the zipper against Pass with keepRest ----------

  /** The zipper drops cells on this record: the head cell completes with a merged
      record that matches no exit pattern, while other cells wait. */
  ghost predicate HeadLoss(node: SyncStar, cells: seq<Cell>, rec: Record)
    requires node.NoSpin() && node.AllWaiting(cells)
  {
    && |cells| > 0 && Takes(node.sync, cells[0], rec) && Trim(cells[1..]) != []
    && (var filled := Fill(node.sync, cells[0], rec);
        Complete(filled) && (filled[0].Stored? ==> !node.Exits(Merge(node.sync, filled, rec.detref))))
  }

  /** Away from the head of the list nothing is lost. */
  lemma {:induction false} SamePass(node: SyncStar, cells: seq<Cell>, k: nat, rec: Record)
    requires node.NoSpin() && node.AllWaiting(cells) && k <= |cells| && !node.Exits(rec) && (k > 0 || cells == [])
    ensures Pass(node, cells, k, rec, false) == Pass(node, cells, k, rec, true)
    decreases |cells| - k
  {
    hide Fill, Takes, Complete, Merge, Trim;
    if k < |cells| {
      if !Takes(node.sync, cells[k], rec) {
        SamePass(node, cells, k + 1, rec);
      } else {
        FillKeepsSound(node.sync, cells[k], rec);
        var filled := Fill(node.sync, cells[k], rec);
        if Complete(filled) {
          CompleteHasFirst(filled);
          var merged := Merge(node.sync, filled, rec.detref);
          if !node.Exits(merged) {
            SamePass(node, Without(cells, k), k, merged);
          }
        }
      }
    }
  }

  /** The same outcome, up to trailing fresh cells. */
  ghost predicate Alike(a: Outcome, b: Outcome) {
    a.events == b.events && Trim(a.cells) == Trim(b.cells)
  }

  /** A fresh cell at the end of the list makes no difference. */
  lemma {:induction false} PassFresh(node: SyncStar, cells: seq<Cell>, k: nat, rec: Record, keepRest: bool)
    requires node.NoSpin() && node.AllWaiting(cells) && k <= |cells| && !node.Exits(rec)
    ensures node.AllWaiting(cells + [Fresh(|node.sync|)])
    ensures Alike(Pass(node, cells, k, rec, keepRest), Pass(node, cells + [Fresh(|node.sync|)], k, rec, keepRest))
    decreases |cells| - k
  {
    hide Fill, Takes, Complete, Merge, Trim, HeadLoss;
    FreshIsSound(node.sync);
    var longer := cells + [Fresh(|node.sync|)];
    if k == |cells| {
      PassFreshEnd(node, cells, rec, keepRest);
    } else if !Takes(node.sync, cells[k], rec) {
      PassFresh(node, cells, k + 1, rec, keepRest);
    } else {
      FillKeepsSound(node.sync, cells[k], rec);
      var filled := Fill(node.sync, cells[k], rec);
      if !Complete(filled) {
        assert longer[k := filled] == cells[k := filled] + [Fresh(|node.sync|)];
        TrimFresh(cells[k := filled], |node.sync|);
      } else {
        CompleteHasFirst(filled);
        var merged := Merge(node.sync, filled, rec.detref);
        assert Without(longer, k) == Without(cells, k) + [Fresh(|node.sync|)];
        if node.Exits(merged) {
          TrimFresh(Without(cells, k), |node.sync|);
        } else if k > 0 || keepRest {
          PassFresh(node, Without(cells, k), k, merged, keepRest);
        }
      }
    }
  }

  lemma PassFreshEnd(node: SyncStar, cells: seq<Cell>, rec: Record, keepRest: bool)
    requires node.NoSpin() && node.AllWaiting(cells) && !node.Exits(rec)
    requires node.AllWaiting(cells + [Fresh(|node.sync|)])
    ensures Alike(Pass(node, cells, |cells|, rec, keepRest), Pass(node, cells + [Fresh(|node.sync|)], |cells|, rec, keepRest))
  {
    hide Fill, Takes, Complete, Merge, Trim;
    var blank := Fresh(|node.sync|);
    var longer := cells + [blank];
    if Takes(node.sync, blank, rec) {
      FreshStaysOpen(node, rec);
      assert longer[|cells| := Fill(node.sync, blank, rec)] == cells + [Fill(node.sync, blank, rec)];
    } else {
      TrimFresh(cells, |node.sync|);
      assert Pass(node, longer, |cells| + 1, rec, keepRest) == Outcome(longer, []);
    }
  }

  /** Lists that differ only in trailing fresh cells behave alike. */
  lemma {:induction false} PassTrim(node: SyncStar, cells: seq<Cell>, rec: Record, keepRest: bool)
    requires node.NoSpin() && node.AllWaiting(cells) && !node.Exits(rec)
    ensures node.AllWaiting(Trim(cells))
    ensures Alike(Pass(node, cells, 0, rec, keepRest), Pass(node, Trim(cells), 0, rec, keepRest))
    decreases |cells|
  {
    var n := |cells| - 1;
    if |cells| > 0 && cells[n] == Fresh(|cells[n]|) {
      assert cells == cells[..n] + [Fresh(|node.sync|)];
      PassTrim(node, cells[..n], rec, keepRest);
      PassFresh(node, cells[..n], 0, rec, keepRest);
    }
  }

  /** Without head loss the zipper and the chain agree on one record. */
  lemma ZipAgrees(node: SyncStar, cells: seq<Cell>, rec: Record)
    requires node.NoSpin() && node.AllWaiting(cells) && !node.Exits(rec) && !HeadLoss(node, cells, rec)
    ensures Alike(Pass(node, cells, 0, rec, false), Pass(node, cells, 0, rec, true))
  {
    if |cells| > 0 {
      if !Takes(node.sync, cells[0], rec) {
        SamePass(node, cells, 1, rec);
      } else {
        FillKeepsSound(node.sync, cells[0], rec);
        var filled := Fill(node.sync, cells[0], rec);
        if Complete(filled) {
          CompleteHasFirst(filled);
          var merged := Merge(node.sync, filled, rec.detref);
          assert Without(cells, 0) == cells[1..];
          if !node.Exits(merged) {
            PassTrim(node, cells[1..], merged, true);
            SamePass(node, [], 0, merged);
          }
        }
      }
    }
  }

  /** With head loss, everything that waited behind the head is gone: at most the
      merged record itself is kept, and nothing is emitted. */
  lemma HeadLossDropsRest(node: SyncStar, cells: seq<Cell>, rec: Record)
    requires node.NoSpin() && node.AllWaiting(cells) && !node.Exits(rec) && HeadLoss(node, cells, rec)
    ensures Fill(node.sync, cells[0], rec)[0].Stored?
    ensures
      var merged := Merge(node.sync, Fill(node.sync, cells[0], rec), rec.detref);
      || Zip(node, cells, rec) == Outcome([], [])
      || Zip(node, cells, rec) == Outcome([Fill(node.sync, Fresh(|node.sync|), merged)], [Release(rec.detref)])
  {
    FillKeepsSound(node.sync, cells[0], rec);
    var filled := Fill(node.sync, cells[0], rec);
    CompleteHasFirst(filled);
    var merged := Merge(node.sync, filled, rec.detref);
    assert Zip(node, cells, rec) == Pass(node, [], 0, merged, false);
  }

  /** Where a record of the chain comes to rest: the cells left by then, and the one it is
      stored in, or has passed last, for the record that it has become. */
  datatype Rest = Rest(cells: seq<Cell>, at: nat, rec: Record)

  /** The record goes on along the chain from cell k, and completes what it can; None if it leaves. */
  ghost function Settles(node: SyncStar, cells: seq<Cell>, k: nat, rec: Record): (o: Option<Rest>)
    requires node.NoSpin() && node.AllWaiting(cells) && k <= |cells| && !node.Exits(rec)
    ensures o.Some? ==> node.AllWaiting(o.value.cells) && o.value.at <= |o.value.cells|
    decreases |cells| - k
  {
    if k == |cells| then Some(Rest(cells, k, rec))
    else if !Takes(node.sync, cells[k], rec) then Settles(node, cells, k + 1, rec)
    else
      FillKeepsSound(node.sync, cells[k], rec);
      var filled := Fill(node.sync, cells[k], rec);
      if !Complete(filled) then Some(Rest(cells, k, rec))
      else
        CompleteHasFirst(filled);
        var merged := Merge(node.sync, filled, rec.detref);
        if node.Exits(merged) then None else Settles(node, Without(cells, k), k, merged)
  }

  lemma {:induction false} TrimIsPrefix(cells: seq<Cell>)
    ensures Trim(cells) <= cells
    ensures forall i :: |Trim(cells)| <= i < |cells| ==> cells[i] == Fresh(|cells[i]|)
  {
    if |cells| > 0 && cells[|cells| - 1] == Fresh(|cells[|cells| - 1]|) { TrimIsPrefix(cells[..|cells| - 1]); }
  }

  /** The record is stored in cell j, or in a fresh one behind the last, or nowhere. */
  ghost function StoredAt(node: SyncStar, cells: seq<Cell>, j: nat, rec: Record): Outcome
    requires node.AllWaiting(cells)
  {
    var blank := Fresh(|node.sync|);
    if j < |cells| then Outcome(cells[j := Fill(node.sync, cells[j], rec)], [Release(rec.detref)])
    else if Takes(node.sync, blank, rec) then Outcome(cells + [Fill(node.sync, blank, rec)], [Release(rec.detref)])
    else Outcome(cells, [])
  }

  lemma {:induction false} PassSettles(node: SyncStar, cells: seq<Cell>, k: nat, rec: Record)
    requires node.NoSpin() && node.AllWaiting(cells) && k <= |cells| && !node.Exits(rec)
    ensures var o := Settles(node, cells, k, rec);
      var p := Pass(node, cells, k, rec, true);
      && (o.None? ==> |p.events| == 1 && p.events[0].Output?)
      && (o.Some? ==> p == StoredAt(node, o.value.cells, o.value.at, o.value.rec) && o.value.rec.detref == rec.detref)
      && (o.Some? && o.value.at < |o.value.cells| ==> Takes(node.sync, o.value.cells[o.value.at], o.value.rec))
    decreases |cells| - k
  {
    hide Fill, Takes, Complete, Trim;
    if k < |cells| {
      if !Takes(node.sync, cells[k], rec) {
        PassSettles(node, cells, k + 1, rec);
      } else {
        FillKeepsSound(node.sync, cells[k], rec);
        var filled := Fill(node.sync, cells[k], rec);
        if Complete(filled) {
          CompleteHasFirst(filled);
          var merged := Merge(node.sync, filled, rec.detref);
          if !node.Exits(merged) { PassSettles(node, Without(cells, k), k, merged); }
        }
      }
    }
  }

  /** The record completes all the cells that wait, one after another, without leaving, and
      what it has become then is stored as a list of no cells would have stored it, or not
      stored either. */
  ghost predicate UsedUp(node: SyncStar, cells: seq<Cell>, rec: Record)
    requires node.NoSpin() && node.AllWaiting(cells)
  {
    var blank := Fresh(|node.sync|);
    && !node.Exits(rec)
    && (var o := Settles(node, cells, 0, rec);
        && o.Some? && Trim(o.value.cells) == []
        && (Takes(node.sync, blank, rec) <==> Takes(node.sync, blank, o.value.rec))
        && (Takes(node.sync, blank, rec) ==> o.value.at == 0 && Fill(node.sync, blank, o.value.rec) == Fill(node.sync, blank, rec)))
  }

  /** A cell that held a record before differs, after taking one, from a fresh one with any record. */
  lemma FilledDiffers(node: SyncStar, cell: Cell, rec: Record, other: Record)
    requires node.Waiting(cell) && cell != Fresh(|node.sync|) && Takes(node.sync, cell, rec)
    ensures Fill(node.sync, cell, rec) != Fill(node.sync, Fresh(|node.sync|), other)
  {
    var blank := Fresh(|node.sync|);
    var i :| 0 <= i < |cell| && cell[i] != blank[i];
    var s := i;
    if cell[i].Empty? { s :| 0 <= s < i && cell[s].Stored?; }
    var t := FirstTaker(node.sync, cell, rec, |cell|);
    assert Fill(node.sync, cell, rec)[t] == Stored(rec.(detref := []));
    assert Fill(node.sync, cell, rec)[s].Stored? && s != t;
    OneStored(node, other, if s < t then s else t, if s < t then t else s);
  }

  lemma OneStored(node: SyncStar, rec: Record, s: nat, t: nat)
    requires s < t < |node.sync|
    ensures !(Fill(node.sync, Fresh(|node.sync|), rec)[s].Stored? && Fill(node.sync, Fresh(|node.sync|), rec)[t].Stored?)
  {
    var blank := Fresh(|node.sync|);
    assert TakesAt(node.sync, blank, rec, s) ==> TakesBefore(node.sync, blank, rec, t);
    assert Fill(node.sync, blank, rec)[s] == SlotAfter(node.sync, blank, rec, s);
  }

  /** The record that the head cell makes when it completes. */
  ghost function MergedHead(node: SyncStar, cells: seq<Cell>, rec: Record): Record
    requires node.AllWaiting(cells) && |cells| > 0
  {
    var filled := Fill(node.sync, cells[0], rec);
    if filled[0].Stored? then Merge(node.sync, filled, rec.detref) else rec
  }

  /** Nothing of the record shows that the zipper has forgotten: there is no head loss, or the
      merged record uses up, in the chain, all that the zipper forgets. */
  ghost predicate Keeps(node: SyncStar, cells: seq<Cell>, rec: Record)
    requires node.NoSpin() && node.AllWaiting(cells)
  {
    HeadLoss(node, cells, rec) ==> UsedUp(node, cells[1..], MergedHead(node, cells, rec))
  }

  /** The exact condition, cascades included: zipper and chain agree on a record if and only if
      there is no head loss, or what the zipper forgets is used up in the chain. */
  lemma ZipAgreesExactly(node: SyncStar, cells: seq<Cell>, rec: Record)
    requires node.NoSpin() && node.AllWaiting(cells) && !node.Exits(rec)
    ensures Alike(Pass(node, cells, 0, rec, false), Pass(node, cells, 0, rec, true)) <==> Keeps(node, cells, rec)
  {
    hide Pass, Fill, Takes, Complete, Merge, Trim, UsedUp;
    if !HeadLoss(node, cells, rec) {
      ZipAgrees(node, cells, rec);
    } else {
      var filled := Fill(node.sync, cells[0], rec);
      PassTakes(node, cells, 0, rec, true, filled);
      PassTakes(node, cells, 0, rec, false, filled);
      assert Without(cells, 0) == cells[1..];
      AgreesIfUsedUp(node, cells[1..], Merge(node.sync, filled, rec.detref));
    }
  }

  lemma AgreesIfUsedUp(node: SyncStar, rest: seq<Cell>, merged: Record)
    requires node.NoSpin() && node.AllWaiting(rest) && !node.Exits(merged)
    ensures Alike(Pass(node, [], 0, merged, false), Pass(node, rest, 0, merged, true)) <==> UsedUp(node, rest, merged)
  {
    hide Fill, Takes, Complete, Merge, Trim, Settles, Pass;
    PassSettles(node, rest, 0, merged);
    PassSettles(node, [], 0, merged);
    SamePass(node, [], 0, merged);
    EmptySettles(node, merged);
    var o := Settles(node, rest, 0, merged);
    if o.Some? { StoredAlike(node, o.value.cells, o.value.at, o.value.rec, merged); }
  }

  lemma EmptySettles(node: SyncStar, rec: Record)
    requires node.NoSpin() && !node.Exits(rec)
    ensures Settles(node, [], 0, rec) == Some(Rest([], 0, rec))
  {
  }

  /** Stored somewhere in a list, against stored in the empty one. */
  lemma StoredAlike(node: SyncStar, cells: seq<Cell>, j: nat, rec: Record, first: Record)
    requires node.AllWaiting(cells) && j <= |cells| && rec.detref == first.detref
    requires j < |cells| ==> Takes(node.sync, cells[j], rec)
    ensures var blank := Fresh(|node.sync|);
      Alike(StoredAt(node, [], 0, first), StoredAt(node, cells, j, rec)) <==>
        && Trim(cells) == [] && (Takes(node.sync, blank, first) <==> Takes(node.sync, blank, rec))
        && (Takes(node.sync, blank, first) ==> j == 0 && Fill(node.sync, blank, rec) == Fill(node.sync, blank, first))
  {
    hide Fill, Takes, Complete, Merge, Trim;
    var blank := Fresh(|node.sync|);
    TrimEmpty();
    if j < |cells| { TakesThenFreshTakes(node, cells[j], rec); }
    if Takes(node.sync, blank, first) && Takes(node.sync, blank, rec) {
      assert [] + [Fill(node.sync, blank, first)] == [Fill(node.sync, blank, first)];
      BothStored(node, cells, j, rec, first);
    }
  }

  lemma BothStored(node: SyncStar, cells: seq<Cell>, j: nat, rec: Record, first: Record)
    requires node.AllWaiting(cells) && j <= |cells|
    requires j < |cells| ==> Takes(node.sync, cells[j], rec)
    requires Takes(node.sync, Fresh(|node.sync|), first) && Takes(node.sync, Fresh(|node.sync|), rec)
    ensures var blank := Fresh(|node.sync|);
      Trim([Fill(node.sync, blank, first)]) == Trim(StoredAt(node, cells, j, rec).cells) <==>
        Trim(cells) == [] && j == 0 && Fill(node.sync, blank, rec) == Fill(node.sync, blank, first)
  {
    hide Fill, Takes, Complete, Merge, Trim;
    var blank := Fresh(|node.sync|);
    var single := Fill(node.sync, blank, first);
    FreshChanges(node, first);
    OneTrims([single]);
    if j == 0 { StoredFirst(node, cells, rec, first); } else { StoredLater(node, cells, j, rec, single); }
  }

  lemma StoredLater(node: SyncStar, cells: seq<Cell>, j: nat, rec: Record, single: Cell)
    requires node.AllWaiting(cells) && 0 < j <= |cells| && Takes(node.sync, Fresh(|node.sync|), rec)
    requires j < |cells| ==> Takes(node.sync, cells[j], rec)
    ensures Trim(StoredAt(node, cells, j, rec).cells) != [single]
  {
    hide Fill, Takes, Complete, Merge, Trim;
    var after := StoredAt(node, cells, j, rec).cells;
    FreshChanges(node, rec);
    if j < |cells| { TakesThenFreshTakes(node, cells[j], rec); }
    TrimIsPrefix(after);
    assert |after| > j && after[j] != Fresh(|after[j]|);
  }

  lemma StoredFirst(node: SyncStar, cells: seq<Cell>, rec: Record, first: Record)
    requires node.AllWaiting(cells) && Takes(node.sync, Fresh(|node.sync|), rec)
    requires 0 < |cells| ==> Takes(node.sync, cells[0], rec)
    ensures var blank := Fresh(|node.sync|);
      Trim(StoredAt(node, cells, 0, rec).cells) == [Fill(node.sync, blank, first)] <==>
        Trim(cells) == [] && Fill(node.sync, blank, rec) == Fill(node.sync, blank, first)
  {
    hide Fill, Takes, Complete, Merge, Trim, Fresh;
    var blank := Fresh(|node.sync|);
    var after := StoredAt(node, cells, 0, rec).cells;
    FreshChanges(node, rec);
    TrimEmpty();
    if cells == [] {
      assert after == [Fill(node.sync, blank, rec)];
      OneTrims(after);
    } else {
      TakesThenFreshTakes(node, cells[0], rec);
      TrimIsPrefix(cells);
      TrimIsPrefix(after);
      if cells[0] == blank { AfterFresh(node, cells, after); } else { FilledDiffers(node, cells[0], rec, first); }
    }
  }

  /** Behind a first cell that is no longer fresh nothing else waits exactly when all was fresh before. */
  lemma AfterFresh(node: SyncStar, cells: seq<Cell>, after: seq<Cell>)
    requires node.AllWaiting(cells) && |after| == |cells| > 0 && cells[0] == Fresh(|node.sync|) && after[0] != Fresh(|after[0]|)
    requires forall i :: 1 <= i < |cells| ==> after[i] == cells[i]
    ensures Trim(after) == [after[0]] <==> Trim(cells) == []
  {
    hide Trim, Fresh;
    TrimIsPrefix(cells);
    TrimIsPrefix(after);
    if Trim(cells) == [] {
      forall i | 1 <= i < |after| ensures after[i] == Fresh(|after[i]|) { assert after[i] == cells[i]; }
      OneTrims(after);
    }
    if Trim(after) == [after[0]] {
      forall i | 0 <= i < |cells| ensures cells[i] == Fresh(|cells[i]|) { assert i >= 1 ==> after[i] == cells[i]; }
      AllFreshTrims(node, cells);
    }
  }

  lemma {:induction false} OneTrims(cells: seq<Cell>)
    requires |cells| > 0 && cells[0] != Fresh(|cells[0]|) && forall i :: 1 <= i < |cells| ==> cells[i] == Fresh(|cells[i]|)
    ensures Trim(cells) == [cells[0]]
    decreases |cells|
  {
    if |cells| > 1 { OneTrims(cells[..|cells| - 1]); } else { assert cells == [cells[0]]; }
  }

  lemma TrimEmpty()
    ensures Trim([]) == []
  {
  }

  lemma FreshChanges(node: SyncStar, rec: Record)
    requires Takes(node.sync, Fresh(|node.sync|), rec)
    ensures Fill(node.sync, Fresh(|node.sync|), rec) != Fresh(|node.sync|)
  {
    var i :| 0 <= i < |node.sync| && TakesAt(node.sync, Fresh(|node.sync|), rec, i);
    assert !Fill(node.sync, Fresh(|node.sync|), rec)[i].Dummy?;
  }

  lemma TakesThenFreshTakes(node: SyncStar, cell: Cell, rec: Record)
    requires |cell| == |node.sync| && Takes(node.sync, cell, rec)
    ensures Takes(node.sync, Fresh(|node.sync|), rec)
    ensures Fill(node.sync, cell, rec) != Fresh(|node.sync|)
  {
    var i :| 0 <= i < |node.sync| && TakesAt(node.sync, cell, rec, i);
    assert TakesAt(node.sync, Fresh(|node.sync|), rec, i);
    assert !Fill(node.sync, cell, rec)[i].Dummy?;
  }

  lemma {:induction false} AllFreshTrims(node: SyncStar, cells: seq<Cell>)
    requires forall i :: 0 <= i < |cells| ==> cells[i] == Fresh(|cells[i]|)
    ensures Trim(cells) == []
    decreases |cells|
  {
    if |cells| > 0 { AllFreshTrims(node, cells[..|cells| - 1]); }
  }

  // ---------- whole runs ----------

  ghost function ZipRun(node: SyncStar, cells: seq<Cell>, recs: seq<Record>): (o: Outcome)
    requires node.NoSpin() && node.AllWaiting(cells)
    ensures node.AllWaiting(o.cells)
    decreases |recs|
  {
    if |recs| == 0 then Outcome(cells, [])
    else
      var first := Zip(node, cells, recs[0]);
      var rest := ZipRun(node, first.cells, recs[1..]);
      Outcome(rest.cells, first.events + rest.events)
  }

  /** On no record of the run the zipper forgets anything that shows. */
  ghost predicate Lossless(node: SyncStar, cells: seq<Cell>, recs: seq<Record>)
    requires node.NoSpin() && node.AllWaiting(cells)
    decreases |recs|
  {
    |recs| == 0 ||
    ((!node.Exits(recs[0]) ==> Keeps(node, cells, recs[0]))
     && Lossless(node, Zip(node, cells, recs[0]).cells, recs[1..]))
  }

  /** A run of the chain over the same inputs, one record at a time. */
  ghost predicate ChainRun(node: SyncStar, recs: seq<Record>, states: seq<seq<Stage>>, events: seq<seq<Event>>)
    requires node.NoSpin()
  {
    && |states| == |recs| + 1 && |events| == |recs|
    && (forall i :: 0 <= i < |states| ==> WellFormed(node, states[i]))
    && forall i :: 0 <= i < |recs| ==> Handles(node, states[i], recs[i], states[i + 1], events[i])
  }

  ghost function Flatten(events: seq<seq<Event>>): seq<Event> {
    if |events| == 0 then [] else events[0] + Flatten(events[1..])
  }

  lemma OneInput(node: SyncStar, cells: seq<Cell>, stages: seq<Stage>, rec: Record)
    returns (stages': seq<Stage>)
    requires node.NoSpin() && node.AllWaiting(cells) && WellFormed(node, stages)
    requires Trim(cells) == Trim(Unfinished(stages))
    requires !node.Exits(rec) ==> Keeps(node, cells, rec)
    ensures WellFormed(node, stages')
    ensures Handles(node, stages, rec, stages', Zip(node, cells, rec).events)
    ensures Trim(Zip(node, cells, rec).cells) == Trim(Unfinished(stages'))
  {
    var start := At(stages, 0, rec);
    if node.Exits(rec) {
      stages' := stages;
      assert Hops(node, start, 1) == Hop(node, start);
      assert HandlesIn(node, stages, rec, stages', [Output(rec)], 1);
    } else {
      assert stages[..0] == [];
      var n := ChainPasses(node, stages, 0, rec);
      var c := Hops(node, start, n);
      stages' := c.stages;
      ZipAgreesExactly(node, cells, rec);
      PassTrim(node, cells, rec, true);
      PassTrim(node, Unfinished(stages), rec, true);
      assert HandlesIn(node, stages, rec, stages', Zip(node, cells, rec).events, n);
    }
  }

  /** Main result: on every input sequence without a loss that shows the zipper emits the
      events of a run of the unbounded chain, in the same order, and its list holds
      that chain's unfinished cells, in order, with the same stored records. */
  lemma {:induction false} ZipperRefinesChain(node: SyncStar, cells: seq<Cell>, stages: seq<Stage>, recs: seq<Record>)
    returns (states: seq<seq<Stage>>, events: seq<seq<Event>>)
    requires node.NoSpin() && node.AllWaiting(cells) && WellFormed(node, stages)
    requires Trim(cells) == Trim(Unfinished(stages)) && Lossless(node, cells, recs)
    ensures ChainRun(node, recs, states, events) && states[0] == stages
    ensures ZipRun(node, cells, recs).events == Flatten(events)
    ensures Trim(ZipRun(node, cells, recs).cells) == Trim(Unfinished(states[|recs|]))
    decreases |recs|
  {
    hide Zip, Keeps, Handles, Trim, Unfinished, WellFormed, SyncStar.AllWaiting, MatchesAny, Accepts;
    if |recs| == 0 {
      states, events := [stages], [];
    } else {
      var first := Zip(node, cells, recs[0]);
      var next := OneInput(node, cells, stages, recs[0]);
      var restStates, restEvents := ZipperRefinesChain(node, first.cells, next, recs[1..]);
      states, events := [stages] + restStates, [first.events] + restEvents;
      forall i | 0 <= i < |recs| ensures Handles(node, states[i], recs[i], states[i + 1], events[i]) {
        if i > 0 {
          assert Handles(node, restStates[i - 1], recs[1..][i - 1], restStates[i], restEvents[i - 1]);
        }
      }
      assert events[1..] == restEvents;
    }
  }

  // ---------- nodes whose merged records leave ----------

  /** The cell stores only such inputs, without their determinism references. */
  ghost predicate From(cell: Cell, inputs: iset<Record>) {
    forall i :: 0 <= i < |cell| && cell[i].Stored? ==> cell[i].rec in inputs
  }

  ghost predicate AllFrom(cells: seq<Cell>, inputs: iset<Record>) {
    forall i :: 0 <= i < |cells| ==> From(cells[i], inputs)
  }

  /** Every record that a cell can merge from such inputs matches an exit pattern. */
  ghost predicate MergedExits(node: SyncStar, inputs: iset<Record>) {
    forall cell: Cell, detref: seq<int> ::
      |cell| == |node.sync| > 0 && Sound(cell) && Matched(node.sync, cell) && Complete(cell) && From(cell, inputs) && cell[0].Stored?
      ==> node.Exits(Merge(node.sync, cell, detref))
  }

  ghost predicate Among(recs: seq<Record>, inputs: iset<Record>) {
    forall i :: 0 <= i < |recs| ==> recs[i].(detref := []) in inputs
  }

  lemma FillStaysFrom(rules: seq<Rule>, cell: Cell, rec: Record, inputs: iset<Record>)
    requires |cell| == |rules| && From(cell, inputs) && rec.(detref := []) in inputs
    ensures From(Fill(rules, cell, rec), inputs)
  {
  }

  /** A complete cell of such inputs fires and its record leaves. */
  lemma MergedLeaves(node: SyncStar, inputs: iset<Record>, cell: Cell, rec: Record)
    requires |node.sync| > 0 && node.Waiting(cell) && From(cell, inputs) && MergedExits(node, inputs) && rec.(detref := []) in inputs
    requires Complete(Fill(node.sync, cell, rec))
    ensures var filled := Fill(node.sync, cell, rec);
      filled[0].Stored? && node.Exits(Merge(node.sync, filled, rec.detref))
  {
    hide Fill, Merge, Complete, MatchesAny;
    FillKeepsSound(node.sync, cell, rec);
    FillStaysFrom(node.sync, cell, rec, inputs);
    CompleteHasFirst(Fill(node.sync, cell, rec));
  }

  lemma {:induction false} PassStaysFrom(node: SyncStar, inputs: iset<Record>, cells: seq<Cell>, k: nat, rec: Record)
    requires node.NoSpin() && node.AllWaiting(cells) && k <= |cells| && !node.Exits(rec)
    requires MergedExits(node, inputs) && AllFrom(cells, inputs) && rec.(detref := []) in inputs
    ensures AllFrom(Pass(node, cells, k, rec, false).cells, inputs)
    decreases |cells| - k
  {
    hide Fill, Takes, Complete, Merge, MergedExits, MatchesAny, Accepts, Sound, Matched;
    if k == |cells| {
      FillStaysFrom(node.sync, Fresh(|node.sync|), rec, inputs);
    } else if !Takes(node.sync, cells[k], rec) {
      PassStaysFrom(node, inputs, cells, k + 1, rec);
    } else {
      var filled := Fill(node.sync, cells[k], rec);
      FillStaysFrom(node.sync, cells[k], rec, inputs);
      PassTakes(node, cells, k, rec, false, filled);
      if Complete(filled) { MergedLeaves(node, inputs, cells[k], rec); }
    }
  }

  /** When the merged records of the inputs always match an exit pattern, no run of such inputs loses anything. */
  lemma {:induction false} MergedExitsLossless(node: SyncStar, inputs: iset<Record>, cells: seq<Cell>, recs: seq<Record>)
    requires node.NoSpin() && node.AllWaiting(cells) && MergedExits(node, inputs)
    requires AllFrom(cells, inputs) && Among(recs, inputs)
    ensures Lossless(node, cells, recs)
    decreases |recs|
  {
    hide Fill, Takes, Complete, Merge, MergedExits, MatchesAny, Accepts, Sound, Matched, Pass;
    if |recs| > 0 {
      if !node.Exits(recs[0]) {
        if |cells| > 0 && Complete(Fill(node.sync, cells[0], recs[0])) {
          MergedLeaves(node, inputs, cells[0], recs[0]);
        }
        assert !HeadLoss(node, cells, recs[0]);
        PassStaysFrom(node, inputs, cells, 0, recs[0]);
      }
      MergedExitsLossless(node, inputs, Zip(node, cells, recs[0]).cells, recs[1..]);
    }
  }

  /** The refinement, for nodes whose merged records leave: from the start, on every input
      sequence, the zipper does what a run of the chain does. */
  lemma MergedExitsRefines(node: SyncStar, inputs: iset<Record>, recs: seq<Record>)
    returns (states: seq<seq<Stage>>, events: seq<seq<Event>>)
    requires node.NoSpin() && MergedExits(node, inputs) && Among(recs, inputs)
    ensures ChainRun(node, recs, states, events) && states[0] == [] && node.AllWaiting([])
    ensures ZipRun(node, [], recs).events == Flatten(events)
    ensures Trim(ZipRun(node, [], recs).cells) == Trim(Unfinished(states[|recs|]))
  {
    MergedExitsLossless(node, inputs, [], recs);
    states, events := ZipperRefinesChain(node, [], [], recs);
  }

  /** No input is accepted by two sync patterns. */
  ghost predicate OneEach(node: SyncStar, inputs: iset<Record>) {
    forall rec, i, j :: rec in inputs && 0 <= i < j < |node.sync| ==> !(Accepts(node.sync[i], rec) && Accepts(node.sync[j], rec))
  }

  /** Some exit pattern without a guard asks for no more than labels of the sync patterns. */
  ghost predicate UnionExits(node: SyncStar) {
    exists e :: 0 <= e < |node.exits| && AsksForUnion(node, node.exits[e])
  }

  ghost predicate AsksForUnion(node: SyncStar, exit: Rule) {
    && (forall rec :: exit.guard(rec)) && exit.pattern.btags == {}
    && (forall l :: l in exit.pattern.fields ==> exists i :: 0 <= i < |node.sync| && l in node.sync[i].pattern.fields)
    && (forall l :: l in exit.pattern.tags ==> exists i :: 0 <= i < |node.sync| && l in node.sync[i].pattern.tags)
  }

  /** Such nodes merge only records that leave: without an input that fills two slots, the
      merged record has all the labels of all patterns. */
  lemma UnionMergedExits(node: SyncStar, inputs: iset<Record>)
    requires OneEach(node, inputs) && UnionExits(node)
    ensures MergedExits(node, inputs)
  {
    forall cell: Cell, detref: seq<int> |
      |cell| == |node.sync| > 0 && Sound(cell) && Matched(node.sync, cell) && Complete(cell) && From(cell, inputs) && cell[0].Stored?
      ensures node.Exits(Merge(node.sync, cell, detref))
    {
      forall i | 0 <= i < |cell| ensures cell[i].Stored? { NoneEmpty(node, inputs, cell, i); }
      AllStoredExits(node, cell, detref);
    }
  }

  lemma NoneEmpty(node: SyncStar, inputs: iset<Record>, cell: Cell, i: nat)
    requires OneEach(node, inputs) && |cell| == |node.sync| && Matched(node.sync, cell) && From(cell, inputs) && i < |cell|
    ensures !cell[i].Empty?
  {
    assert Owed(node.sync, cell, i);
    forall j | 0 <= j < i && cell[j].Stored? ensures !Accepts(node.sync[i], cell[j].rec) {
      assert Owed(node.sync, cell, j);
    }
  }

  lemma AllStoredExits(node: SyncStar, cell: Cell, detref: seq<int>)
    requires |cell| == |node.sync| > 0 && Matched(node.sync, cell) && UnionExits(node)
    requires forall i :: 0 <= i < |cell| ==> cell[i].Stored?
    ensures node.Exits(Merge(node.sync, cell, detref))
  {
    hide Merge;
    var merged := Merge(node.sync, cell, detref);
    var e :| 0 <= e < |node.exits| && AsksForUnion(node, node.exits[e]);
    forall l | l in node.exits[e].pattern.fields ensures l in merged.fields {
      var i :| 0 <= i < |node.sync| && l in node.sync[i].pattern.fields;
      MergedMatches(node.sync, cell, detref, i);
    }
    forall l | l in node.exits[e].pattern.tags ensures l in merged.tags {
      var i :| 0 <= i < |node.sync| && l in node.sync[i].pattern.tags;
      MergedMatches(node.sync, cell, detref, i);
    }
    assert Accepts(node.exits[e], merged);
  }
}
