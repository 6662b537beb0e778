/** The loop of the fused sync-star, one round at a time, for every node: when it ends, and
    on which record it never does. */
module ZipperRounds {
  import opened Options
  import opened Records
  import opened Synchrocell
  import opened StarChain
  import opened ZipperSpec

  /** The loop's state: the record before the cell at `at`, and the patterns that have not
      rejected it yet; or its end. Members of a group are passed one by one, without a test. */
  datatype Walk =
    | Going(cells: seq<Cell>, at: nat, untested: set<nat>, rec: Record)
    | Ended(cells: seq<Cell>, events: seq<Event>)

  ghost function AllBits(node: SyncStar): (mask: set<nat>)
    ensures forall i: nat :: i in mask <==> i < |node.sync|
  {
    Unmatched(Fresh(|node.sync|))
  }

  ghost predicate Proper(node: SyncStar, w: Walk) {
    && |node.sync| > 0
    && (w.Going? ==>
          && node.AllWaiting(w.cells) && w.at < |w.cells| && !node.Exits(w.rec)
          && (forall i: nat :: i < |node.sync| && i !in w.untested ==> !Accepts(node.sync[i], w.rec))
          && (forall i :: i in w.untested ==> i < |node.sync|))
  }

  /** The list with a fresh cell behind it, if the cursor has run past its end. */
  function Reaching(node: SyncStar, cells: seq<Cell>, at: nat): seq<Cell> {
    if at < |cells| then cells else cells + [Fresh(|node.sync|)]
  }

  ghost function Start(node: SyncStar, cells: seq<Cell>, rec: Record): (w: Walk)
    requires |node.sync| > 0 && node.AllWaiting(cells) && !node.Exits(rec)
    ensures Proper(node, w)
  {
    FreshIsSound(node.sync);
    Going(Reaching(node, cells, 0), 0, AllBits(node), rec)
  }

  /** One round. After a merge at the head of the list, the list starts again. */
  ghost function Round(node: SyncStar, w: Walk): (w': Walk)
    requires Proper(node, w)
    ensures Proper(node, w')
  {
    if w.Ended? then w
    else if w.untested == {} then Ended(w.cells, [])
    else
      var cell := w.cells[w.at];
      FreshIsSound(node.sync);
      if !Takes(node.sync, cell, w.rec) then
        PassedByRejects(node, w);
        Going(Reaching(node, w.cells, w.at + 1), w.at + 1, w.untested - Unmatched(cell), w.rec)
      else
        FillKeepsSound(node.sync, cell, w.rec);
        var filled := Fill(node.sync, cell, w.rec);
        if !Complete(filled) then Ended(w.cells[w.at := filled], [Release(w.rec.detref)])
        else
          CompleteHasFirst(filled);
          var merged := Merge(node.sync, filled, w.rec.detref);
          var rest := Without(w.cells, w.at);
          if node.Exits(merged) then Ended(rest, [Output(merged)])
          else if w.at == 0 then Going([Fresh(|node.sync|)], 0, AllBits(node), merged)
          else Going(Reaching(node, rest, w.at), w.at, AllBits(node), merged)
  }

  /** A cell that does not take the record shows that its unmatched patterns reject it. */
  lemma PassedByRejects(node: SyncStar, w: Walk)
    requires Proper(node, w) && w.Going? && !Takes(node.sync, w.cells[w.at], w.rec)
    ensures forall i: nat :: i < |node.sync| && i !in w.untested - Unmatched(w.cells[w.at]) ==> !Accepts(node.sync[i], w.rec)
  {
    var cell := w.cells[w.at];
    forall i: nat | i < |node.sync| && i !in w.untested - Unmatched(cell) ensures !Accepts(node.sync[i], w.rec) {
      if i in w.untested { assert !TakesAt(node.sync, cell, w.rec, i); }
    }
  }

  ghost function Rounds(node: SyncStar, w: Walk, n: nat): (w': Walk)
    requires Proper(node, w)
    ensures Proper(node, w')
    decreases n
  {
    if n == 0 then w else Rounds(node, Round(node, w), n - 1)
  }

  ghost predicate Ends(node: SyncStar, w: Walk)
    requires Proper(node, w)
  {
    exists n: nat :: Rounds(node, w, n).Ended?
  }

  // ---------- the record that arrives at the end ----------

  /** The cursor is at a fresh last cell. */
  ghost predicate AtEnd(node: SyncStar, w: Walk) {
    w.Going? && |w.cells| == w.at + 1 && w.cells[w.at] == Fresh(|node.sync|)
  }

  ghost function Left(node: SyncStar, w: Walk): nat {
    if w.Ended? || AtEnd(node, w) || w.at > |w.cells| then 0 else |w.cells| - w.at
  }

  lemma RoundGoesOn(node: SyncStar, w: Walk)
    requires Proper(node, w) && w.Going? && !AtEnd(node, w) && Round(node, w).Going?
    ensures Left(node, Round(node, w)) < Left(node, w)
  {
    hide Takes, Fill, Complete, Merge, MatchesAny, Accepts, Sound, Matched;
  }

  /** The record with which the loop gets to the end of the list, if it gets there: the
      input, or what it has been merged into on the way. */
  ghost function Arriving(node: SyncStar, w: Walk): Option<Record>
    requires Proper(node, w)
    decreases Left(node, w)
  {
    if w.Ended? then None
    else if AtEnd(node, w) then Some(w.rec)
    else
      var next := Round(node, w);
      if next.Ended? then None else (RoundGoesOn(node, w); Arriving(node, next))
  }

  /** All sync patterns accept the record, and no exit pattern does. */
  ghost predicate Spinning(node: SyncStar, rec: Record) {
    !node.Exits(rec) && forall i :: 0 <= i < |node.sync| ==> Accepts(node.sync[i], rec)
  }

  /** A fresh cell that such a record fills on its own merges to the record itself. */
  lemma FillsAlone(node: SyncStar, rec: Record)
    requires |node.sync| > 0 && Takes(node.sync, Fresh(|node.sync|), rec)
    ensures var filled := Fill(node.sync, Fresh(|node.sync|), rec);
      && (Complete(filled) <==> forall i :: 0 <= i < |node.sync| ==> Accepts(node.sync[i], rec))
      && (Complete(filled) ==> filled[0].Stored? && Merge(node.sync, filled, rec.detref) == rec)
  {
    var blank := Fresh(|node.sync|);
    var filled := Fill(node.sync, blank, rec);
    assert forall i :: 0 <= i < |node.sync| ==> (TakesAt(node.sync, blank, rec, i) <==> Accepts(node.sync[i], rec));
    assert forall i :: 0 <= i < |node.sync| ==> (!filled[i].Dummy? <==> Accepts(node.sync[i], rec));
    if Complete(filled) {
      assert TakesAt(node.sync, blank, rec, 0);
      forall i | 1 <= i < |filled| ensures filled[i] == Empty {
        assert TakesAt(node.sync, blank, rec, i) && TakesBefore(node.sync, blank, rec, i);
      }
      MergesAlone(node.sync, filled, rec.(detref := []), |filled|);
    }
  }

  lemma {:induction false} MergesAlone(rules: seq<Rule>, cell: Cell, first: Record, k: nat)
    requires |cell| == |rules| && 1 <= k <= |cell| && forall i :: 1 <= i < k ==> cell[i] == Empty
    ensures MergeUpTo(rules, cell, first, k) == first
  {
    if k > 1 { MergesAlone(rules, cell, first, k - 1); }
  }

  /** The end of the list, round by round: a record that all patterns accept comes back to it
      unchanged, any other one is stored, or rejected by all. */
  lemma AtTheEnd(node: SyncStar, w: Walk)
    requires Proper(node, w) && AtEnd(node, w)
    ensures Spinning(node, w.rec) ==> Round(node, w) == w.(untested := AllBits(node))
    ensures !Spinning(node, w.rec) ==> Rounds(node, w, 2).Ended?
  {
    hide Merge, MatchesAny, Sound, Matched;
    var blank := Fresh(|node.sync|);
    FreshIsSound(node.sync);
    assert Rounds(node, w, 2) == Round(node, Round(node, w)) by { TwoRounds(node, w); }
    if Takes(node.sync, blank, w.rec) {
      FillsAlone(node, w.rec);
      assert Without(w.cells, w.at) + [blank] == w.cells;
      if Spinning(node, w.rec) { SpinTests(node, w); }
    } else {
      NobodyAccepts(node, w);
    }
  }

  lemma TwoRounds(node: SyncStar, w: Walk)
    requires Proper(node, w)
    ensures Rounds(node, w, 2) == Round(node, Round(node, w))
  {
    hide Round;
    assert Rounds(node, Round(node, w), 1) == Rounds(node, Round(node, Round(node, w)), 0);
  }

  lemma SpinTests(node: SyncStar, w: Walk)
    requires Proper(node, w) && w.Going? && Spinning(node, w.rec)
    ensures w.untested != {}
  {
    assert Accepts(node.sync[0], w.rec);
  }

  lemma NobodyAccepts(node: SyncStar, w: Walk)
    requires Proper(node, w) && AtEnd(node, w) && !Takes(node.sync, Fresh(|node.sync|), w.rec)
    ensures !Spinning(node, w.rec) && w.untested - Unmatched(Fresh(|node.sync|)) == {}
  {
    assert !TakesAt(node.sync, Fresh(|node.sync|), w.rec, 0);
  }

  lemma {:induction false} SpinsOn(node: SyncStar, w: Walk, n: nat)
    requires Proper(node, w) && AtEnd(node, w) && Spinning(node, w.rec)
    ensures Rounds(node, w, n).Going? && AtEnd(node, Rounds(node, w, n)) && Rounds(node, w, n).rec == w.rec
    decreases n
  {
    hide Round;
    if n > 0 {
      AtTheEnd(node, w);
      SpinsOn(node, Round(node, w), n - 1);
    }
  }

  // ---------- when the loop ends ----------

  /** For every list and record: the loop ends if and only if no spinning record arrives at
      the end of the list. Otherwise no number of rounds ends it. */
  lemma {:induction false} EndsExactly(node: SyncStar, w: Walk)
    requires Proper(node, w)
    ensures Ends(node, w) <==> (Arriving(node, w).Some? ==> !Spinning(node, Arriving(node, w).value))
    decreases Left(node, w)
  {
    hide Round, Spinning;
    if w.Ended? {
      assert Rounds(node, w, 0).Ended?;
    } else if AtEnd(node, w) {
      AtTheEnd(node, w);
      forall n: nat ensures Spinning(node, w.rec) ==> !Rounds(node, w, n).Ended? {
        if Spinning(node, w.rec) { SpinsOn(node, w, n); }
      }
    } else {
      var next := Round(node, w);
      OneRoundOn(node, w);
      if next.Going? {
        RoundGoesOn(node, w);
        EndsExactly(node, next);
      } else {
        assert Rounds(node, next, 0).Ended?;
      }
    }
  }

  lemma OneRoundOn(node: SyncStar, w: Walk)
    requires Proper(node, w) && w.Going?
    ensures Ends(node, w) <==> Ends(node, Round(node, w))
  {
    hide Round;
    if Ends(node, w) {
      var n: nat :| Rounds(node, w, n).Ended?;
      assert Rounds(node, Round(node, w), n - 1).Ended?;
    }
    if Ends(node, Round(node, w)) {
      var n: nat :| Rounds(node, Round(node, w), n).Ended?;
      assert Rounds(node, w, n + 1).Ended?;
    }
  }

  /** For a node: its loop ends on every list and every record if and only if every record
      that all sync patterns accept leaves through an exit pattern. */
  lemma EndsAlways(node: SyncStar)
    requires |node.sync| > 0
    ensures (forall w: Walk :: Proper(node, w) ==> Ends(node, w)) <==> node.NoSpin()
  {
    hide Round, Accepts, MatchesAny, SyncStar.NoSpin, Spinning;
    NoSpinMeans(node);
    if node.NoSpin() {
      forall w: Walk | Proper(node, w) ensures Ends(node, w) { EndsExactly(node, w); }
    } else {
      var rec: Record :| Spinning(node, rec);
      assert !node.Exits(rec) by { SpinningStays(node, rec); }
      var w := Start(node, [], rec);
      assert AtEnd(node, w) by { assert [] + [Fresh(|node.sync|)] == [Fresh(|node.sync|)]; }
      EndsExactly(node, w);
    }
  }

  lemma NoSpinMeans(node: SyncStar)
    requires |node.sync| > 0
    ensures node.NoSpin() <==> forall rec: Record :: !Spinning(node, rec)
  {
    hide Accepts, MatchesAny;
    if !node.NoSpin() {
      var rec: Record :| !((forall i :: 0 <= i < |node.sync| ==> Accepts(node.sync[i], rec)) ==> node.Exits(rec));
      assert Spinning(node, rec);
    }
  }

  lemma SpinningStays(node: SyncStar, rec: Record)
    requires Spinning(node, rec)
    ensures !node.Exits(rec)
  {
  }

  /** A node and a record on which the loop never ends, from the empty list on. */
  lemma SpinExample()
    ensures var node := SyncStar([Rule(Variant({0}, {}, {}), rec => true), Rule(Variant({1}, {}, {}), rec => true)],
                                 [Rule(Variant({2}, {}, {}), rec => true)]);
      var rec := Record(map[0 := 7, 1 := 7], map[], map[], []);
      Spinning(node, rec) && !Ends(node, Start(node, [], rec))
  {
    hide Round;
    var node := SyncStar([Rule(Variant({0}, {}, {}), rec => true), Rule(Variant({1}, {}, {}), rec => true)],
                         [Rule(Variant({2}, {}, {}), rec => true)]);
    var rec := Record(map[0 := 7, 1 := 7], map[], map[], []);
    assert Spinning(node, rec);
    EndsExactly(node, Start(node, [], rec));
  }

  /** The chain has the same trouble: a spinning record behind the last cell never settles. */
  lemma {:induction false} ChainSpins(node: SyncStar, c: Config, n: nat)
    requires |node.sync| > 0 && Good(node, c) && c.At? && c.pos == |c.stages| && Spinning(node, c.rec)
    ensures Hops(node, c, n).At?
    decreases n
  {
    hide Fill, Takes, Complete, Merge, MatchesAny;
    if n > 0 {
      SpinTakes(node, c.rec);
      FillsAlone(node, c.rec);
      var longer := c.stages + [Open(Fresh(|node.sync|))];
      assert Hop(node, c) == At(longer[c.pos := Done], c.pos + 1, c.rec);
      ChainSpins(node, Hop(node, c), n - 1);
    }
  }

  lemma SpinTakes(node: SyncStar, rec: Record)
    requires |node.sync| > 0 && Spinning(node, rec)
    ensures Takes(node.sync, Fresh(|node.sync|), rec)
  {
    assert TakesAt(node.sync, Fresh(|node.sync|), rec, 0);
  }

  /** At the end of the list, a second fresh cell goes behind the first one exactly when no
      sync pattern accepts the record: the assertion that neighbours differ then fails. */
  lemma SecondFreshExactly(node: SyncStar, w: Walk)
    requires Proper(node, w) && AtEnd(node, w) && w.untested != {}
    ensures (Round(node, w).Going? && Round(node, w).cells == w.cells + [Fresh(|node.sync|)]) <==>
      (forall i :: 0 <= i < |node.sync| ==> !Accepts(node.sync[i], w.rec))
  {
    hide Merge, MatchesAny, Sound, Matched;
    FreshIsSound(node.sync);
    assert forall i :: 0 <= i < |node.sync| ==>
      (TakesAt(node.sync, Fresh(|node.sync|), w.rec, i) <==> Accepts(node.sync[i], w.rec));
    if Takes(node.sync, Fresh(|node.sync|), w.rec) {
      FillsAlone(node, w.rec);
      if w.at > 0 { assert |Round(node, w).cells| <= |w.cells|; }
    }
  }

  // ---------- the rounds do what Pass says ----------

  /** Where the loop ends, it has done what the specification says, up to fresh cells at the end. */
  ghost predicate DoesPass(node: SyncStar, w: Walk, n: nat)
    requires node.NoSpin() && Proper(node, w) && w.Going?
  {
    var end := Rounds(node, w, n);
    end.Ended? && Alike(Outcome(end.cells, end.events), Pass(node, w.cells, w.at, w.rec, false))
  }

  lemma {:induction false} RoundsArePass(node: SyncStar, w: Walk) returns (n: nat)
    requires node.NoSpin() && Proper(node, w) && w.Going?
    ensures DoesPass(node, w, n)
    decreases Left(node, w)
  {
    hide Round, Pass, Alike, Fill, Takes, Complete, Merge, MatchesAny, Accepts, Trim, Rounds;
    if AtEnd(node, w) || Round(node, w).Ended? {
      n := EndIsPass(node, w);
    } else {
      RoundGoesOn(node, w);
      var m := RoundsArePass(node, Round(node, w));
      n := m + 1;
      RoundKeepsPass(node, w);
      MoreRounds(node, w, m);
      AlikeChain(Outcome(Rounds(node, w, n).cells, Rounds(node, w, n).events),
                 Pass(node, Round(node, w).cells, Round(node, w).at, Round(node, w).rec, false),
                 Pass(node, w.cells, w.at, w.rec, false));
    }
  }

  lemma MoreRounds(node: SyncStar, w: Walk, m: nat)
    requires Proper(node, w)
    ensures Rounds(node, w, m + 1) == Rounds(node, Round(node, w), m)
  {
    hide Round;
  }

  lemma AlikeChain(a: Outcome, b: Outcome, c: Outcome)
    requires Alike(a, b) && Alike(b, c)
    ensures Alike(a, c)
  {
  }

  /** A round that goes on leaves the specified outcome alone. */
  lemma RoundKeepsPass(node: SyncStar, w: Walk)
    requires node.NoSpin() && Proper(node, w) && w.Going? && !AtEnd(node, w) && Round(node, w).Going?
    ensures var w' := Round(node, w);
      Alike(Pass(node, w'.cells, w'.at, w'.rec, false), Pass(node, w.cells, w.at, w.rec, false))
  {
    hide Fill, Takes, Complete, Merge, MatchesAny, Accepts, Trim, Sound, Matched, Pass, Alike;
    var cell := w.cells[w.at];
    FreshIsSound(node.sync);
    if !Takes(node.sync, cell, w.rec) {
      PassSkips(node, w.cells, w.at, w.rec);
      ReachingAlike(node, w.cells, w.at + 1, w.rec);
    } else {
      var filled := Fill(node.sync, cell, w.rec);
      PassTakes(node, w.cells, w.at, w.rec, false, filled);
      var merged := Merge(node.sync, filled, w.rec.detref);
      if w.at == 0 {
        ReachingAlike(node, [], 0, merged);
        assert [] + [Fresh(|node.sync|)] == [Fresh(|node.sync|)];
      } else {
        ReachingAlike(node, Without(w.cells, w.at), w.at, merged);
      }
    }
  }

  lemma PassSkips(node: SyncStar, cells: seq<Cell>, k: nat, rec: Record)
    requires node.NoSpin() && node.AllWaiting(cells) && k < |cells| && !node.Exits(rec) && !Takes(node.sync, cells[k], rec)
    ensures Pass(node, cells, k, rec, false) == Pass(node, cells, k + 1, rec, false)
  {
    hide Takes, Fill, Complete, Merge, MatchesAny, Accepts;
  }

  lemma ReachingAlike(node: SyncStar, cells: seq<Cell>, at: nat, rec: Record)
    requires node.NoSpin() && node.AllWaiting(cells) && at <= |cells| && !node.Exits(rec)
    ensures node.AllWaiting(Reaching(node, cells, at))
    ensures Alike(Pass(node, Reaching(node, cells, at), at, rec, false), Pass(node, cells, at, rec, false))
  {
    hide Pass, Trim, MatchesAny, Accepts;
    PassFresh(node, cells, at, rec, false);
  }

  /** The last rounds: the record is stored, leaves, or is rejected by all. */
  lemma EndIsPass(node: SyncStar, w: Walk) returns (n: nat)
    requires node.NoSpin() && Proper(node, w) && w.Going? && (AtEnd(node, w) || Round(node, w).Ended?)
    ensures DoesPass(node, w, n)
  {
    hide Fill, Complete, Merge, MatchesAny, Accepts, Trim, Sound, Matched, Pass;
    if w.untested == {} {
      n := 1;
      RejectedAll(node, w);
    } else if Takes(node.sync, w.cells[w.at], w.rec) {
      n := 1;
      TakenIsPass(node, w);
    } else {
      n := 2;
      DroppedIsPass(node, w);
    }
  }

  lemma RejectedAll(node: SyncStar, w: Walk)
    requires node.NoSpin() && Proper(node, w) && w.Going? && w.untested == {}
    ensures DoesPass(node, w, 1)
  {
    hide Fill, Complete, Merge, MatchesAny, Accepts, Trim, Pass, Takes;
    NobodyStores(node, w.cells, w.at, w.rec);
    assert Rounds(node, Round(node, w), 0) == Round(node, w);
  }

  lemma {:induction false} NobodyStores(node: SyncStar, cells: seq<Cell>, k: nat, rec: Record)
    requires node.NoSpin() && node.AllWaiting(cells) && k <= |cells| && !node.Exits(rec)
    requires forall i: nat :: i < |node.sync| ==> !Accepts(node.sync[i], rec)
    ensures Pass(node, cells, k, rec, false) == Outcome(cells, [])
    decreases |cells| - k
  {
    hide Fill, Complete, Merge, MatchesAny, Accepts;
    if k < |cells| {
      NobodyStores(node, cells, k + 1, rec);
    }
  }

  lemma TakenIsPass(node: SyncStar, w: Walk)
    requires node.NoSpin() && Proper(node, w) && w.Going? && (AtEnd(node, w) || Round(node, w).Ended?)
    requires w.untested != {} && Takes(node.sync, w.cells[w.at], w.rec)
    ensures DoesPass(node, w, 1)
  {
    hide Fill, Complete, Merge, MatchesAny, Accepts, Trim, Pass, Takes, Sound, Matched;
    var filled := Fill(node.sync, w.cells[w.at], w.rec);
    PassTakes(node, w.cells, w.at, w.rec, false, filled);
    if AtEnd(node, w) { FreshStaysOpen(node, w.rec); }
    assert Rounds(node, Round(node, w), 0) == Round(node, w);
  }

  lemma DroppedIsPass(node: SyncStar, w: Walk)
    requires node.NoSpin() && Proper(node, w) && AtEnd(node, w)
    requires w.untested != {} && !Takes(node.sync, w.cells[w.at], w.rec)
    ensures DoesPass(node, w, 2)
  {
    hide Fill, Complete, Merge, MatchesAny, Trim, Pass, Sound, Matched;
    NobodyAccepts(node, w);
    TwoRounds(node, w);
    PassedByRejects(node, w);
    NobodyStores(node, w.cells, w.at, w.rec);
    TrimFresh(w.cells, |node.sync|);
  }
}
