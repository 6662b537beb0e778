/** A star whose operand is a synchrocell: an unbounded chain of stars and cells.
    A record visits one star and one cell per hop; new cells are instantiated
    on demand. */
module StarChain {
  import opened Records
  import opened Synchrocell

  datatype SyncStar = SyncStar(sync: seq<Rule>, exits: seq<Rule>) {
    predicate Exits(rec: Record) {
      MatchesAny(exits, rec)
    }

    /** A record that fills a fresh cell on its own leaves through an exit pattern.
        Without this the chain unfolds forever on such a record. */
    ghost predicate NoSpin() {
      |sync| > 0 && forall rec: Record :: (forall i :: 0 <= i < |sync| ==> Accepts(sync[i], rec)) ==> Exits(rec)
    }

    /** A cell that still waits for records. */
    ghost predicate Waiting(cell: Cell) {
      |cell| == |sync| && Sound(cell) && Matched(sync, cell) && !Complete(cell)
    }

    ghost predicate AllWaiting(cells: seq<Cell>) {
      forall i :: 0 <= i < |cells| ==> Waiting(cells[i])
    }
  }

  /** An instantiated cell: complete and transparent, or open. */
  datatype Stage = Done | Open(cell: Cell)

  ghost predicate WellFormed(node: SyncStar, stages: seq<Stage>) {
    forall i :: 0 <= i < |stages| && stages[i].Open? ==> node.Waiting(stages[i].cell)
  }

  /** A record before star number pos, or the end of its journey. */
  datatype Config =
    | At(stages: seq<Stage>, pos: nat, rec: Record)
    | Settled(stages: seq<Stage>, event: Event)

  ghost predicate Good(node: SyncStar, c: Config) {
    && WellFormed(node, c.stages)
    && (c.At? ==> c.pos <= |c.stages|)
  }

  /** One hop: the exit test of a star, then its synchrocell. */
  ghost function Hop(node: SyncStar, c: Config): (c': Config)
    requires |node.sync| > 0 && Good(node, c)
    ensures Good(node, c')
  {
    if c.Settled? then c
    else if node.Exits(c.rec) then Settled(c.stages, Output(c.rec))
    else
      FreshIsSound(node.sync);
      var stages := if c.pos < |c.stages| then c.stages else c.stages + [Open(Fresh(|node.sync|))];
      match stages[c.pos]
      case Done => At(stages, c.pos + 1, c.rec)
      case Open(cell) =>
        if !Takes(node.sync, cell, c.rec) then At(stages, c.pos + 1, c.rec)
        else
          FillKeepsSound(node.sync, cell, c.rec);
          var filled := Fill(node.sync, cell, c.rec);
          if Complete(filled) then
            CompleteHasFirst(filled);
            At(stages[c.pos := Done], c.pos + 1, Merge(node.sync, filled, c.rec.detref))
          else Settled(stages[c.pos := Open(filled)], Release(c.rec.detref))
  }

  ghost function Hops(node: SyncStar, c: Config, n: nat): (c': Config)
    requires |node.sync| > 0 && Good(node, c)
    ensures Good(node, c')
    decreases n
  {
    if n == 0 then c else Hops(node, Hop(node, c), n - 1)
  }

  ghost function CellOf(stage: Stage): seq<Cell> {
    match stage
    case Done => []
    case Open(cell) => [cell]
  }

  /** The cells of the chain that still wait, in chain order. */
  ghost function Unfinished(stages: seq<Stage>): seq<Cell> {
    if |stages| == 0 then []
    else Unfinished(stages[..|stages| - 1]) + CellOf(stages[|stages| - 1])
  }

  lemma {:induction false} UnfinishedConcat(a: seq<Stage>, b: seq<Stage>)
    ensures Unfinished(a + b) == Unfinished(a) + Unfinished(b)
  {
    hide CellOf;
    if |b| == 0 {
      assert a + b == a;
      assert Unfinished(b) == [];
    } else {
      var n := |b| - 1;
      UnfinishedConcat(a, b[..n]);
      assert (a + b)[..|a + b| - 1] == a + b[..n];
      assert Unfinished(a) + (Unfinished(b[..n]) + CellOf(b[n])) == (Unfinished(a) + Unfinished(b[..n])) + CellOf(b[n]);
    }
  }

  lemma UnfinishedSnoc(stages: seq<Stage>, pos: nat)
    requires pos < |stages|
    ensures Unfinished(stages[..pos + 1]) == Unfinished(stages[..pos]) + CellOf(stages[pos])
  {
    assert stages[..pos + 1][..pos] == stages[..pos];
  }

  lemma UnfinishedOne(cell: Cell)
    ensures Unfinished([Open(cell)]) == [cell]
  {
    assert [Open(cell)][..0] == [];
    assert Unfinished([]) == [];
  }

  lemma UnfinishedAt(stages: seq<Stage>, pos: nat)
    requires pos < |stages|
    ensures Unfinished(stages) == Unfinished(stages[..pos]) + CellOf(stages[pos]) + Unfinished(stages[pos + 1..])
    ensures Unfinished(stages[..pos + 1]) == Unfinished(stages[..pos]) + CellOf(stages[pos])
  {
    hide Unfinished, CellOf;
    assert stages == stages[..pos + 1] + stages[pos + 1..];
    UnfinishedConcat(stages[..pos + 1], stages[pos + 1..]);
    UnfinishedSnoc(stages, pos);
  }

  lemma UnfinishedWaiting(node: SyncStar, stages: seq<Stage>)
    requires WellFormed(node, stages)
    ensures node.AllWaiting(Unfinished(stages))
  {
  }

  // ---------- trailing fresh cells ----------

  /** The list without the fresh cells at its end: an unbounded chain has
      infinitely many of those. */
  ghost function Trim(cells: seq<Cell>): seq<Cell> {
    if |cells| > 0 && cells[|cells| - 1] == Fresh(|cells[|cells| - 1]|) then Trim(cells[..|cells| - 1]) else cells
  }

  lemma {:induction false} TrimFresh(cells: seq<Cell>, width: nat)
    ensures Trim(cells + [Fresh(width)]) == Trim(cells)
  {
    assert (cells + [Fresh(width)])[..|cells|] == cells;
  }

  /** The record travels on forever: nothing it does shows. */
  ghost predicate Lost(node: SyncStar, c: Config)
    requires |node.sync| > 0 && Good(node, c)
  {
    forall m: nat :: Hops(node, c, m).At? && Trim(Unfinished(Hops(node, c, m).stages)) == Trim(Unfinished(c.stages))
  }

  /** The chain takes one input record: it settles with an event, or is lost. */
  ghost predicate Handles(node: SyncStar, stages: seq<Stage>, rec: Record, stages': seq<Stage>, events: seq<Event>)
    requires |node.sync| > 0 && WellFormed(node, stages)
  {
    exists n: nat :: HandlesIn(node, stages, rec, stages', events, n)
  }

  ghost predicate HandlesIn(node: SyncStar, stages: seq<Stage>, rec: Record, stages': seq<Stage>, events: seq<Event>, n: nat)
    requires |node.sync| > 0 && WellFormed(node, stages)
  {
    var c := Hops(node, At(stages, 0, rec), n);
    && c.stages == stages'
    && (if c.Settled? then events == [c.event] else events == [] && Lost(node, c))
  }

  /** A record that no sync pattern and no exit pattern accepts, once past the
      instantiated cells, is lost. */
  lemma {:induction false} NobodyTakes(node: SyncStar, c: Config)
    requires |node.sync| > 0 && Good(node, c) && c.At? && c.pos == |c.stages| && !node.Exits(c.rec)
    requires forall i :: 0 <= i < |node.sync| ==> !Accepts(node.sync[i], c.rec)
    ensures Lost(node, c)
  {
    forall m: nat
      ensures Hops(node, c, m).At? && Trim(Unfinished(Hops(node, c, m).stages)) == Trim(Unfinished(c.stages))
    {
      NobodyTakesIn(node, c, m);
    }
  }

  lemma {:induction false} NobodyTakesIn(node: SyncStar, c: Config, m: nat)
    requires |node.sync| > 0 && Good(node, c) && c.At? && c.pos == |c.stages| && !node.Exits(c.rec)
    requires forall i :: 0 <= i < |node.sync| ==> !Accepts(node.sync[i], c.rec)
    ensures Hops(node, c, m).At? && Trim(Unfinished(Hops(node, c, m).stages)) == Trim(Unfinished(c.stages))
    decreases m
  {
    hide Hop, Unfinished, Trim, Fresh, MatchesAny, Accepts, WellFormed;
    if m > 0 {
      PassesFresh(node, c);
      NobodyTakesIn(node, Hop(node, c), m - 1);
    }
  }

  lemma PassesFresh(node: SyncStar, c: Config)
    requires |node.sync| > 0 && Good(node, c) && c.At? && c.pos == |c.stages| && !node.Exits(c.rec)
    requires forall i :: 0 <= i < |node.sync| ==> !Accepts(node.sync[i], c.rec)
    ensures Hop(node, c) == At(c.stages + [Open(Fresh(|node.sync|))], c.pos + 1, c.rec)
    ensures Trim(Unfinished(Hop(node, c).stages)) == Trim(Unfinished(c.stages))
  {
    var blank := Fresh(|node.sync|);
    forall i | 0 <= i < |blank| ensures !TakesAt(node.sync, blank, c.rec, i) {
      assert !Accepts(node.sync[i], c.rec);
    }
    var longer := c.stages + [Open(blank)];
    assert longer[..|c.stages|] == c.stages;
    assert Unfinished(longer) == Unfinished(c.stages) + [blank];
    TrimFresh(Unfinished(c.stages), |node.sync|);
  }
}
