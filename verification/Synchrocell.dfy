/** The synchrocell: one storage slot per pattern, filled by the first record
    that matches; a complete cell emits one merged record and is transparent
    from then on. */
module Synchrocell {
  import opened Records

  /** A storage slot: still unmatched, matched without a record of its own
      (the record sits in an earlier slot), or holding a record. */
  datatype Slot = Dummy | Empty | Stored(rec: Record)

  type Cell = seq<Slot>

  ghost function Unmatched(cell: Cell): set<nat> {
    set i: nat | i < |cell| && cell[i].Dummy?
  }

  predicate Complete(cell: Cell) {
    forall i :: 0 <= i < |cell| ==> !cell[i].Dummy?
  }

  function Fresh(width: nat): (cell: Cell)
    ensures |cell| == width
  {
    seq(width, _ => Dummy)
  }

  /** Slot i is unmatched and the record matches pattern i. */
  predicate TakesAt(rules: seq<Rule>, cell: Cell, rec: Record, i: nat)
    requires |cell| == |rules| && i < |cell|
  {
    cell[i].Dummy? && Accepts(rules[i], rec)
  }

  predicate Takes(rules: seq<Rule>, cell: Cell, rec: Record)
    requires |cell| == |rules|
  {
    exists i :: 0 <= i < |cell| && TakesAt(rules, cell, rec, i)
  }

  /** Some slot before k takes the record. */
  predicate TakesBefore(rules: seq<Rule>, cell: Cell, rec: Record, k: nat)
    requires |cell| == |rules| && k <= |cell|
  {
    exists i :: 0 <= i < k && TakesAt(rules, cell, rec, i)
  }

  function SlotAfter(rules: seq<Rule>, cell: Cell, rec: Record, i: nat): Slot
    requires |cell| == |rules| && i < |cell|
  {
    if !TakesAt(rules, cell, rec, i) then cell[i]
    else if TakesBefore(rules, cell, rec, i) then Empty
    else Stored(rec.(detref := []))
  }

  /** The cell after the record has been offered to all its unmatched patterns.
      The record is kept once, in the first slot that takes it, without its
      determinism references. */
  function Fill(rules: seq<Rule>, cell: Cell, rec: Record): (filled: Cell)
    requires |cell| == |rules|
    ensures |filled| == |cell|
  {
    seq(|cell|, i requires 0 <= i < |cell| => SlotAfter(rules, cell, rec, i))
  }

  /** What that means for a slot: it changes if and only if it is unmatched, the record has all
      labels of its pattern, and its guard holds; then it holds the record, unless an earlier
      slot has changed and holds it. */
  lemma FillMeans(rules: seq<Rule>, cell: Cell, rec: Record, i: nat)
    requires |cell| == |rules| && i < |cell|
    ensures var filled := Fill(rules, cell, rec);
      && (filled[i] != cell[i] <==>
            cell[i].Dummy? && rules[i].pattern.fields <= rec.fields.Keys && rules[i].pattern.tags <= rec.tags.Keys &&
            rules[i].pattern.btags <= rec.btags.Keys && rules[i].guard(rec.(detref := [])))
      && (filled[i] != cell[i] ==>
            filled[i] == if exists j :: 0 <= j < i && filled[j] != cell[j] then Empty else Stored(rec.(detref := [])))
  {
    var filled := Fill(rules, cell, rec);
    forall j | 0 <= j < i ensures filled[j] != cell[j] <==> TakesAt(rules, cell, rec, j) {
      assert filled[j] == SlotAfter(rules, cell, rec, j);
    }
  }

  // ---------- merging ----------

  /** One stored record adds the labels its pattern names. */
  function MergeOne(result: Record, pattern: Variant, rec: Record): Record {
    result.(
    fields := result.fields + (map l | l in rec.fields && l in pattern.fields :: rec.fields[l]),
    tags := result.tags + (map l | l in rec.tags && l in pattern.tags :: rec.tags[l]))
  }

  /** The result after slots 1..k have been merged into the first record. */
  function MergeUpTo(rules: seq<Rule>, cell: Cell, first: Record, k: nat): Record
    requires |cell| == |rules| && 1 <= k <= |cell|
  {
    if k == 1 then first
    else
      var before := MergeUpTo(rules, cell, first, k - 1);
      match cell[k - 1]
      case Stored(rec) => MergeOne(before, rules[k - 1].pattern, rec)
      case _ => before
  }

  /** The merged record takes the determinism references of the last arrival. */
  function Merge(rules: seq<Rule>, cell: Cell, detref: seq<int>): Record
    requires |cell| == |rules| && |cell| >= 1 && cell[0].Stored?
  {
    MergeUpTo(rules, cell, cell[0].rec, |cell|).(detref := detref)
  }

  /** The first slot that is matched holds a record. */
  ghost predicate Sound(cell: Cell) {
    forall i :: 0 <= i < |cell| && cell[i].Empty? ==> exists j :: 0 <= j < i && cell[j].Stored?
  }

  /** The slot owes its match to a record that its rule accepts, guard included: to the one it
      holds, or to one in an earlier slot. */
  ghost predicate Owed(rules: seq<Rule>, cell: Cell, i: nat)
    requires |cell| == |rules| && i < |cell|
  {
    match cell[i]
    case Dummy => true
    case Stored(rec) => Accepts(rules[i], rec)
    case Empty => exists j :: 0 <= j < i && cell[j].Stored? && Accepts(rules[i], cell[j].rec)
  }

  ghost predicate Matched(rules: seq<Rule>, cell: Cell)
    requires |cell| == |rules|
  {
    forall i :: 0 <= i < |cell| ==> Owed(rules, cell, i)
  }

  lemma FreshIsSound(rules: seq<Rule>)
    ensures Sound(Fresh(|rules|)) && Matched(rules, Fresh(|rules|))
    ensures |rules| > 0 ==> !Complete(Fresh(|rules|))
  {
    if |rules| > 0 {
      assert Fresh(|rules|)[0].Dummy?;
    }
  }

  /** Offering a record keeps a cell sound. */
  lemma FillKeepsSound(rules: seq<Rule>, cell: Cell, rec: Record)
    requires |cell| == |rules| && Sound(cell) && Matched(rules, cell)
    ensures Sound(Fill(rules, cell, rec)) && Matched(rules, Fill(rules, cell, rec))
  {
    var filled := Fill(rules, cell, rec);
    forall i | 0 <= i < |filled| && filled[i].Empty?
      ensures exists j :: 0 <= j < i && filled[j].Stored?
    {
      if cell[i].Empty? {
        var j :| 0 <= j < i && cell[j].Stored?;
        assert filled[j].Stored?;
      } else {
        assert TakesBefore(rules, cell, rec, i);
        var j := FirstTaker(rules, cell, rec, i);
        assert filled[j].Stored?;
      }
    }
    forall i | 0 <= i < |filled| ensures Owed(rules, filled, i) {
      FillKeepsOwed(rules, cell, rec, i);
    }
  }

  lemma FillKeepsOwed(rules: seq<Rule>, cell: Cell, rec: Record, i: nat)
    requires |cell| == |rules| && i < |cell| && Owed(rules, cell, i)
    ensures Owed(rules, Fill(rules, cell, rec), i)
  {
    var filled := Fill(rules, cell, rec);
    if TakesAt(rules, cell, rec, i) {
      assert Accepts(rules[i], rec.(detref := []));
      if TakesBefore(rules, cell, rec, i) {
        var j := FirstTaker(rules, cell, rec, i);
        assert filled[j] == Stored(rec.(detref := []));
      }
    } else if cell[i].Empty? {
      var j :| 0 <= j < i && cell[j].Stored? && Accepts(rules[i], cell[j].rec);
      assert filled[j] == cell[j];
    }
  }

  lemma FirstTaker(rules: seq<Rule>, cell: Cell, rec: Record, k: nat) returns (i: nat)
    requires |cell| == |rules| && k <= |cell| && TakesBefore(rules, cell, rec, k)
    ensures i < k && TakesAt(rules, cell, rec, i) && !TakesBefore(rules, cell, rec, i)
  {
    i :| i < k && TakesAt(rules, cell, rec, i);
    if TakesBefore(rules, cell, rec, i) {
      i := FirstTaker(rules, cell, rec, i);
    }
  }

  /** In a complete sound cell the merge always finds its first record. */
  lemma CompleteHasFirst(cell: Cell)
    requires Sound(cell) && Complete(cell) && |cell| > 0
    ensures cell[0].Stored?
  {
  }

  /** Flow inheritance: the merged record keeps every label of the first record,
      gains exactly the labels that a stored record shares with its pattern,
      and has no others. */
  lemma {:induction false} MergedLabels(rules: seq<Rule>, cell: Cell, first: Record, k: nat)
    requires |cell| == |rules| && 1 <= k <= |cell|
    ensures var r := MergeUpTo(rules, cell, first, k);
      && (forall l :: l in r.fields <==> (l in first.fields ||
           exists i :: 1 <= i < k && cell[i].Stored? && l in cell[i].rec.fields && l in rules[i].pattern.fields))
      && (forall l :: l in r.tags <==> (l in first.tags ||
           exists i :: 1 <= i < k && cell[i].Stored? && l in cell[i].rec.tags && l in rules[i].pattern.tags))
      && r.btags == first.btags
  {
    if k > 1 {
      MergedLabels(rules, cell, first, k - 1);
    }
  }

  /** The value of a label is the one of the last stored record whose pattern names it. */
  lemma {:induction false} MergedFieldValue(rules: seq<Rule>, cell: Cell, first: Record, k: nat, i: nat, l: int)
    requires |cell| == |rules| && 1 <= i < k <= |cell|
    requires cell[i].Stored? && l in cell[i].rec.fields && l in rules[i].pattern.fields
    requires forall j :: i < j < k && cell[j].Stored? ==> l !in cell[j].rec.fields || l !in rules[j].pattern.fields
    ensures l in MergeUpTo(rules, cell, first, k).fields
    ensures MergeUpTo(rules, cell, first, k).fields[l] == cell[i].rec.fields[l]
  {
    if k > i + 1 {
      MergedFieldValue(rules, cell, first, k - 1, i, l);
    }
  }

  /** The same for tags. */
  lemma {:induction false} MergedTagValue(rules: seq<Rule>, cell: Cell, first: Record, k: nat, i: nat, l: int)
    requires |cell| == |rules| && 1 <= i < k <= |cell|
    requires cell[i].Stored? && l in cell[i].rec.tags && l in rules[i].pattern.tags
    requires forall j :: i < j < k && cell[j].Stored? ==> l !in cell[j].rec.tags || l !in rules[j].pattern.tags
    ensures l in MergeUpTo(rules, cell, first, k).tags
    ensures MergeUpTo(rules, cell, first, k).tags[l] == cell[i].rec.tags[l]
  {
    if k > i + 1 {
      MergedTagValue(rules, cell, first, k - 1, i, l);
    }
  }

  /** A label of the first record that no later stored record shares with its pattern keeps
      the first record's value; binding tags always do. */
  lemma {:induction false} FirstValueStays(rules: seq<Rule>, cell: Cell, first: Record, k: nat, l: int)
    requires |cell| == |rules| && 1 <= k <= |cell|
    ensures var r := MergeUpTo(rules, cell, first, k);
      && (l in first.fields && (forall j :: 1 <= j < k && cell[j].Stored? ==> l !in cell[j].rec.fields || l !in rules[j].pattern.fields) ==>
            l in r.fields && r.fields[l] == first.fields[l])
      && (l in first.tags && (forall j :: 1 <= j < k && cell[j].Stored? ==> l !in cell[j].rec.tags || l !in rules[j].pattern.tags) ==>
            l in r.tags && r.tags[l] == first.tags[l])
      && r.btags == first.btags && r.detref == first.detref
  {
    if k > 1 {
      FirstValueStays(rules, cell, first, k - 1, l);
    }
  }

  /** A merged record has the fields and tags of every sync pattern whose record was stored;
      its binding tags are those of the first record only. So it matches such a pattern
      exactly when the first record has the pattern's binding tags. */
  lemma MergedMatches(rules: seq<Rule>, cell: Cell, detref: seq<int>, i: nat)
    requires |cell| == |rules| && |cell| >= 1 && cell[0].Stored? && i < |cell| && cell[i].Stored?
    requires Matched(rules, cell)
    ensures rules[i].pattern.fields <= Merge(rules, cell, detref).fields.Keys
    ensures rules[i].pattern.tags <= Merge(rules, cell, detref).tags.Keys
    ensures Merge(rules, cell, detref).btags == cell[0].rec.btags && Merge(rules, cell, detref).detref == detref
    ensures PatternMatches(rules[i].pattern, Merge(rules, cell, detref)) <==> rules[i].pattern.btags <= cell[0].rec.btags.Keys
  {
    MergedLabels(rules, cell, cell[0].rec, |cell|);
    var r := Merge(rules, cell, detref);
    assert Owed(rules, cell, i);
    assert forall l :: l in rules[i].pattern.fields ==> l in cell[i].rec.fields && l in r.fields;
    assert forall l :: l in rules[i].pattern.tags ==> l in cell[i].rec.tags && l in r.tags;
  }

  // ---------- the landing ----------

  datatype SyncState = Initial | Partial | SyncComplete

  /** The state of one synchrocell landing. */
  class SyncLanding {
    const rules: seq<Rule>
    const storage: array<Slot>
    var matchCount: nat
    var state: SyncState

    constructor (rules: seq<Rule>)
      requires |rules| > 0
      ensures Valid() && this.rules == rules && fresh(storage)
      ensures state == Initial && storage[..] == Fresh(|rules|)
    {
      this.rules := rules;
      storage := new Slot[|rules|](_ => Dummy);
      matchCount := 0;
      state := Initial;
      new;
      assert CountMatched(storage[..]) == 0 by { CountDummies(storage[..]); }
      FreshIsSound(rules);
      assert storage[..] == Fresh(|rules|);
    }

    ghost predicate Valid()
      reads this, storage
    {
      && |rules| == storage.Length > 0
      && (state != SyncComplete ==>
            && matchCount == CountMatched(storage[..])
            && !Complete(storage[..])
            && Sound(storage[..]) && Matched(rules, storage[..]))
    }

    /** Offer the record to every unmatched pattern. */
    method MatchPatterns(rec: Record) returns (newMatches: nat)
      requires Valid() && state != SyncComplete
      modifies this, storage
      ensures storage[..] == Fill(rules, old(storage[..]), rec)
      ensures newMatches > 0 <==> Takes(rules, old(storage[..]), rec)
      ensures matchCount == CountMatched(storage[..])
      ensures state == (if newMatches > 0 then Partial else old(state))
      ensures forall i :: 0 <= i < |rules| ==>
        (storage[..][i] != old(storage[..])[i] <==>
          old(storage[..])[i].Dummy? && rules[i].pattern.fields <= rec.fields.Keys && rules[i].pattern.tags <= rec.tags.Keys &&
          rules[i].pattern.btags <= rec.btags.Keys && rules[i].guard(rec.(detref := [])))
    {
      ghost var cell := storage[..];
      newMatches := 0;
      for i := 0 to storage.Length
        invariant forall j :: i <= j < storage.Length ==> storage[j] == cell[j]
        invariant forall j :: 0 <= j < i ==> storage[j] == SlotAfter(rules, cell, rec, j)
        invariant newMatches == NumTaken(rules, cell, rec, i)
        invariant matchCount == old(matchCount)
        invariant state == if newMatches > 0 then Partial else old(state)
      {
        NumTakenPositive(rules, cell, rec, i);
        if storage[i].Dummy? && PatternMatches(rules[i].pattern, rec) && rules[i].guard(rec.(detref := [])) {
          newMatches := newMatches + 1;
          if newMatches == 1 {
            storage[i] := Stored(rec.(detref := []));
          } else {
            storage[i] := Empty;
          }
          state := Partial;
        }
      }
      matchCount := matchCount + newMatches;
      assert storage[..] == Fill(rules, cell, rec);
      NumTakenPositive(rules, cell, rec, |cell|);
      CountFilled(rules, cell, rec, |cell|);
      forall i | 0 <= i < |rules| ensures storage[..][i] == Fill(rules, cell, rec)[i] { FillMeans(rules, cell, rec, i); }
      assert cell[..|cell|] == cell && storage[..][..|cell|] == storage[..];
    }

    /** Merge the other stored records into the first one. */
    method MergeFromStorage() returns (result: Record)
      requires |rules| == storage.Length > 0 && storage[0].Stored?
      modifies storage
      ensures result == MergeUpTo(rules, old(storage[..]), old(storage[0]).rec, |rules|)
      ensures forall i :: 0 <= i < storage.Length ==> !storage[i].Stored?
    {
      ghost var cell := storage[..];
      result := storage[0].rec;
      storage[0] := Empty;
      for i := 0 to |rules|
        invariant forall j :: i <= j < |rules| && j != 0 ==> storage[j] == cell[j]
        invariant i == 0 ==> storage[0] == Empty && result == cell[0].rec
        invariant i > 0 ==> result == MergeUpTo(rules, cell, cell[0].rec, i)
        invariant forall j :: 0 <= j < i ==> !storage[j].Stored?
      {
        if storage[i].Stored? {
          result := MergeOne(result, rules[i].pattern, storage[i].rec);
          storage[i] := Dummy;
        }
      }
      storage[0] := Dummy;
    }

    /** Handle one data record: forward it, keep it, or emit the merged record. */
    method NodeSyncData(rec: Record) returns (complete: bool, events: seq<Event>)
      requires Valid() && state != SyncComplete
      modifies this, storage
      ensures Valid() && complete == (state == SyncComplete)
      ensures !Takes(rules, old(storage[..]), rec) ==>
        events == [Output(rec)] && storage[..] == old(storage[..]) && !complete
      ensures Takes(rules, old(storage[..]), rec) ==>
        var filled := Fill(rules, old(storage[..]), rec);
        && complete == Complete(filled)
        && (complete ==> filled[0].Stored? && events == [Output(Merge(rules, filled, rec.detref))])
        && (!complete ==> storage[..] == filled && events == [Release(rec.detref)])
    {
      ghost var cell := storage[..];
      var newMatches := MatchPatterns(rec);
      FillKeepsSound(rules, cell, rec);
      CountComplete(storage[..]);
      if newMatches == 0 {
        events := [Output(rec)];
        assert storage[..] == cell;
      } else if matchCount == |rules| {
        state := SyncComplete;
        CompleteHasFirst(storage[..]);
        var out := MergeFromStorage();
        events := [Output(out.(detref := rec.detref))];
      } else {
        events := [Release(rec.detref)];
      }
      complete := state == SyncComplete;
    }
  }

  /** How many slots are matched: the landing's match_count. */
  ghost function CountMatched(cell: Cell): nat {
    if |cell| == 0 then 0
    else CountMatched(cell[..|cell| - 1]) + if cell[|cell| - 1].Dummy? then 0 else 1
  }

  lemma CountDummies(cell: Cell)
    requires forall i :: 0 <= i < |cell| ==> cell[i].Dummy?
    ensures CountMatched(cell) == 0
  {
  }

  /** How many of the first k slots take the record. */
  ghost function NumTaken(rules: seq<Rule>, cell: Cell, rec: Record, k: nat): nat
    requires |cell| == |rules| && k <= |cell|
  {
    if k == 0 then 0
    else NumTaken(rules, cell, rec, k - 1) + if TakesAt(rules, cell, rec, k - 1) then 1 else 0
  }

  lemma {:induction false} NumTakenPositive(rules: seq<Rule>, cell: Cell, rec: Record, k: nat)
    requires |cell| == |rules| && k <= |cell|
    ensures NumTaken(rules, cell, rec, k) > 0 <==> TakesBefore(rules, cell, rec, k)
  {
    if k > 0 {
      NumTakenPositive(rules, cell, rec, k - 1);
    }
  }

  lemma {:induction false} CountFilled(rules: seq<Rule>, cell: Cell, rec: Record, k: nat)
    requires |cell| == |rules| && k <= |cell|
    ensures CountMatched(Fill(rules, cell, rec)[..k]) == CountMatched(cell[..k]) + NumTaken(rules, cell, rec, k)
  {
    if k > 0 {
      CountFilled(rules, cell, rec, k - 1);
      assert cell[..k][..k - 1] == cell[..k - 1];
      assert Fill(rules, cell, rec)[..k][..k - 1] == Fill(rules, cell, rec)[..k - 1];
    }
  }

  /** The count reaches the number of patterns exactly when the cell is complete. */
  lemma {:induction false} CountComplete(cell: Cell)
    ensures CountMatched(cell) <= |cell|
    ensures CountMatched(cell) == |cell| <==> Complete(cell)
  {
    if |cell| > 0 {
      CountComplete(cell[..|cell| - 1]);
    }
  }
}
