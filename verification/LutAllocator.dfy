/** The boundary-tag allocator for pages of the look-up table: every block carries its
    state and size in its first and in its last entry. */
module LutAllocator {
  import opened Options

  datatype Block = Block(free: bool, size: nat)

  // ---------- the table as a sequence of blocks ----------

  function Offset(blocks: seq<Block>, i: nat): nat
    requires i <= |blocks|
  {
    if i == 0 then 0 else Offset(blocks, i - 1) + blocks[i - 1].size
  }

  function Total(blocks: seq<Block>): nat { Offset(blocks, |blocks|) }

  /** No block is empty and no two neighbours are both free. */
  predicate Canonical(blocks: seq<Block>) {
    && (forall i :: 0 <= i < |blocks| ==> blocks[i].size >= 1)
    && (forall i :: 0 <= i < |blocks| - 1 ==> !(blocks[i].free && blocks[i + 1].free))
  }

  predicate Fits(b: Block, size: nat) { b.free && b.size >= size }

  /** The first block that fits. */
  function FirstFit(blocks: seq<Block>, size: nat): (o: Option<nat>)
    ensures o.Some? ==>
      o.value < |blocks| && Fits(blocks[o.value], size) && forall i :: 0 <= i < o.value ==> !Fits(blocks[i], size)
    ensures o.None? ==> forall i :: 0 <= i < |blocks| ==> !Fits(blocks[i], size)
  {
    if blocks == [] then None
    else if Fits(blocks[0], size) then Some(0)
    else match FirstFit(blocks[1..], size)
      case None => None
      case Some(i) => Some(i + 1)
  }

  function Splice(blocks: seq<Block>, i: nat, j: nat, middle: seq<Block>): seq<Block>
    requires i <= j <= |blocks|
  {
    blocks[..i] + middle + blocks[j..]
  }

  /** Take the first part of block i, and leave the rest free. */
  function Taken(blocks: seq<Block>, i: nat, size: nat): seq<Block>
    requires i < |blocks| && size <= blocks[i].size
  {
    Splice(blocks, i, i + 1, if blocks[i].size == size then [Block(false, size)]
                             else [Block(false, size), Block(true, blocks[i].size - size)])
  }

  /** Free block i and join it with its free neighbours. */
  function Released(blocks: seq<Block>, i: nat): seq<Block>
    requires i < |blocks|
  {
    Splice(blocks, First(blocks, i), Last(blocks, i) + 1, [Block(true, Joined(blocks, i))])
  }

  function Last(blocks: seq<Block>, i: nat): (last: nat)
    requires i < |blocks|
    ensures i <= last < |blocks|
  {
    if i + 1 < |blocks| && blocks[i + 1].free then i + 1 else i
  }

  function First(blocks: seq<Block>, i: nat): (first: nat)
    requires i < |blocks|
    ensures first <= i
  {
    if i > 0 && blocks[i - 1].free then i - 1 else i
  }

  function Joined(blocks: seq<Block>, i: nat): nat
    requires i < |blocks|
  {
    blocks[i].size
    + (if First(blocks, i) < i then blocks[i - 1].size else 0)
    + (if Last(blocks, i) > i then blocks[i + 1].size else 0)
  }

  lemma {:induction false} OffsetPrefix(a: seq<Block>, b: seq<Block>, i: nat)
    requires i <= |a| && i <= |b| && a[..i] == b[..i]
    ensures Offset(a, i) == Offset(b, i)
  {
    if i > 0 {
      assert a[i - 1] == a[..i][i - 1] == b[i - 1];
      assert a[..i - 1] == a[..i][..i - 1] == b[..i - 1];
      OffsetPrefix(a, b, i - 1);
    }
  }

  /** Offsets behind a splice move by the change in size. */
  lemma {:induction false} OffsetSplice(blocks: seq<Block>, i: nat, j: nat, middle: seq<Block>, k: nat)
    requires i <= j <= k <= |blocks|
    ensures var s := Splice(blocks, i, j, middle);
      && k - j + i + |middle| <= |s|
      && Offset(s, k - j + i + |middle|) == Offset(blocks, k) - Offset(blocks, j) + Offset(blocks, i) + Total(middle)
    decreases k
  {
    var s := Splice(blocks, i, j, middle);
    var at := k - j + i + |middle|;
    if k > j {
      assert s[at - 1] == blocks[k - 1];
      OffsetSplice(blocks, i, j, middle, k - 1);
    } else {
      OffsetMiddle(blocks, i, j, middle, |middle|);
    }
  }

  lemma {:induction false} OffsetMiddle(blocks: seq<Block>, i: nat, j: nat, middle: seq<Block>, m: nat)
    requires i <= j <= |blocks| && m <= |middle|
    ensures Offset(Splice(blocks, i, j, middle), i + m) == Offset(blocks, i) + Offset(middle, m)
  {
    var s := Splice(blocks, i, j, middle);
    if m == 0 {
      assert s[..i] == blocks[..i];
      OffsetPrefix(s, blocks, i);
    } else {
      assert s[i + m - 1] == middle[m - 1];
      OffsetMiddle(blocks, i, j, middle, m - 1);
    }
  }

  lemma {:induction false} OffsetGrows(blocks: seq<Block>, i: nat, j: nat)
    requires i <= j <= |blocks| && Canonical(blocks)
    ensures Offset(blocks, i) + (j - i) <= Offset(blocks, j)
    decreases j
  {
    if i < j { OffsetGrows(blocks, i, j - 1); }
  }

  lemma {:induction false} TotalOne(b: Block)
    ensures Total([b]) == b.size
  {
    assert Offset([b], 1) == Offset([b], 0) + b.size;
  }

  lemma {:induction false} TotalTwo(b: Block, c: Block)
    ensures Total([b, c]) == b.size + c.size
    ensures Offset([b, c], 1) == b.size
  {
    assert Offset([b, c], 1) == Offset([b, c], 0) + b.size;
    assert Offset([b, c], 2) == Offset([b, c], 1) + c.size;
  }

  /** Allocation keeps the table tiled and canonical. */
  lemma {:induction false} TakenKeeps(blocks: seq<Block>, i: nat, size: nat)
    requires Canonical(blocks) && i < |blocks| && 1 <= size <= blocks[i].size && blocks[i].free
    ensures Canonical(Taken(blocks, i, size)) && Total(Taken(blocks, i, size)) == Total(blocks)
    ensures Taken(blocks, i, size)[i] == Block(false, size) && Offset(Taken(blocks, i, size), i) == Offset(blocks, i)
  {
    var rest := blocks[i].size - size;
    var middle := if rest == 0 then [Block(false, size)] else [Block(false, size), Block(true, rest)];
    OffsetSplice(blocks, i, i + 1, middle, |blocks|);
    OffsetMiddle(blocks, i, i + 1, middle, 0);
    TotalOne(Block(false, size));
    TotalTwo(Block(false, size), Block(true, rest));
    var s := Taken(blocks, i, size);
    forall k | 0 <= k < |s| - 1 ensures !(s[k].free && s[k + 1].free) {
      if k + 1 < i {
        assert s[k] == blocks[k] && s[k + 1] == blocks[k + 1];
      } else if k >= i + |middle| {
        var from := k - |middle| + 1;
        assert s[k] == blocks[from] && s[k + 1] == blocks[from + 1];
      } else if k == i + |middle| - 1 && rest > 0 {
        assert s[k + 1] == blocks[i + 1];
      }
    }
  }

  lemma {:induction false} JoinedSize(blocks: seq<Block>, i: nat)
    requires i < |blocks|
    ensures Offset(blocks, Last(blocks, i) + 1) == Offset(blocks, First(blocks, i)) + Joined(blocks, i)
  {
    assert Offset(blocks, i + 1) == Offset(blocks, i) + blocks[i].size;
  }

  /** Freeing keeps the table tiled and canonical. */
  lemma {:induction false} ReleasedKeeps(blocks: seq<Block>, i: nat)
    requires Canonical(blocks) && i < |blocks|
    ensures Canonical(Released(blocks, i)) && Total(Released(blocks, i)) == Total(blocks)
    ensures First(blocks, i) < |Released(blocks, i)|
    ensures Released(blocks, i)[First(blocks, i)] == Block(true, Joined(blocks, i))
    ensures Offset(Released(blocks, i), First(blocks, i)) == Offset(blocks, First(blocks, i))
  {
    hide Joined, Canonical;
    var middle := [Block(true, Joined(blocks, i))];
    JoinedSize(blocks, i);
    OffsetSplice(blocks, First(blocks, i), Last(blocks, i) + 1, middle, |blocks|);
    OffsetMiddle(blocks, First(blocks, i), Last(blocks, i) + 1, middle, 0);
    TotalOne(middle[0]);
    ReleasedCanonical(blocks, i);
  }

  lemma {:induction false} ReleasedCanonical(blocks: seq<Block>, i: nat)
    requires Canonical(blocks) && i < |blocks|
    ensures Canonical(Released(blocks, i))
  {
    var first, last := First(blocks, i), Last(blocks, i);
    assert blocks[i].size >= 1;
    SpliceCanonical(blocks, first, last + 1, Block(true, Joined(blocks, i)));
  }

  /** A free block fits between blocks that are not free. */
  lemma {:induction false} SpliceCanonical(blocks: seq<Block>, first: nat, next: nat, b: Block)
    requires Canonical(blocks) && first < next <= |blocks| && b.size >= 1
    requires first > 0 ==> !blocks[first - 1].free
    requires next < |blocks| ==> !blocks[next].free
    ensures Canonical(Splice(blocks, first, next, [b]))
  {
    var s := Splice(blocks, first, next, [b]);
    forall k | 0 <= k < |s| ensures s[k] == if k < first then blocks[k] else if k == first then b else blocks[k + next - first - 1] {
    }
    forall k | first + 1 <= k < |s| - 1 ensures !(s[k].free && s[k + 1].free) {
      var from := k + next - first - 1;
      assert !(blocks[from].free && blocks[from + 1].free);
    }
  }

  /** What an allocation takes, freeing it gives back. */
  lemma {:induction false} ReleaseUndoesTake(blocks: seq<Block>, i: nat, size: nat)
    requires Canonical(blocks) && i < |blocks| && 1 <= size <= blocks[i].size && blocks[i].free
    ensures i < |Taken(blocks, i, size)| && Released(Taken(blocks, i, size), i) == blocks
  {
    var t := Taken(blocks, i, size);
    assert t[i] == Block(false, size);
    assert First(t, i) == i by {
      if i > 0 { assert t[i - 1] == blocks[i - 1]; }
    }
    if blocks[i].size == size {
      assert Last(t, i) == i by {
        if i + 1 < |t| { assert t[i + 1] == blocks[i + 1]; }
      }
    } else {
      assert t[i + 1] == Block(true, blocks[i].size - size);
    }
    assert Joined(t, i) == blocks[i].size;
    assert t[Last(t, i) + 1..] == blocks[i + 1..];
    assert t[..i] == blocks[..i];
  }

  lemma {:induction false} SomeTaken(blocks: seq<Block>) returns (i: nat)
    requires Canonical(blocks) && |blocks| >= 2
    ensures i < |blocks| && !blocks[i].free
  {
    i := if blocks[0].free then 0 + 1 else 0;
  }

  /** When everything has been freed, there is one block, of the size of the table. */
  lemma {:induction false} AllFree(blocks: seq<Block>)
    requires Canonical(blocks) && (forall i :: 0 <= i < |blocks| ==> blocks[i].free) && Total(blocks) > 0
    ensures blocks == [Block(true, Total(blocks))]
  {
    if |blocks| >= 2 { var i := SomeTaken(blocks); }
    assert blocks == [blocks[0]];
    TotalOne(blocks[0]);
  }

  /** Blocks do not overlap. */
  lemma {:induction false} Disjoint(blocks: seq<Block>, i: nat, j: nat)
    requires Canonical(blocks) && i < j < |blocks|
    ensures Offset(blocks, i) + blocks[i].size <= Offset(blocks, j) && Offset(blocks, j) + blocks[j].size <= Total(blocks)
  {
    OffsetGrows(blocks, i + 1, j);
    OffsetGrows(blocks, j + 1, |blocks|);
  }

  // ---------- the table of tags ----------

  class Table {
    const tags: array<Block>
    ghost var blocks: seq<Block>

    /** Every block of the tiling shows in its first and in its last entry. */
    ghost predicate Valid()
      reads this, tags
    {
      Canonical(blocks) && Total(blocks) == tags.Length && tags.Length > 0 && Tagged(tags[..], blocks)
    }

    constructor (pages: nat)
      requires pages >= 1
      ensures Valid() && blocks == [Block(true, pages)] && tags.Length == pages && fresh(tags)
    {
      tags := new Block[pages](i => Block(true, pages));
      blocks := [Block(true, pages)];
      TotalOne(Block(true, pages));
    }

    /** Find the first free block that is large enough, and take its first entries. Returns
        the position, or None if there is no such block. */
    method MallocLut(size: nat) returns (at: Option<nat>)
      requires Valid() && size >= 1
      modifies tags, this`blocks
      ensures Valid()
      ensures match FirstFit(old(blocks), size)
        case None => at.None? && blocks == old(blocks) && tags[..] == old(tags[..])
        case Some(i) => at == Some(Offset(old(blocks), i)) && blocks == Taken(old(blocks), i, size)
    {
      var curr := 0;
      ghost var i := 0;
      while curr < tags.Length
        invariant Valid() && blocks == old(blocks) && tags[..] == old(tags[..])
        invariant i <= |blocks| && curr == Offset(blocks, i)
        invariant forall k :: 0 <= k < i ==> !Fits(blocks[k], size)
        decreases |blocks| - i
      {
        InsideTable(blocks, i);
        TagAt(tags[..], blocks, i);
        if tags[curr].free && tags[curr].size >= size {
          FirstIs(blocks, size, i);
          Take(curr, size, i);
          return Some(curr);
        }
        curr := curr + tags[curr].size;
        i := i + 1;
      }
      AtEnd(blocks, i);
      NoneFits(blocks, size);
      return None;
    }

    /** Retag a free block of which the first entries are taken. */
    method Take(curr: nat, size: nat, ghost i: nat)
      requires Valid() && i < |blocks| && curr == Offset(blocks, i) && 1 <= size <= blocks[i].size && blocks[i].free
      modifies tags, this`blocks
      ensures Valid() && blocks == Taken(old(blocks), i, size)
    {
      hide Tagged, Canonical, Offset, Splice, Taken;
      Surroundings(tags[..], blocks, i);
      ghost var was := tags[..];
      if tags[curr].size == size {
        LastTag(tags[..], blocks, i);
        tags[curr] := tags[curr].(free := false);
        tags[curr + size - 1] := tags[curr + size - 1].(free := false);
      } else {
        var next := curr + size;
        tags[next] := Block(true, tags[curr].size - size);
        tags[next + tags[next].size - 1] := tags[next];
        tags[curr] := Block(false, size);
        tags[curr + tags[curr].size - 1] := tags[curr];
      }
      TakenKeeps(blocks, i, size);
      TakenTags(was, tags[..], blocks, i, size);
      blocks := Taken(blocks, i, size);
    }

    /** Let a block's first entry take over the block behind it. */
    method Absorb(lut: nat)
      requires lut < tags.Length && lut + tags[lut].size < tags.Length
      modifies tags
      ensures var was := old(tags[..]);
        tags[..] == was[lut := was[lut].(size := was[lut].size + was[lut + was[lut].size].size)]
    {
      tags[lut] := tags[lut].(size := tags[lut].size + tags[lut + tags[lut].size].size);
    }

    /** Join a block with its free neighbours: the first entry of the whole gets its size. */
    method JoinNeighbours(at: nat, ghost i: nat) returns (lut: nat)
      requires Valid() && i < |blocks| && at == Offset(blocks, i)
      modifies tags
      ensures lut == Offset(blocks, First(blocks, i))
      ensures lut < tags.Length && tags[lut].size == Joined(blocks, i)
      ensures forall p :: 0 <= p < tags.Length && p != lut && p != at ==> tags[p] == old(tags[p])
    {
      hide Tagged, Canonical, Offset;
      Surroundings(tags[..], blocks, i);
      lut := at;
      if lut + tags[lut].size < tags.Length && tags[lut + tags[lut].size].free {
        Absorb(lut);
      }
      if 0 < lut && tags[lut - 1].free {
        lut := lut - tags[lut - 1].size;
        Absorb(lut);
      }
    }

    /** Free a block, joining it with its free neighbours. */
    method FreeLut(at: nat, ghost i: nat)
      requires Valid() && i < |blocks| && at == Offset(blocks, i) && !blocks[i].free
      modifies tags, this`blocks
      ensures Valid() && blocks == Released(old(blocks), i)
    {
      hide Tagged, Canonical, Offset, Released, Joined, First, Last;
      ghost var was := tags[..];
      JoinedInside(blocks, i);
      ReleasedKeeps(blocks, i);
      var lut := JoinNeighbours(at, i);
      tags[lut] := tags[lut].(free := true);
      tags[lut + tags[lut].size - 1] := tags[lut];
      ReleasedTags(was, tags[..], blocks, i);
      blocks := Released(blocks, i);
    }
  }

  lemma {:induction false} JoinedInside(blocks: seq<Block>, i: nat)
    requires Canonical(blocks) && i < |blocks|
    ensures Joined(blocks, i) >= 1 && Offset(blocks, First(blocks, i)) + Joined(blocks, i) <= Total(blocks)
    ensures Offset(blocks, First(blocks, i)) <= Offset(blocks, i) < Offset(blocks, First(blocks, i)) + Joined(blocks, i)
  {
    JoinedSize(blocks, i);
    OffsetGrows(blocks, First(blocks, i), i);
    OffsetGrows(blocks, i, Last(blocks, i) + 1);
    OffsetGrows(blocks, Last(blocks, i) + 1, |blocks|);
  }

  /** The first and the last entry of every block carry its tag. */
  ghost predicate Tagged(tags: seq<Block>, blocks: seq<Block>) {
    forall i :: 0 <= i < |blocks| ==> TagOk(tags, blocks, i)
  }

  ghost predicate TagOk(tags: seq<Block>, blocks: seq<Block>, i: nat)
    requires i < |blocks|
  {
    var at := Offset(blocks, i);
    && blocks[i].size >= 1 && at + blocks[i].size <= |tags|
    && tags[at] == blocks[i] && tags[at + blocks[i].size - 1] == blocks[i]
  }

  lemma {:induction false} LastTag(tags: seq<Block>, blocks: seq<Block>, i: nat)
    requires Tagged(tags, blocks) && i < |blocks|
    ensures var end := Offset(blocks, i) + blocks[i].size - 1; 0 <= end < |tags| && tags[end] == blocks[i]
  {
    TagAt(tags, blocks, i);
  }

  lemma {:induction false} TagAt(tags: seq<Block>, blocks: seq<Block>, i: nat)
    requires Tagged(tags, blocks) && i < |blocks|
    ensures TagOk(tags, blocks, i)
  {
  }

  lemma {:induction false} BlockInside(blocks: seq<Block>, i: nat)
    requires Canonical(blocks) && i < |blocks|
    ensures Offset(blocks, i + 1) == Offset(blocks, i) + blocks[i].size <= Total(blocks) && blocks[i].size >= 1
  {
    OffsetGrows(blocks, i + 1, |blocks|);
  }

  /** What the tags say around block i. */
  lemma {:induction false} Surroundings(tags: seq<Block>, blocks: seq<Block>, i: nat)
    requires Canonical(blocks) && Tagged(tags, blocks) && |tags| == Total(blocks) && i < |blocks|
    ensures var at := Offset(blocks, i);
      && blocks[i].size >= 1 && at + blocks[i].size <= |tags| && tags[at] == blocks[i]
      && (at + blocks[i].size < |tags| <==> i + 1 < |blocks|)
      && (i + 1 < |blocks| ==>
            && tags[at + blocks[i].size] == blocks[i + 1] && blocks[i + 1].size >= 1
            && at + blocks[i].size + blocks[i + 1].size <= |tags|
            && Offset(blocks, i + 2) == at + blocks[i].size + blocks[i + 1].size)
      && (0 < at <==> i > 0)
      && (i > 0 ==>
            && tags[at - 1] == blocks[i - 1] && 1 <= blocks[i - 1].size <= at && tags[at - blocks[i - 1].size] == blocks[i - 1]
            && Offset(blocks, i - 1) == at - blocks[i - 1].size)
      && Offset(blocks, i + 1) == at + blocks[i].size
  {
    BlockInside(blocks, i);
    TagAt(tags, blocks, i);
    if i + 1 < |blocks| {
      BlockInside(blocks, i + 1);
      TagAt(tags, blocks, i + 1);
    }
    if i > 0 {
      BlockInside(blocks, i - 1);
      TagAt(tags, blocks, i - 1);
    }
  }

  lemma {:induction false} InsideTable(blocks: seq<Block>, i: nat)
    requires Canonical(blocks) && i <= |blocks| && Offset(blocks, i) < Total(blocks)
    ensures i < |blocks| && Offset(blocks, i + 1) == Offset(blocks, i) + blocks[i].size <= Total(blocks)
    ensures i > 0 ==> Offset(blocks, i) == Offset(blocks, i - 1) + blocks[i - 1].size
  {
    OffsetGrows(blocks, i + 1, |blocks|);
  }

  lemma {:induction false} AtEnd(blocks: seq<Block>, i: nat)
    requires Canonical(blocks) && i <= |blocks| && Offset(blocks, i) >= Total(blocks)
    ensures i == |blocks|
  {
    OffsetGrows(blocks, i, |blocks|);
  }

  lemma {:induction false} FirstIs(blocks: seq<Block>, size: nat, i: nat)
    requires i < |blocks| && Fits(blocks[i], size) && forall k :: 0 <= k < i ==> !Fits(blocks[k], size)
    ensures FirstFit(blocks, size) == Some(i)
  {
  }

  lemma {:induction false} NoneFits(blocks: seq<Block>, size: nat)
    requires forall k :: 0 <= k < |blocks| ==> !Fits(blocks[k], size)
    ensures FirstFit(blocks, size) == None
  {
  }

  /** Entries change only within the blocks that are replaced, and show the new ones. */
  lemma {:induction false} SpliceTags(was: seq<Block>, now: seq<Block>, blocks: seq<Block>, i: nat, j: nat, middle: seq<Block>)
    requires Canonical(blocks) && Tagged(was, blocks) && |now| == |was| == Total(blocks) && i <= j <= |blocks|
    requires Offset(blocks, j) == Offset(blocks, i) + Total(middle) && Offset(blocks, i) <= Offset(blocks, j)
    requires SameOutside(was, now, Offset(blocks, i), Offset(blocks, j))
    requires ShowsAll(now, Offset(blocks, i), middle)
    ensures Tagged(now, Splice(blocks, i, j, middle))
  {
    var s := Splice(blocks, i, j, middle);
    SpliceLength(blocks, i, j, middle);
    hide TagOk, Canonical, Splice, Shows, ShowsAll, SameOutside, Offset, Tagged;
    forall k | 0 <= k < |s| ensures TagOk(now, s, k) {
      SpliceTag(was, now, blocks, i, j, middle, k);
    }
    AllTagged(now, s);
  }

  lemma {:induction false} AllTagged(tags: seq<Block>, blocks: seq<Block>)
    requires forall k :: 0 <= k < |blocks| ==> TagOk(tags, blocks, k)
    ensures Tagged(tags, blocks)
  {
  }

  lemma {:induction false} SpliceTag(was: seq<Block>, now: seq<Block>, blocks: seq<Block>, i: nat, j: nat, middle: seq<Block>, k: nat)
    requires Canonical(blocks) && Tagged(was, blocks) && |now| == |was| == Total(blocks) && i <= j <= |blocks|
    requires Offset(blocks, j) == Offset(blocks, i) + Total(middle) && Offset(blocks, i) <= Offset(blocks, j)
    requires SameOutside(was, now, Offset(blocks, i), Offset(blocks, j))
    requires ShowsAll(now, Offset(blocks, i), middle)
    requires k < |Splice(blocks, i, j, middle)|
    ensures TagOk(now, Splice(blocks, i, j, middle), k)
  {
    hide TagOk, Canonical, Shows, Offset, Tagged;
    if k < i {
      TagBefore(was, now, blocks, i, j, middle, k);
    } else if k < i + |middle| {
      TagWithin(now, blocks, i, j, middle, k - i);
    } else {
      TagBehind(was, now, blocks, i, j, middle, k - |middle| - i + j);
    }
  }

  lemma {:induction false} SpliceLength(blocks: seq<Block>, i: nat, j: nat, middle: seq<Block>)
    requires i <= j <= |blocks|
    ensures |Splice(blocks, i, j, middle)| == |blocks| - (j - i) + |middle|
  {
  }

  lemma {:induction false} TagBefore(was: seq<Block>, now: seq<Block>, blocks: seq<Block>, i: nat, j: nat, middle: seq<Block>, k: nat)
    requires Canonical(blocks) && Tagged(was, blocks) && |now| == |was| && k < i <= j <= |blocks|
    requires forall p :: 0 <= p < |was| && p < Offset(blocks, i) ==> now[p] == was[p]
    ensures k < |Splice(blocks, i, j, middle)| && TagOk(now, Splice(blocks, i, j, middle), k)
  {
    var s := Splice(blocks, i, j, middle);
    assert s[..k] == blocks[..k];
    OffsetPrefix(s, blocks, k);
    TagAt(was, blocks, k);
    OffsetGrows(blocks, k + 1, i);
  }

  lemma {:induction false} TagWithin(now: seq<Block>, blocks: seq<Block>, i: nat, j: nat, middle: seq<Block>, m: nat)
    requires i <= j <= |blocks| && m < |middle| && Shows(now, Offset(blocks, i) + Offset(middle, m), middle[m])
    ensures i + m < |Splice(blocks, i, j, middle)| && TagOk(now, Splice(blocks, i, j, middle), i + m)
  {
    OffsetMiddle(blocks, i, j, middle, m);
  }

  lemma {:induction false} TagBehind(was: seq<Block>, now: seq<Block>, blocks: seq<Block>, i: nat, j: nat, middle: seq<Block>, k: nat)
    requires Canonical(blocks) && Tagged(was, blocks) && |now| == |was| && i <= j <= k < |blocks|
    requires Offset(blocks, j) == Offset(blocks, i) + Total(middle)
    requires forall p :: 0 <= p < |was| && Offset(blocks, j) <= p ==> now[p] == was[p]
    ensures k - j + i + |middle| < |Splice(blocks, i, j, middle)|
    ensures TagOk(now, Splice(blocks, i, j, middle), k - j + i + |middle|)
  {
    OffsetSplice(blocks, i, j, middle, k);
    TagAt(was, blocks, k);
    OffsetGrows(blocks, j, k);
    var s := Splice(blocks, i, j, middle);
    assert s[k - j + i + |middle|] == blocks[k];
  }

  ghost predicate SameOutside(was: seq<Block>, now: seq<Block>, low: nat, high: nat)
    requires |was| == |now|
  {
    forall p :: 0 <= p < |was| && !(low <= p < high) ==> now[p] == was[p]
  }

  /** The blocks show from this position on. */
  ghost predicate ShowsAll(tags: seq<Block>, at: nat, blocks: seq<Block>) {
    forall m :: 0 <= m < |blocks| ==> Shows(tags, at + Offset(blocks, m), blocks[m])
  }

  ghost predicate Shows(tags: seq<Block>, at: nat, b: Block) {
    b.size >= 1 && at + b.size <= |tags| && tags[at] == b && tags[at + b.size - 1] == b
  }

  lemma {:induction false} TakenTags(was: seq<Block>, now: seq<Block>, blocks: seq<Block>, i: nat, size: nat)
    requires Canonical(blocks) && Tagged(was, blocks) && |now| == |was| == Total(blocks)
    requires i < |blocks| && 1 <= size <= blocks[i].size
    requires forall p :: 0 <= p < |was| && !(Offset(blocks, i) <= p < Offset(blocks, i) + blocks[i].size) ==> now[p] == was[p]
    requires Shows(now, Offset(blocks, i), Block(false, size))
    requires size < blocks[i].size ==> Shows(now, Offset(blocks, i) + size, Block(true, blocks[i].size - size))
    ensures Tagged(now, Taken(blocks, i, size))
  {
    hide TagOk, Canonical, Tagged, Splice;
    var rest := blocks[i].size - size;
    TotalOne(Block(false, size));
    TotalTwo(Block(false, size), Block(true, rest));
    assert Offset(blocks, i + 1) == Offset(blocks, i) + blocks[i].size;
    SpliceTags(was, now, blocks, i, i + 1,
               if rest == 0 then [Block(false, size)] else [Block(false, size), Block(true, rest)]);
  }

  lemma {:induction false} ReleasedTags(was: seq<Block>, now: seq<Block>, blocks: seq<Block>, i: nat)
    requires Canonical(blocks) && Tagged(was, blocks) && |now| == |was| == Total(blocks) && i < |blocks|
    requires var first := Offset(blocks, First(blocks, i));
      forall p :: 0 <= p < |was| && !(first <= p < first + Joined(blocks, i)) ==> now[p] == was[p]
    requires Shows(now, Offset(blocks, First(blocks, i)), Block(true, Joined(blocks, i)))
    ensures Tagged(now, Released(blocks, i))
  {
    JoinedSize(blocks, i);
    TotalOne(Block(true, Joined(blocks, i)));
    SpliceTags(was, now, blocks, First(blocks, i), Last(blocks, i) + 1, [Block(true, Joined(blocks, i))]);
  }
}
