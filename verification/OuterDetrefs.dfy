/** Detrefs of outer networks, as a loop sees them: counters that records inside and outside
    of it hold together. Both feedback loops let records carry such detrefs. */
module OuterDetrefs {
  import opened Options

  /** How many of these stacks hold a detref. */
  function Holding(stacks: seq<set<nat>>, d: nat): nat {
    if |stacks| == 0 then 0 else Holding(stacks[..|stacks| - 1], d) + One(d in stacks[|stacks| - 1])
  }

  lemma {:induction false} HoldingAppend(stacks: seq<set<nat>>, outer: set<nat>, d: nat)
    ensures Holding(stacks + [outer], d) == Holding(stacks, d) + One(d in outer)
  {
    assert (stacks + [outer])[..|stacks|] == stacks;
  }

  lemma {:induction false} HoldingWithout(stacks: seq<set<nat>>, r: nat, d: nat)
    requires r < |stacks|
    ensures Holding(Without(stacks, r), d) == Holding(stacks, d) - One(d in stacks[r])
  {
    var n := |stacks| - 1;
    if r == n {
      assert Without(stacks, r) == stacks[..n];
    } else {
      HoldingWithout(stacks[..n], r, d);
      var w := Without(stacks, r);
      assert |w| == n && w[..n - 1] == Without(stacks[..n], r) && w[n - 1] == stacks[n];
    }
  }

  lemma {:induction false} HoldingHas(stacks: seq<set<nat>>, r: nat, d: nat)
    requires r < |stacks| && d in stacks[r]
    ensures Holding(stacks, d) >= 1
  {
    if r < |stacks| - 1 { HoldingHas(stacks[..|stacks| - 1], r, d); }
  }

  // ---------- counters ----------

  /** A record gets a copy of a stack: every counter on it goes up. */
  function Copied(counts: map<nat, nat>, outer: set<nat>): map<nat, nat> {
    map d | d in counts :: if d in outer then counts[d] + 1 else counts[d]
  }

  /** A record gives up its stack: every counter goes down, from one holder to zero. */
  function Dropped(counts: map<nat, nat>, outer: set<nat>): map<nat, nat> {
    map d | d in counts :: if d !in outer || counts[d] == 0 then counts[d] else if counts[d] == 2 then 0 else counts[d] - 1
  }

  /** The detrefs whose last holder this is: they are announced. */
  function LastOf(counts: map<nat, nat>, outer: set<nat>): set<nat> {
    set d | d in outer && d in counts && counts[d] == 2
  }

  /** Every detref on the stack is in use. */
  predicate InUse(counts: map<nat, nat>, outer: set<nat>) {
    forall d :: d in outer ==> d in counts && counts[d] >= 2
  }

  function CountOf(counts: map<nat, nat>, d: nat): nat { if d in counts then counts[d] else 0 }
}
