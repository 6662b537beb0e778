/** Optional values, and two functions that many modules use. */
module Options {
  datatype Option<+T> = None | Some(value: T)

  function One(b: bool): nat { if b then 1 else 0 }

  /** A sequence without its element at a position. */
  function Without<T>(s: seq<T>, i: nat): seq<T>
    requires i < |s|
  {
    s[..i] + s[i + 1..]
  }

  /** Two balances, one after the other: what was there, what came and what went. */
  lemma {:induction false} BalanceOn<T>(p0: multiset<T>, c0: multiset<T>, g0: multiset<T>, p1: multiset<T>,
                                        c1: multiset<T>, g1: multiset<T>, p2: multiset<T>)
    requires p1 + g0 == p0 + c0 && p2 + g1 == p1 + c1
    ensures p2 + (g0 + g1) == p0 + (c0 + c1)
  {
    assert p2 + (g0 + g1) == (p2 + g1) + g0;
    assert (p1 + c1) + g0 == (p1 + g0) + c1;
    assert (p0 + c0) + c1 == p0 + (c0 + c1);
  }

  lemma {:induction false} WithoutOne<T>(s: seq<T>, i: nat)
    requires i < |s|
    ensures multiset(s) == multiset(Without(s, i)) + multiset{s[i]}
  {
    assert s == s[..i] + [s[i]] + s[i + 1..];
  }
}
