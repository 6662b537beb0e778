/** The pointer hash table: an array of chains, a list of spare nodes, and a table that grows. */
module HashPtr {
  import opened Options

  datatype Entry = Entry(key: nat, val: int)

  const FIRST_POWER: nat := 6
  const LAST_POWER: nat := 30

  const IDEAL_PRIMES: seq<nat> := [
    97, 193, 389, 769, 1543, 3079, 6151, 12289, 24593, 49157, 98317, 196613, 393241,
    786433, 1572869, 3145739, 6291469, 12582917, 25165843, 50331653, 100663319,
    201326611, 402653189, 805306457, 1610612741]

  function Limit(x: nat, low: nat, high: nat): nat {
    if x < low then low else if x > high then high else x
  }

  function PrimeFor(power: nat): (p: nat)
    requires FIRST_POWER <= power <= LAST_POWER
    ensures p >= 97
  {
    IDEAL_PRIMES[power - FIRST_POWER]
  }

  function Pow2(n: nat): nat { if n == 0 then 1 else 2 * Pow2(n - 1) }

  // ---------- chains ----------

  function Find(chain: seq<Entry>, key: nat): (o: Option<int>)
    ensures o.Some? <==> exists i :: 0 <= i < |chain| && chain[i].key == key
  {
    if chain == [] then None
    else if chain[0].key == key then Some(chain[0].val)
    else
      assert chain[1..] == chain[1..];
      assert (exists i :: 0 <= i < |chain| && chain[i].key == key) ==> exists i :: 0 <= i < |chain[1..]| && chain[1..][i].key == key by {
        if i :| 0 <= i < |chain| && chain[i].key == key { assert chain[1..][i - 1].key == key; }
      }
      Find(chain[1..], key)
  }

  predicate Distinct(chain: seq<Entry>) {
    forall i, j :: 0 <= i < j < |chain| ==> chain[i].key != chain[j].key
  }

  lemma {:induction false} FindAppend(a: seq<Entry>, b: seq<Entry>, key: nat)
    ensures Find(a + b, key) == (if Find(a, key).Some? then Find(a, key) else Find(b, key))
  {
    if a == [] {
      assert a + b == b;
    } else {
      assert (a + b)[1..] == a[1..] + b;
      FindAppend(a[1..], b, key);
    }
  }

  lemma {:induction false} FindOne(e: Entry, key: nat)
    ensures Find([e], key) == (if e.key == key then Some(e.val) else None)
  {
  }

  // ---------- tables ----------

  /** Every entry is in the chain of its hash, and no key twice. */
  ghost predicate Tidy(tab: seq<seq<Entry>>) {
    && |tab| > 0
    && (forall h :: 0 <= h < |tab| ==> Distinct(tab[h]))
    && (forall h, i :: 0 <= h < |tab| && 0 <= i < |tab[h]| ==> tab[h][i].key % |tab| == h)
  }

  /** What the table has for a key. */
  function Get(tab: seq<seq<Entry>>, key: nat): Option<int>
    requires |tab| > 0
  {
    Find(tab[key % |tab|], key)
  }

  /** All entries in the order of the table. */
  function Flat(tab: seq<seq<Entry>>): seq<Entry> {
    if tab == [] then [] else Flat(tab[..|tab| - 1]) + tab[|tab| - 1]
  }

  lemma {:induction false} FlatPrefix(tab: seq<seq<Entry>>, n: nat)
    requires n < |tab|
    ensures Flat(tab[..n + 1]) == Flat(tab[..n]) + tab[n]
  {
    assert tab[..n + 1][..n] == tab[..n];
  }

  lemma {:induction false} FlatUpdate(tab: seq<seq<Entry>>, h: nat, chain: seq<Entry>)
    requires h < |tab|
    ensures |Flat(tab[h := chain])| == |Flat(tab)| - |tab[h]| + |chain|
  {
    var n := |tab| - 1;
    if h == n {
      assert tab[h := chain][..n] == tab[..n];
    } else {
      assert tab[h := chain][..n] == tab[..n][h := chain];
      FlatUpdate(tab[..n], h, chain);
    }
  }

  lemma {:induction false} NotElsewhere(tab: seq<seq<Entry>>, h: nat, key: nat)
    requires Tidy(tab) && h < |tab|
    ensures key % |tab| != h ==> Find(tab[h], key).None?
  {
    forall i | 0 <= i < |tab[h]| ensures key % |tab| != h ==> tab[h][i].key != key {
      assert tab[h][i].key % |tab| == h;
    }
  }

  /** The entries of the first n chains, by key. */
  lemma {:induction false} FlatFind(tab: seq<seq<Entry>>, n: nat, key: nat)
    requires Tidy(tab) && n <= |tab|
    ensures Find(Flat(tab[..n]), key) == (if key % |tab| < n then Get(tab, key) else None)
  {
    if n > 0 {
      FlatFind(tab, n - 1, key);
      FlatPrefix(tab, n - 1);
      FindAppend(Flat(tab[..n - 1]), tab[n - 1], key);
      NotElsewhere(tab, n - 1, key);
    }
  }

  lemma {:induction false} DistinctAppend(a: seq<Entry>, b: seq<Entry>)
    requires Distinct(a) && Distinct(b)
    requires forall e :: e in b ==> Find(a, e.key).None?
    ensures Distinct(a + b)
  {
    forall i, j | 0 <= i < j < |a + b| ensures (a + b)[i].key != (a + b)[j].key {
      if i < |a| <= j { assert b[j - |a|] in b; }
    }
  }

  /** No key occurs twice in the table. */
  lemma {:induction false} FlatDistinct(tab: seq<seq<Entry>>, n: nat)
    requires Tidy(tab) && n <= |tab|
    ensures Distinct(Flat(tab[..n]))
  {
    if n > 0 {
      FlatDistinct(tab, n - 1);
      FlatPrefix(tab, n - 1);
      forall e | e in tab[n - 1] ensures Find(Flat(tab[..n - 1]), e.key).None? {
        FlatFind(tab, n - 1, e.key);
      }
      DistinctAppend(Flat(tab[..n - 1]), tab[n - 1]);
    }
  }

  /** First and Next go through the keys of the table, each exactly once: position by
      position of the flat table, in which no key occurs twice and every stored key once. */
  lemma {:induction false} VisitsAll(tab: seq<seq<Entry>>, key: nat)
    requires Tidy(tab)
    ensures Distinct(Flat(tab))
    ensures Get(tab, key).Some? <==> exists i :: 0 <= i < |Flat(tab)| && Flat(tab)[i].key == key
  {
    assert tab[..|tab|] == tab;
    FlatDistinct(tab, |tab|);
    FlatFind(tab, |tab|, key);
  }

  function After(walk: seq<nat>, i: nat): Option<nat> { if i + 1 < |walk| then Some(walk[i + 1]) else None }

  /** A walk that starts at the first key and asks for the next one until there is none
      names every stored key, each exactly once, and then stops. */
  lemma {:induction false} WalkVisitsOnce(tab: seq<seq<Entry>>, walk: seq<nat>)
    requires Tidy(tab) && |walk| > 0 && FirstKey(tab, 0) == Some(walk[0])
    requires forall i :: 0 <= i < |walk| ==> Follows(Flat(tab), walk[i], After(walk, i))
    ensures forall i, j :: 0 <= i < j < |walk| ==> walk[i] != walk[j]
    ensures forall key :: key in walk <==> Get(tab, key).Some?
  {
    hide Get, Find, Flat, Follows;
    var flat := Flat(tab);
    FirstOfFlat(tab);
    VisitsAll(tab, walk[0]);
    WalkIsFlat(flat, walk);
    forall key ensures key in walk <==> Get(tab, key).Some? {
      VisitsAll(tab, key);
      forall i | 0 <= i < |flat| ensures flat[i].key in walk { assert walk[i] == flat[i].key; }
    }
  }

  lemma {:induction false} WalkIsFlat(flat: seq<Entry>, walk: seq<nat>)
    requires Distinct(flat) && |walk| > 0 && |flat| > 0 && walk[0] == flat[0].key
    requires forall i :: 0 <= i < |walk| ==> Follows(flat, walk[i], After(walk, i))
    ensures |walk| == |flat| && forall i :: 0 <= i < |walk| ==> walk[i] == flat[i].key
  {
    for n := 0 to |walk|
      invariant n < |walk| ==> n < |flat| && walk[n] == flat[n].key
      invariant n == |walk| ==> n == |flat|
      invariant forall i :: 0 <= i < n ==> i < |flat| && walk[i] == flat[i].key
    {
      var at :| FollowsAt(flat, at, walk[n], After(walk, n));
      assert at == n;
    }
  }

  /** A new entry at the front of its chain. */
  lemma {:induction false} PutFront(tab: seq<seq<Entry>>, e: Entry)
    requires Tidy(tab) && Get(tab, e.key).None?
    ensures var h := e.key % |tab|;
      var tab' := tab[h := [e] + tab[h]];
      Tidy(tab') && forall k :: Get(tab', k) == if k == e.key then Some(e.val) else Get(tab, k)
  {
    var h := e.key % |tab|;
    var tab' := tab[h := [e] + tab[h]];
    forall k ensures Get(tab', k) == if k == e.key then Some(e.val) else Get(tab, k) {
      FindAppend([e], tab[h], k);
      FindOne(e, k);
    }
  }

  lemma {:induction false} ChainWithout(c: seq<Entry>, i: nat, k: nat)
    requires i < |c| && Distinct(c)
    ensures Find(c[..i] + c[i + 1..], k) == (if k == c[i].key then None else Find(c, k))
  {
    FindAppend(c[..i], c[i + 1..], k);
    FindAppend(c[..i], [c[i]] + c[i + 1..], k);
    FindAppend([c[i]], c[i + 1..], k);
    FindOne(c[i], k);
    assert c == c[..i] + ([c[i]] + c[i + 1..]);
  }

  /** A chain without its entry at i. */
  lemma {:induction false} TakeOut(tab: seq<seq<Entry>>, h: nat, i: nat)
    requires Tidy(tab) && h < |tab| && i < |tab[h]|
    ensures var key := tab[h][i].key;
      var tab' := tab[h := tab[h][..i] + tab[h][i + 1..]];
      Tidy(tab') && forall k :: Get(tab', k) == if k == key then None else Get(tab, k)
  {
    hide Find;
    var c := tab[h];
    var key := c[i].key;
    var tab' := tab[h := c[..i] + c[i + 1..]];
    assert key % |tab| == h;
    forall k ensures Get(tab', k) == if k == key then None else Get(tab, k) {
      ChainWithout(c, i, k);
    }
    forall g, j | 0 <= g < |tab'| && 0 <= j < |tab'[g]| ensures tab'[g][j].key % |tab'| == g {
      if g == h { assert tab'[g][j] == c[if j < i then j else j + 1]; }
    }
  }

  // ---------- the table ----------

  class HashTab {
    var power: nat
    var prime: nat
    var count: nat
    var freed: nat
    const autoResize: bool
    var spare: seq<Entry>                // the nodes on the free list
    var tab: array<seq<Entry>>

    ghost predicate Valid()
      reads this, tab
    {
      && FIRST_POWER <= power <= LAST_POWER && prime == PrimeFor(power) == tab.Length
      && Tidy(tab[..]) && count == |Flat(tab[..])| && freed == |spare|
    }

    /** What is stored for a key. */
    ghost function Value(key: nat): Option<int>
      requires Valid()
      reads this, tab
    {
      Get(tab[..], key)
    }

    constructor (size: nat, resize: bool)
      ensures Valid() && fresh(tab) && count == 0 && freed == 0 && autoResize == resize
      ensures forall k :: Value(k) == None
    {
      var limited := Limit(size, FIRST_POWER, LAST_POWER);
      power := limited;
      prime := PrimeFor(limited);
      count, freed := 0, 0;
      autoResize := resize;
      spare := [];
      tab := new seq<Entry>[PrimeFor(limited)](i => []);
      new;
      FlatEmpty(tab[..]);
    }

    /** Rehash all nodes into a table of another size. */
    method Resize(newPower: nat)
      requires Valid()
      modifies this`tab, this`prime, this`power
      ensures Valid() && power == Limit(newPower, FIRST_POWER, LAST_POWER) && (tab == old(tab) || fresh(tab))
      ensures forall k :: Value(k) == old(Value(k))
    {
      var p := Limit(newPower, FIRST_POWER, LAST_POWER);
      if p != power {
        var newTab := new seq<Entry>[PrimeFor(p)](i => []);
        FlatEmpty(newTab[..]);
        ghost var moved: seq<Entry> := [];
        for i := 0 to prime
          modifies newTab
          invariant Valid() && Tidy(newTab[..]) && moved == Flat(tab[..][..i])
          invariant Moved(newTab[..], moved)
        {
          moved := MoveChain(newTab, tab[i], moved, i);
        }
        assert tab[..][..prime] == tab[..];
        forall k ensures Get(newTab[..], k) == Get(tab[..], k) { FlatFind(tab[..], prime, k); }
        tab, prime, power := newTab, PrimeFor(p), p;
      }
    }

    /** Move the nodes of chain i to the fronts of their new chains. */
    method MoveChain(newTab: array<seq<Entry>>, chain: seq<Entry>, ghost before: seq<Entry>, ghost i: nat) returns (ghost moved: seq<Entry>)
      requires Valid() && newTab != tab && i < prime && chain == tab[i] && before == Flat(tab[..][..i])
      requires newTab.Length > 0 && Tidy(newTab[..]) && Moved(newTab[..], before)
      modifies newTab
      ensures Tidy(newTab[..]) && moved == Flat(tab[..][..i + 1]) && Moved(newTab[..], moved)
    {
      moved := before;
      for m := 0 to |chain|
        invariant Tidy(newTab[..]) && moved == before + chain[..m] && Moved(newTab[..], moved)
      {
        var node := chain[m];
        NotYetMoved(tab[..], i, m);
        var hash := node.key % newTab.Length;
        ghost var was := newTab[..];
        newTab[hash] := [node] + newTab[hash];
        assert newTab[..] == was[hash := [node] + was[hash]];
        MovedOne(was, newTab[..], moved, node);
        moved := moved + [node];
        assert chain[..m + 1] == chain[..m] + [node];
        assert before + chain[..m + 1] == before + chain[..m] + [node];
      }
      assert chain[..|chain|] == chain;
      FlatPrefix(tab[..], i);
    }

    /** Store a value for a key that has none. */
    method Store(key: nat, val: int)
      requires Valid() && Value(key).None?
      modifies this, tab
      ensures Valid() && count == old(count) + 1 && (tab == old(tab) || fresh(tab))
      ensures freed == (if old(freed) > 0 then old(freed) - 1 else 0)
      ensures power == (if autoResize && count > 2 * Pow2(old(power)) then Limit(3 + old(power), FIRST_POWER, LAST_POWER) else old(power))
      ensures forall k :: Value(k) == (if k == key then Some(val) else old(Value(k)))
    {
      var hash := key % prime;
      if spare != [] {
        spare := spare[1..];
        freed := freed - 1;
      }
      PutFront(tab[..], Entry(key, val));
      ghost var was := tab[..];
      FlatUpdate(was, hash, [Entry(key, val)] + was[hash]);
      tab[hash] := [Entry(key, val)] + tab[hash];
      assert tab[..] == was[hash := [Entry(key, val)] + was[hash]];
      count := count + 1;
      if autoResize && count > 2 * Pow2(power) {
        Resize(3 + power);
      }
    }

    method Lookup(key: nat) returns (val: Option<int>)
      requires Valid()
      ensures val == Value(key)
    {
      var node := tab[key % prime];
      while node != []
        invariant Find(node, key) == Value(key)
        decreases |node|
      {
        if node[0].key == key {
          return Some(node[0].val);
        }
        node := node[1..];
      }
      return None;
    }

    /** Remove a key that is there. Its node goes to the free list, which is kept short. */
    method Remove(key: nat) returns (val: int)
      requires Valid() && Value(key).Some?
      modifies this`spare, this`freed, this`count, tab
      ensures Valid() && Some(val) == old(Value(key)) && count == old(count) - 1
      ensures forall k :: Value(k) == (if k == key then None else old(Value(k)))
      ensures freed == (if 4 * (old(freed) + 1) > prime then prime / 8 else old(freed) + 1)
    {
      var hash := key % prime;
      var i := IndexOf(hash, key);
      val := tab[hash][i].val;
      var node := tab[hash][i];
      FindAt(tab[hash], i);
      TakeOut(tab[..], hash, i);
      ghost var was := tab[..];
      FlatUpdate(was, hash, was[hash][..i] + was[hash][i + 1..]);
      tab[hash] := tab[hash][..i] + tab[hash][i + 1..];
      assert tab[..] == was[hash := was[hash][..i] + was[hash][i + 1..]];
      spare := [node] + spare;
      freed := freed + 1;
      count := count - 1;
      if 4 * freed > prime {
        TrimSpare(prime / 8);
      }
    }

    /** Where a key is in its chain. */
    method IndexOf(hash: nat, key: nat) returns (i: nat)
      requires Valid() && hash == key % prime && Value(key).Some?
      ensures i < |tab[hash]| && tab[hash][i].key == key && forall j :: 0 <= j < i ==> tab[hash][j].key != key
    {
      i := 0;
      var chain := tab[hash];
      ghost var at :| 0 <= at < |chain| && chain[at].key == key;
      while chain[i].key != key
        invariant i <= at && forall j :: 0 <= j < i ==> chain[j].key != key
        decreases at - i
      {
        i := i + 1;
      }
    }

    /** Delete spare nodes down to a limit. */
    method TrimSpare(limit: nat)
      requires Valid() && limit < freed
      modifies this`spare, this`freed
      ensures Valid() && freed == limit
    {
      while spare != [] && freed > limit
        invariant freed == |spare| && freed >= limit
      {
        spare := spare[1..];
        freed := freed - 1;
      }
    }

    method Empty() returns (empty: bool)
      requires Valid()
      ensures empty <==> forall k :: Value(k).None?
    {
      var first := FirstFrom(0);
      EmptyIff(tab[..]);
      assert forall k :: Value(k) == Get(tab[..], k);
      return first.None?;
    }

    /** The first key of the chains from h on. */
    method FirstFrom(h: nat) returns (first: Option<nat>)
      requires Valid() && h <= prime
      ensures first == FirstKey(tab[..], h)
    {
      var i := h;
      while i < prime
        invariant h <= i <= prime && FirstKey(tab[..], i) == FirstKey(tab[..], h)
      {
        if tab[i] != [] {
          return Some(tab[i][0].key);
        }
        i := i + 1;
      }
      return None;
    }

    method First() returns (first: Option<nat>)
      requires Valid()
      ensures first == (if Flat(tab[..]) == [] then None else Some(Flat(tab[..])[0].key))
    {
      FirstOfFlat(tab[..]);
      first := FirstFrom(0);
    }

    /** The key after a stored key, in the order of the table. */
    method Next(key: nat) returns (next: Option<nat>)
      requires Valid() && Value(key).Some?
      ensures Follows(Flat(tab[..]), key, next)
    {
      var hash := key % prime;
      var node := tab[hash];
      ghost var i := 0;
      while node[0].key != key
        invariant i < |tab[hash]| && node == tab[hash][i..]
        invariant Find(node, key).Some?
        decreases |node|
      {
        FindAppend([node[0]], node[1..], key);
        FindOne(node[0], key);
        assert node == [node[0]] + node[1..];
        node := node[1..];
        i := i + 1;
      }
      NextInFlat(tab[..], hash, i);
      if |node| > 1 {
        next := Some(node[1].key);
      } else {
        next := FirstFrom(hash + 1);
      }
      assert FollowsAt(Flat(tab[..]), |Flat(tab[..][..hash])| + i, key, next);
    }
  }

  // ---------- lemmas for the methods ----------

  ghost predicate Follows(flat: seq<Entry>, key: nat, next: Option<nat>) {
    exists at :: FollowsAt(flat, at, key, next)
  }

  /** The entry at a position has this key, and the entry after it the next one. */
  ghost predicate FollowsAt(flat: seq<Entry>, at: nat, key: nat, next: Option<nat>) {
    && at < |flat| && flat[at].key == key
    && next == (if at + 1 < |flat| then Some(flat[at + 1].key) else None)
  }

  /** The new table has exactly the nodes moved so far. */
  ghost predicate Moved(newTab: seq<seq<Entry>>, moved: seq<Entry>)
    requires |newTab| > 0
  {
    |Flat(newTab)| == |moved| && forall k :: Get(newTab, k) == Find(moved, k)
  }

  lemma {:induction false} MovedOne(was: seq<seq<Entry>>, now: seq<seq<Entry>>, moved: seq<Entry>, node: Entry)
    requires Tidy(was) && Moved(was, moved) && Find(moved, node.key).None?
    requires now == was[node.key % |was| := [node] + was[node.key % |was|]]
    ensures Tidy(now) && Moved(now, moved + [node])
  {
    PutFront(was, node);
    FlatUpdate(was, node.key % |was|, [node] + was[node.key % |was|]);
    forall k ensures Get(now, k) == Find(moved + [node], k) {
      FindAppend(moved, [node], k);
      FindOne(node, k);
    }
  }

  lemma {:induction false} FlatEmpty(tab: seq<seq<Entry>>)
    requires forall h :: 0 <= h < |tab| ==> tab[h] == []
    ensures Flat(tab) == []
  {
    if tab != [] { FlatEmpty(tab[..|tab| - 1]); }
  }

  lemma {:induction false} NotYetMoved(tab: seq<seq<Entry>>, h: nat, m: nat)
    requires Tidy(tab) && h < |tab| && m < |tab[h]|
    ensures Find(Flat(tab[..h]) + tab[h][..m], tab[h][m].key).None?
  {
    var key := tab[h][m].key;
    FlatFind(tab, h, key);
    FindAppend(Flat(tab[..h]), tab[h][..m], key);
  }

  lemma {:induction false} FindAt(chain: seq<Entry>, i: nat)
    requires i < |chain| && forall j :: 0 <= j < i ==> chain[j].key != chain[i].key
    ensures Find(chain, chain[i].key) == Some(chain[i].val)
  {
    if i > 0 { FindAt(chain[1..], i - 1); }
  }

  /** The first key of the chains from h on. */
  function FirstKey(tab: seq<seq<Entry>>, h: nat): Option<nat>
    requires h <= |tab|
    decreases |tab| - h
  {
    if h == |tab| then None else if tab[h] != [] then Some(tab[h][0].key) else FirstKey(tab, h + 1)
  }

  /** Behind the first h chains, the flat table goes on with the first key from there. */
  lemma {:induction false} FlatGoesOn(tab: seq<seq<Entry>>, h: nat)
    requires h <= |tab|
    ensures |Flat(tab[..h])| <= |Flat(tab)|
    ensures Flat(tab)[..|Flat(tab[..h])|] == Flat(tab[..h])
    ensures FirstKey(tab, h) ==
      (if |Flat(tab[..h])| < |Flat(tab)| then Some(Flat(tab)[|Flat(tab[..h])|].key) else None)
    decreases |tab| - h
  {
    if h == |tab| {
      assert tab[..h] == tab;
    } else {
      FlatGoesOn(tab, h + 1);
      FlatPrefix(tab, h);
      var n := |Flat(tab[..h])|;
      assert Flat(tab)[..n] == Flat(tab)[..|Flat(tab[..h + 1])|][..n];
      if tab[h] != [] {
        assert Flat(tab)[n] == Flat(tab)[..|Flat(tab[..h + 1])|][n];
      }
    }
  }

  lemma {:induction false} FirstOfFlat(tab: seq<seq<Entry>>)
    ensures FirstKey(tab, 0) == (if Flat(tab) == [] then None else Some(Flat(tab)[0].key))
  {
    FlatGoesOn(tab, 0);
  }

  lemma {:induction false} EmptyIff(tab: seq<seq<Entry>>)
    requires Tidy(tab)
    ensures FirstKey(tab, 0).None? <==> forall k :: Get(tab, k).None?
  {
    hide Get, Find;
    FirstOfFlat(tab);
    forall k ensures Get(tab, k).Some? <==> exists i :: 0 <= i < |Flat(tab)| && Flat(tab)[i].key == k { VisitsAll(tab, k); }
    if Flat(tab) != [] { assert Get(tab, Flat(tab)[0].key).Some?; }
  }

  lemma {:induction false} NextInFlat(tab: seq<seq<Entry>>, h: nat, i: nat)
    requires h < |tab| && i < |tab[h]|
    ensures var at := |Flat(tab[..h])| + i;
      && at < |Flat(tab)| && Flat(tab)[at] == tab[h][i]
      && (if i + 1 < |tab[h]| then at + 1 < |Flat(tab)| && Flat(tab)[at + 1] == tab[h][i + 1]
          else FirstKey(tab, h + 1) == if at + 1 < |Flat(tab)| then Some(Flat(tab)[at + 1].key) else None)
  {
    FlatGoesOn(tab, h + 1);
    FlatPrefix(tab, h);
    var n := |Flat(tab[..h + 1])|;
    assert Flat(tab)[..n][|Flat(tab[..h])| + i] == tab[h][i];
    if i + 1 < |tab[h]| {
      assert Flat(tab)[..n][|Flat(tab[..h])| + i + 1] == tab[h][i + 1];
    }
  }
}
