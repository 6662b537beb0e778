/** The gate of a box that runs up to `limit` invocations at once (two or more): workers
    enter under the landing's lock and leave without it. */
module BoxGate {
  import opened Options

  /** Where a worker is, from one atomic operation to the next. */
  datatype Place =
    | Outside
    | Scanning(at: nat)                // holds the lock and looks for an unused context
    | Claimed(slot: nat)               // has marked the context as busy
    | Counted(slot: nat, conc: nat)    // has been counted in
    | Inside(slot: nat)                // runs the box
    | Left                             // has given the context back
    | Unlocking                        // was the first to leave a full house

  datatype State = State(limit: nat, busy: seq<bool>, conc: nat, locked: bool, workers: seq<Place>)

  /** A worker's next operation; None where it fails: no context left, or a lock released
      that is not held. */
  function Next(s: State, w: nat): Option<State>
    requires w < |s.workers| && (s.workers[w].Outside? ==> !s.locked)
  {
    match s.workers[w]
    case Outside => Some(Go(s.(locked := true), w, Scanning(0)))
    case Scanning(at) =>
      if at >= |s.busy| then None
      else if s.busy[at] then Some(Go(s, w, Scanning(at + 1)))
      else Some(Go(s.(busy := s.busy[at := true]), w, Claimed(at)))
    case Claimed(slot) => Some(Go(s.(conc := s.conc + 1), w, Counted(slot, s.conc + 1)))
    case Counted(slot, conc) =>
      if conc < s.limit then Unlock(s, w, Inside(slot)) else Some(Go(s, w, Inside(slot)))
    case Inside(slot) =>
      if slot >= |s.busy| then None else Some(Go(s.(busy := s.busy[slot := false]), w, Left))
    case Left =>
      if s.conc == 0 then None
      else Some(Go(s.(conc := s.conc - 1), w, if s.conc == s.limit then Unlocking else Outside))
    case Unlocking => Unlock(s, w, Outside)
  }

  function Go(s: State, w: nat, place: Place): State
    requires w < |s.workers|
  {
    s.(workers := s.workers[w := place])
  }

  function Unlock(s: State, w: nat, place: Place): Option<State>
    requires w < |s.workers|
  {
    if s.locked then Some(Go(s.(locked := false), w, place)) else None
  }

  // ---------- counting ----------

  /** Has been counted in and not yet out. */
  predicate In(p: Place) { p.Counted? || p.Inside? || p.Left? }

  /** Has a context. */
  predicate Owns(p: Place) { p.Claimed? || p.Counted? || p.Inside? }

  /** Is to release the lock it holds itself. */
  predicate Key(limit: nat, p: Place) {
    p.Scanning? || p.Claimed? || (p.Counted? && p.conc < limit) || p.Unlocking?
  }

  function CountIn(ws: seq<Place>): nat { if ws == [] then 0 else CountIn(ws[..|ws| - 1]) + One(In(ws[|ws| - 1])) }

  function CountOwners(ws: seq<Place>): nat {
    if ws == [] then 0 else CountOwners(ws[..|ws| - 1]) + One(Owns(ws[|ws| - 1]))
  }

  function CountBusy(busy: seq<bool>): nat {
    if busy == [] then 0 else CountBusy(busy[..|busy| - 1]) + One(busy[|busy| - 1])
  }

  lemma {:induction false} CountUpdate(ws: seq<Place>, w: nat, p: Place)
    requires w < |ws|
    ensures CountIn(ws[w := p]) == CountIn(ws) - One(In(ws[w])) + One(In(p))
    ensures CountOwners(ws[w := p]) == CountOwners(ws) - One(Owns(ws[w])) + One(Owns(p))
  {
    var n := |ws| - 1;
    if w == n {
      assert ws[w := p][..n] == ws[..n];
    } else {
      assert ws[w := p][..n] == ws[..n][w := p];
      CountUpdate(ws[..n], w, p);
    }
  }

  lemma {:induction false} BusyUpdate(busy: seq<bool>, k: nat, b: bool)
    requires k < |busy|
    ensures CountBusy(busy[k := b]) == CountBusy(busy) - One(busy[k]) + One(b)
  {
    var n := |busy| - 1;
    if k == n {
      assert busy[k := b][..n] == busy[..n];
    } else {
      assert busy[k := b][..n] == busy[..n][k := b];
      BusyUpdate(busy[..n], k, b);
    }
  }

  /** If fewer are busy than there are, one is free. */
  lemma {:induction false} FreeSlot(busy: seq<bool>) returns (k: nat)
    requires CountBusy(busy) < |busy|
    ensures k < |busy| && !busy[k]
  {
    var n := |busy| - 1;
    if !busy[n] { k := n; } else { k := FreeSlot(busy[..n]); }
  }

  /** Owners are counted in, but for those that have just claimed. */
  lemma {:induction false} OwnersIn(ws: seq<Place>)
    requires forall w :: 0 <= w < |ws| ==> !ws[w].Claimed?
    ensures CountOwners(ws) <= CountIn(ws)
  {
    if ws != [] { OwnersIn(ws[..|ws| - 1]); }
  }

  lemma {:induction false} CountedSome(ws: seq<Place>, w: nat)
    requires w < |ws| && In(ws[w])
    ensures CountIn(ws) >= 1
  {
    if w < |ws| - 1 { CountedSome(ws[..|ws| - 1], w); }
  }

  // ---------- the invariant ----------

  ghost predicate SlotsOk(s: State) {
    && |s.busy| == s.limit
    && CountBusy(s.busy) == CountOwners(s.workers)
    && (forall w :: 0 <= w < |s.workers| && Owns(s.workers[w]) ==> s.workers[w].slot < s.limit && s.busy[s.workers[w].slot])
    && (forall v, w :: 0 <= v < w < |s.workers| && Owns(s.workers[v]) && Owns(s.workers[w]) ==>
          s.workers[v].slot != s.workers[w].slot)
    && (forall w :: 0 <= w < |s.workers| && s.workers[w].Scanning? ==>
          exists k :: s.workers[w].at <= k < s.limit && !s.busy[k])
  }

  /** The lock is held by the one worker that is to release it, or by a full house. */
  ghost predicate LockOk(s: State) {
    && s.conc == CountIn(s.workers)
    && s.conc <= s.limit
    && (s.conc == s.limit ==> s.locked)
    && (forall v, w :: 0 <= v < w < |s.workers| ==> !(Key(s.limit, s.workers[v]) && Key(s.limit, s.workers[w])))
    && (forall w :: 0 <= w < |s.workers| && Key(s.limit, s.workers[w]) ==> s.locked && s.conc < s.limit)
    && (s.locked && s.conc < s.limit ==> exists w :: 0 <= w < |s.workers| && Key(s.limit, s.workers[w]))
    && (forall w :: 0 <= w < |s.workers| && s.workers[w].Counted? ==> s.workers[w].conc <= s.limit)
  }

  ghost predicate Inv(s: State) {
    s.limit >= 2 && SlotsOk(s) && LockOk(s)
  }

  // ---------- every step keeps the invariant ----------

  lemma {:induction false} SlotsKeep(s: State, w: nat)
    requires Inv(s) && w < |s.workers| && (s.workers[w].Outside? ==> !s.locked)
    ensures Next(s, w).Some? ==> SlotsOk(Next(s, w).value)
    ensures s.workers[w].Scanning? || s.workers[w].Inside? ==> Next(s, w).Some?
  {
    hide CountBusy, CountOwners, CountIn;
    match s.workers[w]
    case Outside =>
      CountUpdate(s.workers, w, Scanning(0));
      SlotLeft(s, w);
    case Scanning(at) => ScanSlot(s, w);
    case Claimed(slot) => CountUpdate(s.workers, w, Counted(slot, s.conc + 1));
    case Counted(slot, conc) => CountUpdate(s.workers, w, Inside(slot));
    case Inside(slot) => LeaveSlot(s, w);
    case Left =>
      CountUpdate(s.workers, w, Unlocking);
      CountUpdate(s.workers, w, Outside);
    case Unlocking => CountUpdate(s.workers, w, Outside);
  }

  lemma {:induction false} ScanSlot(s: State, w: nat)
    requires SlotsOk(s) && LockOk(s) && w < |s.workers| && s.workers[w].Scanning?
    ensures Next(s, w).Some? && SlotsOk(Next(s, w).value)
  {
    hide CountBusy, CountOwners, CountIn;
    var at := s.workers[w].at;
    var free :| at <= free < s.limit && !s.busy[free];
    var s' := Next(s, w).value;
    CountUpdate(s.workers, w, s'.workers[w]);
    BusyUpdate(s.busy, at, true);
    forall v | 0 <= v < |s'.workers| && s'.workers[v].Scanning?
      ensures exists k :: s'.workers[v].at <= k < s'.limit && !s'.busy[k]
    {
      OneKey(s, v, w);
    }
  }

  lemma {:induction false} OneKey(s: State, v: nat, w: nat)
    requires LockOk(s) && v < |s.workers| && w < |s.workers| && Key(s.limit, s.workers[w])
    ensures v != w ==> !Key(s.limit, s.workers[v])
  {
  }

  lemma {:induction false} LeaveSlot(s: State, w: nat)
    requires SlotsOk(s) && w < |s.workers| && s.workers[w].Inside?
    ensures Next(s, w).Some? && SlotsOk(Next(s, w).value)
  {
    hide CountBusy, CountOwners, CountIn;
    var slot := s.workers[w].slot;
    CountUpdate(s.workers, w, Left);
    BusyUpdate(s.busy, slot, false);
    var s' := Next(s, w).value;
    forall v | 0 <= v < |s'.workers| && Owns(s'.workers[v])
      ensures s'.workers[v].slot < s'.limit && s'.busy[s'.workers[v].slot]
    {
      assert Owns(s.workers[v]) && Owns(s.workers[w]) && v != w;
      assert s.workers[v].slot != slot;
    }
    forall v | 0 <= v < |s'.workers| && s'.workers[v].Scanning?
      ensures exists k :: s'.workers[v].at <= k < s'.limit && !s'.busy[k]
    {
      var k :| s.workers[v].at <= k < s.limit && !s.busy[k];
      assert !s'.busy[k];
    }
  }

  /** Who gets the lock finds a context: fewer than the limit are in, and nobody claims. */
  lemma {:induction false} SlotLeft(s: State, w: nat)
    requires Inv(s) && w < |s.workers| && s.workers[w].Outside? && !s.locked
    ensures exists k :: 0 <= k < s.limit && !s.busy[k]
  {
    OwnersIn(s.workers);
    var k := FreeSlot(s.busy);
  }

  lemma {:induction false} LockKeeps(s: State, w: nat)
    requires Inv(s) && w < |s.workers| && (s.workers[w].Outside? ==> !s.locked)
    ensures Next(s, w).Some? ==> LockOk(Next(s, w).value)
    ensures s.workers[w].Counted? || s.workers[w].Left? || s.workers[w].Unlocking? ==> Next(s, w).Some?
  {
    hide CountBusy, CountOwners, CountIn, SlotsOk;
    if In(s.workers[w]) { CountedSome(s.workers, w); }
    if Next(s, w).Some? {
      var s' := Next(s, w).value;
      CountUpdate(s.workers, w, s'.workers[w]);
      forall v | 0 <= v < |s'.workers| && Key(s.limit, s'.workers[v]) ensures s'.locked && s'.conc < s.limit {
        if v != w { assert Key(s.limit, s.workers[v]); }
      }
      if s'.locked && s'.conc < s.limit { KeyStays(s, w, s'); }
    }
  }

  /** While the lock is held below the limit, somebody is to release it. */
  lemma {:induction false} KeyStays(s: State, w: nat, s': State)
    requires Inv(s) && w < |s.workers| && (s.workers[w].Outside? ==> !s.locked) && Next(s, w) == Some(s')
    requires s'.locked && s'.conc < s.limit
    ensures exists v :: 0 <= v < |s'.workers| && Key(s.limit, s'.workers[v])
  {
    hide CountBusy, CountOwners, CountIn, SlotsOk;
    if !Key(s.limit, s'.workers[w]) {
      assert s.locked && s.conc < s.limit;
      var v :| 0 <= v < |s.workers| && Key(s.limit, s.workers[v]);
      assert v != w;
      assert Key(s.limit, s'.workers[v]);
    }
  }

  lemma {:induction false} StepKeepsInv(s: State, w: nat)
    requires Inv(s) && w < |s.workers| && (s.workers[w].Outside? ==> !s.locked)
    ensures Next(s, w).Some? && Inv(Next(s, w).value)
  {
    hide SlotsOk, LockOk;
    SlotsKeep(s, w);
    LockKeeps(s, w);
  }

  // ---------- whole runs ----------

  function Start(limit: nat, workers: nat): State {
    State(limit, seq(limit, i => false), 0, false, seq(workers, i => Outside))
  }

  lemma {:induction false} NoneBusy(n: nat)
    ensures CountBusy(seq(n, i => false)) == 0
  {
    if n > 0 {
      assert seq(n, i => false)[..n - 1] == seq(n - 1, i => false);
      NoneBusy(n - 1);
    }
  }

  lemma {:induction false} NoneIn(n: nat)
    ensures CountIn(seq(n, i => Outside)) == 0 && CountOwners(seq(n, i => Outside)) == 0
  {
    if n > 0 {
      assert seq(n, i => Outside)[..n - 1] == seq(n - 1, i => Outside);
      NoneIn(n - 1);
    }
  }

  /** The workers take their operations in any order. */
  predicate Feasible(s: State, turns: seq<nat>)
    decreases |turns|
  {
    |turns| == 0 ||
    (&& turns[0] < |s.workers| && (s.workers[turns[0]].Outside? ==> !s.locked)
     && (Next(s, turns[0]).Some? ==> Feasible(Next(s, turns[0]).value, turns[1..])))
  }

  function Run(s: State, turns: seq<nat>): Option<State>
    requires Feasible(s, turns)
    decreases |turns|
  {
    if |turns| == 0 then Some(s)
    else match Next(s, turns[0])
      case None => None
      case Some(s') => Run(s', turns[1..])
  }

  lemma {:induction false} RunIsSafe(s: State, turns: seq<nat>)
    requires Inv(s) && Feasible(s, turns)
    ensures Run(s, turns).Some? && Inv(Run(s, turns).value)
    ensures Run(s, turns).value.limit == s.limit
    decreases |turns|
  {
    hide Inv;
    if |turns| > 0 {
      StepKeepsInv(s, turns[0]);
      RunIsSafe(Next(s, turns[0]).value, turns[1..]);
    }
  }

  /** Under every interleaving: a context is found, the lock is released only when it is
      held, two invocations never share a context, never more run than the limit, and
      when no worker is between two operations the lock is held exactly by a full house. */
  lemma {:induction false} GateIsSafe(limit: nat, workers: nat, turns: seq<nat>, v: nat, w: nat)
    requires limit >= 2 && Feasible(Start(limit, workers), turns)
    ensures Run(Start(limit, workers), turns).Some?
    ensures var s := Run(Start(limit, workers), turns).value;
      && (v < w < |s.workers| && s.workers[v].Inside? && s.workers[w].Inside? ==> s.workers[v].slot != s.workers[w].slot)
      && CountIn(s.workers) <= limit
      && ((forall u :: 0 <= u < |s.workers| ==> s.workers[u].Outside? || s.workers[u].Inside?) ==>
            (s.locked <==> CountIn(s.workers) == limit))
  {
    hide Feasible, Run, Next, CountIn, CountOwners, CountBusy;
    NoneBusy(limit);
    NoneIn(workers);
    var s0 := Start(limit, workers);
    assert Inv(s0);
    RunIsSafe(s0, turns);
    var s := Run(s0, turns).value;
    assert v < w < |s.workers| && Owns(s.workers[v]) && Owns(s.workers[w]) ==> s.workers[v].slot != s.workers[w].slot;
  }

  // ---------- every worker can get in ----------

  /** How many operations at most a worker is from the outside. */
  function Way(limit: nat, p: Place): nat {
    match p
    case Scanning(at) => 6 + if at < limit then limit - at else 0
    case Claimed(_) => 5
    case Counted(_, _) => 4
    case Inside(_) => 3
    case Left => 2
    case Unlocking => 1
    case Outside => 0
  }

  /** How many of its own operations at most a worker is from running the box. */
  function WayIn(limit: nat, p: Place): nat {
    match p
    case Left => limit + 6
    case Unlocking => limit + 5
    case Outside => limit + 4
    case Scanning(at) => 3 + if at < limit then limit - at else 0
    case Claimed(_) => 2
    case Counted(_, _) => 1
    case Inside(_) => 0
  }

  function AllWays(limit: nat, ws: seq<Place>): nat {
    if ws == [] then 0 else AllWays(limit, ws[..|ws| - 1]) + Way(limit, ws[|ws| - 1])
  }

  lemma {:induction false} WaysUpdate(limit: nat, ws: seq<Place>, w: nat, p: Place)
    requires w < |ws|
    ensures AllWays(limit, ws[w := p]) == AllWays(limit, ws) - Way(limit, ws[w]) + Way(limit, p)
  {
    hide Way;
    var n := |ws| - 1;
    if w == n {
      assert ws[w := p][..n] == ws[..n];
    } else {
      assert ws[w := p][..n] == ws[..n][w := p];
      WaysUpdate(limit, ws[..n], w, p);
    }
  }

  lemma {:induction false} OneMoves(s: State, w: nat)
    requires w < |s.workers| && !s.workers[w].Outside? && Next(s, w).Some?
    requires s.workers[w].Scanning? ==> s.workers[w].at < s.limit == |s.busy|
    ensures var s' := Next(s, w).value;
      && s'.limit == s.limit && |s'.workers| == |s.workers| && s'.workers == s.workers[w := s'.workers[w]]
      && Way(s.limit, s'.workers[w]) < Way(s.limit, s.workers[w])
      && (!s.workers[w].Inside? ==> WayIn(s.limit, s'.workers[w]) < WayIn(s.limit, s.workers[w]))
  {
  }

  /** Whoever is not outside comes nearer to it with his next operation, which may run at once;
      before he runs the box he comes nearer to that. */
  lemma {:induction false} ComesNearer(s: State, w: nat)
    requires Inv(s) && w < |s.workers| && !s.workers[w].Outside?
    ensures Next(s, w).Some?
    ensures var s' := Next(s, w).value;
      && s'.limit == s.limit && |s'.workers| == |s.workers|
      && (forall v :: 0 <= v < |s.workers| && v != w ==> s'.workers[v] == s.workers[v])
      && AllWays(s.limit, s'.workers) < AllWays(s.limit, s.workers)
      && (!s.workers[w].Inside? ==> WayIn(s.limit, s'.workers[w]) < WayIn(s.limit, s.workers[w]))
  {
    hide Inv, Next, Way, WayIn, AllWays;
    StepKeepsInv(s, w);
    ScansInside(s, w);
    OneMoves(s, w);
    WaysUpdate(s.limit, s.workers, w, Next(s, w).value.workers[w]);
  }

  lemma {:induction false} ScansInside(s: State, w: nat)
    requires Inv(s) && w < |s.workers|
    ensures s.workers[w].Scanning? ==> s.workers[w].at < s.limit == |s.busy|
  {
  }

  /** The lock is never held with all workers outside. */
  lemma {:induction false} SomeoneNotOutside(s: State) returns (u: nat)
    requires Inv(s) && s.locked
    ensures u < |s.workers| && !s.workers[u].Outside?
  {
    if s.conc < s.limit {
      u :| 0 <= u < |s.workers| && Key(s.limit, s.workers[u]);
    } else {
      u := CountedIn(s.workers);
    }
  }

  lemma {:induction false} CountedIn(ws: seq<Place>) returns (u: nat)
    requires CountIn(ws) > 0
    ensures u < |ws| && In(ws[u])
  {
    var n := |ws| - 1;
    if In(ws[n]) { u := n; } else { u := CountedIn(ws[..n]); }
  }

  /** After these turns the worker runs the box. */
  ghost predicate GetsIn(s: State, w: nat, turns: seq<nat>) {
    Feasible(s, turns) && Run(s, turns).Some? && w < |Run(s, turns).value.workers| && Run(s, turns).value.workers[w].Inside?
  }

  lemma {:induction false} GetsInAfter(s: State, w: nat, u: nat, rest: seq<nat>)
    requires u < |s.workers| && (s.workers[u].Outside? ==> !s.locked) && Next(s, u).Some? && GetsIn(Next(s, u).value, w, rest)
    ensures GetsIn(s, w, [u] + rest)
  {
    hide Next;
    assert ([u] + rest)[1..] == rest;
  }

  /** Whose turn it is, so that worker w gets in: its own, or, before a lock that is held, that of
      a worker who is on his way. */
  lemma {:induction false} Turn(s: State, w: nat) returns (u: nat)
    requires Inv(s) && w < |s.workers| && !s.workers[w].Inside?
    ensures u < |s.workers| && (s.workers[u].Outside? ==> !s.locked) && Next(s, u).Some?
    ensures var s' := Next(s, u).value;
      && s'.limit == s.limit && |s'.workers| == |s.workers|
      && WayIn(s.limit, s'.workers[w]) <= WayIn(s.limit, s.workers[w])
      && (WayIn(s.limit, s'.workers[w]) == WayIn(s.limit, s.workers[w]) ==> AllWays(s.limit, s'.workers) < AllWays(s.limit, s.workers))
  {
    hide Inv, AllWays, Key, In;
    if !s.workers[w].Outside? {
      u := w;
      ComesNearer(s, w);
    } else if s.locked {
      u := SomeoneNotOutside(s);
      ComesNearer(s, u);
    } else {
      u := w;
    }
  }

  /** Nobody is kept out for good: from every state, whatever the others are doing, there are turns
      after which a given worker runs the box. */
  lemma {:induction false} CanEnter(s: State, w: nat)
    requires Inv(s) && w < |s.workers|
    ensures exists turns :: GetsIn(s, w, turns)
    decreases WayIn(s.limit, s.workers[w]), AllWays(s.limit, s.workers)
  {
    hide Inv, GetsIn, AllWays, WayIn, Next;
    if s.workers[w].Inside? {
      InsideNow(s, w);
    } else {
      var u := Turn(s, w);
      StepKeepsInv(s, u);
      CanEnter(Next(s, u).value, w);
      var rest :| GetsIn(Next(s, u).value, w, rest);
      GetsInAfter(s, w, u, rest);
    }
  }

  lemma {:induction false} InsideNow(s: State, w: nat)
    requires w < |s.workers| && s.workers[w].Inside?
    ensures GetsIn(s, w, [])
  {
  }

  // ---------- the code ----------

  /** One worker takes its next n operations, with no other in between. */
  function Turns(n: nat, w: nat): seq<nat> { seq(n, i => w) }

  ghost predicate Did(s: State, n: nat, w: nat, s': State) {
    Feasible(s, Turns(n, w)) && Run(s, Turns(n, w)) == Some(s')
  }

  lemma {:induction false} DoesOneMore(s: State, n: nat, w: nat, s': State)
    requires Did(s, n, w, s') && w < |s'.workers| && (s'.workers[w].Outside? ==> !s'.locked) && Next(s', w).Some?
    ensures Did(s, n + 1, w, Next(s', w).value)
    decreases n
  {
    hide Next;
    var turns := Turns(n + 1, w);
    assert turns[1..] == Turns(n, w) && turns[0] == w;
    if n > 0 {
      assert Turns(n, w)[1..] == Turns(n - 1, w);
      DoesOneMore(Next(s, w).value, n - 1, w, s');
    } else {
      assert Turns(0, w) == [] && Feasible(Next(s, w).value, []) && Run(Next(s, w).value, []) == Some(Next(s, w).value);
    }
  }

  /** A box landing: a worker that enters holds the landing's lock. `workers` says where
      each worker is. */
  class Landing {
    const limit: nat
    const busy: array<bool>
    var concurrency: nat
    var locked: bool
    ghost var workers: seq<Place>

    ghost function Sys(): State
      reads this, busy
    {
      State(limit, busy[..], concurrency, locked, workers)
    }

    constructor (n: nat, crew: nat)
      requires n >= 2
      ensures Sys() == Start(n, crew) && fresh(busy)
    {
      limit := n;
      busy := new bool[n](i => false);
      concurrency, locked := 0, false;
      workers := seq(crew, i => Outside);
      new;
      assert busy[..] == seq(n, i => false);
    }

    /** Look for the first unused context and mark it: slot + 1 of the worker's operations. */
    method Claim(ghost w: nat) returns (slot: nat)
      requires Inv(Sys()) && w < |workers| && workers[w] == Scanning(0)
      modifies this`workers, busy
      ensures Inv(Sys()) && Did(old(Sys()), slot + 1, w, Sys()) && workers == old(workers)[w := Claimed(slot)]
      ensures slot < limit == busy.Length && !old(busy[slot]) && (forall k :: 0 <= k < slot ==> old(busy[k]))
      ensures busy[..] == old(busy[..])[slot := true]
    {
      hide Inv, Did, Run, Feasible;
      ghost var s0 := Sys();
      slot := 0;
      assert workers == workers[w := Scanning(0)];
      NothingDone(s0, w);
      FindsOne(Sys(), w);
      while busy[slot]
        modifies this`workers
        invariant slot < busy.Length == limit && forall k :: 0 <= k < slot ==> s0.busy[k]
        invariant Inv(Sys()) && workers == s0.workers[w := Scanning(slot)] && Did(s0, slot, w, Sys())
        decreases busy.Length - slot
      {
        StepKeepsInv(Sys(), w);
        DoesOneMore(s0, slot, w, Sys());
        slot := slot + 1;
        workers := workers[w := Scanning(slot)];
        FindsOne(Sys(), w);
      }
      StepKeepsInv(Sys(), w);
      DoesOneMore(s0, slot, w, Sys());
      busy[slot] := true;
      workers := workers[w := Claimed(slot)];
    }

    /** Take the first unused context, and let others in while the limit is not reached:
        slot + 3 of the worker's operations, after it has got the lock. */
    method Enter(ghost w: nat) returns (slot: nat)
      requires Inv(Sys()) && w < |workers| && workers[w] == Scanning(0)
      modifies this, busy
      ensures Inv(Sys()) && Did(old(Sys()), slot + 3, w, Sys()) && workers == old(workers)[w := Inside(slot)]
      ensures slot < limit && !old(busy[slot]) && (forall k :: 0 <= k < slot ==> old(busy[k]))
      ensures concurrency == old(concurrency) + 1 && locked == (concurrency == limit)
    {
      hide Inv, Did, Run, Feasible;
      ghost var s0 := Sys();
      slot := Claim(w);
      StepKeepsInv(Sys(), w);
      DoesOneMore(s0, slot + 1, w, Sys());
      concurrency := concurrency + 1;
      workers := workers[w := Counted(slot, concurrency)];
      UnlocksBelow(Sys(), w);
      StepKeepsInv(Sys(), w);
      DoesOneMore(s0, slot + 2, w, Sys());
      if concurrency < limit {
        locked := false;
      }
      workers := workers[w := Inside(slot)];
    }

    /** Give the context back; the first to leave a full house releases the lock. */
    method Leave(ghost w: nat, slot: nat)
      requires Inv(Sys()) && w < |workers| && workers[w] == Inside(slot)
      modifies this, busy
      ensures Inv(Sys()) && workers == old(workers)[w := Outside] && concurrency == old(concurrency) - 1
      ensures Did(old(Sys()), if old(concurrency) == limit then 3 else 2, w, Sys())
      ensures busy[..] == old(busy[..])[slot := false] && locked == (old(locked) && old(concurrency) != limit)
    {
      hide Inv, Did, Run, Feasible;
      ghost var s0 := Sys();
      HasOne(Sys(), w);
      NothingDone(s0, w);
      StepKeepsInv(Sys(), w);
      DoesOneMore(s0, 0, w, Sys());
      busy[slot] := false;
      workers := workers[w := Left];
      StepKeepsInv(Sys(), w);
      DoesOneMore(s0, 1, w, Sys());
      var before := concurrency;
      concurrency := concurrency - 1;
      workers := workers[w := if before == limit then Unlocking else Outside];
      if before == limit {
        StepKeepsInv(Sys(), w);
        DoesOneMore(s0, 2, w, Sys());
        locked := false;
        workers := workers[w := Outside];
      }
    }
  }

  lemma {:induction false} NothingDone(s: State, w: nat)
    ensures Did(s, 0, w, s)
  {
  }

  lemma {:induction false} FindsOne(s: State, w: nat)
    requires Inv(s) && w < |s.workers|
    ensures s.workers[w].Scanning? ==> s.workers[w].at < s.limit == |s.busy|
  {
  }

  lemma {:induction false} HasOne(s: State, w: nat)
    requires Inv(s) && w < |s.workers| && s.workers[w].Inside?
    ensures s.workers[w].slot < s.limit == |s.busy| && 0 < s.conc
  {
    CountedSome(s.workers, w);
  }

  /** A worker that has been counted holds the lock, and the count is still its own. */
  lemma {:induction false} UnlocksBelow(s: State, w: nat)
    requires Inv(s) && w < |s.workers| && s.workers[w].Counted? && s.workers[w].conc == s.conc
    ensures s.locked && s.conc <= s.limit
  {
  }
}
