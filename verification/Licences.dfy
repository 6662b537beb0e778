/** Read licences, stream descriptors and dissolved identity landings of the
    work-stealing runtime, as a system of atomic steps.

    A licence allows one dequeue. It is issued with every record that is put into
    a stream, sits in a ticket (a work item, a thief's loot, or the hands of a
    worker), and must be redeemed even when the stream has been dissolved since. */
module Licences {

  type Rec = int

  /** What a landing does. A dissolved landing is Garbage until its descriptor
      closes; `out` is the descriptor it forwards to. */
  datatype Kind = Plain | Identity(out: nat) | Garbage(out: nat) | Gone

  /** A stream descriptor's wiring: the landing it leads to and its place in a
      topological order of the streams (smaller is further downstream). */
  datatype Desc = Desc(land: nat, rank: nat)

  datatype Net = Net(descs: seq<Desc>, lands: seq<Kind>)

  /** A stream descriptor's state: the queued records, the reference counter, the
      number of open ends held by nodes, and the number of records being worked on. */
  datatype Stream = Stream(queue: seq<Rec>, refs: int, writers: nat, busy: nat, closed: bool)

  /** A number of licences for one descriptor; `reading` marks the single licence
      of a worker that is about to dequeue. */
  datatype Ticket = Ticket(desc: nat, count: nat, reading: bool)

  /** The lock of a landing: taken by a worker that is about to dequeue with the
      given ticket, or by one that has its record. */
  datatype Lock = Free | Reading(ticket: nat) | Working

  /** A landing's lock, and the record an identity landing is about to pass on. */
  datatype Site = Site(lock: Lock, hand: seq<Rec>)

  datatype State = State(net: Net, streams: seq<Stream>, sites: seq<Site>, tickets: seq<Ticket>)

  // ---------- forwarding through dissolved landings ----------

  function KindOf(net: Net, d: nat): Kind {
    if d < |net.descs| && net.descs[d].land < |net.lands| then net.lands[net.descs[d].land] else Plain
  }

  /** The descriptor a dissolved landing forwards to. */
  predicate Dissolved(net: Net, d: nat) {
    && KindOf(net, d).Garbage?
    && d < |net.descs| && KindOf(net, d).out < |net.descs|
    && net.descs[KindOf(net, d).out].rank < net.descs[d].rank
  }

  function Rank(net: Net, d: nat): nat {
    if d < |net.descs| then net.descs[d].rank else 0
  }

  /** Where licences for d end up. */
  function Fwd(net: Net, d: nat): nat
    decreases Rank(net, d)
  {
    if Dissolved(net, d) then Fwd(net, KindOf(net, d).out) else d
  }

  /** e lies on the way of licences for d. */
  predicate Passes(net: Net, d: nat, e: nat)
    decreases Rank(net, d)
  {
    d == e || (Dissolved(net, d) && Passes(net, KindOf(net, d).out, e))
  }

  function Ends(net: Net, e: nat): nat -> bool { (d: nat) => Fwd(net, d) == e }

  function Through(net: Net, e: nat): nat -> bool { (d: nat) => Passes(net, d, e) }

  lemma {:induction false} FwdPasses(net: Net, d: nat)
    ensures Passes(net, d, Fwd(net, d)) && !Dissolved(net, Fwd(net, d))
    decreases Rank(net, d)
  {
    if Dissolved(net, d) { FwdPasses(net, KindOf(net, d).out); }
  }

  /** A descriptor that is not dissolved is where its visitors end. */
  lemma {:induction false} PassesStops(net: Net, d: nat, e: nat)
    requires Passes(net, d, e) && !Dissolved(net, e)
    ensures Fwd(net, d) == e
    decreases Rank(net, d)
  {
    if d != e { PassesStops(net, KindOf(net, d).out, e); }
  }

  lemma {:induction false} PassesRank(net: Net, d: nat, e: nat)
    requires Passes(net, d, e)
    ensures d == e || Rank(net, e) < Rank(net, d)
    decreases Rank(net, d)
  {
    if d != e { PassesRank(net, KindOf(net, d).out, e); }
  }

  // ---------- sums over tickets ----------

  function Weight(t: Ticket, p: nat -> bool): nat { if p(t.desc) then t.count else 0 }

  function Sum(ts: seq<Ticket>, p: nat -> bool): nat {
    if |ts| == 0 then 0 else Sum(ts[..|ts| - 1], p) + Weight(ts[|ts| - 1], p)
  }

  lemma {:induction false} SumAppend(ts: seq<Ticket>, t: Ticket, p: nat -> bool)
    ensures Sum(ts + [t], p) == Sum(ts, p) + Weight(t, p)
  {
    assert (ts + [t])[..|ts|] == ts;
  }

  lemma {:induction false} SumUpdate(ts: seq<Ticket>, i: nat, t: Ticket, p: nat -> bool)
    requires i < |ts|
    ensures Sum(ts[i := t], p) == Sum(ts, p) - Weight(ts[i], p) + Weight(t, p)
  {
    var n := |ts| - 1;
    if i == n {
      assert ts[i := t][..n] == ts[..n];
    } else {
      assert ts[i := t][..n] == ts[..n][i := t];
      SumUpdate(ts[..n], i, t, p);
    }
  }

  lemma {:induction false} SumHas(ts: seq<Ticket>, i: nat, p: nat -> bool)
    requires i < |ts| && p(ts[i].desc)
    ensures ts[i].count <= Sum(ts, p)
  {
    if i < |ts| - 1 { SumHas(ts[..|ts| - 1], i, p); }
  }

  /** Two conditions that only differ on empty tickets. */
  lemma {:induction false} SumSame(ts: seq<Ticket>, p: nat -> bool, q: nat -> bool)
    requires forall i :: 0 <= i < |ts| && ts[i].count > 0 ==> p(ts[i].desc) == q(ts[i].desc)
    ensures Sum(ts, p) == Sum(ts, q)
  {
    if |ts| > 0 { SumSame(ts[..|ts| - 1], p, q); }
  }

  lemma {:induction false} SumEither(ts: seq<Ticket>, p: nat -> bool, q: nat -> bool, pq: nat -> bool)
    requires forall i :: 0 <= i < |ts| ==> pq(ts[i].desc) == (p(ts[i].desc) || q(ts[i].desc))
    requires forall i :: 0 <= i < |ts| ==> !(p(ts[i].desc) && q(ts[i].desc))
    ensures Sum(ts, pq) == Sum(ts, p) + Sum(ts, q)
  {
    if |ts| > 0 { SumEither(ts[..|ts| - 1], p, q, pq); }
  }

  /** The number of identity and garbage landings that hold an end of d. */
  function OutEnds(lands: seq<Kind>, d: nat): nat {
    if |lands| == 0 then 0 else OutEnds(lands[..|lands| - 1], d) + HoldsEnd(lands[|lands| - 1], d)
  }

  function HoldsEnd(k: Kind, d: nat): nat {
    if (k.Identity? || k.Garbage?) && k.out == d then 1 else 0
  }

  lemma {:induction false} OutUpdate(lands: seq<Kind>, l: nat, k: Kind, d: nat)
    requires l < |lands|
    ensures OutEnds(lands[l := k], d) == OutEnds(lands, d) - HoldsEnd(lands[l], d) + HoldsEnd(k, d)
  {
    var n := |lands| - 1;
    if l == n {
      assert lands[l := k][..n] == lands[..n];
    } else {
      assert lands[l := k][..n] == lands[..n][l := k];
      OutUpdate(lands[..n], l, k, d);
    }
  }

  lemma {:induction false} OutHas(lands: seq<Kind>, l: nat, d: nat)
    requires l < |lands| && HoldsEnd(lands[l], d) == 1
    ensures OutEnds(lands, d) >= 1
  {
    if l < |lands| - 1 { OutHas(lands[..|lands| - 1], l, d); }
  }

  // ---------- the invariant ----------


  ghost predicate Shaped(s: State) {
    && |s.streams| == |s.net.descs| && |s.sites| == |s.net.lands|
    && (forall d :: 0 <= d < |s.net.descs| ==> s.net.descs[d].land < |s.net.lands|)
    && (forall i :: 0 <= i < |s.tickets| ==> s.tickets[i].desc < |s.net.descs|)
  }

  ghost function LandOf(s: State, d: nat): nat
    requires Shaped(s) && d < |s.streams|
    ensures LandOf(s, d) < |s.sites|
  {
    s.net.descs[d].land
  }

  /** Identity and garbage landings lead strictly downstream, from one descriptor. */
  ghost predicate Wired(net: Net) {
    && (forall d :: 0 <= d < |net.descs| ==> OutOk(net, d))
    && (forall d, e :: (0 <= d < |net.descs| && 0 <= e < |net.descs| && !KindOf(net, d).Plain?
                        && net.descs[d].land == net.descs[e].land) ==> d == e)
    && (forall l :: 0 <= l < |net.lands| && (net.lands[l].Identity? || net.lands[l].Garbage?) ==> net.lands[l].out < |net.descs|)
  }

  ghost predicate OutOk(net: Net, d: nat)
    requires d < |net.descs|
  {
    var k := KindOf(net, d);
    (k.Identity? || k.Garbage?) ==> k.out < |net.descs| && net.descs[k.out].rank < net.descs[d].rank
  }

  /** The licences for d match its queue, its references match their holders. */
  ghost predicate Balanced(s: State, d: nat)
    requires Shaped(s) && d < |s.streams|
  {
    var x := s.streams[d];
    && |x.queue| == Sum(s.tickets, Ends(s.net, d))
    && x.refs == x.writers + x.busy + OutEnds(s.net.lands, d) + Sum(s.tickets, Through(s.net, d))
  }

  /** Nobody can write to a dissolved stream; a closed one has no references left. */
  ghost predicate EndsOk(s: State, d: nat)
    requires Shaped(s) && d < |s.streams|
  {
    var x := s.streams[d];
    && x.writers <= 1
    && |s.sites[LandOf(s, d)].hand| <= x.busy
    && (x.writers > 0 ==> !KindOf(s.net, d).Garbage?)
    && (KindOf(s.net, d).Gone? ==> x.closed)
    && (x.closed ==> x.refs == 0 && !KindOf(s.net, d).Garbage? && !KindOf(s.net, d).Identity?)
  }

  /** The one open end an identity landing holds. */
  ghost predicate IdentityOk(s: State, l: nat)
    requires Shaped(s) && l < |s.net.lands| && s.net.lands[l].Identity?
  {
    var e := s.net.lands[l].out;
    && !KindOf(s.net, e).Garbage?
    && (e < |s.streams| ==> s.streams[e].writers == 0)
    && (forall m :: 0 <= m < |s.net.lands| && s.net.lands[m] == Identity(e) ==> m == l)
  }

  ghost predicate SiteOk(s: State, l: nat)
    requires Shaped(s) && l < |s.sites|
  {
    var site := s.sites[l];
    && (site.lock.Reading? ==>
          && site.lock.ticket < |s.tickets|
          && s.net.descs[s.tickets[site.lock.ticket].desc].land == l
          && s.tickets[site.lock.ticket].count == 1 && s.tickets[site.lock.ticket].reading
          && (s.net.lands[l].Plain? || s.net.lands[l].Identity?))
    && (site.hand != [] ==> |site.hand| == 1 && s.net.lands[l].Identity? && site.lock.Working?)
  }

  ghost predicate TicketOk(s: State, i: nat)
    requires Shaped(s) && i < |s.tickets|
  {
    s.tickets[i].reading ==> s.sites[LandOf(s, s.tickets[i].desc)].lock == Reading(i)
  }

  ghost predicate Inv(s: State) {
    && Shaped(s)
    && Wired(s.net)
    && (forall d :: 0 <= d < |s.streams| ==> Balanced(s, d))
    && (forall d :: 0 <= d < |s.streams| ==> EndsOk(s, d))
    && (forall l :: 0 <= l < |s.net.lands| && s.net.lands[l].Identity? ==> IdentityOk(s, l))
    && (forall l :: 0 <= l < |s.sites| ==> SiteOk(s, l))
    && (forall i :: 0 <= i < |s.tickets| ==> TicketOk(s, i))
  }

  // ---------- steps ----------

  /** Who holds the open end that is written to. */
  datatype Writer = Node | Via(land: nat)

  predicate HasEnd(s: State, w: Writer, d: nat) {
    match w
    case Node => d < |s.streams| && s.streams[d].writers > 0
    case Via(l) => l < |s.net.lands| && s.net.lands[l] == Identity(d)
  }

  /** The writer has this record to write. An identity landing passes on what it took. */
  predicate HasRecord(s: State, w: Writer, r: Rec) {
    w.Via? ==> w.land < |s.sites| && s.sites[w.land].hand == [r]
  }

  datatype Step =
    | Open(land: nat, rank: nat)
    | Put(w: Writer, desc: nat, rec: Rec)
    | PutGet(w: Writer, desc: nat, rec: Rec)
    | Move(source: nat, target: nat, amount: nat)
    | Split(source: nat, amount: nat)
    | Hop(ticket: nat)
    | Take(ticket: nat)
    | Get(ticket: nat)
    | Unlock(land: nat)
    | Done(desc: nat)
    | BecomeIdentity(land: nat, out: nat)
    | Dissolve(w: Writer, desc: nat)
    | CloseEnd(desc: nat)
    | Reap(desc: nat)

  function SetHand(sites: seq<Site>, w: Writer): seq<Site> {
    if w.Via? && w.land < |sites| then sites[w.land := sites[w.land].(hand := [])] else sites
  }

  ghost predicate Enabled(s: State, step: Step)
    requires Shaped(s)
  {
    match step
    case Open(land, rank) => land == |s.net.lands| || (land < |s.net.lands| && s.net.lands[land].Plain?)
    case Put(w, d, r) => HasEnd(s, w, d) && d < |s.streams| && HasRecord(s, w, r)
    case PutGet(w, d, r) =>
      HasEnd(s, w, d) && d < |s.streams| && HasRecord(s, w, r) && s.sites[LandOf(s, d)].lock.Free?
    case Move(i, j, n) =>
      && i < |s.tickets| && j < |s.tickets| && i != j && n <= s.tickets[i].count
      && s.tickets[i].desc == s.tickets[j].desc && !s.tickets[i].reading && !s.tickets[j].reading
    case Split(i, n) => i < |s.tickets| && n <= s.tickets[i].count && !s.tickets[i].reading
    case Hop(i) =>
      i < |s.tickets| && s.tickets[i].count > 0 && KindOf(s.net, s.tickets[i].desc).Garbage? && !s.tickets[i].reading
    case Take(i) =>
      && i < |s.tickets| && s.tickets[i].count > 0 && !s.tickets[i].reading
      && !KindOf(s.net, s.tickets[i].desc).Garbage? && s.sites[LandOf(s, s.tickets[i].desc)].lock.Free?
    case Get(i) => i < |s.tickets| && s.tickets[i].reading
    case Unlock(l) => l < |s.sites| && s.sites[l].lock.Working? && s.sites[l].hand == []
    case Done(d) => d < |s.streams| && s.streams[d].busy > 0 && s.sites[LandOf(s, d)].hand == []
    case BecomeIdentity(l, out) =>
      && l < |s.net.lands| && s.net.lands[l].Plain? && out < |s.streams| && s.streams[out].writers > 0
      && (exists d :: 0 <= d < |s.streams| && s.net.descs[d].land == l && !s.streams[d].closed)
      && (forall d, e :: 0 <= d < |s.streams| && 0 <= e < |s.streams| && s.net.descs[d].land == l && s.net.descs[e].land == l ==> d == e)
      && (forall d :: 0 <= d < |s.streams| && s.net.descs[d].land == l ==> s.net.descs[out].rank < s.net.descs[d].rank)
    case Dissolve(w, d) =>
      d < |s.streams| && HasEnd(s, w, d) && KindOf(s.net, d).Identity? && s.sites[LandOf(s, d)].lock.Free?
    case CloseEnd(d) => d < |s.streams| && s.streams[d].writers > 0
    case Reap(d) => d < |s.streams| && s.streams[d].refs == 0 && !s.streams[d].closed
  }

  // ---------- effects ----------

  function Insert(s: State, w: Writer, d: nat, r: Rec): State
    requires d < |s.streams|
  {
    var x := s.streams[d];
    s.(streams := s.streams[d := x.(queue := x.queue + [r], refs := x.refs + 1)],
       sites := SetHand(s.sites, w),
       tickets := s.tickets + [Ticket(d, 1, false)])
  }

  /** Dequeue into the hands of the worker that holds the landing's lock. */
  ghost function Fetch(s: State, d: nat, r: Rec, rest: seq<Rec>): State
    requires Shaped(s) && d < |s.streams|
  {
    var x := s.streams[d];
    var l := LandOf(s, d);
    s.(streams := s.streams[d := x.(queue := rest, busy := x.busy + 1)],
       sites := s.sites[l := Site(Working, if s.net.lands[l].Identity? then [r] else [])])
  }

  ghost function Dissolving(s: State, w: Writer, d: nat): State
    requires Shaped(s) && Enabled(s, Dissolve(w, d)) && KindOf(s.net, d).out < |s.streams|
  {
    var next := KindOf(s.net, d).out;
    var x, y := s.streams[d], s.streams[next];
    var lands := s.net.lands[LandOf(s, d) := Garbage(next)];
    var node := if w.Node? then 1 else 0;
    s.(net := s.net.(lands := if w.Via? then lands[w.land := Identity(next)] else lands),
       streams := s.streams
         [d := x.(queue := [], refs := x.refs - 1, writers := x.writers - node)]
         [next := y.(queue := y.queue + x.queue, refs := y.refs + |x.queue| + 1, writers := y.writers + node)])
  }

  ghost function Reaping(s: State, d: nat): State
    requires Shaped(s) && d < |s.streams|
  {
    var closed := s.streams[d := s.streams[d].(closed := true)];
    var k := KindOf(s.net, d);
    if (k.Identity? || k.Garbage?) && k.out < |s.streams| then
      s.(net := s.net.(lands := s.net.lands[LandOf(s, d) := Gone]),
         streams := closed[k.out := closed[k.out].(refs := closed[k.out].refs - 1)])
    else
      s.(streams := closed)
  }

  ghost function Apply(s: State, step: Step): State
    requires Inv(s) && Enabled(s, step)
  {
    match step
    case Open(l, rank) =>
      s.(net := Net(s.net.descs + [Desc(l, rank)], if l == |s.net.lands| then s.net.lands + [Plain] else s.net.lands),
         streams := s.streams + [Stream([], 1, 1, 0, false)],
         sites := if l == |s.net.lands| then s.sites + [Site(Free, [])] else s.sites)
    case Put(w, d, r) => Insert(s, w, d, r)
    case PutGet(w, d, r) =>
      var q := s.streams[d].queue + [r];
      var x := s.streams[d].(refs := s.streams[d].refs + 1);
      Fetch(s.(streams := s.streams[d := x], sites := SetHand(s.sites, w)), d, q[0], q[1..])
    case Move(i, j, n) =>
      s.(tickets := s.tickets[i := s.tickets[i].(count := s.tickets[i].count - n)]
                             [j := s.tickets[j].(count := s.tickets[j].count + n)])
    case Split(i, n) =>
      s.(tickets := s.tickets[i := s.tickets[i].(count := s.tickets[i].count - n)] + [Ticket(s.tickets[i].desc, n, false)])
    case Hop(i) =>
      var t := s.tickets[i];
      s.(streams := s.streams[t.desc := s.streams[t.desc].(refs := s.streams[t.desc].refs - t.count)],
         tickets := s.tickets[i := t.(desc := KindOf(s.net, t.desc).out)])
    case Take(i) =>
      var t := s.tickets[i];
      var l := LandOf(s, t.desc);
      s.(tickets := s.tickets[i := t.(count := t.count - 1)] + [Ticket(t.desc, 1, true)],
         sites := s.sites[l := s.sites[l].(lock := Reading(|s.tickets|))])
    case Get(i) =>
      var t := s.tickets[i];
      ReadingNonEmpty(s, i);
      var q := s.streams[t.desc].queue;
      Fetch(s.(tickets := s.tickets[i := Ticket(t.desc, 0, false)]), t.desc, q[0], q[1..])
    case Unlock(l) => s.(sites := s.sites[l := s.sites[l].(lock := Free)])
    case Done(d) =>
      s.(streams := s.streams[d := s.streams[d].(busy := s.streams[d].busy - 1, refs := s.streams[d].refs - 1)])
    case BecomeIdentity(l, out) =>
      s.(net := s.net.(lands := s.net.lands[l := Identity(out)]),
         streams := s.streams[out := s.streams[out].(writers := s.streams[out].writers - 1)])
    case Dissolve(w, d) => Dissolving(s, w, d)
    case CloseEnd(d) =>
      s.(streams := s.streams[d := s.streams[d].(writers := s.streams[d].writers - 1, refs := s.streams[d].refs - 1)])
    case Reap(d) => Reaping(s, d)
  }

  /** A worker that uses a licence never finds an empty stream. */
  lemma {:induction false} ReadingNonEmpty(s: State, i: nat)
    requires Inv(s) && i < |s.tickets| && s.tickets[i].reading
    ensures |s.streams[s.tickets[i].desc].queue| > 0
  {
    var d := s.tickets[i].desc;
    assert TicketOk(s, i);
    assert SiteOk(s, LandOf(s, d));
    assert Balanced(s, d);
    SumHas(s.tickets, i, Ends(s.net, d));
  }

  // ---------- every step keeps the invariant ----------

  /** An open end never leads to a dissolved landing. */
  lemma {:induction false} EndLive(s: State, w: Writer, d: nat)
    requires Inv(s) && HasEnd(s, w, d)
    ensures d < |s.streams| && !KindOf(s.net, d).Garbage? && !s.streams[d].closed && s.streams[d].refs > 0
  {
    if w.Via? {
      assert IdentityOk(s, w.land);
      OutHas(s.net.lands, w.land, d);
    }
    assert EndsOk(s, d) && Balanced(s, d);
  }

  /** A licence keeps its descriptor open. */
  lemma {:induction false} LicenceLive(s: State, i: nat)
    requires Inv(s) && i < |s.tickets| && s.tickets[i].count > 0
    ensures !s.streams[s.tickets[i].desc].closed && !KindOf(s.net, s.tickets[i].desc).Gone?
  {
    var d := s.tickets[i].desc;
    assert EndsOk(s, d) && Balanced(s, d);
    SumHas(s.tickets, i, Through(s.net, d));
  }

  /** A new ticket, with a change of the streams. */
  lemma {:induction false} IssueSums(ts: seq<Ticket>, t: Ticket, net: Net, e: nat)
    requires !KindOf(net, t.desc).Garbage?
    ensures Sum(ts + [t], Ends(net, e)) == Sum(ts, Ends(net, e)) + (if e == t.desc then t.count else 0)
    ensures Sum(ts + [t], Through(net, e)) == Sum(ts, Through(net, e)) + (if e == t.desc then t.count else 0)
  {
    SumAppend(ts, t, Ends(net, e));
    SumAppend(ts, t, Through(net, e));
  }

  lemma {:induction false} PutKeeps(s: State, w: Writer, d: nat, r: Rec)
    requires Inv(s) && Enabled(s, Put(w, d, r))
    ensures Inv(Apply(s, Put(w, d, r)))
  {
    hide Sum, OutEnds;
    var s' := Apply(s, Put(w, d, r));
    EndLive(s, w, d);
    forall e | 0 <= e < |s'.streams| ensures Balanced(s', e) && EndsOk(s', e) {
      assert Balanced(s, e) && EndsOk(s, e);
      IssueSums(s.tickets, Ticket(d, 1, false), s.net, e);
    }
    forall l | 0 <= l < |s'.net.lands| && s'.net.lands[l].Identity? ensures IdentityOk(s', l) {
      assert IdentityOk(s, l);
    }
    forall l | 0 <= l < |s'.sites| ensures SiteOk(s', l) { assert SiteOk(s, l); }
    forall i | 0 <= i < |s'.tickets| ensures TicketOk(s', i) {
      if i < |s.tickets| { assert TicketOk(s, i); assert SiteOk(s, LandOf(s, s.tickets[i].desc)); }
    }
  }

  lemma {:induction false} MoveKeeps(s: State, i: nat, j: nat, n: nat)
    requires Inv(s) && Enabled(s, Move(i, j, n))
    ensures Inv(Apply(s, Move(i, j, n)))
  {
    hide Sum, OutEnds, Fwd, Passes;
    var s' := Apply(s, Move(i, j, n));
    var mid := s.tickets[i := s.tickets[i].(count := s.tickets[i].count - n)];
    forall e | 0 <= e < |s'.streams| ensures Balanced(s', e) && EndsOk(s', e) {
      assert Balanced(s, e) && EndsOk(s, e);
      SumUpdate(s.tickets, i, mid[i], Ends(s.net, e));
      SumUpdate(mid, j, s'.tickets[j], Ends(s.net, e));
      SumUpdate(s.tickets, i, mid[i], Through(s.net, e));
      SumUpdate(mid, j, s'.tickets[j], Through(s.net, e));
    }
    SameSites(s, s');
  }

  /** Only tickets that nobody reads with change; the wiring stays. */
  lemma {:induction false} SameSites(s: State, s': State)
    requires Inv(s) && Shaped(s') && s'.net == s.net && s'.sites == s.sites
    requires |s'.tickets| >= |s.tickets|
    requires forall i :: 0 <= i < |s.tickets| && s.tickets[i].reading ==> s'.tickets[i] == s.tickets[i]
    requires forall i :: 0 <= i < |s'.tickets| && s'.tickets[i].reading ==> i < |s.tickets| && s.tickets[i].reading
    requires forall d :: 0 <= d < |s.streams| ==> s'.streams[d].writers == s.streams[d].writers
    ensures forall l :: 0 <= l < |s'.net.lands| && s'.net.lands[l].Identity? ==> IdentityOk(s', l)
    ensures forall l :: 0 <= l < |s'.sites| ==> SiteOk(s', l)
    ensures forall i :: 0 <= i < |s'.tickets| ==> TicketOk(s', i)
  {
    forall l | 0 <= l < |s'.net.lands| && s'.net.lands[l].Identity? ensures IdentityOk(s', l) {
      assert IdentityOk(s, l);
    }
    forall l | 0 <= l < |s'.sites| ensures SiteOk(s', l) { assert SiteOk(s, l); }
    forall i | 0 <= i < |s'.tickets| ensures TicketOk(s', i) {
      if i < |s.tickets| { assert TicketOk(s, i); }
    }
  }

  lemma {:induction false} SplitKeeps(s: State, i: nat, n: nat)
    requires Inv(s) && Enabled(s, Split(i, n))
    ensures Inv(Apply(s, Split(i, n)))
  {
    hide Sum, OutEnds, Fwd, Passes;
    var s' := Apply(s, Split(i, n));
    var mid := s.tickets[i := s.tickets[i].(count := s.tickets[i].count - n)];
    forall e | 0 <= e < |s'.streams| ensures Balanced(s', e) && EndsOk(s', e) {
      assert Balanced(s, e) && EndsOk(s, e);
      SumUpdate(s.tickets, i, mid[i], Ends(s.net, e));
      SumAppend(mid, Ticket(s.tickets[i].desc, n, false), Ends(s.net, e));
      SumUpdate(s.tickets, i, mid[i], Through(s.net, e));
      SumAppend(mid, Ticket(s.tickets[i].desc, n, false), Through(s.net, e));
    }
    SameSites(s, s');
  }

  /** Forwarding a ticket past a dissolved landing gives up the references there only. */
  lemma {:induction false} HopKeeps(s: State, i: nat)
    requires Inv(s) && Enabled(s, Hop(i))
    ensures Inv(Apply(s, Hop(i)))
  {
    hide Sum, OutEnds;
    var s' := Apply(s, Hop(i));
    var t := s.tickets[i];
    var out := KindOf(s.net, t.desc).out;
    assert OutOk(s.net, t.desc);
    LicenceLive(s, i);
    forall e | 0 <= e < |s'.streams| ensures Balanced(s', e) && EndsOk(s', e) {
      assert Balanced(s, e) && EndsOk(s, e);
      SumUpdate(s.tickets, i, t.(desc := out), Ends(s.net, e));
      SumUpdate(s.tickets, i, t.(desc := out), Through(s.net, e));
      if Passes(s.net, out, e) { PassesRank(s.net, out, e); }
    }
    SameSites(s, s');
  }

  lemma {:induction false} TakeKeeps(s: State, i: nat)
    requires Inv(s) && Enabled(s, Take(i))
    ensures Inv(Apply(s, Take(i)))
  {
    hide Sum, OutEnds;
    var s' := Apply(s, Take(i));
    var t := s.tickets[i];
    var mid := s.tickets[i := t.(count := t.count - 1)];
    forall e | 0 <= e < |s'.streams| ensures Balanced(s', e) && EndsOk(s', e) {
      assert Balanced(s, e) && EndsOk(s, e);
      SumUpdate(s.tickets, i, mid[i], Ends(s.net, e));
      SumUpdate(s.tickets, i, mid[i], Through(s.net, e));
      IssueSums(mid, Ticket(t.desc, 1, true), s.net, e);
    }
    LicenceLive(s, i);
    forall l | 0 <= l < |s'.net.lands| && s'.net.lands[l].Identity? ensures IdentityOk(s', l) {
      assert IdentityOk(s, l);
    }
    forall l | 0 <= l < |s'.sites| ensures SiteOk(s', l) { assert SiteOk(s, l); }
    forall k | 0 <= k < |s'.tickets| ensures TicketOk(s', k) {
      if k < |s.tickets| { assert TicketOk(s, k); }
    }
  }

  lemma {:induction false} GetKeeps(s: State, i: nat)
    requires Inv(s) && Enabled(s, Get(i))
    ensures Inv(Apply(s, Get(i)))
  {
    hide Sum, OutEnds;
    var s' := Apply(s, Get(i));
    var d := s.tickets[i].desc;
    assert TicketOk(s, i);
    assert SiteOk(s, LandOf(s, d));
    ReadingNonEmpty(s, i);
    forall e | 0 <= e < |s'.streams| ensures Balanced(s', e) && EndsOk(s', e) {
      assert Balanced(s, e) && EndsOk(s, e);
      SumUpdate(s.tickets, i, Ticket(d, 0, false), Ends(s.net, e));
      SumUpdate(s.tickets, i, Ticket(d, 0, false), Through(s.net, e));
    }
    forall j | 0 <= j < |s.tickets| && s.tickets[j].reading && j != i
      ensures s.net.descs[s.tickets[j].desc].land != LandOf(s, d)
    {
      assert TicketOk(s, j);
    }
    FetchSites(s, s', d);
  }

  /** The landing of d passes to Working; tickets only stop reading there. */
  lemma {:induction false} FetchSites(s: State, s': State, d: nat)
    requires Inv(s) && Shaped(s') && s'.net == s.net && d < |s.streams|
    requires !KindOf(s.net, d).Garbage? && !KindOf(s.net, d).Gone?
    requires forall e :: 0 <= e < |s.streams| ==> s'.streams[e].writers == s.streams[e].writers
    requires |s'.tickets| == |s.tickets|
    requires forall i :: 0 <= i < |s.tickets| && s'.tickets[i].reading ==> s'.tickets[i] == s.tickets[i]
    requires forall i :: 0 <= i < |s.tickets| && s.tickets[i].reading ==> (s'.tickets[i] == s.tickets[i] <==> s.net.descs[s.tickets[i].desc].land != LandOf(s, d))
    requires forall l :: 0 <= l < |s.sites| && l != LandOf(s, d) ==> s'.sites[l] == s.sites[l] || s'.sites[l] == s.sites[l].(hand := [])
    requires s'.sites[LandOf(s, d)].lock == Working
    requires s'.sites[LandOf(s, d)].hand != [] ==> |s'.sites[LandOf(s, d)].hand| == 1 && KindOf(s.net, d).Identity?
    ensures forall l :: 0 <= l < |s'.net.lands| && s'.net.lands[l].Identity? ==> IdentityOk(s', l)
    ensures forall l :: 0 <= l < |s'.sites| ==> SiteOk(s', l)
    ensures forall i :: 0 <= i < |s'.tickets| ==> TicketOk(s', i)
  {
    forall l | 0 <= l < |s'.net.lands| && s'.net.lands[l].Identity? ensures IdentityOk(s', l) {
      assert IdentityOk(s, l);
    }
    forall l | 0 <= l < |s'.sites| ensures SiteOk(s', l) { assert SiteOk(s, l); }
    forall i | 0 <= i < |s'.tickets| ensures TicketOk(s', i) { assert TicketOk(s, i); }
  }

  lemma {:induction false} PutGetKeeps(s: State, w: Writer, d: nat, r: Rec)
    requires Inv(s) && Enabled(s, PutGet(w, d, r))
    ensures Inv(Apply(s, PutGet(w, d, r)))
  {
    hide Sum, OutEnds, Fwd, Passes;
    var s' := Apply(s, PutGet(w, d, r));
    EndLive(s, w, d);
    forall e | 0 <= e < |s'.streams| ensures Balanced(s', e) && EndsOk(s', e) {
      assert Balanced(s, e) && EndsOk(s, e);
    }
    forall i | 0 <= i < |s.tickets| && s.tickets[i].reading
      ensures s.net.descs[s.tickets[i].desc].land != LandOf(s, d)
    {
      assert TicketOk(s, i);
    }
    assert EndsOk(s, d);
    FetchSites(s, s', d);
  }

  lemma {:induction false} UnlockKeeps(s: State, l: nat)
    requires Inv(s) && Enabled(s, Unlock(l))
    ensures Inv(Apply(s, Unlock(l)))
  {
    hide Sum, OutEnds, Fwd, Passes;
    var s' := Apply(s, Unlock(l));
    forall e | 0 <= e < |s'.streams| ensures Balanced(s', e) && EndsOk(s', e) {
      assert Balanced(s, e) && EndsOk(s, e);
    }
    forall m | 0 <= m < |s'.net.lands| && s'.net.lands[m].Identity? ensures IdentityOk(s', m) {
      assert IdentityOk(s, m);
    }
    forall m | 0 <= m < |s'.sites| ensures SiteOk(s', m) { assert SiteOk(s, m); }
    forall i | 0 <= i < |s'.tickets| ensures TicketOk(s', i) { assert TicketOk(s, i); }
  }

  lemma {:induction false} DoneKeeps(s: State, d: nat)
    requires Inv(s) && Enabled(s, Done(d))
    ensures Inv(Apply(s, Done(d)))
  {
    hide Sum, OutEnds, Fwd, Passes;
    var s' := Apply(s, Done(d));
    forall e | 0 <= e < |s'.streams| ensures Balanced(s', e) && EndsOk(s', e) {
      assert Balanced(s, e) && EndsOk(s, e);
    }
    SameSites(s, s');
  }

  lemma {:induction false} CloseEndKeeps(s: State, d: nat)
    requires Inv(s) && Enabled(s, CloseEnd(d))
    ensures Inv(Apply(s, CloseEnd(d)))
  {
    hide Sum, OutEnds, Fwd, Passes;
    var s' := Apply(s, CloseEnd(d));
    forall e | 0 <= e < |s'.streams| ensures Balanced(s', e) && EndsOk(s', e) {
      assert Balanced(s, e) && EndsOk(s, e);
    }
    forall l | 0 <= l < |s'.net.lands| && s'.net.lands[l].Identity? ensures IdentityOk(s', l) {
      assert IdentityOk(s, l);
    }
    forall l | 0 <= l < |s'.sites| ensures SiteOk(s', l) { assert SiteOk(s, l); }
    forall i | 0 <= i < |s'.tickets| ensures TicketOk(s', i) { assert TicketOk(s, i); }
  }

  /** The forwarding of two wirings that agree on the dissolved descriptors. */
  lemma {:induction false} SameForwarding(a: Net, b: Net, d: nat)
    requires |a.descs| <= |b.descs| && a.descs == b.descs[..|a.descs|] && d < |a.descs|
    requires forall e :: 0 <= e < |a.descs| ==> KindOf(a, e).Garbage? == KindOf(b, e).Garbage?
    requires forall e :: 0 <= e < |a.descs| && KindOf(a, e).Garbage? ==> KindOf(a, e) == KindOf(b, e) && KindOf(a, e).out < |a.descs|
    ensures Fwd(b, d) == Fwd(a, d) && (forall e: nat :: Passes(b, d, e) == Passes(a, d, e))
    decreases Rank(a, d)
  {
    if Dissolved(a, d) { SameForwarding(a, b, KindOf(a, d).out); }
  }

  lemma {:induction false} SameSums(a: Net, b: Net, ts: seq<Ticket>, e: nat)
    requires |a.descs| <= |b.descs| && a.descs == b.descs[..|a.descs|]
    requires forall i :: 0 <= i < |ts| ==> ts[i].desc < |a.descs|
    requires forall e :: 0 <= e < |a.descs| ==> KindOf(a, e).Garbage? == KindOf(b, e).Garbage?
    requires forall e :: 0 <= e < |a.descs| && KindOf(a, e).Garbage? ==> KindOf(a, e) == KindOf(b, e) && KindOf(a, e).out < |a.descs|
    ensures Sum(ts, Ends(b, e)) == Sum(ts, Ends(a, e))
    ensures Sum(ts, Through(b, e)) == Sum(ts, Through(a, e))
  {
    forall i | 0 <= i < |ts|
      ensures Fwd(b, ts[i].desc) == Fwd(a, ts[i].desc) && Passes(b, ts[i].desc, e) == Passes(a, ts[i].desc, e)
    {
      SameForwarding(a, b, ts[i].desc);
    }
    SumSame(ts, Ends(b, e), Ends(a, e));
    SumSame(ts, Through(b, e), Through(a, e));
  }

  /** A ticket for an old descriptor does not lead to a new one. */
  lemma {:induction false} NothingForNew(net: Net, ts: seq<Ticket>, e: nat)
    requires Wired(net) && |net.descs| <= e
    requires forall i :: 0 <= i < |ts| ==> ts[i].desc < |net.descs|
    ensures Sum(ts, Ends(net, e)) == 0 && Sum(ts, Through(net, e)) == 0
  {
    if |ts| > 0 {
      NothingForNew(net, ts[..|ts| - 1], e);
      StaysOld(net, ts[|ts| - 1].desc, e);
    }
  }

  lemma {:induction false} StaysOld(net: Net, d: nat, e: nat)
    requires Wired(net) && d < |net.descs| <= e
    ensures Fwd(net, d) != e && !Passes(net, d, e)
    decreases Rank(net, d)
  {
    if Dissolved(net, d) { StaysOld(net, KindOf(net, d).out, e); }
  }

  lemma {:induction false} NoEndsForNew(lands: seq<Kind>, bound: nat, d: nat)
    requires forall l :: 0 <= l < |lands| && (lands[l].Identity? || lands[l].Garbage?) ==> lands[l].out < bound
    requires bound <= d
    ensures OutEnds(lands, d) == 0
  {
    if |lands| > 0 { NoEndsForNew(lands[..|lands| - 1], bound, d); }
  }

  lemma {:induction false} OpenKeeps(s: State, l: nat, rank: nat)
    requires Inv(s) && Enabled(s, Open(l, rank))
    ensures Inv(Apply(s, Open(l, rank)))
  {
    hide Sum, OutEnds, Fwd, Passes, Balanced, EndsOk;
    var s' := Apply(s, Open(l, rank));
    OpenKinds(s, l, rank);
    forall e | 0 <= e < |s'.streams| ensures Balanced(s', e) && EndsOk(s', e) {
      OpenBalanced(s, l, rank, e);
    }
    forall m | 0 <= m < |s'.net.lands| && s'.net.lands[m].Identity? ensures IdentityOk(s', m) {
      assert IdentityOk(s, m);
    }
    forall m | 0 <= m < |s'.sites| ensures SiteOk(s', m) {
      if m < |s.sites| { assert SiteOk(s, m); }
    }
    forall i | 0 <= i < |s'.tickets| ensures TicketOk(s', i) { assert TicketOk(s, i); }
  }

  lemma {:induction false} OpenKinds(s: State, l: nat, rank: nat)
    requires Inv(s) && Enabled(s, Open(l, rank))
    ensures var s' := Apply(s, Open(l, rank));
      && Shaped(s') && Wired(s'.net) && KindOf(s'.net, |s.streams|) == Plain
      && (forall d :: 0 <= d < |s.streams| ==> KindOf(s'.net, d) == KindOf(s.net, d))
  {
    hide Balanced, EndsOk, SiteOk, IdentityOk, TicketOk;
    var s' := Apply(s, Open(l, rank));
    assert forall d :: 0 <= d < |s.streams| ==> KindOf(s'.net, d) == KindOf(s.net, d);
    assert KindOf(s'.net, |s.streams|) == Plain;
    forall d | 0 <= d < |s'.net.descs| ensures OutOk(s'.net, d) {
      if d < |s.streams| { assert OutOk(s.net, d); }
    }
  }

  lemma {:induction false} OpenBalanced(s: State, l: nat, rank: nat, e: nat)
    requires Inv(s) && Enabled(s, Open(l, rank)) && e <= |s.streams| && Shaped(Apply(s, Open(l, rank)))
    requires forall d :: 0 <= d < |s.streams| ==> KindOf(Apply(s, Open(l, rank)).net, d) == KindOf(s.net, d)
    requires KindOf(Apply(s, Open(l, rank)).net, |s.streams|) == Plain
    ensures Balanced(Apply(s, Open(l, rank)), e) && EndsOk(Apply(s, Open(l, rank)), e)
  {
    hide Sum, OutEnds, Fwd, Passes, IdentityOk, TicketOk;
    var s' := Apply(s, Open(l, rank));
    assert s'.net.descs[..|s.streams|] == s.net.descs;
    SameSums(s.net, s'.net, s.tickets, e);
    OutAppend(s.net.lands, e);
    if e < |s.streams| {
      assert Balanced(s, e) && EndsOk(s, e);
    } else {
      NothingForNew(s.net, s.tickets, e);
      NoEndsForNew(s.net.lands, |s.streams|, e);
      if l < |s.sites| { assert SiteOk(s, l); }
    }
  }

  lemma {:induction false} OutAppend(lands: seq<Kind>, d: nat)
    ensures OutEnds(lands + [Plain], d) == OutEnds(lands, d)
  {
    assert (lands + [Plain])[..|lands|] == lands;
  }

  lemma {:induction false} BecomeIdentityKeeps(s: State, l: nat, out: nat)
    requires Inv(s) && Enabled(s, BecomeIdentity(l, out))
    ensures Inv(Apply(s, BecomeIdentity(l, out)))
  {
    hide Sum, OutEnds, Fwd, Passes, Balanced, EndsOk, SiteOk, IdentityOk;
    BecomeIdentityWired(s, l, out);
    BecomeIdentityBalanced(s, l, out);
    BecomeIdentitySites(s, l, out);
  }

  lemma {:induction false} BecomeIdentityWired(s: State, l: nat, out: nat)
    requires Inv(s) && Enabled(s, BecomeIdentity(l, out))
    ensures var s' := Apply(s, BecomeIdentity(l, out)); Shaped(s') && Wired(s'.net)
  {
    hide Balanced, EndsOk, SiteOk, IdentityOk, TicketOk;
    var s' := Apply(s, BecomeIdentity(l, out));
    forall e | 0 <= e < |s'.net.descs| ensures OutOk(s'.net, e) {
      assert OutOk(s.net, e);
    }
  }

  lemma {:induction false} BecomeIdentityBalanced(s: State, l: nat, out: nat)
    requires Inv(s) && Enabled(s, BecomeIdentity(l, out))
    requires Shaped(Apply(s, BecomeIdentity(l, out)))
    ensures var s' := Apply(s, BecomeIdentity(l, out));
      forall e :: 0 <= e < |s'.streams| ==> Balanced(s', e) && EndsOk(s', e)
  {
    hide Sum, OutEnds, Fwd, Passes, SiteOk, IdentityOk, TicketOk;
    var s' := Apply(s, BecomeIdentity(l, out));
    var d :| 0 <= d < |s.streams| && s.net.descs[d].land == l && !s.streams[d].closed;
    assert EndsOk(s, out);
    forall e | 0 <= e < |s'.streams| ensures Balanced(s', e) && EndsOk(s', e) {
      SameSums(s.net, s'.net, s.tickets, e);
      OutUpdate(s.net.lands, l, Identity(out), e);
      assert Balanced(s, e) && EndsOk(s, e);
    }
  }

  lemma {:induction false} BecomeIdentitySites(s: State, l: nat, out: nat)
    requires Inv(s) && Enabled(s, BecomeIdentity(l, out))
    requires Shaped(Apply(s, BecomeIdentity(l, out)))
    ensures var s' := Apply(s, BecomeIdentity(l, out));
      && (forall m :: 0 <= m < |s'.net.lands| && s'.net.lands[m].Identity? ==> IdentityOk(s', m))
      && (forall m :: 0 <= m < |s'.sites| ==> SiteOk(s', m))
      && (forall i :: 0 <= i < |s'.tickets| ==> TicketOk(s', i))
  {
    hide Balanced;
    var s' := Apply(s, BecomeIdentity(l, out));
    assert EndsOk(s, out);
    forall m | 0 <= m < |s.net.lands| && s.net.lands[m].Identity? ensures s.net.lands[m] != Identity(out) {
      assert IdentityOk(s, m);
    }
    forall m | 0 <= m < |s'.net.lands| && s'.net.lands[m].Identity? ensures IdentityOk(s', m) {
      if m != l { assert IdentityOk(s, m); }
    }
    forall m | 0 <= m < |s'.sites| ensures SiteOk(s', m) { assert SiteOk(s, m); }
    forall i | 0 <= i < |s'.tickets| ensures TicketOk(s', i) { assert TicketOk(s, i); }
  }

  // ---------- dissolving and closing ----------

  /** The wiring once the identity landing of d forwards its licences to next. */
  ghost predicate Redirects(a: Net, b: Net, d: nat, next: nat) {
    && a.descs == b.descs && Wired(a)
    && d < |a.descs| && KindOf(a, d) == Identity(next) && !KindOf(a, next).Garbage?
    && (forall e :: 0 <= e < |a.descs| && e != d ==> KindOf(b, e).Garbage? == KindOf(a, e).Garbage?)
    && (forall e :: 0 <= e < |a.descs| && e != d && KindOf(a, e).Garbage? ==> KindOf(b, e) == KindOf(a, e))
    && KindOf(b, d) == Garbage(next)
  }

  /** Licences for d now end at next, on the way through d. All others stay. */
  lemma {:induction false} RedirectedForwarding(a: Net, b: Net, d: nat, next: nat, x: nat)
    requires Redirects(a, b, d, next) && x < |a.descs|
    ensures Fwd(b, x) == (if Fwd(a, x) == d then next else Fwd(a, x))
    ensures forall e: nat :: Passes(b, x, e) == (Passes(a, x, e) || (e == next && Fwd(a, x) == d))
    ensures !(Passes(a, x, next) && Fwd(a, x) == d)
    decreases Rank(a, x)
  {
    assert OutOk(a, d) && OutOk(a, x);
    if Dissolved(a, x) {
      RedirectedForwarding(a, b, d, next, KindOf(a, x).out);
      if x == next { assert false; }
    } else if x == d {
      assert Dissolved(b, d);
      assert Fwd(b, next) == next;
      assert forall e: nat :: Passes(b, next, e) == (e == next);
    } else {
      assert !Dissolved(b, x);
    }
  }

  lemma {:induction false} RedirectedSums(a: Net, b: Net, d: nat, next: nat, ts: seq<Ticket>, e: nat)
    requires Redirects(a, b, d, next)
    requires forall i :: 0 <= i < |ts| ==> ts[i].desc < |a.descs|
    ensures Sum(ts, Ends(b, e)) ==
      (if e == next then Sum(ts, Ends(a, next)) + Sum(ts, Ends(a, d)) else if e == d then 0 else Sum(ts, Ends(a, e)))
    ensures Sum(ts, Through(b, e)) == Sum(ts, Through(a, e)) + (if e == next then Sum(ts, Ends(a, d)) else 0)
  {
    assert OutOk(a, d);
    forall i | 0 <= i < |ts| {
      RedirectedForwarding(a, b, d, next, ts[i].desc);
    }
    if e == next {
      SumEither(ts, Ends(a, next), Ends(a, d), Ends(b, next));
      SumEither(ts, Through(a, next), Ends(a, d), Through(b, next));
    } else {
      SumSame(ts, Through(b, e), Through(a, e));
      if e == d {
        SumSame(ts, Ends(b, d), (x: nat) => false);
        SumNothing(ts);
      } else {
        SumSame(ts, Ends(b, e), Ends(a, e));
      }
    }
  }

  lemma {:induction false} SumNothing(ts: seq<Ticket>)
    ensures Sum(ts, (x: nat) => false) == 0
  {
    if |ts| > 0 { SumNothing(ts[..|ts| - 1]); }
  }

  lemma {:induction false} DissolveEnds(s: State, w: Writer, d: nat)
    requires Inv(s) && Enabled(s, Dissolve(w, d))
    ensures KindOf(s.net, d).out < |s.streams| && !KindOf(s.net, KindOf(s.net, d).out).Garbage?
    ensures Rank(s.net, KindOf(s.net, d).out) < Rank(s.net, d)
    ensures w.Via? ==> w.land != LandOf(s, d)
    ensures s.streams[KindOf(s.net, d).out].writers == 0 && !s.streams[KindOf(s.net, d).out].closed
    ensures !s.streams[d].closed && s.sites[LandOf(s, d)].hand == []
    ensures forall m :: 0 <= m < |s.net.lands| && s.net.lands[m] == Identity(d) ==> w == Via(m)
    ensures forall m :: 0 <= m < |s.net.lands| && s.net.lands[m] == KindOf(s.net, d) ==> m == LandOf(s, d)
    ensures s.streams[d].writers == (if w.Node? then 1 else 0)
  {
    hide Sum, OutEnds, Fwd, Passes;
    assert OutOk(s.net, d);
    assert IdentityOk(s, LandOf(s, d));
    assert SiteOk(s, LandOf(s, d));
    EndLive(s, w, d);
    EndLive(s, Via(LandOf(s, d)), KindOf(s.net, d).out);
    assert EndsOk(s, d);
    if w.Via? { assert IdentityOk(s, w.land); }
    forall m | 0 <= m < |s.net.lands| && s.net.lands[m] == Identity(d) ensures w == Via(m) {
      assert IdentityOk(s, m);
    }
  }

  lemma {:induction false} DissolveKeeps(s: State, w: Writer, d: nat)
    requires Inv(s) && Enabled(s, Dissolve(w, d))
    ensures Inv(Apply(s, Dissolve(w, d)))
  {
    hide Sum, OutEnds, Fwd, Passes, Balanced, EndsOk, SiteOk, IdentityOk, TicketOk, Wired;
    DissolveEnds(s, w, d);
    DissolveWired(s, w, d);
    var s' := Dissolving(s, w, d);
    forall e | 0 <= e < |s.streams| ensures Balanced(s', e) && EndsOk(s', e) {
      DissolveBalanced(s, w, d, e);
      DissolveEndsOk(s, w, d, e);
    }
    DissolveSites(s, w, d);
  }

  lemma {:induction false} DissolveWired(s: State, w: Writer, d: nat)
    requires Inv(s) && Enabled(s, Dissolve(w, d)) && KindOf(s.net, d).out < |s.streams|
    ensures var s' := Dissolving(s, w, d);
      Shaped(s') && Wired(s'.net) && Redirects(s.net, s'.net, d, KindOf(s.net, d).out)
  {
    hide Balanced, EndsOk, SiteOk, IdentityOk, TicketOk, Sum, OutEnds, Fwd, Passes, HasRecord, Inv;
    DissolveEnds(s, w, d);
    DissolveOuts(s, w, d);
    assert Wired(s.net) by { InvParts(s); }
  }

  lemma {:induction false} InvParts(s: State)
    requires Inv(s)
    ensures Shaped(s) && Wired(s.net)
  {
  }

  lemma {:induction false} DissolveOuts(s: State, w: Writer, d: nat)
    requires Inv(s) && Enabled(s, Dissolve(w, d)) && KindOf(s.net, d).out < |s.streams|
    ensures var s' := Dissolving(s, w, d);
      Shaped(s') && forall e :: 0 <= e < |s'.net.descs| ==> OutOk(s'.net, e)
  {
    hide Balanced, EndsOk, SiteOk, IdentityOk, TicketOk, Sum, OutEnds, Fwd, Passes, HasRecord;
    DissolveEnds(s, w, d);
    var s' := Dissolving(s, w, d);
    assert OutOk(s.net, d);
    forall e | 0 <= e < |s'.net.descs| ensures OutOk(s'.net, e) {
      assert OutOk(s.net, e);
    }
  }

  lemma {:induction false} DissolveBalanced(s: State, w: Writer, d: nat, e: nat)
    requires Inv(s) && Enabled(s, Dissolve(w, d)) && KindOf(s.net, d).out < |s.streams| && e < |s.streams|
    requires Shaped(Dissolving(s, w, d)) && Redirects(s.net, Dissolving(s, w, d).net, d, KindOf(s.net, d).out)
    ensures Balanced(Dissolving(s, w, d), e)
  {
    hide Sum, OutEnds, Fwd, Passes, SiteOk, IdentityOk, TicketOk, EndsOk, Wired, Redirects;
    DissolveEnds(s, w, d);
    var s' := Dissolving(s, w, d);
    var next := KindOf(s.net, d).out;
    var lands := s.net.lands[LandOf(s, d) := Garbage(next)];
    assert Balanced(s, d);
    RedirectedSums(s.net, s'.net, d, next, s.tickets, e);
    OutUpdate(s.net.lands, LandOf(s, d), Garbage(next), e);
    if w.Via? { OutUpdate(lands, w.land, Identity(next), e); }
    assert Balanced(s, e);
  }

  lemma {:induction false} DissolveEndsOk(s: State, w: Writer, d: nat, e: nat)
    requires Inv(s) && Enabled(s, Dissolve(w, d)) && KindOf(s.net, d).out < |s.streams| && e < |s.streams|
    requires Shaped(Dissolving(s, w, d))
    ensures EndsOk(Dissolving(s, w, d), e)
  {
    hide Sum, OutEnds, Fwd, Passes, SiteOk, IdentityOk, TicketOk, Balanced;
    DissolveEnds(s, w, d);
    assert EndsOk(s, e);
  }

  lemma {:induction false} DissolveSites(s: State, w: Writer, d: nat)
    requires Inv(s) && Enabled(s, Dissolve(w, d)) && KindOf(s.net, d).out < |s.streams|
    requires Shaped(Dissolving(s, w, d)) && Redirects(s.net, Dissolving(s, w, d).net, d, KindOf(s.net, d).out)
    ensures var s' := Dissolving(s, w, d);
      && (forall m :: 0 <= m < |s'.net.lands| && s'.net.lands[m].Identity? ==> IdentityOk(s', m))
      && (forall m :: 0 <= m < |s'.sites| ==> SiteOk(s', m))
      && (forall i :: 0 <= i < |s'.tickets| ==> TicketOk(s', i))
  {
    hide Balanced, EndsOk;
    DissolveEnds(s, w, d);
    var s' := Dissolving(s, w, d);
    var next := KindOf(s.net, d).out;
    forall m | 0 <= m < |s'.net.lands| && s'.net.lands[m].Identity? ensures IdentityOk(s', m) {
      assert IdentityOk(s, m);
    }
    forall m | 0 <= m < |s'.sites| ensures SiteOk(s', m) { assert SiteOk(s, m); }
    forall i | 0 <= i < |s'.tickets| ensures TicketOk(s', i) { assert TicketOk(s, i); }
  }

  /** Nobody is left at a descriptor without references. */
  lemma {:induction false} Unreferenced(s: State, d: nat)
    requires Inv(s) && d < |s.streams| && s.streams[d].refs == 0
    ensures s.streams[d].writers == 0 && s.streams[d].busy == 0 && s.streams[d].queue == []
    ensures forall i :: 0 <= i < |s.tickets| && Passes(s.net, s.tickets[i].desc, d) ==> s.tickets[i].count == 0
    ensures forall l :: 0 <= l < |s.net.lands| ==> HoldsEnd(s.net.lands[l], d) == 0
    ensures forall i :: 0 <= i < |s.tickets| && s.tickets[i].desc == d ==> s.tickets[i].count == 0
  {
    hide Sum, OutEnds, Fwd;
    assert Balanced(s, d);
    forall i | 0 <= i < |s.tickets| && Passes(s.net, s.tickets[i].desc, d) ensures s.tickets[i].count == 0 {
      SumHas(s.tickets, i, Through(s.net, d));
    }
    forall l | 0 <= l < |s.net.lands| ensures HoldsEnd(s.net.lands[l], d) == 0 {
      if HoldsEnd(s.net.lands[l], d) == 1 { OutHas(s.net.lands, l, d); }
    }
    forall i | 0 <= i < |s.tickets| && s.tickets[i].count > 0 ensures Fwd(s.net, s.tickets[i].desc) != d {
      FwdPasses(s.net, s.tickets[i].desc);
    }
    SumSame(s.tickets, Ends(s.net, d), (x: nat) => false);
    SumNothing(s.tickets);
  }

  lemma {:induction false} GoneForwarding(a: Net, b: Net, d: nat, x: nat)
    requires Wired(a) && a.descs == b.descs && d < |a.descs| && x < |a.descs|
    requires a.descs[d].land < |a.lands| && b.lands == a.lands[a.descs[d].land := Gone] && !KindOf(a, d).Plain?
    requires !Passes(a, x, d)
    ensures Fwd(b, x) == Fwd(a, x) && forall e: nat :: Passes(b, x, e) == Passes(a, x, e)
    decreases Rank(a, x)
  {
    assert OutOk(a, x);
    if Dissolved(a, x) { GoneForwarding(a, b, d, KindOf(a, x).out); }
  }

  lemma {:induction false} ReapKeeps(s: State, d: nat)
    requires Inv(s) && Enabled(s, Reap(d))
    ensures Inv(Apply(s, Reap(d)))
  {
    Unreferenced(s, d);
    var k := KindOf(s.net, d);
    assert EndsOk(s, d);
    if k.Identity? || k.Garbage? {
      assert OutOk(s.net, d);
      OutHas(s.net.lands, LandOf(s, d), k.out);
      hide Sum, OutEnds, Fwd, Passes, Balanced, EndsOk, SiteOk, IdentityOk, TicketOk, Wired;
      ReapWired(s, d);
      var s' := Reaping(s, d);
      forall e | 0 <= e < |s.streams| ensures Balanced(s', e) && EndsOk(s', e) {
        ReapBalanced(s, d, e);
        ReapEndsOk(s, d, e);
      }
      ReapSites(s, d);
    } else {
      hide Sum, OutEnds, Fwd, Passes;
      var s' := Apply(s, Reap(d));
      forall e | 0 <= e < |s'.streams| ensures Balanced(s', e) && EndsOk(s', e) {
        assert Balanced(s, e) && EndsOk(s, e);
      }
      SameSites(s, s');
    }
  }

  lemma {:induction false} ReapWired(s: State, d: nat)
    requires Inv(s) && Enabled(s, Reap(d)) && (KindOf(s.net, d).Identity? || KindOf(s.net, d).Garbage?)
    ensures var s' := Reaping(s, d); Shaped(s') && Wired(s'.net)
  {
    hide Balanced, EndsOk, SiteOk, IdentityOk, TicketOk;
    var s' := Reaping(s, d);
    assert OutOk(s.net, d);
    forall e | 0 <= e < |s'.net.descs| ensures OutOk(s'.net, e) {
      assert OutOk(s.net, e);
    }
  }

  lemma {:induction false} ReapBalanced(s: State, d: nat, e: nat)
    requires Inv(s) && Enabled(s, Reap(d)) && (KindOf(s.net, d).Identity? || KindOf(s.net, d).Garbage?)
    requires Shaped(Reaping(s, d)) && e < |s.streams|
    ensures Balanced(Reaping(s, d), e)
  {
    hide Sum, OutEnds, Fwd, Passes, SiteOk, IdentityOk, TicketOk, EndsOk;
    Unreferenced(s, d);
    var s' := Reaping(s, d);
    assert OutOk(s.net, d);
    forall i | 0 <= i < |s.tickets| && s.tickets[i].count > 0 {
      GoneForwarding(s.net, s'.net, d, s.tickets[i].desc);
    }
    SumSame(s.tickets, Ends(s'.net, e), Ends(s.net, e));
    SumSame(s.tickets, Through(s'.net, e), Through(s.net, e));
    OutUpdate(s.net.lands, LandOf(s, d), Gone, e);
    assert Balanced(s, e);
  }

  lemma {:induction false} ReapEndsOk(s: State, d: nat, e: nat)
    requires Inv(s) && Enabled(s, Reap(d)) && (KindOf(s.net, d).Identity? || KindOf(s.net, d).Garbage?)
    requires Shaped(Reaping(s, d)) && e < |s.streams|
    ensures EndsOk(Reaping(s, d), e)
  {
    hide Sum, OutEnds, Fwd, Passes, SiteOk, IdentityOk, TicketOk;
    var out := KindOf(s.net, d).out;
    assert OutOk(s.net, d);
    OutHas(s.net.lands, LandOf(s, d), out);
    assert EndsOk(s, e) && EndsOk(s, out) && Balanced(s, out);
  }

  lemma {:induction false} ReapSites(s: State, d: nat)
    requires Inv(s) && Enabled(s, Reap(d)) && (KindOf(s.net, d).Identity? || KindOf(s.net, d).Garbage?)
    requires Shaped(Reaping(s, d))
    ensures var s' := Reaping(s, d);
      && (forall m :: 0 <= m < |s'.net.lands| && s'.net.lands[m].Identity? ==> IdentityOk(s', m))
      && (forall m :: 0 <= m < |s'.sites| ==> SiteOk(s', m))
      && (forall i :: 0 <= i < |s'.tickets| ==> TicketOk(s', i))
  {
    hide Balanced;
    Unreferenced(s, d);
    assert EndsOk(s, d);
    var s' := Reaping(s, d);
    var l := LandOf(s, d);
    assert SiteOk(s, l) && OutOk(s.net, d);
    forall m | 0 <= m < |s'.net.lands| && s'.net.lands[m].Identity? ensures IdentityOk(s', m) {
      assert IdentityOk(s, m);
    }
    forall m | 0 <= m < |s'.sites| ensures SiteOk(s', m) {
      assert SiteOk(s, m);
    }
    forall i | 0 <= i < |s'.tickets| ensures TicketOk(s', i) { assert TicketOk(s, i); }
  }

  /** The invariant, for every step. */
  lemma {:induction false} StepKeepsInv(s: State, step: Step)
    requires Inv(s) && Enabled(s, step)
    ensures Inv(Apply(s, step))
  {
    hide Inv, Enabled, Apply;
    match step
    case Open(l, rank) => OpenKeeps(s, l, rank);
    case Put(w, d, r) => PutKeeps(s, w, d, r);
    case PutGet(w, d, r) => PutGetKeeps(s, w, d, r);
    case Move(i, j, n) => MoveKeeps(s, i, j, n);
    case Split(i, n) => SplitKeeps(s, i, n);
    case Hop(i) => HopKeeps(s, i);
    case Take(i) => TakeKeeps(s, i);
    case Get(i) => GetKeeps(s, i);
    case Unlock(l) => UnlockKeeps(s, l);
    case Done(d) => DoneKeeps(s, d);
    case BecomeIdentity(l, out) => BecomeIdentityKeeps(s, l, out);
    case Dissolve(w, d) => DissolveKeeps(s, w, d);
    case CloseEnd(d) => CloseEndKeeps(s, d);
    case Reap(d) => ReapKeeps(s, d);
  }
}
