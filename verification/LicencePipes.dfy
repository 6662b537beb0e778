/** Order of the records on a path of streams, across identity landings, dissolved
    landings and work done out of turn. */
module LicencePipes {
  import opened Licences

  /** The landing of d passes records on to another descriptor. */
  predicate Forwards(net: Net, d: nat) {
    && (KindOf(net, d).Identity? || KindOf(net, d).Garbage?)
    && d < |net.descs| && KindOf(net, d).out < |net.descs|
    && net.descs[KindOf(net, d).out].rank < net.descs[d].rank
  }

  /** The descriptor whose landing does the work for records written to d. */
  function Flow(net: Net, d: nat): nat
    decreases Rank(net, d)
  {
    if Forwards(net, d) then Flow(net, KindOf(net, d).out) else d
  }

  /** The records between a writer of d and the landing that does the work, oldest first. */
  ghost function Pipe(s: State, d: nat): seq<Rec>
    requires Shaped(s) && d < |s.streams|
    decreases Rank(s.net, d)
  {
    if Forwards(s.net, d) then Pipe(s, KindOf(s.net, d).out) + s.sites[LandOf(s, d)].hand + s.streams[d].queue
    else s.streams[d].queue
  }

  lemma {:induction false} ForwardsAll(net: Net, d: nat)
    requires Wired(net) && d < |net.descs|
    ensures Forwards(net, d) == (KindOf(net, d).Identity? || KindOf(net, d).Garbage?)
    ensures Dissolved(net, d) == KindOf(net, d).Garbage?
  {
    assert OutOk(net, d);
  }

  /** Nothing is queued at a dissolved landing. */
  lemma {:induction false} DissolvedEmpty(s: State, x: nat)
    requires Inv(s) && x < |s.streams| && KindOf(s.net, x).Garbage?
    ensures s.streams[x].queue == [] && s.sites[LandOf(s, x)].hand == []
  {
    hide Sum, OutEnds, Fwd;
    ForwardsAll(s.net, x);
    assert Balanced(s, x) && SiteOk(s, LandOf(s, x));
    forall i | 0 <= i < |s.tickets| ensures Fwd(s.net, s.tickets[i].desc) != x {
      FwdPasses(s.net, s.tickets[i].desc);
    }
    SumSame(s.tickets, Ends(s.net, x), (y: nat) => false);
    SumNothing(s.tickets);
  }

  /** An identity landing on the way to e holds e's only open end. */
  lemma {:induction false} IdentityEnd(s: State, w: Writer, e: nat, x: nat)
    requires Inv(s) && HasEnd(s, w, e) && x < |s.streams| && KindOf(s.net, x).Identity?
    ensures KindOf(s.net, x).out < |s.streams|
    ensures Passes(s.net, KindOf(s.net, x).out, e) == (KindOf(s.net, x).out == e)
    ensures (w == Via(LandOf(s, x))) == (KindOf(s.net, x).out == e)
    ensures KindOf(s.net, x).out == e ==> x != e
  {
    assert OutOk(s.net, x);
    assert IdentityOk(s, LandOf(s, x));
    if w.Via? { assert IdentityOk(s, w.land); }
  }

  // ---------- what each step does to the paths ----------

  /** The queues and hands after a write. */
  ghost predicate Written(s: State, s': State, w: Writer, e: nat, r: Rec)
    requires Shaped(s) && e < |s.streams|
  {
    && Shaped(s') && s'.net == s.net
    && s'.streams[e].queue == s.streams[e].queue + [r]
    && (forall d :: 0 <= d < |s.streams| && d != e ==> s'.streams[d].queue == s.streams[d].queue)
    && (forall l :: 0 <= l < |s.sites| ==> s'.sites[l].hand == if w == Via(l) then [] else s.sites[l].hand)
  }

  /** A record that is put into e arrives behind all others on the paths that lead there. */
  lemma {:induction false} PipeWrite(s: State, s': State, w: Writer, e: nat, r: Rec, x: nat)
    requires Inv(s) && HasEnd(s, w, e) && e < |s.streams| && HasRecord(s, w, r) && x < |s.streams|
    requires Written(s, s', w, e, r)
    ensures Pipe(s', x) == Pipe(s, x) + (if Passes(s.net, x, e) then [r] else [])
    decreases Rank(s.net, x)
  {
    hide Balanced, EndsOk, IdentityOk, SiteOk, TicketOk;
    ForwardsAll(s.net, x);
    if Forwards(s.net, x) {
      var out := KindOf(s.net, x).out;
      PipeWrite(s, s', w, e, r, out);
      if Passes(s.net, out, e) { PassesRank(s.net, out, e); }
      if KindOf(s.net, x).Identity? {
        IdentityEnd(s, w, e, x);
      } else {
        DissolvedEmpty(s, x);
        EndLive(s, w, e);
      }
    }
  }

  /** The queues and hands after a dequeue. */
  ghost predicate Fetched(s: State, s': State, e: nat, r: Rec)
    requires Shaped(s) && e < |s.streams|
  {
    && Shaped(s') && s'.net == s.net && Wired(s.net)
    && s.streams[e].queue == [r] + s'.streams[e].queue
    && (forall d :: 0 <= d < |s.streams| && d != e ==> s'.streams[d].queue == s.streams[d].queue)
    && !KindOf(s.net, e).Garbage? && s.sites[LandOf(s, e)].hand == []
    && (forall l :: 0 <= l < |s.sites| && l != LandOf(s, e) ==> s'.sites[l].hand == s.sites[l].hand)
    && s'.sites[LandOf(s, e)].hand == if KindOf(s.net, e).Identity? then [r] else []
  }

  /** A dequeue takes the oldest record of the paths that end there; an identity
      landing's dequeue takes none off any path. */
  lemma {:induction false} PipeFetch(s: State, s': State, e: nat, r: Rec, x: nat)
    requires Shaped(s) && e < |s.streams| && x < |s.streams| && Fetched(s, s', e, r)
    ensures Pipe(s, x) == (if Flow(s.net, x) == e then [r] else []) + Pipe(s', x)
    decreases Rank(s.net, x)
  {
    hide Pipe, Flow, Passes, Forwards, Fetched, Wired;
    FetchedAt(s, s', e, r, x);
    PathStep(s, x, e);
    PathStep(s', x, e);
    Regroup(Pipe(s', x), [], [], []);
    if Forwards(s.net, x) {
      var out := KindOf(s.net, x).out;
      PipeFetch(s, s', e, r, out);
      Regroup(Pipe(s', out), [], [], []);
      if x == e {
        FlowStops(s.net, out, e);
        Regroup(Pipe(s', out), [r], [], s'.streams[e].queue);
        Regroup(Pipe(s', out), [], [], s.streams[e].queue);
      } else {
        var head := if Flow(s.net, out) == e then [r] else [];
        Regroup(head, Pipe(s', out), s.sites[LandOf(s, x)].hand, s.streams[x].queue);
      }
    }
  }

  lemma {:induction false} FetchedAt(s: State, s': State, e: nat, r: Rec, x: nat)
    requires Shaped(s) && e < |s.streams| && x < |s.streams| && Fetched(s, s', e, r)
    ensures Shaped(s') && Wired(s.net) && s'.net == s.net
    ensures x != e ==> s'.streams[x].queue == s.streams[x].queue
    ensures x != e && Forwards(s.net, x) ==> s'.sites[LandOf(s, x)].hand == s.sites[LandOf(s, x)].hand
    ensures x == e ==> s.streams[e].queue == [r] + s'.streams[e].queue && s.sites[LandOf(s, e)].hand == []
    ensures x == e && Forwards(s.net, x) ==> s'.sites[LandOf(s, e)].hand == [r]
  {
    ForwardsAll(s.net, x);
    ForwardsAll(s.net, e);
  }

  lemma {:induction false} FlowStops(net: Net, x: nat, e: nat)
    requires Forwards(net, e)
    ensures Flow(net, x) != e
    decreases Rank(net, x)
  {
    if Forwards(net, x) { FlowStops(net, KindOf(net, x).out, e); }
  }

  /** Nothing on the paths changes. */
  lemma {:induction false} PipeStays(s: State, s': State, x: nat)
    requires Shaped(s) && Shaped(s') && Wired(s.net) && x < |s.streams| <= |s'.streams|
    requires s'.net.descs[..|s.streams|] == s.net.descs
    requires forall d :: 0 <= d < |s.streams| && Reaches(s.net, x, d) ==> KindOf(s'.net, d) == KindOf(s.net, d)
    requires forall d :: 0 <= d < |s.streams| && Reaches(s.net, x, d) ==>
      s'.streams[d].queue == s.streams[d].queue && s'.sites[LandOf(s', d)].hand == s.sites[LandOf(s, d)].hand
    ensures Pipe(s', x) == Pipe(s, x) && Flow(s'.net, x) == Flow(s.net, x)
    decreases Rank(s.net, x)
  {
    ForwardsAll(s.net, x);
    assert Reaches(s.net, x, x);
    assert s'.net.descs[x] == s.net.descs[x];
    if Forwards(s.net, x) {
      assert s'.net.descs[KindOf(s.net, x).out] == s.net.descs[KindOf(s.net, x).out];
      PipeStays(s, s', KindOf(s.net, x).out);
    }
  }

  /** d lies on the path from x. */
  predicate Reaches(net: Net, x: nat, d: nat)
    decreases Rank(net, x)
  {
    x == d || (Forwards(net, x) && Reaches(net, KindOf(net, x).out, d))
  }

  lemma {:induction false} ReachesRank(net: Net, x: nat, d: nat)
    requires Reaches(net, x, d) && x != d
    ensures Rank(net, d) < Rank(net, x)
    decreases Rank(net, x)
  {
    if Forwards(net, x) && KindOf(net, x).out != d { ReachesRank(net, KindOf(net, x).out, d); }
  }

  /** The wiring and the queues after a dissolution. */
  ghost predicate Joined(s: State, s': State, w: Writer, d: nat, next: nat)
    requires Shaped(s) && Shaped(s') && d < |s.streams| && next < |s.streams|
  {
    && s'.net.descs == s.net.descs && Wired(s.net) && Wired(s'.net) && s'.sites == s.sites
    && KindOf(s.net, d) == Identity(next) && !KindOf(s.net, next).Garbage? && s.sites[LandOf(s, d)].hand == []
    && (forall e :: 0 <= e < |s.streams| ==> KindOf(s'.net, e) == JoinedKind(s, w, d, next, e))
    && (forall e :: 0 <= e < |s.streams| && w == Via(LandOf(s, e)) ==> KindOf(s.net, e) == Identity(d))
    && (forall e :: 0 <= e < |s.streams| && KindOf(s.net, e) == Identity(d) ==> w == Via(LandOf(s, e)))
    && (forall e :: 0 <= e < |s.streams| && KindOf(s.net, e) == Identity(next) ==> e == d)
    && (forall e :: 0 <= e < |s.streams| ==> s'.streams[e].queue == JoinedQueue(s, d, next, e))
  }

  ghost function JoinedKind(s: State, w: Writer, d: nat, next: nat, e: nat): Kind
    requires Shaped(s) && e < |s.streams|
  {
    if e == d then Garbage(next) else if w == Via(LandOf(s, e)) then Identity(next) else KindOf(s.net, e)
  }

  ghost function JoinedQueue(s: State, d: nat, next: nat, e: nat): seq<Rec>
    requires Shaped(s) && d < |s.streams| && next < |s.streams| && e < |s.streams|
  {
    if e == d then [] else if e == next then s.streams[next].queue + s.streams[d].queue else s.streams[e].queue
  }

  lemma {:induction false} DissolveJoins(s: State, w: Writer, d: nat)
    requires Inv(s) && Enabled(s, Dissolve(w, d)) && KindOf(s.net, d).out < |s.streams|
    ensures var s' := Dissolving(s, w, d); Shaped(s') && Joined(s, s', w, d, KindOf(s.net, d).out)
  {
    hide Inv, Wired, HasEnd;
    InvParts(s);
    DissolveEnds(s, w, d);
    DissolveWired(s, w, d);
    var s' := Dissolving(s, w, d);
    forall e | 0 <= e < |s.streams|
      ensures KindOf(s'.net, e) == JoinedKind(s, w, d, KindOf(s.net, d).out, e)
      ensures w == Via(LandOf(s, e)) ==> KindOf(s.net, e) == Identity(d)
      ensures KindOf(s.net, e) == KindOf(s.net, d) ==> e == d
    {
      DissolveKind(s, w, d, e);
    }
  }

  lemma {:induction false} DissolveKind(s: State, w: Writer, d: nat, e: nat)
    requires Inv(s) && Enabled(s, Dissolve(w, d)) && KindOf(s.net, d).out < |s.streams| && e < |s.streams|
    ensures KindOf(Dissolving(s, w, d).net, e) == JoinedKind(s, w, d, KindOf(s.net, d).out, e)
    ensures w == Via(LandOf(s, e)) ==> KindOf(s.net, e) == Identity(d)
    ensures KindOf(s.net, e) == KindOf(s.net, d) ==> e == d
  {
    hide Balanced, EndsOk, IdentityOk, SiteOk, TicketOk, Sum, OutEnds, Fwd;
    DissolveEnds(s, w, d);
  }

  /** Dissolving appends what waits at the identity landing to the next queue: no
      path through the landing changes, and the writer that moves on finds behind
      its new end exactly what was behind the old one. */
  lemma {:induction false} PipeDissolve(s: State, w: Writer, d: nat, x: nat)
    requires Inv(s) && Enabled(s, Dissolve(w, d)) && x < |s.streams|
    ensures var s' := Apply(s, Dissolve(w, d));
      var next := KindOf(s.net, d).out;
      && Shaped(s') && next < |s.streams|
      && Pipe(s', x) == Pipe(s, x) + (if Passes(s.net, x, next) then s.streams[d].queue else [])
      && Pipe(s', next) == Pipe(s, d)
      && Flow(s'.net, x) == Flow(s.net, x) && Flow(s'.net, next) == Flow(s.net, d)
  {
    hide Balanced, EndsOk, SiteOk, TicketOk, IdentityOk, Wired, Joined, Pipe, Flow;
    DissolveEnds(s, w, d);
    DissolveJoins(s, w, d);
    var s' := Dissolving(s, w, d);
    var next := KindOf(s.net, d).out;
    DissolvePipes(s, s', w, d, next, x);
    DissolvePipes(s, s', w, d, next, next);
    DissolvePipes(s, s', w, d, next, d);
  }

  /** One step along a path. */
  lemma {:induction false} PathStep(s: State, x: nat, e: nat)
    requires Shaped(s) && x < |s.streams| && Wired(s.net)
    ensures Forwards(s.net, x) == (KindOf(s.net, x).Identity? || KindOf(s.net, x).Garbage?)
    ensures Forwards(s.net, x) ==>
      var out := KindOf(s.net, x).out;
      && out < |s.streams| && Rank(s.net, out) < Rank(s.net, x) && Flow(s.net, x) == Flow(s.net, out)
      && Pipe(s, x) == Pipe(s, out) + s.sites[LandOf(s, x)].hand + s.streams[x].queue
    ensures !Forwards(s.net, x) ==> Pipe(s, x) == s.streams[x].queue && Flow(s.net, x) == x
    ensures Passes(s.net, x, e) == (x == e || (KindOf(s.net, x).Garbage? && Passes(s.net, KindOf(s.net, x).out, e)))
  {
    ForwardsAll(s.net, x);
  }

  lemma {:induction false} Regroup(a: seq<Rec>, b: seq<Rec>, h: seq<Rec>, u: seq<Rec>)
    ensures a + b + h + u == a + (b + h + u)
    ensures a + [] == a && [] + a == a
  {
  }

  /** What Joined says about one descriptor. */
  lemma {:induction false} JoinedAt(s: State, s': State, w: Writer, d: nat, next: nat, x: nat)
    requires Inv(s) && x < |s.streams| && d < |s.streams| && next < |s.streams|
    requires Shaped(s') && Joined(s, s', w, d, next)
    ensures Wired(s.net) && Wired(s'.net) && Shaped(s) && |s'.streams| == |s.streams|
    ensures KindOf(s'.net, x) == JoinedKind(s, w, d, next, x)
    ensures s'.streams[x].queue == JoinedQueue(s, d, next, x)
    ensures s'.sites[LandOf(s', x)].hand == s.sites[LandOf(s, x)].hand
    ensures w == Via(LandOf(s, x)) ==> KindOf(s.net, x) == Identity(d) && x != d
    ensures Rank(s.net, next) < Rank(s.net, d)
    ensures x == d ==> s.sites[LandOf(s, x)].hand == [] && KindOf(s.net, x) == Identity(next)
    ensures x != d && KindOf(s.net, x).Garbage? ==> x != next && s.streams[x].queue == [] && s.sites[LandOf(s, x)].hand == []
    ensures x != d && KindOf(s.net, x).Identity? ==> KindOf(s.net, x).out != next
    ensures x != d && KindOf(s.net, x).Identity? ==> (w == Via(LandOf(s, x))) == (KindOf(s.net, x).out == d)
    ensures KindOf(s.net, x).Identity? ==> !KindOf(s.net, KindOf(s.net, x).out).Garbage?
  {
    assert OutOk(s.net, d);
    if x != d && KindOf(s.net, x).Garbage? { DissolvedEmpty(s, x); }
    if KindOf(s.net, x).Identity? { assert IdentityOk(s, LandOf(s, x)); }
  }

  lemma {:induction false} DissolvePipes(s: State, s': State, w: Writer, d: nat, next: nat, x: nat)
    requires Inv(s) && x < |s.streams| && d < |s.streams| && next < |s.streams|
    requires Shaped(s') && Joined(s, s', w, d, next)
    ensures Pipe(s', x) == Pipe(s, x) + (if Passes(s.net, x, next) then s.streams[d].queue else [])
    ensures Flow(s'.net, x) == Flow(s.net, x)
    ensures x == d ==> !Passes(s.net, d, next) && Pipe(s, d) == Pipe(s, next) + s.streams[d].queue
    ensures x == d ==> Flow(s.net, d) == Flow(s.net, next)
    decreases Rank(s.net, x)
  {
    hide Joined, Pipe, Flow, Passes, Wired, Forwards, Balanced, EndsOk, SiteOk, TicketOk, IdentityOk;
    JoinedAt(s, s', w, d, next, x);
    PathStep(s, x, next);
    PathStep(s', x, next);
    if Forwards(s.net, x) {
      var out := KindOf(s.net, x).out;
      DissolvePipes(s, s', w, d, next, out);
      PathStep(s, out, next);
      Regroup(Pipe(s, out), [], [], []);
      Regroup(Pipe(s, x), [], [], []);
      Regroup(Pipe(s', out), [], [], []);
      if w == Via(LandOf(s, x)) {
        DissolvePipes(s, s', w, d, next, next);
        PathStep(s, next, next);
      } else if x == next && Passes(s.net, out, next) {
        PassesRank(s.net, out, next);
      }
    }
  }

  // ---------- whole runs ----------

  ghost predicate Allowed(s: State, steps: seq<Step>)
    requires Inv(s)
    decreases |steps|
  {
    |steps| == 0 || (Enabled(s, steps[0]) && (StepKeepsInv(s, steps[0]); Allowed(Apply(s, steps[0]), steps[1..])))
  }

  ghost function After(s: State, steps: seq<Step>): (s': State)
    requires Inv(s) && Allowed(s, steps)
    ensures Inv(s')
    decreases |steps|
  {
    if |steps| == 0 then s else (StepKeepsInv(s, steps[0]); After(Apply(s, steps[0]), steps[1..]))
  }

  /** A node's open end moves on when the stream it leads to is dissolved. */
  ghost function EndAfter(s: State, step: Step, e: nat): nat {
    if step == Dissolve(Node, e) && KindOf(s.net, e).Identity? then KindOf(s.net, e).out else e
  }

  /** The node keeps its open end, and the landing at the end of the path keeps its task. */
  ghost predicate Keeps(s: State, step: Step, e: nat)
    requires Shaped(s) && Flow(s.net, e) < |s.streams|
  {
    && step != CloseEnd(e)
    && (step.BecomeIdentity? ==> step.out != e && step.land != LandOf(s, Flow(s.net, e)))
  }

  ghost function PutBy(step: Step, e: nat): seq<Rec> {
    if (step.Put? || step.PutGet?) && step.w == Node && step.desc == e then [step.rec] else []
  }

  /** What the landing of f dequeues. */
  ghost function TakenAt(s: State, step: Step, f: nat): seq<Rec>
    requires Inv(s) && Enabled(s, step)
  {
    if step.PutGet? && step.desc == f then [(s.streams[f].queue + [step.rec])[0]]
    else if step.Get? && s.tickets[step.ticket].desc == f then (ReadingNonEmpty(s, step.ticket); [s.streams[f].queue[0]])
    else []
  }

  lemma {:induction false} FlowValid(s: State, x: nat)
    requires Shaped(s) && x < |s.streams|
    ensures Flow(s.net, x) < |s.streams| && Reaches(s.net, x, Flow(s.net, x)) && !Forwards(s.net, Flow(s.net, x))
    decreases Rank(s.net, x)
  {
    if Forwards(s.net, x) { FlowValid(s, KindOf(s.net, x).out); }
  }

  ghost predicate Tracked(s: State, step: Step, e: nat, s': State)
    requires Inv(s) && Enabled(s, step) && e < |s.streams|
  {
    var e' := EndAfter(s, step, e);
    && Shaped(s') && e' < |s'.streams| && s'.streams[e'].writers > 0
    && Flow(s'.net, e') == Flow(s.net, e)
    && Pipe(s, e) + PutBy(step, e) == TakenAt(s, step, Flow(s.net, e)) + Pipe(s', e')
  }

  lemma {:induction false} PutTracked(s: State, w: Writer, d: nat, r: Rec, e: nat)
    requires Inv(s) && Enabled(s, Put(w, d, r)) && e < |s.streams| && s.streams[e].writers > 0
    ensures Tracked(s, Put(w, d, r), e, Apply(s, Put(w, d, r)))
  {
    hide Pipe, Flow;
    var s' := Apply(s, Put(w, d, r));
    OwnEnd(s, w, d, e);
    PipeWrite(s, s', w, d, r, e);
    Regroup(Pipe(s', e), [], [], []);
  }

  /** Somebody who can write to the node's end is the node. */
  lemma {:induction false} OwnEnd(s: State, w: Writer, d: nat, e: nat)
    requires Inv(s) && HasEnd(s, w, d) && e < |s.streams| && s.streams[e].writers > 0
    ensures d == e ==> w == Node
    ensures Passes(s.net, e, d) == (d == e)
  {
    EndLive(s, Node, e);
    if w.Via? { assert IdentityOk(s, w.land); }
  }

  lemma {:induction false} PutGetTracked(s: State, w: Writer, d: nat, r: Rec, e: nat)
    requires Inv(s) && Enabled(s, PutGet(w, d, r)) && e < |s.streams| && s.streams[e].writers > 0
    ensures Tracked(s, PutGet(w, d, r), e, Apply(s, PutGet(w, d, r)))
  {
    hide Pipe, Flow, Passes, Balanced, EndsOk, SiteOk, TicketOk, IdentityOk, Written, Fetched;
    var s' := Apply(s, PutGet(w, d, r));
    var q := s.streams[d].queue + [r];
    var mid := s.(streams := s.streams[d := s.streams[d].(queue := q)], sites := SetHand(s.sites, w));
    OwnEnd(s, w, d, e);
    PutGetSteps(s, w, d, r);
    PipeWrite(s, mid, w, d, r, e);
    PipeFetch(mid, s', d, q[0], e);
    Regroup(Pipe(mid, e), [], [], []);
    Regroup(Pipe(s', e), [], [], []);
  }

  lemma {:induction false} PutGetSteps(s: State, w: Writer, d: nat, r: Rec)
    requires Inv(s) && Enabled(s, PutGet(w, d, r))
    ensures var q := s.streams[d].queue + [r];
      var mid := s.(streams := s.streams[d := s.streams[d].(queue := q)], sites := SetHand(s.sites, w));
      && Written(s, mid, w, d, r) && Shaped(mid) && Fetched(mid, Apply(s, PutGet(w, d, r)), d, q[0])
  {
    hide Balanced, EndsOk, TicketOk, IdentityOk;
    EndLive(s, w, d);
    assert SiteOk(s, LandOf(s, d));
  }

  lemma {:induction false} GetTracked(s: State, i: nat, e: nat)
    requires Inv(s) && Enabled(s, Get(i)) && e < |s.streams| && s.streams[e].writers > 0
    ensures Tracked(s, Get(i), e, Apply(s, Get(i)))
  {
    hide Pipe, Flow;
    var s' := Apply(s, Get(i));
    var d := s.tickets[i].desc;
    ReadingNonEmpty(s, i);
    assert TicketOk(s, i) && SiteOk(s, LandOf(s, d));
    PipeFetch(s, s', d, s.streams[d].queue[0], e);
    Regroup(Pipe(s, e), [], [], []);
    Regroup(Pipe(s', e), [], [], []);
  }

  lemma {:induction false} DissolveTracked(s: State, w: Writer, d: nat, e: nat)
    requires Inv(s) && Enabled(s, Dissolve(w, d)) && e < |s.streams| && s.streams[e].writers > 0
    ensures Tracked(s, Dissolve(w, d), e, Apply(s, Dissolve(w, d)))
  {
    hide Pipe, Flow;
    DissolveEnds(s, w, d);
    PipeDissolve(s, w, d, e);
    EndLive(s, Node, e);
    Regroup(Pipe(s, e), [], [], []);
    var s' := Apply(s, Dissolve(w, d));
    Regroup(Pipe(s', EndAfter(s, Dissolve(w, d), e)), [], [], []);
  }

  /** Everything on an open path is referenced. */
  lemma {:induction false} PathReferenced(s: State, x: nat, d: nat)
    requires Inv(s) && x < |s.streams| && Reaches(s.net, x, d) && x != d
    ensures d < |s.streams| && s.streams[d].refs > 0
    decreases Rank(s.net, x)
  {
    var out := KindOf(s.net, x).out;
    if out == d {
      OutHas(s.net.lands, LandOf(s, x), d);
      assert Balanced(s, d);
    } else {
      PathReferenced(s, out, d);
    }
  }

  lemma {:induction false} ReapTracked(s: State, d: nat, e: nat)
    requires Inv(s) && Enabled(s, Reap(d)) && e < |s.streams| && s.streams[e].writers > 0
    ensures Tracked(s, Reap(d), e, Apply(s, Reap(d)))
  {
    hide Pipe, Flow, Reaches, Balanced, SiteOk, TicketOk, IdentityOk;
    EndLive(s, Node, e);
    var s' := Apply(s, Reap(d));
    forall x | 0 <= x < |s.streams| && Reaches(s.net, e, x) ensures x != d {
      if e != x { PathReferenced(s, e, x); }
    }
    assert forall x :: 0 <= x < |s.streams| && Reaches(s.net, e, x) ==> KindOf(s'.net, x) == KindOf(s.net, x);
    PipeStays(s, s', e);
    Regroup(Pipe(s, e), [], [], []);
  }

  lemma {:induction false} OpenTracked(s: State, l: nat, rank: nat, e: nat)
    requires Inv(s) && Enabled(s, Open(l, rank)) && e < |s.streams| && s.streams[e].writers > 0
    ensures Tracked(s, Open(l, rank), e, Apply(s, Open(l, rank)))
  {
    hide Pipe, Flow, Reaches, Balanced, EndsOk, SiteOk, TicketOk, IdentityOk;
    OpenKinds(s, l, rank);
    var s' := Apply(s, Open(l, rank));
    assert s'.net.descs[..|s.streams|] == s.net.descs;
    PipeStays(s, s', e);
    Regroup(Pipe(s, e), [], [], []);
  }

  lemma {:induction false} BecomeIdentityTracked(s: State, l: nat, out: nat, e: nat)
    requires Inv(s) && Enabled(s, BecomeIdentity(l, out)) && e < |s.streams| && s.streams[e].writers > 0
    requires Flow(s.net, e) < |s.streams| && Keeps(s, BecomeIdentity(l, out), e)
    ensures Tracked(s, BecomeIdentity(l, out), e, Apply(s, BecomeIdentity(l, out)))
  {
    hide Flow, Reaches, Wired;
    hide Balanced, EndsOk, SiteOk, TicketOk, IdentityOk, Pipe;
    var s' := Apply(s, BecomeIdentity(l, out));
    forall x | 0 <= x < |s.streams| && Reaches(s.net, e, x) ensures s.net.descs[x].land != l {
      if s.net.descs[x].land == l { PlainEndsPath(s.net, e, x); }
    }
    PipeStays(s, s', e);
    Regroup(Pipe(s, e), [], [], []);
  }

  lemma {:induction false} PlainEndsPath(net: Net, x: nat, d: nat)
    requires Reaches(net, x, d) && KindOf(net, d).Plain?
    ensures Flow(net, x) == d
    decreases Rank(net, x)
  {
    if x != d { PlainEndsPath(net, KindOf(net, x).out, d); }
  }

  lemma {:induction false} QuietTracked(s: State, step: Step, e: nat)
    requires Inv(s) && Enabled(s, step) && e < |s.streams| && s.streams[e].writers > 0
    requires step.Move? || step.Split? || step.Hop? || step.Take? || step.Unlock? || step.Done? || step.CloseEnd?
    requires step != CloseEnd(e)
    ensures Tracked(s, step, e, Apply(s, step))
  {
    hide Pipe, Flow, Reaches, Balanced, EndsOk, SiteOk, TicketOk, IdentityOk, Wired, Enabled, Apply;
    QuietState(s, step);
    var s' := Apply(s, step);
    PipeStays(s, s', e);
    Regroup(Pipe(s, e), [], [], []);
  }

  lemma {:induction false} QuietState(s: State, step: Step)
    requires Inv(s) && Enabled(s, step)
    requires step.Move? || step.Split? || step.Hop? || step.Take? || step.Unlock? || step.Done? || step.CloseEnd?
    ensures var s' := Apply(s, step);
      && Shaped(s') && s'.net == s.net
      && (forall d :: 0 <= d < |s.streams| ==> s'.streams[d].queue == s.streams[d].queue)
      && (forall d :: 0 <= d < |s.streams| && step != CloseEnd(d) ==> s'.streams[d].writers == s.streams[d].writers)
      && (forall l :: 0 <= l < |s.sites| ==> s'.sites[l].hand == s.sites[l].hand)
  {
    hide Balanced, EndsOk, SiteOk, IdentityOk;
    if step.Hop? { assert OutOk(s.net, s.tickets[step.ticket].desc); }
  }

  /** One step, seen from a node's open end. */
  lemma {:induction false} StepTracked(s: State, step: Step, e: nat)
    requires Inv(s) && Enabled(s, step) && e < |s.streams| && s.streams[e].writers > 0
    requires Flow(s.net, e) < |s.streams| && Keeps(s, step, e)
    ensures Tracked(s, step, e, Apply(s, step))
  {
    hide Balanced, EndsOk, SiteOk, TicketOk, IdentityOk, Enabled, Apply, Tracked;
    match step
    case Open(l, rank) => OpenTracked(s, l, rank, e);
    case Put(w, d, r) => PutTracked(s, w, d, r, e);
    case PutGet(w, d, r) => PutGetTracked(s, w, d, r, e);
    case Get(i) => GetTracked(s, i, e);
    case BecomeIdentity(l, out) => BecomeIdentityTracked(s, l, out, e);
    case Dissolve(w, d) => DissolveTracked(s, w, d, e);
    case Reap(d) => ReapTracked(s, d, e);
    case _ => QuietTracked(s, step, e);
  }

  ghost predicate AllKeep(s: State, steps: seq<Step>, e: nat)
    requires Inv(s) && Allowed(s, steps) && e < |s.streams| && s.streams[e].writers > 0
    decreases |steps|
  {
    |steps| == 0 ||
    (FlowValid(s, e);
     StepKeepsInv(s, steps[0]);
     Keeps(s, steps[0], e) &&
     (StepTracked(s, steps[0], e);
      AllKeep(Apply(s, steps[0]), steps[1..], EndAfter(s, steps[0], e))))
  }

  ghost function WrittenIn(s: State, steps: seq<Step>, e: nat): seq<Rec>
    requires Inv(s) && Allowed(s, steps)
    decreases |steps|
  {
    if |steps| == 0 then []
    else
      StepKeepsInv(s, steps[0]);
      PutBy(steps[0], e) + WrittenIn(Apply(s, steps[0]), steps[1..], EndAfter(s, steps[0], e))
  }

  ghost function TakenIn(s: State, steps: seq<Step>, f: nat): seq<Rec>
    requires Inv(s) && Allowed(s, steps)
    decreases |steps|
  {
    if |steps| == 0 then []
    else
      StepKeepsInv(s, steps[0]);
      TakenAt(s, steps[0], f) + TakenIn(Apply(s, steps[0]), steps[1..], f)
  }

  ghost function EndIn(s: State, steps: seq<Step>, e: nat): nat
    requires Inv(s) && Allowed(s, steps)
    decreases |steps|
  {
    if |steps| == 0 then e
    else StepKeepsInv(s, steps[0]); EndIn(Apply(s, steps[0]), steps[1..], EndAfter(s, steps[0], e))
  }

  /** However many landings in a row are dissolved, and whoever steals which licence:
      the records a node writes reach the landing that works on them in the order
      written, none lost, none twice, behind those that were on their way already. */
  lemma {:induction false} RunIsFifo(s: State, steps: seq<Step>, e: nat)
    requires Inv(s) && Allowed(s, steps) && e < |s.streams| && s.streams[e].writers > 0
    requires AllKeep(s, steps, e)
    ensures EndIn(s, steps, e) < |After(s, steps).streams|
    ensures Pipe(s, e) + WrittenIn(s, steps, e)
      == TakenIn(s, steps, Flow(s.net, e)) + Pipe(After(s, steps), EndIn(s, steps, e))
    decreases |steps|
  {
    hide Balanced, EndsOk, SiteOk, TicketOk, IdentityOk, Wired, Enabled, Apply, Pipe, Flow, Keeps, TakenAt, PutBy;
    if |steps| > 0 {
      FlowValid(s, e);
      StepKeepsInv(s, steps[0]);
      StepTracked(s, steps[0], e);
      var s' := Apply(s, steps[0]);
      var e' := EndAfter(s, steps[0], e);
      RunIsFifo(s', steps[1..], e');
      var f := Flow(s.net, e);
      var w0, w1 := PutBy(steps[0], e), WrittenIn(s', steps[1..], e');
      var t0, t1 := TakenAt(s, steps[0], f), TakenIn(s', steps[1..], f);
      Regroup(Pipe(s, e), w0, w1, []);
      Regroup(t0, Pipe(s', e'), w1, []);
      Regroup(t0, t1, Pipe(After(s, steps), EndIn(s, steps, e)), []);
      Regroup(w0 + w1, [], [], []);
      Regroup(w1, [], [], []);
    }
  }

  /** The network before its first stream is opened. */
  ghost function Nothing(): (s: State)
    ensures Inv(s)
  {
    State(Net([], []), [], [], [])
  }

  /** What holds whatever the workers do: the licences that lead to a stream are as many
      as its records, a worker with a licence in its hands finds one, and a descriptor
      is closed only when no end, no licence and no worker refers to it. */
  lemma {:induction false} RunIsSafe(steps: seq<Step>, s: State)
    requires Allowed(Nothing(), steps) && s == After(Nothing(), steps)
    ensures Shaped(s)
    ensures forall d :: 0 <= d < |s.streams| ==>
      && |s.streams[d].queue| == Sum(s.tickets, Ends(s.net, d))
      && s.streams[d].refs
        == s.streams[d].writers + s.streams[d].busy + OutEnds(s.net.lands, d) + Sum(s.tickets, Through(s.net, d))
    ensures forall i :: 0 <= i < |s.tickets| && s.tickets[i].reading ==> s.streams[s.tickets[i].desc].queue != []
    ensures forall d :: 0 <= d < |s.streams| && s.streams[d].closed ==>
      && s.streams[d].queue == [] && s.streams[d].writers == 0 && s.streams[d].busy == 0
      && (forall i :: 0 <= i < |s.tickets| && Passes(s.net, s.tickets[i].desc, d) ==> s.tickets[i].count == 0)
      && (forall l :: 0 <= l < |s.net.lands| ==> HoldsEnd(s.net.lands[l], d) == 0)
  {
    hide Sum, OutEnds, Fwd, Passes, SiteOk, IdentityOk, TicketOk, Wired;
    forall d | 0 <= d < |s.streams| ensures Balanced(s, d) && (s.streams[d].closed ==> s.streams[d].refs == 0) {
      assert EndsOk(s, d);
    }
    forall i | 0 <= i < |s.tickets| && s.tickets[i].reading ensures s.streams[s.tickets[i].desc].queue != [] {
      ReadingNonEmpty(s, i);
    }
    forall d | 0 <= d < |s.streams| && s.streams[d].closed { Unreferenced(s, d); }
  }
}
