/** Where the records of connected networks are: each one is on a stream, or queued at a
    collector, unless it was destroyed. */
module DetPlaces {
  import opened Options
  import D = Determinism
  import L = DetDelivery
  import opened DetSeries

  ghost predicate OnStream(streams: seq<seq<nat>>, r: nat) {
    exists l :: 0 <= l < |streams| && r in streams[l]
  }

  ghost predicate Queued(det: D.State, r: nat) {
    exists d :: d in det.detrefs && r in det.detrefs[d].recfifo
  }

  /** No record has disappeared, but those in `gone`. */
  ghost predicate Accounted(n: Net, gone: set<nat>) {
    forall r :: 0 <= r < |n.det.stacks| ==> OnStream(n.streams, r) || Queued(n.det, r) || r in gone
  }

  /** The record that a step destroys. */
  ghost function DestroyedBy(p: Plan, n: Net, step: Step): set<nat>
    requires Fitting(p, n) && Enabled(p, n, step)
  {
    if step.Destroy? then {n.streams[step.stream][step.at]} else {}
  }

  ghost function DestroyedIn(p: Plan, n: Net, steps: seq<Step>): set<nat>
    requires Feasible(p, n, steps)
    decreases |steps|
  {
    if |steps| == 0 then {}
    else
      DestroyedBy(p, n, steps[0]) +
      if Next(p, n, steps[0]).Some? then DestroyedIn(p, Next(p, n, steps[0]).value, steps[1..]) else {}
  }

  // ---------- streams ----------

  lemma {:induction false} TakenStays(n: Net, l: nat, i: nat, r: nat)
    requires l < |n.streams| && i < |n.streams[l]| && OnStream(n.streams, r)
    ensures r == n.streams[l][i] || OnStream(Taken(n, l, i).streams, r)
  {
    var m :| 0 <= m < |n.streams| && r in n.streams[m];
    if m == l && r != n.streams[l][i] {
      var a :| 0 <= a < |n.streams[l]| && n.streams[l][a] == r;
      WithoutIs(n.streams[l], i);
      assert Without(n.streams[l], i)[if a < i then a else a - 1] == r;
      assert r in Taken(n, l, i).streams[l];
    } else {
      assert m != l ==> r in Taken(n, l, i).streams[m];
    }
  }

  lemma {:induction false} PutStays(n: Net, l: nat, recs: seq<nat>, top: nat, r: nat)
    requires l < |n.streams| == |n.high|
    ensures OnStream(n.streams, r) || r in recs ==> OnStream(Put(n, l, recs, top).streams, r)
  {
    var s' := Put(n, l, recs, top).streams;
    if OnStream(n.streams, r) {
      var m :| 0 <= m < |n.streams| && r in n.streams[m];
      assert r in s'[m];
    } else if r in recs {
      assert r in s'[l];
    }
  }

  lemma {:induction false} InsertedStays(n: Net, l: nat, i: nat, c: nat, r: nat)
    requires l < |n.streams| && i < |n.streams[l]|
    ensures OnStream(n.streams, r) || r == c ==> OnStream(Inserted(n, l, i, c).streams, r)
  {
    var s, s' := n.streams[l], Inserted(n, l, i, c).streams;
    assert s[..i + 1] + s[i + 1..] == s;
    if OnStream(n.streams, r) {
      var m :| 0 <= m < |n.streams| && r in n.streams[m];
      assert m == l ==> r in s[..i + 1] || r in s[i + 1..];
      assert r in s'[m];
    } else if r == c {
      assert r in s'[l];
    }
  }

  lemma {:induction false} OvertakenStays(s: seq<nat>, i: nat, r: nat)
    requires i + 1 < |s| && r in s
    ensures r in s[i := s[i + 1]][i + 1 := s[i]]
  {
    var a :| 0 <= a < |s| && s[a] == r;
    var t := s[i := s[i + 1]][i + 1 := s[i]];
    assert t[if a == i then i + 1 else if a == i + 1 then i else a] == r;
  }

  // ---------- collectors ----------

  lemma {:induction false} InLog(log: seq<D.Emission>, d: nat, r: nat)
    requires r in L.OfDetref(log, d)
    ensures exists i :: 0 <= i < |log| && log[i].rec == r
  {
    var n := |log| - 1;
    if r in L.OfDetref(log[..n], d) {
      InLog(log[..n], d, r);
      var i :| 0 <= i < n && log[..n][i].rec == r;
      assert log[i].rec == r;
    } else {
      assert log[n].rec == r;
    }
  }

  lemma {:induction false} SameHead(a: seq<nat>, x: seq<nat>, b: seq<nat>)
    requires a + b == a + x
    ensures b == x
  {
    assert (a + b)[|a|..] == b && (a + x)[|a|..] == x;
  }

  /** A queued record stays queued while a collector dequeues, or is emitted by it. */
  lemma {:induction false} QueuedOrEmitted(a: D.State, k: nat, d: nat, r: nat)
    requires k < |a.gates| && L.Own(a, k) && D.Dequeue(a, k).Some?
    requires d in a.detrefs && a.detrefs[d].leave < |a.gates| && r in a.detrefs[d].recfifo
    ensures |D.Dequeue(a, k).value.gates| == |a.gates|
    ensures Queued(D.Dequeue(a, k).value, r) || r in Emitted(a.gates[k].log, D.Dequeue(a, k).value.gates[k].log)
  {
    hide D.Dequeue, L.OfDetref, L.Own;
    var b, m := D.Dequeue(a, k).value, a.detrefs[d].leave;
    L.DequeueMoves(a, k, m, d);
    L.DequeueLogs(a, k, m);
    var more := b.gates[m].log[|a.gates[m].log|..];
    assert b.gates[m].log == a.gates[m].log + more;
    L.OfDetrefAppend(a.gates[m].log, more, d);
    var rest := if d in b.detrefs && b.detrefs[d].leave == m then b.detrefs[d].recfifo else [];
    var had, got := L.OfDetref(a.gates[m].log, d), L.OfDetref(more, d);
    assert had + (got + rest) == (had + got) + rest;
    SameHead(had, a.detrefs[d].recfifo, got + rest);
    if r in rest {
      assert Queued(b, r);
    } else {
      assert r in got;
      InLog(more, d, r);
      MoreEmitted(a, b, k, m, more, r);
    }
  }

  lemma {:induction false} MoreEmitted(a: D.State, b: D.State, k: nat, m: nat, more: seq<D.Emission>, r: nat)
    requires k < |a.gates| == |b.gates| && m < |a.gates| && b.gates[m].log == a.gates[m].log + more
    requires m != k ==> b.gates[m].log == a.gates[m].log
    requires exists i :: 0 <= i < |more| && more[i].rec == r
    ensures r in Emitted(a.gates[k].log, b.gates[k].log)
  {
    var i :| 0 <= i < |more| && more[i].rec == r;
    assert |more| > 0 && m == k;
    assert Emitted(a.gates[k].log, b.gates[k].log)[i] == r;
  }

  /** What a collector does with the records queued in the state `mid`: streams without it in `taken`. */
  lemma {:induction false} CollectorAccounts(p: Plan, taken: Net, k: nat, mid: D.State, gone: set<nat>)
    requires Fitting(p, taken) && k < |p.input| && |mid.gates| == |taken.det.gates| && mid.gates[k].log == taken.det.gates[k].log
    requires L.Own(mid, k) && D.Dequeue(mid, k).Some? && |D.Dequeue(mid, k).value.gates| == |mid.gates|
    requires forall d :: d in mid.detrefs ==> mid.detrefs[d].leave < |mid.gates|
    requires Accounted(taken.(det := mid), gone)
    ensures Accounted(Emitting(p, taken, k, D.Dequeue(mid, k).value), gone)
  {
    hide D.Dequeue, Emitted, L.Own, LastKey;
    var det := D.Dequeue(mid, k).value;
    L.DequeueLogs(mid, k, k);
    var recs, top := Emitted(mid.gates[k].log, det.gates[k].log), LastKey(det.gates[k].log);
    forall r | 0 <= r < |det.stacks| ensures OnStream(Put(taken.(det := det), p.output[k], recs, top).streams, r) || Queued(det, r) || r in gone {
      PutStays(taken.(det := det), p.output[k], recs, top, r);
      if Queued(mid, r) {
        var d :| d in mid.detrefs && r in mid.detrefs[d].recfifo;
        QueuedOrEmitted(mid, k, d, r);
      }
    }
  }

  // ---------- steps ----------

  /** Except at collectors no record leaves a queue. */
  lemma {:induction false} QueuesStay(det: D.State, step: D.Step)
    requires D.Inv(det) && D.Enabled(det, step) && D.Next(det, step).Some? && !step.Leave? && !step.Notice?
    ensures var det' := D.Next(det, step).value;
      && |det'.gates| == |det.gates|
      && |det'.stacks| == |det.stacks| + (if step.Arrive? || step.Copy? then 1 else 0)
      && forall r :: Queued(det, r) ==> Queued(det', r)
  {
    hide D.Counts, D.Queued, D.Fifos, D.QueueOrder, D.LeaveOk, D.LogOrder, D.Prompt, D.TopKey, D.Refuses, D.Draw;
    D.AllKnown(det);
    var det' := D.Next(det, step).value;
    forall d | d in det.detrefs ensures d in det'.detrefs && det'.detrefs[d].recfifo == det.detrefs[d].recfifo {
    }
    forall r | Queued(det, r) ensures Queued(det', r) {
      var d :| d in det.detrefs && r in det.detrefs[d].recfifo;
      assert d in det'.detrefs && r in det'.detrefs[d].recfifo;
    }
  }

  /** A record goes from one stream to another, or into a stream, while other things happen elsewhere. */
  lemma {:induction false} FlowAccounts(p: Plan, n: Net, step: Step, det: D.State, gone: set<nat>)
    requires Fitting(p, n) && Enabled(p, n, step) && Accounted(n, gone) && |det.gates| == |n.det.gates|
    requires !step.Leave? && !step.Notice?
    requires Inner(p, n, step).None? ==> det == n.det
    requires |det.stacks| == |n.det.stacks| + (if step.Arrive? || step.Copy? then 1 else 0)
    requires forall r :: Queued(n.det, r) ==> Queued(det, r)
    ensures Accounted(Moved(p, n, step, det), gone + DestroyedBy(p, n, step))
  {
    hide Queued;
    var n' := Moved(p, n, step, det);
    assert n'.det == det;
    forall r | 0 <= r < |det.stacks| ensures OnStream(n'.streams, r) || Queued(det, r) || r in gone + DestroyedBy(p, n, step) {
      if r < |n.det.stacks| && OnStream(n.streams, r) {
        StreamStays(p, n, step, det, r);
      } else if r == |n.det.stacks| {
        NewOnStream(p, n, step, det);
      }
    }
  }

  lemma {:induction false} StreamStays(p: Plan, n: Net, step: Step, det: D.State, r: nat)
    requires Fitting(p, n) && Enabled(p, n, step) && |det.gates| == |n.det.gates| && OnStream(n.streams, r)
    requires !step.Leave? && !step.Notice?
    ensures OnStream(Moved(p, n, step, det).streams, r) || r in DestroyedBy(p, n, step)
  {
    hide Taken, Put, Inserted, OnStream, Key;
    match step
    case Arrive(l) => PutStays(n.(det := det), l, [|n.det.stacks|], 0, r);
    case Enter(k) =>
      TakenStays(n, p.input[k], 0, r);
      TakenSame(n, p.input[k], 0, det);
      PutStays(Taken(n, p.input[k], 0).(det := det), p.body[k], [n.streams[p.input[k]][0]], det.gates[k].counter, r);
    case Route(l, m) =>
      TakenStays(n, l, 0, r);
      TakenSame(n, l, 0, det);
      PutStays(Taken(n, l, 0), m, [n.streams[l][0]], Key(n.det, n.streams[l][0]), r);
    case Copy(l, i) => InsertedStays(n.(det := det), l, i, |n.det.stacks|, r);
    case Destroy(l, i) => TakenStays(n, l, i, r);
    case Overtake(l, i) => SwapStays(n, l, i, r);
    case _ =>
  }

  lemma {:induction false} TakenSame(n: Net, l: nat, i: nat, det: D.State)
    requires l < |n.streams| && i < |n.streams[l]|
    ensures |Taken(n, l, i).streams| == |n.streams| && Taken(n, l, i).high == n.high && Taken(n, l, i).det == n.det
  {
  }

  lemma {:induction false} SwapStays(n: Net, l: nat, i: nat, r: nat)
    requires l < |n.streams| && i + 1 < |n.streams[l]| && OnStream(n.streams, r)
    ensures OnStream(n.streams[l := n.streams[l][i := n.streams[l][i + 1]][i + 1 := n.streams[l][i]]], r)
  {
    var m :| 0 <= m < |n.streams| && r in n.streams[m];
    var s' := n.streams[l := n.streams[l][i := n.streams[l][i + 1]][i + 1 := n.streams[l][i]]];
    if m == l { OvertakenStays(n.streams[l], i, r); }
    assert r in s'[m];
  }

  lemma {:induction false} NewOnStream(p: Plan, n: Net, step: Step, det: D.State)
    requires Fitting(p, n) && Enabled(p, n, step) && |det.gates| == |n.det.gates| && (step.Arrive? || step.Copy?)
    ensures OnStream(Moved(p, n, step, det).streams, |n.det.stacks|)
  {
    hide Put, Inserted, OnStream;
    if step.Arrive? {
      PutStays(n.(det := det), step.stream, [|n.det.stacks|], 0, |n.det.stacks|);
    } else {
      InsertedStays(n.(det := det), step.stream, step.at, |n.det.stacks|, |n.det.stacks|);
    }
  }

  lemma {:induction false} LeavesKnown(det: D.State)
    requires D.Inv(det)
    ensures forall d :: d in det.detrefs ==> det.detrefs[d].leave < |det.gates|
  {
    hide D.Stacks, D.Counts, D.Queued, D.QueueOrder, D.LeaveOk, D.LogOrder, D.Prompt, D.FifoOk;
  }

  /** The record that leaves is queued first. */
  lemma {:induction false} LeaveAccounts(p: Plan, n: Net, l: nat, gone: set<nat>)
    requires Inv(p, {}, n) && Enabled(p, n, Leave(l)) && Next(p, n, Leave(l)).Some? && Accounted(n, gone)
    ensures Accounted(Next(p, n, Leave(l)).value, gone)
  {
    hide D.Inv, D.Dequeue, Placed, Homes, Ordered, Entries, Emitted, LastKey, L.Own;
    var r, k := n.streams[l][0], p.owner[l].value;
    var mid, taken := D.Queueing(n.det, r), Taken(n, l, 0);
    LeavesKnown(n.det);
    L.FifoOwn(n.det, k);
    QueueingOwn(n.det, k, r);
    L.DequeueLogs(mid, k, k);
    forall x | 0 <= x < |mid.stacks| ensures OnStream(taken.streams, x) || Queued(mid, x) || x in gone {
      QueueingQueued(n.det, r, x);
      if OnStream(n.streams, x) { TakenStays(n, l, 0, x); }
    }
    CollectorAccounts(p, taken, k, mid, gone);
  }

  lemma {:induction false} QueueingOwn(det: D.State, k: nat, r: nat)
    requires k < |det.gates| && L.Own(det, k) && r < |det.stacks| && det.stacks[r] != [] && det.stacks[r][0] in det.detrefs
    ensures L.Own(D.Queueing(det, r), k)
  {
  }

  lemma {:induction false} QueueingQueued(det: D.State, r: nat, x: nat)
    requires r < |det.stacks| && det.stacks[r] != [] && det.stacks[r][0] in det.detrefs
    ensures Queued(det, x) || x == r ==> Queued(D.Queueing(det, r), x)
  {
    var mid := D.Queueing(det, r);
    if Queued(det, x) {
      var d :| d in det.detrefs && x in det.detrefs[d].recfifo;
      assert x in mid.detrefs[d].recfifo;
    } else if x == r {
      assert x in mid.detrefs[det.stacks[r][0]].recfifo;
    }
  }

  lemma {:induction false} NoticeAccounts(p: Plan, n: Net, k: nat, gone: set<nat>)
    requires Inv(p, {}, n) && Enabled(p, n, Notice(k)) && Next(p, n, Notice(k)).Some? && Accounted(n, gone)
    ensures Accounted(Next(p, n, Notice(k)).value, gone)
  {
    hide D.Inv, D.Dequeue, Placed, Homes, Ordered, Entries, Emitted, LastKey, Queued, OnStream;
    var mid := n.det.(notices := n.det.notices - multiset{k});
    LeavesKnown(n.det);
    L.FifoOwn(n.det, k);
    L.DequeueLogs(mid, k, k);
    forall x ensures Queued(n.det, x) ==> Queued(mid, x) { SameQueues(n.det, mid, x); }
    CollectorAccounts(p, n, k, mid, gone);
  }

  lemma {:induction false} SameQueues(a: D.State, b: D.State, x: nat)
    requires a.detrefs == b.detrefs
    ensures Queued(a, x) ==> Queued(b, x)
  {
  }

  lemma {:induction false} StepAccounts(p: Plan, n: Net, step: Step, gone: set<nat>)
    requires Inv(p, {}, n) && Enabled(p, n, step) && Next(p, n, step).Some? && Accounted(n, gone)
    ensures Accounted(Next(p, n, step).value, gone + DestroyedBy(p, n, step))
  {
    hide D.Inv, Placed, Homes, Ordered, Entries, Accounted, D.Next, D.Enabled, Moved, Queued;
    if step.Leave? {
      LeaveAccounts(p, n, step.stream, gone);
      assert gone + {} == gone;
    } else if step.Notice? {
      NoticeAccounts(p, n, step.gate, gone);
      assert gone + {} == gone;
    } else if Inner(p, n, step).None? {
      FlowAccounts(p, n, step, n.det, gone);
    } else {
      var inner := Inner(p, n, step).value;
      QueuesStay(n.det, inner);
      FlowAccounts(p, n, step, D.Next(n.det, inner).value, gone);
    }
  }

  lemma {:induction false} RunAccounts(p: Plan, n: Net, steps: seq<Step>, gone: set<nat>)
    requires Inv(p, {}, n) && Feasible(p, n, steps) && Run(p, n, steps).Some? && Accounted(n, gone)
    ensures Accounted(Run(p, n, steps).value, gone + DestroyedIn(p, n, steps))
    decreases |steps|
  {
    hide D.Inv, Lanes, Accounted, Next, Enabled, DestroyedBy, Disturbs;
    if |steps| > 0 {
      var n' := Next(p, n, steps[0]).value;
      NothingCalm(p, n, steps);
      StepKeepsInv(p, {}, n, steps[0]);
      StepAccounts(p, n, steps[0], gone);
      RunAccounts(p, n', steps[1..], gone + DestroyedBy(p, n, steps[0]));
      assert gone + DestroyedBy(p, n, steps[0]) + DestroyedIn(p, n', steps[1..]) == gone + DestroyedIn(p, n, steps);
    } else {
      assert gone + {} == gone;
    }
  }

  /** On every run, whatever overtakes: each record that has come in or was created is on a
      stream or queued at a collector, in one place only, unless a box or filter destroyed it. */
  lemma {:induction false} EachHasItsPlace(p: Plan, n: Net, steps: seq<Step>)
    requires Initial(p, n) && Feasible(p, n, steps) && Run(p, n, steps).Some?
    ensures Accounted(Run(p, n, steps).value, DestroyedIn(p, n, steps))
    ensures Placed(Run(p, n, steps).value.det, Run(p, n, steps).value.streams)
  {
    hide D.Inv, Feasible, Run, DestroyedIn, Homes, Ordered, Entries, Placed, LowerIn, DisturbsIn;
    InitialInv(p, {}, n);
    NothingCalm(p, n, steps);
    RunKeepsInv(p, {}, n, steps);
    assert Accounted(n, {});
    RunAccounts(p, n, steps, {});
    assert {} + DestroyedIn(p, n, steps) == DestroyedIn(p, n, steps);
  }
}
