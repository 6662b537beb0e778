/** What collectors do with the records that reach them: each one is queued, and then emitted,
    once, in the order in which the records of its detref have come. */
module DetDelivery {
  import opened Options
  import opened Determinism

  /** The records that a log has for a detref. */
  function OfDetref(log: seq<Emission>, d: nat): seq<nat> {
    if log == [] then []
    else OfDetref(log[..|log| - 1], d) + if log[|log| - 1].detref == d then [log[|log| - 1].rec] else []
  }

  /** The records that have reached collector k with detref d: emitted, or still queued. */
  function Through(s: State, k: nat, d: nat): seq<nat>
    requires k < |s.gates|
  {
    OfDetref(s.gates[k].log, d) + if d in s.detrefs && s.detrefs[d].leave == k then s.detrefs[d].recfifo else []
  }

  /** The record that a step brings to collector k with detref d. */
  ghost function Brings(s: State, step: Step, k: nat, d: nat): seq<nat>
    requires Enabled(s, step)
  {
    if step.Leave? && step.gate == k && s.stacks[step.rec][0] == d then [step.rec] else []
  }

  /** All that the steps bring there, in their order. */
  ghost function Brought(s: State, steps: seq<Step>, k: nat, d: nat): seq<nat>
    requires Feasible(s, steps)
    decreases |steps|
  {
    if |steps| == 0 then []
    else
      Brings(s, steps[0], k, d) +
      if Next(s, steps[0]).Some? then Brought(Next(s, steps[0]).value, steps[1..], k, d) else []
  }

  lemma {:induction false} OfDetrefAppend(a: seq<Emission>, b: seq<Emission>, d: nat)
    ensures OfDetref(a + b, d) == OfDetref(a, d) + OfDetref(b, d)
    decreases |b|
  {
    if b == [] {
      assert a + b == a;
    } else {
      assert (a + b)[..|a + b| - 1] == a + b[..|b| - 1];
      OfDetrefAppend(a, b[..|b| - 1], d);
    }
  }

  lemma {:induction false} OfDetrefEmissions(e: nat, x: Detref, recs: seq<nat>, n: nat, d: nat)
    requires n <= |recs|
    ensures OfDetref(Emissions(e, x, recs)[..n], d) == if e == d then recs[..n] else []
  {
    if n > 0 {
      OfDetrefEmissions(e, x, recs, n - 1, d);
      assert Emissions(e, x, recs)[..n][..n - 1] == Emissions(e, x, recs)[..n - 1];
      assert recs[..n] == recs[..n - 1] + [recs[n - 1]];
    }
  }

  /** The detrefs in the queue of a collector are its own. */
  ghost predicate Own(s: State, k: nat)
    requires k < |s.gates|
  {
    forall i :: 0 <= i < |s.gates[k].detfifo| && s.gates[k].detfifo[i] in s.detrefs ==> s.detrefs[s.gates[k].detfifo[i]].leave == k
  }

  /** Forwarding moves records from a queue to the log. */
  lemma {:induction false} FlushMoves(s: State, k: nat, e: nat, m: nat, d: nat)
    requires k < |s.gates| && m < |s.gates| && e in s.detrefs && s.detrefs[e].leave == k && Own(s, k)
    ensures var s' := Flush(s, k, e);
      && |s'.gates| == |s.gates| && Through(s', m, d) == Through(s, m, d)
      && Own(s', k) && s'.gates[k].detfifo == s.gates[k].detfifo && s'.detrefs.Keys == s.detrefs.Keys
      && s'.detrefs[e].recfifo == [] && s'.detrefs[e].leave == k
  {
    hide Emissions;
    var x := s.detrefs[e];
    var es := Emissions(e, x, x.recfifo);
    OfDetrefAppend(s.gates[k].log, es, d);
    OfDetrefEmissions(e, x, x.recfifo, |x.recfifo|, d);
    assert es[..|x.recfifo|] == es && x.recfifo[..|x.recfifo|] == x.recfifo;
  }

  lemma {:induction false} AdvanceMoves(s: State, k: nat, e: nat, m: nat, d: nat)
    requires k < |s.gates| && m < |s.gates| && e in s.detrefs && Own(s, k)
    ensures var s' := Advance(s, k, e);
      && |s'.gates| == |s.gates| && Through(s', m, d) == Through(s, m, d)
      && Own(s', k) && s'.gates[k].detfifo == s.gates[k].detfifo && s'.detrefs == s.detrefs
  {
    hide OfDetref;
  }

  lemma {:induction false} FreeMoves(s: State, k: nat, m: nat, d: nat)
    requires k < |s.gates| && m < |s.gates| && s.gates[k].detfifo != [] && Own(s, k)
    requires s.gates[k].detfifo[0] in s.detrefs && s.detrefs[s.gates[k].detfifo[0]].recfifo == []
    ensures var s' := Free(s, k, s.gates[k].detfifo[0]);
      |s'.gates| == |s.gates| && Through(s', m, d) == Through(s, m, d) && Own(s', k)
  {
    hide OfDetref;
  }

  lemma {:induction false} FlushEqualMoves(s: State, k: nat, i: nat, seqnr: nat, m: nat, d: nat)
    requires k < |s.gates| && m < |s.gates| && Own(s, k)
    ensures Through(FlushEqual(s, k, i, seqnr), m, d) == Through(s, m, d)
    decreases |s.gates[k].detfifo| - i
  {
    hide Through, Own, Flush;
    var q := s.gates[k].detfifo;
    if i < |q| && q[i] in s.detrefs && s.detrefs[q[i]].seqnr == seqnr {
      assert s.detrefs[q[i]].leave == k by { OwnAt(s, k, i); }
      FlushMoves(s, k, q[i], m, d);
      FlushEqualMoves(Flush(s, k, q[i]), k, i + 1, seqnr, m, d);
    }
  }

  lemma {:induction false} OwnAt(s: State, k: nat, i: nat)
    requires k < |s.gates| && Own(s, k) && i < |s.gates[k].detfifo| && s.gates[k].detfifo[i] in s.detrefs
    ensures s.detrefs[s.gates[k].detfifo[i]].leave == k
  {
  }

  /** Whatever dequeuing forwards and frees, no record is lost, doubled or overtaken. */
  lemma {:induction false} DequeueMoves(s: State, k: nat, m: nat, d: nat)
    requires k < |s.gates| && m < |s.gates| && Own(s, k) && Dequeue(s, k).Some?
    ensures |Dequeue(s, k).value.gates| == |s.gates| && Through(Dequeue(s, k).value, m, d) == Through(s, m, d)
    decreases |s.gates[k].detfifo|
  {
    hide Through, Own, Flush, Advance, Free, FlushEqual;
    var q := s.gates[k].detfifo;
    if q != [] {
      OwnAt(s, k, 0);
      AdvanceMoves(s, k, q[0], m, d);
      var s0 := Advance(s, k, q[0]);
      FlushMoves(s0, k, q[0], m, d);
      var s1 := Flush(s0, k, q[0]);
      if s1.detrefs[q[0]].refcount == 0 {
        FreeMoves(s1, k, m, d);
        FreeShorter(s1, k);
        DequeueMoves(Free(s1, k, q[0]), k, m, d);
      } else {
        FlushEqualMoves(s1, k, 1, s1.detrefs[q[0]].seqnr, m, d);
      }
    }
  }

  /** Logs only grow, and only the collector's own one. */
  lemma {:induction false} FlushEqualLogs(s: State, k: nat, i: nat, seqnr: nat, m: nat)
    requires k < |s.gates| && m < |s.gates|
    ensures FlushEqual(s, k, i, seqnr).stacks == s.stacks
    ensures s.gates[m].log <= FlushEqual(s, k, i, seqnr).gates[m].log
    ensures m != k ==> FlushEqual(s, k, i, seqnr).gates[m].log == s.gates[m].log
    decreases |s.gates[k].detfifo| - i
  {
    hide Emissions;
    var q := s.gates[k].detfifo;
    if i < |q| && q[i] in s.detrefs && s.detrefs[q[i]].seqnr == seqnr {
      FlushEqualLogs(Flush(s, k, q[i]), k, i + 1, seqnr, m);
    }
  }

  lemma {:induction false} DequeueLogs(s: State, k: nat, m: nat)
    requires k < |s.gates| && m < |s.gates| && Dequeue(s, k).Some?
    ensures var s' := Dequeue(s, k).value;
      && |s'.gates| == |s.gates| && s'.stacks == s.stacks && s.gates[m].log <= s'.gates[m].log
      && (m != k ==> s'.gates[m].log == s.gates[m].log)
    decreases |s.gates[k].detfifo|
  {
    hide Emissions, FlushEqual;
    var q := s.gates[k].detfifo;
    if q != [] {
      var s1 := Flush(Advance(s, k, q[0]), k, q[0]);
      if s1.detrefs[q[0]].refcount == 0 {
        DequeueLogs(Free(s1, k, q[0]), k, m);
      } else {
        FlushEqualLogs(s1, k, 1, s1.detrefs[q[0]].seqnr, m);
      }
    }
  }

  lemma {:induction false} FifoOwn(s: State, k: nat)
    requires Inv(s) && k < |s.gates|
    ensures Own(s, k)
  {
    hide Stacks, Counts, Queued, QueueOrder, LeaveOk, LogOrder, Prompt;
    assert FifoOk(s, k);
  }

  /** The record joins the queue of its detref. */
  lemma {:induction false} LeaveMoves(s: State, k: nat, r: nat, m: nat, d: nat)
    requires Inv(s) && Enabled(s, Leave(k, r)) && Next(s, Leave(k, r)).Some? && m < |s.gates|
    ensures |Next(s, Leave(k, r)).value.gates| == |s.gates|
    ensures Through(Next(s, Leave(k, r)).value, m, d) == Through(s, m, d) + Brings(s, Leave(k, r), m, d)
  {
    hide Inv, Dequeue, OfDetref;
    FifoOwn(s, k);
    var mid := Queueing(s, r);
    DequeueMoves(mid, k, m, d);
  }

  lemma {:induction false} EnterMoves(s: State, k: nat, r: nat, m: nat, d: nat)
    requires Inv(s) && Enabled(s, Enter(k, r)) && !Refuses(s, k, r) && m < |s.gates|
    ensures Through(Entering(s, k, r), m, d) == Through(s, m, d)
  {
    hide Counts, Queued, Fifos, QueueOrder, LeaveOk, LogOrder, Prompt, OfDetref, TopKey, Refuses;
    AllKnown(s);
  }

  lemma {:induction false} OtherMoves(s: State, step: Step, m: nat, d: nat)
    requires Enabled(s, step) && Next(s, step).Some? && m < |s.gates|
    requires !step.Enter? && !step.Leave? && !step.Notice?
    ensures |Next(s, step).value.gates| == |s.gates|
    ensures Through(Next(s, step).value, m, d) == Through(s, m, d)
  {
    hide OfDetref;
  }

  lemma {:induction false} StepMoves(s: State, step: Step, m: nat, d: nat)
    requires Inv(s) && Enabled(s, step) && Next(s, step).Some? && m < |s.gates|
    ensures |Next(s, step).value.gates| == |s.gates|
    ensures Through(Next(s, step).value, m, d) == Through(s, m, d) + Brings(s, step, m, d)
  {
    hide Inv, Dequeue, Through, Refuses, Entering;
    match step
    case Enter(k, r) => EnterMoves(s, k, r, m, d); EnterGates(s, k, r);
    case Leave(k, r) => LeaveMoves(s, k, r, m, d);
    case Notice(k) => NoticeMoves(s, k, m, d);
    case _ => OtherMoves(s, step, m, d);
  }

  lemma {:induction false} EnterGates(s: State, k: nat, r: nat)
    requires k < |s.gates| && r < |s.stacks|
    ensures |Entering(s, k, r).gates| == |s.gates|
  {
  }

  lemma {:induction false} NoticeMoves(s: State, k: nat, m: nat, d: nat)
    requires Inv(s) && Enabled(s, Notice(k)) && Next(s, Notice(k)).Some? && m < |s.gates|
    ensures |Next(s, Notice(k)).value.gates| == |s.gates|
    ensures Through(Next(s, Notice(k)).value, m, d) == Through(s, m, d)
  {
    hide Inv, Dequeue, OfDetref;
    FifoOwn(s, k);
    DequeueMoves(s.(notices := s.notices - multiset{k}), k, m, d);
  }

  /** On every run, for every collector and detref: what has been emitted for the detref and
      what is queued with it are the records that have left with it, each one once, in their
      order. */
  lemma {:induction false} Delivered(s: State, steps: seq<Step>, k: nat, d: nat)
    requires Inv(s) && Feasible(s, steps) && k < |s.gates| && Run(s, steps).Some?
    ensures |Run(s, steps).value.gates| == |s.gates|
    ensures Through(Run(s, steps).value, k, d) == Through(s, k, d) + Brought(s, steps, k, d)
    decreases |steps|
  {
    hide Inv, Next, Enabled, Through, Brings;
    if |steps| > 0 {
      StepMoves(s, steps[0], k, d);
      StepKeepsInv(s, steps[0]);
      Delivered(Next(s, steps[0]).value, steps[1..], k, d);
    }
  }

  /** So from the start, when no record is under way in the network any more, the log has just
      these records. */
  lemma {:induction false} AllEmitted(s: State, steps: seq<Step>, k: nat, d: nat)
    requires Initial(s) && Feasible(s, steps) && k < |s.gates| && Run(s, steps).Some?
    ensures |Run(s, steps).value.gates| == |s.gates|
    ensures Brought(s, steps, k, d) == Through(Run(s, steps).value, k, d)
    ensures var s' := Run(s, steps).value;
      (s'.closing == {} && k !in s'.notices
        && forall i :: 0 <= i < |s'.gates[k].detfifo| ==> Holders(s'.stacks, s'.gates[k].detfifo[i]) == 0) ==>
      OfDetref(s'.gates[k].log, d) == Brought(s, steps, k, d)
  {
    hide Inv, Next, Enabled, Feasible, Run, Brought, Holders;
    InitialInv(s);
    Delivered(s, steps, k, d);
    assert OfDetref([], d) == [];
    var s' := Run(s, steps).value;
    if s'.closing == {} && k !in s'.notices
       && forall i :: 0 <= i < |s'.gates[k].detfifo| ==> Holders(s'.stacks, s'.gates[k].detfifo[i]) == 0 {
      NothingStuck(s, steps, k);
    }
  }
}
