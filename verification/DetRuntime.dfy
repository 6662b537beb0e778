/** The functions that keep detrefs, over the detrefs, records and gates they update. */
module DetRuntime {
  import opened Options
  import opened Determinism

  class Runtime {
    var detrefs: map<nat, Detref>
    var next: nat
    var stacks: seq<seq<nat>>
    var gates: seq<Gate>
    var closing: set<nat>
    var notices: multiset<nat>

    ghost function Sys(): State
      reads this
    {
      State(detrefs, next, stacks, gates, closing, notices)
    }

    ghost predicate Valid()
      reads this
    {
      Inv(Sys())
    }

    /** Copy the stack of detrefs to a new record. */
    method RecDetrefCopy(r: nat)
      requires Valid() && Live(Sys(), r)
      modifies this
      ensures Valid() && Next(old(Sys()), Copy(r)) == Some(Sys())
      ensures stacks == old(stacks) + [old(stacks)[r]]
      ensures detrefs.Keys == old(detrefs).Keys
      ensures forall d :: d in detrefs ==> detrefs[d].refcount == old(detrefs)[d].refcount + (if d in old(stacks)[r] then 1 else 0)
    {
      hide Inv, Holders;
      ghost var was := Sys();
      CopyKeeps(was, r);
      StackInUse(was, r);
      var stack := stacks[r];
      var i := 0;
      while i < |stack|
        invariant i <= |stack|
        invariant detrefs == Counted(was.detrefs, stack[..i])
        invariant stacks == was.stacks && next == was.next && gates == was.gates
        invariant closing == was.closing && notices == was.notices
      {
        CountedStep(was.detrefs, stack, i);
        detrefs := detrefs[stack[i] := detrefs[stack[i]].(refcount := detrefs[stack[i]].refcount + 1)];
        i := i + 1;
      }
      assert stack[..|stack|] == stack;
      stacks := stacks + [stack];
    }

    /** Give up all detrefs of a record that is destroyed, from the top. The collector is
        told about each detref whose last holder this was. */
    method RecDetrefDestroy(r: nat) returns (ghost steps: seq<Step>)
      requires Valid() && Live(Sys(), r)
      modifies this
      ensures Valid() && Live(Sys(), r) && stacks[r] == []
      ensures Feasible(old(Sys()), steps) && Run(old(Sys()), steps) == Some(Sys())
    {
      hide Inv, Next, Enabled, Live;
      steps := [];
      LiveIsRecord(Sys(), r);
      while stacks[r] != []
        invariant Valid() && Live(Sys(), r) && r < |stacks|
        invariant Feasible(old(Sys()), steps) && Run(old(Sys()), steps) == Some(Sys())
        decreases if r < |stacks| then |stacks[r]| else 0
      {
        ghost var more := DropTop(r);
        RunFurther(old(Sys()), steps, more);
        steps := steps + more;
      }
    }

    /** Pop one detref off a record and count it down, to zero if this was its last holder. */
    method DropTop(r: nat) returns (ghost steps: seq<Step>)
      requires Valid() && Live(Sys(), r) && r < |stacks| && stacks[r] != []
      modifies this
      ensures Valid() && Live(Sys(), r) && r < |stacks| && stacks[r] == old(stacks)[r][1..]
      ensures Feasible(old(Sys()), steps) && Run(old(Sys()), steps) == Some(Sys())
      ensures var d := old(stacks)[r][0];
        && d in old(detrefs) && d in detrefs
        && (var last := old(detrefs)[d].refcount == 2;
          && detrefs[d].refcount == (if last then 0 else old(detrefs)[d].refcount - 1)
          && notices == (if last then old(notices) + multiset{old(detrefs)[d].leave} else old(notices)))
      ensures closing == old(closing)
    {
      hide Inv, Holders;
      ghost var was := Sys();
      DropKeeps(was, r);
      TopNotClosing(was, r);
      var d := stacks[r][0];
      stacks := stacks[r := stacks[r][1..]];
      detrefs := detrefs[d := detrefs[d].(refcount := detrefs[d].refcount - 1)];
      steps := [Drop(r)];
      if detrefs[d].refcount == 1 {
        closing := closing + {d};
        ghost var mid := Sys();
        assert Next(was, Drop(r)) == Some(mid);
        CloseKeeps(mid, d);
        // the announcement names the collector, then the last count goes
        var leave := detrefs[d].leave;
        detrefs := detrefs[d := detrefs[d].(refcount := 0)];
        closing := closing - {d};
        notices := notices + multiset{leave};
        steps := [Drop(r)] + [Close(d)];
        assert Next(mid, Close(d)) == Some(Sys());
        OneStep(mid, Close(d));
        OneStep(was, Drop(r));
        RunFurther(was, [Drop(r)], [Close(d)]);
      } else {
        assert Next(was, Drop(r)) == Some(Sys());
        OneStep(was, Drop(r));
      }
    }

    /** Number a record that enters a network, and announce its detref to the collector; not ok
        where the code stops with a fatal error or a failing assertion. */
    method DetEnter(k: nat, r: nat) returns (ok: bool)
      requires Valid() && Enabled(Sys(), Enter(k, r))
      modifies this
      ensures Valid() && Next(old(Sys()), Enter(k, r)) == (if ok then Some(Sys()) else None)
      ensures !ok ==> Sys() == old(Sys())
      ensures ok ==> stacks == old(stacks)[r := [old(next)] + old(stacks)[r]]
      ensures ok ==> old(next) in detrefs && detrefs[old(next)].refcount == 2 && detrefs[old(next)].leave == k
      ensures ok ==> (
        var another := old(gates)[k].isDet || TopKey(old(detrefs), old(stacks)[r]) != old(gates)[k].outer;
        detrefs[old(next)].seqnr == old(gates)[k].counter + if another then 1 else 0)
      ensures ok <==> old(gates)[k].isDet || (old(stacks)[r] != [] && TopKey(old(detrefs), old(stacks)[r]) >= old(gates)[k].outer)
    {
      hide Inv, Live;
      LiveRecord(Sys(), k, r);
      var g := gates[k];
      if !g.isDet && stacks[r] == [] {
        return false;
      }
      var key := TopKey(detrefs, stacks[r]);
      if !g.isDet && key < g.outer {
        return false;
      }
      EnterKeeps(Sys(), k, r);
      ok := true;
      if g.isDet {
        g := g.(counter := g.counter + 1);
      } else if key != g.outer {
        g := g.(outer := key);
        g := g.(counter := g.counter + 1);
      }
      g := g.(lastKey := key, inOrder := g.inOrder && g.lastKey <= key);
      detrefs := detrefs[next := Detref(g.counter, k, 2, [], stacks[r], key)];
      stacks := stacks[r := [next] + stacks[r]];
      gates := gates[k := g.(detfifo := g.detfifo + [next])];
      next := next + 1;
    }

    /** Forward the queued records of a detref, oldest first. */
    method ForwardQueued(k: nat, d: nat)
      requires k < |gates| && d in detrefs
      modifies this`detrefs, this`gates
      ensures Sys() == Flush(old(Sys()), k, d)
    {
      var x, log := Drain(d, detrefs[d], gates[k].log);
      detrefs := detrefs[d := x];
      gates := gates[k := gates[k].(log := log)];
    }

    /** Take the records out of a detref's queue one by one. */
    static method Drain(d: nat, detref: Detref, before: seq<Emission>) returns (x: Detref, log: seq<Emission>)
      ensures x == detref.(recfifo := [])
      ensures log == before + Emissions(d, detref, detref.recfifo)
    {
      x, log := detref, before;
      while x.recfifo != []
        invariant x == detref.(recfifo := x.recfifo)
        invariant log + Emissions(d, detref, x.recfifo) == before + Emissions(d, detref, detref.recfifo)
        decreases |x.recfifo|
      {
        var rec := x.recfifo[0];
        x := x.(recfifo := x.recfifo[1..]);
        log := log + [Emission(d, x.seqnr, x.key, rec)];
      }
      assert log + [] == log;
    }

    /** Output what may go, in the order of the sequence numbers, and free what is done. */
    method LeaveDequeue(k: nat)
      requires k < |gates| && FifoOk(Sys(), k) && Dequeue(Sys(), k).Some?
      modifies this`detrefs, this`gates
      ensures Dequeue(old(Sys()), k) == Some(Sys())
    {
      hide Inv, Flush;
      while gates[k].detfifo != []
        invariant k < |gates| && FifoOk(Sys(), k)
        invariant Dequeue(old(Sys()), k) == Dequeue(Sys(), k) && Dequeue(Sys(), k).Some?
        decreases |gates[k].detfifo|
      {
        var d := gates[k].detfifo[0];
        ghost var before := Sys();
        // here the sequence number is at least the leave counter
        if detrefs[d].seqnr != gates[k].leaveCounter {
          gates := gates[k := gates[k].(leaveCounter := detrefs[d].seqnr)];
        }
        assert Sys().gates == Advance(before, k, d).gates;
        ghost var advanced := Sys();
        ForwardQueued(k, d);
        FlushSame(advanced, k, d);
        if detrefs[d].refcount == 0 {
          gates := gates[k := gates[k].(detfifo := gates[k].detfifo[1..])];
          detrefs := detrefs - {d};
        } else {
          ForwardEqual(k, detrefs[d].seqnr);
          return;
        }
      }
    }

    /** Forward what is queued in the following detrefs while their number is the same. */
    method ForwardEqual(k: nat, seqnr: nat)
      requires k < |gates| && FifoOk(Sys(), k)
      modifies this`detrefs, this`gates
      ensures Sys() == FlushEqual(old(Sys()), k, 1, seqnr)
    {
      hide Flush;
      var i := 1;
      while i < |gates[k].detfifo| && detrefs[gates[k].detfifo[i]].seqnr == seqnr
        invariant k < |gates| && 1 <= i
        invariant FifoOk(Sys(), k)
        invariant FlushEqual(old(Sys()), k, 1, seqnr) == FlushEqual(Sys(), k, i, seqnr)
        decreases |gates[k].detfifo| - i
      {
        FlushSame(Sys(), k, gates[k].detfifo[i]);
        ForwardQueued(k, gates[k].detfifo[i]);
        i := i + 1;
      }
    }

    /** A record leaves the network: it queues with its detref, and what may go goes. */
    method LeaveRec(k: nat, r: nat)
      requires Valid() && Enabled(Sys(), Leave(k, r))
      modifies this
      ensures Valid() && Next(old(Sys()), Leave(k, r)) == Some(Sys())
      ensures stacks == old(stacks)[r := old(stacks)[r][1..]]
    {
      hide Inv, Dequeue, Live, Holders;
      ghost var was := Sys();
      LeaveKeeps(was, k, r);
      LiveLeaving(was, k, r);
      var d := stacks[r][0];
      stacks := stacks[r := stacks[r][1..]];
      detrefs := detrefs[d := detrefs[d].(recfifo := detrefs[d].recfifo + [r])];
      detrefs := detrefs[d := detrefs[d].(refcount := detrefs[d].refcount - 1)];
      if detrefs[d].refcount == 1 {
        detrefs := detrefs[d := detrefs[d].(refcount := detrefs[d].refcount - 1)];
      }
      assert Sys() == Queueing(was, r);
      QueueThere(was, Sys(), k);
      LeaveDequeue(k);
    }

    /** The announcement that a detref is no longer in use reaches its collector. */
    method DetrefNotice(k: nat)
      requires Valid() && Enabled(Sys(), Notice(k))
      modifies this
      ensures Valid() && Next(old(Sys()), Notice(k)) == Some(Sys())
    {
      hide Inv, Dequeue;
      NoticeKeeps(Sys(), k);
      ghost var was := Sys();
      notices := notices - multiset{k};
      QueueThere(was, Sys(), k);
      LeaveDequeue(k);
    }
  }

  lemma {:induction false} OneStep(s: State, step: Step)
    requires Enabled(s, step) && Next(s, step).Some?
    ensures Feasible(s, [step]) && Run(s, [step]) == Next(s, step)
  {
    assert [step][1..] == [];
  }

  lemma {:induction false} LiveRecord(s: State, k: nat, r: nat)
    requires Enabled(s, Enter(k, r))
    ensures k < |s.gates| && r < |s.stacks|
  {
  }

  lemma {:induction false} LiveLeaving(s: State, k: nat, r: nat)
    requires Enabled(s, Leave(k, r))
    ensures k < |s.gates| && r < |s.stacks| && s.stacks[r] != []
  {
  }

  lemma {:induction false} QueueThere(s: State, s': State, k: nat)
    requires Inv(s) && k < |s.gates| && SameNumbers(s, s')
    ensures FifoOk(s', k)
  {
    assert FifoOk(s, k);
  }

  /** Forwarding leaves numbers, counts and positions alone. */
  lemma {:induction false} FlushSame(s: State, k: nat, d: nat)
    requires k < |s.gates| && d in s.detrefs
    ensures var s' := Flush(s, k, d);
      && s'.detrefs.Keys == s.detrefs.Keys && |s'.gates| == |s.gates| && s'.gates[k].detfifo == s.gates[k].detfifo
      && (FifoOk(s, k) ==> FifoOk(s', k))
      && s'.detrefs[d].refcount == s.detrefs[d].refcount && s'.detrefs[d].seqnr == s.detrefs[d].seqnr
  {
  }

  lemma {:induction false} StackInUse(s: State, r: nat)
    requires Inv(s) && r < |s.stacks|
    ensures forall i :: 0 <= i < |s.stacks[r]| ==> s.stacks[r][i] in s.detrefs
    ensures forall i, j :: 0 <= i < j < |s.stacks[r]| ==> s.stacks[r][i] != s.stacks[r][j]
  {
    forall i, j | 0 <= i < j < |s.stacks[r]| ensures s.stacks[r][i] != s.stacks[r][j] {
      assert DetrefOk(s, s.stacks[r][i]);
      assert s.stacks[r][i + 1..][j - i - 1] == s.stacks[r][j];
    }
  }

  lemma {:induction false} CountedStep(detrefs: map<nat, Detref>, stack: seq<nat>, i: nat)
    requires i < |stack| && stack[i] in detrefs && stack[i] !in stack[..i]
    ensures var c := Counted(detrefs, stack[..i]);
      stack[i] in c && Counted(detrefs, stack[..i + 1]) == c[stack[i] := c[stack[i]].(refcount := c[stack[i]].refcount + 1)]
  {
    assert stack[..i + 1] == stack[..i] + [stack[i]];
  }

  lemma {:induction false} LiveIsRecord(s: State, r: nat)
    requires Live(s, r)
    ensures r < |s.stacks|
  {
  }

  /** One run after another. */
  lemma {:induction false} RunFurther(s: State, steps: seq<Step>, more: seq<Step>)
    requires Feasible(s, steps) && Run(s, steps).Some? && Feasible(Run(s, steps).value, more)
    ensures Feasible(s, steps + more) && Run(s, steps + more) == Run(Run(s, steps).value, more)
    decreases |steps|
  {
    if |steps| == 0 {
      assert steps + more == more;
    } else {
      assert (steps + more)[1..] == steps[1..] + more;
      RunFurther(Next(s, steps[0]).value, steps[1..], more);
    }
  }

  /** While a record holds a detref, no last holder is about to announce it. */
  lemma {:induction false} TopNotClosing(s: State, r: nat)
    requires Inv(s) && Live(s, r) && r < |s.stacks| && s.stacks[r] != []
    ensures s.stacks[r][0] in s.detrefs && s.stacks[r][0] !in s.closing
  {
    hide QueueOrder, LeaveOk, LogOrder, Prompt, Queued, Fifos;
    HeldInUse(s, r, 0);
    HoldersHas(s.stacks, r, s.stacks[r][0]);
    assert CountOk(s, s.stacks[r][0]);
  }
}
