/** Sequence numbers and reference counts that restore input order at collectors,
    for deterministic networks nested to any depth. */
module Determinism {
  import opened Options

  /** A detref: the ticket a record draws when it enters a network. `under` is the stack
      of the record at that moment, `key` the sequence number on its top (0 if none). */
  datatype Detref = Detref(seqnr: nat, leave: nat, refcount: int, recfifo: seq<nat>, under: seq<nat>, key: nat)

  /** A record that has left the collector: the detref it gave up there. */
  datatype Emission = Emission(detref: nat, seqnr: nat, key: nat, rec: nat)

  /** The entry and the collector of one network. `isDet` tells a deterministic network
      from one that supports the determinism of an outer network. `inOrder` tells whether
      the keys have come in order so far. */
  datatype Gate = Gate(
    isDet: bool, counter: nat, outer: nat, detfifo: seq<nat>, leaveCounter: nat,
    log: seq<Emission>, lastKey: nat, inOrder: bool)

  /** All detrefs by identity, the stacks of all records (top first), the gates, the
      detrefs whose last holder is about to announce it, and the announcements under way. */
  datatype State = State(
    detrefs: map<nat, Detref>, next: nat, stacks: seq<seq<nat>>, gates: seq<Gate>,
    closing: set<nat>, notices: multiset<nat>)

  // ---------- emitting ----------

  function Emissions(d: nat, x: Detref, recs: seq<nat>): (es: seq<Emission>)
    ensures |es| == |recs|
    ensures forall i :: 0 <= i < |es| ==> es[i] == Emission(d, x.seqnr, x.key, recs[i])
  {
    if |recs| == 0 then [] else [Emission(d, x.seqnr, x.key, recs[0])] + Emissions(d, x, recs[1..])
  }

  /** Forward the queued records of one detref. */
  function Flush(s: State, k: nat, d: nat): State
    requires k < |s.gates| && d in s.detrefs
  {
    var x := s.detrefs[d];
    var g := s.gates[k];
    s.(detrefs := s.detrefs[d := x.(recfifo := [])],
       gates := s.gates[k := g.(log := g.log + Emissions(d, x, x.recfifo))])
  }

  /** Keep the leave counter at the sequence number of the first detref. */
  function Advance(s: State, k: nat, d: nat): State
    requires k < |s.gates| && d in s.detrefs
  {
    s.(gates := s.gates[k := s.gates[k].(leaveCounter := s.detrefs[d].seqnr)])
  }

  function Free(s: State, k: nat, d: nat): State
    requires k < |s.gates| && s.gates[k].detfifo != []
  {
    s.(detrefs := s.detrefs - {d}, gates := s.gates[k := s.gates[k].(detfifo := s.gates[k].detfifo[1..])])
  }

  /** Forward what is queued under the same sequence number, from position i on. */
  function FlushEqual(s: State, k: nat, i: nat, seqnr: nat): (s': State)
    requires k < |s.gates|
    ensures |s'.gates| == |s.gates|
    decreases |s.gates[k].detfifo| - i
  {
    var q := s.gates[k].detfifo;
    if i < |q| && q[i] in s.detrefs && s.detrefs[q[i]].seqnr == seqnr then FlushEqual(Flush(s, k, q[i]), k, i + 1, seqnr)
    else s
  }

  /** Forward, and free, from the front; stop at the first detref that is still in use.
      None where a detref is gone or a sequence number is below the leave counter. */
  function Dequeue(s: State, k: nat): (o: Option<State>)
    requires k < |s.gates|
    decreases |s.gates[k].detfifo|
  {
    var q := s.gates[k].detfifo;
    if q == [] then Some(s)
    else if q[0] !in s.detrefs || s.detrefs[q[0]].seqnr < s.gates[k].leaveCounter then None
    else
      var s1 := Flush(Advance(s, k, q[0]), k, q[0]);
      if s1.detrefs[q[0]].refcount == 0 then Dequeue(Free(s1, k, q[0]), k)
      else Some(FlushEqual(s1, k, 1, s1.detrefs[q[0]].seqnr))
  }

  // ---------- steps ----------

  datatype Step =
    | Arrive                        // a record comes from outside
    | Enter(gate: nat, rec: nat)
    | Copy(rec: nat)                // a record is created in the context of another
    | Drop(rec: nat)                // a record is destroyed: it gives up its top detref
    | Close(detref: nat)            // the last holder announces this to the collector
    | Leave(gate: nat, rec: nat)
    | Notice(gate: nat)

  /** The record is on its way, not queued at a collector. */
  ghost predicate Live(s: State, r: nat) {
    r < |s.stacks| && forall d :: d in s.detrefs ==> r !in s.detrefs[d].recfifo
  }

  /** The sequence number on top of a stack. */
  function TopKey(detrefs: map<nat, Detref>, stack: seq<nat>): nat {
    if stack != [] && stack[0] in detrefs then detrefs[stack[0]].seqnr else 0
  }

  ghost predicate Enabled(s: State, step: Step) {
    match step
    case Arrive => true
    case Enter(k, r) => k < |s.gates| && Live(s, r)
    case Copy(r) => Live(s, r)
    case Drop(r) => Live(s, r) && s.stacks[r] != []
    case Close(d) => d in s.closing
    case Leave(k, r) =>
      && k < |s.gates| && Live(s, r) && s.stacks[r] != []
      && (s.stacks[r][0] in s.detrefs ==> s.detrefs[s.stacks[r][0]].leave == k)
    case Notice(k) => k < |s.gates| && k in s.notices
  }

  /** An entry that only supports outer determinism refuses a record without a detref, and one
      whose number is below the last one's. */
  predicate Refuses(s: State, k: nat, r: nat)
    requires k < |s.gates| && r < |s.stacks|
  {
    !s.gates[k].isDet && (s.stacks[r] == [] || TopKey(s.detrefs, s.stacks[r]) < s.gates[k].outer)
  }

  predicate Refused(s: State, step: Step) {
    step.Enter? && step.gate < |s.gates| && step.rec < |s.stacks| && Refuses(s, step.gate, step.rec)
  }

  /** The number a record draws, and the entry's state after it. */
  function Draw(g: Gate, key: nat): Gate {
    if g.isDet then g.(counter := g.counter + 1, lastKey := key, inOrder := g.inOrder && g.lastKey <= key)
    else if key != g.outer then g.(outer := key, counter := g.counter + 1, lastKey := key, inOrder := g.inOrder && g.lastKey <= key)
    else g.(lastKey := key, inOrder := g.inOrder && g.lastKey <= key)
  }

  function Entering(s: State, k: nat, r: nat): State
    requires k < |s.gates| && r < |s.stacks|
  {
    var d := s.next;
    var key := TopKey(s.detrefs, s.stacks[r]);
    var g := Draw(s.gates[k], key);
    s.(detrefs := s.detrefs[d := Detref(g.counter, k, 2, [], s.stacks[r], key)],
       next := d + 1,
       stacks := s.stacks[r := [d] + s.stacks[r]],
       gates := s.gates[k := g.(detfifo := g.detfifo + [d])])
  }

  function Counted(detrefs: map<nat, Detref>, stack: seq<nat>): map<nat, Detref> {
    map d | d in detrefs :: if d in stack then detrefs[d].(refcount := detrefs[d].refcount + 1) else detrefs[d]
  }

  function Dropping(s: State, r: nat): State
    requires r < |s.stacks| && s.stacks[r] != [] && s.stacks[r][0] in s.detrefs
  {
    var d := s.stacks[r][0];
    var x := s.detrefs[d].(refcount := s.detrefs[d].refcount - 1);
    s.(detrefs := s.detrefs[d := x], stacks := s.stacks[r := s.stacks[r][1..]],
       closing := if x.refcount == 1 then s.closing + {d} else s.closing)
  }

  /** The record gives up its detref and is queued with it. */
  function Queueing(s: State, r: nat): State
    requires r < |s.stacks| && s.stacks[r] != [] && s.stacks[r][0] in s.detrefs
  {
    var d := s.stacks[r][0];
    var x := s.detrefs[d];
    var n := x.refcount - 1;
    s.(detrefs := s.detrefs[d := x.(recfifo := x.recfifo + [r], refcount := if n == 1 then 0 else n)],
       stacks := s.stacks[r := s.stacks[r][1..]])
  }

  /** The detref is there, with the count of a record that holds it. */
  predicate InUse(s: State, d: nat) {
    d in s.detrefs && s.detrefs[d].refcount >= 2
  }

  /** One step; None where the code would use a freed detref or fail one of its checks. */
  function Next(s: State, step: Step): Option<State>
    requires Enabled(s, step)
  {
    match step
    case Arrive => Some(s.(stacks := s.stacks + [[]]))
    case Enter(k, r) => if Refuses(s, k, r) then None else Some(Entering(s, k, r))
    case Copy(r) =>
      if exists i :: 0 <= i < |s.stacks[r]| && !InUse(s, s.stacks[r][i]) then None
      else Some(s.(detrefs := Counted(s.detrefs, s.stacks[r]), stacks := s.stacks + [s.stacks[r]]))
    case Drop(r) =>
      if !InUse(s, s.stacks[r][0]) then None else Some(Dropping(s, r))
    case Close(d) =>
      if d !in s.detrefs || s.detrefs[d].refcount != 1 then None
      else Some(s.(detrefs := s.detrefs[d := s.detrefs[d].(refcount := 0)], closing := s.closing - {d},
                   notices := s.notices + multiset{s.detrefs[d].leave}))
    case Leave(k, r) =>
      if !InUse(s, s.stacks[r][0]) || s.detrefs[s.stacks[r][0]].seqnr < s.gates[k].leaveCounter then None
      else Dequeue(Queueing(s, r), k)
    case Notice(k) => Dequeue(s.(notices := s.notices - multiset{k}), k)
  }

  // ---------- the invariant ----------

  function Holders(stacks: seq<seq<nat>>, d: nat): nat {
    if |stacks| == 0 then 0
    else Holders(stacks[..|stacks| - 1], d) + if d in stacks[|stacks| - 1] then 1 else 0
  }

  /** Below a detref, a stack is what it was when the detref was drawn. */
  ghost predicate Stacks(s: State) {
    && (forall r, i :: 0 <= r < |s.stacks| && 0 <= i < |s.stacks[r]| ==>
          s.stacks[r][i] in s.detrefs && s.detrefs[s.stacks[r][i]].under == s.stacks[r][i + 1..])
    && (forall d :: d in s.detrefs ==> DetrefOk(s, d))
  }

  ghost predicate DetrefOk(s: State, d: nat)
    requires d in s.detrefs
  {
    var x := s.detrefs[d];
    && d < s.next && x.seqnr >= 1
    && (forall e :: e in x.under ==> e < d)
    && (x.under != [] && x.under[0] in s.detrefs ==> x.key == s.detrefs[x.under[0]].seqnr)
    && (x.under == [] ==> x.key == 0)
  }

  /** One more than the number of records that hold the detref; once the last is gone,
      one until the collector is told, then zero. */
  ghost predicate CountOk(s: State, d: nat)
    requires d in s.detrefs
  {
    var h := Holders(s.stacks, d);
    && s.detrefs[d].refcount == (if h > 0 then h + 1 else if d in s.closing then 1 else 0)
    && (d in s.closing ==> h == 0)
  }

  ghost predicate Counts(s: State) {
    && (forall d :: d in s.detrefs ==> CountOk(s, d))
    && s.closing <= s.detrefs.Keys
  }

  /** Queued records hold what is below their detref. */
  ghost predicate Queued(s: State) {
    forall d, i :: d in s.detrefs && 0 <= i < |s.detrefs[d].recfifo| ==>
      s.detrefs[d].recfifo[i] < |s.stacks| && s.stacks[s.detrefs[d].recfifo[i]] == s.detrefs[d].under
  }

  /** Each detref waits at its collector, in the order of drawing. */
  ghost predicate Fifos(s: State) {
    && (forall d :: d in s.detrefs ==> s.detrefs[d].leave < |s.gates| && d in s.gates[s.detrefs[d].leave].detfifo)
    && (forall k :: 0 <= k < |s.gates| ==> FifoOk(s, k))
  }

  ghost predicate FifoOk(s: State, k: nat)
    requires k < |s.gates|
  {
    var q := s.gates[k].detfifo;
    && (forall i :: 0 <= i < |q| ==> q[i] in s.detrefs && s.detrefs[q[i]].leave == k)
    && (forall i, j :: 0 <= i < j < |q| ==> q[i] < q[j])
  }

  /** Numbers and keys go up from the front of the queue to the entry. */
  ghost predicate QueueOrder(s: State, k: nat)
    requires k < |s.gates| && FifoOk(s, k)
  {
    var g := s.gates[k];
    var q := g.detfifo;
    && (g.inOrder ==> forall i :: 0 <= i < |q| ==> s.detrefs[q[i]].key <= g.lastKey)
    && (forall i :: 0 <= i < |q| ==> s.detrefs[q[i]].seqnr <= g.counter)
    && (forall i, j :: 0 <= i < j < |q| ==> s.detrefs[q[i]].seqnr <= s.detrefs[q[j]].seqnr)
    && (g.inOrder ==> forall i, j :: 0 <= i < j < |q| ==> s.detrefs[q[i]].key <= s.detrefs[q[j]].key)
    && (g.isDet ==> forall i, j :: 0 <= i < j < |q| ==> s.detrefs[q[i]].seqnr < s.detrefs[q[j]].seqnr)
    && (!g.isDet ==> forall i, j :: 0 <= i < j < |q| ==>
          (s.detrefs[q[i]].seqnr == s.detrefs[q[j]].seqnr <==> s.detrefs[q[i]].key == s.detrefs[q[j]].key))
    && (!g.isDet ==> g.inOrder && g.lastKey == g.outer && (g.counter == 0 <==> g.outer == 0))
    && (!g.isDet ==> forall i :: 0 <= i < |q| ==> (s.detrefs[q[i]].seqnr == g.counter <==> s.detrefs[q[i]].key == g.outer))
  }

  /** The collector has not gone past what is still to come. */
  ghost predicate LeaveOk(s: State, k: nat)
    requires k < |s.gates| && FifoOk(s, k)
  {
    var g := s.gates[k];
    && (forall i :: 0 <= i < |g.detfifo| ==> g.leaveCounter <= s.detrefs[g.detfifo[i]].seqnr)
    && (g.leaveCounter <= g.counter || g.leaveCounter == 1)
  }

  /** What has been emitted came in order, and nothing that is still to come goes before it. */
  ghost predicate LogOrder(s: State, k: nat)
    requires k < |s.gates| && FifoOk(s, k)
  {
    var g := s.gates[k];
    && (forall i :: 0 <= i < |g.log| ==> g.log[i].seqnr <= g.leaveCounter && g.log[i].detref < s.next)
    && (forall i, j :: 0 <= i < j < |g.log| ==> g.log[i].seqnr <= g.log[j].seqnr)
    && (g.isDet ==> forall i, j :: 0 <= i < j < |g.log| ==> g.log[i].detref <= g.log[j].detref)
    && (g.isDet && g.detfifo != [] ==> forall i :: 0 <= i < |g.log| ==> g.log[i].detref <= g.detfifo[0])
    && (g.inOrder ==> forall i, j :: 0 <= i < j < |g.log| ==> g.log[i].key <= g.log[j].key)
    && (g.inOrder ==> forall i :: 0 <= i < |g.log| ==>
          g.log[i].key <= (if g.detfifo != [] then s.detrefs[g.detfifo[0]].key else g.lastKey))
  }

  /** A record waits only while one with a smaller number may still come; a collector
      whose first detref is no longer in use has been told so. */
  ghost predicate Prompt(s: State, k: nat)
    requires k < |s.gates| && FifoOk(s, k)
  {
    var q := s.gates[k].detfifo;
    && (forall i :: 0 <= i < |q| && s.detrefs[q[i]].recfifo != [] ==> s.detrefs[q[0]].seqnr < s.detrefs[q[i]].seqnr)
    && (q != [] && s.detrefs[q[0]].refcount == 0 ==> k in s.notices)
  }

  ghost predicate Base(s: State) {
    && Stacks(s) && Counts(s) && Queued(s) && Fifos(s)
    && forall k :: 0 <= k < |s.gates| ==> QueueOrder(s, k) && LeaveOk(s, k) && LogOrder(s, k)
  }

  ghost predicate Inv(s: State) {
    Base(s) && forall k :: 0 <= k < |s.gates| ==> Prompt(s, k)
  }

  // ---------- counting holders ----------

  function Has(stack: seq<nat>, d: nat): nat { if d in stack then 1 else 0 }

  lemma {:induction false} HoldersAppend(stacks: seq<seq<nat>>, stack: seq<nat>, d: nat)
    ensures Holders(stacks + [stack], d) == Holders(stacks, d) + Has(stack, d)
  {
    assert (stacks + [stack])[..|stacks|] == stacks;
  }

  lemma {:induction false} HoldersUpdate(stacks: seq<seq<nat>>, r: nat, stack: seq<nat>, d: nat)
    requires r < |stacks|
    ensures Holders(stacks[r := stack], d) == Holders(stacks, d) - Has(stacks[r], d) + Has(stack, d)
  {
    var n := |stacks| - 1;
    if r == n {
      assert stacks[r := stack][..n] == stacks[..n];
    } else {
      assert stacks[r := stack][..n] == stacks[..n][r := stack];
      HoldersUpdate(stacks[..n], r, stack, d);
    }
  }

  lemma {:induction false} HoldersHas(stacks: seq<seq<nat>>, r: nat, d: nat)
    requires r < |stacks| && d in stacks[r]
    ensures Holders(stacks, d) >= 1
  {
    if r < |stacks| - 1 { HoldersHas(stacks[..|stacks| - 1], r, d); }
  }

  lemma {:induction false} HoldersNone(stacks: seq<seq<nat>>, d: nat)
    requires forall r :: 0 <= r < |stacks| ==> d !in stacks[r]
    ensures Holders(stacks, d) == 0
  {
    if |stacks| > 0 { HoldersNone(stacks[..|stacks| - 1], d); }
  }

  /** A detref on a stack is in use: it has not been freed. */
  lemma {:induction false} HeldInUse(s: State, r: nat, i: nat)
    requires Stacks(s) && Counts(s) && r < |s.stacks| && i < |s.stacks[r]|
    ensures InUse(s, s.stacks[r][i])
  {
    var d := s.stacks[r][i];
    HoldersHas(s.stacks, r, d);
    assert CountOk(s, d);
  }

  // ---------- dequeuing ----------

  /** Only queues and logs change. */
  ghost predicate SameTickets(s: State, s': State) {
    && s'.detrefs.Keys == s.detrefs.Keys
    && (forall d :: d in s.detrefs ==> s'.detrefs[d].(recfifo := s.detrefs[d].recfifo) == s.detrefs[d])
    && (forall d :: d in s.detrefs ==> s'.detrefs[d].recfifo == s.detrefs[d].recfifo || s'.detrefs[d].recfifo == [])
    && s'.next == s.next && s'.stacks == s.stacks && s'.closing == s.closing
    && |s'.gates| == |s.gates|
    && (forall k :: 0 <= k < |s.gates| ==> s'.gates[k].detfifo == s.gates[k].detfifo)
  }

  lemma {:induction false} SameTicketsKeep(s: State, s': State)
    requires SameTickets(s, s') && Stacks(s) && Counts(s) && Queued(s) && Fifos(s)
    ensures Stacks(s') && Counts(s') && Queued(s') && Fifos(s')
  {
    hide Holders;
    forall d | d in s'.detrefs ensures DetrefOk(s', d) { assert DetrefOk(s, d); }
    forall d | d in s'.detrefs ensures CountOk(s', d) { assert CountOk(s, d); }
    forall k | 0 <= k < |s'.gates| ensures FifoOk(s', k) { assert FifoOk(s, k); }
  }

  /** The gate's entry and the numbers in its queue stay. */
  ghost predicate SameQueue(s: State, s': State, m: nat)
    requires m < |s.gates|
  {
    && m < |s'.gates| && FifoOk(s, m) && FifoOk(s', m)
    && s'.gates[m].(log := s.gates[m].log, leaveCounter := s.gates[m].leaveCounter) == s.gates[m]
    && (forall i :: 0 <= i < |s.gates[m].detfifo| ==>
          s'.detrefs[s.gates[m].detfifo[i]].seqnr == s.detrefs[s.gates[m].detfifo[i]].seqnr)
    && (forall i :: 0 <= i < |s.gates[m].detfifo| ==>
          s'.detrefs[s.gates[m].detfifo[i]].key == s.detrefs[s.gates[m].detfifo[i]].key)
  }

  lemma {:induction false} SameQueueOrder(s: State, s': State, m: nat)
    requires m < |s.gates| && SameQueue(s, s', m) && QueueOrder(s, m)
    ensures QueueOrder(s', m)
  {
  }

  /** Further ahead, the collector stays below what is to come and above what has gone. */
  lemma {:induction false} SameLogOrder(s: State, s': State, m: nat)
    requires m < |s.gates| && SameQueue(s, s', m) && LogOrder(s, m)
    requires s'.gates[m].log == s.gates[m].log && s.gates[m].leaveCounter <= s'.gates[m].leaveCounter && s.next <= s'.next
    ensures LogOrder(s', m)
  {
  }

  /** Flushing a detref with the collector's current number. */
  lemma {:induction false} FlushKeeps(s: State, k: nat, i: nat)
    requires Base(s) && k < |s.gates| && i < |s.gates[k].detfifo|
    requires FifoOk(s, k) && s.detrefs[s.gates[k].detfifo[i]].seqnr == s.gates[k].leaveCounter
    ensures s.gates[k].detfifo[i] in s.detrefs
    ensures var s' := Flush(s, k, s.gates[k].detfifo[i]); Base(s') && SameTickets(s, s')
  {
    hide Stacks, Counts, Queued, QueueOrder, LogOrder;
    var d := s.gates[k].detfifo[i];
    var s' := Flush(s, k, d);
    assert SameTickets(s, s');
    SameTicketsKeep(s, s');
    assert d < s.next by { KnownDetref(s, d); }
    forall m | 0 <= m < |s'.gates| ensures QueueOrder(s', m) && LeaveOk(s', m) && LogOrder(s', m) {
      assert FifoOk(s, m) && QueueOrder(s, m) && LeaveOk(s, m) && LogOrder(s, m) && FifoOk(s', m);
      SameQueueOrder(s, s', m);
      if m == k { FlushLog(s, k, i); } else { SameLogOrder(s, s', m); }
    }
  }

  lemma {:induction false} KnownDetref(s: State, d: nat)
    requires Stacks(s) && d in s.detrefs
    ensures d < s.next
  {
    assert DetrefOk(s, d);
  }

  lemma {:induction false} FlushLog(s: State, k: nat, i: nat)
    requires k < |s.gates| && FifoOk(s, k) && i < |s.gates[k].detfifo| && QueueOrder(s, k) && LeaveOk(s, k) && LogOrder(s, k)
    requires s.detrefs[s.gates[k].detfifo[i]].seqnr == s.gates[k].leaveCounter && s.gates[k].detfifo[i] < s.next
    requires FifoOk(Flush(s, k, s.gates[k].detfifo[i]), k)
    ensures LogOrder(Flush(s, k, s.gates[k].detfifo[i]), k)
  {
    var g := s.gates[k];
    var d := g.detfifo[i];
    var x := s.detrefs[d];
    var es := Emissions(d, x, x.recfifo);
    if i > 0 {
      assert s.detrefs[g.detfifo[0]].seqnr == x.seqnr;
      assert !g.isDet;
      assert s.detrefs[g.detfifo[0]].key == x.key;
    }
  }

  lemma {:induction false} AdvanceKeeps(s: State, k: nat)
    requires Base(s) && k < |s.gates| && s.gates[k].detfifo != []
    ensures s.gates[k].detfifo[0] in s.detrefs
    ensures s.gates[k].leaveCounter <= s.detrefs[s.gates[k].detfifo[0]].seqnr
    ensures var s' := Advance(s, k, s.gates[k].detfifo[0]); Base(s') && SameTickets(s, s')
  {
    hide Stacks, Counts, Queued, QueueOrder, LogOrder;
    assert FifoOk(s, k) && QueueOrder(s, k) && LeaveOk(s, k);
    FirstNumber(s, k);
    var s' := Advance(s, k, s.gates[k].detfifo[0]);
    SameTicketsKeep(s, s');
    forall m | 0 <= m < |s'.gates| ensures QueueOrder(s', m) && LeaveOk(s', m) && LogOrder(s', m) {
      assert FifoOk(s, m) && QueueOrder(s, m) && LeaveOk(s, m) && LogOrder(s, m) && FifoOk(s', m);
      SameQueueOrder(s, s', m);
      SameLogOrder(s, s', m);
    }
  }

  lemma {:induction false} FirstNumber(s: State, k: nat)
    requires k < |s.gates| && FifoOk(s, k) && QueueOrder(s, k) && s.gates[k].detfifo != []
    ensures s.detrefs[s.gates[k].detfifo[0]].seqnr <= s.gates[k].counter
    ensures forall i :: 0 <= i < |s.gates[k].detfifo| ==>
      s.detrefs[s.gates[k].detfifo[0]].seqnr <= s.detrefs[s.gates[k].detfifo[i]].seqnr
  {
  }

  /** Nothing changes for the other gates. */
  ghost predicate Elsewhere(s: State, s': State, k: nat) {
    && |s'.gates| == |s.gates| && (forall m :: 0 <= m < |s.gates| && m != k ==> s'.gates[m] == s.gates[m])
    && (forall d :: d in s.detrefs && s.detrefs[d].leave != k ==> d in s'.detrefs && s'.detrefs[d] == s.detrefs[d])
    && s'.notices == s.notices && s'.stacks == s.stacks && s'.next == s.next
    && s'.detrefs.Keys <= s.detrefs.Keys
  }

  lemma {:induction false} FreeKeeps(s: State, k: nat)
    requires Base(s) && k < |s.gates| && s.gates[k].detfifo != [] && FifoOk(s, k)
    requires s.detrefs[s.gates[k].detfifo[0]].refcount == 0 && s.detrefs[s.gates[k].detfifo[0]].recfifo == []
    ensures Base(Free(s, k, s.gates[k].detfifo[0])) && Elsewhere(s, Free(s, k, s.gates[k].detfifo[0]), k)
  {
    hide QueueOrder, LogOrder, LeaveOk, Holders, Fifos, Stacks, Counts;
    var d := s.gates[k].detfifo[0];
    var s' := Free(s, k, d);
    FreeTickets(s, k);
    FreeFifos(s, k);
    FreeElsewhere(s, k);
    forall m | 0 <= m < |s'.gates| ensures FifoOk(s', m) && QueueOrder(s', m) && LeaveOk(s', m) && LogOrder(s', m) {
      FifosParts(s, m);
      assert QueueOrder(s, m) && LeaveOk(s, m) && LogOrder(s, m);
      FifosParts(s', m);
      if m == k { FreeOrder(s, k); } else { FreeOther(s, k, m); }
    }
  }

  lemma {:induction false} FifosParts(s: State, m: nat)
    requires Fifos(s) && m < |s.gates|
    ensures FifoOk(s, m)
  {
  }

  lemma {:induction false} FreeTickets(s: State, k: nat)
    requires Stacks(s) && Counts(s) && Queued(s)
    requires k < |s.gates| && s.gates[k].detfifo != [] && FifoOk(s, k)
    requires s.detrefs[s.gates[k].detfifo[0]].refcount == 0
    ensures var s' := Free(s, k, s.gates[k].detfifo[0]); Stacks(s') && Counts(s') && Queued(s')
  {
    hide Holders;
    var d := s.gates[k].detfifo[0];
    var s' := Free(s, k, d);
    assert CountOk(s, d);
    forall r | 0 <= r < |s.stacks| ensures d !in s.stacks[r] {
      if d in s.stacks[r] { HoldersHas(s.stacks, r, d); }
    }
    forall e | e in s'.detrefs ensures DetrefOk(s', e) { assert DetrefOk(s, e); }
    forall e | e in s'.detrefs ensures CountOk(s', e) { assert CountOk(s, e); }
  }

  lemma {:induction false} FreeFifos(s: State, k: nat)
    requires Fifos(s) && k < |s.gates| && s.gates[k].detfifo != []
    ensures Fifos(Free(s, k, s.gates[k].detfifo[0]))
  {
    var q := s.gates[k].detfifo;
    var s' := Free(s, k, q[0]);
    assert FifoOk(s, k);
    forall m | 0 <= m < |s'.gates| ensures FifoOk(s', m) {
      assert FifoOk(s, m);
      assert m != k ==> q[0] !in s.gates[m].detfifo;
    }
    forall e | e in s'.detrefs ensures e in s'.gates[s'.detrefs[e].leave].detfifo {
      assert e in s.gates[s.detrefs[e].leave].detfifo;
      assert q == [q[0]] + q[1..];
    }
  }

  lemma {:induction false} FreeElsewhere(s: State, k: nat)
    requires k < |s.gates| && s.gates[k].detfifo != [] && FifoOk(s, k)
    ensures Elsewhere(s, Free(s, k, s.gates[k].detfifo[0]), k)
  {
  }

  lemma {:induction false} FreeOrder(s: State, k: nat)
    requires k < |s.gates| && s.gates[k].detfifo != [] && FifoOk(s, k) && QueueOrder(s, k) && LeaveOk(s, k) && LogOrder(s, k)
    requires FifoOk(Free(s, k, s.gates[k].detfifo[0]), k)
    ensures var s' := Free(s, k, s.gates[k].detfifo[0]); QueueOrder(s', k) && LeaveOk(s', k) && LogOrder(s', k)
  {
    hide QueueOrder, LeaveOk, LogOrder;
    FreeQueueOrder(s, k);
    FreeLogOrder(s, k);
  }

  lemma {:induction false} FreeQueueOrder(s: State, k: nat)
    requires k < |s.gates| && s.gates[k].detfifo != [] && FifoOk(s, k) && QueueOrder(s, k) && LeaveOk(s, k)
    requires FifoOk(Free(s, k, s.gates[k].detfifo[0]), k)
    ensures var s' := Free(s, k, s.gates[k].detfifo[0]); QueueOrder(s', k) && LeaveOk(s', k)
  {
  }

  lemma {:induction false} FreeLogOrder(s: State, k: nat)
    requires k < |s.gates| && s.gates[k].detfifo != [] && FifoOk(s, k) && QueueOrder(s, k) && LogOrder(s, k)
    requires FifoOk(Free(s, k, s.gates[k].detfifo[0]), k)
    ensures LogOrder(Free(s, k, s.gates[k].detfifo[0]), k)
  {
    var q := s.gates[k].detfifo;
    assert q[1..] != [] ==> q[1..][0] == q[1] && q[0] < q[1];
  }

  lemma {:induction false} FreeOther(s: State, k: nat, m: nat)
    requires Fifos(s) && k < |s.gates| && m < |s.gates| && m != k && s.gates[k].detfifo != []
    requires FifoOk(s, m) && QueueOrder(s, m) && LeaveOk(s, m) && LogOrder(s, m)
    requires FifoOk(Free(s, k, s.gates[k].detfifo[0]), m)
    ensures var s' := Free(s, k, s.gates[k].detfifo[0]); QueueOrder(s', m) && LeaveOk(s', m) && LogOrder(s', m)
  {
    hide QueueOrder, LogOrder;
    var s' := Free(s, k, s.gates[k].detfifo[0]);
    SameQueueOrder(s, s', m);
    SameLogOrder(s, s', m);
  }

  /** From position i on, nothing that carries the first number stays queued. */
  lemma {:induction false} FlushEqualKeeps(s: State, k: nat, i: nat)
    requires Base(s) && k < |s.gates| && 1 <= i <= |s.gates[k].detfifo| && FifoOk(s, k)
    requires s.detrefs[s.gates[k].detfifo[0]].seqnr == s.gates[k].leaveCounter
    requires forall j :: 0 <= j < i ==> s.detrefs[s.gates[k].detfifo[j]].recfifo == []
    ensures var s' := FlushEqual(s, k, i, s.gates[k].leaveCounter);
      && Base(s') && SameTickets(s, s') && Elsewhere(s, s', k) && FifoOk(s', k)
      && forall j :: 0 <= j < |s'.gates[k].detfifo| && s'.detrefs[s'.gates[k].detfifo[j]].recfifo != [] ==>
           s'.detrefs[s'.gates[k].detfifo[0]].seqnr < s'.detrefs[s'.gates[k].detfifo[j]].seqnr
    decreases |s.gates[k].detfifo| - i
  {
    hide Base, QueueOrder, LogOrder, LeaveOk, Flush, FifoOk;
    BaseParts(s, k);
    var q := s.gates[k].detfifo;
    if i < |q| && q[i] in s.detrefs && s.detrefs[q[i]].seqnr == s.gates[k].leaveCounter {
      FlushKeeps(s, k, i);
      var s1 := Flush(s, k, q[i]);
      FlushFrame(s, k, i);
      FlushEqualKeeps(s1, k, i + 1);
    } else {
      FlushStops(s, k, i);
    }
  }

  /** The sequence numbers go up: where the first other number comes, the rest is larger. */
  lemma {:induction false} FlushStops(s: State, k: nat, i: nat)
    requires Base(s) && k < |s.gates| && 1 <= i <= |s.gates[k].detfifo| && FifoOk(s, k)
    requires s.detrefs[s.gates[k].detfifo[0]].seqnr == s.gates[k].leaveCounter
    requires forall j :: 0 <= j < i ==> s.detrefs[s.gates[k].detfifo[j]].recfifo == []
    requires i < |s.gates[k].detfifo| ==> s.detrefs[s.gates[k].detfifo[i]].seqnr != s.gates[k].leaveCounter
    ensures forall j :: 0 <= j < |s.gates[k].detfifo| ==> s.gates[k].detfifo[j] in s.detrefs
    ensures forall j :: 0 <= j < |s.gates[k].detfifo| && s.detrefs[s.gates[k].detfifo[j]].recfifo != [] ==>
      s.detrefs[s.gates[k].detfifo[0]].seqnr < s.detrefs[s.gates[k].detfifo[j]].seqnr
  {
    BaseParts(s, k);
  }

  lemma {:induction false} FlushFrame(s: State, k: nat, i: nat)
    requires Base(s) && k < |s.gates| && i < |s.gates[k].detfifo| && FifoOk(s, k)
    ensures var s' := Flush(s, k, s.gates[k].detfifo[i]);
      && Elsewhere(s, s', k) && FifoOk(s', k) && s'.gates[k].detfifo == s.gates[k].detfifo
      && s'.gates[k].leaveCounter == s.gates[k].leaveCounter
      && s'.detrefs[s.gates[k].detfifo[i]].recfifo == []
  {
    hide QueueOrder, LogOrder, LeaveOk;
  }

  lemma {:induction false} BaseParts(s: State, k: nat)
    requires Base(s) && k < |s.gates|
    ensures FifoOk(s, k) && QueueOrder(s, k) && LeaveOk(s, k) && LogOrder(s, k)
    ensures forall i, j :: 0 <= i <= j < |s.gates[k].detfifo| ==>
      s.detrefs[s.gates[k].detfifo[i]].seqnr <= s.detrefs[s.gates[k].detfifo[j]].seqnr
  {
    assert QueueOrder(s, k);
  }

  /** Dequeuing never meets a freed detref or a number below the leave counter, and ends
      with a first detref that is still in use and nothing queued that could go. */
  lemma {:induction false} DequeueKeeps(s: State, k: nat)
    requires Base(s) && k < |s.gates|
    ensures Dequeue(s, k).Some?
    ensures var s' := Dequeue(s, k).value;
      && Base(s') && Elsewhere(s, s', k) && Settled(s', k)
    decreases |s.gates[k].detfifo|
  {
    hide Base, QueueOrder, LogOrder, LeaveOk, FifoOk, Flush, Advance, Free;
    BaseParts(s, k);
    var q := s.gates[k].detfifo;
    if q == [] {
      EmptySettled(s, k);
    } else {
      AdvanceKeeps(s, k);
      var s0 := Advance(s, k, q[0]);
      AdvanceFrame(s, k);
      BaseParts(s0, k);
      FlushKeeps(s0, k, 0);
      FlushFrame(s0, k, 0);
      var s1 := Flush(s0, k, q[0]);
      FlushCount(s0, k, q[0]);
      if s1.detrefs[q[0]].refcount == 0 {
        FreeKeeps(s1, k);
        FreeShorter(s1, k);
        DequeueKeeps(Free(s1, k, q[0]), k);
      } else {
        BaseParts(s1, k);
        FlushEqualKeeps(s1, k, 1);
        EqualSettled(s1, FlushEqual(s1, k, 1, s1.gates[k].leaveCounter), k);
      }
    }
  }

  /** What a collector leaves behind after dequeuing. */
  ghost predicate Settled(s: State, k: nat) {
    && k < |s.gates| && FifoOk(s, k)
    && (forall i :: 0 <= i < |s.gates[k].detfifo| && s.detrefs[s.gates[k].detfifo[i]].recfifo != [] ==>
          s.detrefs[s.gates[k].detfifo[0]].seqnr < s.detrefs[s.gates[k].detfifo[i]].seqnr)
    && (s.gates[k].detfifo != [] ==> s.detrefs[s.gates[k].detfifo[0]].refcount != 0)
  }

  lemma {:induction false} EmptySettled(s: State, k: nat)
    requires k < |s.gates| && FifoOk(s, k) && s.gates[k].detfifo == []
    ensures Settled(s, k)
  {
  }

  lemma {:induction false} EqualSettled(s: State, s': State, k: nat)
    requires k < |s.gates| && SameTickets(s, s') && FifoOk(s, k) && FifoOk(s', k) && s.gates[k].detfifo != []
    requires s.detrefs[s.gates[k].detfifo[0]].refcount != 0
    requires forall j :: 0 <= j < |s'.gates[k].detfifo| && s'.detrefs[s'.gates[k].detfifo[j]].recfifo != [] ==>
      s'.detrefs[s'.gates[k].detfifo[0]].seqnr < s'.detrefs[s'.gates[k].detfifo[j]].seqnr
    ensures Settled(s', k)
  {
  }

  lemma {:induction false} AdvanceFrame(s: State, k: nat)
    requires k < |s.gates| && s.gates[k].detfifo != [] && FifoOk(s, k)
    ensures var s' := Advance(s, k, s.gates[k].detfifo[0]);
      && Elsewhere(s, s', k) && s'.gates[k].detfifo == s.gates[k].detfifo && s'.detrefs == s.detrefs
      && s'.gates[k].leaveCounter == s.detrefs[s.gates[k].detfifo[0]].seqnr && |s'.gates| == |s.gates|
  {
  }

  lemma {:induction false} FlushCount(s: State, k: nat, d: nat)
    requires k < |s.gates| && d in s.detrefs
    ensures var s' := Flush(s, k, d); d in s'.detrefs && s'.detrefs[d].seqnr == s.detrefs[d].seqnr && |s'.gates| == |s.gates|
  {
  }

  lemma {:induction false} FreeShorter(s: State, k: nat)
    requires k < |s.gates| && s.gates[k].detfifo != []
    ensures var s' := Free(s, k, s.gates[k].detfifo[0]);
      |s'.gates| == |s.gates| && |s'.gates[k].detfifo| < |s.gates[k].detfifo|
  {
  }

  lemma {:induction false} PromptElsewhere(s: State, s': State, k: nat, m: nat)
    requires m < |s.gates| && m != k && FifoOk(s, m) && Prompt(s, m) && Elsewhere(s, s', k)
    ensures FifoOk(s', m) && Prompt(s', m)
  {
  }

  /** After a dequeue at k all gates are prompt, if the others were. */
  lemma {:induction false} DequeuePrompt(s: State, k: nat)
    requires Base(s) && k < |s.gates|
    requires forall m :: 0 <= m < |s.gates| && m != k ==> Prompt(s, m)
    ensures Dequeue(s, k).Some? && Inv(Dequeue(s, k).value)
  {
    hide Stacks, Counts, Queued, QueueOrder, LogOrder, LeaveOk, Dequeue;
    DequeueKeeps(s, k);
    var s' := Dequeue(s, k).value;
    forall m | 0 <= m < |s'.gates| ensures Prompt(s', m) {
      assert FifoOk(s, m) && FifoOk(s', m);
      if m != k { PromptElsewhere(s, s', k, m); }
    }
  }

  // ---------- every step keeps the invariant ----------

  /** Detrefs keep everything but their counts and queues, and none goes. */
  ghost predicate SameNumbers(s: State, s': State) {
    && s'.gates == s.gates && s'.next == s.next && s'.detrefs.Keys == s.detrefs.Keys
    && (forall d :: d in s.detrefs ==> Static(s.detrefs[d]) == Static(s'.detrefs[d]))
  }

  function Static(x: Detref): (nat, nat, seq<nat>, nat) {
    (x.seqnr, x.leave, x.under, x.key)
  }

  lemma {:induction false} SameNumbersKeep(s: State, s': State)
    requires SameNumbers(s, s') && Fifos(s)
    requires forall k :: 0 <= k < |s.gates| ==> QueueOrder(s, k) && LeaveOk(s, k) && LogOrder(s, k)
    ensures Fifos(s')
    ensures forall k :: 0 <= k < |s.gates| ==> QueueOrder(s', k) && LeaveOk(s', k) && LogOrder(s', k)
  {
    hide QueueOrder, LogOrder;
    forall k | 0 <= k < |s.gates| ensures FifoOk(s', k) { assert FifoOk(s, k); }
    forall k | 0 <= k < |s.gates| ensures QueueOrder(s', k) && LeaveOk(s', k) && LogOrder(s', k) {
      assert FifoOk(s, k) && FifoOk(s', k) && LeaveOk(s, k);
      SameQueueOrder(s, s', k);
      SameLogOrder(s, s', k);
    }
  }

  lemma {:induction false} ArriveKeeps(s: State)
    requires Inv(s)
    ensures Next(s, Arrive).Some? && Inv(Next(s, Arrive).value)
  {
    hide Holders, QueueOrder, LogOrder;
    var s' := Next(s, Arrive).value;
    SameNumbersKeep(s, s');
    forall d | d in s'.detrefs ensures DetrefOk(s', d) && CountOk(s', d) {
      assert DetrefOk(s, d) && CountOk(s, d);
      HoldersAppend(s.stacks, [], d);
    }
    forall k | 0 <= k < |s'.gates| ensures Prompt(s', k) { assert FifoOk(s', k) && Prompt(s, k); }
  }

  lemma {:induction false} CopyKeeps(s: State, r: nat)
    requires Inv(s) && Live(s, r)
    ensures Next(s, Copy(r)).Some? && Inv(Next(s, Copy(r)).value)
  {
    hide Holders, QueueOrder, LogOrder;
    var stack := s.stacks[r];
    forall i | 0 <= i < |stack| ensures InUse(s, stack[i]) { HeldInUse(s, r, i); }
    var s' := Next(s, Copy(r)).value;
    SameNumbersKeep(s, s');
    forall d | d in s'.detrefs ensures DetrefOk(s', d) && CountOk(s', d) {
      assert DetrefOk(s, d) && CountOk(s, d);
      HoldersAppend(s.stacks, stack, d);
    }
    forall k | 0 <= k < |s'.gates| ensures Prompt(s', k) { assert FifoOk(s', k) && Prompt(s, k); }
  }

  /** Below its top, a stack does not hold the top again. */
  lemma {:induction false} TopOnce(s: State, r: nat)
    requires Stacks(s) && r < |s.stacks| && s.stacks[r] != []
    ensures s.stacks[r][0] in s.detrefs && s.stacks[r][1..] == s.detrefs[s.stacks[r][0]].under
    ensures forall e :: e in s.stacks[r][1..] ==> e != s.stacks[r][0]
  {
    assert DetrefOk(s, s.stacks[r][0]);
  }

  lemma {:induction false} PopStacks(s: State, s': State, r: nat)
    requires Stacks(s) && r < |s.stacks| && s.stacks[r] != [] && SameNumbers(s, s')
    requires s'.stacks == s.stacks[r := s.stacks[r][1..]]
    ensures Stacks(s')
  {
    forall d | d in s'.detrefs ensures DetrefOk(s', d) { assert DetrefOk(s, d); }
    forall q, i | 0 <= q < |s'.stacks| && 0 <= i < |s'.stacks[q]|
      ensures s'.stacks[q][i] in s'.detrefs && s'.detrefs[s'.stacks[q][i]].under == s'.stacks[q][i + 1..]
    {
      if q == r {
        assert s.stacks[r][i + 1] == s'.stacks[r][i];
        assert s.stacks[r][i + 2..] == s'.stacks[r][i + 1..];
      }
    }
  }

  /** A live record is in no queue: popping its stack disturbs no queued record. */
  lemma {:induction false} PopQueued(s: State, s': State, r: nat)
    requires Queued(s) && Live(s, r) && SameNumbers(s, s') && s.stacks[r] != []
    requires s'.stacks == s.stacks[r := s.stacks[r][1..]]
    requires forall d :: d in s.detrefs ==> s'.detrefs[d].recfifo == s.detrefs[d].recfifo
    ensures Queued(s')
  {
  }

  lemma {:induction false} NoticeKeeps(s: State, k: nat)
    requires Inv(s) && Enabled(s, Notice(k))
    ensures Next(s, Notice(k)).Some? && Inv(Next(s, Notice(k)).value)
  {
    hide Holders, Dequeue, QueueOrder, LogOrder, LeaveOk, Stacks, Counts, Queued, Fifos;
    var mid := s.(notices := s.notices - multiset{k});
    SameTicketsKeep(s, mid);
    SameNumbersKeep(s, mid);
    forall m | 0 <= m < |mid.gates| && m != k ensures FifoOk(mid, m) && Prompt(mid, m) {
      FifosParts(mid, m);
      assert Prompt(s, m);
    }
    DequeuePrompt(mid, k);
  }

  lemma {:induction false} DropCounts(s: State, r: nat)
    requires Stacks(s) && Counts(s) && r < |s.stacks| && s.stacks[r] != []
    ensures s.stacks[r][0] in s.detrefs && s.detrefs[s.stacks[r][0]].refcount >= 2 && Counts(Dropping(s, r))
  {
    hide Holders;
    HeldInUse(s, r, 0);
    TopOnce(s, r);
    var d := s.stacks[r][0];
    var s' := Dropping(s, r);
    forall e | e in s'.detrefs ensures CountOk(s', e) {
      assert CountOk(s, e);
      HoldersUpdate(s.stacks, r, s.stacks[r][1..], e);
      if e != d { assert e in s.stacks[r] <==> e in s.stacks[r][1..]; }
    }
  }

  lemma {:induction false} DropKeeps(s: State, r: nat)
    requires Inv(s) && Enabled(s, Drop(r))
    ensures Next(s, Drop(r)).Some? && Inv(Next(s, Drop(r)).value)
  {
    hide Holders, QueueOrder, LogOrder, LeaveOk, Stacks, Counts, Queued;
    DropCounts(s, r);
    var s' := Dropping(s, r);
    SameNumbersKeep(s, s');
    PopStacks(s, s', r);
    PopQueued(s, s', r);
    forall k | 0 <= k < |s'.gates| ensures Prompt(s', k) { assert FifoOk(s', k) && FifoOk(s, k) && Prompt(s, k); }
  }

  lemma {:induction false} CloseKeeps(s: State, d: nat)
    requires Inv(s) && Enabled(s, Close(d))
    ensures Next(s, Close(d)).Some? && Inv(Next(s, Close(d)).value)
  {
    hide Holders, QueueOrder, LogOrder, LeaveOk;
    assert CountOk(s, d);
    var s' := Next(s, Close(d)).value;
    SameNumbersKeep(s, s');
    forall e | e in s'.detrefs ensures DetrefOk(s', e) && CountOk(s', e) {
      assert DetrefOk(s, e) && CountOk(s, e);
    }
    forall k | 0 <= k < |s'.gates| ensures Prompt(s', k) { assert FifoOk(s', k) && FifoOk(s, k) && Prompt(s, k); }
  }

  lemma {:induction false} QueueingCounts(s: State, r: nat)
    requires Stacks(s) && Counts(s) && r < |s.stacks| && s.stacks[r] != []
    ensures s.stacks[r][0] in s.detrefs && s.detrefs[s.stacks[r][0]].refcount >= 2 && Counts(Queueing(s, r))
  {
    hide Holders;
    HeldInUse(s, r, 0);
    TopOnce(s, r);
    var d := s.stacks[r][0];
    var s' := Queueing(s, r);
    assert CountOk(s, d);
    HoldersHas(s.stacks, r, d);
    forall e | e in s'.detrefs ensures CountOk(s', e) {
      assert CountOk(s, e);
      HoldersUpdate(s.stacks, r, s.stacks[r][1..], e);
      if e != d { assert e in s.stacks[r] <==> e in s.stacks[r][1..]; }
    }
  }

  lemma {:induction false} QueueingQueued(s: State, r: nat)
    requires Stacks(s) && Queued(s) && Live(s, r) && s.stacks[r] != []
    ensures s.stacks[r][0] in s.detrefs && Queued(Queueing(s, r))
  {
    TopOnce(s, r);
    var d := s.stacks[r][0];
    var s' := Queueing(s, r);
    forall e, i | e in s'.detrefs && 0 <= i < |s'.detrefs[e].recfifo|
      ensures s'.detrefs[e].recfifo[i] < |s'.stacks| && s'.stacks[s'.detrefs[e].recfifo[i]] == s'.detrefs[e].under
    {
      if e == d && i == |s.detrefs[d].recfifo| {
        assert s'.detrefs[e].recfifo[i] == r;
      } else {
        assert s'.detrefs[e].recfifo[i] == s.detrefs[e].recfifo[i];
        assert s.detrefs[e].recfifo[i] in s.detrefs[e].recfifo;
      }
    }
  }

  lemma {:induction false} LeaveKeeps(s: State, k: nat, r: nat)
    requires Inv(s) && Enabled(s, Leave(k, r))
    ensures Next(s, Leave(k, r)).Some? && Inv(Next(s, Leave(k, r)).value)
  {
    hide Holders, QueueOrder, LogOrder, Stacks, Counts, Queued, Dequeue;
    QueueingCounts(s, r);
    QueueingQueued(s, r);
    var d := s.stacks[r][0];
    var mid := Queueing(s, r);
    SameNumbersKeep(s, mid);
    PopStacks(s, mid, r);
    assert FifoOk(s, k) && LeaveOk(s, k);
    assert s.gates[k].leaveCounter <= s.detrefs[d].seqnr;
    forall m | 0 <= m < |mid.gates| && m != k ensures Prompt(mid, m) {
      assert FifoOk(s, m) && FifoOk(mid, m) && Prompt(s, m);
    }
    DequeuePrompt(mid, k);
  }

  lemma {:induction false} EnterStacks(s: State, k: nat, r: nat)
    requires Stacks(s) && k < |s.gates| && r < |s.stacks|
    requires Draw(s.gates[k], TopKey(s.detrefs, s.stacks[r])).counter >= 1
    ensures Stacks(Entering(s, k, r)) && s.next !in s.detrefs
    ensures forall e :: e in s.stacks[r] ==> e < s.next
  {
    var s' := Entering(s, k, r);
    forall e | e in s.detrefs ensures e < s.next { assert DetrefOk(s, e); }
    forall e | e in s'.detrefs ensures DetrefOk(s', e) {
      if e != s.next {
        assert DetrefOk(s, e);
        assert s.detrefs[e].under != [] ==> s.detrefs[e].under[0] in s.detrefs[e].under;
      }
    }
    forall q, i | 0 <= q < |s'.stacks| && 0 <= i < |s'.stacks[q]|
      ensures s'.stacks[q][i] in s'.detrefs && s'.detrefs[s'.stacks[q][i]].under == s'.stacks[q][i + 1..]
    {
      if q == r {
        if i > 0 {
          assert s'.stacks[r][i] == s.stacks[r][i - 1];
          assert s'.stacks[r][i + 1..] == s.stacks[r][i..];
        } else {
          assert s'.stacks[r][1..] == s.stacks[r];
        }
      }
    }
  }

  lemma {:induction false} EnterCounts(s: State, k: nat, r: nat)
    requires Stacks(s) && Counts(s) && k < |s.gates| && r < |s.stacks| && s.next !in s.detrefs
    requires forall e :: e in s.stacks[r] ==> e < s.next
    ensures Counts(Entering(s, k, r))
  {
    hide Holders;
    var s' := Entering(s, k, r);
    var d := s.next;
    assert forall q :: 0 <= q < |s.stacks| ==> d !in s.stacks[q];
    HoldersNone(s.stacks, d);
    forall e | e in s'.detrefs ensures CountOk(s', e) {
      HoldersUpdate(s.stacks, r, [d] + s.stacks[r], e);
      if e != d { assert CountOk(s, e); }
    }
  }

  /** What the entry hands out. */
  lemma {:induction false} DrawOk(s: State, k: nat, r: nat)
    requires Stacks(s) && k < |s.gates| && r < |s.stacks| && FifoOk(s, k) && QueueOrder(s, k)
    requires !s.gates[k].isDet ==> s.stacks[r] != [] && TopKey(s.detrefs, s.stacks[r]) >= s.gates[k].outer
    ensures var g := s.gates[k];
      var key := TopKey(s.detrefs, s.stacks[r]);
      var g' := Draw(g, key);
      && g'.counter >= 1 && g.counter <= g'.counter && g'.lastKey == key
      && (g'.inOrder ==> g.inOrder && g.lastKey <= key)
      && (g.isDet ==> g.counter < g'.counter)
      && (!g.isDet ==> g'.inOrder && g'.outer == key >= 1 && (g'.counter == g.counter <==> key == g.outer))
  {
    if !s.gates[k].isDet { assert DetrefOk(s, s.stacks[r][0]); }
  }

  lemma {:induction false} EnterFifo(s: State, k: nat, r: nat)
    requires k < |s.gates| && r < |s.stacks| && FifoOk(s, k)
    requires forall d :: d in s.detrefs ==> d < s.next
    ensures var s' := Entering(s, k, r);
      && FifoOk(s', k)
      && (forall i :: 0 <= i < |s.gates[k].detfifo| ==> s'.gates[k].detfifo[i] == s.gates[k].detfifo[i])
      && (forall i :: 0 <= i < |s.gates[k].detfifo| ==> s'.detrefs[s'.gates[k].detfifo[i]] == s.detrefs[s.gates[k].detfifo[i]])
      && |s'.gates[k].detfifo| == |s.gates[k].detfifo| + 1
  {
  }

  lemma {:induction false} EnterQueue(s: State, k: nat, r: nat)
    requires Stacks(s) && k < |s.gates| && r < |s.stacks| && FifoOk(s, k) && QueueOrder(s, k)
    requires forall d :: d in s.detrefs ==> d < s.next
    requires !s.gates[k].isDet ==> s.stacks[r] != [] && TopKey(s.detrefs, s.stacks[r]) >= s.gates[k].outer
    ensures var s' := Entering(s, k, r); FifoOk(s', k) && QueueOrder(s', k)
  {
    hide Draw, TopKey, FifoOk, Stacks;
    DrawOk(s, k, r);
    EnterFifo(s, k, r);
    DrawStatic(s.gates[k], TopKey(s.detrefs, s.stacks[r]));
  }

  lemma {:induction false} DrawStatic(g: Gate, key: nat)
    ensures var g' := Draw(g, key);
      && g'.isDet == g.isDet && g'.detfifo == g.detfifo && g'.leaveCounter == g.leaveCounter && g'.log == g.log
  {
  }

  lemma {:induction false} EnterLog(s: State, k: nat, r: nat)
    requires Stacks(s) && k < |s.gates| && r < |s.stacks| && FifoOk(s, k) && QueueOrder(s, k) && LeaveOk(s, k) && LogOrder(s, k)
    requires forall d :: d in s.detrefs ==> d < s.next
    requires !s.gates[k].isDet ==> s.stacks[r] != [] && TopKey(s.detrefs, s.stacks[r]) >= s.gates[k].outer
    ensures var s' := Entering(s, k, r); FifoOk(s', k) && LeaveOk(s', k) && LogOrder(s', k)
  {
    hide Draw, TopKey, FifoOk, Stacks, QueueOrder;
    DrawOk(s, k, r);
    EnterFifo(s, k, r);
    DrawStatic(s.gates[k], TopKey(s.detrefs, s.stacks[r]));
  }

  lemma {:induction false} EnterPrompt(s: State, k: nat, r: nat)
    requires k < |s.gates| && r < |s.stacks| && FifoOk(s, k) && Prompt(s, k)
    requires forall d :: d in s.detrefs ==> d < s.next
    ensures var s' := Entering(s, k, r); FifoOk(s', k) && Prompt(s', k)
  {
    hide FifoOk;
    EnterFifo(s, k, r);
  }

  lemma {:induction false} EnterFifos(s: State, k: nat, r: nat)
    requires Fifos(s) && k < |s.gates| && r < |s.stacks| && forall d :: d in s.detrefs ==> d < s.next
    ensures Fifos(Entering(s, k, r))
  {
    var s' := Entering(s, k, r);
    EnterFifo(s, k, r);
    forall m | 0 <= m < |s'.gates| ensures FifoOk(s', m) { assert FifoOk(s, m); }
    forall e | e in s'.detrefs ensures e in s'.gates[s'.detrefs[e].leave].detfifo {
      if e != s.next { assert e in s.gates[s.detrefs[e].leave].detfifo; }
    }
  }

  lemma {:induction false} EnterKeeps(s: State, k: nat, r: nat)
    requires Inv(s) && Enabled(s, Enter(k, r)) && !Refuses(s, k, r)
    ensures Next(s, Enter(k, r)).Some? && Inv(Next(s, Enter(k, r)).value)
  {
    hide Holders, QueueOrder, LogOrder, LeaveOk, Stacks, Counts, Queued, Fifos, FifoOk, Draw, Prompt;
    FifosParts(s, k);
    AllKnown(s);
    DrawOk(s, k, r);
    EnterStacks(s, k, r);
    EnterCounts(s, k, r);
    EnterFifos(s, k, r);
    EnterQueued(s, k, r);
    var s' := Entering(s, k, r);
    forall m | 0 <= m < |s'.gates| ensures FifoOk(s', m) && QueueOrder(s', m) && LeaveOk(s', m) && LogOrder(s', m) && Prompt(s', m) {
      FifosParts(s, m);
      FifosParts(s', m);
      if m == k {
        EnterQueue(s, k, r);
        EnterLog(s, k, r);
        EnterPrompt(s, k, r);
      } else {
        EnterOther(s, k, r, m);
      }
    }
  }

  lemma {:induction false} EnterQueued(s: State, k: nat, r: nat)
    requires Queued(s) && Live(s, r) && k < |s.gates| && s.next !in s.detrefs
    ensures Queued(Entering(s, k, r))
  {
    var s' := Entering(s, k, r);
    forall e, i | e in s'.detrefs && 0 <= i < |s'.detrefs[e].recfifo|
      ensures s'.detrefs[e].recfifo[i] < |s'.stacks| && s'.stacks[s'.detrefs[e].recfifo[i]] == s'.detrefs[e].under
    {
      assert s.detrefs[e].recfifo[i] in s.detrefs[e].recfifo;
    }
  }

  lemma {:induction false} EnterOther(s: State, k: nat, r: nat, m: nat)
    requires k < |s.gates| && r < |s.stacks| && m < |s.gates| && m != k && s.next !in s.detrefs
    requires FifoOk(s, m) && QueueOrder(s, m) && LeaveOk(s, m) && LogOrder(s, m) && Prompt(s, m)
    requires FifoOk(Entering(s, k, r), m)
    ensures var s' := Entering(s, k, r); QueueOrder(s', m) && LeaveOk(s', m) && LogOrder(s', m) && Prompt(s', m)
  {
    hide QueueOrder, LogOrder;
    var s' := Entering(s, k, r);
    SameQueueOrder(s, s', m);
    SameLogOrder(s, s', m);
  }

  lemma {:induction false} AllKnown(s: State)
    requires Stacks(s)
    ensures forall d :: d in s.detrefs ==> d < s.next
  {
    forall d | d in s.detrefs ensures d < s.next { assert DetrefOk(s, d); }
  }

  /** Every step finds its detrefs in place, and no check fails but the one an entry makes
      that only supports outer determinism. */
  lemma {:induction false} StepKeepsInv(s: State, step: Step)
    requires Inv(s) && Enabled(s, step)
    ensures Next(s, step).None? <==> Refused(s, step)
    ensures Next(s, step).Some? ==> Inv(Next(s, step).value)
  {
    hide Inv, Refuses;
    if !Refused(s, step) { AcceptedKeeps(s, step); }
  }

  lemma {:induction false} AcceptedKeeps(s: State, step: Step)
    requires Inv(s) && Enabled(s, step) && !Refused(s, step)
    ensures Next(s, step).Some? && Inv(Next(s, step).value)
  {
    hide Inv, Next, Refuses;
    match step
    case Arrive => ArriveKeeps(s);
    case Enter(k, r) => EnterKeeps(s, k, r);
    case Copy(r) => assert Live(s, r) by { CopyLive(s, r); } CopyKeeps(s, r);
    case Drop(r) => DropKeeps(s, r);
    case Close(d) => CloseKeeps(s, d);
    case Leave(k, r) => LeaveKeeps(s, k, r);
    case Notice(k) => NoticeKeeps(s, k);
  }

  lemma {:induction false} CopyLive(s: State, r: nat)
    requires Enabled(s, Copy(r))
    ensures Live(s, r)
  {
  }

  // ---------- whole runs ----------

  /** Networks before the first record. */
  ghost predicate Initial(s: State) {
    && s.detrefs == map[] && s.stacks == [] && s.closing == {} && s.notices == multiset{}
    && forall k :: 0 <= k < |s.gates| ==> s.gates[k] == Gate(s.gates[k].isDet, 0, 0, [], 1, [], 0, true)
  }

  ghost predicate Feasible(s: State, steps: seq<Step>)
    decreases |steps|
  {
    |steps| == 0 ||
    (Enabled(s, steps[0]) && (Next(s, steps[0]).Some? ==> Feasible(Next(s, steps[0]).value, steps[1..])))
  }

  /** The state after the steps; None if some step failed. */
  ghost function Run(s: State, steps: seq<Step>): Option<State>
    requires Feasible(s, steps)
    decreases |steps|
  {
    if |steps| == 0 then Some(s)
    else match Next(s, steps[0])
      case None => None
      case Some(s') => Run(s', steps[1..])
  }

  lemma {:induction false} InitialInv(s: State)
    requires Initial(s)
    ensures Inv(s)
  {
  }

  /** Somewhere in the run an entry refuses a record. */
  ghost predicate RefusedIn(s: State, steps: seq<Step>)
    requires Feasible(s, steps)
    decreases |steps|
  {
    |steps| > 0 && (Refused(s, steps[0]) || (Next(s, steps[0]).Some? && RefusedIn(Next(s, steps[0]).value, steps[1..])))
  }

  /** A run fails if and only if an entry refuses a record: no detref is used after it has been
      freed, and no other check fails. */
  lemma {:induction false} RunIsSafe(s: State, steps: seq<Step>)
    requires Inv(s) && Feasible(s, steps)
    ensures Run(s, steps).None? <==> RefusedIn(s, steps)
    ensures Run(s, steps).Some? ==> Inv(Run(s, steps).value)
    decreases |steps|
  {
    hide Inv, Next, Enabled, Refused;
    if |steps| > 0 {
      StepKeepsInv(s, steps[0]);
      if Next(s, steps[0]).Some? { RunIsSafe(Next(s, steps[0]).value, steps[1..]); }
    }
  }

  /** On every run of any nest of networks: a deterministic network's collector emits all
      records derived from an earlier input before any derived from a later one, and
      where the records have entered with the numbers of the outer network going up, they
      leave with those numbers going up, whatever has happened in between. */
  lemma {:induction false} OrderRestored(s: State, steps: seq<Step>, k: nat, i: nat, j: nat)
    requires Initial(s) && Feasible(s, steps) && Run(s, steps).Some?
    requires k < |Run(s, steps).value.gates| && i < j < |Run(s, steps).value.gates[k].log|
    ensures var g := Run(s, steps).value.gates[k];
      && g.log[i].seqnr <= g.log[j].seqnr
      && (g.isDet ==> g.log[i].detref <= g.log[j].detref)
      && (g.inOrder ==> g.log[i].key <= g.log[j].key)
      && (!g.isDet ==> g.inOrder)
  {
    hide Inv, Next, Enabled, Feasible;
    InitialInv(s);
    RunIsSafe(s, steps);
    OrderHere(Run(s, steps).value, k, i, j);
  }

  lemma {:induction false} OrderHere(s: State, k: nat, i: nat, j: nat)
    requires Inv(s) && k < |s.gates| && i < j < |s.gates[k].log|
    ensures var g := s.gates[k];
      && g.log[i].seqnr <= g.log[j].seqnr
      && (g.isDet ==> g.log[i].detref <= g.log[j].detref)
      && (g.inOrder ==> g.log[i].key <= g.log[j].key)
      && (!g.isDet ==> g.inOrder)
  {
    assert QueueOrder(s, k) && LogOrder(s, k);
  }

  /** The key of a queued record is the number on top of the stack it leaves with. */
  lemma {:induction false} KeyIsOuterNumber(s: State, d: nat, i: nat)
    requires Inv(s) && d in s.detrefs && i < |s.detrefs[d].recfifo|
    ensures var r := s.detrefs[d].recfifo[i];
      r < |s.stacks| && s.stacks[r] == s.detrefs[d].under && TopKey(s.detrefs, s.stacks[r]) == s.detrefs[d].key
  {
    assert DetrefOk(s, d);
  }

  /** A detref counts one more than the records that hold it; when the last of them has
      gone it counts one until that is announced, and then none. */
  lemma {:induction false} CountIsHolders(s: State, steps: seq<Step>, d: nat)
    requires Initial(s) && Feasible(s, steps) && Run(s, steps).Some? && d in Run(s, steps).value.detrefs
    ensures var s' := Run(s, steps).value;
      var h := Holders(s'.stacks, d);
      s'.detrefs[d].refcount == if h > 0 then h + 1 else if d in s'.closing then 1 else 0
  {
    hide Next, Enabled, Feasible, Holders, QueueOrder, LogOrder, LeaveOk, Queued, Fifos, Stacks;
    InitialInv(s);
    RunIsSafe(s, steps);
    assert CountOk(Run(s, steps).value, d);
  }

  /** When no record holds a detref of the network and no announcement is left, its queue
      is empty: every queued record has been emitted. */
  lemma {:induction false} NothingStuck(s: State, steps: seq<Step>, k: nat)
    requires Initial(s) && Feasible(s, steps) && Run(s, steps).Some? && k < |Run(s, steps).value.gates|
    requires var s' := Run(s, steps).value;
      && s'.closing == {} && k !in s'.notices
      && forall i :: 0 <= i < |s'.gates[k].detfifo| ==> Holders(s'.stacks, s'.gates[k].detfifo[i]) == 0
    ensures var s' := Run(s, steps).value;
      s'.gates[k].detfifo == [] && forall d :: d in s'.detrefs ==> s'.detrefs[d].leave != k
  {
    hide Next, Enabled, Feasible, Holders, QueueOrder, LogOrder, LeaveOk, Queued, Stacks;
    InitialInv(s);
    RunIsSafe(s, steps);
    NoneLeft(Run(s, steps).value, k);
  }

  lemma {:induction false} NoneLeft(s: State, k: nat)
    requires Inv(s) && k < |s.gates| && s.closing == {} && k !in s.notices
    requires forall i :: 0 <= i < |s.gates[k].detfifo| ==> Holders(s.stacks, s.gates[k].detfifo[i]) == 0
    ensures s.gates[k].detfifo == [] && forall d :: d in s.detrefs ==> s.detrefs[d].leave != k
  {
    hide Holders, QueueOrder, LogOrder, LeaveOk, Queued, Stacks;
    assert FifoOk(s, k) && Prompt(s, k);
    assert s.gates[k].detfifo == [] || CountOk(s, s.gates[k].detfifo[0]);
  }

  /** A queued record waits for one of an earlier input: for a record that is still to come under
      the first detref, which is another one, or for the news that none will come. Where the
      network only supports the determinism of an outer one, that detref has a smaller outer
      number: records with the same outer number never wait for each other. */
  lemma {:induction false} WaitsForEarlier(s: State, steps: seq<Step>, k: nat, j: nat)
    requires Initial(s) && Feasible(s, steps) && Run(s, steps).Some? && k < |Run(s, steps).value.gates|
    requires var s' := Run(s, steps).value;
      j < |s'.gates[k].detfifo| && s'.gates[k].detfifo[j] in s'.detrefs && s'.detrefs[s'.gates[k].detfifo[j]].recfifo != []
    ensures var s' := Run(s, steps).value;
      var q := s'.gates[k].detfifo;
      && q[0] < q[j] && q[0] in s'.detrefs
      && (!s'.gates[k].isDet ==> s'.detrefs[q[0]].key < s'.detrefs[q[j]].key)
      && (Holders(s'.stacks, q[0]) > 0 || q[0] in s'.closing || k in s'.notices)
  {
    hide Next, Enabled, Feasible, Holders;
    InitialInv(s);
    RunIsSafe(s, steps);
    WaitsHere(Run(s, steps).value, k, j);
  }

  lemma {:induction false} WaitsHere(s: State, k: nat, j: nat)
    requires Inv(s) && k < |s.gates| && FifoOk(s, k)
    requires j < |s.gates[k].detfifo| && s.detrefs[s.gates[k].detfifo[j]].recfifo != []
    ensures var q := s.gates[k].detfifo;
      && q[0] < q[j]
      && (!s.gates[k].isDet ==> s.detrefs[q[0]].key < s.detrefs[q[j]].key)
      && (Holders(s.stacks, q[0]) > 0 || q[0] in s.closing || k in s.notices)
  {
    hide Holders, Stacks, Queued;
    BaseParts(s, k);
    assert Prompt(s, k);
    assert CountOk(s, s.gates[k].detfifo[0]);
  }
}
