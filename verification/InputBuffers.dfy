/** The input manager's buffers: records for a full stream overflow into a list, and a
    callback of the reader gets them going again. */
module InputBuffers {
  import opened Options

  datatype Rec = Data(id: int) | Terminate

  /** The buffer of one destination. `stream` is the bounded stream it writes to,
      `pending` the reads whose callback has not run yet, `counter` its own count of the
      records out there, `list` the overflow. `arrived` and `read` are the histories of
      what came in and what the reader has got; `blocked` is what the senders were told. */
  datatype Buffer = Buffer(
    size: nat, stream: seq<Rec>, pending: nat, counter: nat, list: seq<Rec>, done: bool,
    blocked: bool, arrived: seq<Rec>, read: seq<Rec>)

  /** All buffers, those that wait for an update (in order), the update messages under
      way, and the buffers that have been freed. */
  datatype State = State(bufs: map<nat, Buffer>, unblocked: seq<nat>, updates: nat, freed: map<nat, Buffer>)

  datatype Step =
    | Open(dest: nat, size: nat)       // a new destination
    | Handle(dest: nat, rec: Rec)      // a record arrives for a destination
    | Read(dest: nat)                  // the reader takes a record from the stream
    | Callback(dest: nat)              // ... and then runs the callback
    | Update                           // an update message is handled

  predicate Enabled(s: State, step: Step) {
    match step
    case Open(d, size) => d !in s.bufs && d !in s.freed && size > 0
    case Handle(d, r) => d in s.bufs && !s.bufs[d].done
    case Read(d) => d in s.bufs && s.bufs[d].stream != []
    case Callback(d) => d in s.bufs && s.bufs[d].pending > 0
    case Update => s.updates > 0
  }

  /** Write overflown records until the stream is full or none is left. */
  function Drain(b: Buffer): Buffer
    decreases |b.list|
  {
    if b.list == [] || |b.stream| == b.size then b
    else Drain(b.(stream := b.stream + [b.list[0]], counter := b.counter + 1, list := b.list[1..]))
  }

  function Unblocking(b: Buffer): Buffer {
    if b.list == [] && !b.done then b.(blocked := false) else b
  }

  /** Handle all waiting buffers, in order. None if one of them has been freed. */
  function UpdateAll(bufs: map<nat, Buffer>, unblocked: seq<nat>): Option<map<nat, Buffer>> {
    if unblocked == [] then Some(bufs)
    else if unblocked[0] !in bufs then None
    else UpdateAll(bufs[unblocked[0] := Unblocking(Drain(bufs[unblocked[0]]))], unblocked[1..])
  }

  function Handled(b: Buffer, r: Rec): Buffer {
    var b1 := b.(done := r.Terminate?, arrived := b.arrived + [r]);
    if b.list == [] && |b.stream| < b.size then b1.(stream := b.stream + [r], counter := b.counter + 1)
    else b1.(list := b.list + [r], blocked := if |b.list + [r]| == 1 then true else b.blocked)
  }

  /** One step; None where a freed buffer or a counter of zero would be touched. */
  function Next(s: State, step: Step): Option<State>
    requires Enabled(s, step)
  {
    match step
    case Open(d, size) => Some(s.(bufs := s.bufs[d := Buffer(size, [], 0, 0, [], false, false, [], [])]))
    case Handle(d, r) => Some(s.(bufs := s.bufs[d := Handled(s.bufs[d], r)]))
    case Read(d) =>
      var b := s.bufs[d];
      Some(s.(bufs := s.bufs[d := b.(stream := b.stream[1..], read := b.read + [b.stream[0]], pending := b.pending + 1)]))
    case Callback(d) =>
      if s.bufs[d].counter == 0 then None
      else
        var b := s.bufs[d].(pending := s.bufs[d].pending - 1, counter := s.bufs[d].counter - 1);
        var counted := s.(bufs := s.bufs[d := b]);
        if b.counter > 0 then Some(counted)
        else if b.list != [] then
          Some(counted.(unblocked := s.unblocked + [d], updates := if s.unblocked == [] then s.updates + 1 else s.updates))
        else if b.done then Some(s.(bufs := s.bufs - {d}, freed := s.freed[d := b]))
        else Some(counted)
    case Update =>
      (match UpdateAll(s.bufs, s.unblocked)
       case None => None
       case Some(bufs) => Some(s.(bufs := bufs, unblocked := [], updates := s.updates - 1)))
  }

  // ---------- the invariant ----------

  ghost predicate BufferOk(b: Buffer, waiting: bool) {
    && b.size > 0 && |b.stream| <= b.size
    && b.counter == |b.stream| + b.pending
    && b.read + b.stream + b.list == b.arrived
    && (b.list != [] ==> b.counter > 0 || waiting)
    && (waiting ==> b.list != [] && b.counter == 0)
    && (!b.done ==> (b.blocked <==> b.list != []))
    && (b.done <==> b.arrived != [] && b.arrived[|b.arrived| - 1] == Terminate)
    && (forall i :: 0 <= i < |b.arrived| - 1 ==> b.arrived[i] != Terminate)
    && (b.done ==> b.counter > 0 || b.list != [])
  }

  /** A buffer is freed when the reader has got everything, the termination last. */
  ghost predicate FreedOk(b: Buffer) {
    b.done && b.read == b.arrived && b.pending == 0 && b.stream == [] && b.list == []
  }

  ghost predicate Inv(s: State) {
    && (forall d :: d in s.bufs ==> BufferOk(s.bufs[d], d in s.unblocked))
    && (forall i :: 0 <= i < |s.unblocked| ==> s.unblocked[i] in s.bufs)
    && (forall i, j :: 0 <= i < j < |s.unblocked| ==> s.unblocked[i] != s.unblocked[j])
    && (s.unblocked != [] ==> s.updates > 0)
    && (forall d :: d in s.freed ==> FreedOk(s.freed[d]) && d !in s.bufs)
  }

  // ---------- every step keeps the invariant ----------

  lemma {:induction false} DrainKeeps(b: Buffer)
    requires b.size > 0 && |b.stream| <= b.size && b.counter == |b.stream| + b.pending
    requires b.read + b.stream + b.list == b.arrived
    ensures var b' := Drain(b);
      && b'.(stream := b.stream, counter := b.counter, list := b.list) == b
      && |b'.stream| <= b.size && b'.counter == |b'.stream| + b.pending
      && b'.read + b'.stream + b'.list == b'.arrived
      && (b'.list == [] || |b'.stream| == b.size)
    decreases |b.list|
  {
    if b.list != [] && |b.stream| < b.size {
      var b1 := b.(stream := b.stream + [b.list[0]], counter := b.counter + 1, list := b.list[1..]);
      assert b.read + (b.stream + [b.list[0]]) + b.list[1..] == b.read + b.stream + ([b.list[0]] + b.list[1..]);
      assert [b.list[0]] + b.list[1..] == b.list;
      DrainKeeps(b1);
    }
  }

  lemma {:induction false} WaitingDrained(b: Buffer)
    requires BufferOk(b, true)
    ensures BufferOk(Unblocking(Drain(b)), false)
  {
    DrainKeeps(b);
  }

  lemma {:induction false} UpdateAllKeeps(bufs: map<nat, Buffer>, unblocked: seq<nat>)
    requires forall d :: d in bufs ==> BufferOk(bufs[d], d in unblocked)
    requires forall i :: 0 <= i < |unblocked| ==> unblocked[i] in bufs
    requires forall i, j :: 0 <= i < j < |unblocked| ==> unblocked[i] != unblocked[j]
    ensures UpdateAll(bufs, unblocked).Some?
    ensures var bufs' := UpdateAll(bufs, unblocked).value;
      bufs'.Keys == bufs.Keys && forall d :: d in bufs' ==> BufferOk(bufs'[d], false)
    decreases |unblocked|
  {
    hide BufferOk, Drain;
    if unblocked != [] {
      var d := unblocked[0];
      WaitingDrained(bufs[d]);
      var bufs1 := bufs[d := Unblocking(Drain(bufs[d]))];
      var rest := unblocked[1..];
      assert unblocked == [d] + rest;
      forall e | e in bufs1 ensures BufferOk(bufs1[e], e in rest) {
        assert e != d ==> (e in rest <==> e in unblocked);
      }
      UpdateAllKeeps(bufs1, rest);
    }
  }

  lemma {:induction false} HandledKeeps(b: Buffer, r: Rec, waiting: bool)
    requires BufferOk(b, waiting) && !b.done
    ensures BufferOk(Handled(b, r), waiting)
  {
    var b' := Handled(b, r);
    assert b'.read + b'.stream + b'.list == b.read + b.stream + b.list + [r];
  }

  lemma {:induction false} ReadKeeps(b: Buffer, waiting: bool)
    requires BufferOk(b, waiting) && b.stream != []
    ensures BufferOk(b.(stream := b.stream[1..], read := b.read + [b.stream[0]], pending := b.pending + 1), waiting)
  {
    assert b.stream == [b.stream[0]] + b.stream[1..];
    assert b.read + [b.stream[0]] + b.stream[1..] == b.read + b.stream;
  }

  lemma {:induction false} CallbackKeeps(s: State, d: nat)
    requires Inv(s) && Enabled(s, Callback(d))
    ensures Next(s, Callback(d)).Some? && Inv(Next(s, Callback(d)).value)
  {
    hide BufferOk;
    CallbackBuffer(s.bufs[d], d in s.unblocked);
    var s' := Next(s, Callback(d)).value;
    forall e | e in s'.bufs ensures BufferOk(s'.bufs[e], e in s'.unblocked) {
      assert BufferOk(s.bufs[e], e in s.unblocked);
    }
  }

  /** What a callback makes of its buffer. */
  lemma {:induction false} CallbackBuffer(b: Buffer, waiting: bool)
    requires BufferOk(b, waiting) && b.pending > 0
    ensures !waiting && b.counter > 0
    ensures var b' := b.(pending := b.pending - 1, counter := b.counter - 1);
      && (b'.counter > 0 ==> BufferOk(b', false))
      && (b'.counter == 0 && b'.list != [] ==> BufferOk(b', true))
      && (b'.counter == 0 && b'.list == [] && b.done ==> FreedOk(b'))
      && (b'.counter == 0 && b'.list == [] && !b.done ==> BufferOk(b', false))
  {
    if b.list == [] { assert b.read + b.stream + [] == b.read + b.stream; }
    if b.stream == [] { assert b.read + [] == b.read; }
  }

  lemma {:induction false} OneBufferKeeps(s: State, d: nat, b: Buffer)
    requires Inv(s) && d in s.bufs && BufferOk(b, d in s.unblocked)
    ensures Inv(s.(bufs := s.bufs[d := b]))
  {
    hide BufferOk;
  }

  lemma {:induction false} OpenKeeps(s: State, d: nat, size: nat)
    requires Inv(s) && Enabled(s, Open(d, size))
    ensures Inv(Next(s, Open(d, size)).value)
  {
    hide BufferOk;
    EmptyOk(size);
  }

  lemma {:induction false} EmptyOk(size: nat)
    requires size > 0
    ensures BufferOk(Buffer(size, [], 0, 0, [], false, false, [], []), false)
  {
  }

  lemma {:induction false} StepKeepsInv(s: State, step: Step)
    requires Inv(s) && Enabled(s, step)
    ensures Next(s, step).Some? && Inv(Next(s, step).value)
  {
    hide BufferOk, Handled;
    match step
    case Open(d, size) => OpenKeeps(s, d, size);
    case Handle(d, r) =>
      HandledKeeps(s.bufs[d], r, d in s.unblocked);
      OneBufferKeeps(s, d, Handled(s.bufs[d], r));
    case Read(d) =>
      ReadKeeps(s.bufs[d], d in s.unblocked);
      OneBufferKeeps(s, d, Next(s, step).value.bufs[d]);
    case Callback(d) => CallbackKeeps(s, d);
    case Update => UpdateAllKeeps(s.bufs, s.unblocked);
  }

  // ---------- whole runs ----------

  function Start(): State {
    State(map[], [], 0, map[])
  }

  predicate Feasible(s: State, steps: seq<Step>)
    decreases |steps|
  {
    |steps| == 0 ||
    (Enabled(s, steps[0]) && (Next(s, steps[0]).Some? ==> Feasible(Next(s, steps[0]).value, steps[1..])))
  }

  function Run(s: State, steps: seq<Step>): Option<State>
    requires Feasible(s, steps)
    decreases |steps|
  {
    if |steps| == 0 then Some(s)
    else match Next(s, steps[0])
      case None => None
      case Some(s') => Run(s', steps[1..])
  }

  lemma {:induction false} RunIsSafe(s: State, steps: seq<Step>)
    requires Inv(s) && Feasible(s, steps)
    ensures Run(s, steps).Some? && Inv(Run(s, steps).value)
    decreases |steps|
  {
    hide Inv, Next, Enabled;
    if |steps| > 0 {
      StepKeepsInv(s, steps[0]);
      RunIsSafe(Next(s, steps[0]).value, steps[1..]);
    }
  }

  /** What arrives for a destination is handed on in order, none lost and none twice. */
  lemma {:induction false} DeliveredInOrder(steps: seq<Step>, d: nat)
    requires Feasible(Start(), steps)
    ensures Run(Start(), steps).Some?
    ensures var s := Run(Start(), steps).value;
      && (d in s.bufs ==> s.bufs[d].read + s.bufs[d].stream + s.bufs[d].list == s.bufs[d].arrived && |s.bufs[d].stream| <= s.bufs[d].size)
      && (d in s.freed ==> s.freed[d].read == s.freed[d].arrived && s.freed[d].done)
  {
    hide Feasible, Run, Next, Enabled;
    assert Inv(Start());
    RunIsSafe(Start(), steps);
    var s := Run(Start(), steps).value;
    assert d in s.bufs ==> BufferOk(s.bufs[d], d in s.unblocked);
  }

  /** No buffer gets stuck: while records have overflown, the stream holds some, or the
      callback of a read is still to run, or the buffer waits, once, for an update that
      is under way. The senders are blocked exactly while there is an overflow. */
  lemma {:induction false} NothingStuck(steps: seq<Step>, d: nat)
    requires Feasible(Start(), steps)
    ensures Run(Start(), steps).Some?
    ensures var s := Run(Start(), steps).value;
      d in s.bufs && s.bufs[d].list != [] ==>
        || s.bufs[d].stream != [] || s.bufs[d].pending > 0
        || (multiset(s.unblocked)[d] == 1 && s.updates > 0)
    ensures var s := Run(Start(), steps).value;
      d in s.bufs && !s.bufs[d].done ==> (s.bufs[d].blocked <==> s.bufs[d].list != [])
  {
    hide Feasible, Run, Next, Enabled;
    assert Inv(Start());
    RunIsSafe(Start(), steps);
    var s := Run(Start(), steps).value;
    assert d in s.bufs ==> BufferOk(s.bufs[d], d in s.unblocked);
    if d in s.unblocked { OnceOnly(s.unblocked, d); }
  }

  lemma {:induction false} OnceOnly(q: seq<nat>, d: nat)
    requires d in q && forall i, j :: 0 <= i < j < |q| ==> q[i] != q[j]
    ensures multiset(q)[d] == 1
  {
    var n := |q| - 1;
    assert q == q[..n] + [q[n]];
    if q[n] == d {
      assert d !in q[..n];
    } else {
      OnceOnly(q[..n], d);
    }
  }

  /** The record that a step brings for a destination. */
  function Brings(step: Step, d: nat): seq<Rec> {
    if step.Handle? && step.dest == d then [step.rec] else []
  }

  function ArrivedFor(steps: seq<Step>, d: nat): seq<Rec> {
    if |steps| == 0 then [] else Brings(steps[0], d) + ArrivedFor(steps[1..], d)
  }

  /** What has come in for a buffer that is there, or was freed. */
  function Known(s: State, d: nat): seq<Rec> {
    if d in s.bufs then s.bufs[d].arrived else if d in s.freed then s.freed[d].arrived else []
  }

  lemma {:induction false} UpdateArrived(bufs: map<nat, Buffer>, unblocked: seq<nat>, d: nat)
    requires UpdateAll(bufs, unblocked).Some?
    ensures var bufs' := UpdateAll(bufs, unblocked).value;
      (d in bufs' <==> d in bufs) && (d in bufs ==> bufs'[d].arrived == bufs[d].arrived)
    decreases |unblocked|
  {
    if unblocked != [] {
      DrainArrived(bufs[unblocked[0]]);
      UpdateArrived(bufs[unblocked[0] := Unblocking(Drain(bufs[unblocked[0]]))], unblocked[1..], d);
    }
  }

  lemma {:induction false} DrainArrived(b: Buffer)
    ensures Drain(b).arrived == b.arrived
    decreases |b.list|
  {
    if b.list != [] && |b.stream| != b.size {
      DrainArrived(b.(stream := b.stream + [b.list[0]], counter := b.counter + 1, list := b.list[1..]));
    }
  }

  lemma {:induction false} StepArrived(s: State, step: Step, d: nat)
    requires Inv(s) && Enabled(s, step) && Next(s, step).Some?
    ensures Known(Next(s, step).value, d) == Known(s, d) + Brings(step, d)
  {
    hide BufferOk, FreedOk, Drain, Unblocking, UpdateAll, Handled, Next, Enabled;
    if step.Update? {
      UpdateKnown(s, step, d);
    } else {
      BufferKnown(s, step, d);
    }
  }

  lemma {:induction false} UpdateKnown(s: State, step: Step, d: nat)
    requires Enabled(s, step) && Next(s, step).Some? && step.Update?
    ensures Known(Next(s, step).value, d) == Known(s, d)
  {
    hide UpdateAll;
    UpdateArrived(s.bufs, s.unblocked, d);
  }

  lemma {:induction false} BufferKnown(s: State, step: Step, d: nat)
    requires Inv(s) && Enabled(s, step) && Next(s, step).Some? && !step.Update?
    ensures Known(Next(s, step).value, d) == Known(s, d) + Brings(step, d)
  {
    hide BufferOk, FreedOk, UpdateAll;
  }

  /** On every run the history of a destination is what arrived for it; so what its reader has
      got, what is in its stream and what has overflown are these records, in their order, and
      when its buffer has been freed the reader has got them all. */
  lemma {:induction false} NothingLost(s: State, steps: seq<Step>, d: nat)
    requires Inv(s) && Feasible(s, steps)
    ensures Run(s, steps).Some?
    ensures var s' := Run(s, steps).value;
      && Known(s', d) == Known(s, d) + ArrivedFor(steps, d)
      && (d in s'.bufs ==> s'.bufs[d].read + s'.bufs[d].stream + s'.bufs[d].list == Known(s, d) + ArrivedFor(steps, d))
      && (d in s'.freed ==> s'.freed[d].read == Known(s, d) + ArrivedFor(steps, d))
    decreases |steps|
  {
    hide Next, Enabled, Known, Brings, Inv;
    if |steps| > 0 {
      StepKeepsInv(s, steps[0]);
      StepArrived(s, steps[0], d);
      NothingLost(Next(s, steps[0]).value, steps[1..], d);
      assert (Known(s, d) + Brings(steps[0], d)) + ArrivedFor(steps[1..], d) == Known(s, d) + ArrivedFor(steps, d);
    } else {
      KnownReads(s, d);
    }
  }

  lemma {:induction false} KnownReads(s: State, d: nat)
    requires Inv(s)
    ensures d in s.bufs ==> s.bufs[d].read + s.bufs[d].stream + s.bufs[d].list == Known(s, d)
    ensures d in s.freed ==> s.freed[d].read == Known(s, d)
  {
    assert d in s.bufs ==> BufferOk(s.bufs[d], d in s.unblocked);
  }

  // ---------- all can always be delivered ----------

  /** The reader has got all that arrived; after a termination the buffer has been freed. */
  predicate Served(s: State, d: nat) {
    d in s.freed || (d in s.bufs && !s.bufs[d].done && !s.bufs[d].blocked && s.bufs[d].read == s.bufs[d].arrived && s.bufs[d].pending == 0)
  }

  /** The next step towards it: read while there is something in the stream, then run the callbacks,
      then have the overflow handled. */
  function Onward(s: State, d: nat): Step
    requires d in s.bufs
  {
    if s.bufs[d].stream != [] then Read(d) else if s.bufs[d].pending > 0 then Callback(d) else Update
  }

  /** What an update does to a buffer: records move from the overflow to the stream. */
  lemma {:induction false} DrainMoves(b: Buffer)
    ensures var b' := Drain(b);
      && b'.pending == b.pending && b'.read == b.read && b'.done == b.done && b'.arrived == b.arrived
      && |b'.stream| + |b'.list| == |b.stream| + |b.list|
      && (b.list != [] && |b.stream| < b.size ==> |b'.list| < |b.list|)
    decreases |b.list|
  {
    if b.list != [] && |b.stream| != b.size {
      DrainMoves(b.(stream := b.stream + [b.list[0]], counter := b.counter + 1, list := b.list[1..]));
    }
  }

  /** The update handles this buffer if it waits, once. */
  lemma {:induction false} UpdateMoves(bufs: map<nat, Buffer>, unblocked: seq<nat>, d: nat)
    requires UpdateAll(bufs, unblocked).Some? && d in bufs
    requires forall i, j :: 0 <= i < j < |unblocked| ==> unblocked[i] != unblocked[j]
    ensures var bufs' := UpdateAll(bufs, unblocked).value;
      d in bufs' && bufs'[d] == if d in unblocked then Unblocking(Drain(bufs[d])) else bufs[d]
    decreases |unblocked|
  {
    hide Drain, Unblocking;
    if unblocked != [] {
      UpdateMoves(bufs[unblocked[0] := Unblocking(Drain(bufs[unblocked[0]]))], unblocked[1..], d);
    }
  }

  lemma {:induction false} UpdateShortens(s: State, d: nat)
    requires Inv(s) && d in s.bufs && s.bufs[d].stream == [] && s.bufs[d].pending == 0 && s.bufs[d].list != []
    ensures Enabled(s, Update) && Next(s, Update).Some?
    ensures var s' := Next(s, Update).value;
      && d in s'.bufs && s'.bufs[d].pending == 0
      && |s'.bufs[d].stream| + |s'.bufs[d].list| == |s.bufs[d].list| && |s'.bufs[d].list| < |s.bufs[d].list|
  {
    hide Drain, Inv, UpdateAll;
    OverflowWaits(s, d);
    UpdateMoves(s.bufs, s.unblocked, d);
    DrainMoves(s.bufs[d]);
  }

  lemma {:induction false} OverflowWaits(s: State, d: nat)
    requires Inv(s) && d in s.bufs && s.bufs[d].stream == [] && s.bufs[d].pending == 0 && s.bufs[d].list != []
    ensures d in s.unblocked && s.updates > 0 && s.bufs[d].size > 0 && UpdateAll(s.bufs, s.unblocked).Some?
    ensures forall i, j :: 0 <= i < j < |s.unblocked| ==> s.unblocked[i] != s.unblocked[j]
  {
    hide UpdateAll;
    assert BufferOk(s.bufs[d], d in s.unblocked);
    UpdateAllKeeps(s.bufs, s.unblocked);
  }

  lemma {:induction false} OnwardSteps(s: State, d: nat)
    requires Inv(s) && d in s.bufs && !Served(s, d)
    ensures Enabled(s, Onward(s, d)) && Next(s, Onward(s, d)).Some?
    ensures var b, s' := s.bufs[d], Next(s, Onward(s, d)).value;
      d in s'.freed || (d in s'.bufs && Nearer(b, s'.bufs[d]))
  {
    hide Drain, FreedOk, UpdateAll;
    var b := s.bufs[d];
    assert BufferOk(b, d in s.unblocked);
    if b.stream == [] && b.pending == 0 {
      UpdateShortens(s, d);
    }
  }

  /** Less is left to be read, or to be called back, or has overflown. */
  predicate Nearer(b: Buffer, b': Buffer) {
    || |b'.stream| + |b'.list| < |b.stream| + |b.list|
    || (|b'.stream| + |b'.list| == |b.stream| + |b.list| && (b'.pending < b.pending || (b'.pending == b.pending && |b'.list| < |b.list|)))
  }

  /** These steps, of the reader and of updates only, deliver all that has arrived. */
  ghost predicate Delivers(s: State, d: nat, steps: seq<Step>) {
    && (forall i :: 0 <= i < |steps| ==> steps[i].Update? || steps[i] == Read(d) || steps[i] == Callback(d))
    && Feasible(s, steps) && Run(s, steps).Some? && Served(Run(s, steps).value, d)
  }

  lemma {:induction false} DeliversAfter(s: State, d: nat, step: Step, rest: seq<Step>)
    requires Enabled(s, step) && Next(s, step).Some? && Delivers(Next(s, step).value, d, rest)
    requires step.Update? || step == Read(d) || step == Callback(d)
    ensures Delivers(s, d, [step] + rest)
  {
    hide Next, Enabled, Served;
    assert ([step] + rest)[1..] == rest;
  }

  /** No destination is stuck: from every state the reader, its callbacks and updates can deliver all
      that has arrived, unblock the senders, and free the buffer after a termination. */
  lemma {:induction false} CanDeliver(s: State, d: nat)
    requires Inv(s) && d in s.bufs
    ensures exists steps :: Delivers(s, d, steps)
    decreases |s.bufs[d].stream| + |s.bufs[d].list|, s.bufs[d].pending, |s.bufs[d].list|
  {
    hide Inv, Next, Enabled, Served, Delivers;
    if Served(s, d) {
      ServedNow(s, d);
    } else {
      var step := Onward(s, d);
      OnwardSteps(s, d);
      StepKeepsInv(s, step);
      var s' := Next(s, step).value;
      if d in s'.freed {
        FreedServed(s', d);
        ServedNow(s', d);
        DeliversAfter(s, d, step, []);
      } else {
        CanDeliver(s', d);
        var rest :| Delivers(s', d, rest);
        DeliversAfter(s, d, step, rest);
      }
    }
  }

  lemma {:induction false} ServedNow(s: State, d: nat)
    requires Served(s, d)
    ensures Delivers(s, d, [])
  {
  }

  lemma {:induction false} FreedServed(s: State, d: nat)
    requires d in s.freed
    ensures Served(s, d)
  {
  }
}
