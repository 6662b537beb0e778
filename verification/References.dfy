/** Reference counting between the node that owns an object and one remote node,
    over two FIFO channels. All entries and messages here are those for one pointer;
    the pointer may be reused for a new object once the owner has dropped its entry. */
module References {
  import opened Options

  /** The identity of the data behind a pointer: a reused pointer has new data. */
  type Object = nat

  /** The owner's entry for data that other nodes refer to. */
  datatype LocalEntry = LocalEntry(count: int, data: Object)

  /** A remote node's entry: its references, the data once it has been fetched, and
      the references that wait for it. */
  datatype RemoteEntry = RemoteEntry(count: int, data: Option<Object>, waiters: seq<Object>)

  /** Messages to the owner: a counter update, a reference inside a record, a request for the data. */
  datatype ToOwner = Update(value: int) | Returned | Fetch

  /** Messages to the remote node: a reference inside a record, a copy of the data. */
  datatype ToRemote = Ref(data: Object) | Set(data: Object)

  // ---------- the two sides ----------

  function Nonzero(e: LocalEntry): Option<LocalEntry> {
    if e.count == 0 then None else Some(e)
  }

  /** The owner sends a reference. */
  function Export(e: Option<LocalEntry>, data: Object): Option<LocalEntry> {
    match e
    case None => Some(LocalEntry(1, data))
    case Some(x) => Some(x.(count := x.count + 1))
  }

  /** The owner takes in a counter change; None if it has no entry. */
  function Adjust(e: Option<LocalEntry>, value: int): Option<Option<LocalEntry>> {
    match e
    case None => None
    case Some(x) => Some(Nonzero(x.(count := x.count + value)))
  }

  function Import(e: Option<RemoteEntry>): Option<RemoteEntry> {
    match e
    case None => Some(RemoteEntry(1, None, []))
    case Some(x) => Some(x.(count := x.count + 1))
  }

  /** The remote side gives up one reference. */
  function Drop(e: RemoteEntry): Option<RemoteEntry> {
    if e.count - 1 == 0 then None else Some(e.(count := e.count - 1))
  }

  /** The data arrives: it answers all waiters, and stays while references are left. */
  function Arrive(e: RemoteEntry, data: Object): Option<RemoteEntry> {
    var left := e.count - |e.waiters|;
    if left > 0 then Some(RemoteEntry(left, Some(data), [])) else None
  }

  // ---------- the system ----------

  /** `handles` are the live references of the remote node, `unused` is the next new
      object, `served` pairs what was asked for with what was delivered, `leak` counts
      the waiters beyond the first of every fetch. */
  datatype System = System(
    owner: Option<LocalEntry>, remote: Option<RemoteEntry>, handles: seq<Object>,
    toOwner: seq<ToOwner>, toRemote: seq<ToRemote>,
    unused: Object, served: seq<(Object, Object)>, leak: nat)

  datatype Step =
    | Send                    // the owner sends a reference
    | OwnerReceives
    | RemoteReceives
    | Copy(handle: nat)
    | GetData(handle: nat)
    | Destroy(handle: nat)
    | Return(handle: nat)     // the remote node sends a reference back

  /** Each of those who wait gets the data. */
  function Pairs(waiters: seq<Object>, data: Object): (answers: seq<(Object, Object)>)
    ensures |answers| == |waiters| && forall i :: 0 <= i < |waiters| ==> answers[i] == (waiters[i], data)
  {
    seq(|waiters|, i requires 0 <= i < |waiters| => (waiters[i], data))
  }

  predicate Enabled(s: System, step: Step) {
    match step
    case Send => true
    case OwnerReceives => |s.toOwner| > 0
    case RemoteReceives => |s.toRemote| > 0
    case Copy(h) => h < |s.handles|
    case GetData(h) => h < |s.handles|
    case Destroy(h) => h < |s.handles|
    case Return(h) => h < |s.handles|
  }

  function Change(m: ToOwner): int {
    match m
    case Update(v) => v
    case Returned => -1
    case Fetch => -1
  }

  /** One step; None where the code would look up an entry that is not there. */
  function Next(s: System, step: Step): Option<System>
    requires Enabled(s, step)
  {
    match step
    case Send =>
      var data := if s.owner.Some? then s.owner.value.data else s.unused;
      Some(s.(owner := Export(s.owner, data), toRemote := s.toRemote + [Ref(data)],
              unused := if s.owner.Some? then s.unused else s.unused + 1))
    case OwnerReceives =>
      (match Adjust(s.owner, Change(s.toOwner[0]))
       case None => None
       case Some(owner) =>
         Some(s.(owner := owner, toOwner := s.toOwner[1..],
                 toRemote := if s.toOwner[0].Fetch? then s.toRemote + [Set(s.owner.value.data)] else s.toRemote)))
    case RemoteReceives =>
      var rest := s.(toRemote := s.toRemote[1..]);
      (match s.toRemote[0]
       case Ref(data) => Some(rest.(remote := Import(s.remote), handles := s.handles + [data]))
       case Set(data) =>
         if s.remote.None? then None
         else
           var waiters := s.remote.value.waiters;
           Some(rest.(remote := Arrive(s.remote.value, data), served := s.served + Pairs(waiters, data),
                      leak := s.leak + if |waiters| > 0 then |waiters| - 1 else 0)))
    case Copy(h) =>
      if s.remote.None? then None
      else if s.remote.value.data.Some? then Some(s)
      else Some(s.(remote := Import(s.remote), handles := s.handles + [s.handles[h]], toOwner := s.toOwner + [Update(1)]))
    case GetData(h) =>
      if s.remote.None? then None
      else
        var e := s.remote.value;
        var rest := s.(handles := Without(s.handles, h));
        if e.data.None? then
          Some(rest.(remote := Some(e.(waiters := e.waiters + [s.handles[h]])),
                     toOwner := if e.waiters == [] then s.toOwner + [Fetch] else s.toOwner))
        else
          Some(rest.(remote := Drop(e), toOwner := s.toOwner + [Update(-1)],
                     served := s.served + [(s.handles[h], e.data.value)]))
    case Destroy(h) =>
      if s.remote.None? then None
      else Some(s.(handles := Without(s.handles, h), remote := Drop(s.remote.value), toOwner := s.toOwner + [Update(-1)]))
    case Return(h) =>
      if s.remote.None? then None
      else Some(s.(handles := Without(s.handles, h), remote := Drop(s.remote.value), toOwner := s.toOwner + [Returned]))
  }

  // ---------- the invariant ----------

  function Delta(ms: seq<ToOwner>): int {
    if |ms| == 0 then 0 else Delta(ms[..|ms| - 1]) + Change(ms[|ms| - 1])
  }

  function Fetches(ms: seq<ToOwner>): nat {
    if |ms| == 0 then 0 else Fetches(ms[..|ms| - 1]) + if ms[|ms| - 1].Fetch? then 1 else 0
  }

  function Refs(ms: seq<ToRemote>): nat {
    if |ms| == 0 then 0 else Refs(ms[..|ms| - 1]) + if ms[|ms| - 1].Ref? then 1 else 0
  }

  function Count(e: Option<LocalEntry>): int { if e.Some? then e.value.count else 0 }

  function Held(e: Option<RemoteEntry>): int { if e.Some? then e.value.count else 0 }

  function Waiting(e: Option<RemoteEntry>): seq<Object> { if e.Some? then e.value.waiters else [] }

  /** Every pending message finds an entry at the owner. */
  ghost predicate EntryStays(s: System) {
    forall k :: 0 <= k < |s.toOwner| ==> Count(s.owner) + Delta(s.toOwner[..k]) >= 1
  }

  /** The data of an earlier object is still on its way to its only waiter. */
  predicate Settling(s: System) {
    |s.toRemote| > 0 && s.toRemote[0].Set? && (s.owner.None? || s.toRemote[0].data != s.owner.value.data)
  }

  ghost predicate Objects(s: System) {
    && (s.owner.Some? ==> s.owner.value.data < s.unused)
    && (s.owner.Some? && !Settling(s) ==> AllOf(s, s.owner.value.data))
    && (Settling(s) ==>
          && s.toRemote[0].data < s.unused && s.handles == [] && Waiting(s.remote) == [s.toRemote[0].data] && s.toOwner == []
          && (forall i :: 1 <= i < |s.toRemote| ==> s.owner.Some? && s.toRemote[i] == Ref(s.owner.value.data)))
    && (s.owner.None? && !Settling(s) ==> s.toRemote == [] && s.toOwner == [] && s.remote.None?)
  }

  /** Everything in sight belongs to this object. */
  ghost predicate AllOf(s: System, data: Object) {
    && (forall i :: 0 <= i < |s.handles| ==> s.handles[i] == data)
    && (forall i :: 0 <= i < |Waiting(s.remote)| ==> Waiting(s.remote)[i] == data)
    && (forall i :: 0 <= i < |s.toRemote| ==> s.toRemote[i].data == data)
    && (s.remote.Some? && s.remote.value.data.Some? ==> s.remote.value.data.value == data)
  }

  ghost predicate Sides(s: System) {
    && (s.owner.Some? ==> s.owner.value.count >= 1)
    && (s.remote.Some? ==> s.remote.value.count >= 1 && (s.remote.value.data.Some? ==> s.remote.value.waiters == []))
    && Held(s.remote) == |s.handles| + |Waiting(s.remote)|
  }

  /** What the owner counts, once the pending messages are in, is what the remote side
      holds, plus what is on its way there, plus what has leaked. */
  ghost predicate Counted(s: System) {
    && Count(s.owner) + Delta(s.toOwner) + One(Waiting(s.remote) != []) == Held(s.remote) + Refs(s.toRemote) + s.leak
    && Fetches(s.toOwner) + (|s.toRemote| - Refs(s.toRemote)) == One(Waiting(s.remote) != [])
  }

  ghost predicate Served(s: System) {
    forall i :: 0 <= i < |s.served| ==> s.served[i].0 == s.served[i].1
  }

  ghost predicate Inv(s: System) {
    Sides(s) && Counted(s) && EntryStays(s) && Objects(s) && Served(s)
  }

  // ---------- sums over messages ----------

  lemma {:induction false} DeltaAppend(ms: seq<ToOwner>, m: ToOwner)
    ensures Delta(ms + [m]) == Delta(ms) + Change(m)
    ensures Fetches(ms + [m]) == Fetches(ms) + One(m.Fetch?)
  {
    assert (ms + [m])[..|ms|] == ms;
  }

  lemma {:induction false} DeltaTail(ms: seq<ToOwner>)
    requires |ms| > 0
    ensures Delta(ms) == Change(ms[0]) + Delta(ms[1..])
    ensures Fetches(ms) == One(ms[0].Fetch?) + Fetches(ms[1..])
    decreases |ms|
  {
    var n := |ms| - 1;
    if n > 0 {
      DeltaTail(ms[..n]);
      assert ms[..n][1..] == ms[1..][..n - 1];
    }
  }

  lemma {:induction false} RefsAppend(ms: seq<ToRemote>, m: ToRemote)
    ensures Refs(ms + [m]) == Refs(ms) + One(m.Ref?)
  {
    assert (ms + [m])[..|ms|] == ms;
  }

  lemma {:induction false} RefsTail(ms: seq<ToRemote>)
    requires |ms| > 0
    ensures Refs(ms) == One(ms[0].Ref?) + Refs(ms[1..])
    decreases |ms|
  {
    var n := |ms| - 1;
    if n > 0 {
      RefsTail(ms[..n]);
      assert ms[..n][1..] == ms[1..][..n - 1];
    }
  }

  lemma {:induction false} RefsBound(ms: seq<ToRemote>)
    ensures Refs(ms) <= |ms|
    ensures Refs(ms) == |ms| <==> forall i :: 0 <= i < |ms| ==> ms[i].Ref?
  {
    if |ms| > 0 { RefsBound(ms[..|ms| - 1]); }
  }

  lemma {:induction false} FetchesBound(ms: seq<ToOwner>)
    ensures Fetches(ms) == 0 <==> forall i :: 0 <= i < |ms| ==> !ms[i].Fetch?
  {
    if |ms| > 0 { FetchesBound(ms[..|ms| - 1]); }
  }

  // ---------- every step keeps the invariant ----------

  /** A live handle means the owner has an entry that outlasts all pending messages. */
  lemma {:induction false} HandleHolds(s: System)
    requires Inv(s) && |s.handles| > 0
    ensures s.owner.Some? && s.remote.Some? && !Settling(s)
    ensures Count(s.owner) + Delta(s.toOwner) >= 1
  {
    RefsBound(s.toRemote);
  }

  lemma {:induction false} SendKeeps(s: System)
    requires Inv(s)
    ensures Next(s, Send).Some? && Inv(Next(s, Send).value)
  {
    var s' := Next(s, Send).value;
    RefsAppend(s.toRemote, Ref(s'.owner.value.data));
    assert EntryStays(s');
    assert s.owner.Some? ==> Settling(s') == Settling(s);
  }

  lemma {:induction false} NothingPending(s: System)
    requires EntryStays(s) && s.owner.None?
    ensures s.toOwner == []
  {
    assert s.toOwner == [] || Count(s.owner) + Delta(s.toOwner[..0]) >= 1;
  }

  /** The owner has an entry for every message that comes in. */
  lemma {:induction false} EntryThere(s: System)
    requires EntryStays(s) && |s.toOwner| > 0
    ensures s.owner.Some? && Next(s, OwnerReceives).Some?
  {
    assert Count(s.owner) + Delta(s.toOwner[..0]) >= 1;
  }

  lemma {:induction false} OwnerReceivesKeeps(s: System)
    requires Inv(s) && |s.toOwner| > 0
    ensures Next(s, OwnerReceives).Some? && Inv(Next(s, OwnerReceives).value)
  {
    hide Delta, Refs, Fetches;
    EntryThere(s);
    assert !Settling(s);
    var s' := Next(s, OwnerReceives).value;
    OwnerReceivesCounts(s);
    if s'.owner.None? {
      DroppedEntry(s, s');
    } else {
      assert !Settling(s');
    }
  }

  lemma {:induction false} OwnerReceivesCounts(s: System)
    requires Inv(s) && |s.toOwner| > 0 && s.owner.Some?
    ensures var s' := Next(s, OwnerReceives).value; Sides(s') && Counted(s') && EntryStays(s')
  {
    hide Delta, Refs, Fetches, Objects, Served;
    var s' := Next(s, OwnerReceives).value;
    DeltaTail(s.toOwner);
    RefsAppend(s.toRemote, Set(s.owner.value.data));
    forall k | 0 <= k < |s'.toOwner| ensures Count(s'.owner) + Delta(s'.toOwner[..k]) >= 1 {
      assert Count(s.owner) + Delta(s.toOwner[..k + 1]) >= 1;
      DeltaTail(s.toOwner[..k + 1]);
      assert s.toOwner[..k + 1][1..] == s'.toOwner[..k];
    }
    DeltaOne(s.toOwner);
    assert |s.toOwner| == 1 ==> s.toOwner[..1] == s.toOwner;
    assert |s.toOwner| > 1 ==> Count(s.owner) + Delta(s.toOwner[..1]) >= 1;
    TotalStays(s);
  }

  lemma {:induction false} DeltaOne(ms: seq<ToOwner>)
    requires |ms| > 0
    ensures Delta(ms[..1]) == Change(ms[0])
  {
    DeltaTail(ms[..1]);
  }

  /** Once all messages are in, the owner's count is not negative. */
  lemma {:induction false} TotalStays(s: System)
    requires Inv(s)
    ensures Count(s.owner) + Delta(s.toOwner) >= 0
  {
    hide Delta, Fetches, Objects, Served;
  }

  lemma {:induction false} NothingComes()
    ensures Delta([]) == 0 && Fetches([]) == 0 && Refs([]) == 0
  {
  }

  /** When the owner drops its entry nothing is left, except that the data may be on
      its way to one last waiter. */
  lemma {:induction false} DroppedEntry(s: System, s': System)
    requires Inv(s) && !Settling(s) && s.owner.Some? && |s.toOwner| > 0
    requires s'.owner.None? && s'.toOwner == s.toOwner[1..] && s'.remote == s.remote && s'.handles == s.handles
    requires s'.unused == s.unused
    requires s'.toRemote == (if s.toOwner[0].Fetch? then s.toRemote + [Set(s.owner.value.data)] else s.toRemote)
    requires Counted(s') && EntryStays(s') && Sides(s') && s'.leak == s.leak
    ensures Objects(s')
  {
    hide EntryStays, Served, Delta, Fetches, Refs;
    NothingPending(s');
    RefsBound(s'.toRemote);
    NothingComes();
    if Waiting(s'.remote) == [] {
      assert s'.toRemote == [];
    } else {
      assert |s'.toRemote| == 1;
      assert Waiting(s.remote)[0] == s.owner.value.data;
    }
  }

  lemma {:induction false} RemoteReceivesKeeps(s: System)
    requires Inv(s) && |s.toRemote| > 0
    ensures Next(s, RemoteReceives).Some? && Inv(Next(s, RemoteReceives).value)
  {
    RefsTail(s.toRemote);
    RefsBound(s.toRemote);
    RefsBound(s.toRemote[1..]);
    if s.toRemote[0].Ref? {
      var s' := Next(s, RemoteReceives).value;
      assert s.owner.Some? && !Settling(s);
      assert EntryStays(s');
      assert !Settling(s');
    } else {
      SetKeeps(s);
    }
  }

  lemma {:induction false} SetKeeps(s: System)
    requires Inv(s) && |s.toRemote| > 0 && s.toRemote[0].Set?
    ensures Next(s, RemoteReceives).Some? && Inv(Next(s, RemoteReceives).value)
  {
    RefsTail(s.toRemote);
    RefsBound(s.toRemote[1..]);
    var s' := Next(s, RemoteReceives).value;
    var data := s.toRemote[0].data;
    assert forall i :: 0 <= i < |s'.toRemote| ==> s'.toRemote[i].Ref?;
    assert !Settling(s');
    assert EntryStays(s');
  }

  /** A message from the remote side is only sent while the owner has an entry. */
  lemma {:induction false} SentSafely(s: System, m: ToOwner)
    requires EntryStays(s) && Count(s.owner) + Delta(s.toOwner) >= 1
    ensures EntryStays(s.(toOwner := s.toOwner + [m]))
  {
    var ms := s.toOwner + [m];
    forall k | 0 <= k < |ms| ensures Count(s.owner) + Delta(ms[..k]) >= 1 {
      assert ms[..k] == if k < |s.toOwner| then s.toOwner[..k] else s.toOwner;
    }
  }

  lemma {:induction false} CopyKeeps(s: System, h: nat)
    requires Inv(s) && h < |s.handles|
    ensures Next(s, Copy(h)).Some? && Inv(Next(s, Copy(h)).value)
  {
    hide Delta, Refs, Fetches;
    HandleHolds(s);
    var s' := Next(s, Copy(h)).value;
    SentSafely(s, Update(1));
    DeltaAppend(s.toOwner, Update(1));
    assert !Settling(s');
  }

  lemma {:induction false} GetDataKeeps(s: System, h: nat)
    requires Inv(s) && h < |s.handles|
    ensures Next(s, GetData(h)).Some? && Inv(Next(s, GetData(h)).value)
  {
    hide Delta, Refs, Fetches;
    HandleHolds(s);
    var s' := Next(s, GetData(h)).value;
    var m := if s.remote.value.data.None? then Fetch else Update(-1);
    SentSafely(s, m);
    DeltaAppend(s.toOwner, m);
    assert !Settling(s');
    assert Waiting(s'.remote) == if s.remote.value.data.None? then Waiting(s.remote) + [s.handles[h]] else [];
  }

  lemma {:induction false} GiveUpKeeps(s: System, step: Step)
    requires Inv(s) && Enabled(s, step) && (step.Destroy? || step.Return?)
    ensures Next(s, step).Some? && Inv(Next(s, step).value)
  {
    hide Delta, Refs, Fetches;
    HandleHolds(s);
    var s' := Next(s, step).value;
    var m := if step.Destroy? then Update(-1) else Returned;
    SentSafely(s, m);
    DeltaAppend(s.toOwner, m);
    assert !Settling(s');
  }

  /** No entry is ever missing, and the invariant is kept. */
  lemma {:induction false} StepKeepsInv(s: System, step: Step)
    requires Inv(s) && Enabled(s, step)
    ensures Next(s, step).Some? && Inv(Next(s, step).value)
  {
    hide Inv, Next;
    match step
    case Send => SendKeeps(s);
    case OwnerReceives => OwnerReceivesKeeps(s);
    case RemoteReceives => RemoteReceivesKeeps(s);
    case Copy(h) => CopyKeeps(s, h);
    case GetData(h) => GetDataKeeps(s, h);
    case Destroy(h) => GiveUpKeeps(s, step);
    case Return(h) => GiveUpKeeps(s, step);
  }

  // ---------- whole runs ----------

  function Start(): System {
    System(None, None, [], [], [], 0, [], 0)
  }

  /** The steps can be taken one after the other. */
  predicate Feasible(s: System, steps: seq<Step>)
    decreases |steps|
  {
    |steps| == 0 ||
    (Enabled(s, steps[0]) && (Next(s, steps[0]).Some? ==> Feasible(Next(s, steps[0]).value, steps[1..])))
  }

  /** The state after the steps; None if some step missed an entry. */
  function Run(s: System, steps: seq<Step>): Option<System>
    requires Feasible(s, steps)
    decreases |steps|
  {
    if |steps| == 0 then Some(s)
    else match Next(s, steps[0])
      case None => None
      case Some(s') => Run(s', steps[1..])
  }

  /** No run misses an entry; every request is answered with the data of the very object
      that was asked for, reused pointers included. */
  lemma {:induction false} RunIsSafe(s: System, steps: seq<Step>)
    requires Inv(s) && Feasible(s, steps)
    ensures Run(s, steps).Some? && Inv(Run(s, steps).value)
    decreases |steps|
  {
    hide Inv, Next;
    if |steps| > 0 {
      StepKeepsInv(s, steps[0]);
      RunIsSafe(Next(s, steps[0]).value, steps[1..]);
    }
  }

  // ---------- every request is answered ----------

  /** What has been answered, by what was asked for. */
  function Answered(s: System): seq<Object> {
    seq(|s.served|, i requires 0 <= i < |s.served| => s.served[i].0)
  }

  /** What was asked for on the run: the object of each reference whose data was to be got. */
  function Requests(s: System, steps: seq<Step>): multiset<Object>
    requires Feasible(s, steps)
    decreases |steps|
  {
    if |steps| == 0 then multiset{}
    else
      (if steps[0].GetData? then multiset{s.handles[steps[0].handle]} else multiset{}) +
      (if Next(s, steps[0]).Some? then Requests(Next(s, steps[0]).value, steps[1..]) else multiset{})
  }

  /** A request is answered at once, or waits; and those that wait are answered when the data comes. */
  lemma {:induction false} RequestKept(s: System, step: Step)
    requires Inv(s) && Enabled(s, step) && Next(s, step).Some?
    ensures var s' := Next(s, step).value;
      multiset(Answered(s')) + multiset(Waiting(s'.remote)) ==
      multiset(Answered(s)) + multiset(Waiting(s.remote)) + (if step.GetData? then multiset{s.handles[step.handle]} else multiset{})
  {
    hide Counted, EntryStays, Objects, Served, Adjust, Export;
    var s' := Next(s, step).value;
    if step.GetData? && s.remote.value.data.Some? {
      assert Answered(s') == Answered(s) + [s.handles[step.handle]];
    } else if step.RemoteReceives? && s.toRemote[0].Set? {
      assert Answered(s') == Answered(s) + Waiting(s.remote);
    } else {
      assert Answered(s') == Answered(s);
    }
  }

  /** On every run, the requests made are exactly those that have been answered and those
      that wait; and when nothing is under way, none waits. */
  lemma {:induction false} RequestsAnswered(steps: seq<Step>)
    requires Feasible(Start(), steps)
    ensures Run(Start(), steps).Some?
    ensures var s := Run(Start(), steps).value;
      && Requests(Start(), steps) == multiset(Answered(s)) + multiset(Waiting(s.remote))
      && (forall i :: 0 <= i < |s.served| ==> s.served[i].0 == s.served[i].1)
      && (s.toOwner == [] && s.toRemote == [] ==> Waiting(s.remote) == [])
  {
    assert Inv(Start());
    RunIsSafe(Start(), steps);
    RequestsKept(Start(), steps);
    NothingComes();
  }

  lemma {:induction false} RequestsKept(s: System, steps: seq<Step>)
    requires Inv(s) && Feasible(s, steps)
    ensures Run(s, steps).Some?
    ensures var s' := Run(s, steps).value;
      multiset(Answered(s')) + multiset(Waiting(s'.remote)) == multiset(Answered(s)) + multiset(Waiting(s.remote)) + Requests(s, steps)
    decreases |steps|
  {
    hide Inv, Next, Enabled, Answered, Waiting;
    if |steps| > 0 {
      StepKeepsInv(s, steps[0]);
      RequestKept(s, steps[0]);
      RequestsKept(Next(s, steps[0]).value, steps[1..]);
    }
  }

  /** Only by receiving messages these steps come to a state with nothing under way and no request waiting. */
  ghost predicate Settles(s: System, steps: seq<Step>) {
    && (forall i :: 0 <= i < |steps| ==> steps[i].OwnerReceives? || steps[i].RemoteReceives?)
    && Feasible(s, steps) && Run(s, steps).Some?
    && var s' := Run(s, steps).value;
      s'.toOwner == [] && s'.toRemote == [] && Waiting(s'.remote) == []
  }

  lemma {:induction false} SettlesAfter(s: System, step: Step, rest: seq<Step>)
    requires Enabled(s, step) && Next(s, step).Some? && Settles(Next(s, step).value, rest)
    requires step.OwnerReceives? || step.RemoteReceives?
    ensures Settles(s, [step] + rest)
  {
    hide Next, Enabled;
    assert ([step] + rest)[1..] == rest;
  }

  /** A message is received, and at most an answer to the remote node is sent. */
  lemma {:induction false} Receives(s: System, step: Step)
    requires Enabled(s, step) && Next(s, step).Some? && (step.OwnerReceives? || step.RemoteReceives?)
    ensures var s' := Next(s, step).value;
      2 * |s'.toOwner| + |s'.toRemote| < 2 * |s.toOwner| + |s.toRemote|
  {
  }

  /** No request waits for good: from every state the messages under way, received one by one,
      bring all answers. */
  lemma {:induction false} CanAnswer(s: System)
    requires Inv(s)
    ensures exists steps :: Settles(s, steps)
    decreases 2 * |s.toOwner| + |s.toRemote|
  {
    hide Inv, Next, Settles;
    if s.toOwner == [] && s.toRemote == [] {
      SettledNow(s);
    } else {
      var step := if s.toOwner != [] then OwnerReceives else RemoteReceives;
      StepKeepsInv(s, step);
      Receives(s, step);
      CanAnswer(Next(s, step).value);
      var rest :| Settles(Next(s, step).value, rest);
      SettlesAfter(s, step, rest);
    }
  }

  lemma {:induction false} SettledNow(s: System)
    requires Inv(s) && s.toOwner == [] && s.toRemote == []
    ensures Settles(s, [])
  {
    NothingComes();
  }

  /** The data is there: it has come, or comes with this message. */
  predicate Fetched(s: System, step: Step) {
    || (s.remote.Some? && s.remote.value.data.Some?)
    || (step.RemoteReceives? && |s.toRemote| > 0 && s.toRemote[0].Set?)
  }

  /** From when it has come the data stays for as long as a reference is left, and is not
      fetched again: whoever asks gets it at once. */
  lemma {:induction false} DataStays(s: System, step: Step)
    requires Inv(s) && Enabled(s, step) && Fetched(s, step)
    ensures Next(s, step).Some?
    ensures var s' := Next(s, step).value;
      && (s'.remote.Some? <==> s'.handles != []) && (s'.remote.Some? ==> s'.remote.value.data.Some?)
      && Fetches(s'.toOwner) <= Fetches(s.toOwner)
      && (step.GetData? ==> s'.served == s.served + [(s.handles[step.handle], s.remote.value.data.value)])
  {
    hide Counted, EntryStays, Objects, Served, Delta, Refs, Fetches;
    StepKeepsInv(s, step);
    if |s.toOwner| > 0 { DeltaTail(s.toOwner); }
    DeltaAppend(s.toOwner, Update(-1));
    DeltaAppend(s.toOwner, Returned);
    assert !(step.Copy? && s.remote.value.data.None?);
  }

  // ---------- what stays at the owner ----------

  /** Every fetch on the run has exactly one reference waiting for it. */
  predicate OneWaiterEach(s: System, steps: seq<Step>)
    requires Feasible(s, steps)
    decreases |steps|
  {
    |steps| == 0 ||
    (Next(s, steps[0]).Some? ==>
      && (steps[0].RemoteReceives? && s.toRemote[0].Set? ==> |Waiting(s.remote)| <= 1)
      && OneWaiterEach(Next(s, steps[0]).value, steps[1..]))
  }

  lemma {:induction false} LeakExactly(s: System, steps: seq<Step>)
    requires Inv(s) && Feasible(s, steps) && Run(s, steps).Some?
    ensures Run(s, steps).value.leak >= s.leak
    ensures Run(s, steps).value.leak == s.leak <==> OneWaiterEach(s, steps)
    decreases |steps|
  {
    hide Inv;
    if |steps| > 0 {
      StepKeepsInv(s, steps[0]);
      LeakExactly(Next(s, steps[0]).value, steps[1..]);
    }
  }

  predicate Idle(s: System) {
    s.handles == [] && s.toOwner == [] && s.toRemote == []
  }

  /** When nothing refers to the object any more, the owner has dropped its entry if and
      only if no fetch had several references waiting for it: only the first of them is
      ever counted down at the owner. */
  lemma {:induction false} EntryDroppedExactly(steps: seq<Step>)
    requires Feasible(Start(), steps) && Run(Start(), steps).Some? && Idle(Run(Start(), steps).value)
    ensures var s := Run(Start(), steps).value;
      && s.remote.None? && Count(s.owner) == s.leak
      && (s.owner.None? <==> OneWaiterEach(Start(), steps))
  {
    assert Inv(Start());
    RunIsSafe(Start(), steps);
    LeakExactly(Start(), steps);
  }

  predicate LeavesEntry(steps: seq<Step>) {
    && Feasible(Start(), steps) && Run(Start(), steps).Some?
    && Idle(Run(Start(), steps).value) && Run(Start(), steps).value.owner == Some(LocalEntry(1, 0))
  }

  /** Two references that wait for the same fetch leave the owner with an entry that is
      never dropped. */
  lemma {:induction false} TwoWaitersLeak()
    ensures exists steps :: LeavesEntry(steps)
  {
    var s1 := Next(Start(), Send).value;
    var s2 := Next(s1, Send).value;
    var s3 := Next(s2, RemoteReceives).value;
    var s4 := Next(s3, RemoteReceives).value;
    var s5 := Next(s4, GetData(0)).value;
    var s6 := Next(s5, GetData(0)).value;
    var s7 := Next(s6, OwnerReceives).value;
    var s8 := Next(s7, RemoteReceives).value;
    assert Feasible(s8, []) && Run(s8, []) == Some(s8);
    Prepend(s7, RemoteReceives, [], s8);
    Prepend(s6, OwnerReceives, [RemoteReceives], s8);
    Prepend(s5, GetData(0), [OwnerReceives, RemoteReceives], s8);
    Prepend(s4, GetData(0), [GetData(0), OwnerReceives, RemoteReceives], s8);
    Prepend(s3, RemoteReceives, [GetData(0), GetData(0), OwnerReceives, RemoteReceives], s8);
    Prepend(s2, RemoteReceives, [RemoteReceives, GetData(0), GetData(0), OwnerReceives, RemoteReceives], s8);
    Prepend(s1, Send, [RemoteReceives, RemoteReceives, GetData(0), GetData(0), OwnerReceives, RemoteReceives], s8);
    Prepend(Start(), Send, [Send, RemoteReceives, RemoteReceives, GetData(0), GetData(0), OwnerReceives, RemoteReceives], s8);
    assert LeavesEntry([Send] + [Send, RemoteReceives, RemoteReceives, GetData(0), GetData(0), OwnerReceives, RemoteReceives]);
  }

  lemma {:induction false} Prepend(s: System, step: Step, steps: seq<Step>, end: System)
    requires Enabled(s, step) && Next(s, step).Some?
    requires Feasible(Next(s, step).value, steps) && Run(Next(s, step).value, steps) == Some(end)
    ensures Feasible(s, [step] + steps) && Run(s, [step] + steps) == Some(end)
  {
    assert ([step] + steps)[1..] == steps;
  }
}
