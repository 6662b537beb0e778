/** Networks in series and inside one another: what one collector emits is what the next
    entry sees, so that numbers go up wherever an entry of an inner network checks them. */
module DetSeries {
  import opened Options
  import D = Determinism

  /** What puts records into a stream: the outside, an entry (for its own network), a
      collector, or a dispatcher behind another stream. */
  datatype Feeder = World | Entry(gate: nat) | Collector(gate: nat) | Stream(stream: nat)

  /** How streams connect the gates. Each stream has one feeder, and lies inside one
      deterministic network (`owner`) or outside of all. A gate reads from `input`; its own
      network starts at `body`, its collector writes to `output`, and `isDet` tells whether it
      is deterministic itself. */
  datatype Plan = Plan(source: seq<Feeder>, owner: seq<Option<nat>>, input: seq<nat>, body: seq<nat>, output: seq<nat>,
                       isDet: seq<bool>)

  /** The records on each stream, first one first, and the largest number put there. */
  datatype Net = Net(det: D.State, streams: seq<seq<nat>>, high: seq<nat>)

  datatype Step =
    | Arrive(stream: nat)
    | Enter(gate: nat)
    | Route(from: nat, to: nat)          // a dispatcher
    | Copy(stream: nat, at: nat)         // a box or filter: the copy follows its original
    | Destroy(stream: nat, at: nat)      // ... takes a record off
    | Pop(rec: nat)                      // which then gives up its detrefs one by one
    | Close(detref: nat)
    | Leave(stream: nat)                 // the first record reaches the collector
    | Notice(gate: nat)
    | Overtake(stream: nat, at: nat)     // several contexts of a nondeterministic box at work

  predicate WellPlanned(p: Plan) {
    && |p.owner| == |p.source| && |p.body| == |p.input| == |p.output| == |p.isDet|
    && (forall k :: 0 <= k < |p.input| ==>
          && p.input[k] < |p.source| && (!p.isDet[k] ==> p.owner[p.input[k]].Some?)
          && p.body[k] < |p.source| && p.source[p.body[k]] == Entry(k) && p.owner[p.body[k]] == Some(k)
          && p.output[k] < |p.source| && p.source[p.output[k]] == Collector(k) && p.owner[p.output[k]] == p.owner[p.input[k]])
    && (forall l :: 0 <= l < |p.source| ==> FeederOk(p, l))
  }

  predicate FeederOk(p: Plan, l: nat)
    requires |p.owner| == |p.source| && |p.body| == |p.input| == |p.output| && l < |p.source|
  {
    match p.source[l]
    case World => p.owner[l] == None
    case Entry(k) => k < |p.input| && p.body[k] == l
    case Collector(k) => k < |p.input| && p.output[k] == l
    case Stream(m) => m < |p.source| && m != l && p.owner[m] == p.owner[l]
  }

  /** The plan is for these gates. */
  predicate Fitting(p: Plan, n: Net) {
    && WellPlanned(p) && |n.streams| == |n.high| == |p.source| && |n.det.gates| == |p.input|
    && forall k :: 0 <= k < |n.det.gates| ==> n.det.gates[k].isDet == p.isDet[k]
  }

  // ---------- steps ----------

  ghost predicate Enabled(p: Plan, n: Net, step: Step)
    requires Fitting(p, n)
  {
    match step
    case Arrive(l) => l < |n.streams| && p.source[l] == World
    case Enter(k) => k < |p.input| && n.streams[p.input[k]] != []
    case Route(l, m) => l < |n.streams| && m < |n.streams| && p.source[m] == Stream(l) && n.streams[l] != []
    case Copy(l, i) => l < |n.streams| && i < |n.streams[l]|
    case Destroy(l, i) => l < |n.streams| && i < |n.streams[l]|
    case Pop(r) =>
      D.Live(n.det, r) && n.det.stacks[r] != [] && forall l, i :: 0 <= l < |n.streams| && 0 <= i < |n.streams[l]| ==> n.streams[l][i] != r
    case Close(d) => d in n.det.closing
    case Leave(l) => l < |n.streams| && n.streams[l] != [] && p.owner[l].Some? && p.owner[l].value < |p.input|
    case Notice(k) => k < |p.input| && k in n.det.notices
    case Overtake(l, i) => l < |n.streams| && i + 1 < |n.streams[l]|
  }

  /** What the step does to detrefs, entries and collectors. */
  ghost function Inner(p: Plan, n: Net, step: Step): Option<D.Step>
    requires Fitting(p, n) && Enabled(p, n, step)
  {
    match step
    case Arrive(_) => Some(D.Arrive)
    case Enter(k) => Some(D.Enter(k, n.streams[p.input[k]][0]))
    case Route(_, _) => None
    case Copy(l, i) => Some(D.Copy(n.streams[l][i]))
    case Destroy(_, _) => None
    case Pop(r) => Some(D.Drop(r))
    case Close(d) => Some(D.Close(d))
    case Leave(l) => Some(D.Leave(p.owner[l].value, n.streams[l][0]))
    case Notice(k) => Some(D.Notice(k))
    case Overtake(_, _) => None
  }

  /** The sequence number a record shows to the entry of an inner network. */
  function Key(det: D.State, r: nat): nat {
    if r < |det.stacks| then D.TopKey(det.detrefs, det.stacks[r]) else 0
  }

  function LastKey(log: seq<D.Emission>): nat { if log == [] then 0 else log[|log| - 1].key }

  /** What a collector has emitted in a step. */
  function Emitted(before: seq<D.Emission>, log: seq<D.Emission>): seq<nat> {
    if |log| <= |before| then [] else seq<nat>(|log| - |before|, i requires 0 <= i < |log| - |before| => log[|before| + i].rec)
  }

  function Taken(n: Net, l: nat, i: nat): Net
    requires l < |n.streams| && i < |n.streams[l]|
  {
    n.(streams := n.streams[l := Without(n.streams[l], i)])
  }

  function Put(n: Net, l: nat, recs: seq<nat>, top: nat): Net
    requires l < |n.streams| == |n.high|
  {
    n.(streams := n.streams[l := n.streams[l] + recs], high := n.high[l := top])
  }

  function Inserted(n: Net, l: nat, i: nat, r: nat): Net
    requires l < |n.streams| && i < |n.streams[l]|
  {
    n.(streams := n.streams[l := n.streams[l][..i + 1] + [r] + n.streams[l][i + 1..]])
  }

  /** Where the records are after the step. */
  ghost function Moved(p: Plan, n: Net, step: Step, det: D.State): Net
    requires Fitting(p, n) && Enabled(p, n, step) && |det.gates| == |n.det.gates|
  {
    match step
    case Arrive(l) => Put(n.(det := det), l, [|n.det.stacks|], 0)
    case Enter(k) => Put(Taken(n, p.input[k], 0).(det := det), p.body[k], [n.streams[p.input[k]][0]], det.gates[k].counter)
    case Route(l, m) => Put(Taken(n, l, 0), m, [n.streams[l][0]], Key(n.det, n.streams[l][0]))
    case Copy(l, i) => Inserted(n.(det := det), l, i, |n.det.stacks|)
    case Destroy(l, i) => Taken(n, l, i)
    case Pop(_) => n.(det := det)
    case Close(_) => n.(det := det)
    case Leave(l) => Emitting(p, Taken(n, l, 0), p.owner[l].value, det)
    case Notice(k) => Emitting(p, n, k, det)
    case Overtake(l, i) =>
      n.(streams := n.streams[l := n.streams[l][i := n.streams[l][i + 1]][i + 1 := n.streams[l][i]]])
  }

  function Emitting(p: Plan, n: Net, k: nat, det: D.State): Net
    requires Fitting(p, n) && k < |p.input| && |det.gates| == |n.det.gates|
  {
    Put(n.(det := det), p.output[k], Emitted(n.det.gates[k].log, det.gates[k].log), LastKey(det.gates[k].log))
  }

  /** One step; None where a check of the code fails. For an entry the checks are that the
      record has a detref, and that its number is not below the last one (xdet.c:149). */
  ghost function Next(p: Plan, n: Net, step: Step): Option<Net>
    requires Fitting(p, n) && Enabled(p, n, step)
  {
    match Inner(p, n, step)
    case None => Some(Moved(p, n, step, n.det))
    case Some(inner) =>
      if !D.Enabled(n.det, inner) then None
      else match D.Next(n.det, inner)
        case None => None
        case Some(det) => if |det.gates| == |n.det.gates| then Some(Moved(p, n, step, det)) else None
  }

  // ---------- the invariant ----------

  predicate NoDup(s: seq<nat>) {
    forall i, j :: 0 <= i < j < |s| ==> s[i] != s[j]
  }

  /** Each record is in one place. */
  ghost predicate Placed(det: D.State, streams: seq<seq<nat>>) {
    && (forall l :: 0 <= l < |streams| ==> NoDup(streams[l]))
    && (forall l, r :: 0 <= l < |streams| && r in streams[l] ==> D.Live(det, r))
    && (forall l, m, r :: 0 <= l < |streams| && 0 <= m < |streams| && l != m && r in streams[l] ==> r !in streams[m])
    && (forall d :: d in det.detrefs ==> NoDup(det.detrefs[d].recfifo))
    && (forall d, e, r :: d in det.detrefs && e in det.detrefs && d != e && r in det.detrefs[d].recfifo ==> r !in det.detrefs[e].recfifo)
  }

  /** The stack is that of a record inside the network: its top detref was drawn there. */
  predicate Inside(det: D.State, stack: seq<nat>, owner: Option<nat>) {
    match owner
    case None => stack == []
    case Some(k) => stack != [] && (stack[0] in det.detrefs ==> det.detrefs[stack[0]].leave == k)
  }

  predicate Home(det: D.State, r: nat, owner: Option<nat>) {
    r < |det.stacks| && Inside(det, det.stacks[r], owner)
  }

  ghost predicate Homes(p: Plan, n: Net)
    requires Fitting(p, n)
  {
    && (forall l, r :: 0 <= l < |n.streams| && r in n.streams[l] ==> Home(n.det, r, p.owner[l]))
    && (forall d :: d in n.det.detrefs ==> BelowHome(p, n.det, d))
  }

  /** What was under a detref when it was drawn is the stack of a record at that network's entry. */
  predicate BelowHome(p: Plan, det: D.State, d: nat)
    requires WellPlanned(p) && d in det.detrefs
  {
    det.detrefs[d].leave < |p.input| && Inside(det, det.detrefs[d].under, p.owner[p.input[det.detrefs[d].leave]])
  }

  ghost predicate Rising(det: D.State, s: seq<nat>) {
    forall i, j :: 0 <= i < j < |s| ==> Key(det, s[i]) <= Key(det, s[j])
  }

  ghost predicate AtLeast(det: D.State, low: nat, s: seq<nat>) {
    forall r :: r in s ==> low <= Key(det, r)
  }

  ghost predicate AtMost(det: D.State, s: seq<nat>, top: nat) {
    forall r :: r in s ==> Key(det, r) <= top
  }

  /** Streams on which numbers go up, with those that feed them from the same network. */
  ghost predicate Closed(p: Plan, calm: set<nat>)
    requires |p.output| == |p.input|
  {
    forall l :: 0 <= l < |p.source| && l in calm ==>
      match p.source[l]
      case World => true
      case Entry(k) => true
      case Collector(k) => k < |p.input| && p.input[k] in calm
      case Stream(m) => m in calm
  }

  /** Numbers go up along these streams, and what is still to be put there is no smaller. */
  ghost predicate Ordered(p: Plan, calm: set<nat>, n: Net)
    requires Fitting(p, n)
  {
    forall l :: 0 <= l < |n.streams| && l in calm ==> Rising(n.det, n.streams[l]) && AtMost(n.det, n.streams[l], n.high[l]) && StillToCome(p, n, l)
  }

  ghost predicate StillToCome(p: Plan, n: Net, l: nat)
    requires Fitting(p, n) && l < |n.streams|
  {
    assert FeederOk(p, l);
    match p.source[l]
    case World => n.high[l] == 0
    case Entry(k) => n.high[l] <= n.det.gates[k].counter
    case Collector(k) => n.high[l] <= LastKey(n.det.gates[k].log)
    case Stream(m) => n.high[l] <= n.high[m] && AtLeast(n.det, n.high[l], n.streams[m])
  }

  /** Nothing on its way to a gate has a smaller number than what has entered there. */
  ghost predicate EntryOk(p: Plan, n: Net, k: nat)
    requires Fitting(p, n) && k < |p.input|
  {
    && n.det.gates[k].inOrder && n.det.gates[k].lastKey <= n.high[p.input[k]]
    && AtLeast(n.det, n.det.gates[k].lastKey, n.streams[p.input[k]])
  }

  ghost predicate Entries(p: Plan, calm: set<nat>, n: Net)
    requires Fitting(p, n)
  {
    forall k :: 0 <= k < |p.input| && p.input[k] in calm ==> EntryOk(p, n, k)
  }

  /** Each record is in its place, and numbers go up along the calm streams. With none of
      these nothing is said about the order. */
  ghost predicate Lanes(p: Plan, calm: set<nat>, n: Net) {
    Fitting(p, n) && Closed(p, calm) && Placed(n.det, n.streams) && Homes(p, n) && Ordered(p, calm, n) && Entries(p, calm, n)
  }

  ghost predicate Inv(p: Plan, calm: set<nat>, n: Net) {
    D.Inv(n.det) && Lanes(p, calm, n)
  }

  // ---------- moving records between streams ----------

  lemma {:induction false} WithoutIs(s: seq<nat>, i: nat)
    requires i < |s|
    ensures |Without(s, i)| == |s| - 1
    ensures forall a :: 0 <= a < |s| - 1 ==> Without(s, i)[a] == s[if a < i then a else a + 1]
    ensures forall r :: r in Without(s, i) ==> r in s
    ensures NoDup(s) ==> NoDup(Without(s, i)) && s[i] !in Without(s, i)
  {
  }

  /** A record is taken off its stream. */
  lemma {:induction false} TakeKeeps(p: Plan, calm: set<nat>, n: Net, l: nat, i: nat)
    requires Lanes(p, calm, n) && l < |n.streams| && i < |n.streams[l]|
    ensures Lanes(p, calm, Taken(n, l, i))
    ensures forall m :: 0 <= m < |n.streams| ==> n.streams[l][i] !in Taken(n, l, i).streams[m]
  {
    hide Inside, Key, Without, NoDup, D.Live, Home, BelowHome;
    var n' := Taken(n, l, i);
    WithoutIs(n.streams[l], i);
    forall m | 0 <= m < |n.streams| && m in calm
      ensures Rising(n.det, n'.streams[m]) && AtMost(n.det, n'.streams[m], n.high[m]) && StillToCome(p, n', m)
    {
      assert Rising(n.det, n.streams[m]) && AtMost(n.det, n.streams[m], n.high[m]) && StillToCome(p, n, m) && FeederOk(p, m);
    }
    forall k | 0 <= k < |p.input| && p.input[k] in calm ensures EntryOk(p, n', k) { assert EntryOk(p, n, k); }
  }

  ghost predicate Nowhere(streams: seq<seq<nat>>, r: nat) {
    forall m :: 0 <= m < |streams| ==> r !in streams[m]
  }

  /** These records, which are on no stream, may go behind the last one of this stream. */
  ghost predicate MayFollow(p: Plan, calm: set<nat>, n: Net, l: nat, recs: seq<nat>, top: nat)
    requires Fitting(p, n) && l < |n.streams|
  {
    && NoDup(recs)
    && (l in calm ==> Rising(n.det, recs) && AtLeast(n.det, n.high[l], recs) && AtMost(n.det, recs, top) && n.high[l] <= top)
    && forall r :: r in recs ==> D.Live(n.det, r) && Nowhere(n.streams, r) && Home(n.det, r, p.owner[l])
  }

  lemma {:induction false} PutKeeps(p: Plan, calm: set<nat>, n: Net, l: nat, recs: seq<nat>, top: nat)
    requires Lanes(p, calm, n) && l < |n.streams| && MayFollow(p, calm, n, l, recs, top)
    requires Fitting(p, Put(n, l, recs, top)) && (l in calm ==> StillToCome(p, Put(n, l, recs, top), l))
    ensures Lanes(p, calm, Put(n, l, recs, top))
  {
    hide Inside, Key, NoDup, D.Live, Home, BelowHome, Placed;
    var n' := Put(n, l, recs, top);
    PutPlaced(p, calm, n, l, recs, top);
    assert forall r :: r in n'.streams[l] ==> r in n.streams[l] || r in recs;
    if l in calm {
      assert Rising(n.det, n.streams[l]) && AtMost(n.det, n.streams[l], n.high[l]);
      Joined(n.det, n.streams[l], recs, n.high[l]);
    }
    forall m | 0 <= m < |n.streams| && m in calm
      ensures Rising(n.det, n'.streams[m]) && AtMost(n.det, n'.streams[m], n'.high[m]) && StillToCome(p, n', m)
    {
      assert Rising(n.det, n.streams[m]) && AtMost(n.det, n.streams[m], n.high[m]) && StillToCome(p, n, m) && FeederOk(p, m);
    }
    forall k | 0 <= k < |p.input| && p.input[k] in calm ensures EntryOk(p, n', k) { assert EntryOk(p, n, k); }
  }

  lemma {:induction false} Joined(det: D.State, a: seq<nat>, b: seq<nat>, between: nat)
    requires Rising(det, a) && Rising(det, b) && AtMost(det, a, between) && AtLeast(det, between, b)
    ensures Rising(det, a + b)
  {
    hide Key;
    forall i, j | 0 <= i < j < |a + b| ensures Key(det, (a + b)[i]) <= Key(det, (a + b)[j]) {
      if i < |a| { assert a[i] in a; }
      if j >= |a| { assert b[j - |a|] in b; }
    }
  }

  lemma {:induction false} PutPlaced(p: Plan, calm: set<nat>, n: Net, l: nat, recs: seq<nat>, top: nat)
    requires Fitting(p, n) && Placed(n.det, n.streams) && l < |n.streams| && MayFollow(p, calm, n, l, recs, top)
    ensures Placed(n.det, Put(n, l, recs, top).streams)
  {
    hide Rising, AtLeast, AtMost, Home, D.Live;
    var s' := Put(n, l, recs, top).streams;
    assert forall r :: r in s'[l] ==> r in n.streams[l] || r in recs;
    assert NoDup(s'[l]) by {
      assert NoDup(n.streams[l]);
      forall i, j | 0 <= i < j < |s'[l]| ensures s'[l][i] != s'[l][j] {
        if i < |n.streams[l]| <= j { assert recs[j - |n.streams[l]|] in recs && Nowhere(n.streams, s'[l][j]); }
      }
    }
    forall a, m, r | 0 <= a < |s'| && 0 <= m < |s'| && a != m && r in s'[a] ensures r !in s'[m] {
      if r in recs { assert Nowhere(n.streams, r); }
    }
  }

  /** A copy goes right behind its original. */
  lemma {:induction false} InsertKeeps(p: Plan, calm: set<nat>, n: Net, l: nat, i: nat, r: nat)
    requires Lanes(p, calm, n) && l < |n.streams| && i < |n.streams[l]|
    requires D.Live(n.det, r) && Nowhere(n.streams, r) && Home(n.det, r, p.owner[l]) && Key(n.det, r) == Key(n.det, n.streams[l][i])
    ensures Lanes(p, calm, Inserted(n, l, i, r))
  {
    hide Inside, Key, NoDup, D.Live, Home, BelowHome, Placed;
    var n' := Inserted(n, l, i, r);
    InsertPlaced(n, l, i, r);
    var s := n.streams[l];
    assert forall q :: q in n'.streams[l] ==> q in s || q == r;
    assert s[i] in s;
    if l in calm {
      assert Rising(n.det, s);
      InsertRising(n.det, s, i, r);
    }
    forall m | 0 <= m < |n.streams| && m in calm
      ensures Rising(n.det, n'.streams[m]) && AtMost(n.det, n'.streams[m], n'.high[m]) && StillToCome(p, n', m)
    {
      assert Rising(n.det, n.streams[m]) && AtMost(n.det, n.streams[m], n.high[m]) && StillToCome(p, n, m) && FeederOk(p, m);
    }
    forall k | 0 <= k < |p.input| && p.input[k] in calm ensures EntryOk(p, n', k) { assert EntryOk(p, n, k); }
  }

  lemma {:induction false} InsertRising(det: D.State, s: seq<nat>, i: nat, r: nat)
    requires Rising(det, s) && i < |s| && Key(det, r) == Key(det, s[i])
    ensures Rising(det, s[..i + 1] + [r] + s[i + 1..])
  {
    hide Key;
    var t := s[..i + 1] + [r] + s[i + 1..];
    forall a, b | 0 <= a < b < |t| ensures Key(det, t[a]) <= Key(det, t[b]) {
      var a' := if a <= i then a else a - 1;
      var b' := if b <= i then b else b - 1;
      assert Key(det, t[a]) == Key(det, s[a']) && Key(det, t[b]) == Key(det, s[b']);
    }
  }

  lemma {:induction false} InsertPlaced(n: Net, l: nat, i: nat, r: nat)
    requires Placed(n.det, n.streams) && l < |n.streams| && i < |n.streams[l]| && D.Live(n.det, r) && Nowhere(n.streams, r)
    ensures Placed(n.det, Inserted(n, l, i, r).streams)
  {
    hide D.Live;
    var s := n.streams[l];
    var s' := Inserted(n, l, i, r).streams;
    assert forall q :: q in s'[l] ==> q in s || q == r;
    assert NoDup(s'[l]) by {
      assert NoDup(s);
      forall a, b | 0 <= a < b < |s'[l]| ensures s'[l][a] != s'[l][b] {
        assert a != i + 1 ==> s'[l][a] == s[if a <= i then a else a - 1];
        assert b != i + 1 ==> s'[l][b] == s[if b <= i then b else b - 1];
      }
    }
  }

  // ---------- what goes on at the gates ----------

  /** Detrefs keep their numbers, and new ones have new names. */
  ghost predicate Lasting(a: D.State, b: D.State) {
    && (forall d :: d in b.detrefs && d in a.detrefs ==> D.Static(b.detrefs[d]) == D.Static(a.detrefs[d]))
    && (forall d :: d in b.detrefs && d !in a.detrefs ==> d >= a.next)
  }

  ghost predicate SameRecord(a: D.State, b: D.State, r: nat) {
    r < |a.stacks| && r < |b.stacks| && a.stacks[r] == b.stacks[r]
  }

  /** A record that keeps its stack shows the same number, in the same network. */
  lemma {:induction false} KeySame(a: D.State, b: D.State, r: nat)
    requires D.Stacks(a) && D.Stacks(b) && Lasting(a, b) && SameRecord(a, b, r)
    ensures Key(a, r) == Key(b, r)
    ensures forall o :: Home(a, r, o) ==> Home(b, r, o)
  {
    if a.stacks[r] != [] { assert a.stacks[r][0] in a.detrefs && b.stacks[r][0] in b.detrefs; }
  }

  lemma {:induction false} BelowSame(p: Plan, a: D.State, b: D.State, d: nat)
    requires D.Stacks(a) && Lasting(a, b) && WellPlanned(p) && d in a.detrefs && d in b.detrefs && BelowHome(p, a, d)
    ensures BelowHome(p, b, d)
  {
    assert D.DetrefOk(a, d);
    var under := a.detrefs[d].under;
    assert under != [] ==> under[0] in under;
  }

  /** The gates change without disturbing what is on the streams. */
  ghost predicate GatesMove(p: Plan, calm: set<nat>, n: Net, det: D.State)
    requires Fitting(p, n)
  {
    && |det.gates| == |n.det.gates| && Lasting(n.det, det)
    && (forall k :: 0 <= k < |det.gates| ==>
          && det.gates[k].isDet == n.det.gates[k].isDet
          && n.det.gates[k].counter <= det.gates[k].counter
          && (p.output[k] in calm ==> LastKey(n.det.gates[k].log) <= LastKey(det.gates[k].log)))
    && (forall l, r :: 0 <= l < |n.streams| && r in n.streams[l] ==> SameRecord(n.det, det, r))
    && (forall d :: d in det.detrefs && d !in n.det.detrefs ==> BelowHome(p, det, d))
  }

  lemma {:induction false} GatesKeep(p: Plan, calm: set<nat>, n: Net, det: D.State)
    requires Lanes(p, calm, n) && D.Stacks(n.det) && D.Stacks(det) && GatesMove(p, calm, n, det)
    requires Placed(det, n.streams) && Entries(p, calm, n.(det := det))
    ensures Lanes(p, calm, n.(det := det))
  {
    hide Inside, Key, Placed, D.Stacks, Home, BelowHome, Entries, Lasting, LastKey;
    var n' := n.(det := det);
    forall l, r | 0 <= l < |n.streams| && r in n.streams[l] ensures Key(n.det, r) == Key(det, r) { KeySame(n.det, det, r); }
    forall l, r | 0 <= l < |n'.streams| && r in n'.streams[l] ensures Home(n'.det, r, p.owner[l]) {
      KeySame(n.det, det, r);
      assert Home(n.det, r, p.owner[l]);
    }
    forall d | d in det.detrefs ensures BelowHome(p, det, d) {
      if d in n.det.detrefs { BelowSame(p, n.det, det, d); }
    }
    forall m | 0 <= m < |n.streams| && m in calm
      ensures Rising(n'.det, n'.streams[m]) && AtMost(n'.det, n'.streams[m], n'.high[m]) && StillToCome(p, n', m)
    {
      assert Rising(n.det, n.streams[m]) && AtMost(n.det, n.streams[m], n.high[m]) && StillToCome(p, n, m) && FeederOk(p, m);
    }
  }

  /** Entries see the same as before when the keys that have come are the same. */
  lemma {:induction false} EntriesKeep(p: Plan, calm: set<nat>, n: Net, det: D.State)
    requires Lanes(p, calm, n) && D.Stacks(n.det) && D.Stacks(det) && GatesMove(p, calm, n, det)
    requires forall k :: 0 <= k < |det.gates| ==>
      det.gates[k].inOrder == n.det.gates[k].inOrder && det.gates[k].lastKey == n.det.gates[k].lastKey
    ensures Entries(p, calm, n.(det := det))
  {
    hide Inside, Key, Placed, D.Stacks, Home, BelowHome, Lasting, LastKey, Homes, Ordered;
    forall k | 0 <= k < |p.input| && p.input[k] in calm ensures EntryOk(p, n.(det := det), k) {
      assert EntryOk(p, n, k);
      forall r | r in n.streams[p.input[k]] ensures Key(det, r) == Key(n.det, r) { KeySame(n.det, det, r); }
    }
  }

  /** No record is queued that was not. */
  ghost predicate NoneQueued(a: D.State, b: D.State) {
    && |a.stacks| <= |b.stacks|
    && forall d :: d in b.detrefs ==> b.detrefs[d].recfifo == [] || (d in a.detrefs && b.detrefs[d].recfifo == a.detrefs[d].recfifo)
  }

  lemma {:induction false} PlacedSame(a: D.State, b: D.State, streams: seq<seq<nat>>)
    requires Placed(a, streams) && NoneQueued(a, b)
    ensures Placed(b, streams)
  {
    forall l, r | 0 <= l < |streams| && r in streams[l] ensures D.Live(b, r) { assert D.Live(a, r); }
  }

  // ---------- what a collector emits ----------

  /** The emission is of a record that was queued at this collector. */
  ghost predicate FromQueue(a: D.State, k: nat, e: D.Emission) {
    && e.detref in a.detrefs && a.detrefs[e.detref].leave == k && e.key == a.detrefs[e.detref].key
    && e.rec in a.detrefs[e.detref].recfifo
  }

  /** Nothing changes at the other gates, and at this one only the collector. */
  ghost predicate Aside(a: D.State, b: D.State, k: nat) {
    && k < |a.gates| == |b.gates| && b.stacks == a.stacks && b.next == a.next
    && (forall m :: 0 <= m < |a.gates| && m != k ==> b.gates[m] == a.gates[m])
    && (var g := a.gates[k]; b.gates[k].(log := g.log, leaveCounter := g.leaveCounter, detfifo := g.detfifo) == g)
    && (forall d :: d in b.gates[k].detfifo ==> d in a.gates[k].detfifo)
  }

  /** Detrefs may go, and queues may be emptied. */
  ghost predicate Thinned(a: D.State, b: D.State) {
    && (forall d :: d in b.detrefs ==> d in a.detrefs && D.Static(b.detrefs[d]) == D.Static(a.detrefs[d]))
    && NoneQueued(a, b)
  }

  ghost predicate AllFromQueue(a: D.State, k: nat, log: seq<D.Emission>, from: nat) {
    forall i :: from <= i < |log| ==> FromQueue(a, k, log[i])
  }

  /** The collector has emitted, and nothing else has gone on. */
  ghost predicate Poured(a: D.State, b: D.State, k: nat) {
    && Aside(a, b, k) && Thinned(a, b)
    && a.gates[k].log <= b.gates[k].log && AllFromQueue(a, k, b.gates[k].log, |a.gates[k].log|)
  }

  lemma {:induction false} PouredOn(a: D.State, b: D.State, c: D.State, k: nat)
    requires Poured(a, b, k) && Poured(b, c, k)
    ensures Poured(a, c, k)
    ensures Emitted(a.gates[k].log, c.gates[k].log) == Emitted(a.gates[k].log, b.gates[k].log) + Emitted(b.gates[k].log, c.gates[k].log)
  {
    hide Aside, Thinned, FromQueue, Emitted, AllFromQueue;
    assert k < |a.gates| == |b.gates| == |c.gates| by { Widths(a, b, k); Widths(b, c, k); }
    AsideOn(a, b, c, k);
    ThinnedOn(a, b, c);
    LogsOn(a, b, k, a.gates[k].log, b.gates[k].log, c.gates[k].log);
  }

  lemma {:induction false} AsideOn(a: D.State, b: D.State, c: D.State, k: nat)
    requires Aside(a, b, k) && Aside(b, c, k)
    ensures Aside(a, c, k)
  {
  }

  lemma {:induction false} ThinnedOn(a: D.State, b: D.State, c: D.State)
    requires Thinned(a, b) && Thinned(b, c)
    ensures Thinned(a, c)
  {
  }

  lemma {:induction false} LogsOn(a: D.State, b: D.State, k: nat, x: seq<D.Emission>, y: seq<D.Emission>, z: seq<D.Emission>)
    requires x <= y <= z && Thinned(a, b) && AllFromQueue(a, k, y, |x|) && AllFromQueue(b, k, z, |y|)
    ensures AllFromQueue(a, k, z, |x|) && Emitted(x, z) == Emitted(x, y) + Emitted(y, z)
  {
    hide Thinned, FromQueue;
    forall i | |x| <= i < |z| ensures FromQueue(a, k, z[i]) {
      if i < |y| {
        assert z[i] == y[i];
      } else {
        assert FromQueue(b, k, z[i]);
        QueuedBefore(a, b, k, z[i]);
      }
    }
    EmittedOn(x, y, z);
  }

  lemma {:induction false} QueuedBefore(a: D.State, b: D.State, k: nat, e: D.Emission)
    requires Thinned(a, b) && FromQueue(b, k, e)
    ensures FromQueue(a, k, e)
  {
  }

  lemma {:induction false} EmittedOn(x: seq<D.Emission>, y: seq<D.Emission>, z: seq<D.Emission>)
    requires x <= y <= z
    ensures Emitted(x, z) == Emitted(x, y) + Emitted(y, z)
  {
  }

  function Onto(streams: seq<seq<nat>>, l: nat, recs: seq<nat>): (onto: seq<seq<nat>>)
    requires l < |streams|
    ensures |onto| == |streams|
  {
    streams[l := streams[l] + recs]
  }

  /** What waits at a collector was drawn for it. */
  ghost predicate QueueHere(a: D.State, k: nat) {
    && k < |a.gates|
    && (forall d :: d in a.gates[k].detfifo && d in a.detrefs ==> a.detrefs[d].leave == k)
    && (forall d, r :: d in a.detrefs && r in a.detrefs[d].recfifo ==> r < |a.stacks|)
  }

  lemma {:induction false} QueueHereOn(a: D.State, b: D.State, k: nat)
    requires QueueHere(a, k) && Poured(a, b, k)
    ensures QueueHere(b, k)
  {
    forall d, r | d in b.detrefs && r in b.detrefs[d].recfifo ensures r < |b.stacks| { assert r in a.detrefs[d].recfifo; }
  }

  lemma {:induction false} FlushPours(a: D.State, k: nat, d: nat, streams: seq<seq<nat>>, l: nat)
    requires QueueHere(a, k) && d in a.detrefs && a.detrefs[d].leave == k && Placed(a, streams) && l < |streams|
    ensures Poured(a, D.Flush(a, k, d), k)
    ensures Placed(D.Flush(a, k, d), Onto(streams, l, Emitted(a.gates[k].log, D.Flush(a, k, d).gates[k].log)))
  {
    hide Placed, D.Flush, Nowhere, NoDup, D.Live, Onto, Emitted, Poured;
    FlushLog(a, k, d);
    FlushPlaced(a, k, d, streams);
    OntoPlaced(D.Flush(a, k, d), streams, l, a.detrefs[d].recfifo);
  }

  lemma {:induction false} FlushPlaced(a: D.State, k: nat, d: nat, streams: seq<seq<nat>>)
    requires QueueHere(a, k) && d in a.detrefs && Placed(a, streams)
    ensures var b := D.Flush(a, k, d);
      && Placed(b, streams) && NoDup(a.detrefs[d].recfifo)
      && forall r :: r in a.detrefs[d].recfifo ==> D.Live(b, r) && Nowhere(streams, r)
  {
    hide D.Emissions, NoDup;
    var b := D.Flush(a, k, d);
    PlacedSame(a, b, streams);
    forall m, r | 0 <= m < |streams| && r in streams[m] ensures r !in a.detrefs[d].recfifo { assert D.Live(a, r); }
  }

  lemma {:induction false} FlushLog(a: D.State, k: nat, d: nat)
    requires k < |a.gates| && d in a.detrefs && a.detrefs[d].leave == k
    ensures Poured(a, D.Flush(a, k, d), k)
    ensures Emitted(a.gates[k].log, D.Flush(a, k, d).gates[k].log) == a.detrefs[d].recfifo
  {
    var x := a.detrefs[d];
    var b := D.Flush(a, k, d);
    var es := D.Emissions(d, x, x.recfifo);
    assert b.gates[k].log == a.gates[k].log + es;
    forall i | |a.gates[k].log| <= i < |b.gates[k].log| ensures FromQueue(a, k, b.gates[k].log[i]) {
      assert b.gates[k].log[i] == es[i - |a.gates[k].log|];
    }
  }

  lemma {:induction false} OntoPlaced(b: D.State, streams: seq<seq<nat>>, l: nat, recs: seq<nat>)
    requires Placed(b, streams) && l < |streams| && NoDup(recs) && forall r :: r in recs ==> D.Live(b, r) && Nowhere(streams, r)
    ensures Placed(b, Onto(streams, l, recs))
  {
    hide D.Live;
    var s' := Onto(streams, l, recs);
    assert forall r :: r in s'[l] ==> r in streams[l] || r in recs;
    assert NoDup(s'[l]) by {
      assert NoDup(streams[l]);
      forall i, j | 0 <= i < j < |s'[l]| ensures s'[l][i] != s'[l][j] {
        if i < |streams[l]| <= j { assert recs[j - |streams[l]|] in recs && Nowhere(streams, s'[l][j]); }
      }
    }
    forall a, m, r | 0 <= a < |s'| && 0 <= m < |s'| && a != m && r in s'[a] ensures r !in s'[m] {
      if r in recs { assert Nowhere(streams, r); }
    }
  }

  lemma {:induction false} OntoTwice(streams: seq<seq<nat>>, l: nat, a: seq<nat>, b: seq<nat>)
    requires l < |streams|
    ensures Onto(Onto(streams, l, a), l, b) == Onto(streams, l, a + b)
  {
    assert streams[l] + a + b == streams[l] + (a + b);
  }

  lemma {:induction false} OntoNothing(streams: seq<seq<nat>>, l: nat)
    requires l < |streams|
    ensures Onto(streams, l, []) == streams
  {
    assert streams[l] + [] == streams[l];
  }

  lemma {:induction false} Widths(a: D.State, b: D.State, k: nat)
    requires Poured(a, b, k)
    ensures k < |a.gates| == |b.gates|
  {
  }

  /** Two stretches of emitting, one after the other. */
  lemma {:induction false} PoursOn(a: D.State, b: D.State, c: D.State, k: nat, streams: seq<seq<nat>>, l: nat)
    requires Poured(a, b, k) && Poured(b, c, k) && l < |streams|
    requires Placed(c, Onto(Onto(streams, l, Emitted(a.gates[k].log, b.gates[k].log)), l, Emitted(b.gates[k].log, c.gates[k].log)))
    ensures Poured(a, c, k)
    ensures Placed(c, Onto(streams, l, Emitted(a.gates[k].log, c.gates[k].log)))
  {
    hide Aside, Thinned, AllFromQueue, Placed, Emitted, Onto;
    assert k < |a.gates| == |b.gates| == |c.gates| by { Widths(a, b, k); Widths(b, c, k); }
    PouredOn(a, b, c, k);
    OntoTwice(streams, l, Emitted(a.gates[k].log, b.gates[k].log), Emitted(b.gates[k].log, c.gates[k].log));
  }

  /** A step that emits nothing. */
  lemma {:induction false} NothingPours(a: D.State, b: D.State, k: nat, streams: seq<seq<nat>>, l: nat)
    requires Poured(a, b, k) && Placed(a, streams) && l < |streams| && b.gates[k].log == a.gates[k].log
    ensures Placed(b, Onto(streams, l, Emitted(a.gates[k].log, b.gates[k].log)))
  {
    PlacedSame(a, b, streams);
    OntoNothing(streams, l);
  }

  lemma {:induction false} FlushEqualPours(a: D.State, k: nat, i: nat, seqnr: nat, streams: seq<seq<nat>>, l: nat)
    requires QueueHere(a, k) && Placed(a, streams) && l < |streams|
    ensures var b := D.FlushEqual(a, k, i, seqnr);
      Poured(a, b, k) && Placed(b, Onto(streams, l, Emitted(a.gates[k].log, b.gates[k].log)))
    decreases |a.gates[k].detfifo| - i
  {
    hide Placed, Poured, Emitted, Onto, D.Flush;
    var q := a.gates[k].detfifo;
    if i < |q| && q[i] in a.detrefs && a.detrefs[q[i]].seqnr == seqnr {
      var b := D.Flush(a, k, q[i]);
      FlushPours(a, k, q[i], streams, l);
      QueueHereOn(a, b, k);
      FlushFifo(a, k, q[i]);
      FlushEqualPours(b, k, i + 1, seqnr, Onto(streams, l, Emitted(a.gates[k].log, b.gates[k].log)), l);
      PoursOn(a, b, D.FlushEqual(b, k, i + 1, seqnr), k, streams, l);
    } else {
      PouredNothing(a, k);
      NothingPours(a, a, k, streams, l);
    }
  }

  lemma {:induction false} FlushFifo(a: D.State, k: nat, d: nat)
    requires k < |a.gates| && d in a.detrefs
    ensures var b := D.Flush(a, k, d);
      |b.gates| == |a.gates| && b.gates[k].detfifo == a.gates[k].detfifo && d in b.detrefs
  {
  }

  lemma {:induction false} PouredNothing(a: D.State, k: nat)
    requires k < |a.gates|
    ensures Poured(a, a, k)
  {
  }

  lemma {:induction false} DequeuePours(a: D.State, k: nat, streams: seq<seq<nat>>, l: nat)
    requires k < |a.gates| && QueueHere(a, k) && Placed(a, streams) && l < |streams| && D.Dequeue(a, k).Some?
    ensures |D.Dequeue(a, k).value.gates| == |a.gates|
    ensures var b := D.Dequeue(a, k).value;
      Poured(a, b, k) && Placed(b, Onto(streams, l, Emitted(a.gates[k].log, b.gates[k].log)))
    decreases |a.gates[k].detfifo|
  {
    hide Placed, Poured, Emitted, Onto, D.Flush, D.Advance, D.Free, QueueHere, D.FlushEqual;
    var q := a.gates[k].detfifo;
    if q == [] {
      PouredNothing(a, k);
      NothingPours(a, a, k, streams, l);
    } else {
      var s0 := D.Advance(a, k, q[0]);
      AdvancePours(a, k, streams, l);
      var st0 := Onto(streams, l, Emitted(a.gates[k].log, s0.gates[k].log));
      var s1 := D.Flush(s0, k, q[0]);
      FlushPours(s0, k, q[0], st0, l);
      FlushFifo(s0, k, q[0]);
      QueueHereOn(s0, s1, k);
      PoursOn(a, s0, s1, k, streams, l);
      var st1 := Onto(streams, l, Emitted(a.gates[k].log, s1.gates[k].log));
      if s1.detrefs[q[0]].refcount == 0 {
        var s2 := D.Free(s1, k, q[0]);
        FreePours(s1, k, st1, l);
        PoursOn(a, s1, s2, k, streams, l);
        var st2 := Onto(streams, l, Emitted(a.gates[k].log, s2.gates[k].log));
        DequeuePours(s2, k, st2, l);
        PoursOn(a, s2, D.Dequeue(s2, k).value, k, streams, l);
      } else {
        FlushEqualPours(s1, k, 1, s1.detrefs[q[0]].seqnr, st1, l);
        PoursOn(a, s1, D.FlushEqual(s1, k, 1, s1.detrefs[q[0]].seqnr), k, streams, l);
      }
    }
  }

  lemma {:induction false} AdvancePours(a: D.State, k: nat, streams: seq<seq<nat>>, l: nat)
    requires QueueHere(a, k) && Placed(a, streams) && l < |streams| && a.gates[k].detfifo != [] && a.gates[k].detfifo[0] in a.detrefs
    ensures var q := a.gates[k].detfifo;
      var b := D.Advance(a, k, q[0]);
      && Poured(a, b, k) && Placed(b, Onto(streams, l, Emitted(a.gates[k].log, b.gates[k].log)))
      && QueueHere(b, k) && |b.gates| == |a.gates| && b.gates[k].detfifo == q && q[0] in b.detrefs && b.detrefs[q[0]].leave == k
  {
    hide Placed, Onto, Emitted;
    var b := D.Advance(a, k, a.gates[k].detfifo[0]);
    assert Poured(a, b, k);
    NothingPours(a, b, k, streams, l);
    QueueHereOn(a, b, k);
  }

  lemma {:induction false} FreePours(a: D.State, k: nat, streams: seq<seq<nat>>, l: nat)
    requires QueueHere(a, k) && Placed(a, streams) && l < |streams| && a.gates[k].detfifo != [] && a.gates[k].detfifo[0] in a.detrefs
    ensures var b := D.Free(a, k, a.gates[k].detfifo[0]);
      && Poured(a, b, k) && Placed(b, Onto(streams, l, Emitted(a.gates[k].log, b.gates[k].log)))
      && QueueHere(b, k) && |b.gates| == |a.gates| && |b.gates[k].detfifo| < |a.gates[k].detfifo|
  {
    hide Placed, Onto, Emitted;
    var b := D.Free(a, k, a.gates[k].detfifo[0]);
    assert Poured(a, b, k);
    NothingPours(a, b, k, streams, l);
    QueueHereOn(a, b, k);
  }

  // ---------- every step keeps the invariant ----------

  /** What is known of the detrefs after a step. */
  lemma {:induction false} DetParts(det: D.State)
    requires D.Inv(det)
    ensures D.Stacks(det) && D.Queued(det)
    ensures forall d :: d in det.detrefs ==> d < det.next
    ensures forall d, r :: d in det.detrefs && r in det.detrefs[d].recfifo ==> r < |det.stacks|
    ensures forall k :: 0 <= k < |det.gates| ==> QueueHere(det, k)
    ensures forall k :: 0 <= k < |det.gates| && !det.gates[k].isDet ==> det.gates[k].lastKey == det.gates[k].outer
  {
    hide D.LogOrder, D.LeaveOk, D.Counts;
    D.AllKnown(det);
    forall k | 0 <= k < |det.gates|
      ensures QueueHere(det, k) && (!det.gates[k].isDet ==> det.gates[k].lastKey == det.gates[k].outer)
    {
      assert D.FifoOk(det, k) && D.QueueOrder(det, k);
    }
  }

  /** Collectors that have been fed in order emit in order. */
  lemma {:induction false} LogRises(det: D.State, k: nat)
    requires D.Inv(det) && k < |det.gates| && det.gates[k].inOrder
    ensures forall i, j :: 0 <= i < j < |det.gates[k].log| ==> det.gates[k].log[i].key <= det.gates[k].log[j].key
  {
    hide D.Stacks, D.Counts, D.Queued, D.QueueOrder;
    assert D.FifoOk(det, k) && D.LogOrder(det, k);
  }

  /** An emitted record shows the key it was logged with, and is in the network around. */
  lemma {:induction false} EmittedKey(p: Plan, a: D.State, b: D.State, k: nat, e: D.Emission)
    requires D.Stacks(a) && D.Queued(a) && D.Stacks(b) && Thinned(a, b) && b.stacks == a.stacks
    requires FromQueue(a, k, e) && WellPlanned(p) && BelowHome(p, a, e.detref)
    ensures Key(b, e.rec) == e.key && k < |p.input| && Home(b, e.rec, p.owner[p.output[k]])
  {
    var x := a.detrefs[e.detref];
    assert D.DetrefOk(a, e.detref);
    var i :| 0 <= i < |x.recfifo| && x.recfifo[i] == e.rec;
    assert a.stacks[e.rec] == x.under;
    if x.under != [] { assert b.stacks[e.rec][0] in b.detrefs; }
  }

  /** Between the step at a record and the collector's output. */
  ghost predicate Before(n: Net, mid: D.State) {
    && D.Stacks(mid) && D.Queued(mid) && Placed(mid, n.streams)
    && mid.gates == n.det.gates && mid.next == n.det.next && mid.detrefs.Keys == n.det.detrefs.Keys
    && (forall d :: d in mid.detrefs ==> D.Static(mid.detrefs[d]) == D.Static(n.det.detrefs[d]))
    && (forall l, r :: 0 <= l < |n.streams| && r in n.streams[l] ==> SameRecord(n.det, mid, r))
  }

  lemma {:induction false} EmitKeeps(p: Plan, calm: set<nat>, n: Net, k: nat, mid: D.State)
    requires Lanes(p, calm, n) && D.Inv(n.det) && k < |p.input| && Before(n, mid) && QueueHere(mid, k)
    requires D.Dequeue(mid, k).Some? && D.Inv(D.Dequeue(mid, k).value)
    ensures |D.Dequeue(mid, k).value.gates| == |n.det.gates|
    ensures Fitting(p, Emitting(p, n, k, D.Dequeue(mid, k).value))
    ensures Lanes(p, calm, Emitting(p, n, k, D.Dequeue(mid, k).value))
  {
    hide D.Inv, D.Dequeue, Ordered, Homes, Entries, D.Stacks, D.Queued, AtLeast, Rising, AtMost, Placed,
         BelowHome, Home, Key, D.TopKey, Inside;
    var det := D.Dequeue(mid, k).value;
    var l := p.output[k];
    DetParts(n.det);
    DetParts(det);
    DequeuePours(mid, k, n.streams, l);
    var recs := Emitted(n.det.gates[k].log, det.gates[k].log);
    PlacedParts(det, n.streams, l, recs);
    GatesPoured(p, calm, n, k, mid, det);
    EntriesKeep(p, calm, n, det);
    GatesKeep(p, calm, n, det);
    EmitFollows(p, calm, n, k, mid, det);
    assert FeederOk(p, l);
    PutKeeps(p, calm, n.(det := det), l, recs, LastKey(det.gates[k].log));
  }

  lemma {:induction false} PlacedParts(det: D.State, streams: seq<seq<nat>>, l: nat, recs: seq<nat>)
    requires l < |streams| && Placed(det, Onto(streams, l, recs))
    ensures Placed(det, streams) && NoDup(recs)
    ensures forall r :: r in recs ==> D.Live(det, r) && Nowhere(streams, r)
  {
    hide D.Live;
    var s' := Onto(streams, l, recs);
    forall m | 0 <= m < |streams| ensures NoDup(streams[m]) {
      assert NoDup(s'[m]);
      forall i, j | 0 <= i < j < |streams[m]| ensures streams[m][i] != streams[m][j] {
        assert s'[m][i] == streams[m][i] && s'[m][j] == streams[m][j];
      }
    }
    forall m, r | 0 <= m < |streams| && r in streams[m] ensures r in s'[m] {
    }
    assert NoDup(s'[l]);
    forall i, j | 0 <= i < j < |recs| ensures recs[i] != recs[j] {
      assert s'[l][|streams[l]| + i] == recs[i] && s'[l][|streams[l]| + j] == recs[j];
    }
    forall r | r in recs ensures r in s'[l] && r !in streams[l] {
      var j :| 0 <= j < |recs| && recs[j] == r;
      assert s'[l][|streams[l]| + j] == r;
      forall i | 0 <= i < |streams[l]| ensures streams[l][i] != r { assert s'[l][i] == streams[l][i]; }
    }
  }

  lemma {:induction false} GatesPoured(p: Plan, calm: set<nat>, n: Net, k: nat, mid: D.State, det: D.State)
    requires Lanes(p, calm, n) && k < |p.input| && Before(n, mid) && Poured(mid, det, k) && D.Inv(det)
    ensures GatesMove(p, calm, n, det)
    ensures forall m :: 0 <= m < |det.gates| ==>
      det.gates[m].inOrder == n.det.gates[m].inOrder && det.gates[m].lastKey == n.det.gates[m].lastKey
  {
    hide D.Inv, Ordered, Homes, D.Stacks, D.Queued, AtLeast, Placed, BelowHome, Key, NoneQueued, AllFromQueue;
    if p.output[k] in calm {
      assert EntryOk(p, n, k);
      LogRises(det, k);
    }
    var log, log' := n.det.gates[k].log, det.gates[k].log;
    assert log <= log';
    if log != [] { assert log'[|log| - 1] == log[|log| - 1]; }
    forall l, r | 0 <= l < |n.streams| && r in n.streams[l] ensures SameRecord(n.det, det, r) {
      assert SameRecord(n.det, mid, r);
    }
  }

  lemma {:induction false} EmitFollows(p: Plan, calm: set<nat>, n: Net, k: nat, mid: D.State, det: D.State)
    requires Lanes(p, calm, n) && k < |p.input| && Before(n, mid) && Poured(mid, det, k) && D.Inv(det) && D.Stacks(det)
    requires |det.gates| == |n.det.gates|
    requires var recs := Emitted(n.det.gates[k].log, det.gates[k].log);
      NoDup(recs) && forall r :: r in recs ==> D.Live(det, r) && Nowhere(n.streams, r)
    ensures Fitting(p, n.(det := det))
    ensures MayFollow(p, calm, n.(det := det), p.output[k], Emitted(n.det.gates[k].log, det.gates[k].log), LastKey(det.gates[k].log))
  {
    hide D.Inv, Lanes, D.Stacks, Poured, Before, NoDup, D.Live, Nowhere, Home, Key, Rising, AtLeast, AtMost;
    EmitFits(p, calm, n, k, mid, det);
    var recs := Emitted(n.det.gates[k].log, det.gates[k].log);
    forall i | 0 <= i < |recs|
      ensures Key(det, recs[i]) == det.gates[k].log[|n.det.gates[k].log| + i].key && Home(det, recs[i], p.owner[p.output[k]])
    {
      EmittedAt(p, calm, n, k, mid, det, i);
    }
    if p.output[k] in calm {
      LogRises(det, k);
      EmittedRises(det, n.det.gates[k].log, det.gates[k].log, recs);
      LeastLess(det, n.high[p.output[k]], LastKey(n.det.gates[k].log), recs);
    }
  }

  lemma {:induction false} LeastLess(det: D.State, low: nat, least: nat, recs: seq<nat>)
    requires low <= least && AtLeast(det, least, recs)
    ensures AtLeast(det, low, recs)
  {
  }

  lemma {:induction false} EmittedRises(det: D.State, log: seq<D.Emission>, log': seq<D.Emission>, recs: seq<nat>)
    requires log <= log' && |recs| == |log'| - |log|
    requires forall i :: 0 <= i < |recs| ==> Key(det, recs[i]) == log'[|log| + i].key
    requires forall i, j :: 0 <= i < j < |log'| ==> log'[i].key <= log'[j].key
    ensures Rising(det, recs) && AtLeast(det, LastKey(log), recs) && AtMost(det, recs, LastKey(log'))
  {
    hide Key;
    if log != [] { assert log'[|log| - 1] == log[|log| - 1]; }
    forall i | 0 <= i < |recs| ensures LastKey(log) <= Key(det, recs[i]) <= LastKey(log') { }
  }

  lemma {:induction false} EmitFits(p: Plan, calm: set<nat>, n: Net, k: nat, mid: D.State, det: D.State)
    requires Lanes(p, calm, n) && k < |p.input| && Before(n, mid) && Poured(mid, det, k) && D.Inv(det)
    ensures Fitting(p, n) && Fitting(p, n.(det := det)) && n.det.gates[k].log <= det.gates[k].log
    ensures p.output[k] in calm ==>
      && det.gates[k].inOrder && LastKey(n.det.gates[k].log) <= LastKey(det.gates[k].log)
      && n.high[p.output[k]] <= LastKey(n.det.gates[k].log)
  {
    hide D.Inv, D.Stacks, D.Queued, Placed, NoneQueued, Thinned, AllFromQueue;
    GatesPoured(p, calm, n, k, mid, det);
    var l := p.output[k];
    if l in calm {
      EntryAt(p, calm, n, k);
      assert StillToCome(p, n, l) && FeederOk(p, l);
    }
  }

  lemma {:induction false} EmittedAt(p: Plan, calm: set<nat>, n: Net, k: nat, mid: D.State, det: D.State, i: nat)
    requires Lanes(p, calm, n) && k < |p.input| && Before(n, mid) && Poured(mid, det, k) && D.Stacks(det)
    requires |n.det.gates[k].log| + i < |det.gates[k].log|
    ensures var e := det.gates[k].log[|n.det.gates[k].log| + i];
      Key(det, e.rec) == e.key && Home(det, e.rec, p.owner[p.output[k]])
  {
    hide Entries, D.Stacks, D.Queued, Placed, NoneQueued, Inside, Ordered;
    var e := det.gates[k].log[|n.det.gates[k].log| + i];
    assert FromQueue(mid, k, e);
    assert BelowHome(p, n.det, e.detref);
    BelowMid(p, n, mid, e.detref);
    EmittedKey(p, mid, det, k, e);
  }

  lemma {:induction false} EntryAt(p: Plan, calm: set<nat>, n: Net, k: nat)
    requires Lanes(p, calm, n) && k < |p.input| && p.input[k] in calm
    ensures EntryOk(p, n, k)
  {
  }

  lemma {:induction false} BelowMid(p: Plan, n: Net, mid: D.State, d: nat)
    requires Fitting(p, n) && Before(n, mid) && d in mid.detrefs && BelowHome(p, n.det, d)
    ensures BelowHome(p, mid, d)
  {
  }

  /** A step after which all detrefs wait where they did. */
  lemma {:induction false} QuietKeeps(p: Plan, calm: set<nat>, n: Net, det: D.State)
    requires Lanes(p, calm, n) && D.Inv(n.det) && D.Inv(det)
    requires det.gates == n.det.gates && det.detrefs.Keys == n.det.detrefs.Keys && NoneQueued(n.det, det)
    requires forall d :: d in det.detrefs ==> D.Static(det.detrefs[d]) == D.Static(n.det.detrefs[d])
    requires forall l, r :: 0 <= l < |n.streams| && r in n.streams[l] ==> SameRecord(n.det, det, r)
    ensures Lanes(p, calm, n.(det := det))
  {
    hide D.Inv, D.Stacks, D.Queued, Placed, NoneQueued, Homes, Ordered, Entries, BelowHome;
    DetParts(n.det);
    DetParts(det);
    EntriesKeep(p, calm, n, det);
    PlacedSame(n.det, det, n.streams);
    GatesKeep(p, calm, n, det);
  }

  /** A record is nowhere else, and shows what its stream says. */
  lemma {:induction false} OnStream(p: Plan, calm: set<nat>, n: Net, l: nat, i: nat)
    requires Lanes(p, calm, n) && l < |n.streams| && i < |n.streams[l]|
    ensures D.Live(n.det, n.streams[l][i]) && Home(n.det, n.streams[l][i], p.owner[l])
  {
    assert n.streams[l][i] in n.streams[l];
  }

  lemma {:induction false} ArriveKeeps(p: Plan, calm: set<nat>, n: Net, l: nat)
    requires Inv(p, calm, n) && Enabled(p, n, Arrive(l))
    ensures Next(p, n, Arrive(l)).Some? && Inv(p, calm, Next(p, n, Arrive(l)).value)
  {
    hide D.Inv, D.Stacks, D.Queued, Homes, Entries;
    D.StepKeepsInv(n.det, D.Arrive);
    var det := D.Next(n.det, D.Arrive).value;
    DetParts(n.det);
    forall m, r | 0 <= m < |n.streams| && r in n.streams[m] ensures SameRecord(n.det, det, r) { assert D.Live(n.det, r); }
    QuietKeeps(p, calm, n, det);
    assert FeederOk(p, l) && (l in calm ==> StillToCome(p, n, l));
    var r := |n.det.stacks|;
    assert Nowhere(n.streams, r) by {
      forall m | 0 <= m < |n.streams| ensures r !in n.streams[m] { assert forall q :: q in n.streams[m] ==> D.Live(n.det, q); }
    }
    PutKeeps(p, calm, n.(det := det), l, [r], 0);
  }

  lemma {:induction false} RouteKeeps(p: Plan, calm: set<nat>, n: Net, l: nat, m: nat)
    requires Inv(p, calm, n) && Enabled(p, n, Route(l, m))
    ensures Next(p, n, Route(l, m)).Some? && Inv(p, calm, Next(p, n, Route(l, m)).value)
  {
    hide D.Inv, Placed, Homes, Entries, Key, Home, D.Live, Without;
    var r := n.streams[l][0];
    OnStream(p, calm, n, l, 0);
    TakeKeeps(p, calm, n, l, 0);
    assert FeederOk(p, m) && r in n.streams[l];
    var n1 := Taken(n, l, 0);
    if m in calm {
      assert StillToCome(p, n, m);
      FirstLeast(p, calm, n, l);
    }
    PutKeeps(p, calm, n1, m, [r], Key(n.det, r));
  }

  lemma {:induction false} WithoutFirst(s: seq<nat>)
    requires s != []
    ensures Without(s, 0) == s[1..]
  {
    assert s[..0] == [];
  }

  lemma {:induction false} CopyKeeps(p: Plan, calm: set<nat>, n: Net, l: nat, i: nat)
    requires Inv(p, calm, n) && Enabled(p, n, Copy(l, i))
    ensures Next(p, n, Copy(l, i)).Some? && Inv(p, calm, Next(p, n, Copy(l, i)).value)
  {
    hide D.Inv, D.Stacks, D.Queued, Homes, Entries, Ordered;
    var r := n.streams[l][i];
    OnStream(p, calm, n, l, i);
    D.StepKeepsInv(n.det, D.Copy(r));
    var det := D.Next(n.det, D.Copy(r)).value;
    DetParts(n.det);
    forall m, q | 0 <= m < |n.streams| && q in n.streams[m] ensures SameRecord(n.det, det, q) { assert D.Live(n.det, q); }
    QuietKeeps(p, calm, n, det);
    DetParts(det);
    KeySame(n.det, det, r);
    var copy := |n.det.stacks|;
    assert Nowhere(n.streams, copy) by {
      forall m | 0 <= m < |n.streams| ensures copy !in n.streams[m] { assert forall q :: q in n.streams[m] ==> D.Live(n.det, q); }
    }
    assert det.stacks[copy] == det.stacks[r];
    InsertKeeps(p, calm, n.(det := det), l, i, copy);
  }

  lemma {:induction false} PopKeeps(p: Plan, calm: set<nat>, n: Net, r: nat)
    requires Inv(p, calm, n) && Enabled(p, n, Pop(r))
    ensures Next(p, n, Pop(r)).Some? && Inv(p, calm, Next(p, n, Pop(r)).value)
  {
    hide D.Inv, D.Stacks, D.Queued, Homes, Entries, Ordered;
    D.StepKeepsInv(n.det, D.Drop(r));
    var det := D.Next(n.det, D.Drop(r)).value;
    forall m, q | 0 <= m < |n.streams| && q in n.streams[m] ensures SameRecord(n.det, det, q) {
      assert D.Live(n.det, q);
      var i :| 0 <= i < |n.streams[m]| && n.streams[m][i] == q;
      assert q != r;
    }
    QuietKeeps(p, calm, n, det);
  }

  lemma {:induction false} CloseKeeps(p: Plan, calm: set<nat>, n: Net, d: nat)
    requires Inv(p, calm, n) && Enabled(p, n, Close(d))
    ensures Next(p, n, Close(d)).Some? && Inv(p, calm, Next(p, n, Close(d)).value)
  {
    hide D.Inv, D.Stacks, D.Queued, Homes, Entries, Ordered;
    D.StepKeepsInv(n.det, D.Close(d));
    var det := D.Next(n.det, D.Close(d)).value;
    forall m, q | 0 <= m < |n.streams| && q in n.streams[m] ensures SameRecord(n.det, det, q) { assert D.Live(n.det, q); }
    QuietKeeps(p, calm, n, det);
  }

  /** A record comes to the entry of a network that is not deterministic with a smaller
      number for the network around it than the last one had: the check in xdet.c:148-149. */
  ghost predicate Lower(p: Plan, n: Net, step: Step)
    requires Fitting(p, n) && Enabled(p, n, step)
  {
    && step.Enter? && !n.det.gates[step.gate].isDet
    && Key(n.det, n.streams[p.input[step.gate]][0]) < n.det.gates[step.gate].outer
  }

  /** No other check is made there: the record has a detref of the network around. */
  lemma {:induction false} RefusedWhenLower(p: Plan, calm: set<nat>, n: Net, k: nat)
    requires Lanes(p, calm, n) && Enabled(p, n, Enter(k))
    ensures D.Enabled(n.det, D.Enter(k, n.streams[p.input[k]][0]))
    ensures D.Refuses(n.det, k, n.streams[p.input[k]][0]) <==> Lower(p, n, Enter(k))
  {
    hide Ordered, Placed, Homes, Entries, D.Live;
    OnStream(p, calm, n, p.input[k], 0);
    KeyIs(n.det, n.streams[p.input[k]][0]);
  }

  /** The first record on its way to a gate from a calm stream passes the check of the entry. */
  lemma {:induction false} MayEnter(p: Plan, calm: set<nat>, n: Net, k: nat)
    requires Inv(p, calm, n) && Enabled(p, n, Enter(k)) && p.input[k] in calm
    ensures !Lower(p, n, Enter(k)) && Next(p, n, Enter(k)).Some?
    ensures n.det.gates[k].inOrder && n.det.gates[k].lastKey <= Key(n.det, n.streams[p.input[k]][0])
  {
    hide D.Inv, D.Stacks, D.Queued, Ordered, Placed, Homes, D.Entering, Moved;
    var l := p.input[k];
    OnStream(p, calm, n, l, 0);
    DetParts(n.det);
    assert EntryOk(p, n, k);
    assert n.streams[l][0] in n.streams[l];
    RefusedWhenLower(p, calm, n, k);
    D.StepKeepsInv(n.det, D.Enter(k, n.streams[l][0]));
    EnteredCount(n.det, k, n.streams[l][0]);
  }

  lemma {:induction false} EnteredCount(a: D.State, k: nat, r: nat)
    requires k < |a.gates| && r < |a.stacks|
    ensures |D.Entering(a, k, r).gates| == |a.gates|
  {
  }

  lemma {:induction false} EnterKeeps(p: Plan, calm: set<nat>, n: Net, k: nat)
    requires Inv(p, calm, n) && Enabled(p, n, Enter(k)) && !Lower(p, n, Enter(k))
    ensures Next(p, n, Enter(k)).Some? && Inv(p, calm, Next(p, n, Enter(k)).value)
  {
    hide D.Inv, D.Stacks, D.Queued, D.Enabled, D.Live, Homes, Entries, Ordered, Placed, Key, Home,
         D.Entering, GatesMove, Without, NoDup, Inside, D.Refuses, Lower;
    var l := p.input[k];
    var r := n.streams[l][0];
    RefusedWhenLower(p, calm, n, k);
    OnStream(p, calm, n, l, 0);
    D.StepKeepsInv(n.det, D.Enter(k, r));
    var det := D.Entering(n.det, k, r);
    var n1 := Taken(n, l, 0);
    TakeKeeps(p, calm, n, l, 0);
    Entered(p, calm, n, k, r, n1, det);
    DetParts(n.det);
    DetParts(det);
    GatesKeep(p, calm, n1, det);
    assert NoDup([r]) by { Single(r); }
    var body := p.body[k];
    assert FeederOk(p, body) && p.source[body] == Entry(k);
    if body in calm { BodyAt(p, calm, n1, k); }
    PutKeeps(p, calm, n1.(det := det), body, [r], det.gates[k].counter);
  }

  lemma {:induction false} Single(r: nat)
    ensures NoDup([r])
  {
  }

  lemma {:induction false} BodyAt(p: Plan, calm: set<nat>, n: Net, k: nat)
    requires Lanes(p, calm, n) && k < |p.input| && p.body[k] in calm
    ensures StillToCome(p, n, p.body[k])
  {
  }

  /** What the entry does to the gates and the detrefs. */
  lemma {:induction false} Entered(p: Plan, calm: set<nat>, n: Net, k: nat, r: nat, n1: Net, det: D.State)
    requires Inv(p, calm, n) && Enabled(p, n, Enter(k)) && r == n.streams[p.input[k]][0] && D.Enabled(n.det, D.Enter(k, r))
    requires D.Live(n.det, r) && Home(n.det, r, p.owner[p.input[k]])
    requires n1 == Taken(n, p.input[k], 0) && Lanes(p, calm, n1) && Nowhere(n1.streams, r)
    requires det == D.Entering(n.det, k, r) && D.Inv(det)
    ensures |det.gates| == |n.det.gates| && n.det.gates[k].counter <= det.gates[k].counter
    ensures D.Live(det, r) && Home(det, r, Some(k)) && Key(det, r) == det.gates[k].counter
    ensures GatesMove(p, calm, n1, det) && Placed(det, n1.streams) && Entries(p, calm, n1.(det := det))
  {
    hide D.Inv, D.Stacks, D.Queued, Ordered, Placed, D.Draw, Entries, D.Enabled, Homes, D.TopKey, GatesMove, D.Live;
    DetParts(n.det);
    forall m, q | 0 <= m < |n1.streams| && q in n1.streams[m] ensures SameRecord(n.det, det, q) {
      LaneLive(p, calm, n1, m, q);
      OtherRecord(n.det, k, r, q);
    }
    PlacedSame(n.det, det, n1.streams);
    EntriesAfter(p, calm, n, k, r, n1, det);
    EnteredRecord(n.det, k, r, det);
    EnteredGates(p, calm, n, k, r, n1, det);
  }

  lemma {:induction false} OtherRecord(a: D.State, k: nat, r: nat, q: nat)
    requires k < |a.gates| && r < |a.stacks| && q != r && D.Live(a, q)
    ensures SameRecord(a, D.Entering(a, k, r), q)
  {
  }

  lemma {:induction false} EnteredGates(p: Plan, calm: set<nat>, n: Net, k: nat, r: nat, n1: Net, det: D.State)
    requires Inv(p, calm, n) && Enabled(p, n, Enter(k)) && r == n.streams[p.input[k]][0] && D.Enabled(n.det, D.Enter(k, r))
    requires r < |n.det.stacks| && Home(n.det, r, p.owner[p.input[k]]) && D.Stacks(n.det)
    requires Fitting(p, n1) && n1.det == n.det && det == D.Entering(n.det, k, r)
    requires forall d :: d in n.det.detrefs ==> d < n.det.next
    requires forall m, q :: 0 <= m < |n1.streams| && q in n1.streams[m] ==> SameRecord(n.det, det, q)
    ensures GatesMove(p, calm, n1, det) && n.det.gates[k].counter <= det.gates[k].counter
  {
    hide D.Inv, Ordered, Placed, D.Draw, Entries, D.Enabled, Homes, D.TopKey, Lanes;
    Drawn(p, calm, n, k);
    KeyIs(n.det, r);
    if n.det.stacks[r] != [] { assert n.det.stacks[r][0] in n.det.detrefs; }
  }

  lemma {:induction false} EnteredRecord(a: D.State, k: nat, r: nat, det: D.State)
    requires k < |a.gates| && D.Live(a, r) && det == D.Entering(a, k, r)
    ensures |det.gates| == |a.gates|
    ensures D.Live(det, r) && Home(det, r, Some(k)) && Key(det, r) == det.gates[k].counter
  {
    D.DrawStatic(a.gates[k], D.TopKey(a.detrefs, a.stacks[r]));
  }

  lemma {:induction false} LaneLive(p: Plan, calm: set<nat>, n: Net, m: nat, q: nat)
    requires Lanes(p, calm, n) && m < |n.streams| && q in n.streams[m]
    ensures D.Live(n.det, q)
  {
  }

  lemma {:induction false} Drawn(p: Plan, calm: set<nat>, n: Net, k: nat)
    requires Inv(p, calm, n) && Enabled(p, n, Enter(k)) && D.Enabled(n.det, D.Enter(k, n.streams[p.input[k]][0]))
    ensures var g := n.det.gates[k];
      var key := Key(n.det, n.streams[p.input[k]][0]);
      var g' := D.Draw(g, key);
      && g.counter <= g'.counter && g'.lastKey == key && g'.log == g.log && g'.isDet == g.isDet
      && (g.inOrder && g.lastKey <= key ==> g'.inOrder)
  {
  }

  lemma {:induction false} EntriesAfter(p: Plan, calm: set<nat>, n: Net, k: nat, r: nat, n1: Net, det: D.State)
    requires Inv(p, calm, n) && Enabled(p, n, Enter(k)) && r == n.streams[p.input[k]][0] && D.Enabled(n.det, D.Enter(k, r))
    requires r < |n.det.stacks| && n1 == Taken(n, p.input[k], 0) && Lanes(p, calm, n1)
    requires det == D.Entering(n.det, k, r) && D.Inv(det)
    requires forall m, q :: 0 <= m < |n1.streams| && q in n1.streams[m] ==> SameRecord(n.det, det, q)
    ensures Fitting(p, n1.(det := det)) && Entries(p, calm, n1.(det := det))
  {
    hide D.Inv, D.Stacks, D.Queued, Placed, Without, D.Draw, Homes, D.TopKey, Key, D.Enabled, Ordered, StillToCome;
    var l := p.input[k];
    DetParts(n.det);
    DetParts(det);
    Drawn(p, calm, n, k);
    assert Key(n.det, r) == D.TopKey(n.det.detrefs, n.det.stacks[r]) by { KeyIs(n.det, r); }
    assert Lasting(n.det, det);
    forall m, q | 0 <= m < |n1.streams| && q in n1.streams[m] ensures Key(det, q) == Key(n.det, q) { KeySame(n.det, det, q); }
    if l in calm {
      MayEnter(p, calm, n, k);
      FirstLeast(p, calm, n, l);
    }
    forall m | 0 <= m < |p.input| && p.input[m] in calm ensures EntryOk(p, n1.(det := det), m) { EntryAt(p, calm, n1, m); }
  }

  lemma {:induction false} KeyIs(det: D.State, r: nat)
    requires r < |det.stacks|
    ensures Key(det, r) == D.TopKey(det.detrefs, det.stacks[r])
  {
  }

  lemma {:induction false} FirstLeast(p: Plan, calm: set<nat>, n: Net, l: nat)
    requires Lanes(p, calm, n) && l < |n.streams| && n.streams[l] != [] && l in calm
    ensures Key(n.det, n.streams[l][0]) <= n.high[l]
    ensures AtLeast(n.det, Key(n.det, n.streams[l][0]), Taken(n, l, 0).streams[l])
  {
    hide Key, Placed, Homes, Entries, StillToCome, Without;
    var s := n.streams[l];
    assert Rising(n.det, s) && AtMost(n.det, s, n.high[l]) && s[0] in s;
    WithoutFirst(s);
    forall q | q in s[1..] ensures Key(n.det, s[0]) <= Key(n.det, q) {
      var i :| 0 <= i < |s| - 1 && s[1..][i] == q;
      assert s[i + 1] == q;
    }
  }

  lemma {:induction false} NoticeKeeps(p: Plan, calm: set<nat>, n: Net, k: nat)
    requires Inv(p, calm, n) && Enabled(p, n, Notice(k))
    ensures Next(p, n, Notice(k)).Some? && Inv(p, calm, Next(p, n, Notice(k)).value)
  {
    hide D.Inv, D.Stacks, D.Queued, Homes, Entries, Ordered, Placed, D.Dequeue;
    D.StepKeepsInv(n.det, D.Notice(k));
    var mid := n.det.(notices := n.det.notices - multiset{k});
    DetParts(n.det);
    assert D.Stacks(mid) && D.Queued(mid) by { NoticeMid(n.det, k); }
    assert QueueHere(n.det, k);
    PlacedSame(n.det, mid, n.streams);
    forall m, q | 0 <= m < |n.streams| && q in n.streams[m] ensures SameRecord(n.det, mid, q) { LaneLive(p, calm, n, m, q); }
    EmitKeeps(p, calm, n, k, mid);
  }

  lemma {:induction false} NoticeMid(det: D.State, k: nat)
    requires D.Stacks(det) && D.Queued(det)
    ensures var mid := det.(notices := det.notices - multiset{k}); D.Stacks(mid) && D.Queued(mid)
  {
    forall d | d in det.detrefs ensures D.DetrefOk(det.(notices := det.notices - multiset{k}), d) { assert D.DetrefOk(det, d); }
  }

  /** The first record on a stream inside a network may leave it at its collector. */
  lemma {:induction false} LeaveKeeps(p: Plan, calm: set<nat>, n: Net, l: nat)
    requires Inv(p, calm, n) && Enabled(p, n, Leave(l))
    ensures Next(p, n, Leave(l)).Some? && Inv(p, calm, Next(p, n, Leave(l)).value)
  {
    hide D.Inv, D.Stacks, D.Queued, Homes, Entries, Ordered, Placed, D.Dequeue, D.Queueing, Before, Without;
    var k := p.owner[l].value;
    var r := n.streams[l][0];
    OnStream(p, calm, n, l, 0);
    D.StepKeepsInv(n.det, D.Leave(k, r));
    DetParts(n.det);
    TopThere(n.det, r);
    TakeKeeps(p, calm, n, l, 0);
    LeaveMid(p, calm, n, l, k, r, Taken(n, l, 0), D.Queueing(n.det, r));
    EmitKeeps(p, calm, Taken(n, l, 0), k, D.Queueing(n.det, r));
  }

  lemma {:induction false} TopThere(det: D.State, r: nat)
    requires D.Stacks(det) && r < |det.stacks| && det.stacks[r] != []
    ensures det.stacks[r][0] in det.detrefs
  {
  }

  lemma {:induction false} LeaveMid(p: Plan, calm: set<nat>, n: Net, l: nat, k: nat, r: nat, n1: Net, mid: D.State)
    requires Lanes(p, calm, n1) && n1.det == n.det && Nowhere(n1.streams, r) && D.Inv(n.det) && k < |p.input|
    requires D.Live(n.det, r) && n.det.stacks[r] != [] && n.det.stacks[r][0] in n.det.detrefs && mid == D.Queueing(n.det, r)
    ensures Before(n1, mid) && QueueHere(mid, k)
  {
    hide Homes, Entries, Ordered, D.Inv, Placed, D.Stacks, D.Queued;
    DetParts(n.det);
    D.QueueingQueued(n.det, r);
    D.PopStacks(n.det, mid, r);
    QueueingPlaced(n.det, r, n1.streams);
    forall m, q | 0 <= m < |n1.streams| && q in n1.streams[m] ensures SameRecord(n.det, mid, q) { LaneLive(p, calm, n1, m, q); }
    assert QueueHere(n.det, k);
  }

  lemma {:induction false} QueueingPlaced(det: D.State, r: nat, streams: seq<seq<nat>>)
    requires Placed(det, streams) && D.Live(det, r) && Nowhere(streams, r) && det.stacks[r] != [] && det.stacks[r][0] in det.detrefs
    ensures Placed(D.Queueing(det, r), streams)
  {
    var mid := D.Queueing(det, r);
    forall m, q | 0 <= m < |streams| && q in streams[m] ensures D.Live(mid, q) { assert D.Live(det, q) && q != r; }
  }

  lemma {:induction false} DestroyKeeps(p: Plan, calm: set<nat>, n: Net, l: nat, i: nat)
    requires Inv(p, calm, n) && Enabled(p, n, Destroy(l, i))
    ensures Next(p, n, Destroy(l, i)).Some? && Inv(p, calm, Next(p, n, Destroy(l, i)).value)
  {
    hide D.Inv, Lanes;
    TakeKeeps(p, calm, n, l, i);
  }

  /** A record overtakes one with another number. */
  ghost predicate Disorders(p: Plan, n: Net, step: Step)
    requires Fitting(p, n) && Enabled(p, n, step)
  {
    step.Overtake? && Key(n.det, n.streams[step.stream][step.at]) != Key(n.det, n.streams[step.stream][step.at + 1])
  }

  lemma {:induction false} OvertakeKeeps(p: Plan, calm: set<nat>, n: Net, l: nat, i: nat)
    requires Inv(p, calm, n) && Enabled(p, n, Overtake(l, i)) && (l in calm ==> !Disorders(p, n, Overtake(l, i)))
    ensures Next(p, n, Overtake(l, i)).Some? && Inv(p, calm, Next(p, n, Overtake(l, i)).value)
  {
    hide D.Inv, Inside, Key, Placed, Home, BelowHome, NoDup, D.Live;
    var n' := Next(p, n, Overtake(l, i)).value;
    assert NoDup(n.streams[l]) by { OneOfEach(n.det, n.streams, l); }
    Swapped(n.det, n.streams[l], i);
    SwapPlaced(n.det, n.streams, l, i);
    forall m | 0 <= m < |n.streams| && m in calm
      ensures Rising(n.det, n'.streams[m]) && AtMost(n.det, n'.streams[m], n'.high[m]) && StillToCome(p, n', m)
    {
      assert Rising(n.det, n.streams[m]) && AtMost(n.det, n.streams[m], n.high[m]) && StillToCome(p, n, m) && FeederOk(p, m);
    }
    forall k | 0 <= k < |p.input| && p.input[k] in calm ensures EntryOk(p, n', k) { assert EntryOk(p, n, k); }
  }

  lemma {:induction false} OneOfEach(det: D.State, streams: seq<seq<nat>>, l: nat)
    requires Placed(det, streams) && l < |streams|
    ensures NoDup(streams[l])
  {
  }

  lemma {:induction false} SwapPlaced(det: D.State, streams: seq<seq<nat>>, l: nat, i: nat)
    requires Placed(det, streams) && l < |streams| && i + 1 < |streams[l]|
    ensures Placed(det, streams[l := streams[l][i := streams[l][i + 1]][i + 1 := streams[l][i]]])
  {
    hide NoDup, D.Live, Rising;
    Swapped(det, streams[l], i);
  }

  lemma {:induction false} Swapped(det: D.State, s: seq<nat>, i: nat)
    requires NoDup(s) && i + 1 < |s|
    ensures var t := s[i := s[i + 1]][i + 1 := s[i]];
      && NoDup(t) && (forall r :: r in t ==> r in s)
      && (Rising(det, s) && Key(det, s[i]) == Key(det, s[i + 1]) ==> Rising(det, t))
  {
    hide Key;
  }

  /** A record overtakes one with another number on one of these streams. */
  ghost predicate Disturbs(p: Plan, calm: set<nat>, n: Net, step: Step)
    requires Fitting(p, n) && Enabled(p, n, step)
  {
    Disorders(p, n, step) && step.stream in calm
  }

  /** A step fails exactly where a record comes to the entry of a network that is not
      deterministic with a smaller number than the last one: whatever overtakes, each record
      stays in its place, and no other check fails. Numbers go up along streams on which none
      overtakes, and whose feeders in the same network are like that. */
  lemma {:induction false} StepKeepsInv(p: Plan, calm: set<nat>, n: Net, step: Step)
    requires Inv(p, calm, n) && Enabled(p, n, step) && !Disturbs(p, calm, n, step)
    ensures Next(p, n, step).None? <==> Lower(p, n, step)
    ensures Next(p, n, step).Some? ==> Inv(p, calm, Next(p, n, step).value)
  {
    hide D.Inv, Placed, Homes, Ordered, Entries, Next;
    if Lower(p, n, step) { LowerFails(p, calm, n, step.gate); } else { HigherKeeps(p, calm, n, step); }
  }

  lemma {:induction false} LowerFails(p: Plan, calm: set<nat>, n: Net, k: nat)
    requires Inv(p, calm, n) && Enabled(p, n, Enter(k)) && Lower(p, n, Enter(k))
    ensures Next(p, n, Enter(k)) == None
  {
    hide D.Inv, Lanes, D.Refuses, D.Entering, Lower;
    RefusedWhenLower(p, calm, n, k);
  }

  lemma {:induction false} HigherKeeps(p: Plan, calm: set<nat>, n: Net, step: Step)
    requires Inv(p, calm, n) && Enabled(p, n, step) && !Disturbs(p, calm, n, step) && !Lower(p, n, step)
    ensures Next(p, n, step).Some? && Inv(p, calm, Next(p, n, step).value)
  {
    hide Inv, Next, Lanes;
    match step
    case Arrive(l) => ArriveKeeps(p, calm, n, l);
    case Enter(k) => EnterKeeps(p, calm, n, k);
    case Route(l, m) => RouteKeeps(p, calm, n, l, m);
    case Copy(l, i) => CopyKeeps(p, calm, n, l, i);
    case Destroy(l, i) => DestroyKeeps(p, calm, n, l, i);
    case Pop(r) => PopKeeps(p, calm, n, r);
    case Close(d) => CloseKeeps(p, calm, n, d);
    case Leave(l) => LeaveKeeps(p, calm, n, l);
    case Notice(k) => NoticeKeeps(p, calm, n, k);
    case Overtake(l, i) => OvertakeKeeps(p, calm, n, l, i);
  }

  // ---------- whole runs ----------

  /** Networks as planned, before the first record. */
  ghost predicate Initial(p: Plan, n: Net) {
    && Fitting(p, n) && D.Initial(n.det)
    && forall l :: 0 <= l < |n.streams| ==> n.streams[l] == [] && n.high[l] == 0
  }

  ghost predicate Feasible(p: Plan, n: Net, steps: seq<Step>)
    decreases |steps|
  {
    |steps| == 0 ||
    (Fitting(p, n) && Enabled(p, n, steps[0]) && (Next(p, n, steps[0]).Some? ==> Feasible(p, Next(p, n, steps[0]).value, steps[1..])))
  }

  ghost function Run(p: Plan, n: Net, steps: seq<Step>): Option<Net>
    requires Feasible(p, n, steps)
    decreases |steps|
  {
    if |steps| == 0 then Some(n)
    else match Next(p, n, steps[0])
      case None => None
      case Some(n') => Run(p, n', steps[1..])
  }

  /** Somewhere in the run a record overtakes one with another number on one of these streams. */
  ghost predicate DisturbsIn(p: Plan, calm: set<nat>, n: Net, steps: seq<Step>)
    requires Feasible(p, n, steps)
    decreases |steps|
  {
    |steps| > 0 &&
    (Disturbs(p, calm, n, steps[0]) || (Next(p, n, steps[0]).Some? && DisturbsIn(p, calm, Next(p, n, steps[0]).value, steps[1..])))
  }

  /** Somewhere in the run a record comes to the entry of a network that is not deterministic
      with a smaller number than the last one. */
  ghost predicate LowerIn(p: Plan, n: Net, steps: seq<Step>)
    requires Feasible(p, n, steps)
    decreases |steps|
  {
    |steps| > 0 && (Lower(p, n, steps[0]) || (Next(p, n, steps[0]).Some? && LowerIn(p, Next(p, n, steps[0]).value, steps[1..])))
  }

  lemma {:induction false} RunKeepsInv(p: Plan, calm: set<nat>, n: Net, steps: seq<Step>)
    requires Inv(p, calm, n) && Feasible(p, n, steps) && !DisturbsIn(p, calm, n, steps)
    ensures Run(p, n, steps).None? <==> LowerIn(p, n, steps)
    ensures Run(p, n, steps).Some? ==> Inv(p, calm, Run(p, n, steps).value)
    decreases |steps|
  {
    hide Lanes, D.Inv, Next, Enabled, Disturbs, Lower;
    if |steps| > 0 {
      StepKeepsInv(p, calm, n, steps[0]);
      if Next(p, n, steps[0]).Some? { RunKeepsInv(p, calm, Next(p, n, steps[0]).value, steps[1..]); }
    }
  }

  lemma {:induction false} InitialInv(p: Plan, calm: set<nat>, n: Net)
    requires Initial(p, n) && Closed(p, calm)
    ensures Inv(p, calm, n)
  {
    D.InitialInv(n.det);
    forall l | 0 <= l < |n.streams| ensures StillToCome(p, n, l) { assert FeederOk(p, l); }
  }

  lemma {:induction false} NothingCalm(p: Plan, n: Net, steps: seq<Step>)
    requires Feasible(p, n, steps)
    ensures !DisturbsIn(p, {}, n, steps)
    decreases |steps|
  {
    if |steps| > 0 && Next(p, n, steps[0]).Some? { NothingCalm(p, Next(p, n, steps[0]).value, steps[1..]); }
  }

  /** Every run, whatever overtakes: it fails if and only if a record comes to the entry of a
      network that is not deterministic with a smaller number than the last one (xdet.c:149). */
  lemma {:induction false} FailsExactly(p: Plan, n: Net, steps: seq<Step>)
    requires Initial(p, n) && Feasible(p, n, steps)
    ensures Run(p, n, steps).None? <==> LowerIn(p, n, steps)
  {
    hide Feasible, Run, LowerIn, Next, Enabled, D.Inv, DisturbsIn, Lanes;
    InitialInv(p, {}, n);
    NothingCalm(p, n, steps);
    RunKeepsInv(p, {}, n, steps);
  }

  /** All entries that check numbers read from calm streams. */
  ghost predicate Guarded(p: Plan, calm: set<nat>) {
    |p.isDet| == |p.input| && forall k :: 0 <= k < |p.input| && !p.isDet[k] ==> p.input[k] in calm
  }

  lemma {:induction false} CalmPasses(p: Plan, calm: set<nat>, n: Net, step: Step)
    requires Inv(p, calm, n) && Enabled(p, n, step) && Guarded(p, calm)
    ensures !Lower(p, n, step)
  {
    hide D.Inv, Homes, Placed, Ordered, Entries, Key;
    if step.Enter? && step.gate < |p.input| && p.input[step.gate] in calm { MayEnter(p, calm, n, step.gate); }
  }

  lemma {:induction false} NeverLower(p: Plan, calm: set<nat>, n: Net, steps: seq<Step>)
    requires Inv(p, calm, n) && Feasible(p, n, steps) && !DisturbsIn(p, calm, n, steps) && Guarded(p, calm)
    ensures !LowerIn(p, n, steps)
    decreases |steps|
  {
    hide D.Inv, Next, Enabled, Disturbs, Homes, Placed, Ordered, Entries;
    if |steps| > 0 {
      StepKeepsInv(p, calm, n, steps[0]);
      CalmPasses(p, calm, n, steps[0]);
      if Next(p, n, steps[0]).Some? { NeverLower(p, calm, Next(p, n, steps[0]).value, steps[1..]); }
    }
  }

  /** Where no record overtakes one with another number on a calm stream: on every run that
      goes through, entries with calm inputs are met in order, the collectors of such networks
      emit in the order of the network around them, and the records of calm streams stay in
      order. If all entries that check numbers read from calm streams, every run goes through. */
  lemma {:induction false} CalmOrder(p: Plan, calm: set<nat>, n: Net, steps: seq<Step>)
    requires Initial(p, n) && Feasible(p, n, steps) && Closed(p, calm) && !DisturbsIn(p, calm, n, steps)
    ensures Guarded(p, calm) ==> Run(p, n, steps).Some?
    ensures Run(p, n, steps).Some? ==> InOrder(p, calm, Run(p, n, steps).value)
  {
    hide D.Inv, Next, Enabled, DisturbsIn, LowerIn, Feasible, Run, Rising, Homes, Placed, Closed, Guarded;
    InitialInv(p, calm, n);
    RunKeepsInv(p, calm, n, steps);
    if Guarded(p, calm) { NeverLower(p, calm, n, steps); }
    if Run(p, n, steps).Some? { OrderHere(p, calm, Run(p, n, steps).value); }
  }

  ghost predicate InOrder(p: Plan, calm: set<nat>, n: Net) {
    && |n.det.gates| == |p.input| && |n.streams| == |p.source|
    && (forall k :: 0 <= k < |p.input| && p.input[k] in calm ==> n.det.gates[k].inOrder)
    && (forall k, i, j :: 0 <= k < |p.input| && p.input[k] in calm && 0 <= i < j < |n.det.gates[k].log| ==>
          n.det.gates[k].log[i].key <= n.det.gates[k].log[j].key)
    && (forall l :: 0 <= l < |p.source| && l in calm ==> Rising(n.det, n.streams[l]))
  }

  lemma {:induction false} OrderHere(p: Plan, calm: set<nat>, n: Net)
    requires Inv(p, calm, n)
    ensures InOrder(p, calm, n)
  {
    hide D.Inv, Rising, Homes, Placed;
    forall k | 0 <= k < |p.input| && p.input[k] in calm
      ensures n.det.gates[k].inOrder
      ensures forall i, j :: 0 <= i < j < |n.det.gates[k].log| ==> n.det.gates[k].log[i].key <= n.det.gates[k].log[j].key
    {
      EntryAt(p, calm, n, k);
      LogRises(n.det, k);
    }
  }

  function UpTo(n: nat): (s: set<nat>)
    ensures forall l :: l in s <==> 0 <= l < n
  {
    if n == 0 then {} else UpTo(n - 1) + {n - 1}
  }

  function All(p: Plan): set<nat> { UpTo(|p.source|) }

  lemma {:induction false} AllClosed(p: Plan)
    requires WellPlanned(p)
    ensures Closed(p, All(p)) && Guarded(p, All(p))
  {
    forall l | 0 <= l < |p.source|
      ensures match p.source[l]
        case World => true
        case Entry(k) => true
        case Collector(k) => k < |p.input| && p.input[k] in All(p)
        case Stream(m) => m in All(p)
    {
      assert FeederOk(p, l);
    }
  }

  /** Without overtaking: networks in series and inside one another, to any depth. No check of
      the code fails, so in particular each record finds its number no smaller than the last
      one at the entry (xdet.c:149); all entries are met in order, all collectors emit in the
      order of the network around them, and the records of every stream stay in that order. */
  lemma {:induction false} OrderKept(p: Plan, n: Net, steps: seq<Step>)
    requires Initial(p, n) && Feasible(p, n, steps) && !DisturbsIn(p, All(p), n, steps)
    ensures Run(p, n, steps).Some? && InOrder(p, All(p), Run(p, n, steps).value)
  {
    hide D.Inv, Next, Enabled, DisturbsIn, Feasible, Run, Rising, D.Initial;
    AllClosed(p);
    CalmOrder(p, All(p), n, steps);
  }

  /** Where all networks are deterministic themselves, nothing fails, whatever overtakes. */
  lemma {:induction false} AllDeterministic(p: Plan, n: Net, steps: seq<Step>)
    requires Initial(p, n) && Feasible(p, n, steps) && forall k :: 0 <= k < |p.isDet| ==> p.isDet[k]
    ensures Run(p, n, steps).Some?
  {
    hide D.Inv, Next, Enabled, DisturbsIn, Feasible, Run, Rising, D.Initial;
    NothingCalm(p, n, steps);
    CalmOrder(p, {}, n, steps);
  }
}
