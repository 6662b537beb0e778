/** Where records may overtake one another without a check failing: the condition on the plan. */
module DetOvertaking {
  import opened Options
  import D = Determinism
  import opened DetSeries

  /** Streams are numbered in the order of flow. */
  predicate Flows(p: Plan) {
    WellPlanned(p) && forall l :: 0 <= l < |p.source| ==> FlowsTo(p, l)
  }

  predicate FlowsTo(p: Plan, l: nat)
    requires |p.body| == |p.input| == |p.output| && l < |p.source|
  {
    match p.source[l]
    case World => true
    case Entry(k) => k < |p.input| && p.input[k] < l
    case Collector(k) => k < |p.input| && p.input[k] < l
    case Stream(m) => m < l
  }

  /** Records may have changed places on this stream, or on the way to it within its network.
      An entry numbers them afresh; a collector restores the order in which they have entered. */
  predicate Disturbed(p: Plan, loose: set<nat>, l: nat)
    requires Flows(p) && l < |p.source|
    decreases l
  {
    assert FlowsTo(p, l);
    l in loose ||
    match p.source[l]
    case World => false
    case Entry(_) => false
    case Collector(k) => Disturbed(p, loose, p.input[k])
    case Stream(m) => Disturbed(p, loose, m)
  }

  /** Some entry that checks numbers reads from such a stream. */
  predicate Exposed(p: Plan, loose: set<nat>)
    requires Flows(p)
  {
    exists k :: 0 <= k < |p.input| && !p.isDet[k] && Disturbed(p, loose, p.input[k])
  }

  /** Records overtake one another on these streams only. */
  predicate OnlyOn(steps: seq<Step>, loose: set<nat>) {
    forall i :: 0 <= i < |steps| && steps[i].Overtake? ==> steps[i].stream in loose
  }

  ghost predicate FailsOn(p: Plan, n: Net, steps: seq<Step>, loose: set<nat>) {
    Feasible(p, n, steps) && OnlyOn(steps, loose) && Run(p, n, steps) == None
  }

  // ---------- no run fails ----------

  function Calm(p: Plan, loose: set<nat>): set<nat>
    requires Flows(p)
  {
    set l | l in UpTo(|p.source|) && !Disturbed(p, loose, l)
  }

  lemma {:induction false} CalmClosed(p: Plan, loose: set<nat>)
    requires Flows(p)
    ensures Closed(p, Calm(p, loose)) && (!Exposed(p, loose) ==> Guarded(p, Calm(p, loose)))
  {
    var calm := Calm(p, loose);
    forall l | 0 <= l < |p.source| && l in calm
      ensures match p.source[l]
        case World => true
        case Entry(k) => true
        case Collector(k) => k < |p.input| && p.input[k] in calm
        case Stream(m) => m in calm
    {
      assert FlowsTo(p, l) && FeederOk(p, l);
    }
  }

  lemma {:induction false} OnlyOnLoose(p: Plan, loose: set<nat>, n: Net, steps: seq<Step>)
    requires Flows(p) && Feasible(p, n, steps) && OnlyOn(steps, loose)
    ensures !DisturbsIn(p, Calm(p, loose), n, steps)
    decreases |steps|
  {
    hide Next, Enabled, Key, Flows;
    if |steps| > 0 {
      LooseNotCalm(p, loose);
      if Next(p, n, steps[0]).Some? {
        assert forall i :: 0 <= i < |steps[1..]| ==> steps[1..][i] == steps[i + 1];
        OnlyOnLoose(p, loose, Next(p, n, steps[0]).value, steps[1..]);
      }
    }
  }

  lemma {:induction false} LooseNotCalm(p: Plan, loose: set<nat>)
    requires Flows(p)
    ensures forall l :: l in loose ==> l !in Calm(p, loose)
  {
  }

  // ---------- runs with two records ----------

  ghost predicate Leads(p: Plan, n: Net, steps: seq<Step>, n': Net) {
    Feasible(p, n, steps) && Run(p, n, steps) == Some(n')
  }

  lemma {:induction false} LeadsOn(p: Plan, n: Net, a: seq<Step>, n': Net, b: seq<Step>)
    requires Leads(p, n, a, n') && Feasible(p, n', b)
    ensures Feasible(p, n, a + b) && Run(p, n, a + b) == Run(p, n', b)
    decreases |a|
  {
    hide Next, Enabled;
    if |a| == 0 {
      assert a + b == b;
    } else {
      assert (a + b)[1..] == a[1..] + b;
      LeadsOn(p, Next(p, n, a[0]).value, a[1..], n', b);
    }
  }

  lemma {:induction false} OneStep(p: Plan, n: Net, step: Step)
    requires Fitting(p, n) && Enabled(p, n, step) && Next(p, n, step).Some?
    ensures Leads(p, n, [step], Next(p, n, step).value)
  {
    hide Next, Enabled;
    assert [step][1..] == [];
    assert Feasible(p, Next(p, n, step).value, []) && Run(p, Next(p, n, step).value, []) == Some(Next(p, n, step).value);
  }

  lemma {:induction false} TwoSteps(p: Plan, n: Net, s: Step, n1: Net, t: Step)
    requires Fitting(p, n) && Enabled(p, n, s) && Next(p, n, s) == Some(n1)
    requires Fitting(p, n1) && Enabled(p, n1, t) && Next(p, n1, t).Some?
    ensures Leads(p, n, [s, t], Next(p, n1, t).value)
  {
    hide Next, Enabled;
    OneStep(p, n, s);
    OneStep(p, n1, t);
    LeadsOn(p, n, [s], n1, [t]);
    assert [s] + [t] == [s, t];
  }

  /** Nothing has come to the gates ahead. */
  ghost predicate Ahead(p: Plan, n: Net, l: nat)
    requires Fitting(p, n)
  {
    forall k :: 0 <= k < |p.input| && p.input[k] >= l ==> n.det.gates[k].outer == 0 && n.det.gates[k].detfifo == []
  }

  ghost predicate Alone(n: Net, l: nat, recs: seq<nat>) {
    l < |n.streams| && n.streams[l] == recs && forall m :: 0 <= m < |n.streams| && m != l ==> n.streams[m] == []
  }

  /** These two records are on one stream, and there is nothing else. */
  ghost predicate Pair(p: Plan, n: Net, l: nat, a: nat, b: nat) {
    Inv(p, {}, n) && Alone(n, l, [a, b]) && Ahead(p, n, l)
  }

  lemma {:induction false} Goes(p: Plan, n: Net, step: Step)
    requires Inv(p, {}, n) && Enabled(p, n, step) && !Lower(p, n, step)
    ensures Next(p, n, step).Some? && Inv(p, {}, Next(p, n, step).value)
  {
    hide D.Inv, Placed, Homes, Ordered, Entries, Next, Lower;
    StepKeepsInv(p, {}, n, step);
  }

  // ---------- one record through a network ----------

  /** A collector with one detref, which nothing holds any more, puts out its one record. */
  lemma {:induction false} DequeueOne(s: D.State, k: nat, d: nat, r: nat)
    requires k < |s.gates| && s.gates[k].detfifo == [d] && d in s.detrefs && D.Dequeue(s, k).Some?
    requires s.detrefs[d].refcount == 0 && s.detrefs[d].recfifo == [r]
    ensures var x := s.detrefs[d];
      D.Dequeue(s, k) == Some(s.(detrefs := s.detrefs - {d},
        gates := s.gates[k := s.gates[k].(detfifo := [], leaveCounter := x.seqnr, log := s.gates[k].log + [D.Emission(d, x.seqnr, x.key, r)])]))
  {
    var x := s.detrefs[d];
    var s1 := D.Flush(D.Advance(s, k, d), k, d);
    assert D.Emissions(d, x, [r]) == [D.Emission(d, x.seqnr, x.key, r)];
    var s2 := D.Free(s1, k, d);
    assert s1.gates[k].detfifo[1..] == [];
    assert s2.gates[k].detfifo == [];
    assert D.Dequeue(s, k) == D.Dequeue(s2, k) == Some(s2);
    assert s2.detrefs == s.detrefs - {d};
    assert s2.gates == s.gates[k := s.gates[k].(detfifo := [], leaveCounter := x.seqnr, log := s.gates[k].log + [D.Emission(d, x.seqnr, x.key, r)])];
  }

  /** The gate after a record has gone through its network. */
  function Gone(g: D.Gate, key: nat, d: nat, r: nat): D.Gate {
    var drawn := D.Draw(g, key);
    drawn.(leaveCounter := drawn.counter, log := g.log + [D.Emission(d, drawn.counter, key, r)])
  }

  lemma {:induction false} EnterAndLeave(det: D.State, k: nat, r: nat)
    requires k < |det.gates| && r < |det.stacks| && det.gates[k].detfifo == [] && det.next !in det.detrefs
    requires D.Dequeue(D.Queueing(D.Entering(det, k, r), r), k).Some?
    ensures D.Dequeue(D.Queueing(D.Entering(det, k, r), r), k) ==
      Some(det.(next := det.next + 1, gates := det.gates[k := Gone(det.gates[k], D.TopKey(det.detrefs, det.stacks[r]), det.next, r)]))
  {
    hide D.Draw, D.TopKey, D.Dequeue;
    var key := D.TopKey(det.detrefs, det.stacks[r]);
    D.DrawStatic(det.gates[k], key);
    var det1 := D.Entering(det, k, r);
    assert det1.gates[k].detfifo == [det.next];
    var mid := D.Queueing(det1, r);
    assert [] + [r] == [r];
    assert mid.detrefs[det.next].recfifo == [r];
    DequeueOne(mid, k, det.next, r);
    assert mid.detrefs - {det.next} == det.detrefs;
    assert det1.stacks[r][1..] == det.stacks[r];
    assert mid.stacks == det.stacks;
    var g := Gone(det.gates[k], key, det.next, r);
    assert mid.gates[k].(detfifo := [], leaveCounter := g.leaveCounter, log := g.log) == g;
    assert mid.gates[k := g] == det.gates[k := g];
  }

  /** The net after a record has gone through a network straight away. */
  ghost predicate GoneThrough(p: Plan, n: Net, k: nat, r: nat, n': Net)
    requires Fitting(p, n) && k < |p.input| && n.streams[p.input[k]] != []
  {
    && Fitting(p, n') && n'.det.stacks == n.det.stacks && n'.det.detrefs == n.det.detrefs
    && n'.det.gates == n.det.gates[k := Gone(n.det.gates[k], Key(n.det, r), n.det.next, r)]
    && n'.streams == n.streams[p.input[k] := n.streams[p.input[k]][1..]][p.output[k] := n.streams[p.output[k]] + [r]]
  }

  lemma {:induction false} Entered1(p: Plan, n: Net, k: nat)
    requires Inv(p, {}, n) && Enabled(p, n, Enter(k)) && !Lower(p, n, Enter(k))
    ensures var r := n.streams[p.input[k]][0];
      && r < |n.det.stacks| && n.det.next !in n.det.detrefs && |D.Entering(n.det, k, r).gates| == |n.det.gates|
      && Next(p, n, Enter(k)) == Some(Moved(p, n, Enter(k), D.Entering(n.det, k, r)))
      && Inv(p, {}, Next(p, n, Enter(k)).value)
  {
    hide D.Inv, Homes, Ordered, Entries, Moved, D.Refuses, Lower, Placed;
    var r := n.streams[p.input[k]][0];
    Goes(p, n, Enter(k));
    RefusedWhenLower(p, {}, n, k);
    DetParts(n.det);
    EnteredCount(n.det, k, r);
  }

  lemma {:induction false} Left1(p: Plan, n: Net, l: nat, k: nat, r: nat)
    requires Inv(p, {}, n) && Enabled(p, n, Leave(l)) && p.owner[l] == Some(k) && r == n.streams[l][0]
    ensures r < |n.det.stacks| && n.det.stacks[r] != [] && n.det.stacks[r][0] in n.det.detrefs
    ensures D.Dequeue(D.Queueing(n.det, r), k).Some? && |D.Dequeue(D.Queueing(n.det, r), k).value.gates| == |n.det.gates|
    ensures Next(p, n, Leave(l)) == Some(Emitting(p, Taken(n, l, 0), k, D.Dequeue(D.Queueing(n.det, r), k).value))
    ensures Inv(p, {}, Next(p, n, Leave(l)).value)
  {
    hide D.Inv, Homes, Ordered, Entries, Placed, D.Dequeue, Emitting, Key;
    OnStream(p, {}, n, l, 0);
    Goes(p, n, Leave(l));
    DetParts(n.det);
    TopThere(n.det, r);
  }

  lemma {:induction false} Through(p: Plan, n: Net, k: nat) returns (n': Net)
    requires Inv(p, {}, n) && Flows(p) && Enabled(p, n, Enter(k)) && !Lower(p, n, Enter(k))
    requires n.det.gates[k].detfifo == [] && n.streams[p.body[k]] == []
    ensures Leads(p, n, [Enter(k), Leave(p.body[k])], n') && Inv(p, {}, n')
    ensures GoneThrough(p, n, k, n.streams[p.input[k]][0], n')
  {
    hide D.Inv, Homes, Ordered, Entries, Placed, D.Dequeue, D.Entering, Gone, Lower, Flows;
    var l, body, out := p.input[k], p.body[k], p.output[k];
    var r := n.streams[l][0];
    Entered1(p, n, k);
    var det1 := D.Entering(n.det, k, r);
    var n1 := Moved(p, n, Enter(k), det1);
    Apart(p, k);
    WithoutFirst(n.streams[l]);
    assert n1.streams == n.streams[l := n.streams[l][1..]][body := [r]] by { assert [] + [r] == [r]; }
    Left1(p, n1, body, k, r);
    EnterAndLeave(n.det, k, r);
    KeyIs(n.det, r);
    var det2 := D.Dequeue(D.Queueing(det1, r), k).value;
    n' := Emitting(p, Taken(n1, body, 0), k, det2);
    TwoSteps(p, n, Enter(k), n1, Leave(body));
    EmitsOne(n.det, k, r, det1, det2);
    assert Without([r], 0) == [];
    assert n1.streams[out] == n.streams[out];
    assert n'.streams == n1.streams[body := []][out := n.streams[out] + [r]];
    assert n.streams[l := n.streams[l][1..]][body := [r]][body := []] == n.streams[l := n.streams[l][1..]];
  }

  lemma {:induction false} EmitsOne(det: D.State, k: nat, r: nat, det1: D.State, det2: D.State)
    requires k < |det.gates| && r < |det.stacks| && det1 == D.Entering(det, k, r) && |det1.gates| == |det2.gates| == |det.gates|
    requires det2.gates[k] == Gone(det.gates[k], D.TopKey(det.detrefs, det.stacks[r]), det.next, r)
    ensures Emitted(det1.gates[k].log, det2.gates[k].log) == [r]
  {
    D.DrawStatic(det.gates[k], D.TopKey(det.detrefs, det.stacks[r]));
  }

  /** In front of a network, inside it and behind it are three streams. */
  lemma {:induction false} Apart(p: Plan, k: nat)
    requires Flows(p) && k < |p.input|
    ensures p.input[k] < p.body[k] && p.input[k] < p.output[k] && p.body[k] != p.output[k]
    ensures p.body[k] < |p.source| && p.output[k] < |p.source|
  {
    assert FlowsTo(p, p.body[k]) && FlowsTo(p, p.output[k]);
  }

  // ---------- two records along a path ----------

  /** The two records are in the order of their numbers, if they have any. */
  ghost predicate Numbered(p: Plan, n: Net, l: nat, a: nat, b: nat)
    requires Fitting(p, n) && l < |p.owner|
  {
    p.owner[l].Some? ==> Key(n.det, a) < Key(n.det, b)
  }

  lemma {:induction false} Gone1(g: D.Gate, key: nat, d: nat, r: nat)
    ensures var g' := Gone(g, key, d, r);
      g'.isDet == g.isDet && g'.detfifo == g.detfifo && (!g.isDet ==> g'.outer == key)
  {
  }

  /** Both go through a network that is deterministic, or that they meet in order. */
  lemma {:induction false} BothThrough(p: Plan, n: Net, k: nat, a: nat, b: nat) returns (steps: seq<Step>, n': Net)
    requires Flows(p) && k < |p.input| && Pair(p, n, p.input[k], a, b)
    requires p.isDet[k] || Key(n.det, a) <= Key(n.det, b)
    ensures Leads(p, n, steps, n') && (forall i :: 0 <= i < |steps| ==> !steps[i].Overtake?)
    ensures Pair(p, n', p.output[k], a, b) && n'.det.stacks == n.det.stacks && n'.det.detrefs == n.det.detrefs
  {
    hide D.Inv, Homes, Ordered, Entries, Placed, Gone, Flows, Key, Next;
    var l, body, out := p.input[k], p.body[k], p.output[k];
    Apart(p, k);
    var n1 := Through(p, n, k);
    Gone1(n.det.gates[k], Key(n.det, a), n.det.next, a);
    assert n1.streams[l] == [b] by { assert [a, b][1..] == [b]; }
    assert n1.streams[out] == [a] by { assert [] + [a] == [a]; }
    KeysStay(n.det, n1.det);
    var n2 := Through(p, n1, k);
    Gone1(n1.det.gates[k], Key(n1.det, b), n1.det.next, b);
    LeadsOn(p, n, [Enter(k), Leave(body)], n1, [Enter(k), Leave(body)]);
    steps, n' := [Enter(k), Leave(body)] + [Enter(k), Leave(body)], n2;
    assert n2.streams[l] == [] by { assert [b][1..] == []; }
    assert n2.streams[out] == [a, b] by { assert [a] + [b] == [a, b]; }
  }

  lemma {:induction false} KeysStay(a: D.State, b: D.State)
    requires b.stacks == a.stacks && b.detrefs == a.detrefs
    ensures forall r :: Key(b, r) == Key(a, r)
  {
  }

  lemma {:induction false} EnteredKeys(det: D.State, k: nat, a: nat, b: nat)
    requires D.Stacks(det) && k < |det.gates| && a < |det.stacks| && b < |det.stacks| && a != b && det.next !in det.detrefs
    ensures var det1 := D.Entering(det, k, a);
      && |det1.gates| == |det.gates| && |det1.stacks| == |det.stacks| && (forall m :: 0 <= m < |det.gates| && m != k ==> det1.gates[m] == det.gates[m])
      && det1.gates[k].isDet == det.gates[k].isDet && (!det.gates[k].isDet ==> det1.gates[k].outer == Key(det, a))
      && Key(det1, a) == det1.gates[k].counter && Key(det1, b) == Key(det, b)
  {
    assert det.stacks[b] != [] ==> det.stacks[b][0] in det.detrefs;
  }

  lemma {:induction false} NumbersRise(det1: D.State, k: nat, a: nat, b: nat)
    requires D.Stacks(det1) && k < |det1.gates| && a < |det1.stacks| && b < |det1.stacks| && a != b && det1.next !in det1.detrefs
    requires Key(det1, a) == det1.gates[k].counter && (det1.gates[k].isDet || det1.gates[k].outer < Key(det1, b))
    ensures var det2 := D.Entering(det1, k, b); Key(det2, a) < Key(det2, b)
  {
    EnteredKeys(det1, k, b, a);
  }

  /** Both enter a network, and get numbers in the order in which they come. */
  lemma {:induction false} BothEnter(p: Plan, n: Net, k: nat, a: nat, b: nat) returns (steps: seq<Step>, n': Net)
    requires Flows(p) && k < |p.input| && Pair(p, n, p.input[k], a, b) && Numbered(p, n, p.input[k], a, b)
    ensures Leads(p, n, steps, n') && steps == [Enter(k), Enter(k)]
    ensures Pair(p, n', p.body[k], a, b) && Key(n'.det, a) < Key(n'.det, b)
  {
    hide D.Inv, Homes, Ordered, Entries, Placed, Flows, Next, D.Entering, Key;
    var l, body := p.input[k], p.body[k];
    Apart(p, k);
    PairApart(p, n, l, a, b);
    DetParts(n.det);
    Entered1(p, n, k);
    var det1 := D.Entering(n.det, k, a);
    var n1 := Moved(p, n, Enter(k), det1);
    EnteredKeys(n.det, k, a, b);
    assert n1.streams[l] == [b] && n1.streams[body] == [a] by {
      WithoutFirst([a, b]);
      assert [a, b][1..] == [b] && [] + [a] == [a];
    }
    Entered1(p, n1, k);
    DetParts(det1);
    NumbersRise(det1, k, a, b);
    var det2 := D.Entering(det1, k, b);
    EnteredKeys(det1, k, b, a);
    n' := Moved(p, n1, Enter(k), det2);
    assert n'.streams[l] == [] && n'.streams[body] == [a, b] by {
      WithoutFirst([b]);
      assert [b][1..] == [] && [a] + [b] == [a, b];
    }
    steps := [Enter(k), Enter(k)];
    TwoSteps(p, n, Enter(k), n1, Enter(k));
  }

  lemma {:induction false} PairApart(p: Plan, n: Net, l: nat, a: nat, b: nat)
    requires Pair(p, n, l, a, b)
    ensures a != b && a < |n.det.stacks| && b < |n.det.stacks|
  {
    hide D.Inv, Homes, Ordered, Entries;
    assert NoDup(n.streams[l]) && n.streams[l][0] == a && n.streams[l][1] == b && a in n.streams[l] && b in n.streams[l];
    assert D.Live(n.det, a) && D.Live(n.det, b);
  }

  lemma {:induction false} BothArrive(p: Plan, n: Net, l: nat) returns (steps: seq<Step>, n': Net)
    requires Initial(p, n) && l < |p.source| && p.source[l] == World
    ensures Leads(p, n, steps, n') && steps == [Arrive(l), Arrive(l)]
    ensures Pair(p, n', l, 0, 1) && Numbered(p, n', l, 0, 1)
  {
    hide D.Inv, Homes, Ordered, Entries, Placed, Key;
    assert FeederOk(p, l);
    assert Closed(p, {});
    InitialInv(p, {}, n);
    Goes(p, n, Arrive(l));
    var n1 := Put(n.(det := n.det.(stacks := [[]])), l, [0], 0);
    assert [] + [0] == [0] && [0] + [1] == [0, 1] && n.det.stacks + [[]] == [[]];
    assert Next(p, n, Arrive(l)) == Some(n1);
    Goes(p, n1, Arrive(l));
    steps, n' := [Arrive(l), Arrive(l)], Next(p, n1, Arrive(l)).value;
    TwoSteps(p, n, Arrive(l), n1, Arrive(l));
    assert n'.streams[l] == [0, 1];
  }

  /** Every stream is reached by two records in the order of their numbers. */
  lemma {:induction false} Reach(p: Plan, n: Net, l: nat) returns (steps: seq<Step>, n': Net)
    requires Initial(p, n) && Flows(p) && l < |p.source|
    ensures Leads(p, n, steps, n') && (forall i :: 0 <= i < |steps| ==> !steps[i].Overtake?)
    ensures Pair(p, n', l, 0, 1) && Numbered(p, n', l, 0, 1)
    decreases l
  {
    hide Inv, Alone, Ahead, Next, Enabled, Key, D.Initial, Feasible, Run;
    assert FlowsTo(p, l) && FeederOk(p, l);
    match p.source[l]
    case World =>
      steps, n' := BothArrive(p, n, l);
    case Stream(m) =>
      var s1, n1 := Reach(p, n, m);
      var s2, n2 := BothRoute(p, n1, m, l, 0, 1);
      steps, n' := s1 + s2, n2;
      LeadsOn(p, n, s1, n1, s2);
    case Entry(k) =>
      var s1, n1 := Reach(p, n, p.input[k]);
      var s2, n2 := BothEnter(p, n1, k, 0, 1);
      steps, n' := s1 + s2, n2;
      LeadsOn(p, n, s1, n1, s2);
    case Collector(k) =>
      var s1, n1 := Reach(p, n, p.input[k]);
      OuterIsDet(p, k);
      var s2, n2 := BothThrough(p, n1, k, 0, 1);
      steps, n' := s1 + s2, n2;
      LeadsOn(p, n, s1, n1, s2);
      KeysStay(n1.det, n2.det);
  }

  lemma {:induction false} OuterIsDet(p: Plan, k: nat)
    requires WellPlanned(p) && k < |p.input|
    ensures !p.isDet[k] ==> p.owner[p.input[k]].Some?
    ensures p.owner[p.output[k]] == p.owner[p.input[k]]
  {
  }

  lemma {:induction false} BothRoute(p: Plan, n: Net, m: nat, l: nat, a: nat, b: nat) returns (steps: seq<Step>, n': Net)
    requires Pair(p, n, m, a, b) && l < |p.source| && p.source[l] == Stream(m) && m < l
    ensures Leads(p, n, steps, n') && (forall i :: 0 <= i < |steps| ==> !steps[i].Overtake?)
    ensures Pair(p, n', l, a, b) && n'.det == n.det
  {
    hide D.Inv, Placed, Homes, Ordered, Entries, Key, WellPlanned;
    var n1 := Put(Taken(n, m, 0), l, [a], Key(n.det, a));
    Goes(p, n, Route(m, l));
    assert Without([a, b], 0) == [b] && Without([b], 0) == [] && [] + [a] == [a] && [a] + [b] == [a, b];
    assert Next(p, n, Route(m, l)) == Some(n1);
    Goes(p, n1, Route(m, l));
    steps, n' := [Route(m, l), Route(m, l)], Put(Taken(n1, m, 0), l, [b], Key(n.det, b));
    TwoSteps(p, n, Route(m, l), n1, Route(m, l));
  }

  lemma {:induction false} Swap(p: Plan, n: Net, l: nat) returns (n': Net)
    requires Pair(p, n, l, 0, 1)
    ensures Leads(p, n, [Overtake(l, 0)], n') && Pair(p, n', l, 1, 0) && n'.det == n.det
  {
    hide D.Inv, Homes, Ordered, Entries, Placed, Key;
    Goes(p, n, Overtake(l, 0));
    assert [0, 1][0 := 1][1 := 0] == [1, 0];
    n' := Next(p, n, Overtake(l, 0)).value;
    OneStep(p, n, Overtake(l, 0));
  }

  /** At an entry that checks numbers, the second of two records in the wrong order fails. */
  lemma {:induction false} SecondFails(p: Plan, n: Net, k: nat)
    requires Flows(p) && k < |p.input| && !p.isDet[k] && Pair(p, n, p.input[k], 1, 0) && Key(n.det, 0) < Key(n.det, 1)
    ensures Feasible(p, n, [Enter(k), Enter(k)]) && Run(p, n, [Enter(k), Enter(k)]) == None
  {
    hide D.Inv, Homes, Ordered, Entries, Placed, Flows, Next, D.Entering, Key;
    var l := p.input[k];
    Apart(p, k);
    PairApart(p, n, l, 1, 0);
    DetParts(n.det);
    Entered1(p, n, k);
    var n1 := Moved(p, n, Enter(k), D.Entering(n.det, k, 1));
    EnteredKeys(n.det, k, 1, 0);
    assert n1.streams[l] == [0] by { WithoutFirst([1, 0]); assert [1, 0][1..] == [0]; }
    LowerFails(p, {}, n1, k);
    assert [Enter(k), Enter(k)][1..] == [Enter(k)];
    assert Feasible(p, n1, [Enter(k)]) && Run(p, n1, [Enter(k)]) == None;
  }

  /** Where the stream is disturbed, two records reach it in the wrong order, or fail before. */
  lemma {:induction false} ReachSwapped(p: Plan, loose: set<nat>, n: Net, l: nat) returns (steps: seq<Step>, fails: bool, n': Net)
    requires Initial(p, n) && Flows(p) && l < |p.source| && Disturbed(p, loose, l) && p.owner[l].Some?
    ensures fails ==> FailsOn(p, n, steps, loose)
    ensures !fails ==> Leads(p, n, steps, n') && OnlyOn(steps, loose) && Pair(p, n', l, 1, 0) && Key(n'.det, 0) < Key(n'.det, 1)
    decreases l
  {
    hide Inv, Alone, Ahead, Next, Enabled, Key, D.Initial, Feasible, Run;
    assert FlowsTo(p, l) && FeederOk(p, l);
    if l in loose {
      var s1, n1 := Reach(p, n, l);
      n' := Swap(p, n1, l);
      steps, fails := s1 + [Overtake(l, 0)], false;
      LeadsOn(p, n, s1, n1, [Overtake(l, 0)]);
    } else {
      match p.source[l]
      case Stream(m) =>
        var s1, f1, n1 := ReachSwapped(p, loose, n, m);
        if f1 { return s1, true, n1; }
        var s2, n2 := BothRoute(p, n1, m, l, 1, 0);
        steps, fails, n' := s1 + s2, false, n2;
        LeadsOn(p, n, s1, n1, s2);
      case Collector(k) =>
        OuterIsDet(p, k);
        var s1, f1, n1 := ReachSwapped(p, loose, n, p.input[k]);
        if f1 { return s1, true, n1; }
        if p.isDet[k] {
          var s2, n2 := BothThrough(p, n1, k, 1, 0);
          steps, fails, n' := s1 + s2, false, n2;
          LeadsOn(p, n, s1, n1, s2);
          KeysStay(n1.det, n2.det);
        } else {
          SecondFails(p, n1, k);
          steps, fails, n' := s1 + [Enter(k), Enter(k)], true, n1;
          LeadsOn(p, n, s1, n1, [Enter(k), Enter(k)]);
        }
    }
  }

  // ---------- the condition on the plan ----------

  /** For every plan, and every set of streams on which records may overtake one another: some
      run fails if and only if some network that is not deterministic itself reads from a
      stream on which, or on the way to which within the network around, records can overtake. */
  lemma {:induction false} PlanFailsExactly(p: Plan, loose: set<nat>, n: Net)
    requires Initial(p, n) && Flows(p)
    ensures (exists steps: seq<Step> :: FailsOn(p, n, steps, loose)) <==> Exposed(p, loose)
  {
    hide Inv, Pair, Next, Enabled, Key, D.Initial, Feasible, Run, Disturbed, Flows;
    if Exposed(p, loose) {
      var k :| 0 <= k < |p.input| && !p.isDet[k] && Disturbed(p, loose, p.input[k]);
      OuterIsDet(p, k);
      var steps, fails, n' := ReachSwapped(p, loose, n, p.input[k]);
      if !fails {
        SecondFails(p, n', k);
        LeadsOn(p, n, steps, n', [Enter(k), Enter(k)]);
        assert FailsOn(p, n, steps + [Enter(k), Enter(k)], loose);
      }
    } else {
      forall steps: seq<Step> | Feasible(p, n, steps) && OnlyOn(steps, loose) ensures Run(p, n, steps).Some? {
        CalmClosed(p, loose);
        OnlyOnLoose(p, loose, n, steps);
        CalmOrder(p, Calm(p, loose), n, steps);
      }
    }
  }

  // ---------- an example ----------

  /** A deterministic network around one that is not. */
  const NEST := Plan([World, Entry(0), Collector(0), Entry(1), Collector(1)],
                     [None, Some(0), None, Some(1), Some(0)], [0, 1], [1, 3], [2, 4], [true, false])

  const START := Net(D.State(map[], 0, [], [D.Gate(true, 0, 0, [], 1, [], 0, true), D.Gate(false, 0, 0, [], 1, [], 0, true)],
                             {}, multiset{}),
                     [[], [], [], [], []], [0, 0, 0, 0, 0])

  lemma {:induction false} NestPlanned()
    ensures WellPlanned(NEST)
  {
  }

  lemma {:induction false} NestFlows()
    ensures Initial(NEST, START) && Flows(NEST)
  {
    hide WellPlanned;
    NestPlanned();
    assert START.det.gates[0].isDet && !START.det.gates[1].isDet;
    assert D.Initial(START.det);
  }

  lemma {:induction false} NestExposed()
    requires Flows(NEST)
    ensures !Exposed(NEST, {0, 2, 3, 4})
  {
    assert !Disturbed(NEST, {0, 2, 3, 4}, 1);
  }

  /** Where a box with several contexts, not declared deterministic, stands in front of a
      network inside a deterministic one, two records that change places there fail the
      assertion. Nowhere else in these networks does it matter if records change places. */
  lemma {:induction false} OvertakingFails()
    ensures Initial(NEST, START) && Flows(NEST)
    ensures FailsOn(NEST, START, [Arrive(0), Arrive(0), Enter(0), Enter(0), Overtake(1, 0), Enter(1), Enter(1)], {1})
    ensures forall steps: seq<Step> :: !FailsOn(NEST, START, steps, {0, 2, 3, 4})
  {
    hide Next, Enabled, Feasible, Run, Inv, Alone, Ahead, Key, Flows, Initial, Fitting, Exposed, START;
    NestFlows();
    var s1, n1 := BothArrive(NEST, START, 0);
    var s2, n2 := BothEnter(NEST, n1, 0, 0, 1);
    LeadsOn(NEST, START, s1, n1, s2);
    var n3 := Swap(NEST, n2, 1);
    LeadsOn(NEST, START, s1 + s2, n2, [Overtake(1, 0)]);
    SecondFails(NEST, n3, 1);
    LeadsOn(NEST, START, s1 + s2 + [Overtake(1, 0)], n3, [Enter(1), Enter(1)]);
    assert s1 + s2 + [Overtake(1, 0)] + [Enter(1), Enter(1)] ==
      [Arrive(0), Arrive(0), Enter(0), Enter(0), Overtake(1, 0), Enter(1), Enter(1)];
    NestExposed();
    PlanFailsExactly(NEST, {0, 2, 3, 4}, START);
  }
}
