/** Waiting for any of several streams: the consumer's poll against its producers, one
    locked section at a time. */
module StreamPoll {
  import opened Options

  /** A stream: its items, its capacity, and whether a poll has registered with it. */
  datatype Stream = Stream(items: seq<int>, size: nat, registered: bool)

  /** Where the consumer is in its poll over the streams `polled`. Clearing counts `left` down from the
      number of registrations. */
  datatype Place =
    | Elsewhere
    | Looking(polled: seq<nat>, at: nat, found: Option<nat>)
    | Resetting(polled: seq<nat>)
    | Registering(polled: seq<nat>, at: nat, count: nat)
    | Waiting(polled: seq<nat>, count: nat)
    | Clearing(polled: seq<nat>, at: nat, left: int, result: nat)

  /** `wakeup` is the stream that is to wake the consumer; `result` what the last poll returned. */
  datatype State = State(streams: seq<Stream>, place: Place, wakeup: Option<nat>, result: Option<nat>)

  datatype Step =
    | Write(stream: nat, item: int)    // a producer writes, and wakes the consumer if registered
    | Read(stream: nat)                // the consumer reads
    | Poll(polled: seq<nat>)              // the consumer starts to poll
    | Advance                          // ... and goes on to its next section

  ghost predicate Enabled(s: State, step: Step) {
    match step
    case Write(k, item) => k < |s.streams| && |s.streams[k].items| < s.streams[k].size
    case Read(k) => s.place.Elsewhere? && k < |s.streams| && s.streams[k].items != []
    case Poll(polled) =>
      && s.place.Elsewhere? && polled != [] && (forall i :: 0 <= i < |polled| ==> polled[i] < |s.streams|)
      && (forall i, j :: 0 <= i < j < |polled| ==> polled[i] != polled[j])
    case Advance => !s.place.Elsewhere? && (s.place.Waiting? ==> s.wakeup.Some?)
  }

  function SetRegistered(streams: seq<Stream>, k: nat, registered: bool): seq<Stream>
    requires k < |streams|
  {
    streams[k := streams[k].(registered := registered)]
  }

  /** The consumer's next section. */
  function Continue(s: State): State
    requires !s.place.Elsewhere? && (s.place.Waiting? ==> s.wakeup.Some?)
    requires forall i :: 0 <= i < |s.place.polled| ==> s.place.polled[i] < |s.streams|
  {
    match s.place
    case Looking(polled, at, found) =>
      if at < |polled| then
        s.(place := Looking(polled, at + 1, if s.streams[polled[at]].items != [] then Some(polled[at]) else found))
      else if found.Some? then s.(place := Elsewhere, result := found)
      else s.(place := Resetting(polled))
    case Resetting(polled) => s.(wakeup := None, place := Registering(polled, 0, 0))
    case Registering(polled, at, count) =>
      if at >= |polled| then s.(place := Waiting(polled, count))
      else if s.streams[polled[at]].items != [] then
        s.(wakeup := if s.wakeup.None? then Some(polled[at]) else s.wakeup, place := Waiting(polled, count))
      else s.(streams := SetRegistered(s.streams, polled[at], true), place := Registering(polled, at + 1, count + 1))
    case Waiting(polled, count) => s.(wakeup := None, place := Clearing(polled, 0, count, s.wakeup.value))
    case Clearing(polled, at, left, result) =>
      if at >= |polled| then s.(place := Elsewhere, result := Some(result))
      else
        var cleared := s.(streams := SetRegistered(s.streams, polled[at], false));
        if left - 1 == 0 then cleared.(place := Elsewhere, result := Some(result))
        else cleared.(place := Clearing(polled, at + 1, left - 1, result))
  }

  ghost function Next(s: State, step: Step): State
    requires Enabled(s, step) && SetOk(s)
  {
    match step
    case Write(k, item) =>
      var x := s.streams[k];
      var written := s.(streams := s.streams[k := x.(items := x.items + [item], registered := false)]);
      if x.registered && s.wakeup.None? then written.(wakeup := Some(k)) else written
    case Read(k) => s.(streams := s.streams[k := s.streams[k].(items := s.streams[k].items[1..])])
    case Poll(polled) => s.(place := Looking(polled, 0, None))
    case Advance => Continue(s)
  }

  // ---------- the invariant ----------

  ghost predicate SetOk(s: State) {
    !s.place.Elsewhere? ==>
      && s.place.polled != [] && (forall i :: 0 <= i < |s.place.polled| ==> s.place.polled[i] < |s.streams|)
      && (forall i, j :: 0 <= i < j < |s.place.polled| ==> s.place.polled[i] != s.place.polled[j])
  }

  ghost predicate Holds(s: State, k: nat) {
    k < |s.streams| && s.streams[k].items != []
  }

  /** Only the streams from position i to position j of the set are registered. */
  ghost predicate OnlyFrom(s: State, polled: seq<nat>, i: int, j: int) {
    forall k :: 0 <= k < |s.streams| && s.streams[k].registered ==> exists p :: i <= p < j && 0 <= p < |polled| && polled[p] == k
  }

  /** A registered stream is empty; without a wakeup all streams before `at` are registered. */
  ghost predicate Covered(s: State, polled: seq<nat>, at: nat) {
    && at <= |polled|
    && (forall k :: 0 <= k < |s.streams| && s.streams[k].registered ==> s.streams[k].items == [])
    && (s.wakeup.None? ==> forall p :: 0 <= p < at ==> polled[p] < |s.streams| && s.streams[polled[p]].registered)
  }

  ghost predicate PlaceOk(s: State) {
    match s.place
    case Elsewhere => OnlyFrom(s, [], 0, 0)
    case Looking(polled, at, found) => OnlyFrom(s, [], 0, 0) && at <= |polled| && (found.Some? ==> Holds(s, found.value) && found.value in polled)
    case Resetting(polled) => OnlyFrom(s, [], 0, 0)
    case Registering(polled, at, count) =>
      && count == at && Covered(s, polled, at) && OnlyFrom(s, polled, 0, at)
      && (s.wakeup.Some? ==> Holds(s, s.wakeup.value) && s.wakeup.value in polled)
    case Waiting(polled, count) =>
      && count <= |polled| && Covered(s, polled, count) && OnlyFrom(s, polled, 0, count)
      && (s.wakeup.None? ==> count == |polled|)
      && (s.wakeup.Some? ==> Holds(s, s.wakeup.value) && s.wakeup.value in polled)
    case Clearing(polled, at, left, result) =>
      && at <= |polled| && Holds(s, result) && result in polled
      && (left > 0 ==> at + left <= |polled| && OnlyFrom(s, polled, at, at + left))
      && (left <= 0 ==> OnlyFrom(s, [], 0, 0))
  }

  ghost predicate Inv(s: State) {
    && SetOk(s) && PlaceOk(s)
    && (forall k :: 0 <= k < |s.streams| ==> |s.streams[k].items| <= s.streams[k].size)
  }

  // ---------- every step keeps the invariant ----------

  lemma {:induction false} WriteKeeps(s: State, k: nat, item: int)
    requires Inv(s) && Enabled(s, Write(k, item))
    ensures Inv(Next(s, Write(k, item)))
  {
    var s' := Next(s, Write(k, item));
    match s.place
    case Registering(polled, at, count) => WriteCovered(s, k, item, polled, at);
    case Waiting(polled, count) => WriteCovered(s, k, item, polled, count);
    case _ =>
  }

  lemma {:induction false} WriteCovered(s: State, k: nat, item: int, polled: seq<nat>, at: nat)
    requires Enabled(s, Write(k, item)) && SetOk(s) && Covered(s, polled, at) && OnlyFrom(s, polled, 0, at)
    requires s.wakeup.Some? ==> Holds(s, s.wakeup.value) && s.wakeup.value in polled
    ensures var s' := Next(s, Write(k, item));
      && Covered(s', polled, at) && OnlyFrom(s', polled, 0, at)
      && (s'.wakeup.Some? ==> Holds(s', s'.wakeup.value) && s'.wakeup.value in polled)
  {
    var s' := Next(s, Write(k, item));
    if s.streams[k].registered {
      var p :| 0 <= p < at && 0 <= p < |polled| && polled[p] == k;
      assert polled[p] in polled;
    }
    forall j | 0 <= j < |s'.streams| && s'.streams[j].registered
      ensures exists p :: 0 <= p < at && 0 <= p < |polled| && polled[p] == j
    {
      assert s.streams[j].registered;
    }
  }

  lemma {:induction false} RegisterKeeps(s: State)
    requires Inv(s) && s.place.Registering?
    ensures Inv(Continue(s))
  {
    var s' := Continue(s);
    var polled, at := s.place.polled, s.place.at;
    if at < |polled| && s.streams[polled[at]].items == [] {
      forall k | 0 <= k < |s'.streams| && s'.streams[k].registered
        ensures exists p :: 0 <= p < at + 1 && 0 <= p < |polled| && polled[p] == k
      {
        if k == polled[at] {
          assert polled[at] == k;
        } else {
          assert s.streams[k].registered;
          var p :| 0 <= p < at && 0 <= p < |polled| && polled[p] == k;
          assert polled[p] == k;
        }
      }
    } else if at < |polled| {
      assert polled[at] in polled;
    }
  }

  lemma {:induction false} ClearKeeps(s: State)
    requires Inv(s) && s.place.Clearing?
    ensures Inv(Continue(s))
  {
    var s' := Continue(s);
    var polled, at, left := s.place.polled, s.place.at, s.place.left;
    if at < |polled| && left > 0 {
      forall k | 0 <= k < |s'.streams| && s'.streams[k].registered
        ensures exists p :: at + 1 <= p < at + left && 0 <= p < |polled| && polled[p] == k
      {
        assert s.streams[k].registered;
        var p :| at <= p < at + left && 0 <= p < |polled| && polled[p] == k;
        assert p != at;
        assert polled[p] == k;
      }
    }
  }

  lemma {:induction false} WaitKeeps(s: State)
    requires Inv(s) && s.place.Waiting? && s.wakeup.Some?
    ensures Inv(Continue(s))
  {
    var s' := Continue(s);
    var polled, count := s.place.polled, s.place.count;
    assert count == 0 ==> OnlyFrom(s', [], 0, 0);
  }

  lemma {:induction false} StepKeepsInv(s: State, step: Step)
    requires Inv(s) && Enabled(s, step)
    ensures Inv(Next(s, step))
  {
    match step
    case Write(k, item) => WriteKeeps(s, k, item);
    case Read(k) =>
    case Poll(polled) =>
    case Advance =>
      match s.place
      case Registering(polled, at, count) => RegisterKeeps(s);
      case Clearing(polled, at, left, result) => ClearKeeps(s);
      case Waiting(polled, count) => WaitKeeps(s);
      case _ =>
  }

  // ---------- whole runs ----------

  ghost predicate Feasible(s: State, steps: seq<Step>)
    requires Inv(s)
    decreases |steps|
  {
    |steps| == 0 || (Enabled(s, steps[0]) && (StepKeepsInv(s, steps[0]); Feasible(Next(s, steps[0]), steps[1..])))
  }

  ghost function Run(s: State, steps: seq<Step>): (s': State)
    requires Inv(s) && Feasible(s, steps)
    ensures Inv(s')
    decreases |steps|
  {
    if |steps| == 0 then s else (StepKeepsInv(s, steps[0]); Run(Next(s, steps[0]), steps[1..]))
  }

  /** Empty streams that nobody polls. */
  ghost predicate Initial(s: State) {
    && s.place.Elsewhere? && s.wakeup.None? && s.result.None?
    && forall k :: 0 <= k < |s.streams| ==> s.streams[k].items == [] && !s.streams[k].registered
  }

  /** Every initial state satisfies the invariant. */
  lemma {:induction false} InitialInv(s: State)
    requires Initial(s)
    ensures Inv(s)
  {
  }

  /** No wakeup is lost: a consumer that waits without one has found every stream of its
      polled empty and is registered with it, so that the next write to any of them wakes it. */
  lemma {:induction false} NoLostWakeup(s: State, steps: seq<Step>, k: nat, item: int)
    requires Inv(s) && Initial(s) && Feasible(s, steps)
    requires Run(s, steps).place.Waiting? && Run(s, steps).wakeup.None? && k in Run(s, steps).place.polled
    ensures var s' := Run(s, steps);
      && k < |s'.streams| && s'.streams[k].items == [] && s'.streams[k].registered
      && (Enabled(s', Write(k, item)) ==> Next(s', Write(k, item)).wakeup == Some(k))
  {
    var s' := Run(s, steps);
    var p :| 0 <= p < |s'.place.polled| && s'.place.polled[p] == k;
    assert s'.streams[s'.place.polled[p]].registered;
  }

  /** Every poll returns a stream of its set that holds an item, across repeated polls and
      wakeups left over from earlier ones. */
  lemma {:induction false} PollReturnsItem(s: State, steps: seq<Step>)
    requires Inv(s) && Initial(s) && Feasible(s, steps)
    requires Enabled(Run(s, steps), Advance) && Next(Run(s, steps), Advance).place.Elsewhere?
    ensures var s' := Next(Run(s, steps), Advance);
      s'.result.Some? && Holds(s', s'.result.value) && s'.result.value in Run(s, steps).place.polled
    ensures OnlyFrom(Next(Run(s, steps), Advance), [], 0, 0)
  {
    StepKeepsInv(Run(s, steps), Advance);
    var now := Run(s, steps);
    assert PlaceOk(now);
  }

  /** What a step writes to a stream. */
  function Wrote(step: Step, k: nat): seq<int> {
    if step.Write? && step.stream == k then [step.item] else []
  }

  /** What a step of the consumer reads from it. */
  ghost function Got(s: State, step: Step, k: nat): seq<int>
    requires Enabled(s, step)
  {
    if step.Read? && step.stream == k then [s.streams[k].items[0]] else []
  }

  function WrittenTo(steps: seq<Step>, k: nat): seq<int> {
    if |steps| == 0 then [] else Wrote(steps[0], k) + WrittenTo(steps[1..], k)
  }

  ghost function ReadFrom(s: State, steps: seq<Step>, k: nat): seq<int>
    requires Inv(s) && Feasible(s, steps)
    decreases |steps|
  {
    if |steps| == 0 then []
    else
      StepKeepsInv(s, steps[0]);
      Got(s, steps[0], k) + ReadFrom(Next(s, steps[0]), steps[1..], k)
  }

  /** Only writes and reads change the items of a stream. */
  lemma {:induction false} StepItems(s: State, step: Step, k: nat)
    requires Inv(s) && Enabled(s, step) && k < |s.streams|
    ensures |Next(s, step).streams| == |s.streams|
    ensures s.streams[k].items + Wrote(step, k) == Got(s, step, k) + Next(s, step).streams[k].items
  {
    hide PlaceOk;
  }

  lemma {:induction false} Regroup(a: seq<int>, w: seq<int>, r: seq<int>, b: seq<int>, w': seq<int>, r': seq<int>, c: seq<int>)
    requires a + w == r + b && b + w' == r' + c
    ensures a + (w + w') == (r + r') + c
  {
    assert a + (w + w') == (a + w) + w' == r + (b + w') == (r + r') + c;
  }

  /** Whatever polls and wakeups do, a stream keeps the order: what the consumer has read from
      it and what it still holds is what was there and what was written, in order. */
  lemma {:induction false} RunIsFifo(s: State, steps: seq<Step>, k: nat)
    requires Inv(s) && Feasible(s, steps) && k < |s.streams|
    ensures |Run(s, steps).streams| == |s.streams|
    ensures s.streams[k].items + WrittenTo(steps, k) == ReadFrom(s, steps, k) + Run(s, steps).streams[k].items
    decreases |steps|
  {
    hide PlaceOk, Next, Enabled, Wrote, Got;
    if |steps| > 0 {
      StepKeepsInv(s, steps[0]);
      StepItems(s, steps[0], k);
      var s' := Next(s, steps[0]);
      RunIsFifo(s', steps[1..], k);
      Regroup(s.streams[k].items, Wrote(steps[0], k), Got(s, steps[0], k), s'.streams[k].items,
              WrittenTo(steps[1..], k), ReadFrom(s', steps[1..], k), Run(s, steps).streams[k].items);
    }
  }

  // ---------- a poll comes to its end ----------

  /** Some polled stream holds an item. */
  ghost predicate Ready(s: State) {
    !s.place.Elsewhere? && exists i :: 0 <= i < |s.place.polled| && Holds(s, s.place.polled[i])
  }

  /** After n sections of its own, each of which may run, the consumer's poll has returned. */
  ghost predicate Returns(s: State, n: nat)
    requires Inv(s)
    decreases n
  {
    if n == 0 then s.place.Elsewhere?
    else Enabled(s, Advance) && (StepKeepsInv(s, Advance); Returns(Next(s, Advance), n - 1))
  }

  /** How far a poll has come, and what is left of its present part. */
  function Stage(place: Place): nat {
    match place
    case Looking(_, _, _) => 5
    case Resetting(_) => 4
    case Registering(_, _, _) => 3
    case Waiting(_, _) => 2
    case Clearing(_, _, _, _) => 1
    case Elsewhere => 0
  }

  function Ahead(place: Place): int {
    match place
    case Looking(polled, at, _) => |polled| - at
    case Registering(polled, at, _) => |polled| - at
    case Clearing(polled, at, _, _) => |polled| - at
    case _ => 0
  }

  /** A section gets the poll on: it may run, because a consumer without a wakeup has found all
      streams empty, and it changes no items. */
  lemma {:induction false} GetsOn(s: State)
    requires Inv(s) && Ready(s)
    ensures Enabled(s, Advance)
    ensures var s' := Next(s, Advance);
      s'.place.Elsewhere? || (Ready(s') && (Stage(s'.place) < Stage(s.place) || (Stage(s'.place) == Stage(s.place) && Ahead(s'.place) < Ahead(s.place))))
  {
    MayAdvance(s);
    var i :| 0 <= i < |s.place.polled| && Holds(s, s.place.polled[i]);
    var s' := Next(s, Advance);
    StepItems(s, Advance, s.place.polled[i]);
    assert s'.place.Elsewhere? || Holds(s', s'.place.polled[i]);
  }

  lemma {:induction false} MayAdvance(s: State)
    requires Inv(s) && Ready(s)
    ensures Enabled(s, Advance)
    ensures Ahead(s.place) >= 0
  {
  }

  /** No poll hangs while one of its streams holds an item: whatever producers and earlier polls
      have done, the consumer's own sections bring it to its end. */
  lemma {:induction false} PollEnds(s: State)
    requires Inv(s) && Ready(s)
    ensures exists n: nat :: Returns(s, n)
    decreases Stage(s.place), Ahead(s.place)
  {
    hide PlaceOk, Ready, Enabled, Next;
    MayAdvance(s);
    GetsOn(s);
    StepKeepsInv(s, Advance);
    var s' := Next(s, Advance);
    if s'.place.Elsewhere? {
      assert Returns(s', 0);
      assert Returns(s, 1);
    } else {
      MayAdvance(s');
      PollEnds(s');
      var n: nat :| Returns(s', n);
      assert Returns(s, n + 1);
    }
  }
}
