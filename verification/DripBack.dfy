/** The deterministic feedback loop: an access landing that queues records from outside,
    and a control landing that lets one of them into the loop at a time. */
module DripBack {
  import opened Options
  import opened OuterDetrefs

  /** What comes from outside, numbered by arrival: a data record, which may match the
      feedback pattern, or an announcement of an outer network that passes through.
      `outer` is what is on the record's stack already: detrefs of outer networks. */
  datatype Item = Data(id: nat, back: bool, outer: set<nat>) | OuterNotice(id: nat)

  /** A data record in the loop: the outside record it stems from, and the outer detrefs
      below the one of this loop on its stack. */
  datatype LoopRec = LoopRec(origin: nat, back: bool, outer: set<nat>)

  datatype Control = Wakeup | Terminate

  datatype Phase = Idle | Busy

  datatype Ending = Initial | Draining | Terminated

  /** The detref of the outside record whose descendants are in the loop. */
  datatype Det = Det(id: nat, refcount: int)

  datatype State = State(
    // the access landing
    arrived: nat, uncounted: bool, unwoken: bool, connected: bool, closed: bool,
    // shared
    recfifo: seq<Item>, queued: nat, control: seq<Control>,
    // the control landing
    phase: Phase, ending: Ending, detfifo: seq<Det>, current: nat, out: seq<nat>,
    // the loop: data records, the last holder about to announce itself, announcements
    loop: seq<LoopRec>, closing: bool, notices: nat,
    // outer networks: their detrefs' counters, and announcements of theirs inside the loop
    counts: map<nat, nat>, foreign: set<nat>)

  datatype Step =
    | Put(back: bool, outer: set<nat>) // the access landing queues a record from outside
    | PutNotice                        // ... or an announcement
    | Count                            // ... then counts it
    | Wake                             // ... and wakes the control landing if the count was zero
    | Close                            // the access landing terminates
    | TakeControl                      // the control landing handles a wakeup or the termination
    | Return(rec: nat)                 // ... a data record from the loop
    | TakeNotice                       // ... an announcement from the loop
    | TakeForeign(det: nat)            // ... an outer network's announcement from the loop
    | Change(rec: nat, back: bool)     // in the loop: a record is transformed
    | Spawn(rec: nat)                  // ... a record is created in the context of another
    | Lose(rec: nat)                   // ... a record is destroyed
    | Announce                         // ... and if it was the last holder, this is announced
    | OuterNew(det: nat)               // elsewhere: a record gets a detref of an outer network
    | OuterCopy(det: nat)              // ... is copied
    | OuterDrop(det: nat)              // ... or gives it up

  // ---------- the control landing ----------

  /** Pop detrefs that are no longer in use. */
  function CheckBusy(detfifo: seq<Det>): seq<Det> {
    if detfifo != [] && detfifo[0].refcount <= 0 then CheckBusy(detfifo[1..]) else detfifo
  }

  /** Handle a record from outside. None if another detref is still there. */
  function Admit(s: State, item: Item): (o: Option<State>)
    ensures o.Some? ==> o.value.recfifo == s.recfifo && o.value.phase == s.phase && o.value.queued == s.queued
  {
    match item
    case Data(id, back, outer) =>
      if !back then Some(s.(out := s.out + [id]))
      else if s.detfifo != [] then None
      else Some(s.(detfifo := [Det(id, 2)], loop := s.loop + [LoopRec(id, back, outer)]))
    case OuterNotice(id) => Some(s.(out := s.out + [id]))
  }

  /** Take the next queued record. None if the queue is empty. */
  function TakeNext(s: State): (o: Option<State>)
    ensures o.Some? ==> |s.recfifo| > 0 && o.value.recfifo == s.recfifo[1..]
    ensures o.Some? ==> o.value.phase == s.phase && o.value.queued == s.queued
  {
    if s.recfifo == [] then None
    else Admit(s.(recfifo := s.recfifo[1..], current := s.recfifo[0].id), s.recfifo[0])
  }

  /** Go on with queued records while the loop is not busy. */
  function Proceed(s: State): Option<State>
    decreases |s.recfifo|
  {
    if s.phase.Busy? then
      var checked := s.(detfifo := CheckBusy(s.detfifo));
      if checked.detfifo != [] then Some(checked)
      else if checked.queued == 0 then None
      else
        var counted := checked.(queued := checked.queued - 1);
        if counted.queued == 0 then Some(counted.(phase := Idle))
        else match TakeNext(counted)
          case None => None
          case Some(next) => Proceed(next)
    else if s.detfifo != [] then None
    else if s.queued == 0 then Some(s)
    else match TakeNext(s)
      case None => None
      case Some(next) => Proceed(next.(phase := Busy))
  }

  /** The loop has drained once it is idle. None if something is still queued. */
  function Finish(s: State): Option<State> {
    if s.ending.Draining? && s.phase.Idle? then
      if s.queued == 0 && s.detfifo == [] then Some(s.(ending := Terminated)) else None
    else Some(s)
  }

  function Handled(s: State): Option<State> {
    match Proceed(s)
    case None => None
    case Some(s') => Finish(s')
  }

  /** A record leaves the loop: it gives up its detref. None if it is not counted there. */
  function Leave(s: State): Option<State> {
    if s.detfifo == [] || s.detfifo[0].refcount < 2 then None
    else
      var n := s.detfifo[0].refcount - 1;
      Some(s.(detfifo := CheckBusy([s.detfifo[0].(refcount := if n == 1 then 0 else n)] + s.detfifo[1..])))
  }

  // ---------- detrefs of outer networks ----------

  /** The stacks of the records in the loop. */
  function Stacks(loop: seq<LoopRec>): seq<set<nat>> { seq(|loop|, i requires 0 <= i < |loop| => loop[i].outer) }

  /** The records in the loop that hold an outer detref. */
  function InLoop(loop: seq<LoopRec>, d: nat): nat { Holding(Stacks(loop), d) }

  predicate ItemHolds(item: Item, d: nat) { item.Data? && d in item.outer }

  /** The queued records that hold an outer detref. */
  function InQueue(recfifo: seq<Item>, d: nat): nat {
    if |recfifo| == 0 then 0 else One(ItemHolds(recfifo[0], d)) + InQueue(recfifo[1..], d)
  }

  function Here(s: State, d: nat): nat { InLoop(s.loop, d) + InQueue(s.recfifo, d) }

  /** The records outside this network that hold an outer detref: the counter is one more
      than the number of all holders. */
  function Elsewhere(s: State, d: nat): int { CountOf(s.counts, d) - 1 - Here(s, d) }

  predicate Enabled(s: State, step: Step) {
    match step
    case Put(back, outer) => !s.closed && !s.uncounted && !s.unwoken && forall d :: d in outer ==> Elsewhere(s, d) >= 1
    case PutNotice => !s.closed && !s.uncounted && !s.unwoken
    case Count => s.uncounted
    case Wake => s.unwoken
    case Close => !s.closed && !s.uncounted && !s.unwoken
    case TakeControl => s.control != []
    case Return(r) => r < |s.loop|
    case TakeNotice => s.notices > 0
    case TakeForeign(d) => d in s.foreign
    case Change(r, back) => r < |s.loop|
    case Spawn(r) => r < |s.loop|
    case Lose(r) => r < |s.loop|
    case Announce => s.closing
    case OuterNew(d) => d !in s.counts
    case OuterCopy(d) => Elsewhere(s, d) >= 1
    case OuterDrop(d) => Elsewhere(s, d) >= 1
  }

  /** One step; None where an assertion of the code fails. */
  function Next(s: State, step: Step): Option<State>
    requires Enabled(s, step)
  {
    match step
    case Put(back, outer) => Some(s.(recfifo := s.recfifo + [Data(s.arrived, back, outer)], arrived := s.arrived + 1, uncounted := true))
    case PutNotice => Some(s.(recfifo := s.recfifo + [OuterNotice(s.arrived)], arrived := s.arrived + 1, uncounted := true))
    case Count => Some(s.(uncounted := false, queued := s.queued + 1, unwoken := s.queued == 0))
    case Wake => Some(s.(unwoken := false, connected := true, control := s.control + [Wakeup]))
    case Close => Some(s.(closed := true, control := if s.connected then s.control + [Terminate] else s.control))
    case TakeControl =>
      var rest := s.(control := s.control[1..]);
      if s.control[0].Wakeup? then Handled(rest)
      else if !s.ending.Initial? then None
      else Handled(rest.(ending := Draining))
    case Return(r) =>
      var rec := s.loop[r];
      if rec.back then Handled(s)
      else (match Leave(s.(loop := Without(s.loop, r), out := s.out + [rec.origin]))
            case None => None
            case Some(left) => Handled(left))
    case TakeNotice => Handled(s.(notices := s.notices - 1, detfifo := CheckBusy(s.detfifo)))
    case TakeForeign(d) => None
    case Change(r, back) => Some(s.(loop := s.loop[r := s.loop[r].(back := back)]))
    case Spawn(r) =>
      if s.detfifo == [] || s.detfifo[0].refcount < 2 then None
      else Some(s.(loop := s.loop + [s.loop[r]], detfifo := s.detfifo[0 := s.detfifo[0].(refcount := s.detfifo[0].refcount + 1)],
                   counts := Copied(s.counts, s.loop[r].outer)))
    case Lose(r) =>
      if s.detfifo == [] || s.detfifo[0].refcount < 2 || !InUse(s.counts, s.loop[r].outer) then None
      else
        var n := s.detfifo[0].refcount - 1;
        Some(s.(loop := Without(s.loop, r), detfifo := s.detfifo[0 := s.detfifo[0].(refcount := n)], closing := n == 1,
                counts := Dropped(s.counts, s.loop[r].outer), foreign := s.foreign + LastOf(s.counts, s.loop[r].outer)))
    case Announce =>
      if s.detfifo == [] || s.detfifo[0].refcount != 1 then None
      else Some(s.(detfifo := s.detfifo[0 := s.detfifo[0].(refcount := 0)], closing := false, notices := s.notices + 1))
    case OuterNew(d) => Some(s.(counts := s.counts[d := 2]))
    case OuterCopy(d) => Some(s.(counts := Copied(s.counts, {d})))
    case OuterDrop(d) => Some(s.(counts := Dropped(s.counts, {d})))
  }

  // ---------- the invariant ----------

  /** The count is the queue plus the record in work, up to a record just put. */
  ghost predicate QueueOk(s: State) {
    && |s.recfifo| + One(s.phase.Busy?) == s.queued + One(s.uncounted)
    && (s.phase.Busy? ==> s.queued > 0)
    && (s.uncounted ==> !s.unwoken)
  }

  /** Queued work has a busy loop or a wakeup under way. */
  ghost predicate Awake(s: State) {
    s.queued > 0 && s.phase.Idle? ==> s.unwoken || Wakeup in s.control
  }

  /** The detref counts the records in the loop, all of which stem from the current one. */
  ghost predicate Counted(s: State) {
    && |s.detfifo| == 1
    && s.detfifo[0].refcount == (if |s.loop| > 0 then |s.loop| + 1 else if s.closing then 1 else 0)
    && (s.closing ==> s.loop == [])
    && (forall i :: 0 <= i < |s.loop| ==> s.loop[i].origin == s.current)
  }

  ghost predicate Empty(s: State) {
    s.detfifo == [] && s.loop == [] && !s.closing
  }

  /** An idle loop is empty; a busy one holds the descendants of one outside record, or
      an announcement is under way that it does so no longer. */
  ghost predicate LoopOk(s: State) {
    match s.phase
    case Idle => Empty(s)
    case Busy => Counted(s) && (s.detfifo[0].refcount == 0 ==> s.notices > 0)
  }

  /** Outside records are taken in the order of arrival, and what is put out follows it. */
  ghost predicate Ordered(arrived: nat, recfifo: seq<Item>, current: nat, busy: bool, out: seq<nat>) {
    && |recfifo| <= arrived
    && (forall i :: 0 <= i < |recfifo| ==> recfifo[i].id == arrived - |recfifo| + i)
    && (arrived > |recfifo| ==> current == arrived - |recfifo| - 1)
    && (busy ==> arrived > |recfifo|)
    && (forall i :: 0 <= i < |out| ==> out[i] < arrived - |recfifo|)
    && (forall i, j :: 0 <= i < j < |out| ==> out[i] <= out[j])
  }

  ghost predicate OrderOk(s: State) {
    Ordered(s.arrived, s.recfifo, s.current, s.phase.Busy?, s.out)
  }

  /** The termination comes last, once, and is over when the loop is idle. */
  ghost predicate EndingOk(s: State) {
    && (forall i :: 0 <= i < |s.control| && s.control[i].Terminate? ==> i == |s.control| - 1)
    && (Terminate in s.control ==> s.closed && s.ending.Initial?)
    && (!s.ending.Initial? ==> s.closed && s.control == [])
    && (s.closed ==> !s.uncounted && !s.unwoken)
    && (s.closed && s.connected && s.ending.Initial? ==> Terminate in s.control)
    && (s.queued > 0 ==> s.connected || s.unwoken)
  }

  ghost predicate EndingDone(s: State) {
    && (s.ending.Draining? ==> s.phase.Busy?)
    && (s.ending.Terminated? ==> s.phase.Idle? && s.queued == 0)
  }

  ghost predicate Core(s: State) {
    QueueOk(s) && Awake(s) && LoopOk(s) && OrderOk(s) && EndingOk(s) && EndingDone(s)
  }

  /** An outer detref that is held here is counted for every holder; one that has been
      announced inside the loop is gone. */
  ghost predicate OuterOk(s: State) {
    && (forall d :: Here(s, d) > 0 ==> CountOf(s.counts, d) >= Here(s, d) + 1)
    && (forall d :: d in s.foreign ==> d in s.counts && s.counts[d] == 0)
  }

  ghost predicate Inv(s: State) { Core(s) && OuterOk(s) }

  // ---------- every step keeps the invariant ----------

  /** What Proceed leaves alone. */
  ghost predicate SameElse(s: State, s': State) {
    && s'.arrived == s.arrived && s'.uncounted == s.uncounted && s'.unwoken == s.unwoken
    && s'.connected == s.connected && s'.closed == s.closed && s'.control == s.control
    && s'.ending == s.ending && s'.closing == s.closing && s'.notices == s.notices
    && s'.counts == s.counts && s'.foreign == s.foreign
  }

  lemma {:induction false} CheckBusyOne(d: Det)
    ensures CheckBusy([d]) == (if d.refcount <= 0 then [] else [d])
    ensures CheckBusy([]) == []
  {
    assert [d][1..] == [];
  }

  lemma {:induction false} AdmitOrder(s: State)
    requires |s.recfifo| > 0 && OrderOk(s)
    ensures TakeNext(s).Some? ==> OrderOk(TakeNext(s).value.(phase := Busy))
  {
    hide Ordered;
    OrderedNext(s.arrived, s.recfifo, s.current, s.phase.Busy?, s.out);
  }

  lemma {:induction false} OrderedNext(arrived: nat, recfifo: seq<Item>, current: nat, busy: bool, out: seq<nat>)
    requires |recfifo| > 0 && Ordered(arrived, recfifo, current, busy, out)
    ensures Ordered(arrived, recfifo[1..], recfifo[0].id, true, out)
    ensures Ordered(arrived, recfifo[1..], recfifo[0].id, true, out + [recfifo[0].id])
  {
  }

  lemma {:induction false} AdmitLoop(s: State)
    requires |s.recfifo| > 0 && Empty(s)
    ensures TakeNext(s).Some?
    ensures var s' := TakeNext(s).value.(phase := Busy);
      && (Empty(s') || Counted(s')) && SameElse(s, s') && s'.queued == s.queued && |s'.recfifo| + 1 == |s.recfifo|
  {
  }

  lemma {:induction false} OrderSame(s: State, s': State)
    requires OrderOk(s) && s'.recfifo == s.recfifo && s'.arrived == s.arrived && s'.current == s.current && s'.out == s.out
    requires s'.phase == s.phase || s'.phase.Idle?
    ensures OrderOk(s')
  {
  }

  /** A state in which Proceed may go on. */
  ghost predicate Going(s: State) {
    && QueueOk(s) && OrderOk(s)
    && (s.phase.Idle? ==> Empty(s))
    && (s.phase.Busy? ==> Empty(s) || Counted(s))
  }

  ghost predicate AtRest(s: State) {
    && QueueOk(s) && OrderOk(s)
    && (s.phase.Idle? ==> Empty(s) && s.queued == 0)
    && (s.phase.Busy? ==> Counted(s) && s.detfifo[0].refcount > 0)
  }

  /** Popping spent detrefs leaves one that is in use, or an empty loop. */
  lemma {:induction false} CheckedLoop(s: State)
    requires s.phase.Busy? && (Empty(s) || Counted(s))
    ensures var c := s.(detfifo := CheckBusy(s.detfifo));
      if c.detfifo != [] then Counted(c) && c.detfifo[0].refcount > 0 else Empty(c)
  {
    if s.detfifo != [] {
      assert s.detfifo == [s.detfifo[0]];
      CheckBusyOne(s.detfifo[0]);
    }
  }

  lemma {:induction false} ProceedKeeps(s: State)
    requires Going(s)
    ensures Proceed(s).Some? && AtRest(Proceed(s).value) && SameElse(s, Proceed(s).value)
    decreases |s.recfifo|, 1
  {
    hide OrderOk, Counted, CheckBusy, Admit, TakeNext;
    if s.phase.Busy? {
      CheckedLoop(s);
      var checked := s.(detfifo := CheckBusy(s.detfifo));
      OrderSame(s, checked);
      if checked.detfifo == [] {
        var counted := checked.(queued := checked.queued - 1);
        if counted.queued == 0 {
          BecomesIdle(checked);
        } else {
          ProceedFrom(checked, counted);
        }
      }
    } else if s.queued > 0 {
      ProceedFrom(s, s);
    }
  }

  lemma {:induction false} BecomesIdle(s: State)
    requires Going(s) && s.phase.Busy? && s.queued == 1 && Empty(s)
    ensures AtRest(s.(queued := 0, phase := Idle))
  {
    hide Counted;
  }

  /** The next queued record is admitted, and Proceed goes on. */
  lemma {:induction false} ProceedFrom(s: State, counted: State)
    requires Going(s) && Empty(s) && counted.queued > 0
    requires counted == (if s.phase.Busy? then s.(queued := counted.queued) else s)
    requires s.phase.Busy? ==> counted.queued == s.queued - 1
    ensures TakeNext(counted).Some? && |TakeNext(counted).value.recfifo| < |s.recfifo|
    ensures var next := TakeNext(counted).value.(phase := Busy);
      Proceed(next).Some? && AtRest(Proceed(next).value) && SameElse(s, Proceed(next).value)
    decreases |s.recfifo|, 0
  {
    hide OrderOk, Counted, CheckBusy, Admit, TakeNext, Proceed;
    OrderSame(s, counted);
    AdmitOrder(counted);
    AdmitLoop(counted);
    ProceedKeeps(TakeNext(counted).value.(phase := Busy));
  }

  /** The control landing after a message: it goes on with the queue, and ends if it may. */
  lemma {:induction false} HandledKeeps(s: State)
    requires Going(s) && EndingOk(s) && (s.ending.Terminated? ==> s.phase.Idle? && s.queued == 0)
    ensures Handled(s).Some? && Core(Handled(s).value)
  {
    hide OrderOk, Counted, Proceed;
    ProceedKeeps(s);
    var mid := Proceed(s).value;
    QueuedStill(s, mid);
    if mid.ending.Draining? && mid.phase.Idle? {
      OrderSame(mid, mid.(ending := Terminated));
    }
  }

  /** Going on does not add to the queue. */
  lemma {:induction false} QueuedStill(s: State, s': State)
    requires Going(s) && Proceed(s) == Some(s')
    ensures s'.queued <= s.queued
    ensures s.phase.Idle? && s.queued == 0 ==> s' == s
    decreases |s.recfifo|
  {
    hide OrderOk, Counted, QueueOk, Empty, CheckBusy, Admit, Going;
    QueuedLess(s, s');
  }

  lemma {:induction false} QueuedLess(s: State, s': State)
    requires Proceed(s) == Some(s')
    ensures s'.queued <= s.queued
    ensures s.phase.Idle? && s.queued == 0 ==> s' == s
    decreases |s.recfifo|
  {
    hide CheckBusy, Admit;
    if s.phase.Busy? {
      var checked := s.(detfifo := CheckBusy(s.detfifo));
      if checked.detfifo == [] && checked.queued > 1 {
        QueuedLess(TakeNext(checked.(queued := checked.queued - 1)).value, s');
      }
    } else if s.queued > 0 {
      QueuedLess(TakeNext(s).value.(phase := Busy), s');
    }
  }

  lemma {:induction false} PutKeeps(s: State, step: Step)
    requires Core(s) && Enabled(s, step) && (step.Put? || step.PutNotice?)
    ensures Next(s, step).Some? && Core(Next(s, step).value)
  {
    hide Ordered;
    OrderedPut(s.arrived, s.recfifo, s.current, s.phase.Busy?, s.out,
               if step.Put? then Data(s.arrived, step.back, step.outer) else OuterNotice(s.arrived));
  }

  lemma {:induction false} AccessKeeps(s: State, step: Step)
    requires Core(s) && Enabled(s, step)
    requires step.Count? || step.Wake? || step.Close?
    ensures Next(s, step).Some? && Core(Next(s, step).value)
  {
    hide Ordered;
    var s' := Next(s, step).value;
    if step.Wake? {
      assert s'.control[|s.control|] == Wakeup;
    } else {
      assert Wakeup in s.control ==> Wakeup in s'.control;
    }
  }

  lemma {:induction false} OrderedPut(arrived: nat, recfifo: seq<Item>, current: nat, busy: bool, out: seq<nat>, item: Item)
    requires item.id == arrived && Ordered(arrived, recfifo, current, busy, out)
    ensures Ordered(arrived + 1, recfifo + [item], current, busy, out)
  {
  }

  lemma {:induction false} TakeControlKeeps(s: State)
    requires Core(s) && s.control != []
    ensures Next(s, TakeControl).Some? && Core(Next(s, TakeControl).value)
  {
    hide Ordered, Handled;
    var rest := s.(control := s.control[1..]);
    if s.control[0].Wakeup? {
      HandledKeeps(rest);
    } else {
      HandledKeeps(rest.(ending := Draining));
    }
  }

  lemma {:induction false} ReturnKeeps(s: State, r: nat)
    requires Core(s) && r < |s.loop|
    ensures Next(s, Return(r)).Some? && Core(Next(s, Return(r)).value)
  {
    hide Handled, Ordered;
    if s.loop[r].back {
      HandledKeeps(s);
    } else {
      var rest := s.(loop := Without(s.loop, r), out := s.out + [s.loop[r].origin]);
      OrderedOut(s.arrived, s.recfifo, s.current, s.phase.Busy?, s.out);
      var n := s.detfifo[0].refcount - 1;
      CheckBusyOne(s.detfifo[0].(refcount := if n == 1 then 0 else n));
      var left := Leave(rest).value;
      HandledKeeps(left);
    }
  }

  lemma {:induction false} OrderedOut(arrived: nat, recfifo: seq<Item>, current: nat, busy: bool, out: seq<nat>)
    requires busy && Ordered(arrived, recfifo, current, busy, out)
    ensures Ordered(arrived, recfifo, current, busy, out + [current])
  {
  }

  lemma {:induction false} TakeNoticeKeeps(s: State)
    requires Core(s) && s.notices > 0
    ensures Next(s, TakeNotice).Some? && Core(Next(s, TakeNotice).value)
  {
    hide Handled, Ordered;
    if s.phase.Busy? {
      CheckedLoop(s);
    } else {
      CheckBusyOne(Det(0, 0));
    }
    HandledKeeps(s.(notices := s.notices - 1, detfifo := CheckBusy(s.detfifo)));
  }

  lemma {:induction false} LoopKeeps(s: State, step: Step)
    requires Core(s) && Enabled(s, step)
    requires step.Change? || step.Spawn? || step.Lose? || step.Announce? || step.OuterNew? || step.OuterCopy? || step.OuterDrop?
    requires step.Lose? ==> InUse(s.counts, s.loop[step.rec].outer)
    ensures Next(s, step).Some? && Core(Next(s, step).value)
  {
    hide Core, Next, Enabled, InUse;
    match step
    case Change(r, back) => ChangeKeeps(s, r, back);
    case Spawn(r) => SpawnKeeps(s, r);
    case Lose(r) => LoseKeeps(s, r);
    case Announce => AnnounceKeeps(s);
    case _ => ElsewhereKeeps(s, step);
  }

  lemma {:induction false} ChangeKeeps(s: State, r: nat, back: bool)
    requires Core(s) && Enabled(s, Change(r, back))
    ensures Next(s, Change(r, back)).Some? && Core(Next(s, Change(r, back)).value)
  {
    hide Ordered;
  }

  lemma {:induction false} SpawnKeeps(s: State, r: nat)
    requires Core(s) && Enabled(s, Spawn(r))
    ensures Next(s, Spawn(r)).Some? && Core(Next(s, Spawn(r)).value)
  {
    hide Ordered, Copied;
  }

  lemma {:induction false} LoseKeeps(s: State, r: nat)
    requires Core(s) && Enabled(s, Lose(r)) && InUse(s.counts, s.loop[r].outer)
    ensures Next(s, Lose(r)).Some? && Core(Next(s, Lose(r)).value)
  {
    hide Ordered, Dropped, LastOf, InUse;
  }

  lemma {:induction false} AnnounceKeeps(s: State)
    requires Core(s) && Enabled(s, Announce)
    ensures Next(s, Announce).Some? && Core(Next(s, Announce).value)
  {
    hide Ordered;
  }

  lemma {:induction false} ElsewhereKeeps(s: State, step: Step)
    requires Core(s) && Enabled(s, step) && (step.OuterNew? || step.OuterCopy? || step.OuterDrop?)
    ensures Next(s, step).Some? && Core(Next(s, step).value)
  {
    hide Ordered, Copied, Dropped, Here;
  }

  // ---------- holders of outer detrefs ----------

  lemma {:induction false} InLoopAppend(loop: seq<LoopRec>, rec: LoopRec, d: nat)
    ensures InLoop(loop + [rec], d) == InLoop(loop, d) + One(d in rec.outer)
  {
    assert Stacks(loop + [rec]) == Stacks(loop) + [rec.outer];
    HoldingAppend(Stacks(loop), rec.outer, d);
  }

  lemma {:induction false} InLoopWithout(loop: seq<LoopRec>, r: nat, d: nat)
    requires r < |loop|
    ensures InLoop(Without(loop, r), d) == InLoop(loop, d) - One(d in loop[r].outer)
  {
    assert Stacks(Without(loop, r)) == Without(Stacks(loop), r);
    HoldingWithout(Stacks(loop), r, d);
  }

  lemma {:induction false} InLoopHas(loop: seq<LoopRec>, r: nat, d: nat)
    requires r < |loop| && d in loop[r].outer
    ensures InLoop(loop, d) >= 1
  {
    HoldingHas(Stacks(loop), r, d);
  }

  lemma {:induction false} InLoopChange(loop: seq<LoopRec>, r: nat, back: bool, d: nat)
    requires r < |loop|
    ensures InLoop(loop[r := loop[r].(back := back)], d) == InLoop(loop, d)
  {
    assert Stacks(loop[r := loop[r].(back := back)]) == Stacks(loop);
  }

  lemma {:induction false} InQueueAppend(recfifo: seq<Item>, item: Item, d: nat)
    ensures InQueue(recfifo + [item], d) == InQueue(recfifo, d) + One(ItemHolds(item, d))
  {
    if recfifo == [] {
      assert [] + [item] == [item] && [item][1..] == [];
    } else {
      assert (recfifo + [item])[1..] == recfifo[1..] + [item];
      InQueueAppend(recfifo[1..], item, d);
    }
  }

  /** Taking a queued record brings it into the loop, or out: no one new holds anything. */
  lemma {:induction false} TakeNextHolds(s: State, d: nat)
    requires TakeNext(s).Some?
    ensures Here(TakeNext(s).value, d) <= Here(s, d)
    ensures TakeNext(s).value.counts == s.counts && TakeNext(s).value.foreign == s.foreign
  {
    var item := s.recfifo[0];
    if item.Data? { InLoopAppend(s.loop, LoopRec(item.id, item.back, item.outer), d); }
  }

  lemma {:induction false} ProceedHolds(s: State, s': State, d: nat)
    requires Proceed(s) == Some(s')
    ensures Here(s', d) <= Here(s, d) && s'.counts == s.counts && s'.foreign == s.foreign
    decreases |s.recfifo|
  {
    hide CheckBusy, TakeNext, InLoop, InQueue;
    if s.phase.Busy? {
      var checked := s.(detfifo := CheckBusy(s.detfifo));
      if checked.detfifo == [] && checked.queued > 1 {
        var counted := checked.(queued := checked.queued - 1);
        TakeNextHolds(counted, d);
        ProceedHolds(TakeNext(counted).value, s', d);
      }
    } else if s.queued > 0 {
      TakeNextHolds(s, d);
      ProceedHolds(TakeNext(s).value.(phase := Busy), s', d);
    }
  }

  lemma {:induction false} HandledHolds(s: State, d: nat)
    requires Handled(s).Some?
    ensures Here(Handled(s).value, d) <= Here(s, d)
    ensures Handled(s).value.counts == s.counts && Handled(s).value.foreign == s.foreign
  {
    hide Proceed, InLoop, InQueue;
    ProceedHolds(s, Proceed(s).value, d);
  }

  /** Announcements of outer detrefs come up exactly where a last holder is destroyed. */
  function Announced(s: State, step: Step): set<nat>
    requires Enabled(s, step)
  {
    if step.Lose? then LastOf(s.counts, s.loop[step.rec].outer) else {}
  }

  /** Who holds an outer detref after a step of the landings: no one new. */
  lemma {:induction false} HandlingHolds(s: State, step: Step, d: nat)
    requires Enabled(s, step) && Next(s, step).Some?
    requires step.TakeControl? || step.Return? || step.TakeNotice?
    ensures var s' := Next(s, step).value; Here(s', d) <= Here(s, d) && s'.counts == s.counts && s'.foreign == s.foreign
  {
    hide Handled, InLoop, InQueue, CheckBusy;
    match step
    case TakeControl =>
      var rest := s.(control := s.control[1..]);
      HandledHolds(if s.control[0].Wakeup? then rest else rest.(ending := Draining), d);
    case Return(r) =>
      if s.loop[r].back {
        HandledHolds(s, d);
      } else {
        InLoopWithout(s.loop, r, d);
        HandledHolds(Leave(s.(loop := Without(s.loop, r), out := s.out + [s.loop[r].origin])).value, d);
      }
    case TakeNotice => HandledHolds(s.(notices := s.notices - 1, detfifo := CheckBusy(s.detfifo)), d);
  }

  lemma {:induction false} OuterKeeps(s: State, step: Step)
    requires OuterOk(s) && Enabled(s, step) && Next(s, step).Some?
    ensures OuterOk(Next(s, step).value) && Next(s, step).value.foreign == s.foreign + Announced(s, step)
  {
    hide OuterOk, Next, Enabled;
    if step.TakeControl? || step.Return? || step.TakeNotice? {
      OuterHandled(s, step);
    } else {
      OuterMoves(s, step);
    }
  }

  lemma {:induction false} OuterHandled(s: State, step: Step)
    requires OuterOk(s) && Enabled(s, step) && Next(s, step).Some?
    requires step.TakeControl? || step.Return? || step.TakeNotice?
    ensures OuterOk(Next(s, step).value) && Next(s, step).value.foreign == s.foreign + Announced(s, step)
  {
    hide Next, Here;
    var s' := Next(s, step).value;
    HandlingHolds(s, step, 0);
    forall d: nat | Here(s', d) > 0 ensures CountOf(s'.counts, d) >= Here(s', d) + 1 { HandlingHolds(s, step, d); }
  }

  lemma {:induction false} OuterMoves(s: State, step: Step)
    requires OuterOk(s) && Enabled(s, step) && Next(s, step).Some?
    requires !step.TakeControl? && !step.Return? && !step.TakeNotice?
    ensures OuterOk(Next(s, step).value) && Next(s, step).value.foreign == s.foreign + Announced(s, step)
  {
    hide OuterOk, Next, Enabled, Announced;
    match step
    case Put(_, _) => PutMoves(s, step);
    case PutNotice => PutMoves(s, step);
    case Change(_, _) => LoopMoves(s, step);
    case Spawn(_) => LoopMoves(s, step);
    case Lose(_) => LoopMoves(s, step);
    case _ => OtherMoves(s, step);
  }

  lemma {:induction false} PutMoves(s: State, step: Step)
    requires OuterOk(s) && Enabled(s, step) && Next(s, step).Some? && (step.Put? || step.PutNotice?)
    ensures OuterOk(Next(s, step).value) && Next(s, step).value.foreign == s.foreign + Announced(s, step)
  {
    hide InLoop, InQueue;
    var s' := Next(s, step).value;
    forall d: nat ensures Here(s', d) > 0 ==> CountOf(s'.counts, d) >= Here(s', d) + 1 {
      assert Here(s, d) > 0 ==> CountOf(s.counts, d) >= Here(s, d) + 1;
      InQueueAppend(s.recfifo, s'.recfifo[|s.recfifo|], d);
    }
  }

  lemma {:induction false} LoopMoves(s: State, step: Step)
    requires OuterOk(s) && Enabled(s, step) && Next(s, step).Some? && (step.Change? || step.Spawn? || step.Lose?)
    ensures OuterOk(Next(s, step).value) && Next(s, step).value.foreign == s.foreign + Announced(s, step)
  {
    hide InLoop, InQueue;
    var s' := Next(s, step).value;
    HeldInUse(s, step.rec);
    forall d: nat ensures Here(s', d) > 0 ==> CountOf(s'.counts, d) >= Here(s', d) + 1 {
      assert Here(s, d) > 0 ==> CountOf(s.counts, d) >= Here(s, d) + 1;
      match step
      case Change(r, back) => InLoopChange(s.loop, r, back, d);
      case Spawn(r) => InLoopAppend(s.loop, s.loop[r], d);
      case Lose(r) => InLoopWithout(s.loop, r, d);
    }
  }

  lemma {:induction false} OtherMoves(s: State, step: Step)
    requires OuterOk(s) && Enabled(s, step) && Next(s, step).Some?
    requires !step.TakeControl? && !step.Return? && !step.TakeNotice? && !step.Put? && !step.PutNotice?
    requires !step.Change? && !step.Spawn? && !step.Lose?
    ensures OuterOk(Next(s, step).value) && Next(s, step).value.foreign == s.foreign + Announced(s, step)
  {
    hide InLoop, InQueue;
    var s' := Next(s, step).value;
    forall d: nat ensures Here(s', d) > 0 ==> CountOf(s'.counts, d) >= Here(s', d) + 1 {
      assert Here(s, d) > 0 ==> CountOf(s.counts, d) >= Here(s, d) + 1;
    }
  }

  /** The counters of what a record in the loop holds are at least two. */
  lemma {:induction false} HeldInUse(s: State, r: nat)
    requires OuterOk(s) && r < |s.loop|
    ensures InUse(s.counts, s.loop[r].outer)
  {
    hide InLoop, InQueue;
    forall d | d in s.loop[r].outer ensures d in s.counts && s.counts[d] >= 2 {
      InLoopHas(s.loop, r, d);
      assert Here(s, d) > 0;
    }
  }

  // ---------- whole steps ----------

  /** Every step but one keeps the invariant, and its assertions hold. Only an
      announcement of an outer network that comes out of the loop fails one. */
  lemma {:induction false} StepKeepsInv(s: State, step: Step)
    requires Inv(s) && Enabled(s, step)
    ensures Next(s, step).None? <==> step.TakeForeign?
    ensures Next(s, step).Some? ==> Inv(Next(s, step).value)
  {
    hide Core, Next, OuterOk;
    if !step.TakeForeign? {
      CoreKeeps(s, step);
      OuterKeeps(s, step);
    } else {
      ForeignFails(s, step);
    }
  }

  lemma {:induction false} ForeignFails(s: State, step: Step)
    requires Enabled(s, step) && step.TakeForeign?
    ensures Next(s, step).None?
  {
  }

  lemma {:induction false} CoreKeeps(s: State, step: Step)
    requires Inv(s) && Enabled(s, step) && !step.TakeForeign?
    ensures Next(s, step).Some? && Core(Next(s, step).value)
  {
    hide Core, Next, OuterOk;
    match step
    case TakeControl => TakeControlKeeps(s);
    case Return(r) => ReturnKeeps(s, r);
    case TakeNotice => TakeNoticeKeeps(s);
    case Lose(r) =>
      HeldInUse(s, r);
      LoopKeeps(s, step);
    case Put(_, _) => PutKeeps(s, step);
    case PutNotice => PutKeeps(s, step);
    case Count => AccessKeeps(s, step);
    case Wake => AccessKeeps(s, step);
    case Close => AccessKeeps(s, step);
    case _ => LoopKeeps(s, step);
  }

  // ---------- whole runs ----------

  function Start(): State {
    State(0, false, false, false, false, [], 0, [], Idle, Initial, [], 0, [], [], false, 0, map[], {})
  }

  predicate Feasible(s: State, steps: seq<Step>)
    decreases |steps|
  {
    |steps| == 0 ||
    (Enabled(s, steps[0]) && (Next(s, steps[0]).Some? ==> Feasible(Next(s, steps[0]).value, steps[1..])))
  }

  function Run(s: State, steps: seq<Step>): Option<State>
    requires Feasible(s, steps)
    decreases |steps|
  {
    if |steps| == 0 then Some(s)
    else match Next(s, steps[0])
      case None => None
      case Some(s') => Run(s', steps[1..])
  }

  /** A record is destroyed in the loop while no other record, here or elsewhere, holds some
      outer detref on its stack. */
  ghost predicate LosesLast(s: State, step: Step)
    requires Enabled(s, step)
  {
    step.Lose? && exists d :: d in s.loop[step.rec].outer && Here(s, d) == 1 && Elsewhere(s, d) == 0
  }

  ghost predicate LosesLastIn(s: State, steps: seq<Step>)
    requires Feasible(s, steps)
    decreases |steps|
  {
    |steps| > 0 && (LosesLast(s, steps[0]) || (Next(s, steps[0]).Some? && LosesLastIn(Next(s, steps[0]).value, steps[1..])))
  }

  lemma {:induction false} LosesLastMeans(s: State, step: Step)
    requires OuterOk(s) && Enabled(s, step)
    ensures LosesLast(s, step) <==> Announced(s, step) != {}
  {
    hide InLoop, InQueue;
    if step.Lose? {
      forall d | d in s.loop[step.rec].outer
        ensures Here(s, d) == 1 && Elsewhere(s, d) == 0 <==> d in LastOf(s.counts, s.loop[step.rec].outer)
      {
        InLoopHas(s.loop, step.rec, d);
      }
    }
  }

  ghost predicate TakesForeign(steps: seq<Step>) { exists i :: 0 <= i < |steps| && steps[i].TakeForeign? }

  /** A run fails exactly where an outer announcement comes out of the loop. And it goes
      through with none left inside if and only if no record was destroyed in the loop that
      was the last holder of an outer detref. */
  lemma {:induction false} RunIsSafe(s: State, steps: seq<Step>)
    requires Inv(s) && Feasible(s, steps)
    ensures Run(s, steps).None? <==> TakesForeign(steps)
    ensures Run(s, steps).Some? ==> Inv(Run(s, steps).value)
    ensures Run(s, steps).Some? && Run(s, steps).value.foreign == {} <==> s.foreign == {} && !LosesLastIn(s, steps)
    decreases |steps|
  {
    hide Inv, Next, Enabled, LosesLast, Announced;
    if |steps| > 0 {
      var step, rest := steps[0], steps[1..];
      StepKeepsInv(s, step);
      assert TakesForeign(steps) <==> step.TakeForeign? || TakesForeign(rest) by { FirstOrLater(steps); }
      if Next(s, step).Some? {
        RunIsSafe(Next(s, step).value, rest);
        ForeignGrows(s, step);
      } else {
        TakesOne(s, step);
      }
    }
  }

  lemma {:induction false} FirstOrLater(steps: seq<Step>)
    requires |steps| > 0
    ensures TakesForeign(steps) <==> steps[0].TakeForeign? || TakesForeign(steps[1..])
  {
    if i :| 1 <= i < |steps| && steps[i].TakeForeign? { assert steps[1..][i - 1].TakeForeign?; }
    if i :| 0 <= i < |steps[1..]| && steps[1..][i].TakeForeign? { assert steps[i + 1].TakeForeign?; }
  }

  lemma {:induction false} ForeignGrows(s: State, step: Step)
    requires Inv(s) && Enabled(s, step) && Next(s, step).Some?
    ensures Next(s, step).value.foreign == {} <==> s.foreign == {} && !LosesLast(s, step)
  {
    hide Next, Enabled, Core, InLoop, InQueue;
    OuterKeeps(s, step);
    LosesLastMeans(s, step);
  }

  lemma {:induction false} TakesOne(s: State, step: Step)
    requires Enabled(s, step) && step.TakeForeign?
    ensures s.foreign != {}
  {
  }

  /** In every state a run reaches: the loop holds descendants of one outside record only,
      outputs follow the order of the input, queued work has a busy loop or a wakeup under
      way, and the loop ends only when it is idle with nothing queued. */
  lemma {:induction false} OneAtATime(steps: seq<Step>, i: nat, j: nat)
    requires Feasible(Start(), steps)
    ensures !LosesLastIn(Start(), steps) ==> Run(Start(), steps).Some?
    ensures Run(Start(), steps).Some? ==> var s := Run(Start(), steps).value;
      && (i < j < |s.loop| ==> s.loop[i].origin == s.loop[j].origin)
      && (i < j < |s.out| ==> s.out[i] <= s.out[j])
      && (i < |s.out| && j < |s.loop| ==> s.out[i] <= s.loop[j].origin)
      && (i < |s.loop| && j < |s.recfifo| ==> s.loop[i].origin < s.recfifo[j].id)
      && (s.queued > 0 ==> s.phase.Busy? || s.unwoken || Wakeup in s.control)
      && (s.ending.Terminated? ==> s.phase.Idle? && s.queued == 0 && s.loop == [] && s.recfifo == [])
  {
    hide Feasible, Run, Next, Enabled, LosesLastIn;
    StartInv();
    RunIsSafe(Start(), steps);
  }

  lemma {:induction false} StartInv()
    ensures Inv(Start()) && Start().foreign == {}
  {
  }

  /** Draining does not stop halfway: once the access landing has closed and nothing is
      under way, nothing is queued, and the loop has terminated if it was ever woken. */
  lemma {:induction false} DrainsCompletely(steps: seq<Step>)
    requires Feasible(Start(), steps)
    ensures !LosesLastIn(Start(), steps) ==> Run(Start(), steps).Some?
    ensures Run(Start(), steps).Some? ==> var s := Run(Start(), steps).value;
      s.closed && s.control == [] && s.loop == [] && !s.closing && s.notices == 0 ==>
        s.recfifo == [] && s.queued == 0 && (s.connected ==> s.ending.Terminated?)
  {
    hide Feasible, Run, Next, Enabled, LosesLastIn;
    StartInv();
    RunIsSafe(Start(), steps);
  }

  // ---------- nothing is lost or doubled ----------

  /** What becomes of the n-th thing that has come from outside: it passes, as an announcement
      or as a record that does not match, or it goes round, with its outer detrefs. */
  datatype Fate = Passes(id: nat) | Loops(id: nat, outer: set<nat>)

  function FateOf(item: Item): Fate {
    match item
    case Data(id, back, outer) => if back then Loops(id, outer) else Passes(id)
    case OuterNotice(id) => Passes(id)
  }

  function Queued(recfifo: seq<Item>): seq<Fate> { seq(|recfifo|, i requires 0 <= i < |recfifo| => FateOf(recfifo[i])) }

  function Looping(loop: seq<LoopRec>): seq<Fate> { seq(|loop|, i requires 0 <= i < |loop| => Loops(loop[i].origin, loop[i].outer)) }

  function PutOut(out: seq<nat>): seq<Fate> { seq(|out|, i requires 0 <= i < |out| => Passes(out[i])) }

  /** All that is queued, in the loop, or has been put out. */
  function Present(s: State): multiset<Fate> {
    multiset(Queued(s.recfifo)) + multiset(Looping(s.loop)) + multiset(PutOut(s.out))
  }

  /** What a step adds: what comes from outside, a record created in the loop, and, for a
      record of the loop that does not match at the return, one that passes. */
  function Comes(s: State, step: Step): multiset<Fate>
    requires Enabled(s, step)
  {
    match step
    case Put(back, outer) => multiset{if back then Loops(s.arrived, outer) else Passes(s.arrived)}
    case PutNotice => multiset{Passes(s.arrived)}
    case Spawn(r) => multiset{Loops(s.loop[r].origin, s.loop[r].outer)}
    case Return(r) => if s.loop[r].back then multiset{} else multiset{Passes(s.loop[r].origin)}
    case _ => multiset{}
  }

  /** What a step takes away: a record of the loop that is destroyed, or does not match at the return. */
  function Goes(s: State, step: Step): multiset<Fate>
    requires Enabled(s, step)
  {
    match step
    case Lose(r) => multiset{Loops(s.loop[r].origin, s.loop[r].outer)}
    case Return(r) => if s.loop[r].back then multiset{} else multiset{Loops(s.loop[r].origin, s.loop[r].outer)}
    case _ => multiset{}
  }

  /** Handling a record from outside: it is put out, or goes into the loop. */
  lemma {:induction false} TakeNextKeeps(s: State)
    requires TakeNext(s).Some?
    ensures Present(TakeNext(s).value) == Present(s)
  {
    hide Queued, Looping, PutOut;
    var item, s' := s.recfifo[0], TakeNext(s).value;
    QueueFirst(s.recfifo);
    if item.Data? && item.back {
      LoopMore(s.loop, LoopRec(item.id, item.back, item.outer));
    } else {
      OutMore(s.out, item.id);
    }
  }

  lemma {:induction false} QueueFirst(recfifo: seq<Item>)
    requires recfifo != []
    ensures multiset(Queued(recfifo)) == multiset(Queued(recfifo[1..])) + multiset{FateOf(recfifo[0])}
  {
    assert Queued(recfifo) == [FateOf(recfifo[0])] + Queued(recfifo[1..]);
  }

  lemma {:induction false} LoopMore(loop: seq<LoopRec>, rec: LoopRec)
    ensures multiset(Looping(loop + [rec])) == multiset(Looping(loop)) + multiset{Loops(rec.origin, rec.outer)}
  {
    assert Looping(loop + [rec]) == Looping(loop) + [Loops(rec.origin, rec.outer)];
  }

  lemma {:induction false} OutMore(out: seq<nat>, id: nat)
    ensures multiset(PutOut(out + [id])) == multiset(PutOut(out)) + multiset{Passes(id)}
  {
    assert PutOut(out + [id]) == PutOut(out) + [Passes(id)];
  }

  lemma {:induction false} ProceedPresent(s: State)
    requires Proceed(s).Some?
    ensures Present(Proceed(s).value) == Present(s)
    decreases |s.recfifo|
  {
    hide CheckBusy, TakeNext, Queued, Looping, PutOut;
    if s.phase.Busy? {
      var checked := s.(detfifo := CheckBusy(s.detfifo));
      if checked.detfifo == [] && checked.queued > 1 {
        var counted := checked.(queued := checked.queued - 1);
        TakeNextKeeps(counted);
        ProceedPresent(TakeNext(counted).value);
      }
    } else if s.detfifo == [] && s.queued > 0 {
      TakeNextKeeps(s);
      ProceedPresent(TakeNext(s).value.(phase := Busy));
    }
  }

  lemma {:induction false} HandledPresent(s: State)
    requires Handled(s).Some?
    ensures Present(Handled(s).value) == Present(s)
  {
    hide Proceed, Queued, Looping, PutOut;
    ProceedPresent(s);
  }

  lemma {:induction false} StepBalance(s: State, step: Step)
    requires Enabled(s, step) && Next(s, step).Some?
    ensures Present(Next(s, step).value) + Goes(s, step) == Present(s) + Comes(s, step)
  {
    hide Handled, CheckBusy, Here, Copied, Dropped, LastOf, InUse, Elsewhere, Queued, Looping, PutOut;
    match step
    case TakeControl => ControlPresent(s);
    case TakeNotice => HandledPresent(s.(notices := s.notices - 1, detfifo := CheckBusy(s.detfifo)));
    case Return(r) => ReturnBalance(s, r);
    case _ => OtherBalance(s, step);
  }

  lemma {:induction false} ControlPresent(s: State)
    requires Enabled(s, TakeControl) && Next(s, TakeControl).Some?
    ensures Present(Next(s, TakeControl).value) == Present(s)
  {
    hide Handled, Queued, Looping, PutOut;
    var rest := s.(control := s.control[1..]);
    HandledPresent(if s.control[0].Wakeup? then rest else rest.(ending := Draining));
  }

  lemma {:induction false} OtherBalance(s: State, step: Step)
    requires Enabled(s, step) && Next(s, step).Some? && !step.TakeControl? && !step.TakeNotice? && !step.Return?
    ensures Present(Next(s, step).value) + Goes(s, step) == Present(s) + Comes(s, step)
  {
    hide Next, Enabled, Present;
    if step.Put? || step.PutNotice? {
      PutBalance(s, step);
    } else if step.Change? || step.Spawn? || step.Lose? {
      LoopBalance(s, step);
    } else {
      NothingMoves(s, step);
    }
  }

  /** In the loop: a record transformed, created or destroyed. */
  lemma {:induction false} LoopBalance(s: State, step: Step)
    requires Enabled(s, step) && Next(s, step).Some? && (step.Change? || step.Spawn? || step.Lose?)
    ensures Present(Next(s, step).value) + Goes(s, step) == Present(s) + Comes(s, step)
  {
    hide Handled, CheckBusy, Here, Copied, Dropped, LastOf, InUse, Elsewhere, Queued, Looping, PutOut;
    match step
    case Change(r, back) => LoopSame(s.loop, r, back);
    case Spawn(r) => LoopMore(s.loop, s.loop[r]);
    case Lose(r) => LoopWithout(s.loop, r);
  }

  /** The other steps leave all records where they are. */
  lemma {:induction false} NothingMoves(s: State, step: Step)
    requires Enabled(s, step) && Next(s, step).Some? && !step.TakeControl? && !step.TakeNotice? && !step.Return?
    requires !step.Put? && !step.PutNotice? && !step.Change? && !step.Spawn? && !step.Lose?
    ensures Present(Next(s, step).value) + Goes(s, step) == Present(s) + Comes(s, step)
  {
    hide Handled, CheckBusy, Here, Copied, Dropped, LastOf, InUse, Elsewhere, Queued, Looping, PutOut;
    var s' := Next(s, step).value;
    assert s'.recfifo == s.recfifo && s'.loop == s.loop && s'.out == s.out;
  }

  lemma {:induction false} PutBalance(s: State, step: Step)
    requires Enabled(s, step) && (step.Put? || step.PutNotice?)
    ensures Present(Next(s, step).value) == Present(s) + Comes(s, step)
  {
    hide Here, Elsewhere, Queued, Looping, PutOut;
    QueueOne(s.recfifo, if step.Put? then Data(s.arrived, step.back, step.outer) else OuterNotice(s.arrived));
  }

  lemma {:induction false} LoopSame(loop: seq<LoopRec>, r: nat, back: bool)
    requires r < |loop|
    ensures Looping(loop[r := loop[r].(back := back)]) == Looping(loop)
  {
  }

  lemma {:induction false} QueueOne(recfifo: seq<Item>, item: Item)
    ensures multiset(Queued(recfifo + [item])) == multiset(Queued(recfifo)) + multiset{FateOf(item)}
  {
    assert Queued(recfifo + [item]) == Queued(recfifo) + [FateOf(item)];
  }

  lemma {:induction false} LoopWithout(loop: seq<LoopRec>, r: nat)
    requires r < |loop|
    ensures multiset(Looping(loop)) == multiset(Looping(Without(loop, r))) + multiset{Loops(loop[r].origin, loop[r].outer)}
  {
    assert Looping(Without(loop, r)) == Without(Looping(loop), r);
    WithoutOne(Looping(loop), r);
  }

  lemma {:induction false} ReturnBalance(s: State, r: nat)
    requires r < |s.loop| && Next(s, Return(r)).Some?
    ensures Present(Next(s, Return(r)).value) + Goes(s, Return(r)) == Present(s) + Comes(s, Return(r))
  {
    hide Handled, CheckBusy, Queued, Looping, PutOut;
    if s.loop[r].back {
      HandledPresent(s);
    } else {
      var gone := s.(loop := Without(s.loop, r), out := s.out + [s.loop[r].origin]);
      HandledPresent(Leave(gone).value);
      LoopWithout(s.loop, r);
      OutMore(s.out, s.loop[r].origin);
    }
  }

  /** All that comes, or goes, on a run. */
  function AllComes(s: State, steps: seq<Step>): multiset<Fate>
    requires Feasible(s, steps)
    decreases |steps|
  {
    if |steps| == 0 then multiset{}
    else Comes(s, steps[0]) + if Next(s, steps[0]).Some? then AllComes(Next(s, steps[0]).value, steps[1..]) else multiset{}
  }

  function AllGoes(s: State, steps: seq<Step>): multiset<Fate>
    requires Feasible(s, steps)
    decreases |steps|
  {
    if |steps| == 0 then multiset{}
    else Goes(s, steps[0]) + if Next(s, steps[0]).Some? then AllGoes(Next(s, steps[0]).value, steps[1..]) else multiset{}
  }

  lemma {:induction false} RunBalance(s: State, steps: seq<Step>)
    requires Feasible(s, steps) && Run(s, steps).Some?
    ensures Present(Run(s, steps).value) + AllGoes(s, steps) == Present(s) + AllComes(s, steps)
    decreases |steps|
  {
    hide Next, Enabled, Present, Comes, Goes;
    if |steps| > 0 {
      var s' := Next(s, steps[0]).value;
      StepBalance(s, steps[0]);
      RunBalance(s', steps[1..]);
      BalanceOn(Present(s), Comes(s, steps[0]), Goes(s, steps[0]), Present(s'),
                AllComes(s', steps[1..]), AllGoes(s', steps[1..]), Present(Run(s, steps).value));
    }
  }

  /** On every run that goes through: every announcement and every record from outside that
      does not match is queued or has been put out, once; every record that matches, and
      every one created in the loop, is queued or in the loop with its outer detrefs, unless
      it was destroyed or came back without matching, and then it has been put out, once. */
  lemma {:induction false} NothingLost(steps: seq<Step>)
    requires Feasible(Start(), steps) && Run(Start(), steps).Some?
    ensures Present(Run(Start(), steps).value) + AllGoes(Start(), steps) == AllComes(Start(), steps)
  {
    hide Feasible, Run, AllComes, AllGoes;
    RunBalance(Start(), steps);
    assert Queued([]) == [] && Looping([]) == [] && PutOut([]) == [];
  }

  // ---------- a run that fails ----------

  const FAILING: seq<Step> := [OuterNew(7), Put(true, {7}), Count, Wake, TakeControl, Lose(0), TakeForeign(7)]

  const S1 := Start().(counts := map[7 := 2])
  const S2 := S1.(recfifo := [Data(0, true, {7})], arrived := 1, uncounted := true)
  const S3 := S2.(uncounted := false, queued := 1, unwoken := true)
  const S4 := S3.(unwoken := false, connected := true, control := [Wakeup])
  const S5 := S4.(control := [], recfifo := [], phase := Busy, detfifo := [Det(0, 2)], loop := [LoopRec(0, true, {7})])
  const S6 := S5.(loop := [], detfifo := [Det(0, 1)], closing := true, counts := map[7 := 0], foreign := {7})

  function At(n: nat): State {
    if n == 0 then Start() else if n == 1 then S1 else if n == 2 then S2 else if n == 3 then S3
    else if n == 4 then S4 else if n == 5 then S5 else S6
  }

  lemma {:induction false} AtStep(n: nat)
    requires n < 6
    ensures Enabled(At(n), FAILING[n]) && Next(At(n), FAILING[n]) == Some(At(n + 1))
  {
    hide Next, Enabled, LosesLast, S1, S2, S3, S4, S5, S6, Start;
    if n == 0 { AtNew(); }
    if n == 1 { AtPut(); }
    if n == 2 { AtCount(); }
    if n == 3 { AtWake(); }
    if n == 4 { AtControl(); }
    if n == 5 { AtLoss(); }
  }

  lemma {:induction false} AtNew()
    ensures Enabled(Start(), OuterNew(7)) && Next(Start(), OuterNew(7)) == Some(S1)
  {
  }

  lemma {:induction false} AtPut()
    ensures Enabled(S1, Put(true, {7})) && Next(S1, Put(true, {7})) == Some(S2)
  {
    hide InLoop, InQueue, Here, Handled, Leave, Copied, Dropped, LastOf, InUse;
    SevenElsewhere();
    forall d: nat | d in {7} ensures Elsewhere(S1, d) >= 1 { assert d == 7; }
    assert S1.recfifo + [Data(0, true, {7})] == [Data(0, true, {7})];
  }

  lemma {:induction false} SevenElsewhere()
    ensures Elsewhere(S1, 7) == 1
  {
    assert Stacks([]) == [] && InLoop([], 7) == 0 && InQueue([], 7) == 0;
  }

  lemma {:induction false} AtCount()
    ensures Enabled(S2, Count) && Next(S2, Count) == Some(S3)
  {
  }

  lemma {:induction false} AtWake()
    ensures Enabled(S3, Wake) && Next(S3, Wake) == Some(S4)
  {
    assert [] + [Wakeup] == [Wakeup];
  }

  lemma {:induction false} AtControl()
    ensures Enabled(S4, TakeControl) && Next(S4, TakeControl) == Some(S5)
  {
    hide InLoop, InQueue;
    var rest := S4.(control := []);
    assert S4.control[1..] == [];
    var next := TakeNext(rest).value.(phase := Busy);
    assert rest.recfifo[1..] == [] && rest.loop + [LoopRec(0, true, {7})] == [LoopRec(0, true, {7})];
    assert next == S5;
    CheckBusyOne(Det(0, 2));
    assert Proceed(next) == Some(next);
    assert Proceed(rest) == Proceed(next);
  }

  lemma {:induction false} AtLoss()
    ensures Enabled(S5, Lose(0)) && Next(S5, Lose(0)) == Some(S6) && LosesLast(S5, Lose(0))
  {
    hide Handled, Leave, InLoop, InQueue, InUse, LastOf, Dropped, Here;
    assert S5.loop[0] == LoopRec(0, true, {7}) && S5.counts == map[7 := 2];
    assert Without(S5.loop, 0) == [];
    LastSeven();
    assert S5.foreign + {7} == {7};
    SevenHeld();
    assert S5.detfifo[0 := Det(0, 1)] == [Det(0, 1)];
    assert 7 in S5.loop[0].outer;
  }

  lemma {:induction false} LastSeven()
    ensures LastOf(map[7 := 2], {7}) == {7} && Dropped(map[7 := 2], {7}) == map[7 := 0] && InUse(map[7 := 2], {7})
  {
  }

  lemma {:induction false} SevenHeld()
    ensures Here(S5, 7) == 1 && Elsewhere(S5, 7) == 0
  {
    hide Holding, Stacks;
    assert S5.loop == [LoopRec(0, true, {7})] && S5.recfifo == [] && S5.counts == map[7 := 2];
    SevenInLoop();
  }

  lemma {:induction false} SevenInLoop()
    ensures InLoop([LoopRec(0, true, {7})], 7) == 1
  {
    hide S1, S2, S3, S4, S5, S6, Start;
    assert Stacks([LoopRec(0, true, {7})]) == [{7}] && [{7}][..0] == [] && Holding([], 7) == 0;
  }

  lemma {:induction false} FromAt(n: nat)
    requires n <= 6
    ensures Feasible(At(n), FAILING[n..]) && Run(At(n), FAILING[n..]) == None
    ensures n < 6 ==> LosesLastIn(At(n), FAILING[n..])
    decreases 6 - n
  {
    hide Next, Enabled, LosesLast, S1, S2, S3, S4, S5, S6, Start;
    var rest := FAILING[n..];
    assert |FAILING| == 7 && rest[0] == FAILING[n] && rest[1..] == FAILING[n + 1..];
    if n == 6 {
      LastFails();
    } else {
      AtStep(n);
      if n == 5 { AtLoss(); }
      FromAt(n + 1);
    }
  }

  lemma {:induction false} LastFails()
    ensures Enabled(S6, TakeForeign(7)) && Next(S6, TakeForeign(7)) == None
  {
  }

  /** One record with an outer detref that no other record holds enters the loop and is
      destroyed there: its announcement fails the assertion at the control landing. */
  lemma {:induction false} OuterNoticeFails()
    ensures Feasible(Start(), FAILING) && LosesLastIn(Start(), FAILING) && Run(Start(), FAILING) == None
  {
    FromAt(0);
    assert FAILING[0..] == FAILING;
  }

  // ---------- the end can always be reached ----------

  /** Nothing is under way any more. */
  predicate Quiet(s: State) {
    s.closed && !s.uncounted && !s.unwoken && s.loop == [] && !s.closing && s.notices == 0 && s.control == []
  }

  /** The next step on the way to the end: what was put is counted and wakes the control landing;
      the access landing closes; the records of the loop stop matching, one by one, and leave;
      then announcements and the control landing's messages are handled. */
  function Onward(s: State): Step
    requires !Quiet(s)
  {
    if s.uncounted then Count
    else if s.unwoken then Wake
    else if !s.closed then Close
    else if s.loop != [] then (if s.loop[0].back then Change(0, false) else Return(0))
    else if s.closing then Announce
    else if s.notices > 0 then TakeNotice
    else TakeControl
  }

  /** Going on with the queue leaves everything else, or makes the queue shorter. */
  lemma {:induction false} ProceedShortens(s: State, s': State)
    requires Proceed(s) == Some(s')
    ensures SameElse(s, s')
    ensures |s'.recfifo| < |s.recfifo| || (s'.recfifo == s.recfifo && s'.loop == s.loop)
    decreases |s.recfifo|
  {
    hide CheckBusy, TakeNext;
    if s.phase.Busy? {
      var checked := s.(detfifo := CheckBusy(s.detfifo));
      if checked.detfifo == [] && checked.queued > 1 {
        TakeNextSame(checked.(queued := checked.queued - 1));
        ProceedShortens(TakeNext(checked.(queued := checked.queued - 1)).value, s');
      }
    } else if s.detfifo == [] && s.queued > 0 {
      TakeNextSame(s);
      ProceedShortens(TakeNext(s).value.(phase := Busy), s');
    }
  }

  lemma {:induction false} TakeNextSame(s: State)
    requires TakeNext(s).Some?
    ensures SameElse(s, TakeNext(s).value)
  {
  }

  lemma {:induction false} HandledShortens(s: State)
    requires Handled(s).Some?
    ensures var s' := Handled(s).value;
      && s'.uncounted == s.uncounted && s'.unwoken == s.unwoken && s'.closed == s.closed
      && s'.control == s.control && s'.closing == s.closing && s'.notices == s.notices
      && (|s'.recfifo| < |s.recfifo| || (s'.recfifo == s.recfifo && s'.loop == s.loop))
  {
    hide Proceed;
    ProceedShortens(s, Proceed(s).value);
  }

  lemma {:induction false} OnwardSteps(s: State)
    requires Inv(s) && !Quiet(s)
    ensures Enabled(s, Onward(s)) && Next(s, Onward(s)).Some?
    ensures var s' := Next(s, Onward(s)).value;
      && !s'.uncounted && (!s.uncounted ==> !s'.unwoken)
      && (!s.uncounted && !s.unwoken ==> s'.closed)
      && (!s.uncounted && !s.unwoken && s.closed ==> |s'.recfifo| < |s.recfifo| || (|s'.recfifo| == |s.recfifo| && Less(s, s')))
  {
    hide Core, OuterOk, Handled;
    StepKeepsInv(s, Onward(s));
    if !s.uncounted && !s.unwoken && s.closed { OnwardHandled(s); }
  }

  /** With the same records queued: fewer in the loop, or as many of which the first one no longer
      matches; or, with an empty loop, less on its way. */
  ghost predicate Less(s: State, s': State) {
    if s.loop != [] then |s'.loop| < |s.loop| || (|s'.loop| == |s.loop| && s.loop[0].back && !s'.loop[0].back)
    else
      && s'.loop == []
      && if s.closing then !s'.closing
        else !s'.closing && if s.notices > 0 then s'.notices < s.notices else s'.notices == 0 && |s'.control| < |s.control|
  }

  lemma {:induction false} OnwardHandled(s: State)
    requires Inv(s) && !Quiet(s) && !s.uncounted && !s.unwoken && s.closed
    requires Enabled(s, Onward(s)) && Next(s, Onward(s)).Some?
    ensures var s' := Next(s, Onward(s)).value;
      && !s'.uncounted && !s'.unwoken && s'.closed
      && (|s'.recfifo| < |s.recfifo| || (|s'.recfifo| == |s.recfifo| && Less(s, s')))
  {
    hide Core, OuterOk, Handled, CheckBusy;
    match Onward(s)
    case Return(r) =>
      HandledShortens(Leave(s.(loop := Without(s.loop, 0), out := s.out + [s.loop[0].origin])).value);
    case TakeNotice =>
      HandledShortens(s.(notices := s.notices - 1, detfifo := CheckBusy(s.detfifo)));
    case TakeControl =>
      var rest := s.(control := s.control[1..]);
      HandledShortens(if s.control[0].Wakeup? then rest else rest.(ending := Draining));
    case _ =>
  }

  /** These steps, among which nothing comes from outside and no record is destroyed, lead to the end. */
  ghost predicate Ends(s: State, steps: seq<Step>) {
    && (forall i :: 0 <= i < |steps| ==> !steps[i].Put? && !steps[i].PutNotice? && !steps[i].Lose?)
    && Feasible(s, steps) && Run(s, steps).Some?
    && var s' := Run(s, steps).value;
      s'.closed && s'.recfifo == [] && s'.queued == 0 && s'.loop == [] && (s'.connected ==> s'.ending.Terminated?)
  }

  lemma {:induction false} EndsAfter(s: State, step: Step, rest: seq<Step>)
    requires Enabled(s, step) && Next(s, step).Some? && Ends(Next(s, step).value, rest)
    requires !step.Put? && !step.PutNotice? && !step.Lose?
    ensures Ends(s, [step] + rest)
  {
    hide Next, Enabled;
    assert ([step] + rest)[1..] == rest;
  }

  /** From every state the end can be reached, with no record lost: everything queued has its turn,
      all records leave the loop, and the loop terminates if it was ever woken. */
  lemma {:induction false} CanEnd(s: State)
    requires Inv(s)
    ensures exists steps :: Ends(s, steps)
    decreases s.uncounted, s.unwoken, !s.closed, |s.recfifo|, |s.loop|, s.loop != [] && s.loop[0].back, s.closing, s.notices, |s.control|
  {
    hide Core, OuterOk, Next, Enabled, Ends;
    if Quiet(s) {
      QuietEnded(s);
    } else {
      OnwardSteps(s);
      StepKeepsInv(s, Onward(s));
      CanEnd(Next(s, Onward(s)).value);
      var rest :| Ends(Next(s, Onward(s)).value, rest);
      EndsAfter(s, Onward(s), rest);
    }
  }

  lemma {:induction false} QuietEnded(s: State)
    requires Inv(s) && Quiet(s)
    ensures Ends(s, [])
  {
  }
}
