/** The draining of a feedback loop: every record from outside gets a detref, and the
    return landing ends the loop when the access landing has closed and all are done. */
module Feedback {
  import opened Options
  import opened OuterDetrefs

  /** The detref of one record from outside. */
  datatype Det = Det(id: nat, refcount: int)

  /** A data record in the loop: the detref it carries, whether it matches the feedback
      pattern, and the detrefs of outer networks below on its stack. */
  datatype LoopRec = LoopRec(det: nat, back: bool, outer: set<nat>)

  /** A record that has gone out: from outside, without matching, or of the loop. */
  datatype Gone = Bypassed(outer: set<nat>) | Left(det: nat, outer: set<nat>)

  datatype Ending = Initial | Draining | Terminating | Terminated

  /** `entered` counts the records that got a detref; `lastCall` is the access landing's
      final announcement on its way; `ends` counts how often the loop has been closed.
      Outer networks' detrefs have their counters in `counts`; the announcements that one of
      them is no longer in use are inside the loop (`foreign`), have been dropped by the
      return landing (`lost`), or went on outside of the loop (`sent`). */
  datatype State = State(
    entered: nat, closed: bool, lastCall: bool,
    detfifo: seq<Det>, ending: Ending, ends: nat,
    loop: seq<LoopRec>, closing: set<nat>, notices: nat, out: seq<Gone>,
    counts: map<nat, nat>, foreign: set<nat>, lost: set<nat>, sent: set<nat>)

  datatype Step =
    | Enter(back: bool, outer: set<nat>) // a record from outside, which may match the feedback pattern
    | Close                        // the access landing terminates
    | TakeLastCall                 // the return landing handles the final announcement
    | Return(rec: nat)             // ... a data record
    | TakeNotice                   // ... an announcement
    | Change(rec: nat, back: bool) // in the loop: a record is transformed
    | Spawn(rec: nat)              // ... a record is created in the context of another
    | Lose(rec: nat)               // ... a record is destroyed
    | Announce(det: nat)           // ... and if it was the last holder, this is announced
    | TakeForeign(det: nat)        // the return landing handles an announcement of an outer network
    | OuterNew(det: nat)           // elsewhere: a record gets a detref of an outer network
    | OuterCopy(det: nat)          // ... is copied
    | OuterDrop(det: nat)          // ... or gives it up

  /** Pop detrefs that are no longer in use. */
  function PopSpent(detfifo: seq<Det>): seq<Det> {
    if detfifo != [] && detfifo[0].refcount <= 0 then PopSpent(detfifo[1..]) else detfifo
  }

  /** Is the loop still in use? If not, draining turns into terminating. */
  function CheckBusy(s: State): State {
    var rest := PopSpent(s.detfifo);
    s.(detfifo := rest, ending := if rest == [] && s.ending.Draining? then Terminating else s.ending)
  }

  /** A terminating loop closes its streams, and has then terminated. */
  function Conclude(s: State): State {
    if s.ending.Terminating? then s.(ending := Terminated, ends := s.ends + 1) else s
  }

  function Find(detfifo: seq<Det>, id: nat): Option<nat> {
    if detfifo == [] then None
    else if detfifo[0].id == id then Some(0)
    else match Find(detfifo[1..], id)
      case None => None
      case Some(i) => Some(i + 1)
  }

  /** The detref with another count; None if it is not there, or counts too little. */
  function Recount(detfifo: seq<Det>, id: nat, least: int, change: int): Option<seq<Det>> {
    match Find(detfifo, id)
    case None => None
    case Some(i) =>
      if i < |detfifo| && detfifo[i].refcount >= least then
        Some(detfifo[i := detfifo[i].(refcount := detfifo[i].refcount + change)])
      else None
  }

  function CountAt(detfifo: seq<Det>, id: nat): int {
    match Find(detfifo, id)
    case None => 0
    case Some(i) => if i < |detfifo| then detfifo[i].refcount else 0
  }

  /** The stacks of the records in the loop, without the detref of the loop itself. */
  function Stacks(loop: seq<LoopRec>): seq<set<nat>> { seq(|loop|, i requires 0 <= i < |loop| => loop[i].outer) }

  /** The records in the loop that hold an outer detref. */
  function Here(s: State, d: nat): nat { Holding(Stacks(s.loop), d) }

  /** The records outside the loop that hold it. */
  function Elsewhere(s: State, d: nat): int { CountOf(s.counts, d) - 1 - Here(s, d) }

  predicate Enabled(s: State, step: Step) {
    match step
    case Enter(back, outer) => !s.closed && forall d :: d in outer ==> Elsewhere(s, d) >= 1
    case Close => !s.closed
    case TakeLastCall => s.lastCall
    case Return(r) => r < |s.loop|
    case TakeNotice => s.notices > 0
    case Change(r, back) => r < |s.loop|
    case Spawn(r) => r < |s.loop|
    case Lose(r) => r < |s.loop|
    case Announce(d) => d in s.closing
    case TakeForeign(d) => d in s.foreign
    case OuterNew(d) => d !in s.counts
    case OuterCopy(d) => Elsewhere(s, d) >= 1
    case OuterDrop(d) => Elsewhere(s, d) >= 1
  }

  /** One step; None where an assertion or a fatal check of the code fails. */
  function Next(s: State, step: Step): Option<State>
    requires Enabled(s, step)
  {
    match step
    case Enter(back, outer) =>
      Some(if back then
             s.(entered := s.entered + 1, detfifo := s.detfifo + [Det(s.entered, 2)],
                loop := s.loop + [LoopRec(s.entered, back, outer)])
           else s.(out := s.out + [Bypassed(outer)]))
    case Close =>
      if !s.ending.Initial? then None else Some(s.(closed := true, lastCall := s.entered > 0))
    case TakeLastCall =>
      if s.ending.Terminated? then Some(s.(lastCall := false))
      else if !s.ending.Initial? then None
      else Some(Conclude(CheckBusy(s.(lastCall := false, ending := Draining))))
    case Return(r) =>
      if s.ending.Terminated? then None
      else if s.loop[r].back then Some(Conclude(s))
      else
        (match Recount(s.detfifo, s.loop[r].det, 2, if CountAt(s.detfifo, s.loop[r].det) == 2 then -2 else -1)
         case None => None
         case Some(left) =>
           var gone := s.(loop := Without(s.loop, r), detfifo := PopSpent(left), out := s.out + [Left(s.loop[r].det, s.loop[r].outer)]);
           if s.ending.Initial? then Some(gone)
           else if !s.ending.Draining? then None
           else Some(Conclude(CheckBusy(gone))))
    case TakeNotice =>
      var rest := s.(notices := s.notices - 1);
      Some(if s.ending.Terminated? then rest else Conclude(CheckBusy(rest)))
    case Change(r, back) => Some(s.(loop := s.loop[r := s.loop[r].(back := back)]))
    case Spawn(r) =>
      (match Recount(s.detfifo, s.loop[r].det, 2, 1)
       case None => None
       case Some(d) => Some(s.(loop := s.loop + [s.loop[r]], detfifo := d, counts := Copied(s.counts, s.loop[r].outer))))
    case Lose(r) =>
      if !InUse(s.counts, s.loop[r].outer) then None else
      (match Recount(s.detfifo, s.loop[r].det, 2, -1)
       case None => None
       case Some(d) =>
         Some(s.(loop := Without(s.loop, r), detfifo := d,
                 closing := if CountAt(d, s.loop[r].det) == 1 then s.closing + {s.loop[r].det} else s.closing,
                 counts := Dropped(s.counts, s.loop[r].outer), foreign := s.foreign + LastOf(s.counts, s.loop[r].outer))))
    case Announce(id) =>
      if CountAt(s.detfifo, id) != 1 then None
      else
        (match Recount(s.detfifo, id, 1, -1)
         case None => None
         case Some(d) => Some(s.(detfifo := d, closing := s.closing - {id}, notices := s.notices + 1)))
    case TakeForeign(d) => Some(s.(foreign := s.foreign - {d}, lost := s.lost + {d}))
    case OuterNew(d) => Some(s.(counts := s.counts[d := 2]))
    case OuterCopy(d) => Some(s.(counts := Copied(s.counts, {d})))
    case OuterDrop(d) => Some(s.(counts := Dropped(s.counts, {d}), sent := s.sent + LastOf(s.counts, {d})))
  }

  // ---------- the invariant ----------

  function Holders(loop: seq<LoopRec>, id: nat): nat {
    if |loop| == 0 then 0 else Holders(loop[..|loop| - 1], id) + if loop[|loop| - 1].det == id then 1 else 0
  }

  ghost predicate Rising(detfifo: seq<Det>, bound: nat) {
    && (forall i, j :: 0 <= i < j < |detfifo| ==> detfifo[i].id < detfifo[j].id)
    && (forall i :: 0 <= i < |detfifo| ==> detfifo[i].id < bound)
  }

  ghost predicate Known(detfifo: seq<Det>, id: nat) {
    exists i :: 0 <= i < |detfifo| && detfifo[i].id == id
  }

  /** One more than the records that hold the detref, until the last of them is gone. */
  ghost predicate CountOk(s: State, x: Det) {
    var h := Holders(s.loop, x.id);
    && x.refcount == (if h > 0 then h + 1 else if x.id in s.closing then 1 else 0)
    && (x.id in s.closing ==> h == 0)
  }

  ghost predicate Counts(s: State) {
    && Rising(s.detfifo, s.entered)
    && (forall i :: 0 <= i < |s.detfifo| ==> CountOk(s, s.detfifo[i]))
    && (forall r :: 0 <= r < |s.loop| ==> Known(s.detfifo, s.loop[r].det))
    && (forall id :: id in s.closing ==> Known(s.detfifo, id))
  }

  ghost predicate EndingOk(s: State) {
    && (s.lastCall ==> s.closed && s.ending.Initial?)
    && (!s.ending.Initial? ==> s.closed && !s.lastCall)
    && (s.closed && s.entered > 0 && s.ending.Initial? ==> s.lastCall)
    && !s.ending.Terminating?
    && s.ends == (if s.ending.Terminated? then 1 else 0)
    && (s.ending.Terminated? ==> s.detfifo == [])
    && (s.ending.Draining? ==> s.detfifo != [])
  }

  /** A first detref that is no longer in use has been announced. */
  ghost predicate Announced(s: State) {
    s.detfifo != [] && s.detfifo[0].refcount == 0 ==> s.notices > 0
  }

  ghost predicate Core(s: State) {
    Counts(s) && EndingOk(s) && Announced(s)
  }

  /** An outer detref that is held here is counted for every holder; once its counter is zero
      it has been announced, and the announcement is in one place. */
  ghost predicate OuterOk(s: State) {
    && (forall d :: Here(s, d) > 0 ==> CountOf(s.counts, d) >= Here(s, d) + 1)
    && (forall d :: d in s.sent || d in s.foreign || d in s.lost <==> d in s.counts && s.counts[d] == 0)
    && s.sent !! (s.foreign + s.lost) && s.foreign !! s.lost
  }

  ghost predicate Inv(s: State) { Core(s) && OuterOk(s) }

  // ---------- lemmas about the queue of detrefs ----------

  lemma {:induction false} FindKnown(detfifo: seq<Det>, id: nat)
    ensures Find(detfifo, id).Some? <==> Known(detfifo, id)
    ensures Find(detfifo, id).Some? ==> Find(detfifo, id).value < |detfifo| && detfifo[Find(detfifo, id).value].id == id
  {
    if detfifo != [] {
      FindKnown(detfifo[1..], id);
      if detfifo[0].id != id && Known(detfifo, id) {
        var i :| 0 <= i < |detfifo| && detfifo[i].id == id;
        assert detfifo[1..][i - 1].id == id;
      }
    }
  }

  /** What is left after popping is a tail, and starts with a detref in use. */
  lemma {:induction false} PopSpentTail(detfifo: seq<Det>) returns (n: nat)
    ensures n <= |detfifo| && PopSpent(detfifo) == detfifo[n..]
    ensures forall i :: 0 <= i < n ==> detfifo[i].refcount <= 0
    ensures n < |detfifo| ==> detfifo[n].refcount > 0
  {
    if detfifo != [] && detfifo[0].refcount <= 0 {
      var m := PopSpentTail(detfifo[1..]);
      n := m + 1;
    } else {
      n := 0;
    }
  }

  lemma {:induction false} HoldersAppend(loop: seq<LoopRec>, rec: LoopRec, id: nat)
    ensures Holders(loop + [rec], id) == Holders(loop, id) + (if rec.det == id then 1 else 0)
  {
    assert (loop + [rec])[..|loop|] == loop;
  }

  lemma {:induction false} HoldersWithout(loop: seq<LoopRec>, r: nat, id: nat)
    requires r < |loop|
    ensures Holders(Without(loop, r), id) == Holders(loop, id) - (if loop[r].det == id then 1 else 0)
  {
    var n := |loop| - 1;
    if r == n {
      assert Without(loop, r) == loop[..n];
    } else {
      HoldersWithout(loop[..n], r, id);
      var w := Without(loop, r);
      assert |w| == n && w[..n - 1] == Without(loop[..n], r) && w[n - 1] == loop[n];
    }
  }

  lemma {:induction false} HoldersHas(loop: seq<LoopRec>, r: nat)
    requires r < |loop|
    ensures Holders(loop, loop[r].det) >= 1
  {
    if r < |loop| - 1 { HoldersHas(loop[..|loop| - 1], r); }
  }

  lemma {:induction false} HoldersChange(loop: seq<LoopRec>, r: nat, back: bool, id: nat)
    requires r < |loop|
    ensures Holders(loop[r := loop[r].(back := back)], id) == Holders(loop, id)
  {
    var n := |loop| - 1;
    var changed := loop[r := loop[r].(back := back)];
    if r == n {
      assert changed[..n] == loop[..n];
    } else {
      HoldersChange(loop[..n], r, back, id);
      assert changed[..n] == loop[..n][r := loop[r].(back := back)];
    }
  }

  lemma {:induction false} HoldersNew(loop: seq<LoopRec>, id: nat)
    requires forall r :: 0 <= r < |loop| ==> loop[r].det != id
    ensures Holders(loop, id) == 0
  {
    if |loop| > 0 { HoldersNew(loop[..|loop| - 1], id); }
  }

  // ---------- every step keeps the invariant ----------

  /** A record in the loop has its detref, with a count of at least two. */
  lemma {:induction false} DetThere(s: State, r: nat) returns (i: nat)
    requires Counts(s) && r < |s.loop|
    ensures Find(s.detfifo, s.loop[r].det) == Some(i) && i < |s.detfifo|
    ensures s.detfifo[i].id == s.loop[r].det && s.detfifo[i].refcount >= 2
    ensures s.detfifo[i].refcount == Holders(s.loop, s.loop[r].det) + 1
    ensures s.loop[r].det !in s.closing
  {
    FindKnown(s.detfifo, s.loop[r].det);
    i := Find(s.detfifo, s.loop[r].det).value;
    HoldersHas(s.loop, r);
    assert CountOk(s, s.detfifo[i]);
  }

  /** Popping spent detrefs keeps the counts. */
  lemma {:induction false} PopKeeps(s: State)
    requires Counts(s)
    ensures Counts(s.(detfifo := PopSpent(s.detfifo)))
    ensures PopSpent(s.detfifo) != [] ==> PopSpent(s.detfifo)[0].refcount > 0
  {
    hide Holders;
    var n := PopSpentTail(s.detfifo);
    var rest := s.detfifo[n..];
    var s' := s.(detfifo := rest);
    forall i | 0 <= i < |rest| ensures CountOk(s', rest[i]) {
      assert CountOk(s, s.detfifo[n + i]);
    }
    forall id | Known(s.detfifo, id) && (id in s.closing || exists r :: 0 <= r < |s.loop| && s.loop[r].det == id)
      ensures Known(rest, id)
    {
      var i :| 0 <= i < |s.detfifo| && s.detfifo[i].id == id;
      assert CountOk(s, s.detfifo[i]);
      if id !in s.closing {
        var r :| 0 <= r < |s.loop| && s.loop[r].det == id;
        HoldersHas(s.loop, r);
      }
      assert i >= n;
      assert rest[i - n].id == id;
    }
  }

  /** The return landing after a message: spent detrefs are popped, and a draining loop
      without detrefs ends. */
  lemma {:induction false} ConcludeKeeps(s: State)
    requires Counts(s) && (s.lastCall ==> s.closed && s.ending.Initial?) && (!s.ending.Initial? ==> s.closed)
    requires s.closed && s.entered > 0 && s.ending.Initial? ==> s.lastCall
    requires (s.ending.Initial? || s.ending.Draining?) && s.ends == 0
    ensures Core(Conclude(CheckBusy(s)))
  {
    hide Counts, PopSpent;
    PopKeeps(s);
    CountsSame(s.(detfifo := PopSpent(s.detfifo)), CheckBusy(s));
    CountsSame(s.(detfifo := PopSpent(s.detfifo)), Conclude(CheckBusy(s)));
  }

  lemma {:induction false} CountsSame(s: State, s': State)
    requires Counts(s) && s'.entered == s.entered && s'.detfifo == s.detfifo && s'.loop == s.loop && s'.closing == s.closing
    ensures Counts(s')
  {
    hide Holders;
    forall i | 0 <= i < |s'.detfifo| ensures CountOk(s', s'.detfifo[i]) { assert CountOk(s, s.detfifo[i]); }
  }

  lemma {:induction false} EnterKeeps(s: State, back: bool, outer: set<nat>)
    requires Core(s) && Enabled(s, Enter(back, outer))
    ensures Next(s, Enter(back, outer)).Some? && Core(Next(s, Enter(back, outer)).value)
  {
    if back { EnterLoop(s, outer); } else { CountsSame(s, Next(s, Enter(back, outer)).value); }
  }

  lemma {:induction false} EnterLoop(s: State, outer: set<nat>)
    requires Core(s) && Enabled(s, Enter(true, outer))
    ensures Next(s, Enter(true, outer)).Some? && Core(Next(s, Enter(true, outer)).value)
  {
    hide Holders, Here;
    var s' := Next(s, Enter(true, outer)).value;
    var n := |s.detfifo|;
    forall r | 0 <= r < |s.loop| ensures s.loop[r].det != s.entered {
      var i := DetThere(s, r);
    }
    HoldersNew(s.loop, s.entered);
    forall i | 0 <= i < |s'.detfifo| ensures CountOk(s', s'.detfifo[i]) {
      HoldersAppend(s.loop, LoopRec(s.entered, true, outer), s'.detfifo[i].id);
      if i < n { assert CountOk(s, s.detfifo[i]); }
    }
    forall id | Known(s.detfifo, id) ensures Known(s'.detfifo, id) {
      var i :| 0 <= i < n && s.detfifo[i].id == id;
      assert s'.detfifo[i].id == id;
    }
    assert s'.detfifo[n].id == s.entered;
  }

  lemma {:induction false} CloseKeeps(s: State)
    requires Core(s) && !s.closed
    ensures Next(s, Close).Some? && Core(Next(s, Close).value)
  {
    hide Counts;
    CountsSame(s, Next(s, Close).value);
  }

  lemma {:induction false} TakeLastCallKeeps(s: State)
    requires Core(s) && s.lastCall
    ensures Next(s, TakeLastCall).Some? && Core(Next(s, TakeLastCall).value)
  {
    hide Counts, Conclude, CheckBusy;
    var called := s.(lastCall := false, ending := Draining);
    CountsSame(s, called);
    ConcludeKeeps(called);
  }

  lemma {:induction false} TakeNoticeKeeps(s: State)
    requires Core(s) && s.notices > 0
    ensures Next(s, TakeNotice).Some? && Core(Next(s, TakeNotice).value)
  {
    hide Counts, Conclude, CheckBusy;
    var rest := s.(notices := s.notices - 1);
    CountsSame(s, rest);
    if !s.ending.Terminated? { ConcludeKeeps(rest); }
  }

  lemma {:induction false} Recounted(detfifo: seq<Det>, i: nat, change: int, bound: nat)
    requires i < |detfifo| && Rising(detfifo, bound)
    ensures var d := detfifo[i := detfifo[i].(refcount := detfifo[i].refcount + change)];
      Rising(d, bound) && forall id :: Known(d, id) <==> Known(detfifo, id)
  {
    var d := detfifo[i := detfifo[i].(refcount := detfifo[i].refcount + change)];
    forall id ensures Known(d, id) <==> Known(detfifo, id) {
      if Known(d, id) { var j :| 0 <= j < |d| && d[j].id == id; assert detfifo[j].id == id; }
      if Known(detfifo, id) { var j :| 0 <= j < |detfifo| && detfifo[j].id == id; assert d[j].id == id; }
    }
  }

  /** A record gives up its detref: the counts stay right. */
  lemma {:induction false} GiveUp(s: State, r: nat, leaving: bool)
    requires Counts(s) && r < |s.loop|
    ensures var id := s.loop[r].det;
      var last := CountAt(s.detfifo, id) == 2;
      var d := Recount(s.detfifo, id, 2, if leaving && last then -2 else -1);
      && d.Some?
      && CountAt(d.value, id) == (if leaving && last then 0 else CountAt(s.detfifo, id) - 1)
      && Counts(s.(loop := Without(s.loop, r), detfifo := d.value,
                   closing := if !leaving && last then s.closing + {id} else s.closing))
  {
    hide Holders;
    var id := s.loop[r].det;
    var i := DetThere(s, r);
    var last := s.detfifo[i].refcount == 2;
    var change := if leaving && last then -2 else -1;
    Recounted(s.detfifo, i, change, s.entered);
    var d := s.detfifo[i := s.detfifo[i].(refcount := s.detfifo[i].refcount + change)];
    FindSame(s.detfifo, d, id);
    GiveUpCounts(s, r, i, change, if !leaving && last then s.closing + {id} else s.closing);
  }

  lemma {:induction false} FindSame(a: seq<Det>, b: seq<Det>, id: nat)
    requires |a| == |b| && forall i :: 0 <= i < |a| ==> a[i].id == b[i].id
    ensures Find(a, id) == Find(b, id)
  {
    if a != [] { FindSame(a[1..], b[1..], id); }
  }

  lemma {:induction false} GiveUpCounts(s: State, r: nat, i: nat, change: int, closing: set<nat>)
    requires Counts(s) && r < |s.loop| && i < |s.detfifo| && s.detfifo[i].id == s.loop[r].det
    requires s.detfifo[i].refcount == Holders(s.loop, s.loop[r].det) + 1 && s.loop[r].det !in s.closing
    requires closing == (if s.detfifo[i].refcount == 2 && change == -1 then s.closing + {s.loop[r].det} else s.closing)
    requires change == -1 || (change == -2 && s.detfifo[i].refcount == 2)
    ensures var d := s.detfifo[i := s.detfifo[i].(refcount := s.detfifo[i].refcount + change)];
      Counts(s.(loop := Without(s.loop, r), detfifo := d, closing := closing))
  {
    hide Holders, Known;
    Recounted(s.detfifo, i, change, s.entered);
    var d := s.detfifo[i := s.detfifo[i].(refcount := s.detfifo[i].refcount + change)];
    var s' := s.(loop := Without(s.loop, r), detfifo := d, closing := closing);
    forall j | 0 <= j < |d| ensures CountOk(s', d[j]) {
      assert CountOk(s, s.detfifo[j]);
      HoldersWithout(s.loop, r, d[j].id);
    }
    forall q | 0 <= q < |s'.loop| ensures Known(d, s'.loop[q].det) {
      assert s'.loop[q] == s.loop[if q < r then q else q + 1];
    }
  }

  lemma {:induction false} ReturnKeeps(s: State, r: nat)
    requires Core(s) && r < |s.loop|
    ensures Next(s, Return(r)).Some? && Core(Next(s, Return(r)).value)
  {
    hide Counts, CheckBusy, PopSpent, Find, Recount, CountAt;
    InLoop(s, r);
    if !s.loop[r].back {
      GiveUp(s, r, true);
      var change := if CountAt(s.detfifo, s.loop[r].det) == 2 then -2 else -1;
      var fewer := s.(loop := Without(s.loop, r), detfifo := Recount(s.detfifo, s.loop[r].det, 2, change).value);
      var left := fewer.(out := s.out + [Left(s.loop[r].det, s.loop[r].outer)]);
      CountsSame(fewer, left);
      PopKeeps(left);
      if s.ending.Draining? { ConcludeKeeps(left.(detfifo := PopSpent(left.detfifo))); }
    }
  }

  /** While a record is in the loop, the loop has not terminated. */
  lemma {:induction false} InLoop(s: State, r: nat)
    requires Core(s) && r < |s.loop|
    ensures !s.ending.Terminated?
  {
    var i := DetThere(s, r);
  }

  lemma {:induction false} LoseKeeps(s: State, r: nat)
    requires Core(s) && r < |s.loop| && InUse(s.counts, s.loop[r].outer)
    ensures Next(s, Lose(r)).Some? && Core(Next(s, Lose(r)).value)
  {
    hide Holders, InUse, Dropped, LastOf;
    var i := DetThere(s, r);
    GiveUp(s, r, false);
    var d := Recount(s.detfifo, s.loop[r].det, 2, -1).value;
    var lost := s.(loop := Without(s.loop, r), detfifo := d,
                   closing := if CountAt(d, s.loop[r].det) == 1 then s.closing + {s.loop[r].det} else s.closing);
    CountsSame(lost, Next(s, Lose(r)).value);
  }

  lemma {:induction false} SpawnKeeps(s: State, r: nat)
    requires Core(s) && r < |s.loop|
    ensures Next(s, Spawn(r)).Some? && Core(Next(s, Spawn(r)).value)
  {
    hide Holders;
    var i := DetThere(s, r);
    Recounted(s.detfifo, i, 1, s.entered);
    var s' := Next(s, Spawn(r)).value;
    forall j | 0 <= j < |s'.detfifo| ensures CountOk(s', s'.detfifo[j]) {
      assert CountOk(s, s.detfifo[j]);
      HoldersAppend(s.loop, s.loop[r], s'.detfifo[j].id);
    }
  }

  lemma {:induction false} ChangeKeeps(s: State, r: nat, back: bool)
    requires Core(s) && r < |s.loop|
    ensures Next(s, Change(r, back)).Some? && Core(Next(s, Change(r, back)).value)
  {
    hide Holders;
    var s' := Next(s, Change(r, back)).value;
    forall j | 0 <= j < |s'.detfifo| ensures CountOk(s', s'.detfifo[j]) {
      assert CountOk(s, s.detfifo[j]);
      HoldersChange(s.loop, r, back, s.detfifo[j].id);
    }
  }

  lemma {:induction false} AnnounceKeeps(s: State, id: nat)
    requires Core(s) && id in s.closing
    ensures Next(s, Announce(id)).Some? && Core(Next(s, Announce(id)).value)
  {
    hide Holders;
    FindKnown(s.detfifo, id);
    var i := Find(s.detfifo, id).value;
    assert CountOk(s, s.detfifo[i]);
    Recounted(s.detfifo, i, -1, s.entered);
    var s' := Next(s, Announce(id)).value;
    forall j | 0 <= j < |s'.detfifo| ensures CountOk(s', s'.detfifo[j]) {
      assert CountOk(s, s.detfifo[j]);
    }
  }

  lemma {:induction false} ElsewhereKeeps(s: State, step: Step)
    requires Core(s) && Enabled(s, step) && (step.TakeForeign? || step.OuterNew? || step.OuterCopy? || step.OuterDrop?)
    ensures Next(s, step).Some? && Core(Next(s, step).value)
  {
    hide Counts, Copied, Dropped, LastOf, Here;
    CountsSame(s, Next(s, step).value);
  }

  // ---------- holders of outer detrefs ----------

  /** The counters of what a record in the loop holds are at least two. */
  lemma {:induction false} HeldInUse(s: State, r: nat)
    requires OuterOk(s) && r < |s.loop|
    ensures InUse(s.counts, s.loop[r].outer)
  {
    forall d | d in s.loop[r].outer ensures d in s.counts && s.counts[d] >= 2 {
      HoldingHas(Stacks(s.loop), r, d);
      assert Here(s, d) > 0;
    }
  }

  /** A step of the return landing: no record holds more, and no announcement moves. */
  ghost predicate NoNewHolders(s: State, s': State) {
    && s'.counts == s.counts && s'.foreign == s.foreign && s'.lost == s.lost && s'.sent == s.sent
    && forall d :: Here(s', d) <= Here(s, d)
  }

  lemma {:induction false} NoNewKeeps(s: State, s': State)
    requires OuterOk(s) && NoNewHolders(s, s')
    ensures OuterOk(s')
  {
    hide Here;
  }

  lemma {:induction false} ReturnMoves(s: State, step: Step)
    requires Enabled(s, step) && Next(s, step).Some? && step.Return?
    ensures NoNewHolders(s, Next(s, step).value)
  {
    hide PopSpent, Recount, CountAt, Find, Holding;
    var r, s' := step.rec, Next(s, step).value;
    if s.loop[r].back {
      assert Stacks(s'.loop) == Stacks(s.loop);
    } else {
      assert Stacks(s'.loop) == Without(Stacks(s.loop), r);
      forall d: nat ensures Here(s', d) <= Here(s, d) { HoldingWithout(Stacks(s.loop), r, d); }
    }
  }

  lemma {:induction false} LandingMoves(s: State, step: Step)
    requires Enabled(s, step) && Next(s, step).Some?
    requires step.Close? || step.TakeLastCall? || step.TakeNotice? || step.Announce? || step.Change?
    ensures NoNewHolders(s, Next(s, step).value)
  {
    hide PopSpent, Recount, CountAt, Find, Holding;
    assert Stacks(Next(s, step).value.loop) == Stacks(s.loop);
  }

  lemma {:induction false} OuterKeeps(s: State, step: Step)
    requires OuterOk(s) && Enabled(s, step) && Next(s, step).Some?
    ensures OuterOk(Next(s, step).value)
  {
    hide OuterOk, Next, Enabled, NoNewHolders;
    match step
    case Enter(_, _) => HoldersMove(s, step);
    case Spawn(_) => HoldersMove(s, step);
    case Lose(_) => HoldersMove(s, step);
    case TakeForeign(_) => OtherMoves(s, step);
    case OuterNew(_) => OtherMoves(s, step);
    case OuterCopy(_) => OtherMoves(s, step);
    case OuterDrop(_) => OtherMoves(s, step);
    case _ =>
      if step.Return? { ReturnMoves(s, step); } else { LandingMoves(s, step); }
      NoNewKeeps(s, Next(s, step).value);
  }

  lemma {:induction false} HoldersMove(s: State, step: Step)
    requires OuterOk(s) && Enabled(s, step) && Next(s, step).Some? && (step.Enter? || step.Spawn? || step.Lose?)
    ensures OuterOk(Next(s, step).value)
  {
    hide PopSpent, Recount, CountAt, Find, Holding;
    var s' := Next(s, step).value;
    if !step.Enter? { HeldInUse(s, step.rec); }
    forall d: nat ensures Here(s', d) > 0 ==> CountOf(s'.counts, d) >= Here(s', d) + 1 {
      assert Here(s, d) > 0 ==> CountOf(s.counts, d) >= Here(s, d) + 1;
      if step.Lose? {
        assert Stacks(s'.loop) == Without(Stacks(s.loop), step.rec);
        HoldingWithout(Stacks(s.loop), step.rec, d);
      } else if step.Enter? && !step.back {
        assert s'.loop == s.loop && s'.counts == s.counts;
      } else {
        var rec := s'.loop[|s.loop|];
        assert Stacks(s'.loop) == Stacks(s.loop) + [rec.outer];
        HoldingAppend(Stacks(s.loop), rec.outer, d);
      }
    }
  }

  lemma {:induction false} OtherMoves(s: State, step: Step)
    requires OuterOk(s) && Enabled(s, step) && Next(s, step).Some?
    requires step.TakeForeign? || step.OuterNew? || step.OuterCopy? || step.OuterDrop?
    ensures OuterOk(Next(s, step).value)
  {
    hide Holding;
    var s' := Next(s, step).value;
    forall d: nat ensures Here(s', d) > 0 ==> CountOf(s'.counts, d) >= Here(s', d) + 1 {
      assert Here(s, d) > 0 ==> CountOf(s.counts, d) >= Here(s, d) + 1;
    }
  }

  // ---------- whole steps ----------

  lemma {:induction false} StepKeepsInv(s: State, step: Step)
    requires Inv(s) && Enabled(s, step)
    ensures Next(s, step).Some? && Inv(Next(s, step).value)
  {
    hide Core, OuterOk, Next;
    CoreKeeps(s, step);
    OuterKeeps(s, step);
  }

  lemma {:induction false} CoreKeeps(s: State, step: Step)
    requires Inv(s) && Enabled(s, step)
    ensures Next(s, step).Some? && Core(Next(s, step).value)
  {
    hide Core, OuterOk, Next;
    match step
    case Enter(back, outer) => EnterKeeps(s, back, outer);
    case Close => CloseKeeps(s);
    case TakeLastCall => TakeLastCallKeeps(s);
    case Return(r) => ReturnKeeps(s, r);
    case TakeNotice => TakeNoticeKeeps(s);
    case Change(r, back) => ChangeKeeps(s, r, back);
    case Spawn(r) => SpawnKeeps(s, r);
    case Lose(r) =>
      HeldInUse(s, r);
      LoseKeeps(s, r);
    case Announce(id) => AnnounceKeeps(s, id);
    case _ => ElsewhereKeeps(s, step);
  }

  /** Between two messages the loop is never about to terminate. */
  lemma {:induction false} NotTerminating(s: State)
    requires Inv(s)
    ensures Conclude(s) == s
  {
  }

  // ---------- whole runs ----------

  function Start(): State {
    State(0, false, false, [], Initial, 0, [], {}, 0, [], map[], {}, {}, {})
  }

  predicate Feasible(s: State, steps: seq<Step>)
    decreases |steps|
  {
    |steps| == 0 ||
    (Enabled(s, steps[0]) && (Next(s, steps[0]).Some? ==> Feasible(Next(s, steps[0]).value, steps[1..])))
  }

  function Run(s: State, steps: seq<Step>): Option<State>
    requires Feasible(s, steps)
    decreases |steps|
  {
    if |steps| == 0 then Some(s)
    else match Next(s, steps[0])
      case None => None
      case Some(s') => Run(s', steps[1..])
  }

  lemma {:induction false} RunIsSafe(s: State, steps: seq<Step>)
    requires Inv(s) && Feasible(s, steps)
    ensures Run(s, steps).Some? && Inv(Run(s, steps).value)
    decreases |steps|
  {
    hide Core, OuterOk, Next, Enabled;
    if |steps| > 0 {
      StepKeepsInv(s, steps[0]);
      RunIsSafe(Next(s, steps[0]).value, steps[1..]);
    }
  }

  /** On every run: all checks hold, so in particular no data record reaches the return
      landing after it has terminated; the loop ends at most once, only after the access
      landing has closed, and with no record in it; and it does end once the access
      landing has closed and nothing is under way any more. */
  lemma {:induction false} EndsOnce(steps: seq<Step>)
    requires Feasible(Start(), steps)
    ensures Run(Start(), steps).Some?
    ensures var s := Run(Start(), steps).value;
      && s.ends <= 1 && (s.ending.Terminated? <==> s.ends == 1)
      && (s.ending.Terminated? ==> s.closed && s.detfifo == [] && s.loop == [])
      && (s.closed && s.entered > 0 && !s.lastCall && s.loop == [] && s.closing == {} && s.notices == 0 ==> s.ending.Terminated?)
  {
    hide Feasible, Run, Next, Enabled, Holders;
    StartInv();
    RunIsSafe(Start(), steps);
    AtTheEnd(Run(Start(), steps).value);
  }

  lemma {:induction false} AtTheEnd(s: State)
    requires Inv(s)
    ensures s.ending.Terminated? ==> s.loop == []
    ensures s.loop == [] && s.closing == {} && s.notices == 0 ==> s.detfifo == []
  {
    if s.loop != [] { InLoop(s, 0); }
    assert s.detfifo == [] || CountOk(s, s.detfifo[0]);
  }

  /** The end is final: once the loop has terminated it stays so. */
  lemma {:induction false} EndIsFinal(s: State, step: Step)
    requires Inv(s) && Enabled(s, step) && s.ending.Terminated?
    ensures Next(s, step).Some? && Next(s, step).value.ending.Terminated? && Next(s, step).value.ends == s.ends
    ensures !step.Return? && !step.Enter?
  {
    StepKeepsInv(s, step);
    AtTheEnd(s);
  }

  // ---------- nothing is lost or doubled ----------

  /** A record that comes back goes round again, with nothing changed, exactly when it matches;
      otherwise it leaves, once, and gives up its detref. */
  lemma {:induction false} ReturnDecides(s: State, r: nat)
    requires Inv(s) && r < |s.loop|
    ensures Next(s, Return(r)).Some?
    ensures var s' := Next(s, Return(r)).value;
      && (s.loop[r].back ==> s' == s)
      && (!s.loop[r].back ==>
            && s'.loop == Without(s.loop, r) && s'.out == s.out + [Left(s.loop[r].det, s.loop[r].outer)]
            && Inv(s') && Holders(s'.loop, s.loop[r].det) == Holders(s.loop, s.loop[r].det) - 1)
  {
    hide Core, OuterOk, Holders, PopSpent, Find, Recount, CountAt;
    StepKeepsInv(s, Return(r));
    InLoop(s, r);
    NotTerminating(s);
    HoldersWithout(s.loop, r, s.loop[r].det);
  }

  /** Where a record is: in the loop, with its detref and outer detrefs, or gone out. */
  datatype Fate = In(det: nat, outer: set<nat>) | Out(gone: Gone)

  function Looping(loop: seq<LoopRec>): seq<Fate> { seq(|loop|, i requires 0 <= i < |loop| => In(loop[i].det, loop[i].outer)) }

  function PutOut(out: seq<Gone>): seq<Fate> { seq(|out|, i requires 0 <= i < |out| => Out(out[i])) }

  function Present(s: State): multiset<Fate> { multiset(Looping(s.loop)) + multiset(PutOut(s.out)) }

  /** What a step adds: a record from outside, one created in the loop, and one that has gone
      out because it did not match at the return. */
  function Comes(s: State, step: Step): multiset<Fate>
    requires Enabled(s, step)
  {
    match step
    case Enter(back, outer) => multiset{if back then In(s.entered, outer) else Out(Bypassed(outer))}
    case Spawn(r) => multiset{In(s.loop[r].det, s.loop[r].outer)}
    case Return(r) => if s.loop[r].back then multiset{} else multiset{Out(Left(s.loop[r].det, s.loop[r].outer))}
    case _ => multiset{}
  }

  /** What a step takes from the loop: a record destroyed, or one that did not match at the return. */
  function Goes(s: State, step: Step): multiset<Fate>
    requires Enabled(s, step)
  {
    match step
    case Lose(r) => multiset{In(s.loop[r].det, s.loop[r].outer)}
    case Return(r) => if s.loop[r].back then multiset{} else multiset{In(s.loop[r].det, s.loop[r].outer)}
    case _ => multiset{}
  }

  lemma {:induction false} LoopMore(loop: seq<LoopRec>, rec: LoopRec)
    ensures multiset(Looping(loop + [rec])) == multiset(Looping(loop)) + multiset{In(rec.det, rec.outer)}
  {
    assert Looping(loop + [rec]) == Looping(loop) + [In(rec.det, rec.outer)];
  }

  lemma {:induction false} LoopWithout(loop: seq<LoopRec>, r: nat)
    requires r < |loop|
    ensures multiset(Looping(loop)) == multiset(Looping(Without(loop, r))) + multiset{In(loop[r].det, loop[r].outer)}
  {
    assert Looping(Without(loop, r)) == Without(Looping(loop), r);
    WithoutOne(Looping(loop), r);
  }

  lemma {:induction false} LoopSame(loop: seq<LoopRec>, r: nat, back: bool)
    requires r < |loop|
    ensures Looping(loop[r := loop[r].(back := back)]) == Looping(loop)
  {
  }

  lemma {:induction false} OutMore(out: seq<Gone>, gone: Gone)
    ensures multiset(PutOut(out + [gone])) == multiset(PutOut(out)) + multiset{Out(gone)}
  {
    assert PutOut(out + [gone]) == PutOut(out) + [Out(gone)];
  }

  /** The other steps leave all records where they are. */
  lemma {:induction false} NothingMoves(s: State, step: Step)
    requires Enabled(s, step) && Next(s, step).Some?
    requires !step.Enter? && !step.Spawn? && !step.Change? && !step.Lose? && !step.Return?
    ensures Next(s, step).value.loop == s.loop && Next(s, step).value.out == s.out
  {
    hide PopSpent, Find, Recount, CountAt, Here, Copied, Dropped, LastOf, InUse, Elsewhere;
  }

  /** A record more in the loop, or one less. */
  lemma {:induction false} LoopBalance(s: State, step: Step)
    requires Enabled(s, step) && Next(s, step).Some? && (step.Spawn? || step.Lose?)
    ensures Present(Next(s, step).value) + Goes(s, step) == Present(s) + Comes(s, step)
  {
    hide PopSpent, Find, Recount, CountAt, Looping, PutOut, Here, Copied, Dropped, LastOf, InUse, Elsewhere;
    match step
    case Spawn(r) => LoopMore(s.loop, s.loop[r]);
    case Lose(r) => LoopWithout(s.loop, r);
  }

  lemma {:induction false} EnterBalance(s: State, step: Step)
    requires Enabled(s, step) && Next(s, step).Some? && (step.Enter? || step.Change?)
    ensures Present(Next(s, step).value) + Goes(s, step) == Present(s) + Comes(s, step)
  {
    hide Looping, PutOut, Here, Elsewhere;
    match step
    case Enter(back, outer) =>
      if back { LoopMore(s.loop, LoopRec(s.entered, back, outer)); } else { OutMore(s.out, Bypassed(outer)); }
    case Change(r, back) => LoopSame(s.loop, r, back);
  }

  lemma {:induction false} ReturnBalance(s: State, r: nat)
    requires Inv(s) && r < |s.loop|
    ensures Next(s, Return(r)).Some?
    ensures Present(Next(s, Return(r)).value) + Goes(s, Return(r)) == Present(s) + Comes(s, Return(r))
  {
    hide Core, OuterOk, Holders, Next, Looping, PutOut;
    ReturnDecides(s, r);
    if !s.loop[r].back {
      LoopWithout(s.loop, r);
      OutMore(s.out, Left(s.loop[r].det, s.loop[r].outer));
    }
  }

  lemma {:induction false} StepBalance(s: State, step: Step)
    requires Inv(s) && Enabled(s, step) && Next(s, step).Some?
    ensures Present(Next(s, step).value) + Goes(s, step) == Present(s) + Comes(s, step)
  {
    hide Core, OuterOk, Next, Looping, PutOut;
    if step.Enter? || step.Change? {
      EnterBalance(s, step);
    } else if step.Spawn? || step.Lose? {
      LoopBalance(s, step);
    } else if step.Return? {
      ReturnBalance(s, step.rec);
    } else {
      NothingMoves(s, step);
    }
  }

  /** All that comes, or goes, on a run. */
  function AllComes(s: State, steps: seq<Step>): multiset<Fate>
    requires Feasible(s, steps)
    decreases |steps|
  {
    if |steps| == 0 then multiset{}
    else Comes(s, steps[0]) + if Next(s, steps[0]).Some? then AllComes(Next(s, steps[0]).value, steps[1..]) else multiset{}
  }

  function AllGoes(s: State, steps: seq<Step>): multiset<Fate>
    requires Feasible(s, steps)
    decreases |steps|
  {
    if |steps| == 0 then multiset{}
    else Goes(s, steps[0]) + if Next(s, steps[0]).Some? then AllGoes(Next(s, steps[0]).value, steps[1..]) else multiset{}
  }

  lemma {:induction false} RunBalance(s: State, steps: seq<Step>)
    requires Inv(s) && Feasible(s, steps)
    ensures Run(s, steps).Some?
    ensures Present(Run(s, steps).value) + AllGoes(s, steps) == Present(s) + AllComes(s, steps)
    decreases |steps|
  {
    hide Core, OuterOk, Next, Enabled, Present, Comes, Goes;
    if |steps| > 0 {
      StepKeepsInv(s, steps[0]);
      var s' := Next(s, steps[0]).value;
      StepBalance(s, steps[0]);
      RunBalance(s', steps[1..]);
      BalanceOn(Present(s), Comes(s, steps[0]), Goes(s, steps[0]), Present(s'),
                AllComes(s', steps[1..]), AllGoes(s', steps[1..]), Present(Run(s, steps).value));
    }
  }

  /** On every run: a record from outside that does not match has gone out, once; one that
      matches, or was created in the loop, is in the loop with its detrefs, unless it was
      destroyed or came back without matching, and then it has gone out, once. */
  lemma {:induction false} NothingLost(steps: seq<Step>)
    requires Feasible(Start(), steps)
    ensures Run(Start(), steps).Some?
    ensures Present(Run(Start(), steps).value) + AllGoes(Start(), steps) == AllComes(Start(), steps)
  {
    hide Feasible, Run, AllComes, AllGoes;
    StartInv();
    RunBalance(Start(), steps);
    assert Looping([]) == [] && PutOut([]) == [];
  }

  // ---------- the end can always be reached ----------

  /** Nothing is under way any more. */
  predicate Quiet(s: State) {
    s.closed && !s.lastCall && s.loop == [] && s.closing == {} && s.notices == 0
  }

  /** The next step on the way to the end: the access landing closes; the records of the loop stop
      matching, one by one, and leave; announcements are sent and handled; then the last call. */
  ghost function Onward(s: State): Step
    requires !Quiet(s)
  {
    if !s.closed then Close
    else if s.loop != [] then (if s.loop[0].back then Change(0, false) else Return(0))
    else if s.closing != {} then (var d :| d in s.closing; Announce(d))
    else if s.notices > 0 then TakeNotice
    else TakeLastCall
  }

  /** With an empty loop: less on its way. */
  ghost predicate Less(s: State, s': State) {
    && s'.loop == []
    && if s.closing != {} then |s'.closing| < |s.closing|
      else s'.closing == {} && if s.notices > 0 then s'.notices < s.notices else s'.notices == 0 && s.lastCall && !s'.lastCall
  }

  lemma {:induction false} OnwardInLoop(s: State)
    requires Inv(s) && s.closed && s.loop != []
    ensures Next(s, Onward(s)).Some?
    ensures var s' := Next(s, Onward(s)).value;
      s'.closed && if s.loop[0].back then |s'.loop| == |s.loop| && !s'.loop[0].back else |s'.loop| < |s.loop|
  {
    hide Core, OuterOk, PopSpent, Find, Recount, CountAt, Holders;
    if !s.loop[0].back { ReturnDecides(s, 0); }
  }

  lemma {:induction false} OnwardOutside(s: State)
    requires Inv(s) && !Quiet(s) && s.closed && s.loop == [] && Next(s, Onward(s)).Some?
    ensures Next(s, Onward(s)).value.closed && Less(s, Next(s, Onward(s)).value)
  {
    hide Core, OuterOk, PopSpent, Find, Recount, CountAt, Holders;
  }

  lemma {:induction false} OnwardSteps(s: State)
    requires Inv(s) && !Quiet(s)
    ensures Enabled(s, Onward(s)) && Next(s, Onward(s)).Some?
    ensures var s' := Next(s, Onward(s)).value;
      && s'.closed
      && (s.closed && s.loop != [] ==> |s'.loop| < |s.loop| || (|s'.loop| == |s.loop| && s.loop[0].back && !s'.loop[0].back))
      && (s.closed && s.loop == [] ==> Less(s, s'))
  {
    hide Core, OuterOk, PopSpent, Find, Recount, CountAt, Holders, Next;
    StepKeepsInv(s, Onward(s));
    if !s.closed {
      ClosesAtOnce(s);
    } else if s.loop != [] {
      OnwardInLoop(s);
    } else {
      OnwardOutside(s);
    }
  }

  lemma {:induction false} ClosesAtOnce(s: State)
    requires Enabled(s, Close) && Next(s, Close).Some?
    ensures Next(s, Close).value.closed
  {
  }

  /** These steps, among which no record comes from outside and none is destroyed, lead to the end. */
  ghost predicate Ends(s: State, steps: seq<Step>) {
    && (forall i :: 0 <= i < |steps| ==> !steps[i].Enter? && !steps[i].Lose?)
    && Feasible(s, steps) && Run(s, steps).Some?
    && var s' := Run(s, steps).value;
      s'.closed && s'.loop == [] && s'.detfifo == [] && (s'.entered > 0 ==> s'.ending.Terminated?)
  }

  lemma {:induction false} EndsAfter(s: State, step: Step, rest: seq<Step>)
    requires Enabled(s, step) && Next(s, step).Some? && !step.Enter? && !step.Lose? && Ends(Next(s, step).value, rest)
    ensures Ends(s, [step] + rest)
  {
    hide Next, Enabled;
    assert ([step] + rest)[1..] == rest;
  }

  /** From every state of the loop its end can be reached, with no record lost: all of them leave,
      and the loop terminates if any record ever entered. */
  lemma {:induction false} CanEnd(s: State)
    requires Inv(s)
    ensures exists steps :: Ends(s, steps)
    decreases !s.closed, |s.loop|, s.loop != [] && s.loop[0].back, |s.closing|, s.notices, s.lastCall
  {
    hide Core, OuterOk, Next, Enabled, Ends;
    if Quiet(s) {
      QuietEnded(s);
    } else {
      OnwardSteps(s);
      StepKeepsInv(s, Onward(s));
      CanEnd(Next(s, Onward(s)).value);
      var rest :| Ends(Next(s, Onward(s)).value, rest);
      EndsAfter(s, Onward(s), rest);
    }
  }

  lemma {:induction false} QuietEnded(s: State)
    requires Inv(s) && Quiet(s)
    ensures Ends(s, [])
  {
    AtTheEnd(s);
  }

  // ---------- announcements of outer networks ----------

  /** The record that is destroyed in the loop is the last holder of an outer detref, here or elsewhere. */
  ghost predicate LosesLast(s: State, step: Step, d: nat)
    requires Enabled(s, step)
  {
    step.Lose? && d in s.loop[step.rec].outer && Here(s, d) == 1 && Elsewhere(s, d) == 0
  }

  ghost predicate LosesLastIn(s: State, steps: seq<Step>, d: nat)
    requires Feasible(s, steps)
    decreases |steps|
  {
    |steps| > 0 && (LosesLast(s, steps[0], d) || (Next(s, steps[0]).Some? && LosesLastIn(Next(s, steps[0]).value, steps[1..], d)))
  }

  /** An announcement comes up inside the loop exactly where a last holder is destroyed. */
  lemma {:induction false} ForeignStep(s: State, step: Step, d: nat)
    requires OuterOk(s) && Enabled(s, step) && Next(s, step).Some?
    ensures var s' := Next(s, step).value;
      d in s'.foreign + s'.lost <==> d in s.foreign + s.lost || LosesLast(s, step, d)
  {
    hide PopSpent, Recount, CountAt, Find, Holding;
    if step.Lose? && d in s.loop[step.rec].outer {
      HoldingHas(Stacks(s.loop), step.rec, d);
      assert Here(s, d) > 0;
    }
  }

  lemma {:induction false} ForeignRun(s: State, steps: seq<Step>, d: nat)
    requires Inv(s) && Feasible(s, steps)
    ensures Run(s, steps).Some? && Inv(Run(s, steps).value)
    ensures var s' := Run(s, steps).value;
      d in s'.foreign + s'.lost <==> d in s.foreign + s.lost || LosesLastIn(s, steps, d)
    decreases |steps|
  {
    hide Core, OuterOk, Next, Enabled, LosesLast;
    if |steps| > 0 {
      StepKeepsInv(s, steps[0]);
      ForeignStep(s, steps[0], d);
      ForeignRun(Next(s, steps[0]).value, steps[1..], d);
    }
  }

  /** An outer detref that no record holds any more has been announced. The announcement goes
      on to its collector if and only if its last holder was not destroyed in this loop:
      otherwise it is still inside the loop, or the return landing has dropped it, and however
      the run goes on it is never sent. */
  lemma {:induction false} DeliveredExactly(steps: seq<Step>, d: nat)
    requires Feasible(Start(), steps)
    ensures Run(Start(), steps).Some?
    ensures var s := Run(Start(), steps).value;
      && (LosesLastIn(Start(), steps, d) ==> d in s.foreign + s.lost && d !in s.sent)
      && (d in s.counts && s.counts[d] == 0 ==> (d in s.sent <==> !LosesLastIn(Start(), steps, d)))
  {
    hide Feasible, Run, Next, Enabled, LosesLastIn;
    StartInv();
    ForeignRun(Start(), steps, d);
  }

  lemma {:induction false} StartInv()
    ensures Inv(Start()) && Start().foreign == Start().lost == {}
  {
    assert Stacks([]) == [];
  }

  const LOSING: seq<Step> := [OuterNew(7), Enter(true, {7}), Lose(0), TakeForeign(7)]

  const S1 := Start().(counts := map[7 := 2])
  const S2 := S1.(entered := 1, detfifo := [Det(0, 2)], loop := [LoopRec(0, true, {7})])
  const S3 := S2.(loop := [], detfifo := [Det(0, 1)], closing := {0}, counts := map[7 := 0], foreign := {7})
  const S4 := S3.(foreign := {}, lost := {7})

  lemma {:induction false} SevenEnters()
    ensures Enabled(Start(), OuterNew(7)) && Next(Start(), OuterNew(7)) == Some(S1)
    ensures Enabled(S1, Enter(true, {7})) && Next(S1, Enter(true, {7})) == Some(S2)
  {
    hide PopSpent, Recount, CountAt, Find, Copied, Dropped, LastOf, InUse;
    assert Stacks([]) == [] && Holding([], 7) == 0;
    assert Elsewhere(S1, 7) == 1;
    forall d: nat | d in {7} ensures Elsewhere(S1, d) >= 1 { assert d == 7; }
    assert S1.detfifo + [Det(0, 2)] == [Det(0, 2)] && S1.loop + [LoopRec(0, true, {7})] == [LoopRec(0, true, {7})];
  }

  lemma {:induction false} SevenIsLost()
    ensures Enabled(S2, Lose(0)) && Next(S2, Lose(0)) == Some(S3) && LosesLast(S2, Lose(0), 7)
    ensures Enabled(S3, TakeForeign(7)) && Next(S3, TakeForeign(7)) == Some(S4)
  {
    hide PopSpent, Copied, Holding, Dropped, LastOf, InUse;
    LastSeven();
    assert Without(S2.loop, 0) == [];
    assert S2.detfifo[0 := Det(0, 1)] == [Det(0, 1)];
    assert Find(S2.detfifo, 0) == Some(0) && Find([Det(0, 1)], 0) == Some(0);
    assert S2.foreign + {7} == {7} && S2.closing + {0} == {0};
    assert S3.foreign - {7} == {} && S3.lost + {7} == {7};
  }

  lemma {:induction false} LastSeven()
    ensures LastOf(map[7 := 2], {7}) == {7} && Dropped(map[7 := 2], {7}) == map[7 := 0] && InUse(map[7 := 2], {7})
    ensures Here(S2, 7) == 1 && Elsewhere(S2, 7) == 0
  {
    assert Stacks(S2.loop) == [{7}] && [{7}][..0] == [] && Holding([], 7) == 0;
  }

  /** One record with an outer detref that no other record holds enters the loop and is
      destroyed there: its announcement is dropped, and the outer collector waits for ever. */
  lemma {:induction false} OuterNoticeLost()
    ensures Feasible(Start(), LOSING) && Run(Start(), LOSING) == Some(S4) && LosesLastIn(Start(), LOSING, 7)
    ensures S4.counts[7] == 0 && 7 in S4.lost && S4.sent == {}
  {
    hide Next, Enabled, LosesLast;
    SevenEnters();
    SevenIsLost();
    assert LOSING[1..] == [Enter(true, {7}), Lose(0), TakeForeign(7)];
    assert [Enter(true, {7}), Lose(0), TakeForeign(7)][1..] == [Lose(0), TakeForeign(7)];
    assert [Lose(0), TakeForeign(7)][1..] == [TakeForeign(7)] && [TakeForeign(7)][1..] == [];
    assert Feasible(S4, []) && Run(S4, []) == Some(S4);
    assert Feasible(S3, [TakeForeign(7)]) && Run(S3, [TakeForeign(7)]) == Some(S4);
    assert Feasible(S2, [Lose(0), TakeForeign(7)]) && Run(S2, [Lose(0), TakeForeign(7)]) == Some(S4);
    assert LosesLastIn(S2, [Lose(0), TakeForeign(7)], 7);
    assert Feasible(S1, LOSING[1..]) && Run(S1, LOSING[1..]) == Some(S4) && LosesLastIn(S1, LOSING[1..], 7);
  }
}
