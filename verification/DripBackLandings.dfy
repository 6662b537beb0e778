/** The code of the two landings of a deterministic feedback loop. */
module DripBackLandings {
  import opened Options
  import opened OuterDetrefs
  import opened DripBack

  class Landings {
    // the access landing
    var arrived: nat
    var uncounted: bool
    var unwoken: bool
    var connected: bool
    var closed: bool
    // shared by both
    var recfifo: seq<Item>
    var queued: nat
    var control: seq<Control>
    // the control landing
    var phase: Phase
    var ending: Ending
    var detfifo: seq<Det>
    var current: nat
    var out: seq<nat>
    // the loop
    var loop: seq<LoopRec>
    var closing: bool
    var notices: nat
    // the counters of outer networks' detrefs, and announcements of theirs inside the loop
    var counts: map<nat, nat>
    var foreign: set<nat>

    ghost function Sys(): State
      reads this
    {
      State(arrived, uncounted, unwoken, connected, closed, recfifo, queued, control,
            phase, ending, detfifo, current, out, loop, closing, notices, counts, foreign)
    }

    ghost predicate Valid()
      reads this
    {
      Inv(Sys())
    }

    constructor ()
      ensures Valid() && Sys() == Start()
    {
      arrived, uncounted, unwoken, connected, closed := 0, false, false, false, false;
      recfifo, queued, control := [], 0, [];
      phase, ending, detfifo, current, out := Idle, Initial, [], 0, [];
      loop, closing, notices := [], false, 0;
      counts, foreign := map[], {};
    }

    /** The access landing queues what comes from outside. */
    method PutRecord(back: bool, outer: set<nat>)
      requires Valid() && Enabled(Sys(), Put(back, outer))
      modifies this
      ensures Valid() && Next(old(Sys()), Put(back, outer)) == Some(Sys())
    {
      hide Inv;
      StepKeepsInv(Sys(), Put(back, outer));
      recfifo := recfifo + [Data(arrived, back, outer)];
      arrived, uncounted := arrived + 1, true;
    }

    /** ... counts it, and tells whether the count was zero. */
    method CountRecord() returns (wake: bool)
      requires Valid() && Enabled(Sys(), Count)
      modifies this
      ensures Valid() && Next(old(Sys()), Count) == Some(Sys())
      ensures wake == unwoken == (old(queued) == 0)
    {
      hide Inv;
      StepKeepsInv(Sys(), Count);
      wake := queued == 0;
      queued := queued + 1;
      uncounted, unwoken := false, wake;
    }

    /** ... and if so wakes the control landing. */
    method WakeControl()
      requires Valid() && Enabled(Sys(), Wake)
      modifies this
      ensures Valid() && Next(old(Sys()), Wake) == Some(Sys())
    {
      hide Inv;
      StepKeepsInv(Sys(), Wake);
      connected := true;
      control := control + [Wakeup];
      unwoken := false;
    }

    /** A record from outside at the access landing, undisturbed. */
    method Access(back: bool, outer: set<nat>)
      requires Valid() && Enabled(Sys(), Put(back, outer))
      modifies this
      ensures Valid() && !uncounted && !unwoken
      ensures recfifo == old(recfifo) + [Data(old(arrived), back, outer)] && queued == old(queued) + 1
      ensures control == (if old(queued) == 0 then old(control) + [Wakeup] else old(control))
      ensures phase == old(phase) && detfifo == old(detfifo) && loop == old(loop) && out == old(out)
    {
      hide Inv;
      PutRecord(back, outer);
      var wake := CountRecord();
      if wake {
        WakeControl();
      }
    }

    /** Pop detrefs that are no longer in use. */
    method CheckBusyLoop() returns (busy: bool)
      modifies this`detfifo
      ensures detfifo == CheckBusy(old(detfifo)) && busy == (detfifo != [])
    {
      while detfifo != [] && detfifo[0].refcount <= 0
        invariant CheckBusy(detfifo) == CheckBusy(old(detfifo))
        decreases |detfifo|
      {
        detfifo := detfifo[1..];
      }
      busy := detfifo != [];
    }

    /** Handle a record from outside: into the loop, or out. */
    method AdmitRecord(item: Item)
      requires Admit(Sys(), item).Some?
      modifies this`out, this`detfifo, this`loop
      ensures Admit(old(Sys()), item) == Some(Sys())
    {
      match item {
        case Data(id, back, outer) =>
          if back {
            detfifo := [Det(id, 2)] + detfifo;
            assert detfifo == [Det(id, 2)];
            loop := loop + [LoopRec(id, back, outer)];
          } else {
            out := out + [id];
          }
        case OuterNotice(id) => out := out + [id];
      }
    }

    /** Take the next queued record and handle it. */
    method TakeQueued()
      requires TakeNext(Sys()).Some?
      modifies this`recfifo, this`current, this`out, this`detfifo, this`loop
      ensures TakeNext(old(Sys())) == Some(Sys())
    {
      hide Admit;
      var rec := recfifo[0];
      recfifo, current := recfifo[1..], rec.id;
      AdmitRecord(rec);
    }

    /** One round of going on with queued records. */
    method GoOnRound() returns (more: bool)
      requires Proceed(Sys()).Some?
      modifies this`recfifo, this`queued, this`phase, this`detfifo, this`current, this`out, this`loop
      ensures more ==> Proceed(old(Sys())) == Proceed(Sys()) && |recfifo| < old(|recfifo|)
      ensures !more ==> Proceed(old(Sys())) == Some(Sys())
    {
      hide CheckBusy, TakeNext, Admit;
      more := false;
      if phase == Busy {
        var busy := CheckBusyLoop();
        if !busy {
          queued := queued - 1;
          if queued == 0 {
            phase := Idle;
          } else {
            more := true;
          }
        }
      } else if queued > 0 {
        more := true;
      }
      if more {
        TakeQueued();
        phase := Busy;
      }
    }

    /** Take queued records, one after the other, until the loop is busy or nothing is queued. */
    method GoOn()
      requires Proceed(Sys()).Some?
      modifies this`recfifo, this`queued, this`phase, this`detfifo, this`current, this`out, this`loop
      ensures Proceed(old(Sys())) == Some(Sys())
    {
      hide CheckBusy, TakeNext, Proceed;
      var more := true;
      while more
        invariant if more then Proceed(Sys()).Some? && Proceed(old(Sys())) == Proceed(Sys()) else Proceed(old(Sys())) == Some(Sys())
        decreases if more then |recfifo| + 1 else 0
      {
        more := GoOnRound();
      }
    }

    /** What follows every message at the control landing. */
    method Conclude()
      requires Handled(Sys()).Some?
      modifies this`recfifo, this`queued, this`phase, this`detfifo, this`current, this`out, this`loop, this`ending
      ensures Handled(old(Sys())) == Some(Sys())
    {
      hide Proceed;
      GoOn();
      if ending == Draining && phase == Idle {
        ending := Terminated;
      }
    }

    /** The control landing handles a wakeup or the termination of the access landing. */
    method HandleControl()
      requires Valid() && control != []
      modifies this
      ensures Valid() && Next(old(Sys()), TakeControl) == Some(Sys())
    {
      hide Inv, Handled;
      StepKeepsInv(Sys(), TakeControl);
      var m := control[0];
      control := control[1..];
      if m == Terminate {
        ending := Draining;
      }
      Conclude();
    }

    /** A data record comes back from the loop: it goes round again, or leaves. */
    method HandleReturn(r: nat)
      requires Valid() && r < |loop|
      modifies this
      ensures Valid() && Next(old(Sys()), Return(r)) == Some(Sys())
    {
      hide Inv, Handled;
      StepKeepsInv(Sys(), Return(r));
      var rec := loop[r];
      if !rec.back {
        loop := Without(loop, r);
        out := out + [rec.origin];
        FeedbackLeave();
      }
      Conclude();
    }

    /** Give up the detref of a record that leaves the loop. */
    method FeedbackLeave()
      requires Leave(Sys()).Some?
      modifies this`detfifo
      ensures Leave(old(Sys())) == Some(Sys())
    {
      detfifo := detfifo[0 := detfifo[0].(refcount := detfifo[0].refcount - 1)];
      if detfifo[0].refcount == 1 {
        detfifo := detfifo[0 := detfifo[0].(refcount := detfifo[0].refcount - 1)];
      }
      assert Leave(old(Sys())).value.detfifo == CheckBusy(detfifo);
      var busy := CheckBusyLoop();
    }

    /** The announcement arrives that a detref of this loop is no longer in use. */
    method HandleNotice()
      requires Valid() && notices > 0
      modifies this
      ensures Valid() && Next(old(Sys()), TakeNotice) == Some(Sys())
    {
      hide Inv, Handled;
      StepKeepsInv(Sys(), TakeNotice);
      notices := notices - 1;
      var busy := CheckBusyLoop();
      Conclude();
    }
  }
}
