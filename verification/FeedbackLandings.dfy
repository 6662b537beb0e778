/** The code of the access and return landings of a feedback loop. */
module FeedbackLandings {
  import opened Options
  import opened OuterDetrefs
  import opened Feedback

  class Landings {
    var entered: nat
    var closed: bool
    var lastCall: bool
    var detfifo: seq<Det>
    var ending: Ending
    var ends: nat
    var loop: seq<LoopRec>
    var closing: set<nat>
    var notices: nat
    var out: seq<Gone>
    // outer networks' detrefs, and where their announcements are
    var counts: map<nat, nat>
    var foreign: set<nat>
    var lost: set<nat>
    var sent: set<nat>

    ghost function Sys(): State
      reads this
    {
      State(entered, closed, lastCall, detfifo, ending, ends, loop, closing, notices, out, counts, foreign, lost, sent)
    }

    ghost predicate Valid()
      reads this
    {
      Inv(Sys())
    }

    constructor ()
      ensures Valid() && Sys() == Start()
    {
      entered, closed, lastCall, detfifo, ending, ends := 0, false, false, [], Initial, 0;
      loop, closing, notices, out := [], {}, 0, [];
      counts, foreign, lost, sent := map[], {}, {}, {};
    }

    /** The access landing sends a record that matches into the loop, with a detref of its
        own, and any other straight out. */
    method AccessRecord(back: bool, outer: set<nat>)
      requires Valid() && Enabled(Sys(), Enter(back, outer))
      modifies this
      ensures Valid() && Next(old(Sys()), Enter(back, outer)) == Some(Sys())
    {
      hide Inv;
      StepKeepsInv(Sys(), Enter(back, outer));
      if back {
        detfifo := detfifo + [Det(entered, 2)];
        loop := loop + [LoopRec(entered, back, outer)];
        entered := entered + 1;
      } else {
        out := out + [Bypassed(outer)];
      }
    }

    /** The access landing terminates; if it ever sent a record, a last announcement follows. */
    method TerminateAccess()
      requires Valid() && !closed
      modifies this
      ensures Valid() && Next(old(Sys()), Close) == Some(Sys())
    {
      hide Inv;
      StepKeepsInv(Sys(), Close);
      closed := true;
      lastCall := entered > 0;
    }

    /** Pop spent detrefs; a draining loop that has none left is to terminate. */
    method FeedbackCheckBusy()
      modifies this`detfifo, this`ending
      ensures Sys() == CheckBusy(old(Sys()))
    {
      PopAll();
      if detfifo == [] && ending == Draining {
        ending := Terminating;
      }
    }

    /** Pop detrefs in sequence that are no longer in use. */
    method PopAll()
      modifies this`detfifo
      ensures detfifo == PopSpent(old(detfifo))
    {
      while detfifo != [] && detfifo[0].refcount <= 0
        invariant PopSpent(detfifo) == PopSpent(old(detfifo))
        decreases |detfifo|
      {
        detfifo := detfifo[1..];
      }
    }

    /** A record leaves the loop and gives up its detref. */
    method FeedbackLeave(id: nat)
      requires Recount(detfifo, id, 2, if CountAt(detfifo, id) == 2 then -2 else -1).Some?
      modifies this`detfifo
      ensures detfifo == PopSpent(Recount(old(detfifo), id, 2, if CountAt(old(detfifo), id) == 2 then -2 else -1).value)
    {
      var i := Find(detfifo, id).value;
      var count := detfifo[i].refcount - 1;
      if count == 1 {
        count := count - 1;
      }
      detfifo := detfifo[i := detfifo[i].(refcount := count)];
      PopAll();
    }

    /** Close the streams of a loop that is to terminate. */
    method CloseLoop()
      modifies this`ending, this`ends
      ensures Sys() == Conclude(old(Sys()))
    {
      if ending == Terminating {
        ends := ends + 1;
        ending := Terminated;
      }
    }

    /** A data record arrives at the return landing: round again, or out of the loop. */
    method ReturnRecord(r: nat)
      requires Valid() && r < |loop|
      modifies this
      ensures Valid() && Next(old(Sys()), Return(r)) == Some(Sys())
    {
      hide Inv, Find, Recount, CountAt, PopSpent;
      StepKeepsInv(Sys(), Return(r));
      var rec := loop[r];
      if !rec.back {
        FeedbackLeave(rec.det);
        loop := Without(loop, r);
        out := out + [Left(rec.det, rec.outer)];
        if ending != Initial {
          FeedbackCheckBusy();
        }
      }
      CloseLoop();
    }

    /** The last announcement of the access landing: the loop drains from now on. */
    method ReturnLastCall()
      requires Valid() && lastCall
      modifies this
      ensures Valid() && Next(old(Sys()), TakeLastCall) == Some(Sys())
    {
      hide Inv, PopSpent;
      StepKeepsInv(Sys(), TakeLastCall);
      lastCall := false;
      if ending != Terminated {
        ending := Draining;
        FeedbackCheckBusy();
        CloseLoop();
      }
    }

    /** An announcement for the collector of an outer network: there is no branch for it. */
    method ReturnForeign(d: nat)
      requires Valid() && d in foreign
      modifies this
      ensures Valid() && Next(old(Sys()), TakeForeign(d)) == Some(Sys())
    {
      hide Core;
      StepKeepsInv(Sys(), TakeForeign(d));
      NotTerminating(Sys());
      foreign, lost := foreign - {d}, lost + {d};
      CloseLoop();
    }

    /** An announcement that some detref of the loop is no longer in use. */
    method ReturnNotice()
      requires Valid() && notices > 0
      modifies this
      ensures Valid() && Next(old(Sys()), TakeNotice) == Some(Sys())
    {
      hide Inv, PopSpent;
      StepKeepsInv(Sys(), TakeNotice);
      notices := notices - 1;
      if ending != Terminated {
        FeedbackCheckBusy();
        CloseLoop();
      }
    }
  }
}
