/** The input manager's code over its buffers. Each method is one section under the
    buffer's lock. */
module InputManager {
  import opened Options
  import opened InputBuffers

  class Manager {
    var bufs: map<nat, Buffer>
    var unblocked: seq<nat>
    var updates: nat
    var freed: map<nat, Buffer>

    ghost function Sys(): State
      reads this
    {
      State(bufs, unblocked, updates, freed)
    }

    ghost predicate Valid()
      reads this
    {
      Inv(Sys())
    }

    constructor ()
      ensures Valid() && Sys() == Start()
    {
      bufs, unblocked, updates, freed := map[], [], 0, map[];
    }

    /** Write a record to the stream unless it is full. */
    static method TryWrite(b: Buffer, rec: Rec) returns (b': Buffer, ok: bool)
      ensures ok == (|b.stream| != b.size)
      ensures b' == (if ok then b.(stream := b.stream + [rec]) else b)
    {
      if |b.stream| == b.size {
        return b, false;
      }
      return b.(stream := b.stream + [rec]), true;
    }

    /** A record arrives: it goes to the stream, or to the overflow if there is one. */
    method HandleRecord(d: nat, rec: Rec)
      requires Valid() && Enabled(Sys(), Handle(d, rec))
      modifies this
      ensures Valid() && Next(old(Sys()), Handle(d, rec)) == Some(Sys())
    {
      hide Inv;
      StepKeepsInv(Sys(), Handle(d, rec));
      StreamBound(Sys(), d);
      var b := bufs[d];
      b := b.(arrived := b.arrived + [rec]);
      if rec == Terminate {
        b := b.(done := true);
      }
      var written := false;
      if b.list == [] {
        b, written := TryWrite(b, rec);
      }
      if written {
        b := b.(counter := b.counter + 1);
      } else {
        b := b.(list := b.list + [rec]);
        if |b.list| == 1 {
          b := b.(blocked := true);
        }
      }
      bufs := bufs[d := b];
    }

    /** The callback of a read: once all records out there have been read, the overflow
        is due for an update; a buffer that is done is freed. */
    method ReadCallback(d: nat)
      requires Valid() && Enabled(Sys(), Callback(d))
      modifies this
      ensures Valid() && Next(old(Sys()), Callback(d)) == Some(Sys())
    {
      hide Inv;
      StepKeepsInv(Sys(), Callback(d));
      var b := bufs[d].(pending := bufs[d].pending - 1, counter := bufs[d].counter - 1);
      bufs := bufs[d := b];
      if b.counter == 0 {
        if |b.list| > 0 {
          unblocked := unblocked + [d];
          if |unblocked| == 1 {
            updates := updates + 1;
          }
        } else if b.done {
          freed := freed[d := b];
          bufs := bufs - {d};
          assert bufs == old(bufs) - {d};
        }
      }
    }

    /** Write the overflow of all waiting buffers, as far as their streams take it. */
    method UpdateBlocked()
      requires Valid() && updates > 0
      modifies this
      ensures Valid() && Next(old(Sys()), Update) == Some(Sys())
    {
      hide Inv, Drain, Unblocking;
      StepKeepsInv(Sys(), Update);
      updates := updates - 1;
      while unblocked != []
        invariant UpdateAll(bufs, unblocked).Some?
        invariant UpdateAll(bufs, unblocked) == UpdateAll(old(bufs), old(unblocked))
        invariant updates == old(updates) - 1 && freed == old(freed)
        decreases |unblocked|
      {
        var d := unblocked[0];
        unblocked := unblocked[1..];
        var b := Refill(bufs[d]);
        bufs := bufs[d := b];
      }
    }

    /** Move overflown records to the stream until it is full, and tell the senders when
        none is left. */
    static method Refill(before: Buffer) returns (b: Buffer)
      ensures b == Unblocking(Drain(before))
    {
      b := before;
      var full := false;
      while b.list != [] && !full
        invariant full ==> b.list != [] && |b.stream| == b.size
        invariant Drain(b) == Drain(before)
        decreases |b.list|, !full
      {
        var rec := b.list[0];
        var ok;
        b, ok := TryWrite(b.(list := b.list[1..]), rec);
        if ok {
          b := b.(counter := b.counter + 1);
        } else {
          b := b.(list := [rec] + b.list);
          full := true;
        }
      }
      if b.list == [] && !b.done {
        b := b.(blocked := false);
      }
    }
  }

  lemma {:induction false} StreamBound(s: State, d: nat)
    requires Inv(s) && d in s.bufs
    ensures |s.bufs[d].stream| <= s.bufs[d].size
  {
    assert BufferOk(s.bufs[d], d in s.unblocked);
  }
}
