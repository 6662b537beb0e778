/** The workers' code over the licence machine: work items, stealing and loot.
    Every method below performs nothing but steps of the machine. */
module Workers {
  import opened Options
  import opened Licences
  import opened LicencePipes

  /** A thief's loot: its licences sit in a ticket of their own until they are
      added to `item`, or become an item. */
  datatype Loot = Loot(ticket: nat, item: Option<nat>)

  /** How many licences a thief takes from an item: all where the landing is
      dissolved, else half of the surplus over its own item for the same descriptor,
      else half of them, rounded up. Division truncates towards zero. */
  function StealAmount(count: nat, own: Option<nat>, dissolved: bool): (amount: nat)
    ensures amount <= count
  {
    if dissolved then count
    else match own
      case Some(lookup) => if count <= lookup then 0 else (count - lookup) / 2
      case None => (count + 1) / 2
  }

  /** A theft from a live stream evens out: the victim keeps at least as much as the
      thief then has, and at most one licence more, unless the thief had more before;
      a thief without an item always gets some. */
  lemma {:induction false} StealEvens(count: nat, own: Option<nat>)
    requires count > 0
    ensures var amount := StealAmount(count, own, false);
      && (own.Some? && own.value <= count ==> 0 <= (count - amount) - (own.value + amount) <= 1)
      && (own.Some? && own.value > count ==> amount == 0)
      && (own.None? ==> amount > 0 && 0 <= amount - (count - amount) <= 1)
  {
  }

  lemma {:induction false} RunStep(s: State, steps: seq<Step>, step: Step)
    requires Inv(s) && Allowed(s, steps) && Enabled(After(s, steps), step)
    ensures Allowed(s, steps + [step])
    ensures After(s, steps + [step]) == Apply(After(s, steps), step)
    decreases |steps|
  {
    hide Inv, Enabled, Apply;
    var all := steps + [step];
    StepKeepsInv(After(s, steps), step);
    if |steps| == 0 {
      assert all[1..] == [];
    } else {
      assert all[0] == steps[0] && all[1..] == steps[1..] + [step];
      StepKeepsInv(s, steps[0]);
      RunStep(Apply(s, steps[0]), steps[1..], step);
    }
  }

  class Front {
    var net: Net
    var streams: seq<Stream>
    var sites: seq<Site>
    var tickets: seq<Ticket>
    var lock: seq<nat>                  // who holds a work item: 0, or a worker
    var table: map<(nat, nat), nat>     // the workers' hash tables: (worker, descriptor) to work item
    ghost const start: State
    ghost var history: seq<Step>

    ghost function Sys(): State
      reads this
    {
      State(net, streams, sites, tickets)
    }

    /** The state is one that a run of the machine has reached. */
    ghost predicate Valid()
      reads this
    {
      && Inv(start) && Allowed(start, history) && Sys() == After(start, history)
      && |lock| == |tickets|
      && TableOk(table, tickets)
    }

    /** A worker's hash table leads to its one item for a descriptor. */
    static ghost predicate TableOk(table: map<(nat, nat), nat>, tickets: seq<Ticket>) {
      && (forall k :: k in table ==> table[k] < |tickets| && tickets[table[k]].desc == k.1 && !tickets[table[k]].reading)
      && (forall j, k :: j in table && k in table && table[j] == table[k] ==> j == k)
    }

    static lemma {:induction false} TableWithout(table: map<(nat, nat), nat>, tickets: seq<Ticket>, key: (nat, nat))
      requires TableOk(table, tickets) && key in table
      ensures TableOk(table - {key}, tickets)
      ensures forall k :: k in table - {key} ==> (table - {key})[k] != table[key]
      ensures !tickets[table[key]].reading
    {
    }

    static lemma {:induction false} TableAt(table: map<(nat, nat), nat>, tickets: seq<Ticket>, key: (nat, nat))
      requires TableOk(table, tickets) && key in table
      ensures table[key] < |tickets| && tickets[table[key]].desc == key.1 && !tickets[table[key]].reading
    {
    }

    static lemma {:induction false} TableWith(table: map<(nat, nat), nat>, tickets: seq<Ticket>, key: (nat, nat), item: nat)
      requires TableOk(table, tickets) && key !in table
      requires item < |tickets| && tickets[item].desc == key.1 && !tickets[item].reading
      requires forall k :: k in table ==> table[k] != item
      ensures TableOk(table[key := item], tickets)
    {
    }

    ghost method Log(step: Step)
      requires Inv(start) && Allowed(start, history) && Enabled(After(start, history), step)
      requires Sys() == Apply(After(start, history), step)
      modifies this`history
      ensures history == old(history) + [step]
      ensures Allowed(start, history) && Sys() == After(start, history)
    {
      RunStep(start, history, step);
      history := history + [step];
    }

    /** What closing descriptors leaves alone. */
    twostate predicate OnlyCloses()
      reads this
    {
      && old(history) <= history && |streams| == |old(streams)| && net.descs == old(net).descs
      && tickets == old(tickets)
      && (forall e :: 0 <= e < |streams| ==> streams[e].queue == old(streams)[e].queue)
      && (forall e :: 0 <= e < |streams| && old(streams)[e].closed ==> streams[e] == old(streams)[e])
      && (forall i :: 0 <= i < |tickets| && tickets[i].count > 0 ==>
            Fwd(net, tickets[i].desc) == Fwd(old(net), tickets[i].desc))
    }

    /** Close one descriptor; an identity or dissolved landing lets go of the next. */
    method CloseOne(d: nat) returns (next: nat, more: bool)
      requires Valid() && d < |streams| && streams[d].refs == 0 && !streams[d].closed
      modifies this`net, this`streams, this`history
      ensures Valid() && OnlyCloses() && history == old(history) + [Reap(d)]
      ensures streams[d].closed
      ensures next < |streams|
      ensures more ==> streams[next].refs == 0 && !streams[next].closed && Rank(net, next) < Rank(net, d)
    {
      hide Inv, Allowed, After, TableOk, Fwd;
      ShapedSys();
      ReapFrame(Sys(), d);
      var k := KindOf(net, d);
      streams := streams[d := streams[d].(closed := true)];
      if k.Identity? || k.Garbage? {
        net := net.(lands := net.lands[net.descs[d].land := Gone]);
        streams := streams[k.out := streams[k.out].(refs := streams[k.out].refs - 1)];
        next, more := k.out, streams[k.out].refs == 0;
      } else {
        next, more := d, false;
      }
      Log(Reap(d));
    }

    /** Close descriptors that have lost their last reference, one after the other
        along the identity and dissolved landings behind them. */
    method CloseUnreferenced(d: nat)
      requires Valid() && d < |streams|
      modifies this`net, this`streams, this`history
      ensures Valid() && OnlyCloses()
      ensures streams[d].refs == 0 ==> streams[d].closed
    {
      hide Inv, Allowed, After, Fwd, TableOk;
      var cur: nat, more := d, streams[d].refs == 0 && !streams[d].closed;
      while more
        invariant Valid() && OnlyCloses() && cur < |streams|
        invariant more ==> streams[cur].refs == 0 && !streams[cur].closed
        invariant streams[d].closed || (if more then cur == d else streams[d].refs != 0)
        decreases more, Rank(net, cur)
      {
        cur, more := CloseOne(cur);
      }
    }

    /** Forward a work item past a dissolved landing, giving up its references there. */
    method HopItem(item: nat)
      requires Valid() && item < |tickets| && tickets[item].count > 0 && !tickets[item].reading
      requires KindOf(net, tickets[item].desc).Garbage?
      requires forall k :: k in table ==> table[k] != item
      modifies this`net, this`streams, this`history, this`tickets
      ensures Valid() && old(history) < history && |streams| == old(|streams|) && net.descs == old(net).descs
      ensures tickets == old(tickets)[item := old(tickets)[item].(desc := tickets[item].desc)]
      ensures tickets[item].desc == KindOf(old(net), old(tickets)[item].desc).out
      ensures Rank(net, tickets[item].desc) < Rank(net, old(tickets)[item].desc)
      ensures Fwd(net, tickets[item].desc) == Fwd(old(net), old(tickets)[item].desc)
      ensures forall e :: 0 <= e < |streams| ==> streams[e].queue == old(streams)[e].queue
    {
      hide Inv, Allowed, After;
      ShapedSys();
      var d := tickets[item].desc;
      var out := KindOf(net, d).out;
      HopOut(Sys(), item);
      var count := tickets[item].count;
      streams := streams[d := streams[d].(refs := streams[d].refs - count)];
      tickets := tickets[item := tickets[item].(desc := out)];
      Log(Hop(item));
      CloseUnreferenced(d);
    }

    /** Move licences from one ticket to another for the same descriptor. */
    method MoveCount(source: nat, target: nat, amount: nat)
      requires Valid() && source < |tickets| && target < |tickets| && source != target
      requires amount <= tickets[source].count && tickets[source].desc == tickets[target].desc
      requires !tickets[source].reading && !tickets[target].reading
      modifies this`history, this`tickets
      ensures Valid() && history == old(history) + [Move(source, target, amount)]
      ensures tickets == old(tickets)[source := old(tickets)[source].(count := old(tickets)[source].count - amount)]
                                     [target := old(tickets)[target].(count := old(tickets)[target].count + amount)]
    {
      hide Inv, Allowed, After;
      ShapedSys();
      tickets := tickets[source := tickets[source].(count := tickets[source].count - amount)]
                        [target := tickets[target].(count := tickets[target].count + amount)];
      Log(Move(source, target, amount));
    }

    /** Use one licence: claim the landing and unlock the work item. */
    method TakeLicence(w: nat, item: nat)
      requires Valid() && item < |tickets| && tickets[item].count > 0 && !tickets[item].reading
      requires tickets[item].desc < |streams| && net.descs[tickets[item].desc].land < |sites|
      requires !KindOf(net, tickets[item].desc).Garbage?
      requires sites[net.descs[tickets[item].desc].land].lock.Free?
      modifies this`history, this`tickets, this`sites, this`lock
      ensures Valid() && history == old(history) + [Take(item)]
      ensures tickets == old(tickets)[item := old(tickets)[item].(count := old(tickets)[item].count - 1)]
                         + [Ticket(old(tickets)[item].desc, 1, true)]
      ensures lock == old(lock)[item := 0] + [w]
    {
      hide Inv, Allowed, After;
      ShapedSys();
      var d := tickets[item].desc;
      var l := net.descs[d].land;
      sites := sites[l := sites[l].(lock := Reading(|tickets|))];
      tickets := tickets[item := tickets[item].(count := tickets[item].count - 1)] + [Ticket(d, 1, true)];
      lock := lock[item := 0] + [w];
      Log(Take(item));
    }

    /** Dequeue with a licence taken before: the stream is not empty. */
    method Dequeue(reader: nat) returns (rec: Rec)
      requires Valid() && reader < |tickets| && tickets[reader].reading
      modifies this`history, this`tickets, this`sites, this`streams
      ensures Valid() && history == old(history) + [Get(reader)]
      ensures var d := old(tickets)[reader].desc;
        && tickets == old(tickets)[reader := Ticket(d, 0, false)]
        && d < |streams| == |old(streams)|
        && old(streams)[d].queue == [rec] + streams[d].queue
        && (forall e :: 0 <= e < |streams| && e != d ==> streams[e] == old(streams)[e])
    {
      hide Balanced, EndsOk, SiteOk, TicketOk, IdentityOk, Wired, Sum, OutEnds, Fwd, Passes, Allowed, After;
      var d := tickets[reader].desc;
      var l := net.descs[d].land;
      ReadingNonEmpty(Sys(), reader);
      rec := streams[d].queue[0];
      streams := streams[d := streams[d].(queue := streams[d].queue[1..], busy := streams[d].busy + 1)];
      sites := sites[l := Site(Working, if net.lands[l].Identity? then [rec] else [])];
      tickets := tickets[reader := Ticket(d, 0, false)];
      Log(Get(reader));
    }

    lemma {:induction false} ShapedSys()
      requires Valid()
      ensures Shaped(Sys())
    {
    }

    /** Use one licence: claim the landing, unlock the work item, dequeue. */
    method UseLicence(w: nat, item: nat) returns (rec: Rec)
      requires Valid() && item < |tickets| && tickets[item].count > 0 && !tickets[item].reading
      requires tickets[item].desc < |streams| && net.descs[tickets[item].desc].land < |sites|
      requires !KindOf(net, tickets[item].desc).Garbage?
      requires sites[net.descs[tickets[item].desc].land].lock.Free?
      modifies this`history, this`tickets, this`sites, this`lock, this`streams
      ensures Valid() && old(history) < history
      ensures |tickets| == |old(tickets)| + 1 && tickets[item].desc == old(tickets)[item].desc
      ensures var d := old(tickets)[item].desc;
        && |streams| == |old(streams)|
        && old(streams)[d].queue == [rec] + streams[d].queue
        && (forall e :: 0 <= e < |streams| && e != d ==> streams[e].queue == old(streams)[e].queue)
    {
      hide Inv, Allowed, After, TableOk, Enabled;
      TakeLicence(w, item);
      rec := Dequeue(|tickets| - 1);
    }

    /** Take an item out of the hash table and bring it to a landing that is not dissolved. */
    method LeaveDissolved(w: nat, item: nat)
      requires Valid() && item < |tickets| && tickets[item].count > 0
      requires (w, tickets[item].desc) in table && table[(w, tickets[item].desc)] == item
      requires KindOf(net, tickets[item].desc).Garbage?
      modifies this`net, this`streams, this`history, this`tickets, this`table
      ensures Valid() && old(history) < history && |tickets| == |old(tickets)|
      ensures |streams| == |old(streams)| && net.descs == old(net).descs
      ensures var target := Fwd(old(net), old(tickets)[item].desc);
        tickets[item].desc == target && !KindOf(net, target).Garbage?
      ensures forall k :: k in table ==> table[k] != item
      ensures tickets[item].count > 0 && !tickets[item].reading
      ensures Rank(net, tickets[item].desc) < Rank(net, old(tickets)[item].desc)
      ensures forall e :: 0 <= e < |streams| ==> streams[e].queue == old(streams)[e].queue
    {
      ghost var target := Fwd(net, tickets[item].desc);
      TableWithout(table, tickets, (w, tickets[item].desc));
      hide Inv, Allowed, After, Fwd, TableOk, Enabled;
      table := table - {(w, tickets[item].desc)};
      HopItem(item);
      AdvanceItem(w, item, target);
    }

    /** Give the item's licences to the worker's item for the same descriptor, if it
        has one; otherwise enter this item. */
    method EnterItem(w: nat, item: nat) returns (joined: bool)
      requires Valid() && item < |tickets| && tickets[item].count > 0 && !tickets[item].reading
      requires forall k :: k in table ==> table[k] != item
      modifies this`history, this`tickets, this`table
      ensures Valid() && old(history) <= history && |tickets| == |old(tickets)|
      ensures !tickets[item].reading && tickets[item].desc == old(tickets)[item].desc
      ensures var target := old(tickets)[item].desc;
        (w, target) in table && joined == (table[(w, target)] != item) && joined == (tickets[item].count == 0)
    {
      var next := tickets[item].desc;
      joined := (w, next) in table;
      if joined {
        TableAt(table, tickets, (w, next));
        MoveCount(item, table[(w, next)], tickets[item].count);
      } else {
        TableWith(table, tickets, (w, next), item);
        table := table[(w, next) := item];
      }
    }

    /** Forward an item from a dissolved landing to the next one that is not. */
    method ForwardItem(w: nat, item: nat) returns (joined: bool)
      requires Valid() && item < |tickets| && tickets[item].count > 0
      requires (w, tickets[item].desc) in table && table[(w, tickets[item].desc)] == item
      requires KindOf(net, tickets[item].desc).Garbage?
      modifies this`net, this`streams, this`history, this`tickets, this`table
      ensures Valid() && Shaped(Sys()) && old(history) < history && |tickets| == |old(tickets)|
      ensures |streams| == |old(streams)| && net.descs == old(net).descs
      ensures var target := Fwd(old(net), old(tickets)[item].desc);
        && tickets[item].desc == target && !KindOf(net, target).Garbage? && Fwd(net, target) == target
        && (w, target) in table && joined == (table[(w, target)] != item) && joined == (tickets[item].count == 0)
      ensures !tickets[item].reading
      ensures Rank(net, tickets[item].desc) < Rank(net, old(tickets)[item].desc)
      ensures forall e :: 0 <= e < |streams| ==> streams[e].queue == old(streams)[e].queue
    {
      hide Inv, Allowed, After, TableOk, Enabled;
      LeaveDissolved(w, item);
      joined := EnterItem(w, item);
      ShapedSys();
      EndsHere(net, tickets[item].desc);
    }

    /** Bring a locked item past dissolved landings, joining it with the worker's
        other items there. True if it may use a licence where it has got to. */
    method ClearWay(w: nat, item: nat) returns (free: bool)
      requires Valid() && item < |tickets| && tickets[item].count > 0
      requires (w, tickets[item].desc) in table && table[(w, tickets[item].desc)] == item
      requires tickets[item].desc < |streams| && net.descs[tickets[item].desc].land < |sites|
      requires sites[net.descs[tickets[item].desc].land].lock.Free?
      modifies this`net, this`streams, this`history, this`tickets, this`table
      ensures Valid() && Shaped(Sys()) && old(history) <= history && |tickets| == |old(tickets)| && |streams| == |old(streams)|
      ensures var target := Fwd(old(net), old(tickets)[item].desc);
        && tickets[item].desc == target && target < |streams| && !KindOf(net, target).Garbage?
        && (w, target) in table && (table[(w, target)] == item <==> tickets[item].count > 0)
        && (free ==> table[(w, target)] == item && sites[net.descs[target].land].lock.Free?)
      ensures !free ==> old(history) < history
      ensures forall e :: 0 <= e < |streams| ==> streams[e].queue == old(streams)[e].queue
    {
      hide Inv, Allowed, After, Fwd, TableOk;
      ShapedSys();
      free := true;
      while KindOf(net, tickets[item].desc).Garbage?
        invariant Valid() && Shaped(Sys()) && old(history) <= history
        invariant |tickets| == |old(tickets)| && |streams| == |old(streams)|
        invariant tickets[item].count > 0 && free
        invariant (w, tickets[item].desc) in table && table[(w, tickets[item].desc)] == item
        invariant Fwd(net, tickets[item].desc) == Fwd(old(net), old(tickets)[item].desc)
        invariant forall e :: 0 <= e < |streams| ==> streams[e].queue == old(streams)[e].queue
        invariant sites[net.descs[tickets[item].desc].land].lock.Free?
        decreases Rank(net, tickets[item].desc)
      {
        var joined := ForwardItem(w, item);
        if joined || !sites[net.descs[tickets[item].desc].land].lock.Free? {
          free := false;
          return;
        }
      }
      EndsHere(net, tickets[item].desc);
    }

    /** Work on a locked item: bring it past dissolved landings, join it with the
        worker's other items there, and use one licence where the way is free. */
    method WorkItem(w: nat, item: nat) returns (progress: bool, taken: Option<Rec>)
      requires Valid() && item < |tickets| && tickets[item].count > 0
      requires (w, tickets[item].desc) in table && table[(w, tickets[item].desc)] == item
      requires lock[item] == w && w != 0
      modifies this
      ensures Valid() && |tickets| >= |old(tickets)| && |streams| == |old(streams)| && old(history) <= history
      ensures (if progress then old(history) < history else Sys() == old(Sys()) && table == old(table) && lock == old(lock))
      ensures progress ==> tickets[item].desc == Fwd(old(net), old(tickets)[item].desc)
      ensures taken.Some? ==>
        var target := Fwd(old(net), old(tickets)[item].desc);
        && target < |streams| && old(streams)[target].queue == [taken.value] + streams[target].queue
        && (forall e :: 0 <= e < |streams| && e != target ==> streams[e].queue == old(streams)[e].queue)
        && (w, target) in table && table[(w, target)] == item
      ensures progress && taken.None? ==>
        var target := Fwd(old(net), old(tickets)[item].desc);
        && (forall e :: 0 <= e < |streams| ==> streams[e].queue == old(streams)[e].queue)
        && (w, target) in table && (table[(w, target)] == item <==> tickets[item].count > 0)
    {
      hide Inv, Allowed, After, Fwd;
      ShapedSys();
      taken := None;
      if !sites[net.descs[tickets[item].desc].land].lock.Free? {
        return false, None;
      }
      var free := ClearWay(w, item);
      if !free {
        return true, None;
      }
      var rec := UseLicence(w, item);
      return true, Some(rec);
    }

    /** Advance past further dissolved landings, taking along the worker's unlocked items there. */
    method AdvanceItem(w: nat, item: nat, ghost target: nat)
      requires Valid() && item < |tickets| && tickets[item].count > 0 && !tickets[item].reading
      requires forall k :: k in table ==> table[k] != item
      requires Fwd(net, tickets[item].desc) == target
      modifies this`net, this`streams, this`history, this`tickets
      ensures Valid() && old(history) <= history && |tickets| == old(|tickets|)
      ensures |streams| == |old(streams)| && net.descs == old(net).descs
      ensures tickets[item].count >= old(tickets)[item].count && !tickets[item].reading
      ensures tickets[item].desc == target && !KindOf(net, target).Garbage?
      ensures Rank(net, tickets[item].desc) <= Rank(net, old(tickets)[item].desc)
      ensures forall e :: 0 <= e < |streams| ==> streams[e].queue == old(streams)[e].queue
    {
      hide Inv, Allowed, After, Fwd;
      while KindOf(net, tickets[item].desc).Garbage?
        invariant Valid() && old(history) <= history && |tickets| == old(|tickets|)
        invariant |streams| == |old(streams)| && net.descs == old(net).descs
        invariant tickets[item].count >= old(tickets)[item].count && !tickets[item].reading
        invariant Rank(net, tickets[item].desc) <= Rank(net, old(tickets)[item].desc)
        invariant Fwd(net, tickets[item].desc) == target
        invariant forall e :: 0 <= e < |streams| ==> streams[e].queue == old(streams)[e].queue
        decreases Rank(net, tickets[item].desc)
      {
        var d := tickets[item].desc;
        if (w, d) in table && lock[table[(w, d)]] == 0 {
          MoveCount(table[(w, d)], item, tickets[table[(w, d)]].count);
        }
        HopItem(item);
      }
      EndsHere(net, tickets[item].desc);
    }

    // ---------- writing ----------

    /** Put the licence of a new record on the worker's to-do list. */
    method Todo(w: nat, ticket: nat)
      requires Valid() && ticket < |tickets| && tickets[ticket].count == 1 && !tickets[ticket].reading
      requires forall k :: k in table ==> table[k] != ticket
      modifies this`history, this`tickets, this`table, this`lock
      ensures Valid()
      ensures var d := old(tickets)[ticket].desc;
        && (w, d) in table && table == old(table)[(w, d) := table[(w, d)]]
        && ((w, d) in old(table) ==>
              && table == old(table)
              && tickets[table[(w, d)]].count == old(tickets)[table[(w, d)]].count + 1
              && history == old(history) + [Move(ticket, table[(w, d)], 1)])
        && ((w, d) !in old(table) ==> table[(w, d)] == ticket && tickets == old(tickets) && history == old(history) && lock[ticket] == 0)
    {
      hide Inv, Allowed, After;
      var d := tickets[ticket].desc;
      if (w, d) in table {
        MoveCount(ticket, table[(w, d)], 1);
      } else {
        lock := lock[ticket := 0];
        table := table[(w, d) := ticket];
      }
    }

    /** Move the queue of one stream to the end of the next one's, with its references
        and the writer's open end. */
    static method MergeQueues(who: Writer, desc: Stream, next: Stream) returns (desc': Stream, next': Stream)
      requires who.Node? ==> desc.writers > 0
      ensures next'.queue == next.queue + desc.queue && desc'.queue == []
      ensures desc' == desc.(queue := [], refs := desc.refs - 1, writers := desc.writers - if who.Node? then 1 else 0)
      ensures next' == next.(queue := next.queue + desc.queue, refs := next.refs + |desc.queue| + 1,
                             writers := next.writers + if who.Node? then 1 else 0)
    {
      var tail := desc.queue;
      desc', next' := desc.(queue := []), next;
      var count := 0;
      while count < |tail|
        invariant count <= |tail|
      {
        count := count + 1;
      }
      next' := next'.(queue := next'.queue + tail);
      next' := next'.(refs := next'.refs + count);
      // the dissolved landing holds an end of the next stream from now on
      next' := next'.(refs := next'.refs + 1);
      if who.Node? {
        desc', next' := desc'.(writers := desc'.writers - 1), next'.(writers := next'.writers + 1);
      }
      desc' := desc'.(refs := desc'.refs - 1);
    }

    /** Merge a stream to an identity landing with the subsequent stream. */
    method MergeStreams(who: Writer, d: nat) returns (next: nat)
      requires Valid() && Shaped(Sys()) && Enabled(Sys(), Dissolve(who, d))
      modifies this`net, this`streams, this`history
      ensures Valid() && Shaped(Sys()) && history == old(history) + [Dissolve(who, d)]
      ensures next == KindOf(old(net), d).out && HasEnd(Sys(), who, next) && next < |streams|
      ensures net.descs == old(net).descs && |streams| == |old(streams)|
    {
      hide Inv, HasEnd, Allowed, After, TableOk, Enabled, Apply, Dissolving;
      ghost var was := Sys();
      DissolvedEnd(was, who, d);
      next := KindOf(net, d).out;
      var desc, after := MergeQueues(who, streams[d], streams[next]);
      DissolvedState(was, who, d, desc, after);
      var lands := net.lands[net.descs[d].land := Garbage(next)];
      lands := if who.Via? then lands[who.land := Identity(next)] else lands;
      net, streams := net.(lands := lands), streams[d := desc][next := after];
      assert Sys() == Apply(was, Dissolve(who, d));
      Log(Dissolve(who, d));
    }

    /** Write a record. An identity landing in front is dissolved first; the last write
        of its caller may go on with the oldest record of the stream at once. */
    method Write(w: nat, who: Writer, d: nat, rec: Rec, last: bool) returns (end: nat, next: Option<Rec>)
      requires Valid() && Shaped(Sys()) && HasEnd(Sys(), who, d) && d < |streams| && HasRecord(Sys(), who, rec)
      modifies this
      ensures Valid() && Shaped(Sys()) && end < |streams|
      ensures var merged := KindOf(old(net), d).Identity? && old(sites[net.descs[d].land]).lock.Free?;
        && end == (if merged then KindOf(old(net), d).out else d)
        && old(history) < history
        && Issued(history[|old(history)|..], if merged then [Dissolve(who, d)] else [], who, end, rec, next.Some?)
      ensures next.Some? ==> last
      ensures next.None? ==> (w, end) in table
    {
      hide Inv, Allowed, After, TableOk;
      ghost var before := history;
      end := d;
      if KindOf(net, d).Identity? && sites[net.descs[d].land].lock.Free? {
        end := MergeStreams(who, d);
      }
      ghost var merge := history[|before|..];
      assert history == before + merge;
      if last && sites[net.descs[end].land].lock.Free? {
        var r := PutAndGet(who, end, rec);
        next := Some(r);
      } else {
        PutRecord(w, who, end, rec);
        next := None;
      }
      assert history[|before|..] == merge + history[|before| + |merge|..];
    }

    /** The steps of one write. */
    static ghost predicate Issued(steps: seq<Step>, merge: seq<Step>, who: Writer, end: nat, rec: Rec, got: bool) {
      if got then steps == merge + [PutGet(who, end, rec)]
      else
        steps == merge + [Put(who, end, rec)]
        || (|steps| == |merge| + 2 && steps[..|merge| + 1] == merge + [Put(who, end, rec)] && steps[|merge| + 1].Move?
            && steps[|merge| + 1].amount == 1)
    }

    /** Hand a record over without queueing it behind itself: the oldest one comes back. */
    method PutAndGet(who: Writer, d: nat, rec: Rec) returns (first: Rec)
      requires Valid() && Shaped(Sys()) && Enabled(Sys(), PutGet(who, d, rec))
      modifies this`streams, this`sites, this`history
      ensures Valid() && Shaped(Sys()) && history == old(history) + [PutGet(who, d, rec)]
      ensures first == (old(streams)[d].queue + [rec])[0] && |streams| == |old(streams)|
    {
      hide Inv, Allowed, After, TableOk;
      var q := streams[d].queue + [rec];
      first := q[0];
      var l := net.descs[d].land;
      sites := SetHand(sites, who);
      sites := sites[l := Site(Working, if net.lands[l].Identity? then [first] else [])];
      streams := streams[d := streams[d].(queue := q[1..], refs := streams[d].refs + 1, busy := streams[d].busy + 1)];
      Log(PutGet(who, d, rec));
      ShapedSys();
    }

    /** Queue a record and add its licence to the worker's to-do list. */
    method PutRecord(w: nat, who: Writer, d: nat, rec: Rec)
      requires Valid() && Shaped(Sys()) && Enabled(Sys(), Put(who, d, rec))
      modifies this`streams, this`sites, this`tickets, this`history, this`table, this`lock
      ensures Valid() && Shaped(Sys()) && |streams| == |old(streams)| && (w, d) in table
      ensures streams[d].queue == old(streams)[d].queue + [rec]
      ensures old(history) < history && Issued(history[|old(history)|..], [], who, d, rec, false)
    {
      hide Inv, Allowed, After;
      ShapedSys();
      ghost var was := Sys();
      var ticket := |tickets|;
      streams := streams[d := streams[d].(queue := streams[d].queue + [rec], refs := streams[d].refs + 1)];
      sites := SetHand(sites, who);
      tickets := tickets + [Ticket(d, 1, false)];
      lock := lock + [w];
      Log(Put(who, d, rec));
      Todo(w, ticket);
      ShapedSys();
    }

    // ---------- stealing ----------

    /** Loot is a ticket outside all hash tables, for the descriptor of the thief's own
        item if it has one. */
    ghost predicate LootOk(thief: nat, loot: Loot)
      reads this
    {
      && loot.ticket < |tickets| && |lock| == |tickets| && !tickets[loot.ticket].reading
      && (forall k :: k in table ==> table[k] != loot.ticket)
      && lock[loot.ticket] == thief
      && var key := (thief, tickets[loot.ticket].desc);
         if key in table then loot.item == Some(table[key]) else loot.item.None? && tickets[loot.ticket].count > 0
    }

    predicate IsItem(w: nat, item: nat)
      requires item < |tickets|
      reads this
    {
      (w, tickets[item].desc) in table && table[(w, tickets[item].desc)] == item
    }

    /** An item that can be stolen from: unlocked, not empty, for a stream whose landing is free. */
    predicate Stealable(item: nat)
      reads this
    {
      && item < |tickets| && item < |lock|
      && tickets[item].count > 0 && lock[item] == 0
      && tickets[item].desc < |net.descs| && net.descs[tickets[item].desc].land < |sites|
      && sites[net.descs[tickets[item].desc].land].lock.Free?
    }

    function OwnCount(thief: nat, desc: nat): Option<nat>
      reads this
    {
      if (thief, desc) in table && table[(thief, desc)] < |tickets| then Some(tickets[table[(thief, desc)]].count) else None
    }

    /** Steal from the first stealable item on the victim's list. */
    method StealVictim(victim: nat, thief: nat, todo: seq<nat>) returns (loot: Option<Loot>, ghost from: nat)
      requires Valid() && thief != victim && thief != 0
      requires forall i :: 0 <= i < |todo| ==> todo[i] < |tickets| && IsItem(victim, todo[i])
      modifies this`tickets, this`history, this`lock
      ensures Valid()
      ensures loot.None? ==> Sys() == old(Sys()) && lock == old(lock) && forall i :: 0 <= i < |todo| ==> !old(Stealable(todo[i]))
      ensures loot.Some? ==>
        && from < |todo| && old(Stealable(todo[from])) && (forall i :: 0 <= i < from ==> !old(Stealable(todo[i])))
        && LootOk(thief, loot.value)
        && var t := old(tickets)[todo[from]];
           var amount := StealAmount(t.count, old(OwnCount(thief, t.desc)), KindOf(net, t.desc).Garbage?);
           && tickets == old(tickets)[todo[from] := t.(count := t.count - amount)] + [Ticket(t.desc, amount, false)]
           && loot.value.ticket == |old(tickets)| && history == old(history) + [Split(todo[from], amount)]
    {
      hide Inv, Allowed, After;
      ShapedSys();
      loot, from := None, 0;
      var i := 0;
      while i < |todo|
        invariant i <= |todo| && Valid() && Shaped(Sys()) && loot.None?
        invariant Sys() == old(Sys()) && lock == old(lock) && history == old(history)
        invariant forall j :: 0 <= j < i ==> !old(Stealable(todo[j]))
      {
        var item := todo[i];
        if Stealable(item) {
          var taken := TakeHalf(thief, item);
          return Some(taken), i;
        }
        i := i + 1;
      }
    }

    /** Move the thief's share of an item into its loot. */
    method TakeHalf(thief: nat, item: nat) returns (loot: Loot)
      requires Valid() && Shaped(Sys()) && Stealable(item) && !tickets[item].reading
      requires forall k :: k in table && table[k] == item ==> k.0 != thief
      modifies this`tickets, this`history, this`lock
      ensures Valid() && LootOk(thief, loot)
      ensures var t := old(tickets)[item];
        var amount := StealAmount(t.count, old(OwnCount(thief, t.desc)), KindOf(net, t.desc).Garbage?);
        && tickets == old(tickets)[item := t.(count := t.count - amount)] + [Ticket(t.desc, amount, false)]
        && loot.ticket == |old(tickets)| && history == old(history) + [Split(item, amount)]
    {
      hide Inv, Allowed, After;
      var desc := tickets[item].desc;
      var key := (thief, desc);
      var own := if key in table then Some(tickets[table[key]].count) else None;
      var amount := StealAmount(tickets[item].count, own, KindOf(net, desc).Garbage?);
      loot := Loot(|tickets|, if key in table then Some(table[key]) else None);
      tickets := tickets[item := tickets[item].(count := tickets[item].count - amount)] + [Ticket(desc, amount, false)];
      lock := lock + [thief];
      Log(Split(item, amount));
      if own.None? { StealEvens(old(tickets)[item].count, own); }
    }

    /** Add loot to the thief's own item, and work on that unless another thief holds it. */
    method AddLoot(w: nat, loot: Loot)
      requires Valid() && w != 0 && LootOk(w, loot) && loot.item.Some?
      modifies this
      ensures Valid() && |history| > |old(history)| && history[..|old(history)|] == old(history)
      ensures history[|old(history)|] == Move(loot.ticket, loot.item.value, old(tickets)[loot.ticket].count)
    {
      hide Inv, Allowed, After, Fwd, TableOk;
      var item := loot.item.value;
      TableAt(table, tickets, (w, tickets[loot.ticket].desc));
      MoveCount(loot.ticket, item, tickets[loot.ticket].count);
      if lock[item] == 0 {
        lock := lock[item := w];
        if tickets[item].count > 0 {
          var progress, taken := WorkItem(w, item);
        }
        if lock[item] == w {
          lock := lock[item := 0];
        }
      }
    }

    /** Make loot a work item and work on it. Unless it is used up, it stays as an item. */
    method EnterLoot(w: nat, loot: Loot)
      requires Valid() && w != 0 && LootOk(w, loot) && loot.item.None?
      modifies this
      ensures Valid() && old(history) <= history && |tickets| >= |old(tickets)|
      ensures tickets[loot.ticket].count > 0 <==> (w, tickets[loot.ticket].desc) in table && table[(w, tickets[loot.ticket].desc)] == loot.ticket
    {
      hide Inv, Allowed, After, Fwd, TableOk;
      var item := loot.ticket;
      TableWith(table, tickets, (w, tickets[item].desc), item);
      table := table[(w, tickets[item].desc) := item];
      var progress, taken := WorkItem(w, item);
      var now := tickets[item].desc;
      if tickets[item].count == 0 {
        if (w, now) in table && table[(w, now)] == item {
          TableWithout(table, tickets, (w, now));
          table := table - {(w, now)};
        }
      } else {
        lock := lock[item := 0];
      }
    }
  }

  /** The writer's end after a dissolution. */
  lemma {:induction false} DissolvedEnd(s: State, who: Writer, d: nat)
    requires Inv(s) && Enabled(s, Dissolve(who, d))
    ensures var next := KindOf(s.net, d).out;
      var s' := Apply(s, Dissolve(who, d));
      && Apply(s, Dissolve(who, d)) == Dissolving(s, who, d)
      && Shaped(s') && HasEnd(s', who, next) && next < |s.streams| && d < |s.streams| && next != d && s.net.descs[d].land < |s.net.lands|
      && (who.Via? ==> who.land < |s.net.lands|) && (who.Node? ==> s.streams[d].writers > 0)
      && (KindOf(s.net, d).Identity?)
  {
    DissolveEnds(s, who, d);
    DissolveWired(s, who, d);
  }

  lemma {:induction false} DissolvedState(s: State, who: Writer, d: nat, desc: Stream, after: Stream)
    requires Inv(s) && Enabled(s, Dissolve(who, d)) && KindOf(s.net, d).out < |s.streams|
    requires var x, y := s.streams[d], s.streams[KindOf(s.net, d).out];
      var node := if who.Node? then 1 else 0;
      && desc == x.(queue := [], refs := x.refs - 1, writers := x.writers - node)
      && after == y.(queue := y.queue + x.queue, refs := y.refs + |x.queue| + 1, writers := y.writers + node)
    ensures var next := KindOf(s.net, d).out;
      var lands := s.net.lands[LandOf(s, d) := Garbage(next)];
      Apply(s, Dissolve(who, d)) == State(
        s.net.(lands := if who.Via? then lands[who.land := Identity(next)] else lands),
        s.streams[d := desc][next := after], s.sites, s.tickets)
  {
  }

  lemma {:induction false} EndsHere(net: Net, d: nat)
    requires !KindOf(net, d).Garbage?
    ensures Fwd(net, d) == d
  {
  }

  lemma {:induction false} HopOut(s: State, i: nat)
    requires Inv(s) && Enabled(s, Hop(i))
    ensures var d := s.tickets[i].desc;
      var out := KindOf(s.net, d).out;
      && out < |s.streams| && Rank(s.net, out) < Rank(s.net, d) && Fwd(s.net, out) == Fwd(s.net, d)
  {
    assert OutOk(s.net, s.tickets[i].desc);
  }

  /** Closing a descriptor redirects no licence. */
  lemma {:induction false} ReapFrame(s: State, d: nat)
    requires Inv(s) && Enabled(s, Reap(d))
    ensures var s' := Apply(s, Reap(d));
      && s'.net.descs == s.net.descs
      && (forall i :: 0 <= i < |s.tickets| && s.tickets[i].count > 0 ==>
            Fwd(s'.net, s.tickets[i].desc) == Fwd(s.net, s.tickets[i].desc))
    ensures s.streams[d].refs == 0 && forall e :: 0 <= e < |s.streams| && s.streams[e].closed ==> s.streams[e].refs == 0
    ensures var k := KindOf(s.net, d);
      k.Identity? || k.Garbage? ==>
        k.out < |s.streams| && Rank(s.net, k.out) < Rank(s.net, d) && !s.streams[k.out].closed && s.streams[k.out].refs > 0
  {
    Unreferenced(s, d);
    var k := KindOf(s.net, d);
    forall e | 0 <= e < |s.streams| && s.streams[e].closed ensures s.streams[e].refs == 0 {
      assert EndsOk(s, e);
    }
    if k.Identity? || k.Garbage? {
      assert OutOk(s.net, d);
      OutHas(s.net.lands, LandOf(s, d), k.out);
      assert Balanced(s, k.out) && EndsOk(s, k.out);
      forall i | 0 <= i < |s.tickets| && s.tickets[i].count > 0
        ensures Fwd(Apply(s, Reap(d)).net, s.tickets[i].desc) == Fwd(s.net, s.tickets[i].desc)
      {
        GoneForwarding(s.net, Apply(s, Reap(d)).net, d, s.tickets[i].desc);
      }
    }
  }
}
