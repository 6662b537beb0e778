/** The reference tables of the owner and the remote node, for all pointers, and the
    functions that keep them. For each pointer they follow the protocol of References. */
module ReferenceTables {
  import opened Options
  import opened References

  class Tables {
    var local: map<int, LocalEntry>            // the owner's table
    var remote: map<int, RemoteEntry>          // the remote node's table
    var handles: map<int, seq<Object>>         // the remote node's live references
    var toOwner: map<int, seq<ToOwner>>        // messages under way, by pointer
    var toRemote: map<int, seq<ToRemote>>
    var served: map<int, seq<(Object, Object)>>
    ghost var unused: map<int, Object>
    ghost var leak: map<int, nat>

    static function All<T>(m: map<int, seq<T>>, p: int): seq<T> {
      if p in m then m[p] else []
    }

    static function Entry<T>(m: map<int, T>, p: int): Option<T> {
      if p in m then Some(m[p]) else None
    }

    static function Number(m: map<int, nat>, p: int): nat {
      if p in m then m[p] else 0
    }

    /** What the tables and channels say about one pointer. */
    ghost function Project(p: int): System
      reads this
    {
      System(Entry(local, p), Entry(remote, p), All(handles, p), All(toOwner, p), All(toRemote, p),
             Number(unused, p), All(served, p), Number(leak, p))
    }

    ghost predicate Valid()
      reads this
    {
      forall p :: Inv(Project(p))
    }

    /** The step for one pointer, and nothing else. */
    twostate predicate Performs(p: int, step: Step)
      requires old(Valid()) && Enabled(old(Project(p)), step)
      reads this
    {
      && Next(old(Project(p)), step) == Some(Project(p))
      && forall q :: q != p ==> Project(q) == old(Project(q))
    }

    constructor ()
      ensures Valid() && forall p :: Project(p) == Start()
    {
      local, remote, handles, toOwner, toRemote, served := map[], map[], map[], map[], map[], map[];
      unused, leak := map[], map[];
    }

    /** The owner sends a reference to its data: the data its entry holds, if there is
        one, or new data behind the pointer. */
    method OutgoingLocal(p: int, data: Object)
      requires Valid()
      requires data == (if p in local then local[p].data else Number(unused, p))
      modifies this
      ensures Valid() && Performs(p, Send)
    {
      hide Inv;
      StepKeepsInv(Project(p), Send);
      if p in local {
        local := local[p := local[p].(count := local[p].count + 1)];
      } else {
        local := local[p := LocalEntry(1, data)];
        unused := unused[p := data + 1];
      }
      toRemote := toRemote[p := All(toRemote, p) + [Ref(data)]];
      forall q ensures Inv(Project(q)) {
        assert q != p ==> Project(q) == old(Project(q)) && Inv(old(Project(q)));
      }
    }

    /** Change the owner's counter; an entry that reaches zero is dropped. */
    method Count(p: int, value: int)
      requires p in local
      modifies this`local
      ensures Entry(local, p) == Nonzero(old(local)[p].(count := old(local)[p].count + value))
      ensures forall q :: q != p ==> Entry(local, q) == Entry(old(local), q)
    {
      local := local[p := local[p].(count := local[p].count + value)];
      if local[p].count == 0 {
        local := local - {p};
      }
    }

    /** The owner handles a message: a counter update, a returned reference, or a fetch,
        which is answered with a copy of the data before the reference is counted down. */
    method OwnerHandles(p: int)
      requires Valid() && All(toOwner, p) != []
      modifies this
      ensures Valid() && Performs(p, OwnerReceives)
    {
      hide Inv;
      StepKeepsInv(Project(p), OwnerReceives);
      var m := toOwner[p][0];
      toOwner := toOwner[p := toOwner[p][1..]];
      match m {
        case Update(value) => Count(p, value);
        case Returned => Count(p, -1);
        case Fetch =>
          toRemote := toRemote[p := All(toRemote, p) + [Set(local[p].data)]];
          Count(p, -1);
      }
      forall q ensures Inv(Project(q)) {
        assert q != p ==> Project(q) == old(Project(q)) && Inv(old(Project(q)));
      }
    }

    /** The remote node takes in a reference. */
    method IncomingRemote(p: int)
      requires Valid() && All(toRemote, p) != [] && toRemote[p][0].Ref?
      modifies this
      ensures Valid() && Performs(p, RemoteReceives)
    {
      hide Inv;
      StepKeepsInv(Project(p), RemoteReceives);
      var data := toRemote[p][0].data;
      if p in remote {
        remote := remote[p := remote[p].(count := remote[p].count + 1)];
      } else {
        remote := remote[p := RemoteEntry(1, None, [])];
      }
      handles := handles[p := All(handles, p) + [data]];
      toRemote := toRemote[p := toRemote[p][1..]];
      forall q ensures Inv(Project(q)) {
        assert q != p ==> Project(q) == old(Project(q)) && Inv(old(Project(q)));
      }
    }

    /** The remote node takes in the data: all waiters are answered and counted down;
        the data stays for the references that are left. */
    method SetData(p: int)
      requires Valid() && All(toRemote, p) != [] && toRemote[p][0].Set?
      modifies this
      ensures Valid() && Performs(p, RemoteReceives)
      ensures |All(served, p)| == |old(All(served, p))| + |old(remote)[p].waiters|
      ensures forall i :: 0 <= i < |old(remote)[p].waiters| ==>
        All(served, p)[|old(All(served, p))| + i] == (old(remote)[p].waiters[i], old(toRemote)[p][0].data)
    {
      hide Inv, Drop, Export, Adjust, Import, Without;
      StepKeepsInv(Project(p), RemoteReceives);
      var data, waiters := toRemote[p][0].data, remote[p].waiters;
      var rest, answers := AnswerWaiters(remote[p], data);
      assert answers == Pairs(waiters, data);
      served := served[p := All(served, p) + answers];
      leak := leak[p := Number(leak, p) + if |waiters| > 0 then |waiters| - 1 else 0];
      remote := if rest.count > 0 then remote[p := rest.(data := Some(data))] else remote - {p};
      toRemote := toRemote[p := toRemote[p][1..]];
      forall q ensures Inv(Project(q)) {
        assert q != p ==> Project(q) == old(Project(q)) && Inv(old(Project(q)));
      }
    }

    /** Hand a copy of the data to every waiter, counting each down. */
    static method AnswerWaiters(e: RemoteEntry, data: Object) returns (rest: RemoteEntry, answers: seq<(Object, Object)>)
      ensures rest == e.(count := e.count - |e.waiters|, waiters := [])
      ensures |answers| == |e.waiters| && forall i :: 0 <= i < |answers| ==> answers[i] == (e.waiters[i], data)
    {
      rest, answers := e, [];
      while rest.waiters != []
        invariant |rest.waiters| <= |e.waiters| && rest.waiters == e.waiters[|e.waiters| - |rest.waiters|..]
        invariant rest.count == e.count - (|e.waiters| - |rest.waiters|) && rest.data == e.data
        invariant |answers| == |e.waiters| - |rest.waiters|
        invariant forall i :: 0 <= i < |answers| ==> answers[i] == (e.waiters[i], data)
        decreases |rest.waiters|
      {
        answers := answers + [(rest.waiters[0], data)];
        rest := rest.(waiters := rest.waiters[1..], count := rest.count - 1);
      }
    }

    /** Copy a reference: fetched data is copied on the spot, otherwise the owner is told. */
    method CopyRef(p: int, h: nat)
      requires Valid() && h < |All(handles, p)|
      modifies this
      ensures Valid() && Performs(p, Copy(h))
    {
      hide Inv;
      StepKeepsInv(Project(p), Copy(h));
      if remote[p].data.None? {
        remote := remote[p := remote[p].(count := remote[p].count + 1)];
        toOwner := toOwner[p := All(toOwner, p) + [Update(1)]];
        handles := handles[p := handles[p] + [handles[p][h]]];
      }
      forall q ensures Inv(Project(q)) {
        assert q != p ==> Project(q) == old(Project(q)) && Inv(old(Project(q)));
      }
    }

    /** Turn a reference into data: fetch it, wait for a fetch under way, or use the
        fetched data, giving up the reference. */
    method TakeData(p: int, h: nat)
      requires Valid() && h < |All(handles, p)|
      modifies this
      ensures Valid() && Performs(p, GetData(h))
    {
      hide Inv, Pairs, Drop, Export, Adjust, Import;
      StepKeepsInv(Project(p), GetData(h));
      var want := handles[p][h];
      handles := handles[p := Without(handles[p], h)];
      if remote[p].data.None? {
        if remote[p].waiters == [] {
          toOwner := toOwner[p := All(toOwner, p) + [Fetch]];
        }
        remote := remote[p := remote[p].(waiters := remote[p].waiters + [want])];
      } else {
        var data := remote[p].data.value;
        toOwner := toOwner[p := All(toOwner, p) + [Update(-1)]];
        served := served[p := All(served, p) + [(want, data)]];
        Release(p);
      }
      forall q ensures Inv(Project(q)) {
        assert q != p ==> Project(q) == old(Project(q)) && Inv(old(Project(q)));
      }
    }

    /** Count a reference down at the remote node. */
    method Release(p: int)
      requires p in remote
      modifies this`remote
      ensures Entry(remote, p) == Drop(old(remote)[p])
      ensures forall q :: q != p ==> Entry(remote, q) == Entry(old(remote), q)
    {
      remote := remote[p := remote[p].(count := remote[p].count - 1)];
      if remote[p].count == 0 {
        remote := remote - {p};
      }
    }

    method DestroyRef(p: int, h: nat)
      requires Valid() && h < |All(handles, p)|
      modifies this
      ensures Valid() && Performs(p, Destroy(h))
    {
      hide Inv;
      StepKeepsInv(Project(p), Destroy(h));
      handles := handles[p := Without(handles[p], h)];
      toOwner := toOwner[p := All(toOwner, p) + [Update(-1)]];
      Release(p);
      forall q ensures Inv(Project(q)) {
        assert q != p ==> Project(q) == old(Project(q)) && Inv(old(Project(q)));
      }
    }

    /** The remote node sends a reference back to the owner. */
    method OutgoingRemote(p: int, h: nat)
      requires Valid() && h < |All(handles, p)|
      modifies this
      ensures Valid() && Performs(p, Return(h))
    {
      hide Inv;
      StepKeepsInv(Project(p), Return(h));
      handles := handles[p := Without(handles[p], h)];
      Release(p);
      toOwner := toOwner[p := All(toOwner, p) + [Returned]];
      forall q ensures Inv(Project(q)) {
        assert q != p ==> Project(q) == old(Project(q)) && Inv(old(Project(q)));
      }
    }
  }
}
