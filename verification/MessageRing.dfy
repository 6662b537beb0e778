/** The message buffer of a core: a ring of bytes between its writers and its reader. */
module MessageRing {

  type byte = b: int | 0 <= b < 256

  /** The ring as it stands: `begin` is where reading goes on, `end` where writing does. */
  datatype Ring = Ring(bytes: seq<byte>, begin: nat, end: nat)

  ghost predicate Proper(r: Ring) { r.begin < |r.bytes| && r.end < |r.bytes| }

  /** An index taken around the end of the buffer, at most once. */
  function Around(x: nat, size: nat): (y: nat)
    requires x < 2 * size
    ensures y < size
  {
    if x < size then x else x - size
  }

  lemma {:induction false} AroundIsModulo(x: nat, size: nat)
    requires x < 2 * size
    ensures x % size == Around(x, size)
  {
  }

  /** The bytes written and not yet read. */
  function Held(r: Ring): seq<byte>
    requires Proper(r)
  {
    if r.begin <= r.end then r.bytes[r.begin..r.end] else r.bytes[r.begin..] + r.bytes[..r.end]
  }

  /** The room behind `end` up to the end of the buffer, or up to the slot before `begin`. */
  function Room(r: Ring): (n: nat)
    requires Proper(r)
    ensures n == 0 <==> |Held(r)| == |r.bytes| - 1
    ensures |Held(r)| + n < |r.bytes| && r.end + n <= |r.bytes|
  {
    if r.end < r.begin then r.begin - r.end - 1 else |r.bytes| - r.end - (if r.begin == 0 then 1 else 0)
  }

  /** One round of writing: as much as there is room for in one piece. It ends only where the
      message, the buffer or the room in the ring does. */
  function Chunk(r: Ring, rest: seq<byte>): (n: nat)
    requires Proper(r)
    ensures n <= |rest| && n <= Room(r)
    ensures n == 0 <==> rest == [] || |Held(r)| == |r.bytes| - 1
    ensures n == |rest| || r.end + n == |r.bytes| || |Held(r)| + n == |r.bytes| - 1
  {
    if Room(r) < |rest| then Room(r) else |rest|
  }

  /** The ring after a piece has been copied in. */
  function Written(r: Ring, piece: seq<byte>): Ring
    requires Proper(r) && |piece| <= Room(r)
  {
    Ring(Over(r.bytes, r.end, piece), r.begin, Around(r.end + |piece|, |r.bytes|))
  }

  /** The ring after n bytes have been read. */
  function Taken(r: Ring, n: nat): Ring
    requires Proper(r) && n <= |Held(r)|
  {
    r.(begin := Around(r.begin + n, |r.bytes|))
  }

  /** Writing adds the piece behind everything unread, and overwrites nothing unread. */
  lemma {:induction false} WrittenHolds(r: Ring, piece: seq<byte>)
    requires Proper(r) && |piece| <= Room(r)
    ensures Proper(Written(r, piece)) && Held(Written(r, piece)) == Held(r) + piece
    ensures |Written(r, piece).bytes| == |r.bytes|
  {
    hide Room, Over;
    if r.end + |piece| == |r.bytes| {
      WrittenToEnd(r.bytes, r.begin, r.end, piece);
    } else if r.begin <= r.end {
      WrittenBehind(r.bytes, r.begin, r.end, piece);
    } else {
      WrittenBefore(r.bytes, r.begin, r.end, piece);
    }
  }

  /** The buffer with a piece copied over what stood at a position. */
  function Over(bytes: seq<byte>, at: nat, piece: seq<byte>): (after: seq<byte>)
    requires at + |piece| <= |bytes|
    ensures |after| == |bytes|
  {
    bytes[..at] + piece + bytes[at + |piece|..]
  }

  lemma {:induction false} WrittenToEnd(bytes: seq<byte>, begin: nat, end: nat, piece: seq<byte>)
    requires begin <= end && end + |piece| == |bytes|
    ensures Over(bytes, end, piece)[begin..] + Over(bytes, end, piece)[..0] == bytes[begin..end] + piece
  {
  }

  lemma {:induction false} WrittenBehind(bytes: seq<byte>, begin: nat, end: nat, piece: seq<byte>)
    requires begin <= end && end + |piece| < |bytes|
    ensures Over(bytes, end, piece)[begin..end + |piece|] == bytes[begin..end] + piece
  {
  }

  lemma {:induction false} WrittenBefore(bytes: seq<byte>, begin: nat, end: nat, piece: seq<byte>)
    requires end + |piece| < begin < |bytes|
    ensures Over(bytes, end, piece)[begin..] + Over(bytes, end, piece)[..end + |piece|] == (bytes[begin..] + bytes[..end]) + piece
  {
  }

  /** Reading takes the oldest bytes away and leaves the others. */
  lemma {:induction false} TakenHolds(r: Ring, n: nat)
    requires Proper(r) && n <= |Held(r)|
    ensures Proper(Taken(r, n)) && Held(Taken(r, n)) == Held(r)[n..] && |Taken(r, n).bytes| == |r.bytes|
  {
    if r.begin > r.end { TakenAround(r.bytes, r.begin, r.end, n); }
  }

  lemma {:induction false} TakenAround(bytes: seq<byte>, begin: nat, end: nat, n: nat)
    requires end < begin < |bytes| && n <= |bytes| - begin + end
    ensures (bytes[begin..] + bytes[..end])[n..] ==
      (if begin + n < |bytes| then bytes[begin + n..] + bytes[..end] else bytes[begin + n - |bytes|..end])
  {
  }

  /** What a reader can copy in one piece is the front of what is held. */
  lemma {:induction false} PieceIsFront(r: Ring, left: nat, piece: nat)
    requires Proper(r) && left <= |Held(r)|
    requires piece == (if r.end < r.begin && |r.bytes| - r.begin < left then |r.bytes| - r.begin else left)
    ensures r.begin + piece <= |r.bytes| && r.bytes[r.begin..r.begin + piece] == Held(r)[..piece]
  {
  }

  lemma {:induction false} TakenRing(r: Ring, n: nat)
    requires Proper(r) && n <= |Held(r)|
    ensures Taken(r, n) == Ring(r.bytes, Taken(r, n).begin, r.end)
  {
  }

  lemma {:induction false} TakenNone(r: Ring)
    requires Proper(r)
    ensures Taken(r, 0) == r
  {
  }

  /** One piece further, when k bytes have been read and some are left to read. */
  lemma {:induction false} ReadOn(r: Ring, k: nat, left: nat, piece: nat)
    requires Proper(r) && k + left <= |Held(r)|
    requires var at := Taken(r, k).begin;
      piece == if r.end < at && |r.bytes| - at < left then |r.bytes| - at else left
    ensures var at := Taken(r, k).begin;
      && at + piece <= |r.bytes| && at + piece < 2 * |r.bytes|
      && Held(r)[..k] + r.bytes[at..at + piece] == Held(r)[..k + piece]
      && Around(at + piece, |r.bytes|) == Taken(r, k + piece).begin
  {
    TakenHolds(r, k);
    PieceIsFront(Taken(r, k), left, piece);
    assert Held(r)[..k] + Held(r)[k..][..piece] == Held(r)[..k + piece];
  }

  // ---------- runs ----------

  datatype Step = Write(message: seq<byte>) | Read(size: nat)

  /** A run, with everything written and everything read so far. */
  datatype State = State(ring: Ring, written: seq<byte>, read: seq<byte>)

  /** A writer that has part of a message left writes one piece of it; a reader reads bytes that are there. */
  ghost predicate Enabled(s: State, step: Step)
    requires Proper(s.ring)
  {
    match step
    case Write(message) => true
    case Read(size) => size <= |Held(s.ring)|
  }

  function Next(s: State, step: Step): (s': State)
    requires Proper(s.ring) && Enabled(s, step)
  {
    match step
    case Write(message) =>
      var piece := message[..Chunk(s.ring, message)];
      State(Written(s.ring, piece), s.written + piece, s.read)
    case Read(size) => State(Taken(s.ring, size), s.written, s.read + Held(s.ring)[..size])
  }

  ghost predicate Run(states: seq<State>, steps: seq<Step>) {
    && |states| == |steps| + 1
    && Proper(states[0].ring) && states[0].ring.begin == states[0].ring.end && states[0].written == states[0].read == []
    && forall i :: 0 <= i < |steps| ==>
      Proper(states[i].ring) && Enabled(states[i], steps[i]) && states[i + 1] == Next(states[i], steps[i])
  }

  /** Nothing is lost, doubled or reordered, and one slot stays free. */
  ghost predicate Exact(s: State) {
    Proper(s.ring) && s.written == s.read + Held(s.ring) && |Held(s.ring)| < |s.ring.bytes|
  }

  lemma {:induction false} StepIsExact(s: State, step: Step)
    requires Exact(s) && Enabled(s, step)
    ensures Exact(Next(s, step))
  {
    hide Held, Written, Taken, Room, Chunk;
    match step
    case Write(message) =>
      var piece := message[..Chunk(s.ring, message)];
      WrittenHolds(s.ring, piece);
      assert s.read + (Held(s.ring) + piece) == (s.read + Held(s.ring)) + piece;
    case Read(size) =>
      TakenHolds(s.ring, size);
      assert Held(s.ring) == Held(s.ring)[..size] + Held(s.ring)[size..];
  }

  /** In every state of every run, the bytes read and those still held are the bytes written, in order. */
  lemma {:induction false} RunDelivers(states: seq<State>, steps: seq<Step>, n: nat)
    requires Run(states, steps) && n <= |steps|
    ensures Exact(states[n])
  {
    if n > 0 {
      RunDelivers(states, steps, n - 1);
      StepIsExact(states[n - 1], steps[n - 1]);
    }
  }

  // ---------- the buffer ----------

  class Buffer {
    const data: array<byte>
    var begin: nat
    var end: nat

    ghost predicate Valid()
      reads this, data
    {
      begin < data.Length && end < data.Length
    }

    ghost function Value(): (r: Ring)
      reads this, data
      requires Valid()
      ensures Proper(r)
    {
      Ring(data[..], begin, end)
    }

    constructor (size: nat)
      requires size > 0
      ensures Valid() && fresh(data) && data.Length == size && Held(Value()) == []
    {
      data := new byte[size];
      begin, end := 0, 0;
    }

    /** One round of the writer's loop: the next piece of a message, from position `at` on. */
    method WriteRound(message: seq<byte>, at: nat) returns (moved: nat)
      requires Valid() && at <= |message|
      modifies this`end, data
      ensures Valid() && moved == Chunk(old(Value()), message[at..])
      ensures Value() == Written(old(Value()), message[at..][..moved])
      ensures Held(Value()) == old(Held(Value())) + message[at..at + moved]
    {
      hide Held, Over;
      var free := if end < begin then begin - end - 1 else data.Length - end - (if begin == 0 then 1 else 0);
      moved := if free < |message| - at then free else |message| - at;
      ghost var was := Value();
      CopyIn(message, at, moved);
      AroundIsModulo(end + moved, data.Length);
      end := (end + moved) % data.Length;
      WrittenHolds(was, message[at..][..moved]);
      assert message[at..][..moved] == message[at..at + moved];
    }

    method CopyIn(message: seq<byte>, at: nat, n: nat)
      requires Valid() && at + n <= |message| && end + n <= data.Length
      modifies data
      ensures data[..] == Over(old(data[..]), end, message[at..at + n])
    {
      for i := 0 to n
        invariant forall j :: 0 <= j < data.Length ==> data[j] == if end <= j < end + i then message[at + (j - end)] else old(data[j])
      {
        data[end + i] := message[at + i];
      }
      assert data[..] == Over(old(data[..]), end, message[at..at + n]);
    }

    /** Read bytes that are there. */
    method Read(size: nat) returns (bytes: seq<byte>)
      requires Valid() && size <= |Held(Value())|
      modifies this`begin
      ensures Valid() && Value() == Taken(old(Value()), size)
      ensures bytes == old(Held(Value()))[..size] && Held(Value()) == old(Held(Value()))[size..]
    {
      hide Held, Taken, Around;
      ghost var was := Value();
      TakenNone(was);
      var at, left := begin, size;
      bytes := [];
      while left > 0
        modifies {}
        invariant 0 <= left <= size && at < data.Length && at == Taken(was, size - left).begin
        invariant bytes == Held(was)[..size - left]
      {
        var piece := if end < at && data.Length - at < left then data.Length - at else left;
        ReadOn(was, size - left, left, piece);
        bytes := bytes + data[at..at + piece];
        AroundIsModulo(at + piece, data.Length);
        at, left := (at + piece) % data.Length, left - piece;
      }
      TakenHolds(was, size);
      TakenRing(was, size);
      begin := at;
    }
  }
}
