/** The lock and the writing flag that should keep the messages of several writers apart. */
module MessageWriters {
  import opened Options
  import opened MessageRing

  /** A message: how many bytes have been written, what is left of the part being copied and
      how much of it has been copied, and the parts after it. */
  datatype Message = Message(written: nat, current: seq<byte>, copied: nat, later: seq<seq<byte>>)

  /** `log` names, for every byte written into the ring, the message it belongs to. */
  datatype Writers = Writers(ring: Ring, holder: Option<nat>, writing: bool, messages: map<nat, Message>, log: seq<nat>)

  predicate Fresh(s: Writers) {
    && s.ring.begin < |s.ring.bytes| && s.ring.begin == s.ring.end
    && s.holder == None && !s.writing && s.messages == map[] && s.log == []
  }

  predicate Unfinished(s: Writers, m: nat) { m in s.messages && (s.messages[m].current != [] || s.messages[m].later != []) }

  predicate Partial(s: Writers, m: nat) { Unfinished(s, m) && s.messages[m].written > 0 }

  predicate Holds(s: Writers, m: nat) { s.holder == Some(m) && m in s.messages }

  datatype Turn =
    | Start(m: nat, parts: seq<seq<byte>>) // the lock is taken while no one is writing
    | Part(m: nat)                 // the flag is set for the next part
    | Piece(m: nat)                // as much as there is room for is copied, and the flag cleared
    | Wait(m: nat)                 // the ring is full: the lock is let go
    | Resume(m: nat)               // the lock is taken again, whatever the flag says
    | Stop(m: nat)                 // the message is written: the lock is let go
    | Fetch(n: nat)                // the reader takes bytes, under the lock

  /** A part that is no shorter than the ring is refused with a fatal error. */
  ghost predicate May(s: Writers, turn: Turn)
    requires Proper(s.ring)
  {
    match turn
    case Start(m, parts) => s.holder == None && !s.writing && m !in s.messages && parts != []
    case Part(m) => Holds(s, m) && s.messages[m].current == [] && s.messages[m].later != [] && |s.messages[m].later[0]| < |s.ring.bytes|
    case Piece(m) => Holds(s, m) && s.messages[m].current != [] && Room(s.ring) > 0
    case Wait(m) => Holds(s, m) && s.messages[m].current != [] && Room(s.ring) == 0
    case Resume(m) => s.holder == None && m in s.messages && s.messages[m].current != []
    case Stop(m) => Holds(s, m) && !Unfinished(s, m)
    case Fetch(n) => s.holder == None && n <= |Held(s.ring)|
  }

  function After(s: Writers, turn: Turn): (s': Writers)
    requires Proper(s.ring) && May(s, turn)
  {
    match turn
    case Start(m, parts) => s.(holder := Some(m), messages := s.messages[m := Message(0, [], 0, parts)])
    case Part(m) =>
      var x := s.messages[m];
      s.(writing := true, messages := s.messages[m := x.(current := x.later[0], copied := 0, later := x.later[1..])])
    case Piece(m) =>
      var x := s.messages[m];
      var n := Chunk(s.ring, x.current);
      s.(ring := Written(s.ring, x.current[..n]), writing := false,
         messages := s.messages[m := x.(written := x.written + n, current := x.current[n..], copied := x.copied + n)],
         log := s.log + seq(n, i => m))
    case Wait(m) => s.(holder := None)
    case Resume(m) => s.(holder := Some(m))
    case Stop(m) => s.(holder := None)
    case Fetch(n) => s.(ring := Taken(s.ring, n))
  }

  ghost predicate Goes(states: seq<Writers>, turns: seq<Turn>) {
    && |states| == |turns| + 1 && Fresh(states[0])
    && forall i :: 0 <= i < |turns| ==> Leads(states[i], turns[i], states[i + 1])
  }

  ghost predicate Leads(s: Writers, turn: Turn, s': Writers) { Proper(s.ring) && May(s, turn) && s' == After(s, turn) }

  /** Every message stands in one piece in the buffer. */
  ghost predicate Whole(log: seq<nat>) {
    forall i, j, k :: 0 <= i < j < k < |log| && log[i] == log[k] ==> log[j] == log[i]
  }

  ghost predicate Inv(s: Writers) {
    && Proper(s.ring)
    && (forall i :: 0 <= i < |s.log| ==> s.log[i] in s.messages && s.messages[s.log[i]].written > 0)
    && (s.holder.Some? ==> s.holder.value in s.messages)
    && (forall m: nat :: Unfinished(s, m) && s.holder != Some(m) ==> s.messages[m].current != [])
    && (forall m :: m in s.messages && s.messages[m].written > 0 ==> m in s.log)
  }

  lemma {:induction false} TurnKeepsInv(s: Writers, turn: Turn, s': Writers)
    requires Inv(s) && Leads(s, turn, s')
    ensures Inv(s')
  {
    hide Room, Held, Written, Taken;
    match turn
    case Piece(m) => PieceKeepsInv(s, m, s');
    case Fetch(n) => TakenHolds(s.ring, n);
    case _ =>
  }

  lemma {:induction false} PieceKeepsInv(s: Writers, m: nat, s': Writers)
    requires Inv(s) && Leads(s, Piece(m), s')
    ensures Inv(s') && |s'.log| > |s.log|
  {
    hide Room, Held, Written;
    var n := Chunk(s.ring, s.messages[m].current);
    WrittenHolds(s.ring, s.messages[m].current[..n]);
    assert n > 0 by { Moves(s.ring, s.messages[m].current); }
    assert s'.log[|s.log|] == m;
    forall x | x in s'.messages && s'.messages[x].written > 0 ensures x in s'.log {
      if x != m { assert x in s.log; }
    }
  }

  lemma {:induction false} Moves(r: Ring, rest: seq<byte>)
    requires Proper(r) && rest != [] && Room(r) > 0
    ensures Chunk(r, rest) > 0
  {
  }

  // ---------- when messages stay whole ----------

  /** A piece is copied while another message stands in the buffer only in part. */
  ghost predicate Crosses(s: Writers, turn: Turn) {
    turn.Piece? && exists other :: other != turn.m && Partial(s, other)
  }

  /** Whole messages, and a message that is only there in part is the last one. */
  ghost predicate InOrder(s: Writers) {
    && Inv(s) && Whole(s.log)
    && forall m :: Partial(s, m) ==> s.log != [] && s.log[|s.log| - 1] == m
  }

  lemma {:induction false} UncrossedStaysWhole(s: Writers, turn: Turn, s': Writers)
    requires InOrder(s) && Leads(s, turn, s') && !Crosses(s, turn)
    ensures InOrder(s')
  {
    hide Room, Held, Written, Taken, Inv, Chunk;
    TurnKeepsInv(s, turn, s');
    if turn.Piece? {
      PieceKeepsInv(s, turn.m, s');
      PieceStaysWhole(s, turn.m, |s'.log| - |s.log|);
      forall m | Partial(s', m) ensures m == turn.m {
        assert m == turn.m || Partial(s, m);
      }
    } else {
      forall m | Partial(s', m) ensures Partial(s, m) { }
    }
  }

  lemma {:induction false} PieceStaysWhole(s: Writers, m: nat, n: nat)
    requires InOrder(s) && Holds(s, m) && Unfinished(s, m) && !Crosses(s, Piece(m))
    ensures Whole(s.log + seq(n, i => m))
  {
    hide Proper;
    var log := s.log + seq(n, i => m);
    forall i, j, k | 0 <= i < j < k < |log| && log[i] == log[k] ensures log[j] == log[i] {
      if k >= |s.log| && i < |s.log| {
        assert s.log[i] == m && Partial(s, m);
        if i < j < |s.log| - 1 { assert s.log[|s.log| - 1] == m; }
      }
    }
  }

  /** Between two bytes of one message stands a byte of another. */
  ghost predicate Broken(log: seq<nat>) {
    exists i, j, k :: 0 <= i < j < k < |log| && log[i] == log[k] && log[j] != log[i]
  }

  /** Another message's byte stands behind a byte of a message that has more to copy. */
  ghost predicate Overtaken(s: Writers, m: nat) {
    m in s.messages && s.messages[m].current != [] && exists i, j :: 0 <= i < j < |s.log| && s.log[i] == m && s.log[j] != m
  }

  ghost predicate Doomed(s: Writers, m: nat) { Broken(s.log) || Overtaken(s, m) }

  lemma {:induction false} LogGrows(s: Writers, turn: Turn, s': Writers)
    requires Leads(s, turn, s')
    ensures s.log <= s'.log
  {
  }

  lemma {:induction false} CrossingDooms(s: Writers, turn: Turn, s': Writers) returns (m: nat)
    requires Inv(s) && Leads(s, turn, s') && Crosses(s, turn)
    ensures Doomed(s', m)
  {
    hide Room, Held, Written, Chunk;
    PieceKeepsInv(s, turn.m, s');
    m :| m != turn.m && Partial(s, m);
    var i :| 0 <= i < |s.log| && s.log[i] == m;
    assert s'.log[i] == m && s'.log[|s.log|] == turn.m;
  }

  lemma {:induction false} DoomStays(s: Writers, turn: Turn, s': Writers, m: nat)
    requires Inv(s) && Doomed(s, m) && Leads(s, turn, s')
    ensures Doomed(s', m)
  {
    hide Room, Held, Written, Taken, Chunk;
    LogGrows(s, turn, s');
    if Broken(s.log) {
      BrokenStays(s.log, s'.log);
    } else if turn == Piece(m) {
      OvertakenBreaks(s, m, s');
    } else {
      var i, j :| 0 <= i < j < |s.log| && s.log[i] == m && s.log[j] != m;
      assert s'.log[i] == s.log[i] && s'.log[j] == s.log[j];
    }
  }

  lemma {:induction false} BrokenStays(log: seq<nat>, log': seq<nat>)
    requires Broken(log) && log <= log'
    ensures Broken(log')
  {
    var i, j, k :| 0 <= i < j < k < |log| && log[i] == log[k] && log[j] != log[i];
    assert log'[i] == log[i] && log'[j] == log[j] && log'[k] == log[k];
  }

  lemma {:induction false} OvertakenBreaks(s: Writers, m: nat, s': Writers)
    requires Inv(s) && Leads(s, Piece(m), s') && Overtaken(s, m)
    ensures Broken(s'.log)
  {
    hide Room, Held, Written, Chunk;
    PieceKeepsInv(s, m, s');
    var i, j :| 0 <= i < j < |s.log| && s.log[i] == m && s.log[j] != m;
    assert s'.log[i] == m && s'.log[j] == s.log[j] && s'.log[|s.log|] == m;
  }

  // ---------- where a piece crosses ----------

  /** At turn i a writer has found the ring full in the middle of its message and lets the
      lock go; at turn j, before it has the lock back, another one takes it, to start or to
      resume; and at turn k, before giving it up, that one finds room for a piece. */
  ghost predicate CutsIn(states: seq<Writers>, turns: seq<Turn>, i: int, j: int, k: int)
    requires |states| == |turns| + 1
  {
    && 0 <= i < j < k < |turns|
    && turns[i].Wait? && turns[i].m in states[i].messages && states[i].messages[turns[i].m].written > 0
    && (forall x :: i < x < j ==> turns[x] != Resume(turns[i].m))
    && Takes(turns[j]) && turns[j].m != turns[i].m
    && (forall x :: j < x < k ==> turns[x] != Wait(turns[j].m) && turns[x] != Stop(turns[j].m))
    && turns[k] == Piece(turns[j].m)
  }

  predicate Takes(turn: Turn) { turn.Start? || turn.Resume? }

  lemma {:induction false} RunInv(states: seq<Writers>, turns: seq<Turn>, n: nat)
    requires Goes(states, turns) && n <= |turns|
    ensures Inv(states[n])
  {
    if n > 0 {
      RunInv(states, turns, n - 1);
      assert Leads(states[n - 1], turns[n - 1], states[n]);
      TurnKeepsInv(states[n - 1], turns[n - 1], states[n]);
    }
  }

  /** Where the holder has taken the lock. */
  lemma {:induction false} TakenAt(states: seq<Writers>, turns: seq<Turn>, k: nat, b: nat) returns (j: nat)
    requires Goes(states, turns) && k <= |turns| && states[k].holder == Some(b)
    ensures j < k && Takes(turns[j]) && turns[j].m == b
    ensures forall x :: j < x <= k ==> states[x].holder == Some(b)
    ensures forall x :: j < x < k ==> turns[x] != Wait(b) && turns[x] != Stop(b)
  {
    hide After, Proper;
    assert Leads(states[k - 1], turns[k - 1], states[k]);
    HolderBefore(states[k - 1], turns[k - 1], states[k], b);
    if Takes(turns[k - 1]) {
      j := k - 1;
    } else {
      j := TakenAt(states, turns, k - 1, b);
    }
  }

  lemma {:induction false} HolderBefore(s: Writers, turn: Turn, s': Writers, b: nat)
    requires Leads(s, turn, s') && s'.holder == Some(b)
    ensures (Takes(turn) && turn.m == b) || (s.holder == Some(b) && !Takes(turn) && turn != Wait(b) && turn != Stop(b))
  {
  }

  /** Where a writer that does not hold the lock, with part of its message left, has let it go. */
  lemma {:induction false} WaitsSince(states: seq<Writers>, turns: seq<Turn>, j: nat, a: nat) returns (i: nat)
    requires Goes(states, turns) && j <= |turns| && Unfinished(states[j], a) && states[j].holder != Some(a)
    ensures i < j && turns[i] == Wait(a)
    ensures forall x :: i < x < j ==> turns[x] != Resume(a)
    ensures a in states[i].messages && states[i].messages[a] == states[j].messages[a]
  {
    hide After, Proper;
    assert Leads(states[j - 1], turns[j - 1], states[j]);
    OutsideBefore(states[j - 1], turns[j - 1], states[j], a);
    if turns[j - 1] == Wait(a) {
      i := j - 1;
    } else {
      i := WaitsSince(states, turns, j - 1, a);
    }
  }

  lemma {:induction false} OutsideBefore(s: Writers, turn: Turn, s': Writers, a: nat)
    requires Leads(s, turn, s') && Unfinished(s', a) && s'.holder != Some(a)
    ensures Unfinished(s, a) && s'.messages[a] == s.messages[a] && turn != Resume(a)
    ensures turn == Wait(a) || s.holder != Some(a)
  {
  }

  /** A writer that has let the lock go stays as it is until it has it back. */
  lemma {:induction false} StillWaits(states: seq<Writers>, turns: seq<Turn>, i: nat, x: nat, a: nat)
    requires Goes(states, turns) && i < x <= |turns| && turns[i] == Wait(a)
    requires forall y :: i < y < x ==> turns[y] != Resume(a)
    ensures states[x].holder != Some(a) && a in states[i].messages && a in states[x].messages
    ensures states[x].messages[a] == states[i].messages[a] && states[i].messages[a].current != []
  {
    assert Leads(states[x - 1], turns[x - 1], states[x]);
    if x > i + 1 { StillWaits(states, turns, i, x - 1, a); }
  }

  /** ... and one that has taken it keeps it until it lets it go. */
  lemma {:induction false} StillHolds(states: seq<Writers>, turns: seq<Turn>, j: nat, x: nat)
    requires Goes(states, turns) && j < x <= |turns| && Takes(turns[j])
    requires forall y :: j < y < x ==> turns[y] != Wait(turns[j].m) && turns[y] != Stop(turns[j].m)
    ensures states[x].holder == Some(turns[j].m)
    ensures forall y :: j < y < x ==> !Takes(turns[y])
  {
    hide Proper, Fresh;
    assert Leads(states[x - 1], turns[x - 1], states[x]);
    if x > j + 1 { StillHolds(states, turns, j, x - 1); }
  }

  lemma {:induction false} CrossesWhereCutIn(states: seq<Writers>, turns: seq<Turn>, i: nat, j: nat, k: nat)
    requires Goes(states, turns) && CutsIn(states, turns, i, j, k)
    ensures Crosses(states[k], turns[k])
  {
    var a := turns[i].m;
    StillHolds(states, turns, j, k);
    assert forall y :: i < y < k ==> turns[y] != Resume(a);
    StillWaits(states, turns, i, k, a);
    assert Partial(states[k], a);
  }

  lemma {:induction false} CutInWhereCrosses(states: seq<Writers>, turns: seq<Turn>, k: nat) returns (i: nat, j: nat)
    requires Goes(states, turns) && k < |turns| && Crosses(states[k], turns[k])
    ensures CutsIn(states, turns, i, j, k)
  {
    hide After, Proper;
    var b := turns[k].m;
    assert Leads(states[k], turns[k], states[k + 1]);
    var a :| a != b && Partial(states[k], a);
    j := TakenAt(states, turns, k, b);
    Undisturbed(states, turns, j, k, a);
    i := WaitsSince(states, turns, j, a);
  }

  /** What another writer does while it has the lock leaves a waiting one as it was. */
  lemma {:induction false} Undisturbed(states: seq<Writers>, turns: seq<Turn>, j: nat, x: nat, a: nat)
    requires Goes(states, turns) && j < x <= |turns| && Takes(turns[j]) && turns[j].m != a
    requires forall y :: j < y <= x ==> states[y].holder == Some(turns[j].m)
    requires Partial(states[x], a)
    ensures Partial(states[j], a) && states[j].holder != Some(a) && states[j].messages[a] == states[x].messages[a]
  {
    assert Leads(states[x - 1], turns[x - 1], states[x]);
    assert states[x].holder == Some(turns[j].m);
    if x > j + 1 { Undisturbed(states, turns, j, x - 1, a); }
  }

  ghost predicate SomeoneCutsIn(states: seq<Writers>, turns: seq<Turn>)
    requires |states| == |turns| + 1
  {
    exists i, j, k :: CutsIn(states, turns, i, j, k)
  }

  /** A run whose messages are all finished has them whole in the buffer if and only if no
      writer cuts in: takes the lock while another one, which found the ring full after the
      first bytes of its message, is without it, and finds room for a piece first. */
  lemma {:induction false} WholeExactly(states: seq<Writers>, turns: seq<Turn>)
    requires Goes(states, turns)
    requires forall m :: !Unfinished(states[|turns|], m)
    ensures Whole(states[|turns|].log) <==> !SomeoneCutsIn(states, turns)
  {
    hide CutsIn, Crosses, InOrder, Leads, Inv;
    if SomeoneCutsIn(states, turns) {
      var i, j, c :| CutsIn(states, turns, i, j, c);
      assert 0 <= i < j < c < |turns| by { CutsOrder(states, turns, i, j, c); }
      CrossesWhereCutIn(states, turns, i, j, c);
      BrokenInTheEnd(states, turns, c);
    } else {
      WholeUpTo(states, turns, |turns|);
      assert Whole(states[|turns|].log) by { InOrderWhole(states[|turns|]); }
    }
  }

  lemma {:induction false} CutsOrder(states: seq<Writers>, turns: seq<Turn>, i: int, j: int, k: int)
    requires |states| == |turns| + 1 && CutsIn(states, turns, i, j, k)
    ensures 0 <= i < j < k < |turns|
  {
  }

  lemma {:induction false} InOrderWhole(s: Writers)
    requires InOrder(s)
    ensures Whole(s.log)
  {
  }

  lemma {:induction false} WholeUpTo(states: seq<Writers>, turns: seq<Turn>, n: nat)
    requires Goes(states, turns) && n <= |turns| && !SomeoneCutsIn(states, turns)
    ensures InOrder(states[n])
  {
    hide CutsIn;
    if n > 0 {
      WholeUpTo(states, turns, n - 1);
      assert Leads(states[n - 1], turns[n - 1], states[n]);
      if Crosses(states[n - 1], turns[n - 1]) {
        var i, j := CutInWhereCrosses(states, turns, n - 1);
        assert false;
      }
      UncrossedStaysWhole(states[n - 1], turns[n - 1], states[n]);
    }
  }

  lemma {:induction false} BrokenInTheEnd(states: seq<Writers>, turns: seq<Turn>, c: nat)
    requires Goes(states, turns) && c < |turns| && Crosses(states[c], turns[c])
    requires forall m :: !Unfinished(states[|turns|], m)
    ensures !Whole(states[|turns|].log)
  {
    hide Crosses, Broken;
    RunInv(states, turns, c);
    assert Leads(states[c], turns[c], states[c + 1]);
    var m := CrossingDooms(states[c], turns[c], states[c + 1]);
    DoomedInTheEnd(states, turns, c + 1, |turns|, m);
    assert !Unfinished(states[|turns|], m);
    NotWhole(states[|turns|].log);
  }

  lemma {:induction false} NotWhole(log: seq<nat>)
    requires Broken(log)
    ensures !Whole(log)
  {
  }

  lemma {:induction false} DoomedInTheEnd(states: seq<Writers>, turns: seq<Turn>, c: nat, n: nat, m: nat)
    requires Goes(states, turns) && c <= n <= |turns| && Doomed(states[c], m)
    ensures Doomed(states[n], m)
  {
    hide Doomed, After, May, Proper, Inv, Fresh;
    if n > c {
      DoomedInTheEnd(states, turns, c, n - 1, m);
      RunInv(states, turns, n - 1);
      assert Leads(states[n - 1], turns[n - 1], states[n]);
      DoomStays(states[n - 1], turns[n - 1], states[n], m);
    }
  }

  // ---------- what the flag is good for ----------

  /** One message at a time; a writer that has the lock sees the flag set exactly before the
      first piece of a part; and while nobody has it, the flag stands for the one who waits. */
  ghost predicate OneAtATime(s: Writers) {
    && Inv(s)
    && (forall a, b :: Unfinished(s, a) && Unfinished(s, b) ==> a == b)
    && (forall m: nat :: Unfinished(s, m) && s.holder != Some(m) ==> s.holder == None && s.writing && s.messages[m].copied == 0)
    && (forall m: nat :: Holds(s, m) && s.messages[m].current != [] ==> (s.writing <==> s.messages[m].copied == 0))
  }

  /** When the ring is never full within a part, but only before its first piece, a waiting
      writer leaves the flag set, no one else starts, and all messages stay whole. */
  lemma {:induction false} FlagKeepsApart(states: seq<Writers>, turns: seq<Turn>, n: nat)
    requires Goes(states, turns) && n <= |turns|
    requires forall i, m :: 0 <= i < n && turns[i] == Wait(m) && m in states[i].messages ==> states[i].messages[m].copied == 0
    ensures OneAtATime(states[n]) && InOrder(states[n])
    ensures forall i :: 0 <= i < n && turns[i].Wait? ==> states[i].writing
  {
    hide OneAtATime, InOrder, Crosses;
    if n > 0 {
      FlagKeepsApart(states, turns, n - 1);
      var s, turn := states[n - 1], turns[n - 1];
      assert Leads(s, turn, states[n]);
      NoneCrosses(s, turn, states[n]);
      UncrossedStaysWhole(s, turn, states[n]);
      FlagTurn(s, turn, states[n]);
    } else {
      AtFirst(states[0]);
    }
  }

  lemma {:induction false} AtFirst(s: Writers)
    requires Fresh(s)
    ensures OneAtATime(s) && InOrder(s)
  {
  }

  lemma {:induction false} NoneCrosses(s: Writers, turn: Turn, s': Writers)
    requires OneAtATime(s) && Leads(s, turn, s')
    ensures !Crosses(s, turn)
  {
  }

  lemma {:induction false} FlagTurn(s: Writers, turn: Turn, s': Writers)
    requires OneAtATime(s) && Leads(s, turn, s') && (turn.Wait? && turn.m in s.messages ==> s.messages[turn.m].copied == 0)
    ensures OneAtATime(s') && (turn.Wait? ==> s.writing)
  {
    hide Room, Held, Written, Taken, Inv;
    TurnKeepsInv(s, turn, s');
    OneUnfinished(s, turn, s');
    WaitingFlag(s, turn, s');
    if turn.Piece? { CopiedSome(s, turn.m, s'); }
  }

  lemma {:induction false} CopiedSome(s: Writers, m: nat, s': Writers)
    requires Leads(s, Piece(m), s')
    ensures s'.messages[m].copied > 0 && !s'.writing
  {
    Moves(s.ring, s.messages[m].current);
  }

  lemma {:induction false} OneUnfinished(s: Writers, turn: Turn, s': Writers)
    requires OneAtATime(s) && Leads(s, turn, s')
    ensures forall a, b :: Unfinished(s', a) && Unfinished(s', b) ==> a == b
  {
    hide Room, Held, Written, Taken, Inv;
    forall a: nat, b: nat | Unfinished(s', a) && Unfinished(s', b) ensures a == b {
      assert (turn.Start? && a == turn.m) || Unfinished(s, a);
      assert (turn.Start? && b == turn.m) || Unfinished(s, b);
    }
  }

  lemma {:induction false} WaitingFlag(s: Writers, turn: Turn, s': Writers)
    requires OneAtATime(s) && Leads(s, turn, s') && (turn.Wait? && turn.m in s.messages ==> s.messages[turn.m].copied == 0)
    ensures forall m: nat :: Unfinished(s', m) && s'.holder != Some(m) ==>
      s'.holder == None && s'.writing && s'.messages[m].copied == 0
  {
    hide Room, Held, Written, Taken, Inv;
    assert turn.Resume? ==> Unfinished(s, turn.m);
    forall m: nat | Unfinished(s', m) && s'.holder != Some(m)
      ensures s'.holder == None && s'.writing && s'.messages[m].copied == 0
    {
      OutsideBefore(s, turn, s', m);
    }
  }

  // ---------- a run that mixes ----------

  const MIX: seq<Turn> := [Start(0, [[1], [2, 2]]), Part(0), Piece(0), Part(0), Piece(0), Wait(0), Fetch(2),
                           Start(1, [[3]]), Part(1), Piece(1), Stop(1), Resume(0), Piece(0)]

  const EMPTY := Ring([0, 0, 0], 0, 0)
  const ONE := Ring([1, 0, 0], 0, 1)
  const FULL := Ring([1, 2, 0], 0, 2)
  const READ := Ring([1, 2, 0], 2, 2)
  const CUT := Ring([1, 2, 3], 2, 0)
  const LAST := Ring([2, 2, 3], 2, 1)

  const HALF := Message(2, [2], 1, [])

  function Mixing(n: nat): Writers
    requires n <= 13
  {
    if n == 0 then Writers(EMPTY, None, false, map[], [])
    else if n == 1 then Writers(EMPTY, Some(0), false, map[0 := Message(0, [], 0, [[1], [2, 2]])], [])
    else if n == 2 then Writers(EMPTY, Some(0), true, map[0 := Message(0, [1], 0, [[2, 2]])], [])
    else if n == 3 then Writers(ONE, Some(0), false, map[0 := Message(1, [], 1, [[2, 2]])], [0])
    else if n == 4 then Writers(ONE, Some(0), true, map[0 := Message(1, [2, 2], 0, [])], [0])
    else if n == 5 then Writers(FULL, Some(0), false, map[0 := HALF], [0, 0])
    else if n == 6 then Writers(FULL, None, false, map[0 := HALF], [0, 0])
    else if n == 7 then Writers(READ, None, false, map[0 := HALF], [0, 0])
    else if n == 8 then Writers(READ, Some(1), false, map[0 := HALF, 1 := Message(0, [], 0, [[3]])], [0, 0])
    else if n == 9 then Writers(READ, Some(1), true, map[0 := HALF, 1 := Message(0, [3], 0, [])], [0, 0])
    else if n == 10 then Writers(CUT, Some(1), false, map[0 := HALF, 1 := Message(1, [], 1, [])], [0, 0, 1])
    else if n == 11 then Writers(CUT, None, false, map[0 := HALF, 1 := Message(1, [], 1, [])], [0, 0, 1])
    else if n == 12 then Writers(CUT, Some(0), false, map[0 := HALF, 1 := Message(1, [], 1, [])], [0, 0, 1])
    else Writers(LAST, Some(0), false, map[0 := Message(3, [], 2, []), 1 := Message(1, [], 1, [])], [0, 0, 1, 0])
  }

  lemma {:induction false} PieceAt2()
    ensures Leads(Mixing(2), Piece(0), Mixing(3))
  {
    PieceOnto(EMPTY, [1], 1);
    assert Over([0, 0, 0], 0, [1]) == [1, 0, 0];
    assert [1][..1] == [1] && [1][1..] == [] && [] + seq(1, i => 0) == [0];
  }

  lemma {:induction false} PieceAt4()
    ensures Leads(Mixing(4), Piece(0), Mixing(5))
  {
    PieceOnto(ONE, [2, 2], 1);
    assert Over([1, 0, 0], 1, [2]) == [1, 2, 0];
    assert [2, 2][..1] == [2] && [2, 2][1..] == [2];
    assert [0] + seq(1, i => 0) == [0, 0];
  }

  lemma {:induction false} PieceAt9()
    ensures Leads(Mixing(9), Piece(1), Mixing(10))
  {
    PieceOnto(READ, [3], 1);
    assert Over([1, 2, 0], 2, [3]) == [1, 2, 3];
    assert [3][..1] == [3] && [3][1..] == [] && [0, 0] + seq(1, i => 1) == [0, 0, 1];
  }

  lemma {:induction false} PieceAt12()
    ensures Leads(Mixing(12), Piece(0), Mixing(13))
  {
    PieceOnto(CUT, [2], 1);
    assert Over([1, 2, 3], 0, [2]) == [2, 2, 3];
    assert [0, 0, 1] + seq(1, i => 0) == [0, 0, 1, 0];
  }

  lemma {:induction false} PieceOnto(r: Ring, rest: seq<byte>, n: nat)
    requires Proper(r) && n <= |rest| && (n == |rest| || Room(r) == n) && n <= Room(r)
    ensures Chunk(r, rest) == n && Written(r, rest[..n]) == Ring(Over(r.bytes, r.end, rest[..n]), r.begin, Around(r.end + n, |r.bytes|))
  {
  }

  lemma {:induction false} FirstTurns(n: nat)
    requires n in {0, 1, 3, 5, 6}
    ensures Leads(Mixing(n), MIX[n], Mixing(n + 1))
  {
    if n == 1 { assert [[1], [2, 2]][1..] == [[2, 2]]; }
    if n == 3 { assert [[2, 2]][1..] == []; }
    if n == 5 { assert After(Mixing(5), Wait(0)) == Mixing(6); }
    if n == 6 { assert Held(FULL) == [1, 2]; }
  }

  lemma {:induction false} LastTurns(n: nat)
    requires n in {7, 8, 10, 11}
    ensures Leads(Mixing(n), MIX[n], Mixing(n + 1))
  {
    if n == 8 { assert [[3]][1..] == []; }
    if n == 11 { assert After(Mixing(11), Resume(0)) == Mixing(12); }
    if n == 10 { assert After(Mixing(10), Stop(1)) == Mixing(11); }
  }

  /** Copying the first piece of a part clears the flag. A writer that then has to wait for
      room lets another one start, and its message comes out in two pieces. */
  lemma {:induction false} MessagesCanMix()
    ensures exists states: seq<Writers> ::
      Goes(states, MIX) && (forall m: nat :: !Unfinished(states[13], m)) && states[13].log == [0, 0, 1, 0] && CutsIn(states, MIX, 5, 7, 9)
  {
    hide Leads;
    var states := seq(14, n requires 0 <= n < 14 => Mixing(n));
    PieceAt2();
    PieceAt4();
    PieceAt9();
    PieceAt12();
    forall i | 0 <= i < |MIX| ensures Leads(states[i], MIX[i], states[i + 1]) {
      if i in {0, 1, 3, 5, 6} { FirstTurns(i); } else if i in {7, 8, 10, 11} { LastTurns(i); }
    }
    assert Goes(states, MIX);
  }
}
