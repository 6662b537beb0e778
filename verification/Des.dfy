/** The block cipher of the DES example, bit by bit: bit 0 is the highest of the first byte. */
module Des {
  import opened DesTables

  type Bits = seq<bool>

  /** Bit i of the result is the bit that the map names for i. */
  function Permuted(bits: Bits, table: Map): (r: Bits)
    requires InRange(table, |bits|)
    ensures |r| == 8 * |table| && forall i :: 0 <= i < 8 * |table| ==> r[i] == bits[Entry(table, i)]
  {
    seq(8 * |table|, i requires 0 <= i < 8 * |table| => bits[Entry(table, i)])
  }

  function Xor(a: Bits, b: Bits): (r: Bits)
    requires |a| == |b|
    ensures |r| == |a| && forall i :: 0 <= i < |a| ==> r[i] == (a[i] != b[i])
  {
    seq(|a|, i requires 0 <= i < |a| => a[i] != b[i])
  }

  // ---------- keys ----------

  function Rotated(half: Bits, n: nat): (r: Bits)
    requires n <= |half|
    ensures |r| == |half|
  {
    half[n..] + half[..n]
  }

  /** Both halves of the key register, rotated left. */
  function Shifted(key: Bits, n: nat): (r: Bits)
    requires |key| == 56 && n <= 28
    ensures |r| == 56
  {
    Rotated(key[..28], n) + Rotated(key[28..], n)
  }

  /** The key register after r rounds. */
  function KeyAt(key: Bits, r: nat): (k: Bits)
    requires |key| == 56 && r <= 16
    ensures |k| == 56
  {
    if r == 0 then key else Shifted(KeyAt(key, r - 1), KEY_ROTATION[r - 1])
  }

  function Turns(r: nat): nat
    requires r <= 16
  {
    if r == 0 then 0 else Turns(r - 1) + KEY_ROTATION[r - 1]
  }

  function Subkey(key: Bits, r: nat): (k: Bits)
    requires |key| == 56 && r < 16
    ensures |k| == 48
  {
    MapsInRange();
    Permuted(KeyAt(key, r + 1), KEY_COMPRESSION)
  }

  lemma {:induction false} ShiftedTwice(key: Bits, a: nat, b: nat)
    requires |key| == 56 && a + b <= 28
    ensures Shifted(Shifted(key, a), b) == Shifted(key, a + b)
  {
    var once := Shifted(key, a);
    assert once[..28] == Rotated(key[..28], a);
    assert once[28..] == Rotated(key[28..], a);
    RotatedTwice(key[..28], a, b);
    RotatedTwice(key[28..], a, b);
  }

  lemma {:induction false} RotatedTwice(h: Bits, a: nat, b: nat)
    requires a + b <= |h|
    ensures Rotated(Rotated(h, a), b) == Rotated(h, a + b)
  {
    assert Rotated(h, a)[b..] == h[a + b..] + h[..a];
    assert Rotated(h, a)[..b] == h[a..a + b];
    assert h[..a + b] == h[..a] + h[a..a + b];
  }

  lemma {:induction false} TurnsAll()
    ensures Turns(16) == 28
    ensures forall r :: 0 <= r < 16 ==> KEY_ROTATION[r] <= 2
  {
    FirstTurns();
    SecondTurns();
  }

  lemma {:induction false} FirstTurns()
    ensures Turns(8) == 14
  {
    assert Turns(1) == 1 && Turns(2) == 2 && Turns(3) == 4 && Turns(4) == 6;
    assert Turns(5) == 8 && Turns(6) == 10 && Turns(7) == 12;
  }

  lemma {:induction false} SecondTurns()
    requires Turns(8) == 14
    ensures Turns(16) == 28
  {
    assert Turns(9) == 15 && Turns(10) == 17 && Turns(11) == 19 && Turns(12) == 21;
    assert Turns(13) == 23 && Turns(14) == 25 && Turns(15) == 27;
  }

  lemma {:induction false} TurnsBound(r: nat)
    requires r <= 16
    ensures Turns(r) <= Turns(16)
    decreases 16 - r
  {
    if r < 16 { TurnsBound(r + 1); }
  }

  lemma {:induction false} KeyAtTurns(key: Bits, r: nat)
    requires |key| == 56 && r <= 16
    ensures Turns(r) <= 28 && KeyAt(key, r) == Shifted(key, Turns(r))
  {
    TurnsAll();
    TurnsBound(r);
    if r == 0 {
      assert Shifted(key, 0) == key;
    } else {
      KeyAtTurns(key, r - 1);
      ShiftedTwice(key, Turns(r - 1), KEY_ROTATION[r - 1]);
    }
  }

  /** Sixteen rounds turn both halves once round: the key register is restored. */
  lemma {:induction false} KeyRestored(key: Bits)
    requires |key| == 56
    ensures KeyAt(key, 16) == key
  {
    KeyAtTurns(key, 16);
    TurnsAll();
    assert Shifted(key, 28) == key;
  }

  // ---------- rounds ----------

  /** Bit j of a nibble, the highest first. */
  predicate NibbleBit(v: bv4, j: nat) {
    v & (if j == 0 then 8 else if j == 1 then 4 else if j == 2 then 2 else 1) != 0
  }

  /** The six bits from position k on, as a number. */
  function SixBits(bits: Bits, k: nat, n: nat): (v: nat)
    requires k + n <= |bits| && n <= 6
    ensures v < Pow2(n)
  {
    if n == 0 then 0 else 2 * SixBits(bits, k, n - 1) + if bits[k + n - 1] then 1 else 0
  }

  function Pow2(n: nat): nat {
    if n == 0 then 1 else 2 * Pow2(n - 1)
  }

  function Substitute(x: Bits, b: nat): bv4
    requires |x| == 48 && b < 8
  {
    BoxesFull();
    assert Pow2(6) == 64;
    var v := SixBits(x, 6 * b, 6);
    SBOX[b][v / 16][v % 16]
  }

  function Substituted(x: Bits): (r: Bits)
    requires |x| == 48
    ensures |r| == 32
  {
    seq(32, i requires 0 <= i < 32 => NibbleBit(Substitute(x, i / 4), i % 4))
  }

  function F(right: Bits, subkey: Bits): (r: Bits)
    requires |right| == 32 && |subkey| == 48
    ensures |r| == 32
  {
    MapsInRange();
    Permuted(Substituted(Xor(Permuted(right, DATA_EXPANSION), subkey)), PBOX)
  }

  function Round(data: Bits, subkey: Bits): (r: Bits)
    requires |data| == 64 && |subkey| == 48
    ensures |r| == 64
  {
    data[32..] + Xor(data[..32], F(data[32..], subkey))
  }

  predicate Subkeys(subkeys: seq<Bits>) {
    forall i :: 0 <= i < |subkeys| ==> |subkeys[i]| == 48
  }

  function Rounds(data: Bits, subkeys: seq<Bits>): (r: Bits)
    requires |data| == 64 && Subkeys(subkeys)
    ensures |r| == 64
  {
    if subkeys == [] then data else Round(Rounds(data, subkeys[..|subkeys| - 1]), subkeys[|subkeys| - 1])
  }

  function Swapped(data: Bits): (r: Bits)
    requires |data| == 64
    ensures |r| == 64
  {
    data[32..] + data[..32]
  }

  /** Initial permutation, rounds, final permutation. */
  function Cipher(block: Bits, subkeys: seq<Bits>): (r: Bits)
    requires |block| == 64 && Subkeys(subkeys)
    ensures |r| == 64
  {
    MapsInRange();
    Permuted(Rounds(Permuted(block, INITIAL_PERMUTE_MAP), subkeys), FINAL_PERMUTE_MAP)
  }

  function Reversed(subkeys: seq<Bits>): (r: seq<Bits>)
    ensures |r| == |subkeys|
    ensures Subkeys(subkeys) ==> Subkeys(r)
  {
    if subkeys == [] then [] else [subkeys[|subkeys| - 1]] + Reversed(subkeys[..|subkeys| - 1])
  }

  /** The subkeys that the rounds generate from a key register. */
  function Schedule(key: Bits, n: nat): (r: seq<Bits>)
    requires |key| == 56 && n <= 16
    ensures |r| == n && Subkeys(r) && forall i :: 0 <= i < n ==> r[i] == Subkey(key, i)
  {
    if n == 0 then [] else Schedule(key, n - 1) + [Subkey(key, n - 1)]
  }

  // ---------- deciphering ----------

  /** A round on swapped data, with the same subkey, undoes the round. */
  lemma {:induction false} RoundUndone(data: Bits, k: Bits)
    requires |data| == 64 && |k| == 48
    ensures Round(Swapped(Round(data, k)), k) == Swapped(data)
  {
    hide F;
    var left, right := data[..32], data[32..];
    var mixed := Xor(left, F(right, k));
    assert Round(data, k) == right + mixed;
    assert Swapped(Round(data, k)) == mixed + right;
    assert (mixed + right)[32..] == right && (mixed + right)[..32] == mixed;
    assert Xor(mixed, F(right, k)) == left;
  }

  lemma {:induction false} RoundsFront(data: Bits, k: Bits, ks: seq<Bits>)
    requires |data| == 64 && |k| == 48 && Subkeys(ks)
    ensures Subkeys([k] + ks) && Rounds(data, [k] + ks) == Rounds(Round(data, k), ks)
  {
    hide Round, F;
    var n := |ks|;
    if n == 0 {
      assert ([k] + ks)[..0] == [];
    } else {
      assert ([k] + ks)[..n] == [k] + ks[..n - 1];
      RoundsFront(data, k, ks[..n - 1]);
    }
  }

  /** The rounds with the subkeys in reverse order undo the rounds. */
  lemma {:induction false} RoundsUndone(data: Bits, ks: seq<Bits>)
    requires |data| == 64 && Subkeys(ks)
    ensures Rounds(Swapped(Rounds(data, ks)), Reversed(ks)) == Swapped(data)
  {
    hide Round, F;
    var n := |ks|;
    if n > 0 {
      var before, k := Rounds(data, ks[..n - 1]), ks[n - 1];
      RoundUndone(before, k);
      RoundsFront(Swapped(Rounds(data, ks)), k, Reversed(ks[..n - 1]));
      RoundsUndone(data, ks[..n - 1]);
    }
  }

  /** On swapped data, the initial permutation undoes the final one and is undone by it. */
  lemma {:induction false} InverseEntry(i: nat)
    requires i < 64
    ensures InRange(INITIAL_PERMUTE_MAP, 64) && InRange(FINAL_PERMUTE_MAP, 64)
    ensures |INITIAL_PERMUTE_MAP| == 8 && |FINAL_PERMUTE_MAP| == 8
    ensures Entry(FINAL_PERMUTE_MAP, Entry(INITIAL_PERMUTE_MAP, i)) == (i + 32) % 64
    ensures Entry(INITIAL_PERMUTE_MAP, (Entry(FINAL_PERMUTE_MAP, i) + 32) % 64) == i
  {
    hide InRange, Entry;
    MapsInRange();
    FinalAfterInitial(i / 8, i % 8);
    InitialAfterFinal(i / 8, i % 8);
  }

  lemma {:induction false} Position(row: nat, col: nat)
    requires row < 8 && col < 8
    ensures (8 * row + col) / 8 == row && (8 * row + col) % 8 == col
  {
  }

  lemma {:induction false} EntryAt(table: Map, row: nat, col: nat)
    requires row < |table| <= 8 && col < 8 && |table[row]| == 8
    ensures (8 * row + col) / 8 == row && Entry(table, 8 * row + col) == table[row][col]
  {
    Position(row, col);
  }

  /** Column c of the initial map names bits of row 7 - c, in this column. */
  function InitialColumn(r: nat): nat
    requires r < 8
  {
    if r < 4 then 2 * r + 1 else 2 * r - 8
  }

  /** The initial map, as a formula. */
  function InitialFormula(r: nat, c: nat): nat
    requires r < 8 && c < 8
  {
    8 * (7 - c) + InitialColumn(r)
  }

  /** The final map, as a formula. */
  function FinalFormula(r: nat, c: nat): nat
    requires r < 8 && c < 8
  {
    7 - r + 8 * (c / 2) + 32 * (c % 2)
  }

  lemma {:induction false} InitialEntry(r: nat, c: nat)
    requires r < 8 && c < 8
    ensures |INITIAL_PERMUTE_MAP| == 8 && InRange(INITIAL_PERMUTE_MAP, 64) && (8 * r + c) / 8 == r
    ensures Entry(INITIAL_PERMUTE_MAP, 8 * r + c) == InitialFormula(r, c)
  {
    hide Entry, InRange;
    MapsInRange();
    InitialRow(r, c);
    EntryAt(INITIAL_PERMUTE_MAP, r, c);
  }

  lemma {:induction false} FinalEntry(r: nat, c: nat)
    requires r < 8 && c < 8
    ensures |FINAL_PERMUTE_MAP| == 8 && InRange(FINAL_PERMUTE_MAP, 64) && (8 * r + c) / 8 == r
    ensures Entry(FINAL_PERMUTE_MAP, 8 * r + c) == FinalFormula(r, c)
  {
    hide Entry, InRange;
    MapsInRange();
    FinalRow(r, c);
    EntryAt(FINAL_PERMUTE_MAP, r, c);
  }

  lemma {:induction false} FinalOfInitial(r: nat, c: nat)
    requires r < 8 && c < 8
    ensures FinalFormula(7 - c, InitialColumn(r)) == (8 * r + c + 32) % 64
  {
    var k := InitialColumn(r);
    if r < 4 {
      assert k / 2 == r && k % 2 == 1;
    } else {
      assert k / 2 == r - 4 && k % 2 == 0;
    }
  }

  /** The row of the initial map that column c of the final one leads to. */
  function InitialRowOf(c: nat): (row: nat)
    requires c < 8
    ensures row < 8
  {
    c / 2 + (if c % 2 == 0 then 4 else 0)
  }

  lemma {:induction false} InitialOfFinal(r: nat, c: nat)
    requires r < 8 && c < 8
    ensures (FinalFormula(r, c) + 32) % 64 == 8 * InitialRowOf(c) + (7 - r)
    ensures InitialFormula(InitialRowOf(c), 7 - r) == 8 * r + c
  {
    var h := c / 2;
    if c % 2 == 0 {
      assert c == 2 * h && FinalFormula(r, c) + 32 == 8 * (h + 4) + (7 - r);
    } else {
      assert c == 2 * h + 1 && FinalFormula(r, c) + 32 == 8 * h + (7 - r) + 64;
    }
  }

  lemma {:induction false} FinalAfterInitial(r: nat, c: nat)
    requires r < 8 && c < 8
    ensures InRange(INITIAL_PERMUTE_MAP, 64) && InRange(FINAL_PERMUTE_MAP, 64)
    ensures |INITIAL_PERMUTE_MAP| == 8 && |FINAL_PERMUTE_MAP| == 8
    ensures (8 * r + c) / 8 == r
    ensures Entry(FINAL_PERMUTE_MAP, Entry(INITIAL_PERMUTE_MAP, 8 * r + c)) == (8 * r + c + 32) % 64
  {
    hide Entry, InRange, FinalFormula, INITIAL_PERMUTE_MAP, FINAL_PERMUTE_MAP;
    InitialEntry(r, c);
    FinalEntry(7 - c, InitialColumn(r));
    FinalOfInitial(r, c);
  }

  lemma {:induction false} InitialAfterFinal(r: nat, c: nat)
    requires r < 8 && c < 8
    ensures InRange(INITIAL_PERMUTE_MAP, 64) && InRange(FINAL_PERMUTE_MAP, 64)
    ensures |INITIAL_PERMUTE_MAP| == 8 && |FINAL_PERMUTE_MAP| == 8
    ensures (8 * r + c) / 8 == r
    ensures Entry(INITIAL_PERMUTE_MAP, (Entry(FINAL_PERMUTE_MAP, 8 * r + c) + 32) % 64) == 8 * r + c
  {
    hide Entry, InRange, FinalFormula, InitialFormula, InitialRowOf, INITIAL_PERMUTE_MAP, FINAL_PERMUTE_MAP;
    FinalEntry(r, c);
    InitialOfFinal(r, c);
    InitialEntry(InitialRowOf(c), 7 - r);
  }

  lemma {:induction false} InitialRow(r: nat, c: nat)
    requires r < 8 && c < 8
    ensures |INITIAL_PERMUTE_MAP| == 8 && |INITIAL_PERMUTE_MAP[r]| == 8
    ensures INITIAL_PERMUTE_MAP[r][c] == 8 * (7 - c) + InitialColumn(r)
  {
  }

  lemma {:induction false} FinalRow(r: nat, c: nat)
    requires r < 8 && c < 8
    ensures |FINAL_PERMUTE_MAP| == 8 && |FINAL_PERMUTE_MAP[r]| == 8
    ensures FINAL_PERMUTE_MAP[r][c] == 7 - r + 8 * (c / 2) + 32 * (c % 2)
  {
  }

  lemma {:induction false} BlockPermutations(data: Bits)
    requires |data| == 64
    ensures InRange(INITIAL_PERMUTE_MAP, 64) && InRange(FINAL_PERMUTE_MAP, 64)
    ensures |INITIAL_PERMUTE_MAP| == 8 && |FINAL_PERMUTE_MAP| == 8
    ensures Permuted(Permuted(data, FINAL_PERMUTE_MAP), INITIAL_PERMUTE_MAP) == Swapped(data)
    ensures Permuted(Swapped(Permuted(data, INITIAL_PERMUTE_MAP)), FINAL_PERMUTE_MAP) == data
  {
    hide InRange, Entry, Swapped;
    MapsInRange();
    var there := Permuted(Permuted(data, FINAL_PERMUTE_MAP), INITIAL_PERMUTE_MAP);
    var back := Permuted(Swapped(Permuted(data, INITIAL_PERMUTE_MAP)), FINAL_PERMUTE_MAP);
    forall i | 0 <= i < 64 ensures there[i] == Swapped(data)[i] && back[i] == data[i] {
      InverseEntry(i);
      EntryBound(i);
      SwappedAt(data, i);
      SwappedAt(Permuted(data, INITIAL_PERMUTE_MAP), Entry(FINAL_PERMUTE_MAP, i));
    }
  }

  lemma {:induction false} SwappedAt(data: Bits, i: nat)
    requires |data| == 64 && i < 64
    ensures Swapped(data)[i] == data[(i + 32) % 64]
  {
  }

  lemma {:induction false} EntryBound(i: nat)
    requires i < 64
    ensures InRange(INITIAL_PERMUTE_MAP, 64) && InRange(FINAL_PERMUTE_MAP, 64)
    ensures |INITIAL_PERMUTE_MAP| == 8 && |FINAL_PERMUTE_MAP| == 8
    ensures Entry(INITIAL_PERMUTE_MAP, i) < 64 && Entry(FINAL_PERMUTE_MAP, i) < 64
  {
    MapsInRange();
  }

  /** Deciphering: the same data path with the subkeys in reverse order returns the block,
      for every block and all subkeys. */
  lemma {:induction false} CipherUndone(block: Bits, ks: seq<Bits>)
    requires |block| == 64 && Subkeys(ks)
    ensures Cipher(Cipher(block, ks), Reversed(ks)) == block
  {
    hide Rounds, Permuted, Swapped, Reversed, InRange;
    MapsInRange();
    var start := Permuted(block, INITIAL_PERMUTE_MAP);
    var end := Rounds(start, ks);
    BlockPermutations(end);
    RoundsUndone(start, ks);
    BlockPermutations(block);
  }
}
