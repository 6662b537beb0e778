/** The block cipher's code on byte arrays, proved against its definition on bits. */
module DesBytes {
  import opened DesTables
  import opened Des

  // ---------- bits of bytes ----------

  function Mask(j: nat): bv8
    requires j < 8
  {
    match j
    case 0 => 0x80 case 1 => 0x40 case 2 => 0x20 case 3 => 0x10
    case 4 => 0x08 case 5 => 0x04 case 6 => 0x02 case 7 => 0x01
  }

  predicate ByteBit(b: bv8, j: nat)
    requires j < 8
  {
    b & Mask(j) != 0
  }

  function BitsOf(bytes: seq<bv8>): (bits: Bits)
    ensures |bits| == 8 * |bytes|
    ensures forall i :: 0 <= i < |bits| ==> bits[i] == ByteBit(bytes[i / 8], i % 8)
  {
    seq(8 * |bytes|, i requires 0 <= i < 8 * |bytes| => ByteBit(bytes[i / 8], i % 8))
  }

  lemma {:induction false} ByteBitSet(b: bv8, j: nat, k: nat)
    requires j < 8 && k < 8
    ensures ByteBit(b | Mask(j), k) == (j == k || ByteBit(b, k))
  {
  }

  lemma {:induction false} ByteBitCleared(b: bv8, j: nat, k: nat)
    requires j < 8 && k < 8
    ensures ByteBit(b & !Mask(j), k) == (j != k && ByteBit(b, k))
  {
  }

  lemma {:induction false} ByteBitXor(a: bv8, b: bv8, k: nat)
    requires k < 8
    ensures ByteBit(a ^ b, k) == (ByteBit(a, k) != ByteBit(b, k))
  {
    XorMasked(a, b, Mask(k));
    MaskedBit(a, k);
    MaskedBit(b, k);
  }

  lemma {:induction false} XorMasked(a: bv8, b: bv8, m: bv8)
    ensures (a ^ b) & m == (a & m) ^ (b & m)
  {
  }

  lemma {:induction false} MaskedBit(a: bv8, k: nat)
    requires k < 8
    ensures Mask(k) != 0 && (a & Mask(k) == 0 || a & Mask(k) == Mask(k))
  {
  }

  lemma {:induction false} ByteBitZero(k: nat)
    requires k < 8
    ensures !ByteBit(0, k)
  {
  }

  /** A byte shifted left by one, with a bit shifted in. */
  lemma {:induction false} ByteBitShifted(b: bv8, k: nat)
    requires k < 8
    ensures ByteBit(b << 1, k) == (k < 7 && ByteBit(b, k + 1))
  {
  }

  lemma {:induction false} ByteBitNibbles(hi: bv4, lo: bv4, k: nat)
    requires k < 8
    ensures ByteBit((hi as bv8 << 4) | (lo as bv8), k) == (if k < 4 then NibbleBit(hi, k) else NibbleBit(lo, k - 4))
  {
  }

  // ---------- bits of arrays ----------

  method GetBit(str: seq<bv8>, idx: nat) returns (b: bool)
    requires idx < 8 * |str|
    ensures b == BitsOf(str)[idx]
  {
    b := str[idx / 8] & Mask(idx % 8) != 0;
  }

  method SetBit(str: array<bv8>, idx: nat)
    requires idx < 8 * str.Length
    modifies str
    ensures BitsOf(str[..]) == BitsOf(old(str[..]))[idx := true]
  {
    hide Mask, ByteBit;
    ghost var was := str[..];
    str[idx / 8] := str[idx / 8] | Mask(idx % 8);
    forall i | 0 <= i < 8 * str.Length ensures BitsOf(str[..])[i] == BitsOf(was)[idx := true][i] {
      if i / 8 == idx / 8 { ByteBitSet(was[idx / 8], idx % 8, i % 8); }
    }
  }

  lemma {:induction false} BitCleared(was: seq<bv8>, now: seq<bv8>, idx: nat)
    requires idx < 8 * |was| && now == was[idx / 8 := was[idx / 8] & !Mask(idx % 8)]
    ensures BitsOf(now) == BitsOf(was)[idx := false]
  {
    hide Mask, ByteBit;
    forall i | 0 <= i < 8 * |was| ensures BitsOf(now)[i] == BitsOf(was)[idx := false][i] {
      var m, r := i / 8, i % 8;
      if m == idx / 8 { ByteBitCleared(was[m], idx % 8, r); }
    }
  }

  method ClrBit(str: array<bv8>, idx: nat)
    requires idx < 8 * str.Length
    modifies str
    ensures BitsOf(str[..]) == BitsOf(old(str[..]))[idx := false]
  {
    hide Mask, ByteBit;
    ghost var was := str[..];
    str[idx / 8] := str[idx / 8] & !Mask(idx % 8);
    BitCleared(was, str[..], idx);
  }

  method Clear(str: array<bv8>)
    modifies str
    ensures forall i :: 0 <= i < 8 * str.Length ==> !BitsOf(str[..])[i]
  {
    for i := 0 to str.Length
      invariant forall k :: 0 <= k < i ==> str[k] == 0
    {
      str[i] := 0;
    }
    forall i | 0 <= i < 8 * str.Length ensures !BitsOf(str[..])[i] { ByteBitZero(i % 8); }
  }

  /** Clear the destination, then set the bits whose mapped source bit is set. */
  method Permute(dst: array<bv8>, src: seq<bv8>, table: Map)
    requires InRange(table, 8 * |src|) && dst.Length == |table|
    modifies dst
    ensures BitsOf(dst[..]) == Permuted(BitsOf(src), table)
  {
    hide Mask, ByteBit, Entry, InRange, BitsOf;
    Clear(dst);
    ghost var want := Permuted(BitsOf(src), table);
    for i := 0 to 8 * |table|
      invariant forall k :: 0 <= k < 8 * |table| ==> BitsOf(dst[..])[k] == (k < i && want[k])
    {
      EntryInRange(table, 8 * |src|, i);
      var b := GetBit(src, Entry(table, i));
      if b {
        SetBit(dst, i);
      }
    }
  }

  method XorBytes(dst: array<bv8>, a: seq<bv8>, b: seq<bv8>)
    requires |a| == |b| == dst.Length
    modifies dst
    ensures BitsOf(dst[..]) == Xor(BitsOf(a), BitsOf(b))
  {
    hide Mask, ByteBit;
    for i := 0 to dst.Length
      invariant forall k :: 0 <= k < i ==> dst[k] == a[k] ^ b[k]
    {
      dst[i] := a[i] ^ b[i];
    }
    forall k | 0 <= k < 8 * dst.Length ensures BitsOf(dst[..])[k] == Xor(BitsOf(a), BitsOf(b))[k] {
      ByteBitXor(a[k / 8], b[k / 8], k % 8);
    }
  }

  // ---------- the key register ----------

  function Low(b: bool): bv8 { if b then 1 else 0 }

  lemma {:induction false} ByteBitCarried(b: bv8, next: bool, k: nat)
    requires k < 8
    ensures ByteBit((b << 1) | Low(next), k) == (if k < 7 then ByteBit(b, k + 1) else next)
  {
  }

  /** Shift the whole register left by one bit, byte by byte. */
  method ShiftBytes(key: array<bv8>)
    requires key.Length == 7
    modifies key
    ensures forall i :: 0 <= i < 56 ==> BitsOf(key[..])[i] == (i < 55 && BitsOf(old(key[..]))[i + 1])
  {
    hide Mask, ByteBit;
    ghost var was := key[..];
    for j := 0 to 7
      invariant forall m :: j <= m < 7 ==> key[m] == was[m]
      invariant forall m :: 0 <= m < j - 1 ==> key[m] == (was[m] << 1) | Low(ByteBit(was[m + 1], 0))
      invariant j > 0 ==> key[j - 1] == was[j - 1] << 1
    {
      TopBit(was[j]);
      if j > 0 && key[j] & 0x80 != 0 {
        key[j - 1] := key[j - 1] | 0x01;
      }
      CarryNothing(was[j]);
      if j > 0 { CarryNothing(was[j - 1]); }
      key[j] := key[j] << 1;
    }
    ShiftedBits(was, key[..]);
  }

  lemma {:induction false} ShiftedBits(was: seq<bv8>, now: seq<bv8>)
    requires |was| == |now| == 7
    requires forall m :: 0 <= m < 6 ==> now[m] == (was[m] << 1) | Low(ByteBit(was[m + 1], 0))
    requires now[6] == was[6] << 1
    ensures forall i :: 0 <= i < 56 ==> BitsOf(now)[i] == (i < 55 && BitsOf(was)[i + 1])
  {
    hide ByteBit, Low;
    forall i | 0 <= i < 56 ensures BitsOf(now)[i] == (i < 55 && BitsOf(was)[i + 1]) {
      var m, r := i / 8, i % 8;
      assert i == 8 * m + r;
      if m < 6 {
        ByteBitCarried(was[m], ByteBit(was[m + 1], 0), r);
      } else {
        ByteBitShifted(was[6], r);
      }
    }
  }

  lemma {:induction false} CarryNothing(b: bv8)
    ensures b << 1 == (b << 1) | Low(false)
  {
  }

  /** Rotate both halves of the register left by `numbits`, one bit at a time. The first
      half's highest bits are remembered in one byte, which lasts for eight steps. */
  method KeyShift(key: array<bv8>, numbits: nat)
    requires key.Length == 7 && numbits <= 8
    modifies key
    ensures BitsOf(key[..]) == Shifted(BitsOf(old(key[..])), numbits)
  {
    hide Mask, ByteBit, Shifted;
    ghost var was := BitsOf(key[..]);
    NoShift(was);
    var keep := key[0];
    for i := 0 to numbits
      invariant BitsOf(key[..]) == Shifted(was, i)
      invariant Keeps(keep, was, i)
    {
      ShiftedFirst(was, i);
      TopBit(keep);
      assert ByteBit(keep, 0) == was[i + 0];
      ShiftOnce(key, keep & 0x80 != 0);
      ShiftedTwice(was, i, 1);
      KeepShifted(keep, keep << 1, was, i);
      keep := keep << 1;
    }
  }

  /** One step of the rotation, given the highest bit of the first half. */
  method ShiftOnce(key: array<bv8>, first: bool)
    requires key.Length == 7 && first == BitsOf(key[..])[0]
    modifies key
    ensures BitsOf(key[..]) == Shifted(BitsOf(old(key[..])), 1)
  {
    hide Mask, ByteBit, BitsOf;
    ghost var before := BitsOf(key[..]);
    ShiftBytes(key);
    var carry := GetBit(key[..], 27);
    if carry {
      ClrBit(key, 27);
      SetBit(key, 55);
    }
    if first {
      SetBit(key, 27);
    }
    RotatedByOne(before, BitsOf(key[..]));
  }

  lemma {:induction false} NoShift(key: Bits)
    requires |key| == 56
    ensures Shifted(key, 0) == key
  {
  }

  lemma {:induction false} ShiftedFirst(key: Bits, n: nat)
    requires |key| == 56 && n < 28
    ensures Shifted(key, n)[0] == key[n]
  {
  }

  lemma {:induction false} TopBit(b: bv8)
    ensures ByteBit(b, 0) == (b & 0x80 != 0)
  {
  }

  lemma {:induction false} EntryInRange(table: Map, n: nat, i: nat)
    requires InRange(table, n) && i < 8 * |table|
    ensures |table[i / 8]| == 8 && Entry(table, i) < n
  {
  }

  /** The byte still holds the bits from position i on. */
  ghost predicate Keeps(keep: bv8, was: Bits, i: nat)
    requires |was| == 56
  {
    forall k :: 0 <= k < 8 && i + k < 8 ==> ByteBit(keep, k) == was[i + k]
  }

  lemma {:induction false} KeepShifted(keep: bv8, next: bv8, was: Bits, i: nat)
    requires |was| == 56 && Keeps(keep, was, i) && next == keep << 1
    ensures Keeps(next, was, i + 1)
  {
    hide ByteBit;
    forall k | 0 <= k < 8 && i + 1 + k < 8 ensures ByteBit(next, k) == was[i + 1 + k] {
      ByteBitShifted(keep, k);
      assert ByteBit(keep, k + 1) == was[i + (k + 1)];
    }
  }

  lemma {:induction false} RotatedByOne(before: Bits, now: Bits)
    requires |before| == |now| == 56
    requires forall i :: 0 <= i < 56 && i != 27 && i != 55 ==> now[i] == before[i + 1]
    requires now[27] == before[0] && now[55] == before[28]
    ensures now == Shifted(before, 1)
  {
  }

  // ---------- rounds ----------

  /** The six bits from a position on, as the code puts them together. */
  method Lookup(src: seq<bv8>, i: nat) returns (v: bv4)
    requires |src| == 6 && i < 8
    ensures v == Substitute(BitsOf(src), i)
  {
    hide ByteBit, BitsOf;
    BoxesFull();
    var snum := 0;
    for j := 0 to 6
      invariant snum == SixBits(BitsOf(src), 6 * i, j)
    {
      var b := GetBit(src, 6 * i + j);
      snum := 2 * snum;
      snum := snum + if b then 1 else 0;
    }
    assert Pow2(6) == 64;
    v := SBOX[i][snum / 16][snum % 16];
  }

  /** Look up all eight groups of six bits; two results make a byte. */
  method Sbox(dst: array<bv8>, src: seq<bv8>)
    requires dst.Length == 4 && |src| == 6
    modifies dst
    ensures BitsOf(dst[..]) == Substituted(BitsOf(src))
  {
    hide ByteBit, BitsOf, Substitute;
    ghost var x := BitsOf(src);
    for i := 0 to 4
      invariant forall k :: 0 <= k < i ==> dst[k] == 0
    {
      dst[i] := 0;
    }
    for i := 0 to 8
      invariant forall m :: 0 <= m < 4 && 2 * m + 1 < i ==> dst[m] == TwoNibbles(Substitute(x, 2 * m), Substitute(x, 2 * m + 1))
      invariant i % 2 == 1 ==> dst[i / 2] == Substitute(x, i - 1) as bv8 << 4
      invariant forall m :: (i + 1) / 2 <= m < 4 ==> dst[m] == 0
    {
      var v := Lookup(src, i);
      if i % 2 == 0 {
        ZeroOr(v as bv8 << 4);
        dst[i / 2] := dst[i / 2] | (v as bv8 << 4);
      } else {
        dst[i / 2] := dst[i / 2] | (v as bv8);
      }
    }
    NibbleBytes(dst[..], x);
  }

  function TwoNibbles(hi: bv4, lo: bv4): bv8 {
    (hi as bv8 << 4) | (lo as bv8)
  }

  lemma {:induction false} ZeroOr(b: bv8)
    ensures 0 | b == b
  {
  }

  lemma {:induction false} NibbleBytes(bytes: seq<bv8>, x: Bits)
    requires |bytes| == 4 && |x| == 48
    requires forall m :: 0 <= m < 4 ==> bytes[m] == TwoNibbles(Substitute(x, 2 * m), Substitute(x, 2 * m + 1))
    ensures BitsOf(bytes) == Substituted(x)
  {
    hide ByteBit, NibbleBit, Substitute;
    forall i | 0 <= i < 32 ensures BitsOf(bytes)[i] == Substituted(x)[i] {
      var m, k := i / 8, i % 8;
      ByteBitNibbles(Substitute(x, 2 * m), Substitute(x, 2 * m + 1), k);
      assert i / 4 == 2 * m + k / 4 && i % 4 == k % 4;
    }
  }

  /** Expansion, subkey, substitution, permutation. */
  method Mangle(right: seq<bv8>, subkey: seq<bv8>) returns (mixed: seq<bv8>)
    requires |right| == 4 && |subkey| == 6
    ensures |mixed| == 4 && BitsOf(mixed) == F(BitsOf(right), BitsOf(subkey))
  {
    hide BitsOf, InRange, Permuted, Substituted, Xor;
    MapsInRange();
    var rexp, rn, permuted := new bv8[6], new bv8[4], new bv8[4];
    Permute(rexp, right, DATA_EXPANSION);
    XorBytes(rexp, rexp[..], subkey);
    Sbox(rn, rexp[..]);
    Permute(permuted, rn[..], PBOX);
    mixed := permuted[..];
  }

  /** The next subkey. */
  method NextSubkey(k: array<bv8>, r: nat) returns (subkey: seq<bv8>)
    requires k.Length == 7 && r < 16
    modifies k
    ensures KEY_ROTATION[r] <= 28 && InRange(KEY_COMPRESSION, 56) && |KEY_COMPRESSION| == 6
    ensures BitsOf(k[..]) == Shifted(BitsOf(old(k[..])), KEY_ROTATION[r])
    ensures |subkey| == 6 && BitsOf(subkey) == Permuted(BitsOf(k[..]), KEY_COMPRESSION)
  {
    hide BitsOf, InRange, Permuted, Shifted;
    MapsInRange();
    TurnsAll();
    var subK := new bv8[6];
    KeyShift(k, KEY_ROTATION[r]);
    Permute(subK, k[..], KEY_COMPRESSION);
    subkey := subK[..];
  }

  /** One round: next subkey, a mixture of the halves, exchange. */
  method RoundP(d: array<bv8>, k: array<bv8>, r: nat)
    requires d.Length == 8 && k.Length == 7 && r < 16 && d != k
    modifies d, k
    ensures KEY_ROTATION[r] <= 28 && InRange(KEY_COMPRESSION, 56) && |KEY_COMPRESSION| == 6
    ensures BitsOf(k[..]) == Shifted(BitsOf(old(k[..])), KEY_ROTATION[r])
    ensures BitsOf(d[..]) == Round(BitsOf(old(d[..])), Permuted(BitsOf(k[..]), KEY_COMPRESSION))
  {
    hide BitsOf, InRange, Permuted, Shifted, F, Round;
    var subkey := NextSubkey(k, r);
    var left, right := d[0..4], d[4..8];
    assert d[..] == left + right;
    var mixed := Mangle(right, subkey);
    var rn := new bv8[4];
    XorBytes(rn, left, mixed);
    ExchangeHalves(d, rn[..]);
    assert d[..] == d[0..4] + d[4..8];
    RoundBytes(left, right, rn[..], BitsOf(subkey));
  }

  lemma {:induction false} RoundBytes(left: seq<bv8>, right: seq<bv8>, rn: seq<bv8>, subkey: Bits)
    requires |left| == |right| == |rn| == 4 && |subkey| == 48
    requires BitsOf(rn) == Xor(BitsOf(left), F(BitsOf(right), subkey))
    ensures BitsOf(right + rn) == Round(BitsOf(left + right), subkey)
  {
    hide BitsOf, F, Xor;
    Halves(left, right);
    Halves(right, rn);
  }

  lemma {:induction false} Halves(a: seq<bv8>, b: seq<bv8>)
    requires |a| == |b| == 4
    ensures BitsOf(a + b) == BitsOf(a) + BitsOf(b)
    ensures BitsOf(a + b)[..32] == BitsOf(a) && BitsOf(a + b)[32..] == BitsOf(b)
  {
    hide ByteBit;
  }

  /** The right half becomes the left one, and the new half the right one. */
  method ExchangeHalves(d: array<bv8>, rn: seq<bv8>)
    requires d.Length == 8 && |rn| == 4
    modifies d
    ensures d[0..4] == old(d[4..8]) && d[4..8] == rn
  {
    for j := 0 to 4
      invariant forall m :: 0 <= m < j ==> d[m] == old(d[4 + m]) && d[4 + m] == rn[m]
      invariant forall m :: j + 4 <= m < 8 ==> d[m] == old(d[m])
    {
      d[j] := d[4 + j];
      d[4 + j] := rn[j];
    }
  }

  /** Encipher one block: the sixteen rounds leave the key register as it was. */
  method Encipher(pt: seq<bv8>, key: seq<bv8>) returns (ct: seq<bv8>)
    requires |pt| == 8 && |key| == 7
    ensures |ct| == 8
    ensures InRange(KEY_PERMUTE_MAP, 56) && |KEY_PERMUTE_MAP| == 7
    ensures BitsOf(ct) == Cipher(BitsOf(pt), Schedule(Permuted(BitsOf(key), KEY_PERMUTE_MAP), 16))
  {
    hide BitsOf, InRange, Permuted, Round, Shifted;
    MapsInRange();
    var k, d, e := new bv8[7], new bv8[8], new bv8[8];
    Permute(k, key, KEY_PERMUTE_MAP);
    Permute(d, pt, INITIAL_PERMUTE_MAP);
    ghost var register, start := BitsOf(k[..]), BitsOf(d[..]);
    for r := 0 to 16
      invariant BitsOf(k[..]) == KeyAt(register, r)
      invariant BitsOf(d[..]) == Rounds(start, Schedule(register, r))
    {
      RoundP(d, k, r);
      RoundsNext(start, register, r);
    }
    KeyRestored(register);
    Permute(e, d[..], FINAL_PERMUTE_MAP);
    ct := e[..];
  }

  lemma {:induction false} RoundsNext(start: Bits, register: Bits, r: nat)
    requires |start| == 64 && |register| == 56 && r < 16
    ensures Rounds(start, Schedule(register, r + 1)) == Round(Rounds(start, Schedule(register, r)), Subkey(register, r))
  {
    hide Round, Subkey;
    assert Schedule(register, r + 1)[..r] == Schedule(register, r);
  }
}
