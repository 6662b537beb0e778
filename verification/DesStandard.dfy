/** The Data Encryption Standard (FIPS 46-3) in its own terms, and a proof that the cipher
    follows it: its listings are numbered from 1, and its keys have a parity bit in each byte. */
module DesStandard {
  import opened DesTables
  import opened Des
  import opened DesBytes

  // ---------- the standard's listings ----------

  // The selection functions, in four rows of sixteen columns.

  const S1: seq<seq<bv4>> := [
    [14, 4, 13, 1, 2, 15, 11, 8, 3, 10, 6, 12, 5, 9, 0, 7],
    [0, 15, 7, 4, 14, 2, 13, 1, 10, 6, 12, 11, 9, 5, 3, 8],
    [4, 1, 14, 8, 13, 6, 2, 11, 15, 12, 9, 7, 3, 10, 5, 0],
    [15, 12, 8, 2, 4, 9, 1, 7, 5, 11, 3, 14, 10, 0, 6, 13]]

  const S2: seq<seq<bv4>> := [
    [15, 1, 8, 14, 6, 11, 3, 4, 9, 7, 2, 13, 12, 0, 5, 10],
    [3, 13, 4, 7, 15, 2, 8, 14, 12, 0, 1, 10, 6, 9, 11, 5],
    [0, 14, 7, 11, 10, 4, 13, 1, 5, 8, 12, 6, 9, 3, 2, 15],
    [13, 8, 10, 1, 3, 15, 4, 2, 11, 6, 7, 12, 0, 5, 14, 9]]

  const S3: seq<seq<bv4>> := [
    [10, 0, 9, 14, 6, 3, 15, 5, 1, 13, 12, 7, 11, 4, 2, 8],
    [13, 7, 0, 9, 3, 4, 6, 10, 2, 8, 5, 14, 12, 11, 15, 1],
    [13, 6, 4, 9, 8, 15, 3, 0, 11, 1, 2, 12, 5, 10, 14, 7],
    [1, 10, 13, 0, 6, 9, 8, 7, 4, 15, 14, 3, 11, 5, 2, 12]]

  const S4: seq<seq<bv4>> := [
    [7, 13, 14, 3, 0, 6, 9, 10, 1, 2, 8, 5, 11, 12, 4, 15],
    [13, 8, 11, 5, 6, 15, 0, 3, 4, 7, 2, 12, 1, 10, 14, 9],
    [10, 6, 9, 0, 12, 11, 7, 13, 15, 1, 3, 14, 5, 2, 8, 4],
    [3, 15, 0, 6, 10, 1, 13, 8, 9, 4, 5, 11, 12, 7, 2, 14]]

  const S5: seq<seq<bv4>> := [
    [2, 12, 4, 1, 7, 10, 11, 6, 8, 5, 3, 15, 13, 0, 14, 9],
    [14, 11, 2, 12, 4, 7, 13, 1, 5, 0, 15, 10, 3, 9, 8, 6],
    [4, 2, 1, 11, 10, 13, 7, 8, 15, 9, 12, 5, 6, 3, 0, 14],
    [11, 8, 12, 7, 1, 14, 2, 13, 6, 15, 0, 9, 10, 4, 5, 3]]

  const S6: seq<seq<bv4>> := [
    [12, 1, 10, 15, 9, 2, 6, 8, 0, 13, 3, 4, 14, 7, 5, 11],
    [10, 15, 4, 2, 7, 12, 9, 5, 6, 1, 13, 14, 0, 11, 3, 8],
    [9, 14, 15, 5, 2, 8, 12, 3, 7, 0, 4, 10, 1, 13, 11, 6],
    [4, 3, 2, 12, 9, 5, 15, 10, 11, 14, 1, 7, 6, 0, 8, 13]]

  const S7: seq<seq<bv4>> := [
    [4, 11, 2, 14, 15, 0, 8, 13, 3, 12, 9, 7, 5, 10, 6, 1],
    [13, 0, 11, 7, 4, 9, 1, 10, 14, 3, 5, 12, 2, 15, 8, 6],
    [1, 4, 11, 13, 12, 3, 7, 14, 10, 15, 6, 8, 0, 5, 9, 2],
    [6, 11, 13, 8, 1, 4, 10, 7, 9, 5, 0, 15, 14, 2, 3, 12]]

  const S8: seq<seq<bv4>> := [
    [13, 2, 8, 4, 6, 15, 11, 1, 10, 9, 3, 14, 5, 0, 12, 7],
    [1, 15, 13, 8, 10, 3, 7, 4, 12, 5, 6, 11, 0, 14, 9, 2],
    [7, 11, 4, 1, 9, 12, 14, 2, 0, 6, 10, 13, 15, 3, 5, 8],
    [2, 1, 14, 7, 4, 10, 8, 13, 15, 12, 9, 0, 3, 5, 6, 11]]

  /** The permutation P. */
  const PERMUTATION: seq<nat> := [
    16, 7, 20, 21, 29, 12, 28, 17, 1, 15, 23, 26, 5, 18, 31, 10,
    2, 8, 24, 14, 32, 27, 3, 9, 19, 13, 30, 6, 22, 11, 4, 25]

  /** Permuted choice 2. */
  const CHOICE_2: seq<nat> := [
    14, 17, 11, 24, 1, 5, 3, 28, 15, 6, 21, 10,
    23, 19, 12, 4, 26, 8, 16, 7, 27, 20, 13, 2] + [
    41, 52, 31, 37, 47, 55, 30, 40, 51, 45, 33, 48,
    44, 49, 39, 56, 34, 53, 46, 42, 50, 36, 29, 32]

  function Selection(b: nat): seq<seq<bv4>>
    requires b < 8
  {
    match b
    case 0 => S1 case 1 => S2 case 2 => S3 case 3 => S4
    case 4 => S5 case 5 => S6 case 6 => S7 case 7 => S8
  }

  // ---------- the boxes ----------

  /** Rows of the standard, as the program has them: the last bit of the six comes from the
      row's number in the standard, and the first one from the column. */
  predicate Woven(even: seq<bv4>, odd: seq<bv4>, front: seq<bv4>, back: seq<bv4>) {
    && |even| == |odd| == |front| == |back| == 16
    && (forall m :: 0 <= m < 8 ==> front[2 * m] == even[m] && front[2 * m + 1] == odd[m])
    && (forall m :: 0 <= m < 8 ==> back[2 * m] == even[8 + m] && back[2 * m + 1] == odd[8 + m])
  }

  lemma {:induction false} WovenAt(even: seq<bv4>, odd: seq<bv4>, front: seq<bv4>, back: seq<bv4>)
    requires |even| == |odd| == |front| == |back| == 16
    requires front == [even[0], odd[0], even[1], odd[1], even[2], odd[2], even[3], odd[3],
      even[4], odd[4], even[5], odd[5], even[6], odd[6], even[7], odd[7]]
    requires back == [even[8], odd[8], even[9], odd[9], even[10], odd[10], even[11], odd[11],
      even[12], odd[12], even[13], odd[13], even[14], odd[14], even[15], odd[15]]
    ensures Woven(even, odd, front, back)
  {
  }

  /** Two numbers of four bits differ in two bits at least. */
  predicate Far(x: bv4, y: bv4) {
    var d := x ^ y;
    d & (d - 1) != 0
  }

  predicate Apart(p: seq<bv4>, q: seq<bv4>) {
    |p| == |q| == 16 && forall c :: 0 <= c < 16 ==> Far(p[c], q[c])
  }

  lemma {:induction false} ApartAt(p: seq<bv4>, q: seq<bv4>)
    requires |p| == |q| == 16
    requires Far(p[0], q[0]) && Far(p[1], q[1]) && Far(p[2], q[2]) && Far(p[3], q[3])
    requires Far(p[4], q[4]) && Far(p[5], q[5]) && Far(p[6], q[6]) && Far(p[7], q[7])
    requires Far(p[8], q[8]) && Far(p[9], q[9]) && Far(p[10], q[10]) && Far(p[11], q[11])
    requires Far(p[12], q[12]) && Far(p[13], q[13]) && Far(p[14], q[14]) && Far(p[15], q[15])
    ensures Apart(p, q)
  {
    hide Far;
  }

  /** Columns whose numbers differ in the bit of value m only hold numbers that differ in two. */
  predicate SpreadBy(row: seq<bv4>, m: nat)
    requires |row| == 16 && 0 < m
  {
    forall c :: 0 <= c < 16 - m && c / m % 2 == 0 ==> Far(row[c], row[c + m])
  }

  predicate Spread(row: seq<bv4>) {
    |row| == 16 && SpreadBy(row, 1) && SpreadBy(row, 2) && SpreadBy(row, 4) && SpreadBy(row, 8)
  }

  lemma {:induction false} SpreadByOne(row: seq<bv4>)
    requires |row| == 16
    requires Far(row[0], row[1]) && Far(row[2], row[3]) && Far(row[4], row[5]) && Far(row[6], row[7])
    requires Far(row[8], row[9]) && Far(row[10], row[11]) && Far(row[12], row[13]) && Far(row[14], row[15])
    ensures SpreadBy(row, 1)
  {
    hide Far;
  }

  lemma {:induction false} SpreadByTwo(row: seq<bv4>)
    requires |row| == 16
    requires Far(row[0], row[2]) && Far(row[1], row[3]) && Far(row[4], row[6]) && Far(row[5], row[7])
    requires Far(row[8], row[10]) && Far(row[9], row[11]) && Far(row[12], row[14]) && Far(row[13], row[15])
    ensures SpreadBy(row, 2)
  {
    hide Far;
  }

  lemma {:induction false} SpreadByFour(row: seq<bv4>)
    requires |row| == 16
    requires Far(row[0], row[4]) && Far(row[1], row[5]) && Far(row[2], row[6]) && Far(row[3], row[7])
    requires Far(row[8], row[12]) && Far(row[9], row[13]) && Far(row[10], row[14]) && Far(row[11], row[15])
    ensures SpreadBy(row, 4)
  {
    hide Far;
  }

  lemma {:induction false} SpreadByEight(row: seq<bv4>)
    requires |row| == 16
    requires Far(row[0], row[8]) && Far(row[1], row[9]) && Far(row[2], row[10]) && Far(row[3], row[11])
    requires Far(row[4], row[12]) && Far(row[5], row[13]) && Far(row[6], row[14]) && Far(row[7], row[15])
    ensures SpreadBy(row, 8)
  {
    hide Far;
  }

  lemma {:induction false} SpreadAt(row: seq<bv4>)
    requires |row| == 16
    requires Far(row[0], row[1]) && Far(row[2], row[3]) && Far(row[4], row[5]) && Far(row[6], row[7])
    requires Far(row[8], row[9]) && Far(row[10], row[11]) && Far(row[12], row[13]) && Far(row[14], row[15])
    requires Far(row[0], row[2]) && Far(row[1], row[3]) && Far(row[4], row[6]) && Far(row[5], row[7])
    requires Far(row[8], row[10]) && Far(row[9], row[11]) && Far(row[12], row[14]) && Far(row[13], row[15])
    requires Far(row[0], row[4]) && Far(row[1], row[5]) && Far(row[2], row[6]) && Far(row[3], row[7])
    requires Far(row[8], row[12]) && Far(row[9], row[13]) && Far(row[10], row[14]) && Far(row[11], row[15])
    requires Far(row[0], row[8]) && Far(row[1], row[9]) && Far(row[2], row[10]) && Far(row[3], row[11])
    requires Far(row[4], row[12]) && Far(row[5], row[13]) && Far(row[6], row[14]) && Far(row[7], row[15])
    ensures Spread(row)
  {
    hide Far, SpreadBy;
    SpreadByOne(row);
    SpreadByTwo(row);
    SpreadByFour(row);
    SpreadByEight(row);
  }

  /** All numbers of four bits are in a row. */
  ghost predicate AllThere(row: seq<bv4>) {
    |row| == 16 && forall v: bv4 :: v in row
  }

  /** The rows of a box, as the program and as the standard has them. */
  predicate Agrees(box: seq<seq<bv4>>, b: nat) {
    && b < |SBOX| && |box| == |SBOX[b]| == 4
    && Woven(box[0], box[1], SBOX[b][0], SBOX[b][1]) && Woven(box[2], box[3], SBOX[b][2], SBOX[b][3])
  }

  /** Each row holds all numbers, and inputs that differ in one bit give numbers that differ in two. */
  ghost predicate Scatters(box: seq<seq<bv4>>) {
    && |box| == 4
    && (forall r :: 0 <= r < 4 ==> AllThere(box[r]) && Spread(box[r]))
    && Apart(box[0], box[1]) && Apart(box[2], box[3]) && Apart(box[0], box[2]) && Apart(box[1], box[3])
  }

  lemma {:induction false} FirstAgrees()
    ensures Agrees(S1, 0)
  {
    hide Woven;
    WovenAt(S1[0], S1[1], SBOX[0][0], SBOX[0][1]);
    WovenAt(S1[2], S1[3], SBOX[0][2], SBOX[0][3]);
  }

  lemma {:induction false} SecondAgrees()
    ensures Agrees(S2, 1)
  {
    hide Woven;
    WovenAt(S2[0], S2[1], SBOX[1][0], SBOX[1][1]);
    WovenAt(S2[2], S2[3], SBOX[1][2], SBOX[1][3]);
  }

  lemma {:induction false} ThirdAgrees()
    ensures Agrees(S3, 2)
  {
    hide Woven;
    WovenAt(S3[0], S3[1], SBOX[2][0], SBOX[2][1]);
    WovenAt(S3[2], S3[3], SBOX[2][2], SBOX[2][3]);
  }

  lemma {:induction false} FourthAgrees()
    ensures Agrees(S4, 3)
  {
    hide Woven;
    WovenAt(S4[0], S4[1], SBOX[3][0], SBOX[3][1]);
    WovenAt(S4[2], S4[3], SBOX[3][2], SBOX[3][3]);
  }

  lemma {:induction false} FifthAgrees()
    ensures Agrees(S5, 4)
  {
    hide Woven;
    WovenAt(S5[0], S5[1], SBOX[4][0], SBOX[4][1]);
    WovenAt(S5[2], S5[3], SBOX[4][2], SBOX[4][3]);
  }

  lemma {:induction false} SixthAgrees()
    ensures Agrees(S6, 5)
  {
    hide Woven;
    WovenAt(S6[0], S6[1], SBOX[5][0], SBOX[5][1]);
    WovenAt(S6[2], S6[3], SBOX[5][2], SBOX[5][3]);
  }

  lemma {:induction false} SeventhAgrees()
    ensures Agrees(S7, 6)
  {
    hide Woven;
    WovenAt(S7[0], S7[1], SBOX[6][0], SBOX[6][1]);
    WovenAt(S7[2], S7[3], SBOX[6][2], SBOX[6][3]);
  }

  lemma {:induction false} EighthAgrees()
    ensures Agrees(S8, 7)
  {
    hide Woven;
    WovenAt(S8[0], S8[1], SBOX[7][0], SBOX[7][1]);
    WovenAt(S8[2], S8[3], SBOX[7][2], SBOX[7][3]);
  }

  lemma {:induction false} FirstScatters()
    ensures Scatters(S1)
  {
    hide Apart, Spread;
    ApartAt(S1[0], S1[1]);
    ApartAt(S1[2], S1[3]);
    ApartAt(S1[0], S1[2]);
    ApartAt(S1[1], S1[3]);
    SpreadAt(S1[0]);
    SpreadAt(S1[1]);
    SpreadAt(S1[2]);
    SpreadAt(S1[3]);
  }

  lemma {:induction false} SecondScatters()
    ensures Scatters(S2)
  {
    hide Apart, Spread;
    ApartAt(S2[0], S2[1]);
    ApartAt(S2[2], S2[3]);
    ApartAt(S2[0], S2[2]);
    ApartAt(S2[1], S2[3]);
    SpreadAt(S2[0]);
    SpreadAt(S2[1]);
    SpreadAt(S2[2]);
    SpreadAt(S2[3]);
  }

  lemma {:induction false} ThirdScatters()
    ensures Scatters(S3)
  {
    hide Apart, Spread;
    ApartAt(S3[0], S3[1]);
    ApartAt(S3[2], S3[3]);
    ApartAt(S3[0], S3[2]);
    ApartAt(S3[1], S3[3]);
    SpreadAt(S3[0]);
    SpreadAt(S3[1]);
    SpreadAt(S3[2]);
    SpreadAt(S3[3]);
  }

  lemma {:induction false} FourthScatters()
    ensures Scatters(S4)
  {
    hide Apart, Spread;
    ApartAt(S4[0], S4[1]);
    ApartAt(S4[2], S4[3]);
    ApartAt(S4[0], S4[2]);
    ApartAt(S4[1], S4[3]);
    SpreadAt(S4[0]);
    SpreadAt(S4[1]);
    SpreadAt(S4[2]);
    SpreadAt(S4[3]);
  }

  lemma {:induction false} FifthScatters()
    ensures Scatters(S5)
  {
    hide Apart, Spread;
    ApartAt(S5[0], S5[1]);
    ApartAt(S5[2], S5[3]);
    ApartAt(S5[0], S5[2]);
    ApartAt(S5[1], S5[3]);
    SpreadAt(S5[0]);
    SpreadAt(S5[1]);
    SpreadAt(S5[2]);
    SpreadAt(S5[3]);
  }

  lemma {:induction false} SixthScatters()
    ensures Scatters(S6)
  {
    hide Apart, Spread;
    ApartAt(S6[0], S6[1]);
    ApartAt(S6[2], S6[3]);
    ApartAt(S6[0], S6[2]);
    ApartAt(S6[1], S6[3]);
    SpreadAt(S6[0]);
    SpreadAt(S6[1]);
    SpreadAt(S6[2]);
    SpreadAt(S6[3]);
  }

  lemma {:induction false} SeventhScatters()
    ensures Scatters(S7)
  {
    hide Apart, Spread;
    ApartAt(S7[0], S7[1]);
    ApartAt(S7[2], S7[3]);
    ApartAt(S7[0], S7[2]);
    ApartAt(S7[1], S7[3]);
    SpreadAt(S7[0]);
    SpreadAt(S7[1]);
    SpreadAt(S7[2]);
    SpreadAt(S7[3]);
  }

  lemma {:induction false} EighthScatters()
    ensures Scatters(S8)
  {
    hide Apart, Spread;
    ApartAt(S8[0], S8[1]);
    ApartAt(S8[2], S8[3]);
    ApartAt(S8[0], S8[2]);
    ApartAt(S8[1], S8[3]);
    SpreadAt(S8[0]);
    SpreadAt(S8[1]);
    SpreadAt(S8[2]);
    SpreadAt(S8[3]);
  }

  lemma {:induction false} BoxesScatter(b: nat)
    requires b < 8
    ensures Scatters(Selection(b))
  {
    hide Scatters;
    if b == 0 { FirstScatters(); }
    if b == 1 { SecondScatters(); }
    if b == 2 { ThirdScatters(); }
    if b == 3 { FourthScatters(); }
    if b == 4 { FifthScatters(); }
    if b == 5 { SixthScatters(); }
    if b == 6 { SeventhScatters(); }
    if b == 7 { EighthScatters(); }
  }

  lemma {:induction false} BoxesAgree(b: nat)
    requires b < 8
    ensures Agrees(Selection(b), b)
  {
    hide Agrees;
    if b == 0 { FirstAgrees(); }
    if b == 1 { SecondAgrees(); }
    if b == 2 { ThirdAgrees(); }
    if b == 3 { FourthAgrees(); }
    if b == 4 { FifthAgrees(); }
    if b == 5 { SixthAgrees(); }
    if b == 6 { SeventhAgrees(); }
    if b == 7 { EighthAgrees(); }
  }

  function Digit(b: bool): nat { if b then 1 else 0 }

  /** The row that the first and the last of six bits name. */
  function Row(x: Bits): (r: nat)
    requires |x| == 6
    ensures r < 4
  {
    2 * Digit(x[0]) + Digit(x[5])
  }

  /** The column that the bits between them name. */
  function Column(x: Bits): (c: nat)
    requires |x| == 6
    ensures c < 16
  {
    8 * Digit(x[1]) + 4 * Digit(x[2]) + 2 * Digit(x[3]) + Digit(x[4])
  }

  lemma {:induction false} BoxFull(b: nat)
    requires b < 8
    ensures |Selection(b)| == 4 && forall r :: 0 <= r < 4 ==> |Selection(b)[r]| == 16
  {
    hide Selection, Spread, Apart;
    BoxesScatter(b);
  }

  /** What selection function b gives for six bits. */
  function Select(x: Bits, b: nat): bv4
    requires |x| == 6 && b < 8
  {
    BoxFull(b);
    Selection(b)[Row(x)][Column(x)]
  }

  /** The program's boxes are the standard's. */
  lemma {:induction false} SubstituteIsSelect(x: Bits, b: nat)
    requires |x| == 48 && b < 8
    ensures Substitute(x, b) == Select(x[6 * b..6 * b + 6], b)
  {
    hide SBOX, Selection, Row, Column, Woven, SixBits;
    BoxesAgree(b);
    BoxesFull();
    var y := x[6 * b..6 * b + 6];
    var v := SixBits(x, 6 * b, 6);
    PlacesAgree(x, 6 * b);
    BoxFull(b);
    WovenGives(Selection(b), b, v / 16, v % 16);
  }

  /** Where the entry for six bits stands, in the program and in the standard. */
  lemma {:induction false} PlacesAgree(x: Bits, k: nat)
    requires k + 6 <= |x|
    ensures var v, y := SixBits(x, k, 6), x[k..k + 6];
      && v < 64
      && Row(y) == v / 32 * 2 + v % 2
      && Column(y) == v / 2 % 16
  {
    hide SixBits;
    SixDigits(x, k);
    var y := x[k..k + 6];
    assert SixBits(x, k, 6) == 32 * Digit(y[0]) + 2 * Column(y) + Digit(y[5]);
  }

  lemma {:induction false} WovenGives(box: seq<seq<bv4>>, b: nat, q: nat, r: nat)
    requires Agrees(box, b) && q < 4 && r < 16
    ensures var v := 16 * q + r;
      && |box[v / 32 * 2 + v % 2]| == 16 && |SBOX[b][q]| == 16
      && box[v / 32 * 2 + v % 2][v / 2 % 16] == SBOX[b][q][r]
  {
    hide SBOX, Woven;
    var k, v := q / 2, 16 * q + r;
    assert v == 32 * k + 16 * (q % 2) + r;
    assert v / 32 == k && v % 2 == r % 2 && v / 2 % 16 == 8 * (q % 2) + r / 2;
    WovenEntry(box[2 * k], box[2 * k + 1], SBOX[b][2 * k], SBOX[b][2 * k + 1], q % 2, r);
  }

  lemma {:induction false} WovenEntry(even: seq<bv4>, odd: seq<bv4>, front: seq<bv4>, back: seq<bv4>, h: nat, r: nat)
    requires Woven(even, odd, front, back) && h < 2 && r < 16
    ensures |even| == |odd| == |front| == |back| == 16
    ensures (if h == 0 then front else back)[r] == (if r % 2 == 0 then even else odd)[8 * h + r / 2]
  {
    var m := r / 2;
    if r % 2 == 0 {
      assert r == 2 * m;
    } else {
      assert r == 2 * m + 1;
    }
  }

  lemma {:induction false} SixDigits(x: Bits, k: nat)
    requires k + 6 <= |x|
    ensures SixBits(x, k, 6) == 32 * Digit(x[k]) + 16 * Digit(x[k + 1]) + 8 * Digit(x[k + 2])
      + 4 * Digit(x[k + 3]) + 2 * Digit(x[k + 4]) + Digit(x[k + 5])
  {
    assert SixBits(x, k, 3) == 4 * Digit(x[k]) + 2 * Digit(x[k + 1]) + Digit(x[k + 2]) by {
      assert SixBits(x, k, 1) == Digit(x[k]);
    }
    assert SixBits(x, k, 5) == 4 * SixBits(x, k, 3) + 2 * Digit(x[k + 3]) + Digit(x[k + 4]);
  }

  /** Inputs of a box that differ in one bit give outputs that differ in two at least. */
  lemma {:induction false} TwoBitsChange(x: Bits, b: nat, j: nat)
    requires |x| == 6 && b < 8 && j < 6
    ensures Far(Select(x, b), Select(x[j := !x[j]], b))
  {
    hide Far, AllThere, Selection, SpreadBy;
    BoxesScatter(b);
    var y := x[j := !x[j]];
    FarBoth(Select(x, b), Select(y, b));
    if j == 0 || j == 5 {
      assert Column(x) == Column(y);
    } else {
      assert Row(x) == Row(y);
      var m := if j == 1 then 8 else if j == 2 then 4 else if j == 3 then 2 else 1;
      if x[j] { Neighbour(y, j, m); Scattered(b, Row(x), Column(y), m); }
      if y[j] { Neighbour(x, j, m); Scattered(b, Row(x), Column(x), m); }
    }
  }

  lemma {:induction false} Neighbour(x: Bits, j: nat, m: nat)
    requires |x| == 6 && 1 <= j <= 4 && !x[j]
    requires m == if j == 1 then 8 else if j == 2 then 4 else if j == 3 then 2 else 1
    ensures Column(x[j := true]) == Column(x) + m && Column(x) / m % 2 == 0
  {
  }

  lemma {:induction false} Scattered(b: nat, r: nat, c: nat, m: nat)
    requires b < 8 && r < 4 && c + m < 16 && (m == 1 || m == 2 || m == 4 || m == 8) && c / m % 2 == 0
    ensures |Selection(b)| == 4 && |Selection(b)[r]| == 16 && Far(Selection(b)[r][c], Selection(b)[r][c + m])
  {
    hide Far, AllThere, Selection, Apart;
    BoxesScatter(b);
  }

  lemma {:induction false} FarBoth(x: bv4, y: bv4)
    ensures Far(x, y) == Far(y, x)
  {
  }

  /** With the first and the last bit fixed, each number is given for some four bits between them. */
  lemma {:induction false} RowGivesAll(b: nat, first: bool, last: bool, v: bv4)
    requires b < 8
    ensures exists x: Bits :: |x| == 6 && x[0] == first && x[5] == last && Select(x, b) == v
  {
    hide Selection, Spread, Apart;
    BoxesScatter(b);
    var row := Selection(b)[2 * Digit(first) + Digit(last)];
    assert v in row;
    var c :| 0 <= c < 16 && row[c] == v;
    var x := [first, c / 8 == 1, c / 4 % 2 == 1, c / 2 % 2 == 1, c % 2 == 1, last];
    ColumnOf(x, c);
    assert Select(x, b) == v;
  }

  lemma {:induction false} ColumnOf(x: Bits, c: nat)
    requires c < 16 && |x| == 6
    requires x[1] == (c / 8 == 1) && x[2] == (c / 4 % 2 == 1) && x[3] == (c / 2 % 2 == 1) && x[4] == (c % 2 == 1)
    ensures Column(x) == c
  {
  }

  // ---------- the other listings ----------

  lemma {:induction false} ExpansionRow(r: nat, c: nat)
    requires r < 6 && c < 8
    ensures |DATA_EXPANSION| == 6 && |DATA_EXPANSION[r]| == 8
    ensures DATA_EXPANSION[r][c] == (4 * ((8 * r + c) / 6) + (8 * r + c) % 6 + 31) % 32
  {
  }

  lemma {:induction false} PermutationRow(r: nat, c: nat)
    requires r < 4 && c < 8
    ensures |PBOX| == 4 && |PBOX[r]| == 8 && |PERMUTATION| == 32
    ensures PERMUTATION[8 * r + c] == PBOX[r][c] + 1
  {
  }

  lemma {:induction false} ChoiceRow(r: nat, c: nat)
    requires r < 6 && c < 8
    ensures |KEY_COMPRESSION| == 6 && |KEY_COMPRESSION[r]| == 8 && |CHOICE_2| == 48
    ensures CHOICE_2[8 * r + c] == KEY_COMPRESSION[r][c] + 1
  {
    hide CHOICE_2, KEY_COMPRESSION;
    if r < 3 {
      LeftChoiceRow(r, c);
    } else {
      RightChoiceRow(r, c);
    }
  }

  lemma {:induction false} LeftChoiceRow(r: nat, c: nat)
    requires r < 3 && c < 8
    ensures |KEY_COMPRESSION| == 6 && |KEY_COMPRESSION[r]| == 8 && |CHOICE_2| == 48
    ensures CHOICE_2[8 * r + c] == KEY_COMPRESSION[r][c] + 1
  {
  }

  lemma {:induction false} RightChoiceRow(r: nat, c: nat)
    requires 3 <= r < 6 && c < 8
    ensures |KEY_COMPRESSION| == 6 && |KEY_COMPRESSION[r]| == 8 && |CHOICE_2| == 48
    ensures CHOICE_2[8 * r + c] == KEY_COMPRESSION[r][c] + 1
  {
  }

  /** The column that permuted choice 1 takes for position i, numbered from 0, when a key is
      written in eight rows of eight bits: the first columns, then the others from the last
      one on, the fourth one half and half. */
  function ChoiceColumn(i: nat): (c: nat)
    requires i < 56
    ensures c < 7
  {
    if i < 28 then i / 8 else if i < 52 then 6 - (i - 28) / 8 else 3
  }

  /** The row that it takes: upwards from the last one. */
  function ChoiceByte(i: nat): (r: nat)
    requires i < 56
    ensures r < 8
  {
    if i < 28 then 7 - i % 8 else if i < 52 then 7 - (i - 28) % 8 else 55 - i
  }

  function Choice1(i: nat): (k: nat)
    requires i < 56
    ensures k < 64 && k / 8 == ChoiceByte(i) && k % 8 == ChoiceColumn(i)
  {
    hide ChoiceByte, ChoiceColumn;
    8 * ChoiceByte(i) + ChoiceColumn(i)
  }

  /** The place of bit k of a key when the parity bits, each eighth one, are left out. */
  function Unparity(k: nat): nat { k - k / 8 }

  lemma {:induction false} KeyRow(r: nat, c: nat)
    requires r < 7 && c < 8
    ensures |KEY_PERMUTE_MAP| == 7 && |KEY_PERMUTE_MAP[r]| == 8
    ensures KEY_PERMUTE_MAP[r][c] == Unparity(Choice1(8 * r + c))
  {
    if r < 3 {
      LeftKeyRow(r, c);
    } else if r > 3 {
      RightKeyRow(r, c);
    }
  }

  lemma {:induction false} LeftKeyRow(r: nat, c: nat)
    requires r < 3 && c < 8
    ensures |KEY_PERMUTE_MAP| == 7 && |KEY_PERMUTE_MAP[r]| == 8
    ensures KEY_PERMUTE_MAP[r][c] == Unparity(Choice1(8 * r + c))
  {
    assert (8 * r + c) % 8 == c && (8 * r + c) / 8 == r;
    var k := 8 * (7 - c) + r;
    assert k / 8 == 7 - c;
  }

  lemma {:induction false} RightKeyRow(r: nat, c: nat)
    requires 3 < r < 7 && c < 8
    ensures |KEY_PERMUTE_MAP| == 7 && |KEY_PERMUTE_MAP[r]| == 8
    ensures KEY_PERMUTE_MAP[r][c] == Unparity(Choice1(8 * r + c))
  {
    if r == 6 { LastKeyRow(c); }
    if r == 5 { FifthKeyRow(c); }
  }

  lemma {:induction false} LastKeyRow(c: nat)
    requires c < 8
    ensures |KEY_PERMUTE_MAP| == 7 && |KEY_PERMUTE_MAP[6]| == 8
    ensures KEY_PERMUTE_MAP[6][c] == Unparity(Choice1(48 + c))
  {
  }

  lemma {:induction false} FifthKeyRow(c: nat)
    requires c < 8
    ensures |KEY_PERMUTE_MAP| == 7 && |KEY_PERMUTE_MAP[5]| == 8
    ensures KEY_PERMUTE_MAP[5][c] == Unparity(Choice1(40 + c))
  {
  }

  // ---------- the cipher function ----------

  /** The bit selection E: six neighbours for each box, the blocks of four bits overlapping. */
  function E(right: Bits): (r: Bits)
    requires |right| == 32
    ensures |r| == 48
  {
    seq(48, i requires 0 <= i < 48 => right[(4 * (i / 6) + i % 6 + 31) % 32])
  }

  function Selections(x: Bits): (r: Bits)
    requires |x| == 48
    ensures |r| == 32
  {
    seq(32, i requires 0 <= i < 32 => NibbleBit(Select(x[6 * (i / 4)..6 * (i / 4) + 6], i / 4), i % 4))
  }

  function P(x: Bits): (r: Bits)
    requires |x| == 32
    ensures |r| == 32
  {
    PermutationInRange();
    seq(32, i requires 0 <= i < 32 => x[PERMUTATION[i] - 1])
  }

  function CipherFunction(right: Bits, subkey: Bits): (r: Bits)
    requires |right| == 32 && |subkey| == 48
    ensures |r| == 32
  {
    P(Selections(Xor(E(right), subkey)))
  }

  lemma {:induction false} PermutationInRange()
    ensures |PERMUTATION| == 32 && forall i :: 0 <= i < 32 ==> 1 <= PERMUTATION[i] <= 32
  {
    hide PERMUTATION, PBOX;
    MapsInRange();
    PermutationRow(0, 0);
    forall i | 0 <= i < 32 ensures 1 <= PERMUTATION[i] <= 32 { PermutationRow(i / 8, i % 8); }
  }

  lemma {:induction false} ChoiceInRange()
    ensures |CHOICE_2| == 48 && forall i :: 0 <= i < 48 ==> 1 <= CHOICE_2[i] <= 56
  {
    hide CHOICE_2, KEY_COMPRESSION;
    MapsInRange();
    ChoiceRow(0, 0);
    forall i | 0 <= i < 48 ensures 1 <= CHOICE_2[i] <= 56 { ChoiceRow(i / 8, i % 8); }
  }

  lemma {:induction false} ExpansionIsE(right: Bits)
    requires |right| == 32
    ensures InRange(DATA_EXPANSION, 32) && Permuted(right, DATA_EXPANSION) == E(right)
  {
    hide DATA_EXPANSION, InRange;
    MapsInRange();
    forall i | 0 <= i < 48 ensures Permuted(right, DATA_EXPANSION)[i] == E(right)[i] {
      ExpansionRow(i / 8, i % 8);
    }
  }

  lemma {:induction false} PBoxIsP(x: Bits)
    requires |x| == 32
    ensures InRange(PBOX, 32) && Permuted(x, PBOX) == P(x)
  {
    hide PBOX, PERMUTATION, InRange;
    MapsInRange();
    PermutationInRange();
    forall i | 0 <= i < 32 ensures Permuted(x, PBOX)[i] == P(x)[i] {
      PermutationRow(i / 8, i % 8);
    }
  }

  lemma {:induction false} SubstitutedIsSelections(x: Bits)
    requires |x| == 48
    ensures Substituted(x) == Selections(x)
  {
    hide Substitute, Select, NibbleBit;
    forall i | 0 <= i < 32 ensures Substituted(x)[i] == Selections(x)[i] {
      SubstituteIsSelect(x, i / 4);
    }
  }

  /** The program's function of right half and subkey is the standard's. */
  lemma {:induction false} FIsCipherFunction(right: Bits, subkey: Bits)
    requires |right| == 32 && |subkey| == 48
    ensures F(right, subkey) == CipherFunction(right, subkey)
  {
    hide Substituted, Selections, E, P, Permuted, InRange;
    MapsInRange();
    ExpansionIsE(right);
    var x := Xor(E(right), subkey);
    SubstitutedIsSelections(x);
    PBoxIsP(Selections(x));
  }

  /** The bits of a box's output are those of the number, the highest first. */
  lemma {:induction false} NibbleBits(v: bv4)
    ensures v as nat == 8 * Digit(NibbleBit(v, 0)) + 4 * Digit(NibbleBit(v, 1))
      + 2 * Digit(NibbleBit(v, 2)) + Digit(NibbleBit(v, 3))
  {
  }

  // ---------- the key schedule ----------

  /** How far the halves of the key have been shifted in the first n iterations: two places in
      each, but one in the first, the second, the ninth and the sixteenth. */
  function Shift(n: nat): int {
    2 * n - (if n >= 1 then 1 else 0) - (if n >= 2 then 1 else 0) - (if n >= 9 then 1 else 0) - (if n >= 16 then 1 else 0)
  }

  lemma {:induction false} TurnsAreShift(n: nat)
    requires n <= 16
    ensures Turns(n) == Shift(n)
  {
    if n > 0 { TurnsAreShift(n - 1); }
  }

  /** Bit i of the halves C and D after n iterations, for a key of 64 bits. */
  predicate KeyBit(key: Bits, n: nat, i: nat)
    requires |key| == 64 && n <= 16 && i < 56
  {
    if i < 28 then key[Choice1((i + Shift(n)) % 28)] else key[Choice1(28 + (i - 28 + Shift(n)) % 28)]
  }

  /** The subkey of iteration n. */
  function K(key: Bits, n: nat): (k: Bits)
    requires |key| == 64 && 1 <= n <= 16
    ensures |k| == 48
  {
    ChoiceInRange();
    seq(48, i requires 0 <= i < 48 => KeyBit(key, n, CHOICE_2[i] - 1))
  }

  /** The key without its parity bits. */
  function WithoutParity(key: Bits): (k: Bits)
    requires |key| == 64
    ensures |k| == 56
  {
    seq(56, i requires 0 <= i < 56 => key[i + i / 7])
  }

  /** The key register that the program starts with. */
  function Register(key: Bits): (k: Bits)
    requires |key| == 64
    ensures |k| == 56
  {
    MapsInRange();
    Permuted(WithoutParity(key), KEY_PERMUTE_MAP)
  }

  lemma {:induction false} ParityPlace(k: nat)
    requires k < 64 && k % 8 < 7
    ensures Unparity(k) < 56 && Unparity(k) + Unparity(k) / 7 == k
  {
    assert Unparity(k) == 7 * (k / 8) + k % 8;
  }

  lemma {:induction false} RegisterBit(key: Bits, i: nat)
    requires |key| == 64 && i < 56
    ensures Register(key)[i] == key[Choice1(i)]
  {
    hide KEY_PERMUTE_MAP, Choice1, Unparity, InRange;
    MapsInRange();
    KeyRow(i / 8, i % 8);
    assert 8 * (i / 8) + i % 8 == i;
    ParityPlace(Choice1(i));
  }

  lemma {:induction false} ShiftedBit(key: Bits, n: nat, i: nat)
    requires |key| == 56 && n <= 28 && i < 56
    ensures Shifted(key, n)[i] == if i < 28 then key[(i + n) % 28] else key[28 + (i - 28 + n) % 28]
  {
  }

  lemma {:induction false} RegisterKeyBit(key: Bits, n: nat, j: nat)
    requires |key| == 64 && n <= 16 && j < 56
    ensures KeyAt(Register(key), n)[j] == KeyBit(key, n, j)
  {
    hide Register, Choice1, Shift, Shifted, KeyAt, Turns;
    TurnsAreShift(n);
    KeyAtTurns(Register(key), n);
    ShiftedBit(Register(key), Turns(n), j);
    RegisterBit(key, if j < 28 then (j + Turns(n)) % 28 else 28 + (j - 28 + Turns(n)) % 28);
  }

  /** The program's subkey of a round is the standard's of this iteration. */
  lemma {:induction false} SubkeyIsK(key: Bits, r: nat)
    requires |key| == 64 && r < 16
    ensures Subkey(Register(key), r) == K(key, r + 1)
  {
    hide KEY_COMPRESSION, CHOICE_2, Register, KeyBit, KeyAt, InRange;
    MapsInRange();
    ChoiceInRange();
    forall i | 0 <= i < 48 ensures Subkey(Register(key), r)[i] == K(key, r + 1)[i] {
      ChoiceRow(i / 8, i % 8);
      RegisterKeyBit(key, r + 1, CHOICE_2[i] - 1);
    }
  }

  // ---------- enciphering ----------

  datatype Halves = Halves(left: Bits, right: Bits) {
    predicate Valid() { |left| == |right| == 32 }
  }

  /** L and R after n iterations. */
  function Iterated(start: Halves, key: Bits, n: nat): (h: Halves)
    requires start.Valid() && |key| == 64 && n <= 16
    ensures h.Valid()
  {
    if n == 0 then start
    else
      var h := Iterated(start, key, n - 1);
      Halves(h.right, Xor(h.left, CipherFunction(h.right, K(key, n))))
  }

  /** The initial permutation: the bits 58, 60, 62 and 64 of the block, counted from 1, begin the
      first four rows, 57, 59, 61 and 63 the others; the bits of a row follow at a distance of 8. */
  function IP(block: Bits): (r: Bits)
    requires |block| == 64
    ensures |r| == 64
  {
    seq(64, i requires 0 <= i < 64 => block[(if i < 32 then 57 + 2 * (i / 8) else 48 + 2 * (i / 8)) - 8 * (i % 8)])
  }

  lemma {:induction false} InitialIsIP(block: Bits)
    requires |block| == 64
    ensures InRange(INITIAL_PERMUTE_MAP, 64) && |INITIAL_PERMUTE_MAP| == 8
    ensures Permuted(block, INITIAL_PERMUTE_MAP) == IP(block)
  {
    hide INITIAL_PERMUTE_MAP, InRange, Entry;
    MapsInRange();
    forall i | 0 <= i < 64 ensures Permuted(block, INITIAL_PERMUTE_MAP)[i] == IP(block)[i] {
      InitialEntry(i / 8, i % 8);
      assert 8 * (i / 8) + i % 8 == i;
    }
  }

  /** No block is lost: what the initial permutation gives determines the block. */
  lemma {:induction false} IPInjective(a: Bits, b: Bits)
    requires |a| == |b| == 64 && IP(a) == IP(b)
    ensures a == b
  {
    hide IP, InRange, Permuted;
    InitialIsIP(a);
    InitialIsIP(b);
    BlockPermutations(a);
    BlockPermutations(b);
  }

  lemma {:induction false} RoundsIterate(data: Bits, key: Bits, n: nat)
    requires |data| == 64 && |key| == 64 && n <= 16
    ensures var h := Iterated(Halves(data[..32], data[32..]), key, n);
      Rounds(data, Schedule(Register(key), n)) == h.left + h.right
  {
    hide K, Register, F, CipherFunction, Subkey;
    if n > 0 {
      RoundsIterate(data, key, n - 1);
      var h := Iterated(Halves(data[..32], data[32..]), key, n - 1);
      assert Schedule(Register(key), n)[..n - 1] == Schedule(Register(key), n - 1);
      SubkeyIsK(key, n - 1);
      FIsCipherFunction(h.right, K(key, n));
      assert (h.left + h.right)[..32] == h.left && (h.left + h.right)[32..] == h.right;
    }
  }

  /** The program's cipher is the standard's, for every block and key: what it gives is the block
      whose initial permutation is the preoutput, R16 before L16, of the sixteen iterations. */
  lemma {:induction false} CipherIsStandard(block: Bits, key: Bits)
    requires |block| == 64 && |key| == 64
    ensures var start := Halves(IP(block)[..32], IP(block)[32..]);
      var end := Iterated(start, key, 16);
      IP(Cipher(block, Schedule(Register(key), 16))) == end.right + end.left
  {
    hide IP, Register, Iterated, Rounds, Permuted, InRange, Schedule;
    MapsInRange();
    InitialIsIP(block);
    RoundsIterate(IP(block), key, 16);
    var end := Iterated(Halves(IP(block)[..32], IP(block)[32..]), key, 16);
    var preoutput := Rounds(IP(block), Schedule(Register(key), 16));
    BlockPermutations(preoutput);
    InitialIsIP(Permuted(preoutput, FINAL_PERMUTE_MAP));
    assert Swapped(end.left + end.right) == end.right + end.left;
  }

  // ---------- a worked value ----------

  function Zeros(n: nat): (r: Bits)
    ensures |r| == n && forall i :: 0 <= i < n ==> !r[i]
  {
    seq(n, _ => false)
  }

  lemma {:induction false} SelectZeros(b: nat)
    requires b < 8
    ensures Select(Zeros(6), b) == (
      match b
      case 0 => 14 case 1 => 15 case 2 => 10 case 3 => 7
      case 4 => 2 case 5 => 12 case 6 => 4 case 7 => 13)
  {
    BoxFull(b);
  }

  /** A byte's bits, the highest first. */
  lemma {:induction false} ByteBits(v: bv8)
    ensures v as nat == 128 * Digit(ByteBit(v, 0)) + 64 * Digit(ByteBit(v, 1)) + 32 * Digit(ByteBit(v, 2))
      + 16 * Digit(ByteBit(v, 3)) + 8 * Digit(ByteBit(v, 4)) + 4 * Digit(ByteBit(v, 5))
      + 2 * Digit(ByteBit(v, 6)) + Digit(ByteBit(v, 7))
  {
  }

  /** What the boxes give for zeros, byte by byte. */
  lemma {:induction false} ZerosSubstituted()
    ensures Substituted(Zeros(48)) == BitsOf([0xEF, 0xA7, 0x2C, 0x4D])
  {
    hide Substitute, Select, ByteBit, NibbleBit;
    var bytes: seq<bv8> := [0xEF, 0xA7, 0x2C, 0x4D];
    forall b | 0 <= b < 8 ensures Substitute(Zeros(48), b) == Select(Zeros(6), b) {
      SubstituteIsSelect(Zeros(48), b);
      assert Zeros(48)[6 * b..6 * b + 6] == Zeros(6);
    }
    SelectZeros(0); SelectZeros(1); SelectZeros(2); SelectZeros(3);
    SelectZeros(4); SelectZeros(5); SelectZeros(6); SelectZeros(7);
    assert bytes[0] == TwoNibbles(14, 15) && bytes[1] == TwoNibbles(10, 7);
    assert bytes[2] == TwoNibbles(2, 12) && bytes[3] == TwoNibbles(4, 13);
    NibbleBytes(bytes, Zeros(48));
  }
}
