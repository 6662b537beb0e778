/** Base64 text for the binary data of records, and for the numbers of their data types. */
module Base64 {

  type byte = b: int | 0 <= b < 256

  const PADDING_BYTE: nat := 64

  // ---------- the alphabet ----------

  /** Entry v of the encoding table; the last one is the padding character. */
  function Letter(v: nat): (c: byte)
    requires v <= PADDING_BYTE
  {
    if v < 26 then 'A' as int + v
    else if v < 52 then 'a' as int + (v - 26)
    else if v < 62 then '0' as int + (v - 52)
    else if v == 62 then '+' as int
    else if v == 63 then '/' as int
    else '=' as int
  }

  /** Where a character is in the table: 64 is padding, 65 is "not there". */
  function Value(cur: int): (v: nat)
    ensures v <= PADDING_BYTE ==> Letter(v) as int == cur
    ensures v > PADDING_BYTE ==> v == PADDING_BYTE + 1 && forall w: nat :: w <= PADDING_BYTE ==> Letter(w) as int != cur
  {
    if 'A' as int <= cur <= 'Z' as int then cur - 'A' as int
    else if 'a' as int <= cur <= 'z' as int then cur - 'a' as int + 26
    else if '0' as int <= cur <= '9' as int then cur - '0' as int + 52
    else if cur == '+' as int then 62
    else if cur == '/' as int then 63
    else if cur == '=' as int then PADDING_BYTE
    else PADDING_BYTE + 1
  }

  lemma {:induction false} ValueOfLetter(v: nat)
    requires v <= PADDING_BYTE
    ensures Value(Letter(v)) == v
  {
  }

  /** Table 1 of RFC 4648, written out. */
  const ALPHABET := "ABCDEFGHIJKLMNOPQRSTUVWXYZ" + "abcdefghijklmnopqrstuvwxyz" + "0123456789+/"

  lemma {:induction false} LetterInAlphabet(v: nat)
    requires v <= PADDING_BYTE
    ensures |ALPHABET| == 64
    ensures Letter(v) == (if v < 64 then ALPHABET[v] else '=') as int
    ensures v < 64 ==> ALPHABET[v] != '='
  {
    if v < 26 {
      UpperCase(v);
    } else if v < 52 {
      LowerCase(v);
    }
  }

  lemma {:induction false} UpperCase(v: nat)
    requires v < 26
    ensures |ALPHABET| == 64 && ALPHABET[v] as int == 'A' as int + v
  {
  }

  lemma {:induction false} LowerCase(v: nat)
    requires 26 <= v < 52
    ensures |ALPHABET| == 64 && ALPHABET[v] as int == 'a' as int + (v - 26)
  {
  }

  // ---------- files ----------

  /** A byte as a signed character, which makes byte 255 look like the end of the file. */
  function Signed(b: byte): int { if b < 128 then b else b - 256 }

  /** What reading at a position gives. */
  function At(content: seq<byte>, p: nat): int { if p < |content| then Signed(content[p]) else -1 }

  /** The position after reading there and giving the character back: byte 255 stays read. */
  function Unread(content: seq<byte>, p: nat): nat { if p < |content| && content[p] == 255 then p + 1 else p }

  class File {
    var content: seq<byte>
    var pos: nat

    ghost predicate Valid()
      reads this
    {
      pos <= |content|
    }

    method Fputc(c: byte) returns (written: int)
      modifies this`content
      ensures content == old(content) + [c] && written == c
    {
      content := content + [c];
      written := c;
    }

    method Fgetc() returns (c: int)
      requires Valid()
      modifies this`pos
      ensures Valid() && c == At(content, old(pos)) && pos == (if old(pos) < |content| then old(pos) + 1 else old(pos))
    {
      c := At(content, pos);
      pos := if pos < |content| then pos + 1 else pos;
    }

    method Ungetc(c: int)
      requires Valid() && (c != -1 ==> pos > 0 && c == At(content, pos - 1))
      modifies this`pos
      ensures Valid() && pos == (if c == -1 then old(pos) else old(pos) - 1)
    {
      if c != -1 { pos := pos - 1; }
    }
  }

  // ---------- the text of bytes ----------

  function ByteOr0(src: seq<byte>, i: nat): byte { if i < |src| then src[i] else 0 }

  /** Three bytes as one number of 24 bits. */
  function Three(a: byte, b: byte, c: byte): (g: nat)
    ensures g < 0x100_0000
  {
    a as nat * 0x1_0000 + b as nat * 0x100 + c as nat
  }

  /** Group q of three bytes, the missing ones 0. */
  function Group(src: seq<byte>, q: nat): (g: nat)
    ensures g < 0x100_0000
  {
    Three(ByteOr0(src, 3 * q), ByteOr0(src, 3 * q + 1), ByteOr0(src, 3 * q + 2))
  }

  /** The r-th group of six bits of 24. */
  function Digit(g: nat, r: nat): (d: nat)
    requires g < 0x100_0000 && r < 4
    ensures d < 64
  {
    if r == 0 then g / 0x4_0000 else if r == 1 then g / 0x1000 % 64 else if r == 2 then g / 64 % 64 else g % 64
  }

  function Sextet(src: seq<byte>, j: nat): (d: nat)
    ensures d < 64
  {
    Digit(Group(src, j / 4), j % 4)
  }

  /** Characters needed for the bits of len bytes, without padding. */
  function Chars(len: nat): nat { (len * 8 + 5) / 6 }

  /** Padding characters that complete the block of the i-th character. */
  function Room(i: nat): (n: nat)
    ensures n < 4 && (i + n) % 4 == 0
  {
    (4 - i % 4) % 4
  }

  function Text(src: seq<byte>, n: nat): (t: seq<byte>)
    ensures |t| == n
  { seq<byte>(n, j requires 0 <= j < n => Letter(Sextet(src, j))) }

  function Padding(n: nat): (t: seq<byte>)
    ensures |t| == n
  { seq<byte>(n, j requires 0 <= j < n => Letter(PADDING_BYTE)) }

  function Encoded(src: seq<byte>): seq<byte> { Text(src, Chars(|src|)) + Padding(Room(Chars(|src|))) }

  /** The bytes that a character of the text is made of. */
  lemma {:induction false} SextetFromBytes(src: seq<byte>, q: nat)
    ensures Sextet(src, 4 * q) == ByteOr0(src, 3 * q) / 4
    ensures Sextet(src, 4 * q + 1) == ByteOr0(src, 3 * q) % 4 * 16 + ByteOr0(src, 3 * q + 1) / 16
    ensures Sextet(src, 4 * q + 2) == ByteOr0(src, 3 * q + 1) % 16 * 4 + ByteOr0(src, 3 * q + 2) / 64
    ensures Sextet(src, 4 * q + 3) == ByteOr0(src, 3 * q + 2) % 64
  {
    assert (4 * q) / 4 == (4 * q + 1) / 4 == (4 * q + 2) / 4 == (4 * q + 3) / 4 == q;
    DigitsOf(ByteOr0(src, 3 * q), ByteOr0(src, 3 * q + 1), ByteOr0(src, 3 * q + 2));
  }

  lemma {:induction false} DigitsOf(a: byte, b: byte, c: byte)
    ensures var g := Three(a, b, c);
      && Digit(g, 0) == a / 4 && Digit(g, 1) == a % 4 * 16 + b / 16
      && Digit(g, 2) == b % 16 * 4 + c / 64 && Digit(g, 3) == c % 64
  {
    var x, y, z: nat := a as nat, b as nat, c as nat;
    TopDigit(x, y, z);
    SecondDigit(x, y, z);
    LowDigits(x, y, z);
  }

  lemma {:induction false} TopDigit(x: nat, y: nat, z: nat)
    requires x < 256 && y < 256 && z < 256
    ensures (x * 0x1_0000 + y * 0x100 + z) / 0x4_0000 == x / 4
  {
  }

  lemma {:induction false} SecondDigit(x: nat, y: nat, z: nat)
    requires x < 256 && y < 256 && z < 256
    ensures (x * 0x1_0000 + y * 0x100 + z) / 0x1000 % 64 == x % 4 * 16 + y / 16
  {
    assert (x * 0x1_0000 + y * 0x100 + z) / 0x1000 == x * 16 + y / 16;
  }

  lemma {:induction false} LowDigits(x: nat, y: nat, z: nat)
    requires x < 256 && y < 256 && z < 256
    ensures (x * 0x1_0000 + y * 0x100 + z) / 64 % 64 == y % 16 * 4 + z / 64
    ensures (x * 0x1_0000 + y * 0x100 + z) % 64 == z % 64
  {
    assert (x * 0x1_0000 + y * 0x100 + z) / 64 == x * 0x400 + y * 4 + z / 64;
  }

  /** The letters of one group. */
  function Quad(g: nat): (q: seq<byte>)
    requires g < 0x100_0000
    ensures |q| == 4
  {
    [Letter(Digit(g, 0)), Letter(Digit(g, 1)), Letter(Digit(g, 2)), Letter(Digit(g, 3))]
  }

  /** Bytes read as text. */
  function AsText(bytes: seq<byte>): (t: string)
    ensures |t| == |bytes| && forall i :: 0 <= i < |t| ==> t[i] as int == bytes[i]
  {
    seq(|bytes|, i requires 0 <= i < |bytes| => bytes[i] as char)
  }

  /** The format of section 4 of RFC 4648: whole groups of 24 bits become four characters;
      8 bits that are left become two and two pads, 16 bits three and one pad. */
  lemma {:induction false} EncodedByGroups(src: seq<byte>)
    ensures |ALPHABET| == 64
    ensures |src| == 0 ==> AsText(Encoded(src)) == ""
    ensures |src| == 1 ==> AsText(Encoded(src)) == [ALPHABET[src[0] / 4], ALPHABET[src[0] % 4 * 16]] + "=="
    ensures |src| == 2 ==> (
      var a, b := src[0], src[1];
      AsText(Encoded(src)) == [ALPHABET[a / 4], ALPHABET[a % 4 * 16 + b / 16], ALPHABET[b % 16 * 4]] + "=")
    ensures |src| >= 3 ==> (
      var a, b, c, rest := src[0], src[1], src[2], AsText(Encoded(src[3..]));
      AsText(Encoded(src)) ==
        [ALPHABET[a / 4], ALPHABET[a % 4 * 16 + b / 16], ALPHABET[b % 16 * 4 + c / 64], ALPHABET[c % 64]] + rest)
  {
    hide Quad, Text, Three, Encoded, Room, Chars, Padding, Letter, ALPHABET, AsText;
    LetterInAlphabet(PADDING_BYTE);
    if |src| == 0 {
      EncodedShort(src);
    } else {
      var a, b, c := src[0], ByteOr0(src, 1), ByteOr0(src, 2);
      QuadLetters(a, b, c);
      if |src| < 3 {
        EncodedShort(src);
        PadsAre(3 - |src|);
      } else {
        EncodedLong(src);
      }
    }
  }

  /** The four characters of three bytes, as the alphabet has them. */
  lemma {:induction false} QuadLetters(a: byte, b: byte, c: byte)
    ensures |ALPHABET| == 64
    ensures AsText(Quad(Three(a, b, c))) ==
      [ALPHABET[a / 4], ALPHABET[a % 4 * 16 + b / 16], ALPHABET[b % 16 * 4 + c / 64], ALPHABET[c % 64]]
  {
    hide Letter, Digit, Three, ALPHABET;
    DigitsOf(a, b, c);
    LetterInAlphabet(a / 4);
    LetterInAlphabet(a % 4 * 16 + b / 16);
    LetterInAlphabet(b % 16 * 4 + c / 64);
    LetterInAlphabet(c % 64);
  }

  lemma {:induction false} PadsAre(n: nat)
    requires n == 1 || n == 2
    ensures AsText(Padding(n)) == if n == 1 then "=" else "=="
  {
    LetterInAlphabet(PADDING_BYTE);
  }

  /** A test vector of section 10 of RFC 4648, and a byte that needs the last letter but one. */
  lemma {:induction false} Vectors()
    ensures AsText(Encoded([0x66, 0x6F, 0x6F, 0x62])) == "Zm9vYg=="
    ensures AsText(Encoded([0xFB])) == "+w=="
  {
    hide Encoded, AsText, ALPHABET;
    var foob: seq<byte> := [0x66, 0x6F, 0x6F, 0x62];
    EncodedByGroups(foob);
    assert foob[3..] == [0x62];
    EncodedByGroups([0x62]);
    EncodedByGroups([0xFB]);
    SomeLetters();
  }

  lemma {:induction false} SomeLetters()
    ensures |ALPHABET| == 64
    ensures ALPHABET[24] == 'Y' && ALPHABET[25] == 'Z' && ALPHABET[32] == 'g' && ALPHABET[38] == 'm'
    ensures ALPHABET[47] == 'v' && ALPHABET[48] == 'w' && ALPHABET[61] == '9' && ALPHABET[62] == '+'
  {
  }

  lemma {:induction false} EncodedShort(src: seq<byte>)
    requires |src| < 3
    ensures |src| == 0 ==> Encoded(src) == []
    ensures |src| > 0 ==> Encoded(src) == Quad(Three(src[0], ByteOr0(src, 1), 0))[..|src| + 1] + Padding(3 - |src|)
  {
    hide Quad, Text, Three;
    assert Chars(|src|) == (if |src| == 0 then 0 else |src| + 1);
    TextOfGroup(src, Chars(|src|));
  }

  lemma {:induction false} EncodedLong(src: seq<byte>)
    requires |src| >= 3
    ensures Encoded(src) == Quad(Three(src[0], src[1], src[2])) + Encoded(src[3..])
  {
    hide Quad, Text, Three, Padding;
    var n := Chars(|src| - 3);
    assert Chars(|src|) == 4 + n && Room(4 + n) == Room(n);
    TextOfGroup(src, 4);
    TextShifts(src, n);
    var q, rest, pads := Quad(Group(src, 0)), Text(src[3..], n), Padding(Room(n));
    assert q[..4] == q && (q + rest) + pads == q + (rest + pads);
  }

  lemma {:induction false} TextOfGroup(src: seq<byte>, n: nat)
    requires n <= 4
    ensures Text(src, n) == Quad(Group(src, 0))[..n]
  {
    hide Letter, Digit, Group;
    forall j | 0 <= j < n ensures Text(src, n)[j] == Quad(Group(src, 0))[j] {
      assert j / 4 == 0 && j % 4 == j;
      assert j == 0 || j == 1 || j == 2 || j == 3;
    }
  }

  lemma {:induction false} TextShifts(src: seq<byte>, n: nat)
    requires |src| >= 3
    ensures Text(src, n + 4) == Text(src, 4) + Text(src[3..], n)
  {
    hide Letter, Sextet;
    forall j | 0 <= j < n ensures Sextet(src, j + 4) == Sextet(src[3..], j) { SextetShifts(src, j); }
    forall j | 0 <= j < n + 4 ensures Text(src, n + 4)[j] == (Text(src, 4) + Text(src[3..], n))[j] {
      if j >= 4 { assert Sextet(src, (j - 4) + 4) == Sextet(src[3..], j - 4); }
    }
  }

  lemma {:induction false} SextetShifts(src: seq<byte>, j: nat)
    requires |src| >= 3
    ensures Sextet(src, j + 4) == Sextet(src[3..], j)
  {
    hide Digit, Three, Group;
    assert (j + 4) / 4 == j / 4 + 1 && (j + 4) % 4 == j % 4;
    GroupShifts(src, j / 4);
  }

  lemma {:induction false} GroupShifts(src: seq<byte>, q: nat)
    requires |src| >= 3
    ensures Group(src, q + 1) == Group(src[3..], q)
  {
    hide Three, ByteOr0;
    ShiftedByte(src, 3 * q);
    ShiftedByte(src, 3 * q + 1);
    ShiftedByte(src, 3 * q + 2);
  }

  lemma {:induction false} ShiftedByte(src: seq<byte>, i: nat)
    requires |src| >= 3
    ensures ByteOr0(src, i + 3) == ByteOr0(src[3..], i)
  {
  }

  lemma {:induction false} TextGrows(src: seq<byte>, j: nat)
    ensures Text(src, j + 1) == Text(src, j) + [Letter(Sextet(src, j))]
  {
  }

  /** The bits for character j: some of the last byte, and some of the next one. */
  lemma {:induction false} SextetFrom(src: seq<byte>, j: nat, i: nat, last: nat, next: nat)
    requires i == 3 * (j / 4) + j % 4 && next == ByteOr0(src, i) && (j % 4 > 0 ==> last == ByteOr0(src, i - 1))
    ensures Sextet(src, j) ==
      (if j % 4 == 0 then next / 4 else if j % 4 == 1 then last % 4 * 16 + next / 16
       else if j % 4 == 2 then last % 16 * 4 + next / 64 else last % 64)
  {
    hide Sextet, ByteOr0;
    SextetFromBytes(src, j / 4);
    assert j == 4 * (j / 4) + j % 4;
  }

  /** Write the text of src to a file. */
  method Encode(file: File, src: seq<byte>) returns (size: nat)
    modifies file`content
    ensures file.content == old(file.content) + Encoded(src)
    ensures size == |Encoded(src)|
  {
    hide Sextet, Letter, Text;
    size := (|src| * 8 + 5) / 6;
    var i, j, offset := 0, 0, 0;
    var last: byte := 0;
    assert Text(src, 0) == [];
    while j < size
      invariant j <= size && offset == 2 * (j % 4) && i == 3 * (j / 4) + j % 4
      invariant offset > 0 ==> last == ByteOr0(src, i - 1)
      invariant file.content == old(file.content) + Text(src, j)
    {
      var next := if i < |src| then src[i] else 0;
      var cur: nat;
      SextetFrom(src, j, i, last, next);
      NextPlace(j);
      if offset == 0 {
        cur, offset, last := next / 4, 2, next;
      } else if offset == 2 {
        cur, offset, last := last % 4 * 16 + next / 16, 4, next;
      } else if offset == 4 {
        cur, offset, last := last % 16 * 4 + next / 64, 6, next;
      } else {
        cur, i, offset := last % 64, i - 1, 0;
      }
      TextGrows(src, j);
      var _ := file.Fputc(Letter(cur));
      i, j := i + 1, j + 1;
    }
    size := AddPadding(file, size);
  }

  lemma {:induction false} NextPlace(j: nat)
    ensures j % 4 == 3 ==> (j + 1) / 4 == j / 4 + 1 && (j + 1) % 4 == 0
    ensures j % 4 < 3 ==> (j + 1) / 4 == j / 4 && (j + 1) % 4 == j % 4 + 1
  {
  }

  /** Add padding to the file up to a whole block. */
  method AddPadding(file: File, chars: nat) returns (size: nat)
    modifies file`content
    ensures file.content == old(file.content) + Padding(Room(chars)) && size == chars + Room(chars)
  {
    size := chars;
    while size * 6 % 24 != 0
      invariant chars <= size <= chars + Room(chars)
      invariant file.content == old(file.content) + Padding(size - chars)
      decreases chars + Room(chars) - size
    {
      var _ := file.Fputc(Letter(PADDING_BYTE));
      assert Padding(size - chars + 1) == Padding(size - chars) + [Letter(PADDING_BYTE)];
      size := size + 1;
    }
  }

  // ---------- reading bytes back ----------

  datatype Reading = Reading(bytes: seq<byte>, count: nat, next: nat)

  /** How many letters stand at a position, at most n. */
  function Letters(content: seq<byte>, p: nat, n: nat): (k: nat)
    ensures k <= n
    ensures k < n ==> Value(At(content, p + k)) >= PADDING_BYTE
    ensures forall j :: p <= j < p + k ==> Value(At(content, j)) < PADDING_BYTE
    decreases n
  {
    if n == 0 || Value(At(content, p)) >= PADDING_BYTE then 0 else 1 + Letters(content, p + 1, n - 1)
  }

  /** How many padding characters stand at a position, at most n. */
  function Pads(content: seq<byte>, p: nat, n: nat): (k: nat)
    ensures k <= n
    ensures p + k <= |content| || k == 0
    ensures forall j :: p <= j < p + k ==> At(content, j) == Letter(PADDING_BYTE)
    ensures k < n ==> At(content, p + k) != Letter(PADDING_BYTE)
    decreases n
  {
    if n == 0 || At(content, p) != Letter(PADDING_BYTE) then 0 else 1 + Pads(content, p + 1, n - 1)
  }

  function Six(content: seq<byte>, p: nat): (v: nat)
    ensures v < 64
  {
    Value(At(content, p)) % 64
  }

  lemma {:induction false} SixIs(content: seq<byte>, p: nat)
    ensures Value(At(content, p)) < PADDING_BYTE ==> Six(content, p) == Value(At(content, p))
  {
  }

  /** Byte m of the text at a position. */
  function ByteAt(content: seq<byte>, p: nat, m: nat): byte {
    var q := p + 4 * (m / 3);
    if m % 3 == 0 then Six(content, q) * 4 + Six(content, q + 1) / 16
    else if m % 3 == 1 then Six(content, q + 1) % 16 * 16 + Six(content, q + 2) / 4
    else Six(content, q + 2) % 4 * 64 + Six(content, q + 3)
  }

  /** The bytes of k letters: the first len, 0 where the letters do not fill a byte. */
  function BytesOf(content: seq<byte>, p: nat, k: nat, len: nat): seq<byte> {
    seq<byte>(len, m requires 0 <= m < len => if 8 * (m + 1) <= 6 * k then ByteAt(content, p, m) else 0)
  }

  /** Reading len bytes at a position, whatever the file has there. */
  function Decoded(content: seq<byte>, p: nat, len: nat): Reading {
    var k := Letters(content, p, Chars(len));
    var bytes := BytesOf(content, p, k, len);
    if k < Chars(len) && Value(At(content, p + k)) > PADDING_BYTE then
      Reading(bytes, 0, Unread(content, p + k))
    else
      var i := if k < Chars(len) then k + 1 else k;
      Padded(content, p, i, bytes)
  }

  /** The end of a reading: the padding of the last block. */
  function Padded(content: seq<byte>, p: nat, i: nat, bytes: seq<byte>): Reading {
    var pads := Pads(content, p + i, Room(i));
    Reading(bytes, i + pads, if pads == Room(i) then p + i + pads else Unread(content, p + i + pads))
  }

  /** The search through the table. */
  method Search(cur: int) returns (next: nat)
    ensures next == Value(cur)
  {
    next := 0;
    while next <= PADDING_BYTE && Letter(next) as int != cur
      invariant next <= PADDING_BYTE + 1
      invariant forall w :: 0 <= w < next ==> Letter(w) as int != cur
    {
      next := next + 1;
    }
    if next <= PADDING_BYTE { ValueOfLetter(next); }
  }

  /** Fill the rest of a buffer with 0. */
  method ZeroFill(dst: array<byte>, j: nat)
    requires j <= dst.Length
    modifies dst
    ensures dst[..j] == old(dst[..j]) && forall m :: j <= m < dst.Length ==> dst[m] == 0
  {
    var n := j;
    while n < dst.Length
      invariant j <= n <= dst.Length && dst[..j] == old(dst[..j])
      invariant forall m :: j <= m < n ==> dst[m] == 0
    {
      dst[n] := 0;
      n := n + 1;
    }
  }

  /** Bytes that are complete after i letters. */
  function Complete(i: nat): nat { 6 * i / 8 }

  /** The i letters at p have been put in place: complete bytes, and the bits begun in the next. */
  ghost predicate Placed(dst: seq<byte>, content: seq<byte>, p: nat, i: nat, offset: nat) {
    && offset == 2 * (i % 4)
    && Complete(i) <= |dst|
    && (forall m :: 0 <= m < Complete(i) ==> dst[m] == ByteAt(content, p, m))
    && (offset > 0 && Complete(i) < |dst| ==> dst[Complete(i)] == Begun(content, p, i))
  }

  /** The bits of the last of i letters that belong to the byte after the complete ones. */
  function Begun(content: seq<byte>, p: nat, i: nat): byte
    requires i % 4 != 0
  {
    if i % 4 == 1 then Six(content, p + i - 1) * 4
    else if i % 4 == 2 then Six(content, p + i - 1) % 16 * 16
    else Six(content, p + i - 1) % 4 * 64
  }

  lemma {:induction false} CompleteCases(i: nat)
    ensures Complete(i) == 3 * (i / 4) + (if i % 4 == 0 then 0 else i % 4 - 1)
  {
    assert 6 * i == 8 * (3 * (i / 4)) + 6 * (i % 4);
  }

  /** What letter i adds to the byte it completes, if it completes one. */
  function Ending(i: nat, v: nat): nat { if i % 4 == 1 then v / 16 else if i % 4 == 2 then v / 4 else v }

  lemma {:induction false} NextComplete(i: nat)
    ensures Complete(i + 1) == Complete(i) + (if i % 4 == 0 then 0 else 1)
  {
    CompleteCases(i);
    CompleteCases(i + 1);
  }

  /** The byte that letter i completes. */
  lemma {:induction false} ByteCompleted(content: seq<byte>, p: nat, i: nat)
    requires i % 4 > 0
    ensures ByteAt(content, p, Complete(i)) as nat == Begun(content, p, i) as nat + Ending(i, Six(content, p + i))
  {
    hide Six, Complete;
    CompleteCases(i);
    var q, r := i / 4, i % 4;
    assert i == 4 * q + r;
    assert (3 * q + (r - 1)) / 3 == q && (3 * q + (r - 1)) % 3 == r - 1;
  }

  /** Put one more letter in place. */
  method Place(dst: array<byte>, next: nat, j: nat, offset: nat, ghost content: seq<byte>, ghost p: nat, ghost i: nat)
    returns (j': nat, offset': nat)
    requires Placed(dst[..], content, p, i, offset) && j == Complete(i) < dst.Length
    requires next == Six(content, p + i)
    modifies dst
    ensures j' == Complete(i + 1) <= dst.Length
    ensures j' < dst.Length ==> Placed(dst[..], content, p, i + 1, offset')
    ensures forall m :: 0 <= m < j' ==> dst[m] == ByteAt(content, p, m)
  {
    hide Six, ByteAt, Complete;
    NextComplete(i);
    if i % 4 > 0 { ByteCompleted(content, p, i); }
    assert (i + 1) % 4 == (if i % 4 == 3 then 0 else i % 4 + 1);
    j', offset' := j, offset;
    if offset == 0 {
      dst[j'] := next * 4;
      offset' := 2;
    } else if offset == 2 {
      dst[j'] := dst[j'] + next / 16;
      j' := j' + 1;
      if j' >= dst.Length { return; }
      dst[j'] := next % 16 * 16;
      offset' := 4;
    } else if offset == 4 {
      dst[j'] := dst[j'] + next / 4;
      j' := j' + 1;
      if j' >= dst.Length { return; }
      dst[j'] := next % 4 * 64;
      offset' := 6;
    } else {
      dst[j'] := dst[j'] + next;
      j' := j' + 1;
      if j' >= dst.Length { return; }
      offset' := 0;
    }
  }

  /** Letters are counted up to the first that is none. */
  lemma {:induction false} LettersSplit(content: seq<byte>, p: nat, n: nat, i: nat)
    requires i <= n && forall j :: p <= j < p + i ==> Value(At(content, j)) < PADDING_BYTE
    ensures Letters(content, p, n) == i + Letters(content, p + i, n - i)
    decreases i
  {
    if i > 0 { LettersSplit(content, p + 1, n - 1, i - 1); }
  }

  /** A buffer of len bytes is full just when the letters for it have been read. */
  lemma {:induction false} FullWhen(i: nat, len: nat)
    ensures i < Chars(len) <==> Complete(i) < len
    ensures i == Chars(len) ==> Complete(i) == len
  {
  }

  lemma {:induction false} NonePlaced(dst: seq<byte>, content: seq<byte>, p: nat)
    ensures Complete(0) == 0 && Placed(dst, content, p, 0, 0)
  {
  }

  /** What reading gives when it stops after i letters. */
  lemma {:induction false} DecodedAfter(content: seq<byte>, p: nat, len: nat, i: nat)
    requires i <= Chars(len) && forall j :: p <= j < p + i ==> Value(At(content, j)) < PADDING_BYTE
    requires i < Chars(len) ==> Value(At(content, p + i)) >= PADDING_BYTE
    ensures i < Chars(len) && Value(At(content, p + i)) > PADDING_BYTE ==>
      Decoded(content, p, len) == Reading(BytesOf(content, p, i, len), 0, Unread(content, p + i))
    ensures i < Chars(len) && Value(At(content, p + i)) == PADDING_BYTE ==>
      Decoded(content, p, len) == Padded(content, p, i + 1, BytesOf(content, p, i, len))
    ensures i == Chars(len) ==> Decoded(content, p, len) == Padded(content, p, i, BytesOf(content, p, i, len))
  {
    hide Value, BytesOf, Padded, Chars;
    LettersSplit(content, p, Chars(len), i);
  }

  /** The buffer after k letters and zeros. */
  lemma {:induction false} BytesAre(dst: seq<byte>, content: seq<byte>, p: nat, k: nat)
    requires k <= Chars(|dst|)
    requires forall m :: 0 <= m < Complete(k) && m < |dst| ==> dst[m] == ByteAt(content, p, m)
    requires forall m :: Complete(k) <= m < |dst| ==> dst[m] == 0
    ensures dst == BytesOf(content, p, k, |dst|)
  {
    var b := BytesOf(content, p, k, |dst|);
    forall m | 0 <= m < |dst| ensures dst[m] == b[m] {
      assert 8 * (m + 1) <= 6 * k <==> m < Complete(k);
    }
  }

  /** Read the bytes of a buffer from a file. */
  method Decode(file: File, dst: array<byte>) returns (count: nat)
    requires file.Valid()
    modifies file`pos, dst
    ensures file.Valid()
    ensures Reading(dst[..], count, file.pos) == Decoded(file.content, old(file.pos), dst.Length)
  {
    hide Placed, Six, ByteAt, Value, Letter, Letters, Pads, Decoded, BytesOf, Padded, Complete, Chars;
    ghost var p, content := file.pos, file.content;
    var i, j, offset := 0, 0, 0;
    NonePlaced(dst[..], content, p);
    while j < dst.Length
      invariant file.Valid() && i <= Chars(dst.Length) && j == Complete(i) <= dst.Length && file.pos == p + i
      invariant forall m :: p <= m < p + i ==> Value(At(content, m)) < PADDING_BYTE
      invariant j < dst.Length ==> Placed(dst[..], content, p, i, offset)
      invariant forall m :: 0 <= m < j ==> dst[m] == ByteAt(content, p, m)
      decreases Chars(dst.Length) - i
    {
      FullWhen(i, dst.Length);
      var cur := file.Fgetc();
      var next := Search(cur);
      if next >= PADDING_BYTE {
        ZeroFill(dst, j);
        forall m | 0 <= m < Complete(i) ensures dst[m] == ByteAt(content, p, m) { assert dst[m] == dst[..j][m]; }
        BytesAre(dst[..], content, p, i);
        DecodedAfter(content, p, dst.Length, i);
        if next > PADDING_BYTE {
          file.Ungetc(cur);
          return 0;
        }
        count := RemovePadding(file, i + 1, p, dst[..]);
        return;
      }
      SixIs(content, p + i);
      j, offset := Place(dst, next, j, offset, content, p, i);
      i := i + 1;
      FullWhen(i, dst.Length);
    }
    FullWhen(i, dst.Length);
    BytesAre(dst[..], content, p, i);
    DecodedAfter(content, p, dst.Length, i);
    count := RemovePadding(file, i, p, dst[..]);
  }

  /** Take the padding of the last block from the file. */
  method RemovePadding(file: File, i0: nat, ghost p: nat, ghost bytes: seq<byte>) returns (i: nat)
    requires file.Valid() && file.pos == p + i0
    modifies file`pos
    ensures file.Valid() && Reading(bytes, i, file.pos) == Padded(file.content, p, i0, bytes)
  {
    hide Letter, Room, Padded;
    i := i0;
    ghost var content, room := file.content, Room(i0);
    RoomEnds(i0, 0);
    while i * 6 % 24 != 0
      invariant i0 <= i <= i0 + room && file.Valid() && file.pos == p + i && (i == i0 + room <==> i * 6 % 24 == 0)
      invariant Pads(content, p + i0, room) == i - i0 + Pads(content, p + i, i0 + room - i)
      decreases i0 + room - i
    {
      var cur := file.Fgetc();
      if cur != Letter(PADDING_BYTE) {
        file.Ungetc(cur);
        PaddedAt(content, p, i0, bytes, i);
        return;
      }
      RoomEnds(i0, i + 1 - i0);
      i := i + 1;
    }
    PaddedAt(content, p, i0, bytes, i);
  }

  lemma {:induction false} RoomEnds(i0: nat, n: nat)
    requires n <= Room(i0)
    ensures n == Room(i0) <==> (i0 + n) * 6 % 24 == 0
  {
  }

  lemma {:induction false} PaddedAt(content: seq<byte>, p: nat, i0: nat, bytes: seq<byte>, i: nat)
    requires i >= i0 && Pads(content, p + i0, Room(i0)) == i - i0
    ensures Padded(content, p, i0, bytes) == Reading(bytes, i, if i == i0 + Room(i0) then p + i else Unread(content, p + i))
  {
  }

  // ---------- the round trip ----------

  /** The text of src stands in the content at p. */
  ghost predicate Stands(content: seq<byte>, p: nat, text: seq<byte>) {
    p + |text| <= |content| && content[p..p + |text|] == text
  }

  lemma {:induction false} LetterSigned(v: nat)
    requires v <= PADDING_BYTE
    ensures Signed(Letter(v)) == Letter(v)
  {
  }

  /** The first k characters of the text stand in the content at p. */
  ghost predicate Begins(content: seq<byte>, p: nat, text: seq<byte>, k: nat) {
    k <= |text| && p + k <= |content| && content[p..p + k] == text[..k]
  }

  lemma {:induction false} LettersOfText(content: seq<byte>, p: nat, src: seq<byte>, k: nat, j: nat)
    requires Begins(content, p, Encoded(src), k) && j < k <= Chars(|src|)
    ensures Value(At(content, p + j)) == Six(content, p + j) == Sextet(src, j)
  {
    hide Sextet, Value, Letter, Chars, Room;
    assert content[p + j] == content[p..p + k][j] == Encoded(src)[j] == Letter(Sextet(src, j));
    LetterSigned(Sextet(src, j));
    ValueOfLetter(Sextet(src, j));
  }

  lemma {:induction false} PadsOfText(content: seq<byte>, p: nat, n: nat)
    requires Stands(content, p, Padding(n))
    ensures Pads(content, p, n) == n
    decreases n
  {
    if n > 0 {
      assert content[p] == content[p..p + n][0] && Padding(n)[1..] == Padding(n - 1);
      assert content[p + 1..p + n] == content[p..p + n][1..];
      PadsOfText(content, p + 1, n - 1);
    }
  }

  lemma {:induction false} ByteOfText(content: seq<byte>, p: nat, src: seq<byte>, k: nat, m: nat)
    requires Begins(content, p, Encoded(src), k) && k <= Chars(|src|) && m < |src| && 8 * (m + 1) <= 6 * k
    ensures ByteAt(content, p, m) == src[m]
  {
    hide Six, Sextet, Begins, ByteOr0, Encoded, ByteAt, Chars;
    var q, r := m / 3, m % 3;
    SixOfText(content, p, src, k, q, r, m);
    SixOfText(content, p, src, k, q, r + 1, m);
    ByteOfSix(content, p, src, m);
    ByteIs(src, m);
  }

  lemma {:induction false} ByteOfSix(content: seq<byte>, p: nat, src: seq<byte>, m: nat)
    requires var q, r := m / 3, m % 3;
      && Six(content, p + 4 * q + r) == Sextet(src, 4 * q + r)
      && Six(content, p + 4 * q + (r + 1)) == Sextet(src, 4 * q + (r + 1))
    ensures ByteAt(content, p, m) == ByteOr0(src, m)
  {
    hide Six, Sextet, ByteOr0;
    var q, r := m / 3, m % 3;
    assert m == 3 * q + r;
    SextetFromBytes(src, q);
    BytesFromDigits(ByteOr0(src, 3 * q), ByteOr0(src, 3 * q + 1), ByteOr0(src, 3 * q + 2));
  }

  lemma {:induction false} ByteIs(src: seq<byte>, m: nat)
    requires m < |src|
    ensures ByteOr0(src, m) == src[m]
  {
  }

  lemma {:induction false} BytesFromDigits(a: nat, b: nat, c: nat)
    requires a < 256 && b < 256 && c < 256
    ensures a / 4 * 4 + (a % 4 * 16 + b / 16) / 16 == a
    ensures (a % 4 * 16 + b / 16) % 16 * 16 + (b % 16 * 4 + c / 64) / 4 == b
    ensures (b % 16 * 4 + c / 64) % 4 * 64 + c % 64 == c
  {
  }

  lemma {:induction false} SixOfText(content: seq<byte>, p: nat, src: seq<byte>, k: nat, q: nat, r: nat, m: nat)
    requires Begins(content, p, Encoded(src), k) && k <= Chars(|src|) && 8 * (m + 1) <= 6 * k
    requires q == m / 3 && r <= m % 3 + 1
    ensures Six(content, p + 4 * q + r) == Sextet(src, 4 * q + r)
  {
    hide Begins, Encoded;
    assert m == 3 * q + m % 3 && 4 * q + r < k;
    LettersOfText(content, p, src, k, 4 * q + r);
    assert p + (4 * q + r) == p + 4 * q + r;
  }

  /** Wherever the text of some bytes stands in a file, reading as many bytes there gives them
      back, consumes exactly the text, padding included, and returns the count that writing returned. */
  lemma {:induction false} DecodedEncoded(content: seq<byte>, p: nat, src: seq<byte>)
    requires Stands(content, p, Encoded(src))
    ensures Decoded(content, p, |src|) == Reading(src, |Encoded(src)|, p + |Encoded(src)|)
  {
    hide Value, Letter, BytesOf, Sextet, Decoded, Six, ByteAt;
    var n := Chars(|src|);
    assert Begins(content, p, Encoded(src), n) by {
      assert content[p..p + n] == content[p..p + |Encoded(src)|][..n];
    }
    LettersStand(content, p, src, n);
    DecodedAfter(content, p, |src|, n);
    TextIsBytes(content, p, src, n);
    FullWhen(n, |src|);
    assert content[p + n..p + n + Room(n)] == content[p..p + |Encoded(src)|][n..] == Padding(Room(n));
    PadsOfText(content, p + n, Room(n));
  }

  lemma {:induction false} LettersStand(content: seq<byte>, p: nat, src: seq<byte>, k: nat)
    requires Begins(content, p, Encoded(src), k) && k <= Chars(|src|)
    ensures forall j :: p <= j < p + k ==> Value(At(content, j)) < PADDING_BYTE
  {
    hide Begins, Encoded, Value, At, Six;
    forall j | p <= j < p + k ensures Value(At(content, j)) < PADDING_BYTE {
      LettersOfText(content, p, src, k, j - p);
      assert p + (j - p) == j;
    }
  }

  /** Characters of the text give the bytes that they complete, and zeros. */
  lemma {:induction false} TextIsBytes(content: seq<byte>, p: nat, src: seq<byte>, k: nat)
    requires Begins(content, p, Encoded(src), k) && k <= Chars(|src|)
    ensures Complete(k) <= |src|
    ensures BytesOf(content, p, k, |src|) == src[..Complete(k)] + seq<byte>(|src| - Complete(k), _ => 0)
  {
    hide Begins, ByteAt, Encoded;
    var b := BytesOf(content, p, k, |src|);
    forall m | 0 <= m < |src| ensures b[m] == if m < Complete(k) then src[m] else 0 {
      if 8 * (m + 1) <= 6 * k { ByteOfText(content, p, src, k, m); }
    }
  }

  /** A character that does not belong to the text ends a reading: the bytes that are complete
      are there, and zeros. A strange character is not taken, but byte 255 is. */
  lemma {:induction false} BrokenText(content: seq<byte>, p: nat, src: seq<byte>, k: nat)
    requires Begins(content, p, Encoded(src), k) && k < Chars(|src|)
    requires p + k == |content| || content[p + k] as char !in ALPHABET
    ensures Complete(k) < |src|
    ensures Decoded(content, p, |src|).bytes == src[..Complete(k)] + seq<byte>(|src| - Complete(k), _ => 0)
    ensures p + k < |content| && content[p + k] as char == '=' ==> (
      var r := Decoded(content, p, |src|);
      && k < r.count && p + r.count <= |content| && (forall j :: p + k <= j < p + r.count ==> content[j] as char == '=')
      && (if r.count % 4 == 0 then r.next == p + r.count else p + r.count == |content| || content[p + r.count] as char != '='))
    ensures p + k == |content| || content[p + k] as char != '=' ==> (
      var r := Decoded(content, p, |src|);
      r.count == 0 && r.next == if p + k < |content| && content[p + k] == 255 then p + k + 1 else p + k)
  {
    hide Begins, Encoded, Letter, ALPHABET, BytesOf, Value;
    LettersStand(content, p, src, k);
    NoLetter(content, p + k);
    DecodedAfter(content, p, |src|, k);
    TextIsBytes(content, p, src, k);
    FullWhen(k, |src|);
    if p + k < |content| && content[p + k] as char == '=' {
      PaddedMeans(content, p, k + 1, BytesOf(content, p, k, |src|));
    }
  }

  /** The padding that is taken, and what stands behind it if the block is not complete. */
  lemma {:induction false} PaddedMeans(content: seq<byte>, p: nat, i: nat, bytes: seq<byte>)
    requires p + i <= |content|
    ensures var r := Padded(content, p, i, bytes);
      && r.bytes == bytes && i <= r.count && p + r.count <= |content|
      && (forall j :: p + i <= j < p + r.count ==> content[j] as char == '=')
      && (if r.count % 4 == 0 then r.next == p + r.count else p + r.count == |content| || content[p + r.count] as char != '=')
  {
    hide Letter;
    LetterInAlphabet(PADDING_BYTE);
    var pads := Pads(content, p + i, Room(i));
    assert (i + pads) % 4 == 0 <==> pads == Room(i);
    forall j | p + i <= j < p + i + pads ensures content[j] as char == '=' { assert At(content, j) == Letter(PADDING_BYTE); }
  }

  /** No character of the alphabet is found: it is padding, or is not in the table. */
  lemma {:induction false} NoLetter(content: seq<byte>, q: nat)
    requires q >= |content| || content[q] as char !in ALPHABET
    ensures Value(At(content, q)) >= PADDING_BYTE
    ensures Value(At(content, q)) == PADDING_BYTE <==> q < |content| && content[q] as char == '='
  {
    hide ALPHABET, Letter, Value;
    FoundInTable(content, q);
    LetterInAlphabet(PADDING_BYTE);
    ValueOfLetter(PADDING_BYTE);
  }

  /** What is found is in the file, and is the character of this number. */
  lemma {:induction false} FoundInTable(content: seq<byte>, q: nat)
    ensures Value(At(content, q)) < PADDING_BYTE ==> q < |content| && content[q] as char in ALPHABET
    ensures Value(At(content, q)) == PADDING_BYTE ==> q < |content| && content[q] as char == '='
  {
    hide ALPHABET, Letter;
    var v := Value(At(content, q));
    if v <= PADDING_BYTE {
      LetterInAlphabet(v);
      LetterSigned(v);
      assert v < 64 ==> ALPHABET[v] in ALPHABET;
    }
  }

  // ---------- data types ----------

  function EncodedType(kind: nat): seq<byte> { Padding(kind / 64) + [Letter(kind % 64)] }

  /** Write the number of a data type. The value returned is the sum of the characters written,
      because each write returns its character. */
  method EncodeDataType(file: File, kind: nat) returns (i: int)
    modifies file`content
    ensures file.content == old(file.content) + EncodedType(kind)
    ensures i == kind / 64 * Letter(PADDING_BYTE) + Letter(kind % 64)
  {
    i := 0;
    var rest := kind;
    ghost var n := 0;
    while rest >= 64
      invariant rest == kind - 64 * n && n <= kind / 64 && i == n * Letter(PADDING_BYTE)
      invariant file.content == old(file.content) + Padding(n)
    {
      var written := file.Fputc(Letter(PADDING_BYTE));
      assert Padding(n + 1) == Padding(n) + [Letter(PADDING_BYTE)];
      i, rest, n := i + written, rest - 64, n + 1;
    }
    var written := file.Fputc(Letter(rest));
    i := i + written;
    assert rest == kind % 64 && n == kind / 64;
    assert old(file.content) + Padding(n) + [Letter(rest)] == old(file.content) + EncodedType(kind);
  }

  datatype TypeReading = TypeReading(kind: nat, count: nat, next: nat)

  /** All padding characters that stand at a position. */
  function AllPads(content: seq<byte>, p: nat): nat
    decreases |content| - p
  {
    if p >= |content| || At(content, p) != Letter(PADDING_BYTE) then 0 else 1 + AllPads(content, p + 1)
  }

  /** Reading the number of a data type at a position, whatever the file has there. */
  function DecodedType(content: seq<byte>, p: nat): TypeReading {
    var n := AllPads(content, p);
    var v := Value(At(content, p + n));
    if v < PADDING_BYTE then TypeReading(64 * n + v, n + 1, p + n + 1)
    else TypeReading(64 * n + PADDING_BYTE, 0, Unread(content, p + n))
  }

  method DecodeDataType(file: File) returns (i: nat, kind: nat)
    requires file.Valid()
    modifies file`pos
    ensures file.Valid() && TypeReading(kind, i, file.pos) == DecodedType(file.content, old(file.pos))
  {
    ghost var p, content := file.pos, file.content;
    i, kind := 0, 0;
    var next := file.Fgetc();
    while next == Letter(PADDING_BYTE)
      invariant kind == 64 * i && file.Valid() && next == At(content, p + i) && p + i <= |content|
      invariant file.pos == if p + i < |content| then p + i + 1 else p + i
      invariant AllPads(content, p) == i + AllPads(content, p + i)
      decreases |content| - i
    {
      kind, i := kind + 64, i + 1;
      next := file.Fgetc();
    }
    i := i + 1;
    var j := SearchLetters(next);
    kind := kind + j;
    if j == PADDING_BYTE {
      file.Ungetc(next);
      return 0, kind;
    }
  }

  /** The search through the table, without the padding character. */
  method SearchLetters(cur: int) returns (j: nat)
    requires cur != Letter(PADDING_BYTE)
    ensures j == (if Value(cur) < PADDING_BYTE then Value(cur) else PADDING_BYTE)
  {
    j := 0;
    while j < PADDING_BYTE
      invariant j <= PADDING_BYTE && forall w :: 0 <= w < j ==> Letter(w) as int != cur
    {
      if Letter(j) as int == cur {
        ValueOfLetter(j);
        break;
      }
      j := j + 1;
    }
  }

  lemma {:induction false} AllPadsOfText(content: seq<byte>, p: nat, n: nat)
    requires Stands(content, p, Padding(n))
    ensures AllPads(content, p) == n + AllPads(content, p + n)
    decreases n
  {
    if n > 0 {
      assert content[p] == content[p..p + n][0] && Padding(n)[1..] == Padding(n - 1);
      assert content[p + 1..p + n] == content[p..p + n][1..];
      AllPadsOfText(content, p + 1, n - 1);
    }
  }

  /** A pad for each 64 of the number, and the letter of the rest. */
  lemma {:induction false} TypeText(kind: nat)
    ensures |ALPHABET| == 64 && |EncodedType(kind)| == kind / 64 + 1
    ensures forall i :: 0 <= i < kind / 64 ==> AsText(EncodedType(kind))[i] == '='
    ensures AsText(EncodedType(kind))[kind / 64] == ALPHABET[kind % 64]
  {
    hide Letter, ALPHABET;
    LetterInAlphabet(PADDING_BYTE);
    LetterInAlphabet(kind % 64);
  }

  /** What a type is read as: 64 for each pad, and the place of the letter, which is 64 for no letter. */
  lemma {:induction false} TypeRead(content: seq<byte>, p: nat, n: nat, v: nat)
    requires p + n <= |content| && forall j :: p <= j < p + n ==> content[j] as char == '='
    requires v <= 64 && |ALPHABET| == 64
    requires v < 64 ==> p + n < |content| && content[p + n] as char == ALPHABET[v]
    requires v == 64 && p + n < |content| ==> content[p + n] as char !in ALPHABET + "="
    ensures DecodedType(content, p).kind == 64 * n + v
    ensures DecodedType(content, p).count == if v < 64 then n + 1 else 0
    ensures v < 64 ==> DecodedType(content, p).next == p + n + 1
    ensures v == 64 ==> DecodedType(content, p).next == Unread(content, p + n)
  {
    hide Letter, ALPHABET, Value;
    LetterInAlphabet(PADDING_BYTE);
    LetterInAlphabet(v);
    PadsCounted(content, p, n);
    LetterSigned(v);
    ValueOfLetter(v);
    FoundInTable(content, p + n);
  }

  lemma {:induction false} PadsCounted(content: seq<byte>, p: nat, n: nat)
    requires p + n <= |content| && forall j :: p <= j < p + n ==> content[j] as char == '='
    requires p + n < |content| ==> content[p + n] as char != '='
    ensures AllPads(content, p) == n
    decreases n
  {
    hide Letter;
    LetterInAlphabet(PADDING_BYTE);
    LetterSigned(PADDING_BYTE);
    if n > 0 { PadsCounted(content, p + 1, n - 1); }
  }

  lemma {:induction false} DecodedEncodedType(content: seq<byte>, p: nat, kind: nat)
    requires Stands(content, p, EncodedType(kind))
    ensures DecodedType(content, p) == TypeReading(kind, |EncodedType(kind)|, p + |EncodedType(kind)|)
  {
    var n := kind / 64;
    assert content[p..p + n] == content[p..p + n + 1][..n] == Padding(n);
    AllPadsOfText(content, p, n);
    assert content[p + n] == content[p..p + n + 1][n] == Letter(kind % 64);
    ValueOfLetter(kind % 64);
  }

  // ---------- a whole file ----------

  datatype Item = Kind(kind: nat) | Data(bytes: seq<byte>)

  function TextOf(item: Item): seq<byte> {
    match item
    case Kind(kind) => EncodedType(kind)
    case Data(bytes) => Encoded(bytes)
  }

  function TextOfAll(items: seq<Item>): seq<byte> {
    if items == [] then [] else TextOf(items[0]) + TextOfAll(items[1..])
  }

  /** Read a series of items: the reader knows, from what it read before, of which form each is. */
  function ReadAll(content: seq<byte>, p: nat, forms: seq<Item>): seq<Item>
    decreases |forms|
  {
    if forms == [] then []
    else match forms[0]
      case Kind(_) =>
        var r := DecodedType(content, p);
        [Kind(r.kind)] + ReadAll(content, r.next, forms[1..])
      case Data(bytes) =>
        var r := Decoded(content, p, |bytes|);
        [Data(r.bytes)] + ReadAll(content, r.next, forms[1..])
  }

  /** Two items ask for the same reading: a type, or equally many bytes. */
  predicate SameForm(a: Item, b: Item) { a.Kind? == b.Kind? && (a.Data? ==> |a.bytes| == |b.bytes|) }

  lemma {:induction false} StandsInTurn(content: seq<byte>, p: nat, text: seq<byte>, rest: seq<byte>)
    requires Stands(content, p, text + rest)
    ensures Stands(content, p, text) && Stands(content, p + |text|, rest)
  {
    assert content[p..p + |text|] == content[p..p + |text + rest|][..|text|];
    assert content[p + |text|..p + |text| + |rest|] == content[p..p + |text + rest|][|text|..];
  }

  /** Any series of types and data written to one file is read back in order. */
  lemma {:induction false} FileReadsBack(content: seq<byte>, p: nat, items: seq<Item>, forms: seq<Item>)
    requires Stands(content, p, TextOfAll(items)) && |forms| == |items|
    requires forall i :: 0 <= i < |items| ==> SameForm(items[i], forms[i])
    ensures ReadAll(content, p, forms) == items
    decreases |items|
  {
    hide Decoded, DecodedType, EncodedType, Encoded, Stands;
    if items != [] {
      var text, rest := TextOf(items[0]), TextOfAll(items[1..]);
      StandsInTurn(content, p, text, rest);
      assert SameForm(items[0], forms[0]);
      match items[0] {
        case Kind(kind) => DecodedEncodedType(content, p, kind);
        case Data(bytes) => DecodedEncoded(content, p, bytes);
      }
      FileReadsBack(content, p + |text|, items[1..], forms[1..]);
    }
  }
}
