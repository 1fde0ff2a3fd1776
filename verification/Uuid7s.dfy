/** Version 7 UUIDs (section 5.7 of RFC 9562): six bytes of time, ten random ones,
    version and variant stamped over them in place. */
module Uuid7s {

  type Byte = n: int | 0 <= n < 256

  /** The version over the high half of a byte: `(b & 0x0F) | (0x7 << 4)`. */
  function WithVersion(b: Byte): Byte { 0x70 + b % 16 }

  /** The variant over its two high bits: `(b & 0x3F) | (0b10 << 6)`. */
  function WithVariant(b: Byte): Byte { 0x80 + b % 64 }

  /** The masks and shifts of the source do to a byte of bits what the arithmetic
      does to its value. */
  lemma VersionMask(b: bv8)
    ensures ((b & 0x0F) | 0x70) as int == WithVersion(b as int)
  {
  }

  lemma VariantMask(b: bv8)
    ensures ((b & 0x3F) | 0x80) as int == WithVariant(b as int)
  {
  }

  /** The last `n` bytes of a number, most significant first. */
  function BigEndian(t: nat, n: nat): (b: seq<Byte>)
    ensures |b| == n
  {
    if n == 0 then [] else BigEndian(t / 256, n - 1) + [t % 256]
  }

  function Number(b: seq<Byte>): nat {
    if b == [] then 0 else Number(b[..|b| - 1]) * 256 + b[|b| - 1]
  }

  function Stamp(raw: seq<Byte>): (s: seq<Byte>)
    requires |raw| == 16
    ensures |s| == 16
  {
    raw[6 := WithVersion(raw[6])][8 := WithVariant(raw[8])]
  }

  /** The UUID of a time in milliseconds and ten random bytes. */
  function Uuid7(time: nat, random: seq<Byte>): (u: seq<Byte>)
    requires |random| == 10
    ensures |u| == 16
  {
    Stamp(BigEndian(time, 6) + random)
  }

  /** The stamping, in place. */
  method StampInPlace(raw: array<Byte>)
    requires raw.Length == 16
    modifies raw
    ensures raw[..] == Stamp(old(raw[..]))
  {
    raw[6] := WithVersion(raw[6]);
    raw[8] := WithVariant(raw[8]);
  }

  const TIMES := 0x1_0000_0000_0000

  function Power256(n: nat): nat {
    if n == 0 then 1 else 256 * Power256(n - 1)
  }

  lemma {:induction false} NumberBack(t: nat, n: nat)
    requires t < Power256(n)
    ensures Number(BigEndian(t, n)) == t
    decreases n
  {
    if n > 0 {
      NumberBack(t / 256, n - 1);
      var b := BigEndian(t, n);
      assert b[..n - 1] == BigEndian(t / 256, n - 1) && b[n - 1] == t % 256;
    }
  }

  /** Version nibble 7, variant bits 10, the time recoverable, and the other 74
      random bits as they came. */
  lemma Layout(time: nat, random: seq<Byte>)
    requires |random| == 10 && time < TIMES
    ensures var u := Uuid7(time, random);
            && u[6] / 16 == 0x7 && u[8] / 64 == 0x2
            && Number(u[..6]) == time
            && u[6] % 16 == random[0] % 16 && u[8] % 64 == random[2] % 64
            && u[7] == random[1] && u[9..] == random[3..]
  {
    assert Power256(6) == TIMES;
    NumberBack(time, 6);
    assert Uuid7(time, random)[..6] == BigEndian(time, 6);
  }

  // ------------------------------------------------------------------- order

  ghost predicate Before(a: seq<Byte>, b: seq<Byte>) {
    exists k :: 0 <= k < |a| && k < |b| && a[..k] == b[..k] && a[k] < b[k]
  }

  ghost predicate TextBefore(a: string, b: string) {
    exists k :: 0 <= k < |a| && k < |b| && a[..k] == b[..k] && a[k] < b[k]
  }

  /** The first byte in which two times differ. */
  lemma {:induction false} TimesInOrder(s: nat, t: nat, n: nat) returns (k: nat)
    requires s < t < Power256(n)
    ensures k < n && BigEndian(s, n)[..k] == BigEndian(t, n)[..k] && BigEndian(s, n)[k] < BigEndian(t, n)[k]
    decreases n
  {
    var a, b := BigEndian(s, n), BigEndian(t, n);
    assert a[..n - 1] == BigEndian(s / 256, n - 1) && b[..n - 1] == BigEndian(t / 256, n - 1);
    if s / 256 < t / 256 {
      k := TimesInOrder(s / 256, t / 256, n - 1);
      assert a[..k] == a[..n - 1][..k] && b[..k] == b[..n - 1][..k];
    } else {
      k := n - 1;
    }
  }

  /** A UUID minted in an earlier millisecond is smaller, byte by byte. */
  lemma EarlierIsSmaller(s: nat, t: nat, x: seq<Byte>, y: seq<Byte>) returns (k: nat)
    requires |x| == |y| == 10 && s < t < TIMES
    ensures k < 6 && Uuid7(s, x)[..k] == Uuid7(t, y)[..k] && Uuid7(s, x)[k] < Uuid7(t, y)[k]
    ensures Before(Uuid7(s, x), Uuid7(t, y))
  {
    assert Power256(6) == TIMES;
    k := TimesInOrder(s, t, 6);
    var u, v := Uuid7(s, x), Uuid7(t, y);
    assert u[..6] == BigEndian(s, 6) && v[..6] == BigEndian(t, 6);
    assert u[..k] == u[..6][..k] && v[..k] == v[..6][..k];
  }

  function Digit(n: nat): char
    requires n < 16
  {
    if n < 10 then '0' + n as char else 'a' + (n - 10) as char
  }

  function Hex(b: Byte): (s: string)
    ensures |s| == 2
  {
    [Digit(b / 16), Digit(b % 16)]
  }

  /** The text of byte `i`: hyphens stand before bytes 4, 6, 8 and 10. */
  function Piece(i: nat, b: Byte): string {
    if i == 4 || i == 6 || i == 8 || i == 10 then ['-', Digit(b / 16), Digit(b % 16)] else Hex(b)
  }

  /** The text of a UUID from byte `i` on, in lower-case digits. */
  function Text(u: seq<Byte>, i: nat): string
    requires |u| == 16 && i <= 16
    decreases 16 - i
  {
    if i == 16 then "" else Piece(i, u[i]) + Text(u, i + 1)
  }

  /** Where the digits of byte `i` stand. */
  function Place(i: nat): nat {
    2 * i + if i < 4 then 0 else if i < 6 then 1 else if i < 8 then 2 else if i < 10 then 3 else 4
  }

  /** A lower-case digit's value. */
  function ValueOf(c: char): int {
    if '0' <= c <= '9' then c as int - '0' as int else if 'a' <= c <= 'f' then c as int - 'a' as int + 10 else -1
  }

  lemma HexBack(b: Byte)
    ensures 0 <= ValueOf(Hex(b)[0]) && 0 <= ValueOf(Hex(b)[1])
    ensures ValueOf(Hex(b)[0]) * 16 + ValueOf(Hex(b)[1]) == b
  {
  }

  /** Where the piece of byte `i` starts: at its digits, or at the hyphen before. */
  function PieceStart(i: nat): nat {
    Place(i) - if i == 4 || i == 6 || i == 8 || i == 10 then 1 else 0
  }

  lemma Behind(p: string, rest: string, at: nat)
    requires at <= |rest|
    ensures (p + rest)[|p| + at..] == rest[at..] && (p + rest)[0..][..|p|] == p
  {
  }

  lemma PieceSize(i: nat, b: Byte)
    requires i < 16
    ensures |Piece(i, b)| == if i == 15 then 2 else PieceStart(i + 1) - PieceStart(i)
    ensures PieceStart(i) + |Piece(i, b)| <= 36
  {
    hide Digit;
  }

  lemma TextUnfolds(u: seq<Byte>, i: nat)
    requires |u| == 16 && i < 16
    ensures Text(u, i) == Piece(i, u[i]) + Text(u, i + 1) && Text(u, 16) == ""
  {
    hide Piece;
  }

  lemma {:induction false} TextSize(u: seq<Byte>, i: nat)
    requires |u| == 16 && i < 16
    ensures |Text(u, i)| == 36 - PieceStart(i)
    decreases 16 - i
  {
    TextUnfolds(u, i);
    PieceSize(i, u[i]);
    if i < 15 { TextSize(u, i + 1); } else { TextUnfolds(u, 15); }
    hide Text, Piece;
  }

  lemma {:induction false} TextFrom(u: seq<Byte>, i: nat, j: nat)
    requires |u| == 16 && i <= j < 16
    ensures |Text(u, i)| == 36 - PieceStart(i)
    ensures PieceStart(j) >= PieceStart(i) && PieceStart(j) - PieceStart(i) + |Piece(j, u[j])| <= |Text(u, i)|
    ensures Text(u, i)[PieceStart(j) - PieceStart(i)..][..|Piece(j, u[j])|] == Piece(j, u[j])
    decreases 16 - i
  {
    TextSize(u, i);
    TextUnfolds(u, i);
    PieceSize(i, u[i]);
    PieceSize(j, u[j]);
    if j > i { TextFrom(u, i + 1, j); }
    hide Text, Piece, Place;
    Behind(Piece(i, u[i]), Text(u, i + 1), if j > i then PieceStart(j) - PieceStart(i + 1) else 0);
  }

  /** The text has 36 characters: lower-case digits that give every byte back, and
      hyphens at 8, 13, 18 and 23. */
  lemma TextGivesBytes(u: seq<Byte>, j: nat)
    requires |u| == 16 && j < 16
    ensures var t := Text(u, 0);
            && |t| == 36 && t[8] == t[13] == t[18] == t[23] == '-'
            && ValueOf(t[Place(j)]) * 16 + ValueOf(t[Place(j) + 1]) == u[j]
            && ValueOf(t[Place(j)]) >= 0 && ValueOf(t[Place(j) + 1]) >= 0
  {
    hide Text, Hex, Digit, ValueOf;
    HexBack(u[j]);
    PieceOf(u, j);
    PieceOf(u, 4);
    PieceOf(u, 6);
    PieceOf(u, 8);
    PieceOf(u, 10);
  }

  lemma Letters(t: string, at: nat, p: string)
    requires at + |p| <= |t| && t[at..][..|p|] == p
    ensures forall i :: 0 <= i < |p| ==> t[at + i] == p[i]
  {
    assert forall i :: 0 <= i < |p| ==> t[at..][..|p|][i] == t[at + i];
  }

  lemma PieceOf(u: seq<Byte>, j: nat)
    requires |u| == 16 && j < 16
    ensures var t := Text(u, 0);
            && |t| == 36
            && t[Place(j)] == Hex(u[j])[0] && t[Place(j) + 1] == Hex(u[j])[1]
            && (j == 4 || j == 6 || j == 8 || j == 10 ==> t[Place(j) - 1] == '-')
  {
    hide Text, Digit;
    TextFrom(u, 0, j);
    var t, p := Text(u, 0), Piece(j, u[j]);
    var at := PieceStart(j);
    Letters(t, at, p);
    hide Text, Hex, ValueOf;
  }

  lemma DigitsInOrder(m: nat, n: nat)
    requires m < n < 16
    ensures Digit(m) < Digit(n)
  {
  }

  lemma HexInOrder(a: Byte, b: Byte)
    requires a < b
    ensures Hex(a)[0] < Hex(b)[0] || (Hex(a)[0] == Hex(b)[0] && Hex(a)[1] < Hex(b)[1])
  {
    hide Digit;
    if a / 16 < b / 16 { DigitsInOrder(a / 16, b / 16); } else { DigitsInOrder(a % 16, b % 16); }
  }

  lemma Prefixed(p: string, a: string, b: string)
    requires TextBefore(a, b)
    ensures TextBefore(p + a, p + b)
  {
    var k :| 0 <= k < |a| && k < |b| && a[..k] == b[..k] && a[k] < b[k];
    assert (p + a)[..|p| + k] == p + a[..k] && (p + b)[..|p| + k] == p + b[..k];
    assert (p + a)[|p| + k] == a[k] && (p + b)[|p| + k] == b[k];
  }

  lemma PieceFirst(i: nat, a: Byte, b: Byte, x: string, y: string)
    requires a < b
    ensures TextBefore(Piece(i, a) + x, Piece(i, b) + y)
  {
    HexInOrder(a, b);
    hide Digit;
    var s, t := Piece(i, a) + x, Piece(i, b) + y;
    var at := if i == 4 || i == 6 || i == 8 || i == 10 then 1 else 0;
    var k := if Hex(a)[0] < Hex(b)[0] then at else at + 1;
    assert s[..k] == t[..k] && s[k] < t[k];
  }

  lemma {:induction false} TextInOrder(u: seq<Byte>, v: seq<Byte>, k: nat, i: nat)
    requires |u| == |v| == 16 && i <= k < 16 && u[..k] == v[..k] && u[k] < v[k]
    ensures TextBefore(Text(u, i), Text(v, i))
    decreases k - i
  {
    hide Piece, TextBefore;
    if i == k {
      PieceFirst(i, u[k], v[k], Text(u, k + 1), Text(v, k + 1));
    } else {
      assert u[i] == u[..k][i] && v[i] == v[..k][i];
      TextInOrder(u, v, k, i + 1);
      Prefixed(Piece(i, u[i]), Text(u, i + 1), Text(v, i + 1));
    }
  }

  /** And smaller as lower-case hyphenated text. */
  lemma EarlierReadsSmaller(s: nat, t: nat, x: seq<Byte>, y: seq<Byte>)
    requires |x| == |y| == 10 && s < t < TIMES
    ensures TextBefore(Text(Uuid7(s, x), 0), Text(Uuid7(t, y), 0))
  {
    var k := EarlierIsSmaller(s, t, x, y);
    TextInOrder(Uuid7(s, x), Uuid7(t, y), k, 0);
  }
}
