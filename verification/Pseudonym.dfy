/** PII pseudonyms: FNV-1a 64 truncated to 48 bits and printed as twelve hexadecimal digits. */
module Pseudonym {

  type Byte = x: int | 0 <= x < 256

  const OFFSET: nat := 14695981039346656037
  const PRIME: nat := 1099511628211
  const TWO_64: nat := 0x1_0000_0000_0000_0000
  const TWO_48: nat := 0x1_0000_0000_0000

  // ---- Exclusive or on naturals -------------------------------------------------------

  function Xor(a: nat, b: nat): nat
    decreases a + b
  {
    if a == 0 && b == 0 then 0
    else (a % 2 + b % 2) % 2 + 2 * Xor(a / 2, b / 2)
  }

  function Pow2(k: nat): (m: nat)
    ensures m > 0
  {
    if k == 0 then 1 else 2 * Pow2(k - 1)
  }

  lemma {:induction false} Pow2Sum(j: nat, k: nat)
    ensures Pow2(j + k) == Pow2(j) * Pow2(k)
  {
    if j > 0 {
      Pow2Sum(j - 1, k);
    }
  }

  lemma Pow2Of48()
    ensures Pow2(48) == TWO_48
  {
    assert Pow2(4) == 16;
    Pow2Sum(4, 4);
    Pow2Sum(8, 8);
    Pow2Sum(16, 16);
    Pow2Sum(16, 32);
  }

  /** The defining equation of Xor, which also holds at zero. */
  lemma {:induction false} XorUnfold(a: nat, b: nat)
    ensures Xor(a, b) == (a % 2 + b % 2) % 2 + 2 * Xor(a / 2, b / 2)
  {
  }

  /** Xor with the same operand again gives back the other one. */
  lemma {:induction false} XorCancels(a: nat, b: nat)
    ensures Xor(Xor(a, b), b) == a
    decreases a + b
  {
    if a != 0 || b != 0 {
      XorCancels(a / 2, b / 2);
      XorUnfold(a, b);
      CancelBit(a, b, Xor(a / 2, b / 2), Xor(a, b));
    }
  }

  lemma {:induction false} CancelBit(a: nat, b: nat, x: nat, y: nat)
    requires y == (a % 2 + b % 2) % 2 + 2 * x && Xor(x, b / 2) == a / 2
    ensures Xor(y, b) == a
  {
    assert y / 2 == x && y % 2 == (a % 2 + b % 2) % 2;
    XorUnfold(y, b);
  }

  lemma {:induction false} XorCommutes(a: nat, b: nat)
    ensures Xor(a, b) == Xor(b, a)
    decreases a + b
  {
    if a != 0 || b != 0 {
      XorCommutes(a / 2, b / 2);
    }
  }

  /** The quotient and the remainder are determined by a == m * q + r. */
  lemma DivisionIsUnique(a: int, m: int, q: int, r: int)
    requires m > 0 && a == m * q + r && 0 <= r < m
    ensures a / m == q && a % m == r
  {
    var d := q - a / m;
    assert m * d == m * q - m * (a / m);
    OnlyZeroFits(m, d);
  }

  lemma OnlyZeroFits(m: int, d: int)
    requires m > 0 && -m < m * d < m
    ensures d == 0
  {
  }

  lemma BitOfRemainder(a: nat, m: nat)
    requires m > 0
    ensures a % (2 * m) == a % 2 + 2 * (a / 2 % m)
  {
    var half := a / 2;
    assert half == m * (half / m) + half % m;
    assert 2 * (m * (half / m)) == (2 * m) * (half / m);
    DivisionIsUnique(a, 2 * m, half / m, a % 2 + 2 * (half % m));
  }

  /** Xor works bit by bit, so it commutes with taking the low k bits. */
  lemma {:induction false} XorOfRemainders(a: nat, b: nat, k: nat)
    ensures Xor(a, b) % Pow2(k) == Xor(a % Pow2(k), b % Pow2(k))
    decreases k
  {
    if k > 0 {
      XorOfRemainders(a / 2, b / 2, k - 1);
      OneMoreBit(a, b, Pow2(k - 1));
    }
  }

  lemma {:induction false} OneMoreBit(a: nat, b: nat, m: nat)
    requires m > 0 && Xor(a / 2, b / 2) % m == Xor(a / 2 % m, b / 2 % m)
    ensures Xor(a, b) % (2 * m) == Xor(a % (2 * m), b % (2 * m))
  {
    var a', b' := a % (2 * m), b % (2 * m);
    LowBits(a, m);
    LowBits(b, m);
    XorUnfold(a', b');
    XorUnfold(a, b);
    EvenPart((a % 2 + b % 2) % 2, Xor(a / 2, b / 2), m);
  }

  lemma EvenPart(bit: nat, x: nat, m: nat)
    requires bit < 2 && m > 0
    ensures (bit + 2 * x) % (2 * m) == bit + 2 * (x % m)
  {
    LowBits(bit + 2 * x, m);
  }

  lemma LowBits(a: nat, m: nat)
    requires m > 0
    ensures a % (2 * m) == a % 2 + 2 * (a / 2 % m)
    ensures a % (2 * m) % 2 == a % 2 && a % (2 * m) / 2 == a / 2 % m
  {
    BitOfRemainder(a, m);
  }

  lemma XorStaysBelow(a: nat, b: nat, k: nat)
    requires a < Pow2(k) && b < Pow2(k)
    ensures Xor(a, b) < Pow2(k)
  {
    XorOfRemainders(a, b, k);
    DivisionIsUnique(a, Pow2(k), 0, a);
    DivisionIsUnique(b, Pow2(k), 0, b);
  }

  // ---- The hash ----------------------------------------------------------------------------

  /** The loop of PII on uint64. */
  function Hash64(value: seq<Byte>): nat {
    if value == [] then OFFSET
    else Xor(Hash64(value[..|value| - 1]), value[|value| - 1]) * PRIME % TWO_64
  }

  /** The same loop on 48-bit states. */
  function Absorb(h: nat, b: Byte): (r: nat)
    ensures r < TWO_48
  {
    Xor(h, b) * PRIME % TWO_48
  }

  function Hash48(value: seq<Byte>): (r: nat)
    ensures r < TWO_48
  {
    if value == [] then OFFSET % TWO_48
    else Absorb(Hash48(value[..|value| - 1]), value[|value| - 1])
  }

  lemma MaskedProduct(x: nat)
    ensures (x * PRIME % TWO_64) % TWO_48 == (x % TWO_48) * PRIME % TWO_48
  {
    MaskTwice(x * PRIME);
    ProductOfRemainder(x, PRIME, TWO_48);
  }

  lemma MaskTwice(x: nat)
    ensures x % TWO_64 % TWO_48 == x % TWO_48
  {
  }

  lemma ProductOfRemainder(x: nat, p: nat, m: nat)
    requires m > 0
    ensures x % m * p % m == x * p % m
  {
    var q, r := x / m, x % m;
    assert x * p == m * (q * p) + r * p;
    DivisionIsUnique(x * p, m, q * p + r * p / m, r * p % m);
  }

  lemma MaskedStep(h: nat, b: Byte)
    ensures (Xor(h, b) * PRIME % TWO_64) % TWO_48 == Absorb(h % TWO_48, b)
  {
    MaskedProduct(Xor(h, b));
    Pow2Of48();
    XorOfRemainders(h, b, 48);
    DivisionIsUnique(b, TWO_48, 0, b);
  }

  /** Hashing modulo 2^64 and masking at the end equals hashing modulo 2^48 throughout. */
  lemma {:induction false} MaskingCommutes(value: seq<Byte>)
    ensures Hash64(value) % TWO_48 == Hash48(value)
  {
    if value != [] {
      var front, b := value[..|value| - 1], value[|value| - 1];
      MaskingCommutes(front);
      MaskedStep(Hash64(front), b);
    }
  }

  /** The inverse of the FNV prime modulo 2^48: PRIME * INVERSE == 1 + TWO_48 * WRAPS. */
  const INVERSE: nat := 88337544549755
  const WRAPS: nat := 345068533534

  /** Multiplication by the odd FNV prime is injective on 48-bit states. */
  lemma PrimeIsInvertible(x: nat, y: nat)
    requires x < TWO_48 && y < TWO_48 && x * PRIME % TWO_48 == y * PRIME % TWO_48
    ensures x == y
  {
    var d := x * PRIME / TWO_48 - y * PRIME / TWO_48;
    assert (x - y) * PRIME == TWO_48 * d;
    assert (x - y) * (PRIME * INVERSE) == TWO_48 * (d * INVERSE);
    assert x - y == TWO_48 * (d * INVERSE - (x - y) * WRAPS);
  }

  /** Each byte step is a bijection on 48-bit states, and tells all bytes apart from any one state. */
  lemma AbsorbIsInjective(g: nat, h: nat, a: Byte, b: Byte)
    requires g < TWO_48 && h < TWO_48 && Absorb(g, a) == Absorb(h, b)
    ensures a == b ==> g == h
    ensures g == h ==> a == b
  {
    Pow2Of48();
    XorStaysBelow(g, a, 48);
    XorStaysBelow(h, b, 48);
    PrimeIsInvertible(Xor(g, a), Xor(h, b));
    XorCancels(g, a);
    XorCancels(h, b);
    XorCommutes(g, a);
    XorCommutes(h, b);
    XorCancels(a, g);
    XorCancels(b, h);
  }

  /** A common suffix neither makes nor breaks a collision. */
  lemma {:induction false} SuffixKeepsCollisions(p: seq<Byte>, q: seq<Byte>, s: seq<Byte>)
    ensures Hash48(p + s) == Hash48(q + s) <==> Hash48(p) == Hash48(q)
    decreases |s|
  {
    if s == [] {
      assert p + s == p && q + s == q;
    } else {
      var front, b := s[..|s| - 1], s[|s| - 1];
      SuffixKeepsCollisions(p, q, front);
      assert (p + s)[..|p + s| - 1] == p + front;
      assert (q + s)[..|q + s| - 1] == q + front;
      if Hash48(p + s) == Hash48(q + s) {
        AbsorbIsInjective(Hash48(p + front), Hash48(q + front), b, b);
      }
    }
  }

  /** Values that differ in exactly one byte hash differently. */
  lemma OneByteApart(p: seq<Byte>, a: Byte, b: Byte, s: seq<Byte>)
    requires a != b
    ensures Hash48(p + [a] + s) != Hash48(p + [b] + s)
  {
    assert (p + [a])[..|p|] == p && (p + [b])[..|p|] == p;
    if Hash48(p + [a]) == Hash48(p + [b]) {
      AbsorbIsInjective(Hash48(p), Hash48(p), a, b);
    }
    SuffixKeepsCollisions(p + [a], p + [b], s);
  }

  // ---- %012x ----------------------------------------------------------------------------------

  function Digit(d: nat): char
    requires d < 16
  {
    "0123456789abcdef"[d]
  }

  function DigitValue(c: char): nat {
    if '0' <= c <= '9' then (c - '0') as nat
    else if 'a' <= c <= 'f' then (c - 'a') as nat + 10
    else 0
  }

  /** %x: no leading zeros, and "0" for zero. */
  function Hex(n: nat): string {
    if n < 16 then [Digit(n)] else Hex(n / 16) + [Digit(n % 16)]
  }

  /** The zero padding of %012x. */
  function Pad(s: string, width: nat): string {
    if |s| >= width then s else seq(width - |s|, _ => '0') + s
  }

  function Pow16(k: nat): nat {
    if k == 0 then 1 else 16 * Pow16(k - 1)
  }

  function Parse(s: string): nat {
    if s == "" then 0 else 16 * Parse(s[..|s| - 1]) + DigitValue(s[|s| - 1])
  }

  lemma {:induction false} HexParses(n: nat, width: nat)
    requires n < Pow16(width) && width > 0
    ensures Parse(Hex(n)) == n && 1 <= |Hex(n)| <= width
    decreases n
  {
    if n < 16 {
      assert [Digit(n)][..0] == "";
    } else {
      HexParses(n / 16, width - 1);
      ParseAppend(Hex(n / 16), n % 16);
    }
  }

  lemma ParseAppend(s: string, d: nat)
    requires d < 16
    ensures Parse(s + [Digit(d)]) == 16 * Parse(s) + d
  {
    assert (s + [Digit(d)])[..|s|] == s;
  }

  lemma {:induction false} PaddingParses(s: string, zeros: nat)
    ensures Parse(seq(zeros, _ => '0') + s) == Parse(s)
    decreases |s|, zeros
  {
    var z := seq(zeros, _ => '0');
    if s != "" {
      PaddingParses(s[..|s| - 1], zeros);
      assert (z + s)[..|z + s| - 1] == z + s[..|s| - 1];
    } else if zeros > 0 {
      PaddingParses("", zeros - 1);
      assert z + s == z && z[..zeros - 1] == seq(zeros - 1, _ => '0');
      assert seq(zeros - 1, _ => '0') + "" == seq(zeros - 1, _ => '0');
    } else {
      assert z + s == "";
    }
  }

  /** The twelve digits give the 48-bit value back. */
  lemma PrintedHashParses(n: nat)
    requires n < TWO_48
    ensures Parse(Pad(Hex(n), 12)) == n && |Pad(Hex(n), 12)| == 12
  {
    assert Pow16(4) == 65536;
    assert Pow16(8) == 0x1_0000_0000;
    assert Pow16(12) == TWO_48;
    HexParses(n, 12);
    PaddingParses(Hex(n), 12 - |Hex(n)|);
  }

  // ---- PII ---------------------------------------------------------------------------------------

  function Pseudonym(value: seq<Byte>): string {
    if value == [] then "" else "px_" + Pad(Hex(Hash48(value)), 12)
  }

  /** PII, as the loop over uint64 with the final mask. */
  method PII(value: seq<Byte>) returns (s: string)
    ensures s == Pseudonym(value)
    ensures if value == [] then s == "" else |s| == 15 && s[..3] == "px_"
  {
    if value == [] {
      return "";
    }
    var h := OFFSET;
    for i := 0 to |value|
      invariant h == Hash64(value[..i])
    {
      assert value[..i + 1][..i] == value[..i];
      h := Xor(h, value[i]);
      h := h * PRIME % TWO_64;
    }
    assert value[..|value|] == value;
    MaskingCommutes(value);
    PrintedHashParses(h % TWO_48);
    s := "px_" + Pad(Hex(h % TWO_48), 12);
  }

  /** Two pseudonyms agree exactly when the truncated hashes do; the empty value is apart. */
  lemma PseudonymsAgreeIffHashesDo(v: seq<Byte>, w: seq<Byte>)
    ensures Pseudonym(v) == Pseudonym(w) <==>
      (v == [] <==> w == []) && (v == [] || Hash48(v) == Hash48(w))
  {
    PrintedHashParses(Hash48(v));
    PrintedHashParses(Hash48(w));
    if v != [] && w != [] && Pseudonym(v) == Pseudonym(w) {
      assert Pseudonym(v)[3..] == Pad(Hex(Hash48(v)), 12);
      assert Pseudonym(w)[3..] == Pad(Hex(Hash48(w)), 12);
    }
  }

  /** No two values that differ in exactly one byte share a pseudonym. */
  lemma NoOneByteCollision(v: seq<Byte>, w: seq<Byte>, i: nat)
    requires |v| == |w| && i < |v| && v[i] != w[i]
    requires forall j :: 0 <= j < |v| && j != i ==> v[j] == w[j]
    ensures Pseudonym(v) != Pseudonym(w)
  {
    var p, s := v[..i], v[i + 1..];
    assert v == p + [v[i]] + s;
    assert w == p + [w[i]] + s;
    OneByteApart(p, v[i], w[i], s);
    PseudonymsAgreeIffHashesDo(v, w);
  }

  // ---- A published value -----------------------------------------------------------------------

  lemma {:induction false} XorZero(a: nat)
    ensures Xor(a, 0) == a
    decreases a
  {
    if a > 0 {
      XorZero(a / 2);
    }
  }

  lemma {:induction false} XorBit(a: nat, b: nat, x: nat)
    requires Xor(a / 2, b / 2) == x
    ensures Xor(a, b) == (a % 2 + b % 2) % 2 + 2 * x
  {
    XorUnfold(a, b);
  }

  lemma XorOfA(h: nat, a: nat)
    requires h == 14695981039346656037 && a == 0x61
    ensures Xor(h, a) == 14695981039346656068
  {
    XorZero(114812351869895750);
    XorBit(229624703739791500, 1, 114812351869895750);
    XorBit(459249407479583001, 3, 229624703739791501);
    XorBit(918498814959166002, 6, 459249407479583002);
    XorBit(1836997629918332004, 12, 918498814959166004);
    XorBit(3673995259836664009, 24, 1836997629918332008);
    XorBit(7347990519673328018, 48, 3673995259836664017);
    XorBit(14695981039346656037, 97, 7347990519673328034);
  }

  lemma HexStep(n: nat, s: string)
    requires n >= 16 && Hex(n / 16) == s
    ensures Hex(n) == s + [Digit(n % 16)]
  {
  }

  lemma HexOfA(n: nat)
    requires n == 0xdc4c8601ec8c
    ensures Hex(n) == "dc4c8601ec8c"
  {
    assert Hex(0xd) == "d";
    HexStep(0xdc, "d");
    HexStep(0xdc4, "dc");
    HexStep(0xdc4c, "dc4");
    HexStep(0xdc4c8, "dc4c");
    HexStep(0xdc4c86, "dc4c8");
    HexStep(0xdc4c860, "dc4c86");
    HexStep(0xdc4c8601, "dc4c860");
    HexStep(0xdc4c8601e, "dc4c8601");
    HexStep(0xdc4c8601ec, "dc4c8601e");
    HexStep(0xdc4c8601ec8, "dc4c8601ec");
    HexStep(0xdc4c8601ec8c, "dc4c8601ec8");
  }

  lemma HashOfOne(b: Byte)
    ensures Hash64([b]) == Xor(OFFSET, b) * PRIME % TWO_64
  {
    assert [b][..0] == [];
  }

  lemma ProductOfA()
    ensures 14695981039346656068 * PRIME % TWO_64 == 0xaf63dc4c8601ec8c
  {
    assert 14695981039346656068 * PRIME == TWO_64 * 875948729822 + 0xaf63dc4c8601ec8c;
    DivisionIsUnique(14695981039346656068 * PRIME, TWO_64, 875948729822, 0xaf63dc4c8601ec8c);
  }

  lemma HashOfA(a: Byte)
    requires a == 0x61
    ensures Hash64([a]) == 0xaf63dc4c8601ec8c
  {
    HashOfOne(a);
    XorOfA(OFFSET, a);
    ProductOfA();
  }

  lemma PrintedAs(value: seq<Byte>, h: nat, digits: string)
    requires value != [] && Hash64(value) == h && Hex(h % TWO_48) == digits && |digits| == 12
    ensures Pseudonym(value) == "px_" + digits
  {
    MaskingCommutes(value);
  }

  /** The FNV-1a 64 value published for the one byte 'a' is 0xaf63dc4c8601ec8c; its pseudonym prints the
      low 48 bits. */
  lemma PseudonymOfA(a: Byte)
    requires a == 0x61
    ensures Hash64([a]) == 0xaf63dc4c8601ec8c && Pseudonym([a]) == "px_" + "dc4c8601ec8c"
  {
    HashOfA(a);
    var h := Hash64([a]);
    DivisionIsUnique(h, TWO_48, 0xaf63, 0xdc4c8601ec8c);
    HexOfA(h % TWO_48);
    PrintedAs([a], h, "dc4c8601ec8c");
  }
}
