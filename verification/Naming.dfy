/**
 Names of node sets and of their scale sets: an FNV-1a hash (draft-eastlake-fnv, section 2) printed in
 hexadecimal behind the pool name. A Go string is a sequence of bytes; a `char` here stands for one byte.
 */
module Naming {
  import opened Types

  type Byte = x: int | 0 <= x < 256

  const WORD := 0x1_0000_0000_0000_0000
  type Word = x: int | 0 <= x < WORD

  const OFFSET_BASIS: Word := 14695981039346656037
  const PRIME := 1099511628211
  /** The inverse of PRIME modulo 2^64. It exists because PRIME is odd. */
  const PRIME_INVERSE := 14886173955864302971

  // ---------- Exclusive or ----------

  function Pow2(k: nat): nat {
    if k == 0 then 1 else 2 * Pow2(k - 1)
  }

  /** Bitwise exclusive or of the low `bits` bits. */
  function Xor(a: nat, b: nat, bits: nat): (r: nat)
    ensures r < Pow2(bits)
  {
    if bits == 0 then 0 else 2 * Xor(a / 2, b / 2, bits - 1) + (a % 2 + b % 2) % 2
  }

  function XorByte(a: Byte, b: Byte): Byte {
    assert Pow2(8) == 256;
    Xor(a, b, 8)
  }

  lemma Digits(x: nat, p: nat, y: nat, q: nat)
    requires p < 2 && q < 2 && 2 * x + p == 2 * y + q
    ensures x == y && p == q
  {}

  lemma BitsXor(p: nat, q: nat, r: nat, t: nat)
    requires p < 2 && q < 2 && r < 2 && t < 2
    requires (p + q) % 2 == (r + t) % 2
    ensures p == r <==> q == t
  {}

  lemma Halves(a: nat, c: nat)
    ensures a == c <==> a / 2 == c / 2 && a % 2 == c % 2
  {}

  lemma XorHalves(a: nat, c: nat, b: nat, d: nat, bits: nat)
    requires bits > 0 && Xor(a, b, bits) == Xor(c, d, bits)
    ensures Xor(a / 2, b / 2, bits - 1) == Xor(c / 2, d / 2, bits - 1)
    ensures (a % 2 + b % 2) % 2 == (c % 2 + d % 2) % 2
  {
    var x, y := Xor(a / 2, b / 2, bits - 1), Xor(c / 2, d / 2, bits - 1);
    Digits(x, (a % 2 + b % 2) % 2, y, (c % 2 + d % 2) % 2);
  }

  lemma HalfFits(a: nat, bits: nat)
    requires bits > 0 && a < Pow2(bits)
    ensures a / 2 < Pow2(bits - 1)
  {}

  /** With equal results, one pair of operands is equal exactly when the other is. */
  lemma {:induction false} XorInjective(a: nat, c: nat, b: nat, d: nat, bits: nat)
    requires a < Pow2(bits) && c < Pow2(bits) && b < Pow2(bits) && d < Pow2(bits)
    requires Xor(a, b, bits) == Xor(c, d, bits)
    ensures a == c <==> b == d
  {
    if bits > 0 {
      XorHalves(a, c, b, d, bits);
      HalfFits(a, bits);
      HalfFits(b, bits);
      HalfFits(c, bits);
      HalfFits(d, bits);
      XorInjective(a / 2, c / 2, b / 2, d / 2, bits - 1);
      BitsXor(a % 2, b % 2, c % 2, d % 2);
      Halves(a, c);
      Halves(b, d);
    }
  }

  // ---------- FNV-1a, 64 bits ----------

  /** One step: xor the byte into the low end of the state, then multiply modulo 2^64. */
  function Absorb(h: Word, b: Byte): Word {
    (Mixed(h, b) * PRIME) % WORD
  }

  function Mixed(h: Word, b: Byte): Word {
    h - h % 256 + XorByte(h % 256, b)
  }

  function Fnv(h: Word, bytes: seq<Byte>): Word
    decreases |bytes|
  {
    if bytes == [] then h else Fnv(Absorb(h, bytes[0]), bytes[1..])
  }

  lemma ModUnique(x: int, z: int)
    requires 0 <= x < WORD
    ensures (x + WORD * z) % WORD == x
  {}

  lemma TimesPrimeUndone(x: Word)
    ensures ((x * PRIME) % WORD * PRIME_INVERSE) % WORD == x
  {
    var y, k := (x * PRIME) % WORD, (x * PRIME) / WORD;
    var t := (PRIME * PRIME_INVERSE) / WORD;
    assert y == x * PRIME - k * WORD;
    assert PRIME * PRIME_INVERSE == 1 + t * WORD;
    assert y * PRIME_INVERSE == x + WORD * (x * t - k * PRIME_INVERSE);
    ModUnique(x, x * t - k * PRIME_INVERSE);
  }

  lemma MixedInjective(h: Word, b: Byte, k: Word, c: Byte)
    requires Mixed(h, b) == Mixed(k, c)
    ensures h == k <==> b == c
  {
    var x, y := XorByte(h % 256, b), XorByte(k % 256, c);
    assert h / 256 == k / 256 && x == y by {
      assert (h / 256) * 256 + x == (k / 256) * 256 + y;
    }
    assert Pow2(8) == 256;
    XorInjective(h % 256, k % 256, b, c, 8);
    assert h == (h / 256) * 256 + h % 256 && k == (k / 256) * 256 + k % 256;
  }

  /** A step is a bijection of the state for each byte, and separates bytes for each state. */
  lemma AbsorbInjective(h: Word, b: Byte, k: Word, c: Byte)
    requires Absorb(h, b) == Absorb(k, c)
    ensures h == k <==> b == c
  {
    TimesPrimeUndone(Mixed(h, b));
    TimesPrimeUndone(Mixed(k, c));
    MixedInjective(h, b, k, c);
  }

  /** Bit `i` of a number. */
  function Bit(x: nat, i: nat): nat {
    if i == 0 then x % 2 else Bit(x / 2, i - 1)
  }

  lemma {:induction false} XorBits(a: nat, b: nat, bits: nat, i: nat)
    requires i < bits
    ensures Bit(Xor(a, b, bits), i) == (Bit(a, i) + Bit(b, i)) % 2
    decreases bits
  {
    XorStep(a, b, bits);
    if i > 0 {
      XorBits(a / 2, b / 2, bits - 1, i - 1);
    }
  }

  lemma XorStep(a: nat, b: nat, bits: nat)
    requires bits > 0
    ensures Xor(a, b, bits) / 2 == Xor(a / 2, b / 2, bits - 1) && Xor(a, b, bits) % 2 == (a % 2 + b % 2) % 2
  {}

  lemma InverseOfThePrime()
    ensures PRIME == 1099511628211 && PRIME_INVERSE == 14886173955864302971 && WORD == 0x1_0000_0000_0000_0000
    ensures (1099511628211 * 14886173955864302971) % 0x1_0000_0000_0000_0000 == 1
  {}

  lemma HighAndLow(h: Word, b: Byte)
    ensures Mixed(h, b) / 256 == h / 256 && Mixed(h, b) % 256 == XorByte(h % 256, b)
  {
    assert h == (h / 256) * 256 + h % 256;
    assert Mixed(h, b) == (h / 256) * 256 + XorByte(h % 256, b);
  }

  lemma LowBits(low: Byte, b: Byte)
    ensures forall i | 0 <= i < 8 :: Bit(XorByte(low, b), i) == (Bit(low, i) + Bit(b, i)) % 2
  {
    forall i | 0 <= i < 8 ensures Bit(XorByte(low, b), i) == (Bit(low, i) + Bit(b, i)) % 2 {
      XorBits(low, b, 8, i);
    }
  }

  /** What a step does, read backwards: undo the multiplication by 1099511628211 modulo 2^64, and what is left is the
      old state with the byte put into its low eight bits by exclusive or. The byte goes in first. */
  lemma StepReadBackwards(h: Word, b: Byte)
    ensures (1099511628211 * 14886173955864302971) % 0x1_0000_0000_0000_0000 == 1
    ensures var mixed := (Absorb(h, b) * 14886173955864302971) % 0x1_0000_0000_0000_0000;
      && mixed / 256 == h / 256
      && forall i | 0 <= i < 8 :: Bit(mixed % 256, i) == (Bit(h % 256, i) + Bit(b, i)) % 2
  {
    InverseOfThePrime();
    TimesPrimeUndone(Mixed(h, b));
    HighAndLow(h, b);
    LowBits(h % 256, b);
  }

  lemma {:induction false} FnvInjective(h: Word, k: Word, bytes: seq<Byte>)
    requires Fnv(h, bytes) == Fnv(k, bytes)
    ensures h == k
    decreases |bytes|
  {
    if bytes != [] {
      FnvInjective(Absorb(h, bytes[0]), Absorb(k, bytes[0]), bytes[1..]);
      AbsorbInjective(h, bytes[0], k, bytes[0]);
    }
  }

  lemma {:induction false} FnvSeparatesOneByte(h: Word, x: seq<Byte>, y: seq<Byte>, i: nat)
    requires |x| == |y| && i < |x| && x[i] != y[i]
    requires forall j | 0 <= j < |x| && j != i :: x[j] == y[j]
    ensures Fnv(h, x) != Fnv(h, y)
    decreases i
  {
    if i == 0 {
      assert x[1..] == y[1..];
      if Fnv(h, x) == Fnv(h, y) {
        FnvInjective(Absorb(h, x[0]), Absorb(h, y[0]), x[1..]);
        AbsorbInjective(h, x[0], h, y[0]);
      }
    } else {
      FnvSeparatesOneByte(Absorb(h, x[0]), x[1..], y[1..], i - 1);
    }
  }

  // ---------- Hexadecimal ----------

  const HEX_DIGITS := "0123456789abcdef"

  function Hex(n: nat): string {
    if n < 16 then [HEX_DIGITS[n]] else Hex(n / 16) + [HEX_DIGITS[n % 16]]
  }

  function HexValue(c: char): nat {
    if '0' <= c <= '9' then c as int - '0' as int
    else if 'a' <= c <= 'f' then c as int - 'a' as int + 10
    else 0
  }

  function ParseHex(s: string): nat {
    if s == [] then 0 else 16 * ParseHex(s[..|s| - 1]) + HexValue(s[|s| - 1])
  }

  lemma HexDigitReadsBack(d: int)
    requires 0 <= d < 16
    ensures HexValue(HEX_DIGITS[d]) == d && HEX_DIGITS[d] != '-'
  {}

  lemma ParseHexMore(front: string, last: char)
    ensures ParseHex(front + [last]) == 16 * ParseHex(front) + HexValue(last)
  {
    assert (front + [last])[..|front|] == front;
  }

  lemma {:induction false} HexRoundTrip(n: nat)
    ensures Hex(n) != [] && ParseHex(Hex(n)) == n && '-' !in Hex(n)
  {
    var d, m := n % 16, n / 16;
    HexDigitReadsBack(d);
    ParseHexMore(if n < 16 then [] else Hex(m), HEX_DIGITS[d]);
    if n >= 16 {
      HexRoundTrip(m);
      assert 16 * m + d == n;
    }
  }

  // ---------- The names ----------

  function Bytes(s: string): (bytes: seq<Byte>)
    ensures |bytes| == |s|
  {
    seq(|s|, i requires 0 <= i < |s| => s[i] as int % 256)
  }

  function Digest(pool: string, version: string): Word {
    Fnv(OFFSET_BASIS, Bytes(pool + "/" + version))
  }

  function NodeSetName(pool: string, version: string): string {
    pool + "-" + Hex(Digest(pool, version))
  }

  function ScaleSetName(nodeSet: string): string {
    nodeSet + "-agentvmss"
  }

  /** Splits at the last hyphen. */
  function SplitName(name: string): Option<(string, nat)> {
    if name == [] then None
    else if name[|name| - 1] == '-' then Some((name[..|name| - 1], 0))
    else match SplitName(name[..|name| - 1])
      case None => None
      case Some((pool, hash)) => Some((pool, 16 * hash + HexValue(name[|name| - 1])))
  }

  lemma {:induction false} SplitAfterHyphen(pool: string, digits: string)
    requires '-' !in digits
    ensures SplitName(pool + "-" + digits) == Some((pool, ParseHex(digits)))
    decreases |digits|
  {
    var name := pool + "-" + digits;
    if digits == [] {
      assert name[..|name| - 1] == pool;
    } else {
      var front := digits[..|digits| - 1];
      assert name[..|name| - 1] == pool + "-" + front;
      SplitAfterHyphen(pool, front);
      assert name[|name| - 1] == digits[|digits| - 1];
      assert digits[|digits| - 1] in digits;
    }
  }

  /** The pool name and the 64-bit hash are read back from the name. */
  lemma NodeSetNameDecodes(pool: string, version: string)
    ensures SplitName(NodeSetName(pool, version)) == Some((pool, Digest(pool, version)))
  {
    HexRoundTrip(Digest(pool, version));
    SplitAfterHyphen(pool, Hex(Digest(pool, version)));
  }

  lemma ScaleSetNameInjective(n: string, m: string)
    ensures ScaleSetName(n) == ScaleSetName(m) <==> n == m
  {
    if ScaleSetName(n) == ScaleSetName(m) {
      assert n == ScaleSetName(n)[..|ScaleSetName(n)| - 10];
      assert m == ScaleSetName(m)[..|ScaleSetName(m)| - 10];
    }
  }

  /** Scale sets, and node sets, share a name exactly when pool name and hash agree; in particular pools of
      different names never collide, whatever their versions. */
  lemma NamesCollideExactly(pool: string, version: string, pool': string, version': string)
    ensures NodeSetName(pool, version) == NodeSetName(pool', version')
            <==> pool == pool' && Digest(pool, version) == Digest(pool', version')
    ensures ScaleSetName(NodeSetName(pool, version)) == ScaleSetName(NodeSetName(pool', version'))
            <==> NodeSetName(pool, version) == NodeSetName(pool', version')
  {
    NodeSetNameDecodes(pool, version);
    NodeSetNameDecodes(pool', version');
    ScaleSetNameInjective(NodeSetName(pool, version), NodeSetName(pool', version'));
  }

  /** Hashed texts of equal length that differ in exactly one byte have different digests. */
  lemma NearTextsSeparate(x: string, y: string, i: nat)
    requires |x| == |y| && i < |x| && Bytes(x)[i] != Bytes(y)[i]
    requires forall j | 0 <= j < |x| && j != i :: Bytes(x)[j] == Bytes(y)[j]
    ensures Fnv(OFFSET_BASIS, Bytes(x)) != Fnv(OFFSET_BASIS, Bytes(y))
  {
    FnvSeparatesOneByte(OFFSET_BASIS, Bytes(x), Bytes(y), i);
  }

  /** Versions of equal length that differ in exactly one byte get different node sets. */
  lemma NearVersionsSeparate(pool: string, v: string, w: string, i: nat)
    requires |v| == |w| && i < |v| && Bytes(v)[i] != Bytes(w)[i]
    requires forall j | 0 <= j < |v| && j != i :: v[j] == w[j]
    ensures NodeSetName(pool, v) != NodeSetName(pool, w)
  {
    var x, y := pool + "/" + v, pool + "/" + w;
    assert forall j | 0 <= j < |v| :: x[|pool| + 1 + j] == v[j] && y[|pool| + 1 + j] == w[j];
    forall j | 0 <= j < |x| && j != |pool| + 1 + i
      ensures Bytes(x)[j] == Bytes(y)[j]
    {
      if j > |pool| {
        assert x[j] == v[j - |pool| - 1] && y[j] == w[j - |pool| - 1];
      }
    }
    NearTextsSeparate(x, y, |pool| + 1 + i);
    NamesCollideExactly(pool, v, pool, w);
  }
}
