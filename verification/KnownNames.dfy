/** Known hashes and one name in full: test vectors of draft-eastlake-fnv, section 5, and a node set's name. */
module KnownNames {
  import opened Naming

  // ---------- Exclusive or, worked out by pairs of bits ----------

  datatype Quads = Quads(a: nat, b: nat, c: nat, d: nat)

  function Value(q: Quads): nat { 64 * q.a + 16 * q.b + 4 * q.c + q.d }

  function XorPair(a: nat, b: nat): (r: nat)
    requires a < 4 && b < 4
    ensures r < 4
  {
    if b == 0 then a
    else if b == 1 then (if a == 0 then 1 else if a == 1 then 0 else if a == 2 then 3 else 2)
    else if b == 2 then (if a == 0 then 2 else if a == 1 then 3 else if a == 2 then 0 else 1)
    else 3 - a
  }

  predicate Xors(p: Quads, q: Quads, r: Quads) {
    && p.a < 4 && p.b < 4 && p.c < 4 && p.d < 4 && q.a < 4 && q.b < 4 && q.c < 4 && q.d < 4
    && r == Quads(XorPair(p.a, q.a), XorPair(p.b, q.b), XorPair(p.c, q.c), XorPair(p.d, q.d))
  }

  /** A bit of the operands below the others. */
  lemma XorUp(a: nat, b: nat, bits: nat, p: nat, q: nat)
    requires p < 2 && q < 2
    ensures Xor(2 * a + p, 2 * b + q, bits + 1) == 2 * Xor(a, b, bits) + (p + q) % 2
  {
    assert (2 * a + p) / 2 == a && (2 * a + p) % 2 == p;
    assert (2 * b + q) / 2 == b && (2 * b + q) % 2 == q;
  }

  lemma PairBits(p: nat, q: nat)
    requires p < 4 && q < 4
    ensures XorPair(p, q) == 2 * ((p / 2 + q / 2) % 2) + (p % 2 + q % 2) % 2 && p / 2 < 2 && q / 2 < 2
    ensures p == 2 * (p / 2) + p % 2 && q == 2 * (q / 2) + q % 2
  {}

  lemma XorTwice(a: nat, b: nat, bits: nat, p1: nat, p0: nat, q1: nat, q0: nat)
    requires p1 < 2 && p0 < 2 && q1 < 2 && q0 < 2
    ensures Xor(4 * a + 2 * p1 + p0, 4 * b + 2 * q1 + q0, bits + 2)
      == 4 * Xor(a, b, bits) + 2 * ((p1 + q1) % 2) + (p0 + q0) % 2
  {
    XorUp(a, b, bits, p1, q1);
    XorUp(2 * a + p1, 2 * b + q1, bits + 1, p0, q0);
    assert 2 * (2 * a + p1) + p0 == 4 * a + 2 * p1 + p0 && 2 * (2 * b + q1) + q0 == 4 * b + 2 * q1 + q0;
  }

  lemma XorPairUp(a: nat, b: nat, bits: nat, p: nat, q: nat)
    requires p < 4 && q < 4
    ensures Xor(4 * a + p, 4 * b + q, bits + 2) == 4 * Xor(a, b, bits) + XorPair(p, q)
  {
    PairBits(p, q);
    XorTwice(a, b, bits, p / 2, p % 2, q / 2, q % 2);
  }

  lemma XorNext(a: nat, b: nat, bits: nat, r: nat, p: nat, q: nat, a': nat, b': nat)
    requires p < 4 && q < 4 && Xor(a, b, bits) == r && a' == 4 * a + p && b' == 4 * b + q
    ensures Xor(a', b', bits + 2) == 4 * r + XorPair(p, q)
  {
    XorPairUp(a, b, bits, p, q);
  }

  lemma XorTwoPairs(a: nat, b: nat, bits: nat, r: nat, p: nat, q: nat, x: nat, y: nat, a': nat, b': nat)
    requires p < 4 && q < 4 && x < 4 && y < 4 && Xor(a, b, bits) == r
    requires a' == 16 * a + 4 * p + x && b' == 16 * b + 4 * q + y
    ensures Xor(a', b', bits + 4) == 16 * r + 4 * XorPair(p, q) + XorPair(x, y)
  {
    XorNext(a, b, bits, r, p, q, 4 * a + p, 4 * b + q);
    XorNext(4 * a + p, 4 * b + q, bits + 2, 4 * r + XorPair(p, q), x, y, a', b');
  }

  lemma XorOfNothing(bits: nat)
    requires bits == 0
    ensures Xor(0, 0, bits) == 0
  {}

  lemma XorFour(a: nat, b: nat, p: nat, q: nat, r: nat, t: nat, x: nat, y: nat, bits: nat)
    requires a < 4 && b < 4 && p < 4 && q < 4 && r < 4 && t < 4 && x < 4 && y < 4 && bits == 0
    ensures Xor(64 * a + 16 * p + 4 * r + x, 64 * b + 16 * q + 4 * t + y, bits + 4 + 4)
      == 64 * XorPair(a, b) + 16 * XorPair(p, q) + 4 * XorPair(r, t) + XorPair(x, y)
  {
    XorOfNothing(bits);
    XorTwoPairs(0, 0, bits, 0, a, b, p, q, 4 * a + p, 4 * b + q);
    XorTwoPairs(4 * a + p, 4 * b + q, bits + 4, 4 * XorPair(a, b) + XorPair(p, q), r, t, x, y,
      64 * a + 16 * p + 4 * r + x, 64 * b + 16 * q + 4 * t + y);
  }

  lemma XorOfQuads(p: Quads, q: Quads, r: Quads)
    requires Xors(p, q, r)
    ensures Value(p) < 256 && Value(q) < 256 && Value(r) < 256 && XorByte(Value(p), Value(q)) == Value(r)
  {
    XorFour(p.a, q.a, p.b, q.b, p.c, q.c, p.d, q.d, 0);
  }

  // ---------- Steps, worked out ----------

  lemma LowByte(h: Word, high: nat, low: nat)
    requires h == 256 * high + low && low < 256
    ensures h % 256 == low && h - h % 256 == 256 * high
  {}

  lemma ProductIs(mixed: Word, k: nat, next: Word)
    requires mixed * 1099511628211 == k * 0x1_0000_0000_0000_0000 + next
    ensures (mixed * PRIME) % WORD == next
  {}

  lemma StepIs(h: Word, high: nat, low: Byte, b: Byte, put: Byte, next: Word)
    requires XorByte(low, b) == put && h == 256 * high + low
    requires 256 * high + put < WORD && ((256 * high + put) * PRIME) % WORD == next
    ensures Absorb(h, b) == next
  {
    LowByte(h, high, low);
    assert Mixed(h, b) == 256 * high + put;
  }

  /** The hash `256 * high + low`, its low byte with the next byte put in, the overflow of the product, and the next
      hash. */
  lemma NextHash(h: Word, high: nat, low: Quads, b: Quads, put: Quads, k: nat, next: Word)
    requires Xors(low, b, put) && h == 256 * high + Value(low) && 256 * high + Value(put) < WORD
    requires (256 * high + Value(put)) * 1099511628211 == k * 0x1_0000_0000_0000_0000 + next
    ensures Value(b) < 256 && Absorb(h, Value(b)) == next
  {
    XorOfQuads(low, b, put);
    ProductIs(256 * high + Value(put), k, next);
    StepIs(h, high, Value(low), Value(b), Value(put), next);
  }

  /** The hash of `text` from `h` on. */
  function HashFrom(h: Word, text: string): Word { Fnv(h, Bytes(text)) }

  lemma BytesTail(c: char, rest: string)
    requires c as int < 256
    ensures Bytes([c] + rest) == [c as int] + Bytes(rest)
  {}

  lemma FnvTail(h: Word, b: Byte, next: Word, rest: seq<Byte>)
    requires Absorb(h, b) == next
    ensures Fnv(h, [b] + rest) == Fnv(next, rest)
  {
    assert ([b] + rest)[1..] == rest;
  }

  /** One character in front. */
  lemma Front(h: Word, c: char, rest: string, next: Word)
    requires c as int < 256 && Absorb(h, c as int) == next
    ensures HashFrom(h, [c] + rest) == HashFrom(next, rest)
  {
    BytesTail(c, rest);
    FnvTail(h, c as int, next, Bytes(rest));
  }

  // ---------- Known hashes ----------

  lemma StepA1(h: Word)
    requires h == 0xcbf29ce484222325
    ensures Absorb(h, 97) == 0xaf63dc4c8601ec8c
  {
    NextHash(h, 0xcbf29ce4842223, Quads(0, 2, 1, 1), Quads(1, 2, 0, 1), Quads(1, 0, 1, 0), 0xcbf29ce5de, 0xaf63dc4c8601ec8c);
  }

  lemma ThroughA(rest: string)
    ensures HashFrom(0xcbf29ce484222325, ['a'] + rest) == HashFrom(0xaf63dc4c8601ec8c, rest)
  {
    StepA1(0xcbf29ce484222325);
    Front(0xcbf29ce484222325, 'a', rest, 0xaf63dc4c8601ec8c);
  }

  lemma StepFoo1(h: Word)
    requires h == 0xcbf29ce484222325
    ensures Absorb(h, 102) == 0xaf63db4c8601ead9
  {
    NextHash(h, 0xcbf29ce4842223, Quads(0, 2, 1, 1), Quads(1, 2, 1, 2), Quads(1, 0, 0, 3), 0xcbf29ce5de, 0xaf63db4c8601ead9);
  }

  lemma StepFoo2(h: Word)
    requires h == 0xaf63db4c8601ead9
    ensures Absorb(h, 111) == 0x08985907b541d342
  {
    NextHash(h, 0xaf63db4c8601ea, Quads(3, 1, 2, 1), Quads(1, 2, 3, 3), Quads(2, 3, 1, 2), 0xaf63db4db0, 0x08985907b541d342);
  }

  lemma StepFoo3(h: Word)
    requires h == 0x08985907b541d342
    ensures Absorb(h, 111) == 0xdcb27518fed9d577
  {
    NextHash(h, 0x08985907b541d3, Quads(1, 0, 0, 2), Quads(1, 2, 3, 3), Quads(0, 2, 3, 1), 0x08985907c3, 0xdcb27518fed9d577);
  }

  lemma ThroughFoo(rest: string)
    ensures HashFrom(0xcbf29ce484222325, ['f', 'o', 'o'] + rest) == HashFrom(0xdcb27518fed9d577, rest)
  {
    StepFoo1(0xcbf29ce484222325);
    StepFoo2(0xaf63db4c8601ead9);
    StepFoo3(0x08985907b541d342);
    Front(0x08985907b541d342, 'o', rest, 0xdcb27518fed9d577);
    var r2 := ['o'] + rest;
    Front(0xaf63db4c8601ead9, 'o', r2, 0x08985907b541d342);
    var r1 := ['o'] + r2;
    Front(0xcbf29ce484222325, 'f', r1, 0xaf63db4c8601ead9);
    assert ['f'] + r1 == ['f', 'o', 'o'] + rest;
  }

  lemma StepBar1(h: Word)
    requires h == 0xdcb27518fed9d577
    ensures Absorb(h, 98) == 0xdd120e790c2512af
  {
    NextHash(h, 0xdcb27518fed9d5, Quads(1, 3, 1, 3), Quads(1, 2, 0, 2), Quads(0, 1, 1, 1), 0xdcb2751a75, 0xdd120e790c2512af);
  }

  lemma StepBar2(h: Word)
    requires h == 0xdd120e790c2512af
    ensures Absorb(h, 97) == 0xcac165afa2fef40a
  {
    NextHash(h, 0xdd120e790c2512, Quads(2, 2, 3, 3), Quads(1, 2, 0, 1), Quads(3, 0, 3, 2), 0xdd120e7a83, 0xcac165afa2fef40a);
  }

  lemma StepBar3(h: Word)
    requires h == 0xcac165afa2fef40a
    ensures Absorb(h, 114) == 0x85944171f73967e8
  {
    NextHash(h, 0xcac165afa2fef4, Quads(0, 0, 2, 2), Quads(1, 3, 0, 2), Quads(1, 3, 2, 0), 0xcac165b0fb, 0x85944171f73967e8);
  }

  lemma ThroughBar(rest: string)
    ensures HashFrom(0xdcb27518fed9d577, ['b', 'a', 'r'] + rest) == HashFrom(0x85944171f73967e8, rest)
  {
    StepBar1(0xdcb27518fed9d577);
    StepBar2(0xdd120e790c2512af);
    StepBar3(0xcac165afa2fef40a);
    Front(0xcac165afa2fef40a, 'r', rest, 0x85944171f73967e8);
    var r2 := ['r'] + rest;
    Front(0xdd120e790c2512af, 'a', r2, 0xcac165afa2fef40a);
    var r1 := ['a'] + r2;
    Front(0xdcb27518fed9d577, 'b', r1, 0xdd120e790c2512af);
    assert ['b'] + r1 == ['b', 'a', 'r'] + rest;
  }

  lemma StepName1(h: Word)
    requires h == 0xcbf29ce484222325
    ensures Absorb(h, 112) == 0xaf63ed4c8602096f
  {
    NextHash(h, 0xcbf29ce4842223, Quads(0, 2, 1, 1), Quads(1, 3, 0, 0), Quads(1, 1, 1, 1), 0xcbf29ce5de, 0xaf63ed4c8602096f);
  }

  lemma StepName2(h: Word)
    requires h == 0xaf63ed4c8602096f
    ensures Absorb(h, 47) == 0x08d57907b575b7c0
  {
    NextHash(h, 0xaf63ed4c860209, Quads(1, 2, 3, 3), Quads(0, 2, 3, 3), Quads(1, 0, 0, 0), 0xaf63ed4db0, 0x08d57907b575b7c0);
  }

  lemma StepName3(h: Word)
    requires h == 0x08d57907b575b7c0
    ensures Absorb(h, 49) == 0x7874991957078e83
  {
    NextHash(h, 0x08d57907b575b7, Quads(3, 0, 0, 0), Quads(0, 3, 0, 1), Quads(3, 3, 0, 1), 0x08d57907c4, 0x7874991957078e83);
  }

  lemma ThroughName(rest: string)
    ensures HashFrom(0xcbf29ce484222325, ['p', '/', '1'] + rest) == HashFrom(0x7874991957078e83, rest)
  {
    StepName1(0xcbf29ce484222325);
    StepName2(0xaf63ed4c8602096f);
    StepName3(0x08d57907b575b7c0);
    Front(0x08d57907b575b7c0, '1', rest, 0x7874991957078e83);
    var r2 := ['1'] + rest;
    Front(0xaf63ed4c8602096f, '/', r2, 0x08d57907b575b7c0);
    var r1 := ['/'] + r2;
    Front(0xcbf29ce484222325, 'p', r1, 0xaf63ed4c8602096f);
    assert ['p'] + r1 == ['p', '/', '1'] + rest;
  }

  /** The test vectors: nothing, one letter, six letters. */
  lemma KnownHashes()
    ensures Fnv(OFFSET_BASIS, Bytes("")) == 0xcbf29ce484222325
    ensures Fnv(OFFSET_BASIS, Bytes("a")) == 0xaf63dc4c8601ec8c
    ensures Fnv(OFFSET_BASIS, Bytes("foobar")) == 0x85944171f73967e8
  {
    ThroughA("");
    ThroughBar("");
    ThroughFoo("bar");
    assert ['a'] + "" == "a" && ['b', 'a', 'r'] + "" == "bar" && ['f', 'o', 'o'] + "bar" == "foobar";
  }

  lemma HashOfPoolAndVersion()
    ensures Digest("p", "1") == 0x7874991957078e83
  {
    ThroughName("");
    assert ['p', '/', '1'] + "" == "p" + "/" + "1";
  }

  // ---------- A name in full ----------

  /** Hexadecimal digits, lower case, without leading zeros. */
  lemma HexIsPositional(n: nat, d: nat)
    requires d < 16
    ensures Hex(d) == ["0123456789abcdef"[d]]
    ensures n > 0 ==> Hex(16 * n + d) == Hex(n) + ["0123456789abcdef"[d]]
  {
    assert (16 * n + d) / 16 == n && (16 * n + d) % 16 == d;
  }

  lemma DigestNamed(pool: string, version: string, hash: Word)
    requires Digest(pool, version) == hash
    ensures NodeSetName(pool, version) == pool + "-" + Hex(hash)
  {}

  /** The node set of pool "p" at version "1", and the scale set of any node set. */
  lemma NameInFull(n: string)
    ensures NodeSetName("p", "1") == "p" + "-" + Hex(0x7874991957078e83)
    ensures ScaleSetName(n) == n + "-agentvmss"
  {
    HashOfPoolAndVersion();
    DigestNamed("p", "1", 0x7874991957078e83);
  }
}
