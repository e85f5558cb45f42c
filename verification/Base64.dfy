/** Base64 text with the standard alphabet and padding: section 4 of RFC 4648. */
module Base64 {
  import opened Types

  const PAD: char := '='

  predicate InAlphabet(c: char) {
    'A' <= c <= 'Z' || 'a' <= c <= 'z' || '0' <= c <= '9' || c == '+' || c == '/'
  }

  function Digit(v: int): (c: char)
    requires 0 <= v < 64
    ensures InAlphabet(c)
  {
    if v < 26 then (v + 65) as char
    else if v < 52 then (v + 71) as char
    else if v < 62 then (v - 4) as char
    else if v == 62 then '+'
    else '/'
  }

  function Value(c: char): (v: int)
    requires InAlphabet(c)
    ensures 0 <= v < 64
  {
    if 'A' <= c <= 'Z' then c as int - 65
    else if 'a' <= c <= 'z' then c as int - 71
    else if '0' <= c <= '9' then c as int + 4
    else if c == '+' then 62
    else 63
  }

  predicate Sixes(p: int, q: int, r: int, s: int) {
    0 <= p < 64 && 0 <= q < 64 && 0 <= r < 64 && 0 <= s < 64
  }

  function Digits(p: int, q: int, r: int, s: int): string
    requires Sixes(p, q, r, s)
  {
    [Digit(p), Digit(q), Digit(r), Digit(s)]
  }

  function First(a: byte): int { a as int / 4 }
  function Second(a: byte, b: byte): int { (a as int % 4) * 16 + b as int / 16 }
  function Third(b: byte, c: byte): int { (b as int % 16) * 4 + c as int / 64 }
  function Fourth(c: byte): int { c as int % 64 }

  /** The six-bit groups of three bytes. */
  function Quad(a: byte, b: byte, c: byte): (text: string)
    ensures |text| == 4
  {
    Digits(First(a), Second(a, b), Third(b, c), Fourth(c))
  }

  function Encode(data: seq<byte>): string {
    if |data| == 0 then ""
    else if |data| == 1 then Quad(data[0], 0, 0)[..2] + [PAD, PAD]
    else if |data| == 2 then Quad(data[0], data[1], 0)[..3] + [PAD]
    else Quad(data[0], data[1], data[2]) + Encode(data[3..])
  }

  function Bytes(p: int, q: int, r: int, s: int): seq<byte>
    requires Sixes(p, q, r, s)
  {
    [(p * 4 + q / 16) as byte, ((q % 16) * 16 + r / 4) as byte, ((r % 4) * 64 + s) as byte]
  }

  /** Four characters to three, two or one bytes. */
  function DecodeQuad(text: string): Option<seq<byte>>
    requires |text| == 4
  {
    if !InAlphabet(text[0]) || !InAlphabet(text[1]) then None
    else
      var p, q := Value(text[0]), Value(text[1]);
      if text[2] == PAD && text[3] == PAD then Some(Bytes(p, q, 0, 0)[..1])
      else if !InAlphabet(text[2]) then None
      else if text[3] == PAD then Some(Bytes(p, q, Value(text[2]), 0)[..2])
      else if !InAlphabet(text[3]) then None
      else Some(Bytes(p, q, Value(text[2]), Value(text[3])))
  }

  function Decode(text: string): Option<seq<byte>> {
    if text == "" then Some([])
    else if |text| < 4 then None
    else
      match (DecodeQuad(text[..4]), Decode(text[4..]))
      case (Some(head), Some(tail)) => if |head| < 3 && tail != [] then None else Some(head + tail)
      case _ => None
  }

  lemma DigitReadsBack(v: int)
    requires 0 <= v < 64
    ensures Value(Digit(v)) == v
  {}

  lemma DigitsReadBack(p: int, q: int, r: int, s: int)
    requires Sixes(p, q, r, s)
    ensures DecodeQuad(Digits(p, q, r, s)) == Some(Bytes(p, q, r, s))
    ensures DecodeQuad(Digits(p, q, r, s)[..3] + [PAD]) == Some(Bytes(p, q, r, 0)[..2])
    ensures DecodeQuad(Digits(p, q, r, s)[..2] + [PAD, PAD]) == Some(Bytes(p, q, 0, 0)[..1])
  {
    DigitReadsBack(p);
    DigitReadsBack(q);
    DigitReadsBack(r);
    DigitReadsBack(s);
  }

  lemma SixteensSplit(u: int, v: int)
    requires 0 <= v < 16
    ensures (u * 16 + v) / 16 == u && (u * 16 + v) % 16 == v
  {}

  lemma FoursSplit(u: int, v: int)
    requires 0 <= v < 4
    ensures (u * 4 + v) / 4 == u && (u * 4 + v) % 4 == v
  {}

  lemma BytesReadBack(a: byte, b: byte, c: byte)
    ensures Sixes(First(a), Second(a, b), Third(b, c), Fourth(c))
    ensures Bytes(First(a), Second(a, b), Third(b, c), Fourth(c)) == [a, b, c]
  {
    SixteensSplit(a as int % 4, b as int / 16);
    FoursSplit(b as int % 16, c as int / 64);
  }

  lemma ThreeReadBack(a: byte, b: byte, c: byte)
    ensures DecodeQuad(Quad(a, b, c)) == Some([a, b, c])
  {
    BytesReadBack(a, b, c);
    DigitsReadBack(First(a), Second(a, b), Third(b, c), Fourth(c));
  }

  lemma TwoReadBack(a: byte, b: byte)
    ensures DecodeQuad(Quad(a, b, 0)[..3] + [PAD]) == Some([a, b])
  {
    BytesReadBack(a, b, 0);
    DigitsReadBack(First(a), Second(a, b), Third(b, 0), 0);
    assert [a, b, 0][..2] == [a, b];
  }

  lemma OneReadsBack(a: byte)
    ensures DecodeQuad(Quad(a, 0, 0)[..2] + [PAD, PAD]) == Some([a])
  {
    BytesReadBack(a, 0, 0);
    DigitsReadBack(First(a), Second(a, 0), 0, 0);
    assert [a, 0, 0][..1] == [a];
  }

  lemma DecodeFirst(quad: string, rest: string, head: seq<byte>, tail: seq<byte>)
    requires |quad| == 4 && DecodeQuad(quad) == Some(head) && Decode(rest) == Some(tail)
    requires |head| == 3 || tail == []
    ensures Decode(quad + rest) == Some(head + tail)
  {
    assert (quad + rest)[..4] == quad && (quad + rest)[4..] == rest;
  }

  lemma DecodeOnly(quad: string, head: seq<byte>)
    requires |quad| == 4 && DecodeQuad(quad) == Some(head)
    ensures Decode(quad) == Some(head)
  {
    DecodeFirst(quad, "", head, []);
    assert quad + "" == quad && head + [] == head;
  }

  lemma RoundTripOne(a: byte)
    ensures Decode(Encode([a])) == Some([a])
  {
    OneReadsBack(a);
    DecodeOnly(Quad(a, 0, 0)[..2] + [PAD, PAD], [a]);
  }

  lemma RoundTripTwo(a: byte, b: byte)
    ensures Decode(Encode([a, b])) == Some([a, b])
  {
    TwoReadBack(a, b);
    DecodeOnly(Quad(a, b, 0)[..3] + [PAD], [a, b]);
  }

  lemma RoundTripMore(a: byte, b: byte, c: byte, tail: seq<byte>, data: seq<byte>)
    requires Decode(Encode(tail)) == Some(tail) && data == [a, b, c] + tail
    ensures Decode(Encode(data)) == Some(data)
  {
    ThreeReadBack(a, b, c);
    DecodeFirst(Quad(a, b, c), Encode(tail), [a, b, c], tail);
    assert data[3..] == tail;
  }

  lemma {:induction false} RoundTrip(data: seq<byte>)
    ensures Decode(Encode(data)) == Some(data)
    decreases |data|
  {
    match |data|
    case 0 =>
    case 1 =>
      RoundTripOne(data[0]);
      assert data == [data[0]];
    case 2 =>
      RoundTripTwo(data[0], data[1]);
      assert data == [data[0], data[1]];
    case _ =>
      RoundTrip(data[3..]);
      RoundTripMore(data[0], data[1], data[2], data[3..], data);
  }

  /** The text has nothing but digits and padding: no line break, no quote, no blank. */
  lemma {:induction false} EncodedCharacters(data: seq<byte>)
    ensures forall c | c in Encode(data) :: InAlphabet(c) || c == PAD
    decreases |data|
  {
    if |data| >= 3 {
      EncodedCharacters(data[3..]);
    }
  }

  /** The digits are those of table 1 of section 4. */
  lemma DigitIsInTable(v: int)
    requires 0 <= v < 64
    ensures Digit(v) == ("ABCDEFGHIJKLMNOPQRSTUVWXYZ" + "abcdefghijklmnopqrstuvwxyz" + "0123456789" + "+/")[v]
  {}

  /** Three bytes are 24 bits, cut into four groups of six from the front; one or two bytes are filled up with zero
      bits, and "=" stands for each group that has none of theirs. */
  lemma GroupsOfSix(a: byte, b: byte, c: byte, tail: seq<byte>)
    ensures Encode([]) == ""
    ensures Encode([a]) == [Digit(First(a)), Digit(Second(a, 0)), '=', '=']
    ensures Encode([a, b]) == [Digit(First(a)), Digit(Second(a, b)), Digit(Third(b, 0)), '=']
    ensures Encode([a, b, c] + tail)
      == [Digit(First(a)), Digit(Second(a, b)), Digit(Third(b, c)), Digit(Fourth(c))] + Encode(tail)
    ensures 0x4_0000 * First(a) + 0x1000 * Second(a, b) + 0x40 * Third(b, c) + Fourth(c)
      == 0x1_0000 * (a as int) + 0x100 * (b as int) + c as int
  {
    assert ([a, b, c] + tail)[3..] == tail;
    GroupAdds(a as int, b as int, c as int);
  }

  lemma GroupAdds(a: int, b: int, c: int)
    ensures 0x4_0000 * (a / 4) + 0x1000 * ((a % 4) * 16 + b / 16) + 0x40 * ((b % 16) * 4 + c / 64) + c % 64
      == 0x1_0000 * a + 0x100 * b + c
  {
    assert a == 4 * (a / 4) + a % 4 && b == 16 * (b / 16) + b % 16 && c == 64 * (c / 64) + c % 64;
  }
}
