/**
 A read-only file kept as gzip bytes. The decompressed stream can only be read forwards or restarted; the handle
 hides this behind a lazy cursor: Seek only notes a position, and the next Read rewinds or skips to it.
 */
module CompressedFiles {
  import opened Types

  const INT64_LIMIT: int := 0x8000_0000_0000_0000

  /** Two's-complement wrap-around of a 64-bit sum. */
  function Wrap(x: int): int {
    (x + INT64_LIMIT) % (2 * INT64_LIMIT) - INT64_LIMIT
  }

  const SEEK_START := 0
  const SEEK_CURRENT := 1
  const SEEK_END := 2

  /** `at` is where the stream really is; `grPos` is where the handle takes it to be. */
  datatype Cursor = Cursor(grPos: int, seekPos: int, at: nat)

  datatype Event =
    | Seek(offset: int, whence: int)
    | Read(room: nat, data: seq<byte>)

  const Opened := Cursor(0, 0, 0)

  /** The position that a Seek leaves; an unknown whence panics and moves nothing. */
  function Sought(size: nat, pos: int, offset: int, whence: int): int {
    if whence == SEEK_START then Wrap(offset)
    else if whence == SEEK_CURRENT then Wrap(pos + offset)
    else if whence == SEEK_END then Wrap(size + offset)
    else pos
  }

  function Clamp(pos: int): nat { if pos < 0 then 0 else pos }

  // ---------- The handle ----------

  function Rewound(c: Cursor): Cursor {
    if c.grPos > c.seekPos then c.(grPos := 0, at := 0) else c
  }

  /** Skipping to the sought position needs bytes that the stream does not have. */
  predicate RunsDry(size: nat, c: Cursor) {
    var r := Rewound(c);
    r.grPos < r.seekPos && size < r.at + (r.seekPos - r.grPos)
  }

  /** Where the stream is once the handle has rewound and skipped. */
  function Aligned(size: nat, c: Cursor): Cursor {
    var r := Rewound(c);
    if r.grPos >= r.seekPos then r
    else if RunsDry(size, c) then r.(at := size)
    else r.(grPos := r.seekPos, at := r.at + (r.seekPos - r.grPos))
  }

  /** What a stream or file may answer at offset `at`: the bytes there, fewer than asked for if it likes, but none
      only at the end or for an empty buffer. */
  predicate Serves(content: seq<byte>, at: nat, room: nat, data: seq<byte>) {
    && |data| <= room && at + |data| <= |content|
    && data == content[at..at + |data|]
    && (room > 0 && at < |content| ==> data != [])
  }

  predicate CanRead(content: seq<byte>, c: Cursor, room: nat, data: seq<byte>) {
    if RunsDry(|content|, c) then data == [] else Serves(content, Aligned(|content|, c).at, room, data)
  }

  predicate Legal(content: seq<byte>, c: Cursor, e: Event) {
    e.Read? ==> CanRead(content, c, e.room, e.data)
  }

  function Next(size: nat, c: Cursor, e: Event): Cursor {
    match e
    case Seek(offset, whence) => c.(seekPos := Sought(size, c.seekPos, offset, whence))
    case Read(_, data) =>
      var r := Aligned(size, c);
      if RunsDry(size, c) then r
      else Cursor(r.grPos + |data|, r.grPos + |data|, r.at + |data|)
  }

  /** The stream is where the handle takes it to be, or it is at its end and the handle takes it to be before. */
  predicate Sound(size: nat, c: Cursor) {
    0 <= c.grPos <= c.at <= size && (c.grPos == c.at || c.at == size)
  }

  predicate Healthy(c: Cursor) { c.grPos == c.at }

  lemma SoundStep(content: seq<byte>, c: Cursor, e: Event)
    requires Sound(|content|, c) && Legal(content, c, e)
    ensures Sound(|content|, Next(|content|, c, e))
    ensures e.Read? ==> Next(|content|, c, e).seekPos == Clamp(c.seekPos) + |e.data|
  {}

  // ---------- The plain positioned file ----------

  predicate PlainReads(content: seq<byte>, pos: int, room: nat, data: seq<byte>) {
    if Clamp(pos) <= |content| then Serves(content, Clamp(pos), room, data) else data == []
  }

  function Position(size: nat, events: seq<Event>): int {
    if events == [] then 0
    else
      var pos, e := Position(size, events[..|events| - 1]), events[|events| - 1];
      match e
      case Seek(offset, whence) => Sought(size, pos, offset, whence)
      case Read(_, data) => Clamp(pos) + |data|
  }

  /** Every answer is one that a plain file with a position could have given. */
  predicate PlainAnswers(content: seq<byte>, events: seq<Event>) {
    forall i | 0 <= i < |events| && events[i].Read? ::
      PlainReads(content, Position(|content|, events[..i]), events[i].room, events[i].data)
  }

  // ---------- Runs ----------

  ghost predicate Run(content: seq<byte>, events: seq<Event>)
    decreases |events|, 0
  {
    events == [] ||
      (Run(content, events[..|events| - 1]) &&
       Legal(content, After(content, events[..|events| - 1]), events[|events| - 1]))
  }

  ghost function After(content: seq<byte>, events: seq<Event>): Cursor
    requires Run(content, events)
    decreases |events|, 1
  {
    if events == [] then Opened
    else Next(|content|, After(content, events[..|events| - 1]), events[|events| - 1])
  }

  lemma RunExtends(content: seq<byte>, events: seq<Event>, e: Event)
    requires Run(content, events) && Legal(content, After(content, events), e)
    ensures Run(content, events + [e])
    ensures After(content, events + [e]) == Next(|content|, After(content, events), e)
  {
    assert (events + [e])[..|events + [e]| - 1] == events;
  }

  lemma {:induction false} RunPrefix(content: seq<byte>, events: seq<Event>, i: nat)
    requires Run(content, events) && i <= |events|
    ensures Run(content, events[..i])
    ensures i < |events| ==> Legal(content, After(content, events[..i]), events[i])
    decreases |events|
  {
    if i == |events| {
      assert events[..i] == events;
    } else {
      var front := events[..|events| - 1];
      RunPrefix(content, front, i);
      assert front[..i] == events[..i];
    }
  }

  /** After any run the cursor is sound, and the handle has the position that a plain file would have. */
  lemma {:induction false} RunIsSound(content: seq<byte>, events: seq<Event>)
    requires Run(content, events)
    ensures Sound(|content|, After(content, events))
    ensures After(content, events).seekPos == Position(|content|, events)
    decreases |events|
  {
    if events != [] {
      var front := events[..|events| - 1];
      RunIsSound(content, front);
      SoundStep(content, After(content, front), events[|events| - 1]);
    }
  }

  // ---------- No wrong bytes ----------

  /** A sound handle that answers with bytes answers with those at the position. */
  lemma BytesAreRight(content: seq<byte>, c: Cursor, room: nat, data: seq<byte>)
    requires Sound(|content|, c) && CanRead(content, c, room, data) && data != []
    ensures Clamp(c.seekPos) + |data| <= |content|
    ensures data == content[Clamp(c.seekPos)..Clamp(c.seekPos) + |data|]
  {}

  /** For every sequence of Seeks and Reads, before the start and past the end included: a Read that yields bytes
      yields those at the position, counted from the start when it is negative. */
  lemma NeverWrongBytes(content: seq<byte>, events: seq<Event>, i: nat)
    requires Run(content, events) && i < |events| && events[i].Read? && events[i].data != []
    ensures var p, data := Clamp(Position(|content|, events[..i])), events[i].data;
      p + |data| <= |content| && data == content[p..p + |data|]
  {
    RunPrefix(content, events, i);
    RunIsSound(content, events[..i]);
    BytesAreRight(content, After(content, events[..i]), events[i].room, events[i].data);
  }

  // ---------- Agreement with a plain file ----------

  /** The handle is not misled about the stream where this Read looks. */
  predicate Trusted(size: nat, c: Cursor, room: nat) {
    Healthy(c) || c.seekPos < c.grPos || c.seekPos >= size || room == 0
  }

  /** The handle and the plain file can give the same answers exactly when the handle has not lost track of the
      stream, or the position makes it start over, or there is nothing to read anyway. */
  lemma AgreesExactly(content: seq<byte>, c: Cursor, room: nat)
    requires Sound(|content|, c)
    ensures (forall data :: CanRead(content, c, room, data) <==> PlainReads(content, c.seekPos, room, data))
      <==> Trusted(|content|, c, room)
  {
    if !Trusted(|content|, c, room) {
      MisledReadsNothing(content, c, room, []);
      assert CanRead(content, c, room, []) && !PlainReads(content, c.seekPos, room, []);
    } else {
      forall data ensures CanRead(content, c, room, data) <==> PlainReads(content, c.seekPos, room, data) {
        TrustedAgrees(content, c, room, data);
      }
    }
  }

  lemma TrustedAgrees(content: seq<byte>, c: Cursor, room: nat, data: seq<byte>)
    requires Sound(|content|, c) && Trusted(|content|, c, room)
    ensures CanRead(content, c, room, data) <==> PlainReads(content, c.seekPos, room, data)
  {}

  lemma MisledReadsNothing(content: seq<byte>, c: Cursor, room: nat, data: seq<byte>)
    requires Sound(|content|, c) && !Trusted(|content|, c, room)
    ensures CanRead(content, c, room, data) <==> data == []
    ensures !PlainReads(content, c.seekPos, room, [])
  {}

  /** A whole run is one of a plain file exactly when every Read of it was trusted. */
  lemma RunIsPlainExactly(content: seq<byte>, events: seq<Event>)
    requires Run(content, events)
    ensures PlainAnswers(content, events) <==>
      forall i | 0 <= i < |events| && events[i].Read? ::
        Run(content, events[..i]) && Trusted(|content|, After(content, events[..i]), events[i].room)
  {
    forall i | 0 <= i < |events| && events[i].Read?
      ensures Run(content, events[..i])
      ensures PlainReads(content, Position(|content|, events[..i]), events[i].room, events[i].data) <==>
        Trusted(|content|, After(content, events[..i]), events[i].room)
    {
      RunPrefix(content, events, i);
      RunIsSound(content, events[..i]);
      var c := After(content, events[..i]);
      if Trusted(|content|, c, events[i].room) {
        TrustedAgrees(content, c, events[i].room, events[i].data);
      } else {
        MisledReadsNothing(content, c, events[i].room, events[i].data);
      }
    }
  }

  /** No Read is issued at a position past the end. */
  predicate StaysInside(size: nat, events: seq<Event>) {
    forall i | 0 <= i < |events| && events[i].Read? :: Position(size, events[..i]) <= size
  }

  lemma {:induction false} InsideIsHealthy(content: seq<byte>, events: seq<Event>)
    requires Run(content, events) && StaysInside(|content|, events)
    ensures Healthy(After(content, events))
    decreases |events|
  {
    if events != [] {
      var front, e := events[..|events| - 1], events[|events| - 1];
      assert forall i | 0 <= i < |front| :: front[..i] == events[..i];
      InsideIsHealthy(content, front);
      RunIsSound(content, front);
      assert events[..|front|] == front;
    }
  }

  /** Refinement: a run without a Read past the end is a run of a plain file. */
  lemma InsideIsPlain(content: seq<byte>, events: seq<Event>)
    requires Run(content, events) && StaysInside(|content|, events)
    ensures PlainAnswers(content, events)
  {
    forall i | 0 <= i < |events| && events[i].Read?
      ensures PlainReads(content, Position(|content|, events[..i]), events[i].room, events[i].data)
    {
      RunPrefix(content, events, i);
      var before := events[..i];
      assert forall j | 0 <= j < i :: before[..j] == events[..j];
      InsideIsHealthy(content, before);
      RunIsSound(content, before);
      TrustedAgrees(content, After(content, before), events[i].room, events[i].data);
    }
  }

  // ---------- After a Read past the end ----------

  /** A Read past the end leaves the handle believing that the stream is where it was before the skip (at the
      start, when it had to rewind), unless that is the end. */
  lemma OverReadMisleads(content: seq<byte>, c: Cursor, room: nat)
    requires Sound(|content|, c) && c.seekPos > |content|
    ensures CanRead(content, c, room, [])
    ensures var c' := Next(|content|, c, Read(room, []));
      c' == Cursor(c.grPos, c.seekPos, |content|) && (Healthy(c') <==> c.grPos == |content|)
  {}

  /** All Reads of the continuation are at `mark` or behind it. */
  predicate NotBelow(size: nat, mark: int, pos: int, events: seq<Event>)
    decreases |events|
  {
    events != [] ==>
      && (events[0].Read? ==> mark <= pos)
      && NotBelow(size, mark, match events[0] case Seek(o, w) => Sought(size, pos, o, w) case Read(_, d) => Clamp(pos) + |d|,
           events[1..])
  }

  predicate Continues(content: seq<byte>, c: Cursor, events: seq<Event>)
    decreases |events|
  {
    events != [] ==> Legal(content, c, events[0]) && Continues(content, Next(|content|, c, events[0]), events[1..])
  }

  /** Once misled, the handle yields nothing for as long as no Read goes strictly below the believed position. */
  lemma {:induction false} NothingUntilBelow(content: seq<byte>, c: Cursor, events: seq<Event>)
    requires Sound(|content|, c) && !Healthy(c)
    requires Continues(content, c, events) && NotBelow(|content|, c.grPos, c.seekPos, events)
    ensures forall e | e in events && e.Read? :: e.data == []
    decreases |events|
  {
    if events != [] {
      var next := Next(|content|, c, events[0]);
      SoundStep(content, c, events[0]);
      assert next.grPos == c.grPos && next.at == c.at;
      NothingUntilBelow(content, next, events[1..]);
      assert events == [events[0]] + events[1..];
    }
  }

  /** A Read strictly below the believed position starts the stream over and restores agreement. */
  lemma BelowRestores(content: seq<byte>, c: Cursor, room: nat, data: seq<byte>)
    requires Sound(|content|, c) && c.seekPos < c.grPos && CanRead(content, c, room, data)
    ensures PlainReads(content, c.seekPos, room, data)
    ensures Healthy(Next(|content|, c, Read(room, data)))
  {}

  lemma OverRead(content: seq<byte>, past: Event, one: Event)
    requires 0 < |content| < INT64_LIMIT - 1 && past == Seek(1, SEEK_END) && one == Read(1, [])
    ensures Run(content, [past, one]) && After(content, [past, one]) == Cursor(0, |content| + 1, |content|)
  {
    assert Run(content, []);
    RunExtends(content, [], past);
    assert [] + [past] == [past];
    assert Wrap(|content| + 1) == |content| + 1;
    RunExtends(content, [past], one);
    assert [past] + [one] == [past, one];
  }

  lemma BackToStart(content: seq<byte>, before: seq<Event>, c: Cursor)
    requires Run(content, before) && After(content, before) == c
    ensures var back := before + [Seek(0, SEEK_START)];
      Run(content, back) && After(content, back) == c.(seekPos := 0)
  {
    assert Wrap(0) == 0;
    RunExtends(content, before, Seek(0, SEEK_START));
  }

  lemma MisledRun(content: seq<byte>, before: seq<Event>, room: nat)
    requires Run(content, before) && !Trusted(|content|, After(content, before), room)
    ensures exists events :: Run(content, events) && !PlainAnswers(content, events)
  {
    var e := Read(room, []);
    RunIsSound(content, before);
    MisledReadsNothing(content, After(content, before), room, []);
    RunExtends(content, before, e);
    var events := before + [e];
    assert events[..|before|] == before && events[|before|] == e;
  }

  /** Bytes do get lost: look past the end, go back to the start, and a Read answers with nothing. */
  lemma OverReadLosesBytes(content: seq<byte>)
    requires 0 < |content| < INT64_LIMIT - 1
    ensures exists events :: Run(content, events) && !PlainAnswers(content, events)
  {
    var past, one := Seek(1, SEEK_END), Read(1, []);
    OverRead(content, past, one);
    BackToStart(content, [past, one], Cursor(0, |content| + 1, |content|));
    MisledRun(content, [past, one] + [Seek(0, SEEK_START)], 1);
  }

  // ---------- Reading to the end ----------

  /** A Read that the handle is ready for moves the position over the bytes it yields. */
  lemma ReadsOn(content: seq<byte>, c: Cursor, room: nat, data: seq<byte>)
    requires Sound(|content|, c) && (Healthy(c) || c.seekPos < c.grPos) && c.seekPos <= |content|
    requires CanRead(content, c, room, data)
    ensures var c' := Next(|content|, c, Read(room, data));
      var q := Clamp(c.seekPos) + |data|;
      q <= |content| && c' == Cursor(q, q, q)
    ensures data == content[Clamp(c.seekPos)..Clamp(c.seekPos) + |data|]
    ensures data == [] && room > 0 ==> Clamp(c.seekPos) == |content|
  {}

  lemma Joined(content: seq<byte>, from: nat, mid: nat, to: nat)
    requires from <= mid <= to <= |content|
    ensures content[from..mid] + content[mid..to] == content[from..to]
  {}

  // ---------- The stream and the handle as objects ----------

  /** A decompressor: sequential reads that may be short, and a restart. */
  class GzipReader {
    const content: seq<byte>
    var at: nat

    ghost predicate Valid()
      reads this
    {
      at <= |content|
    }

    constructor (content: seq<byte>)
      ensures Valid() && this.content == content && at == 0
    {
      this.content, at := content, 0;
    }

    method Reset()
      modifies this
      ensures Valid() && at == 0
    {
      at := 0;
    }

    method Read(p: array<byte>, room: nat) returns (n: nat, eof: bool)
      requires Valid() && room <= p.Length
      modifies this, p
      ensures Valid() && n <= room && at == old(at) + n
      ensures Serves(content, old(at), room, p[..n]) && p[n..] == old(p[..])[n..]
      ensures eof ==> at == |content|
      ensures old(at) == |content| ==> eof
    {
      var available := if |content| - at < room then |content| - at else room;
      n :| n <= available && (available > 0 ==> n > 0);
      forall i | 0 <= i < n {
        p[i] := content[at + i];
      }
      at := at + n;
      // the end may be reported with the last bytes or by the next call
      var now: bool := *;
      eof := at == |content| && (n == 0 || now);
    }
  }

  const CHUNK := 8192

  /** Reads and drops `count` bytes, or all that are left. */
  method Discard(gr: GzipReader, count: nat) returns (ok: bool)
    requires gr.Valid()
    modifies gr
    ensures gr.Valid()
    ensures ok <==> old(gr.at) + count <= |gr.content|
    ensures gr.at == if ok then old(gr.at) + count else |gr.content|
  {
    var buf := new byte[CHUNK];
    var copied: nat := 0;
    while copied < count
      invariant gr.Valid() && copied <= count && gr.at == old(gr.at) + copied && fresh(buf)
      decreases |gr.content| - gr.at
    {
      var room := if count - copied < CHUNK then count - copied else CHUNK;
      var n, eof := gr.Read(buf, room);
      copied := copied + n;
      if eof && copied < count {
        return false;
      }
    }
    ok := true;
  }

  class CompressedFile {
    const uncompressedSize: nat
    const gr: GzipReader
    var grPos: int
    var seekPos: int

    ghost function Content(): seq<byte> { gr.content }

    ghost function Where(): Cursor
      reads this, gr
    {
      Cursor(grPos, seekPos, gr.at)
    }

    ghost predicate Valid()
      reads this, gr
    {
      && uncompressedSize == |gr.content| < INT64_LIMIT && -INT64_LIMIT <= seekPos < INT64_LIMIT
      && gr.Valid() && Sound(uncompressedSize, Where())
    }

    /** What opening the file gives. */
    constructor (content: seq<byte>)
      requires |content| < INT64_LIMIT
      ensures Valid() && fresh(gr) && Content() == content && Where() == Opened
    {
      uncompressedSize, grPos, seekPos := |content|, 0, 0;
      gr := new GzipReader(content);
    }

    method Read(p: array<byte>) returns (n: nat, eof: bool)
      requires Valid()
      modifies this, gr, p
      ensures Valid() && n <= p.Length
      ensures CanRead(Content(), old(Where()), p.Length, p[..n])
      ensures Where() == Next(uncompressedSize, old(Where()), Event.Read(p.Length, p[..n]))
      ensures p[n..] == old(p[..])[n..]
      ensures eof ==> gr.at == uncompressedSize
      ensures n == 0 && p.Length > 0 ==> eof
    {
      if grPos > seekPos {
        gr.Reset();
        grPos := 0;
      }
      if grPos < seekPos {
        var skipped := Discard(gr, seekPos - grPos);
        if !skipped {
          assert p[..0] == [];
          return 0, true;
        }
        grPos := seekPos;
      }
      n, eof := gr.Read(p, p.Length);
      grPos := grPos + n;
      seekPos := grPos;
    }

    /** Sets the position, counted from the start, from the position or from the end, as 64-bit arithmetic does. */
    method Seek(offset: int, whence: int) returns (pos: int, panics: bool)
      requires Valid() && -INT64_LIMIT <= offset < INT64_LIMIT
      modifies this`seekPos
      ensures Valid() && Where() == Next(uncompressedSize, old(Where()), Event.Seek(offset, whence))
      ensures panics <==> whence !in {0, 1, 2}
      ensures whence == 0 ==> pos == offset
      ensures whence == 1 ==>
        var sum := old(seekPos) + offset;
        if sum >= 0x8000_0000_0000_0000 then pos == sum - 0x1_0000_0000_0000_0000
        else if sum < -0x8000_0000_0000_0000 then pos == sum + 0x1_0000_0000_0000_0000
        else pos == sum
      ensures whence == 2 ==>
        var sum := uncompressedSize + offset;
        if sum >= 0x8000_0000_0000_0000 then pos == sum - 0x1_0000_0000_0000_0000 else pos == sum
      ensures panics ==> pos == old(seekPos)
      ensures pos == seekPos
    {
      panics := false;
      if whence == SEEK_START {
        seekPos := Wrap(0 + offset);
      } else if whence == SEEK_CURRENT {
        seekPos := Wrap(seekPos + offset);
      } else if whence == SEEK_END {
        seekPos := Wrap(uncompressedSize + offset);
      } else {
        panics := true;
      }
      pos := seekPos;
    }
  }

  /** The handle is ready for the bytes at its position: it has not lost track of the stream, or will start over. */
  ghost predicate Ready(f: CompressedFile)
    reads f, f.gr
  {
    f.Valid() && (Healthy(f.Where()) || f.seekPos < f.grPos) && f.seekPos <= f.uncompressedSize
  }

  method ReadNext(f: CompressedFile, buf: array<byte>) returns (n: nat, eof: bool)
    requires Ready(f) && buf.Length > 0
    modifies f, f.gr, buf
    ensures Ready(f) && n <= buf.Length && f.seekPos == Clamp(old(f.seekPos)) + n
    ensures buf[..n] == f.Content()[Clamp(old(f.seekPos))..f.seekPos]
    ensures if eof then f.seekPos == f.uncompressedSize else n > 0
  {
    ghost var c := f.Where();
    n, eof := f.Read(buf);
    ReadsOn(f.Content(), c, buf.Length, buf[..n]);
  }

  /** Reads to the end, buffer after buffer: from a ready handle this gives all that is behind its position. */
  method ReadAll(f: CompressedFile) returns (data: seq<byte>)
    requires Ready(f)
    modifies f, f.gr
    ensures Ready(f) && data == f.Content()[Clamp(old(f.seekPos))..]
  {
    var buf := new byte[CHUNK];
    data := [];
    ghost var from := Clamp(f.seekPos);
    while true
      invariant Ready(f) && fresh(buf) && Clamp(f.seekPos) == from + |data|
      invariant data == f.Content()[from..from + |data|]
      decreases f.uncompressedSize - Clamp(f.seekPos)
    {
      var n, eof := ReadNext(f, buf);
      Joined(f.Content(), from, from + |data|, f.seekPos);
      data := data + buf[..n];
      if eof {
        return;
      }
    }
  }
}
