/** An opened directory: Readdir pages through a fixed list of entries, Seek only rewinds. */
module Directories {
  import opened Types

  datatype Page<T> = Entries(entries: seq<T>) | EndOfFile

  /** How many entries a Readdir takes: all that are left unless fewer were asked for. */
  function Taken(left: nat, count: int): nat {
    if count <= 0 || count > left then left else count
  }

  function PageAt<T>(entries: seq<T>, pos: nat, count: int): Page<T>
    requires pos <= |entries|
  {
    if pos == |entries| && count > 0 then EndOfFile else Entries(entries[pos..pos + Taken(|entries| - pos, count)])
  }

  /** The answers to `counts`, one Readdir after the other, from position `pos`. */
  function Pages<T>(entries: seq<T>, pos: nat, counts: seq<int>): (pages: seq<Page<T>>)
    requires pos <= |entries|
    ensures |pages| == |counts|
    decreases |counts|
  {
    if counts == [] then []
    else
      [PageAt(entries, pos, counts[0])] + Pages(entries, pos + Taken(|entries| - pos, counts[0]), counts[1..])
  }

  /** The position behind those answers. */
  function Behind(size: nat, pos: nat, counts: seq<int>): (r: nat)
    requires pos <= size
    ensures pos <= r <= size
    decreases |counts|
  {
    if counts == [] then pos else Behind(size, pos + Taken(size - pos, counts[0]), counts[1..])
  }

  function Listed<T>(pages: seq<Page<T>>): seq<T> {
    if pages == [] then []
    else (match pages[0] case Entries(es) => es case EndOfFile => []) + Listed(pages[1..])
  }

  /** Whatever the counts, the pages add up to the stretch of entries from the first position to the last: none is
      skipped and none comes twice. */
  lemma {:induction false} PagesAreContiguous<T>(entries: seq<T>, pos: nat, counts: seq<int>)
    requires pos <= |entries|
    ensures Listed(Pages(entries, pos, counts)) == entries[pos..Behind(|entries|, pos, counts)]
    decreases |counts|
  {
    if counts != [] {
      var next := pos + Taken(|entries| - pos, counts[0]);
      PagesAreContiguous(entries, next, counts[1..]);
      var end := Behind(|entries|, next, counts[1..]);
      assert entries[pos..next] + entries[next..end] == entries[pos..end];
    }
  }

  function Sum(counts: seq<int>): int {
    if counts == [] then 0 else counts[0] + Sum(counts[1..])
  }

  /** With positive counts the position is where the counts lead, cut off at the end. */
  lemma {:induction false} PositiveCountsAdd(size: nat, pos: nat, counts: seq<int>)
    requires pos <= size && forall c | c in counts :: c > 0
    ensures Behind(size, pos, counts) == if pos + Sum(counts) <= size then pos + Sum(counts) else size
    ensures Sum(counts) >= 0
    decreases |counts|
  {
    if counts != [] {
      assert counts[0] in counts && forall c | c in counts[1..] :: c in counts;
      PositiveCountsAdd(size, pos + Taken(size - pos, counts[0]), counts[1..]);
    }
  }

  /** What one Readdir answers, and where it leaves the position: all that is left for a count at or below zero, also
      when that is nothing; end-of-file at the end for a positive count; otherwise that many, or all that are left. */
  lemma OnePage<T>(entries: seq<T>, pos: nat, count: int)
    requires pos <= |entries|
    ensures var page, end := Pages(entries, pos, [count])[0], Behind(|entries|, pos, [count]);
      if count <= 0 then page == Entries(entries[pos..]) && end == |entries|
      else if pos == |entries| then page == EndOfFile && end == pos
      else if count < |entries| - pos then page == Entries(entries[pos..pos + count]) && end == pos + count
      else page == Entries(entries[pos..]) && end == |entries|
  {
    assert [count][1..] == [];
  }

  /** One count at or below zero anywhere brings the position to the end. */
  lemma {:induction false} AnyRestEnds(size: nat, pos: nat, counts: seq<int>, i: nat)
    requires pos <= size && i < |counts| && counts[i] <= 0
    ensures Behind(size, pos, counts) == size
    decreases i
  {
    var next := pos + Taken(size - pos, counts[0]);
    if i > 0 {
      AnyRestEnds(size, next, counts[1..], i - 1);
    } else {
      AtEndStays(size, counts[1..]);
    }
  }

  lemma {:induction false} AtEndStays(size: nat, counts: seq<int>)
    ensures Behind(size, size, counts) == size
    decreases |counts|
  {
    if counts != [] {
      AtEndStays(size, counts[1..]);
    }
  }

  /** The call after `counts` with a positive count is answered with end-of-file exactly when every entry was
      listed; otherwise it lists at least one more. */
  lemma {:induction false} EndExactlyAfterAll<T>(entries: seq<T>, pos: nat, counts: seq<int>, count: int)
    requires pos <= |entries| && count > 0
    ensures var last := Pages(entries, pos, counts + [count])[|counts|];
      && (last.EndOfFile? <==> Listed(Pages(entries, pos, counts)) == entries[pos..])
      && (last.Entries? ==> last.entries != [])
    decreases |counts|
  {
    PagesAreContiguous(entries, pos, counts);
    LastPage(entries, pos, counts, count);
    var end := Behind(|entries|, pos, counts);
    assert |entries[pos..end]| == end - pos && |entries[pos..]| == |entries| - pos;
  }

  lemma {:induction false} LastPage<T>(entries: seq<T>, pos: nat, counts: seq<int>, count: int)
    requires pos <= |entries| && count > 0
    ensures var last := Pages(entries, pos, counts + [count])[|counts|];
      var end := Behind(|entries|, pos, counts);
      last == PageAt(entries, end, count)
    decreases |counts|
  {
    if counts != [] {
      LastPage(entries, pos + Taken(|entries| - pos, counts[0]), counts[1..], count);
      assert (counts + [count])[1..] == counts[1..] + [count];
    }
  }

  class Dir<T(0)> {
    const entries: seq<T>
    var pos: int

    ghost predicate Valid()
      reads this
    {
      0 <= pos <= |entries|
    }

    constructor (entries: seq<T>)
      ensures Valid() && this.entries == entries && pos == 0
    {
      this.entries, pos := entries, 0;
    }

    method Seek(offset: int, whence: int) returns (r: Result<int>)
      requires Valid()
      modifies this`pos
      ensures Valid()
      ensures if offset == 0 && whence == 0 then r == Ok(0) && pos == 0 else r.Err? && pos == old(pos)
    {
      if offset == 0 && whence == 0 {
        pos := 0;
        return Ok(0);
      }
      return Err("unsupported Seek in directory");
    }

    method Readdir(count: int) returns (page: Page<T>)
      requires Valid()
      modifies this`pos
      ensures Valid() && page == PageAt(entries, old(pos), count)
      ensures pos == old(pos) + Taken(|entries| - old(pos), count)
      ensures count <= 0 ==> page == Entries(entries[old(pos)..]) && pos == |entries|
      ensures count > 0 && old(pos) == |entries| ==> page == EndOfFile && pos == old(pos)
      ensures count > 0 && old(pos) < |entries| ==>
        && page == Entries(entries[old(pos)..pos])
        && pos == if old(pos) + count < |entries| then old(pos) + count else |entries|
    {
      if pos >= |entries| && count > 0 {
        return EndOfFile;
      }
      var count := count;
      if count <= 0 || count > |entries| - pos {
        count := |entries| - pos;
      }
      page := Entries(entries[pos..pos + count]);
      pos := pos + count;
    }
  }

  /** Reads page after page until end-of-file: every entry is listed once, in order, from the first position on. */
  method ReadAll<T(0)>(d: Dir<T>, count: int) returns (all: seq<T>)
    requires d.Valid() && count > 0
    modifies d
    ensures d.Valid() && d.pos == |d.entries|
    ensures all == d.entries[old(d.pos)..]
  {
    all := [];
    ghost var from := d.pos;
    while true
      invariant d.Valid() && d.pos == from + |all| && all == d.entries[from..d.pos]
      decreases |d.entries| - d.pos
    {
      ghost var at := d.pos;
      var page := d.Readdir(count);
      if page.EndOfFile? {
        return;
      }
      assert d.entries[from..at] + d.entries[at..d.pos] == d.entries[from..d.pos];
      all := all + page.entries;
    }
  }
}
