/** Which printed texts can be read in one way only, when paths may be anything. */
module CloudInitUnique {
  import opened Types
  import opened CloudInit

  // ---------- The lines of a text, for any paths ----------

  /** The lines of a path behind its key word. */
  function Spread(word: string, path: string): seq<string> { Lines(word + path) }

  function TailLine(f: File, i: nat): string
    requires i < 6
  {
    if i < 5 then FileLines(f)[i + 1] else ""
  }

  /** The lines behind a path. */
  function Tail(f: File): (tail: seq<string>)
    ensures |tail| == 6
  {
    seq(6, i requires 0 <= i < 6 => TailLine(f, i))
  }

  function FilesSpread(files: seq<File>): seq<string> {
    if files == [] then [] else Spread(PATH, files[0].path) + Tail(files[0]) + FilesSpread(files[1..])
  }

  function CommandsSpread(paths: seq<string>): seq<string> {
    if paths == [] then [] else Spread(SUDO, paths[0]) + [""] + CommandsSpread(paths[1..])
  }

  function Expanded(lines: seq<string>): seq<string> {
    if lines == [] then [] else Lines(lines[0]) + Expanded(lines[1..])
  }

  lemma Reassociate<T>(a: seq<T>, b: seq<T>, c: seq<T>, d: seq<T>)
    ensures a + b + c + d == a + (b + c + d)
  {}

  lemma {:induction false} LinesOfBlock(a: string, lines: seq<string>)
    ensures Lines(a + Block(lines)) == Lines(a) + (Expanded(lines) + [""])
    decreases |lines|
  {
    if lines == [] {
      LinesJoin(a, "");
      assert a + NEWLINE + "" == a + Block(lines);
    } else {
      LinesJoin(a, lines[0]);
      LinesOfBlock(a + NEWLINE + lines[0], lines[1..]);
      Reassociate(a, NEWLINE, lines[0], Block(lines[1..]));
      Reassociate(Lines(a), Lines(lines[0]), Expanded(lines[1..]), [""]);
    }
  }

  function AllExpanded(blocks: seq<seq<string>>): seq<string> {
    if blocks == [] then [] else Expanded(blocks[0]) + [""] + AllExpanded(blocks[1..])
  }

  lemma {:induction false} AllExpandedMore(blocks: seq<seq<string>>, last: seq<string>)
    ensures AllExpanded(blocks + [last]) == AllExpanded(blocks) + (Expanded(last) + [""])
    decreases |blocks|
  {
    if blocks == [] {
      assert blocks + [last] == [last] && [last][1..] == [];
    } else {
      AllExpandedMore(blocks[1..], last);
      assert (blocks + [last])[1..] == blocks[1..] + [last];
    }
  }

  lemma {:induction false} LinesOfDocument(blocks: seq<seq<string>>)
    ensures Lines(Document(blocks)) == [""] + AllExpanded(blocks)
    decreases |blocks|
  {
    if blocks != [] {
      var front, last := blocks[..|blocks| - 1], blocks[|blocks| - 1];
      LinesOfDocument(front);
      LinesOfBlock(Document(front), last);
      AllExpandedMore(front, last);
      assert front + [last] == blocks;
    }
  }

  lemma {:induction false} AllExpandedJoin(x: seq<seq<string>>, y: seq<seq<string>>)
    ensures AllExpanded(x + y) == AllExpanded(x) + AllExpanded(y)
    decreases |x|
  {
    if x == [] {
      assert x + y == y;
    } else {
      AllExpandedJoin(x[1..], y);
      assert (x + y)[1..] == x[1..] + y;
    }
  }

  lemma {:induction false} ExpandedOneLine(lines: seq<string>)
    requires forall l | l in lines :: OneLine(l)
    ensures Expanded(lines) == lines
    decreases |lines|
  {
    if lines != [] {
      LinesOfOne(lines[0]);
      ExpandedOneLine(lines[1..]);
      assert [lines[0]] + lines[1..] == lines;
    }
  }

  lemma TailLines(f: File)
    ensures FileLines(f)[1..] + [""] == Tail(f)
  {}

  lemma ExpandedFirst(lines: seq<string>, last: seq<string>)
    requires lines != [] && forall l | l in lines[1..] :: OneLine(l)
    ensures Expanded(lines) + last == Lines(lines[0]) + (lines[1..] + last)
  {
    ExpandedOneLine(lines[1..]);
  }

  lemma FileExpanded(f: File)
    requires OneLine(f.permissions)
    ensures Expanded(FileLines(f)) + [""] == Spread(PATH, f.path) + Tail(f)
  {
    FileLinesClean(f.(path := ""));
    assert forall l | l in FileLines(f)[1..] :: l in FileLines(f.(path := ""));
    ExpandedFirst(FileLines(f), [""]);
    TailLines(f);
  }

  lemma {:induction false} FilesExpanded(files: seq<File>)
    requires forall f | f in files :: OneLine(f.permissions)
    ensures AllExpanded(FileBlocks(files)) == FilesSpread(files)
    decreases |files|
  {
    if files != [] {
      FileExpanded(files[0]);
      FilesExpanded(files[1..]);
      assert FileBlocks(files)[1..] == FileBlocks(files[1..]);
    }
  }

  lemma {:induction false} CommandsExpanded(paths: seq<string>)
    ensures AllExpanded(CommandBlocks(paths)) == CommandsSpread(paths)
    decreases |paths|
  {
    if paths != [] {
      CommandsExpanded(paths[1..]);
      assert CommandBlocks(paths)[1..] == CommandBlocks(paths[1..]);
      assert Expanded([SUDO + paths[0]]) == Lines(SUDO + paths[0]) + Expanded([]);
    }
  }

  /** The lines in front of "runcmd:", and those behind it. */
  function Before(files: seq<File>): seq<string> { ["", MAGIC, FILES, ""] + FilesSpread(files) }
  function Behind(paths: seq<string>): seq<string> { [""] + CommandsSpread(paths) }

  lemma AllExpandedOne(lines: seq<string>)
    ensures AllExpanded([lines]) == Expanded(lines) + [""]
  {
    AllExpandedMore([], lines);
    assert [] + [lines] == [lines];
  }

  lemma FourParts(a: seq<string>, b: seq<string>, c: seq<string>, d: seq<string>, e: seq<string>)
    ensures a + (b + c + d + e) == a + b + c + d + e
  {}

  lemma LinesOfParts(head: seq<string>, fs: seq<seq<string>>, commands: seq<string>, cs: seq<seq<string>>)
    ensures Lines(Document([head] + fs + [commands] + cs)) ==
      [""] + (Expanded(head) + [""]) + AllExpanded(fs) + (Expanded(commands) + [""]) + AllExpanded(cs)
  {
    LinesOfDocument([head] + fs + [commands] + cs);
    AllExpandedJoin([head] + fs + [commands], cs);
    AllExpandedMore([head] + fs, commands);
    AllExpandedJoin([head], fs);
    AllExpandedOne(head);
    FourParts([""], Expanded(head) + [""], AllExpanded(fs), Expanded(commands) + [""], AllExpanded(cs));
  }

  lemma Regrouped(b: string, c: string, d: seq<string>, e: string, f: seq<string>)
    ensures [""] + ([b, c] + [""]) + d + ([e] + [""]) + f == (["", b, c, ""] + d) + [e] + ([""] + f)
  {}

  lemma LinesOfText(config: Config)
    requires forall f | f in config.files :: OneLine(f.permissions)
    ensures Lines(Render(config)) == Before(config.files) + [COMMANDS] + Behind(config.commands)
  {
    LinesOfParts([MAGIC, FILES], FileBlocks(config.files), [COMMANDS], CommandBlocks(config.commands));
    FilesExpanded(config.files);
    CommandsExpanded(config.commands);
    WordsOnTheirOwn();
    Regrouped(MAGIC, FILES, FilesSpread(config.files), COMMANDS, CommandsSpread(config.commands));
  }

  lemma OneOnItsOwn(word: string)
    requires OneLine(word)
    ensures Expanded([word]) == [word]
  {
    ExpandedOneLine([word]);
  }

  lemma TwoOnTheirOwn(word: string, other: string)
    requires OneLine(word) && OneLine(other)
    ensures Expanded([word, other]) == [word, other]
  {
    ExpandedOneLine([word, other]);
  }

  lemma WordsOnTheirOwn()
    ensures Expanded([MAGIC, FILES]) == [MAGIC, FILES] && Expanded([COMMANDS]) == [COMMANDS]
  {
    HeadWords();
    TwoOnTheirOwn(MAGIC, FILES);
    OneOnItsOwn(COMMANDS);
  }

  lemma HeadWords()
    ensures OneLine(MAGIC) && OneLine(FILES) && OneLine(COMMANDS)
  {}

  // ---------- Words at the front of a line ----------

  predicate Starts(word: string, line: string) { word <= line }

  /** A line break in a path shows as lines of its own. */
  lemma {:induction false} SpreadOfPath(word: string, path: string)
    requires OneLine(word)
    ensures Spread(word, path) == [word + Lines(path)[0]] + Lines(path)[1..]
    decreases |word|
  {
    if word == "" {
      assert word + path == path && word + Lines(path)[0] == Lines(path)[0];
    } else {
      SpreadOfPath(word[1..], path);
      assert (word + path)[1..] == word[1..] + path;
      assert [word[0]] + (word[1..] + Lines(path)[0]) == word + Lines(path)[0];
    }
  }

  lemma {:induction false} OneLineExactly(path: string)
    ensures OneLine(path) <==> |Lines(path)| == 1
    decreases |path|
  {
    if path != "" {
      OneLineExactly(path[1..]);
    }
  }

  lemma Words()
    ensures OneLine(PATH) && OneLine(SUDO)
  {}

  /** No line of a file begins like a command, and only the permissions begin like permissions. */
  lemma TailWords(f: File)
    ensures Tail(f)[0] == PERMISSIONS + (f.permissions + QUOTE) && Starts(PERMISSIONS, Tail(f)[0])
    ensures forall l | l in Tail(f) :: !Starts(SUDO, l) && l != COMMANDS
    ensures forall i | 0 < i < 6 :: !Starts(PERMISSIONS, Tail(f)[i])
  {
    var t := Tail(f);
    assert t[0][0] == ' ' && t[1][0] == ' ' && t[2][0] == ' ' && t[3][0] == ' ' && t[4][0] == ' ';
    assert t[0][1] == ' ' && t[1][1] == ' ' && t[2][1] == ' ' && t[3][1] == ' ' && t[4][1] == ' ';
    assert t[1][2] == 'e' && t[2][2] == 'o' && t[3][2] == 'c' && t[4][2] == ' ';
    assert SUDO[1] == '-' && PERMISSIONS[2] == 'p' && COMMANDS[0] == 'r';
  }

  // ---------- The lines of one-line paths ----------

  /** No line in front of "runcmd:" begins like a command, and permissions come right behind a path. */
  predicate Orderly(lines: seq<string>) {
    && (forall l | l in lines :: !Starts(SUDO, l) && l != COMMANDS)
    && (forall i | 0 < i < |lines| && Starts(PERMISSIONS, lines[i]) :: Starts(PATH, lines[i - 1]))
    && (lines != [] ==> !Starts(PERMISSIONS, lines[0]))
  }

  lemma OrderlyJoin(x: seq<string>, y: seq<string>)
    requires Orderly(x) && Orderly(y)
    ensures Orderly(x + y)
  {}

  predicate OneLiners(files: seq<File>) {
    forall f | f in files :: OneLine(f.path) && OneLine(f.permissions)
  }

  lemma PathLine(path: string)
    requires OneLine(path)
    ensures Spread(PATH, path) == [PATH + path]
    ensures !Starts(SUDO, PATH + path) && !Starts(PERMISSIONS, PATH + path) && PATH + path != COMMANDS
    ensures Starts(PATH, PATH + path)
  {
    Words();
    LinesOfOne(PATH + path);
    assert (PATH + path)[0] == '-' && SUDO[0] == ' ' && PERMISSIONS[0] == ' ' && COMMANDS[0] == 'r';
  }

  lemma FileOrderly(path: string, lines: seq<string>, tail: seq<string>)
    requires lines == [path] && !Starts(SUDO, path) && !Starts(PERMISSIONS, path) && path != COMMANDS && Starts(PATH, path)
    requires |tail| == 6 && (forall l | l in tail :: !Starts(SUDO, l) && l != COMMANDS)
    requires forall i | 0 < i < 6 :: !Starts(PERMISSIONS, tail[i])
    ensures Orderly(lines + tail)
  {}

  lemma {:induction false} FilesOrderly(files: seq<File>)
    requires OneLiners(files)
    ensures Orderly(FilesSpread(files))
    decreases |files|
  {
    if files != [] {
      var f := files[0];
      PathLine(f.path);
      TailWords(f);
      FileOrderly(PATH + f.path, Spread(PATH, f.path), Tail(f));
      FilesOrderly(files[1..]);
      OrderlyJoin(Spread(PATH, f.path) + Tail(f), FilesSpread(files[1..]));
    }
  }

  lemma HeadOrderly()
    ensures Orderly(["", MAGIC, FILES, ""])
  {
    assert MAGIC[0] == '#' && FILES[0] == 'w' && SUDO[0] == ' ' && PERMISSIONS[0] == ' ' && COMMANDS[0] == 'r';
  }

  lemma BeforeOrderly(files: seq<File>)
    requires OneLiners(files)
    ensures Orderly(Before(files))
  {
    HeadOrderly();
    FilesOrderly(files);
    OrderlyJoin(["", MAGIC, FILES, ""], FilesSpread(files));
  }

  /** Behind "runcmd:" there are commands and blank lines. */
  predicate Commanding(lines: seq<string>) {
    forall l | l in lines :: (l == "" || Starts(SUDO, l)) && l != COMMANDS
  }

  lemma CommandLine(path: string)
    requires OneLine(path)
    ensures Spread(SUDO, path) == [SUDO + path] && SUDO + path != COMMANDS
  {
    Words();
    LinesOfOne(SUDO + path);
    assert (SUDO + path)[0] == ' ' && COMMANDS[0] == 'r';
  }

  lemma {:induction false} CommandsCommanding(paths: seq<string>)
    requires forall p | p in paths :: OneLine(p)
    ensures Commanding(CommandsSpread(paths))
    decreases |paths|
  {
    if paths != [] {
      CommandLine(paths[0]);
      CommandsCommanding(paths[1..]);
    }
  }

  const DATA_LINE := PERMISSIONS + (DATA_MODE + QUOTE)

  function DataFiles(files: seq<File>): nat {
    if files == [] then 0 else (if files[0].permissions == DATA_MODE then 1 else 0) + DataFiles(files[1..])
  }

  lemma SixCounts(t: seq<string>, line: string)
    requires |t| == 6 && forall i | 0 < i < 6 :: t[i] != line
    ensures multiset(t)[line] == if t[0] == line then 1 else 0
  {
    assert t == [t[0]] + t[1..] && line !in t[1..];
    assert multiset(t) == multiset([t[0]]) + multiset(t[1..]);
  }

  lemma ModeLines()
    ensures PERMISSIONS + (RUN_MODE + QUOTE) != DATA_LINE && Starts(PERMISSIONS, DATA_LINE)
  {
    assert (PERMISSIONS + (RUN_MODE + QUOTE))[|PERMISSIONS|..] == RUN_MODE + QUOTE;
    assert DATA_LINE[|PERMISSIONS|..] == DATA_MODE + QUOTE;
    assert (RUN_MODE + QUOTE)[1] == '7' && (DATA_MODE + QUOTE)[1] == '6';
  }

  lemma TailCounts(f: File)
    ensures f.permissions == DATA_MODE ==> multiset(Tail(f))[DATA_LINE] == 1
    ensures f.permissions == RUN_MODE ==> multiset(Tail(f))[DATA_LINE] == 0
  {
    TailWords(f);
    ModeLines();
    SixCounts(Tail(f), DATA_LINE);
  }

  /** Every file of data shows its permissions; with one-line paths nothing else looks like them. */
  lemma {:induction false} DataLines(files: seq<File>)
    requires forall f | f in files :: f.permissions == DATA_MODE || f.permissions == RUN_MODE
    ensures multiset(FilesSpread(files))[DATA_LINE] >= DataFiles(files)
    ensures (forall f | f in files :: OneLine(f.path)) ==> multiset(FilesSpread(files))[DATA_LINE] == DataFiles(files)
    decreases |files|
  {
    if files != [] {
      var f := files[0];
      TailCounts(f);
      DataLines(files[1..]);
      if OneLine(f.path) {
        PathLine(f.path);
        assert Starts(PERMISSIONS, DATA_LINE);
      }
    }
  }

  // ---------- Paths that print the same lines are one-line too ----------

  lemma SameParts(p: seq<string>, q: seq<string>, p': seq<string>, q': seq<string>, mid: string)
    requires p + [mid] + q == p' + [mid] + q' && mid !in p && mid !in q
    ensures p == p' && q == q'
  {
    var all := p + [mid] + q;
    assert all[|p'|] == mid && all[|p|] == mid;
    assert forall i | 0 <= i < |all| && i != |p| :: all[i] in p + q;
    assert p == all[..|p|] && q == all[|p| + 1..];
    assert p' == all[..|p'|] && q' == all[|p'| + 1..];
  }

  function Last(lines: seq<string>): string
    requires lines != []
  {
    lines[|lines| - 1]
  }

  lemma SpreadEnds(path: string)
    ensures Spread(PATH, path) != [] && Spread(SUDO, path) != [] && Last(Spread(PATH, path)) in Spread(PATH, path)
    ensures Last(Spread(SUDO, path)) in Spread(SUDO, path)
    ensures OneLine(path) || Last(Spread(PATH, path)) == Last(Spread(SUDO, path))
  {
    Words();
    SpreadOfPath(PATH, path);
    SpreadOfPath(SUDO, path);
    OneLineExactly(path);
  }

  /** The path of a file that is run shows on both sides. */
  lemma RunPathIsOneLine(before: seq<string>, behind: seq<string>, x: seq<string>, f: File, y: seq<string>)
    requires Orderly(before) && Commanding(behind)
    requires before == x + (Spread(PATH, f.path) + Tail(f)) + y
    requires forall l | l in Spread(SUDO, f.path) :: l in behind
    ensures OneLine(f.path)
  {
    SpreadEnds(f.path);
    TailWords(f);
    var j := |x| + |Spread(PATH, f.path)|;
    assert before[j] == Tail(f)[0] && before[j - 1] == Last(Spread(PATH, f.path));
    assert before[j - 1] in before && Starts(PATH, before[j - 1]);
  }

  /** Where a first file puts `line` right behind its path and the lines are the same, another first file that shows
      `line` once more cannot have spread its path over several lines. */
  lemma FirstSpreadIsOneLine(first: string, t: seq<string>, rest: seq<string>,
                             spread: seq<string>, u: seq<string>, rest': seq<string>, line: string)
    requires [first] + t + rest == spread + u + rest' && t != [] && t[0] == line
    requires line in u && multiset(spread + u + rest')[line] <= 1
    ensures |spread| <= 1
  {
    assert ([first] + t + rest)[1] == line;
    SecondLine(spread, u + rest');
    assert spread + u + rest' == spread + (u + rest');
  }

  lemma SecondLine(spread: seq<string>, rest: seq<string>)
    requires |spread + rest| > 1
    ensures |spread| > 1 ==> (spread + rest)[1] in spread
  {}

  // ---------- Whole maps ----------

  lemma {:induction false} FileAt(files: seq<File>, i: nat) returns (x: seq<string>, y: seq<string>)
    requires i < |files|
    ensures FilesSpread(files) == x + (Spread(PATH, files[i].path) + Tail(files[i])) + y
    ensures i == 0 ==> x == []
    decreases i
  {
    if i == 0 {
      x, y := [], FilesSpread(files[1..]);
    } else {
      x, y := FileAt(files[1..], i - 1);
      Reassociate(Spread(PATH, files[0].path) + Tail(files[0]), x, Spread(PATH, files[i].path) + Tail(files[i]), y);
      x := Spread(PATH, files[0].path) + Tail(files[0]) + x;
    }
  }

  lemma {:induction false} CommandShows(paths: seq<string>, path: string)
    requires path in paths
    ensures forall l | l in Spread(SUDO, path) :: l in CommandsSpread(paths)
    decreases |paths|
  {
    if paths[0] != path {
      CommandShows(paths[1..], path);
    }
  }

  lemma {:induction false} DataFilesJoin(x: seq<File>, y: seq<File>)
    ensures DataFiles(x + y) == DataFiles(x) + DataFiles(y)
    decreases |x|
  {
    if x == [] {
      assert x + y == y;
    } else {
      DataFilesJoin(x[1..], y);
      assert (x + y)[1..] == x[1..] + y;
    }
  }

  lemma {:induction false} DataFilesOf(files: seq<File>, mode: string)
    requires forall f | f in files :: f.permissions == mode
    ensures DataFiles(files) == if mode == DATA_MODE then |files| else 0
    decreases |files|
  {
    if files != [] {
      DataFilesOf(files[1..], mode);
    }
  }

  lemma Modes()
    ensures OneLine(DATA_MODE) && OneLine(RUN_MODE) && DATA_MODE != RUN_MODE
  {
    assert DATA_MODE[2] != RUN_MODE[2];
  }

  /** What a pair of maps prints, in some orders. */
  ghost predicate PrintsAs(config: Config, data: map<string, seq<byte>>, run: map<string, seq<byte>>) {
    exists dataOrder, runOrder, commandOrder ::
      && Enumerates(dataOrder, data.Keys) && Enumerates(runOrder, run.Keys) && Enumerates(commandOrder, run.Keys)
      && config == Printed(data, run, dataOrder, runOrder, commandOrder)
  }

  lemma PrintedConfig(text: string, data: map<string, seq<byte>>, run: map<string, seq<byte>>) returns (config: Config)
    requires Prints(text, data, run)
    ensures PrintsAs(config, data, run) && text == Render(config)
  {
    var dataOrder, runOrder, commandOrder :|
      && Enumerates(dataOrder, data.Keys)
      && Enumerates(runOrder, run.Keys) && Enumerates(commandOrder, run.Keys)
      && text == Render(Printed(data, run, dataOrder, runOrder, commandOrder));
    config := Printed(data, run, dataOrder, runOrder, commandOrder);
  }

  /** The files of one map, in order. */
  lemma FilesOfShape(data: map<string, seq<byte>>, order: seq<string>, mode: string)
    requires Enumerates(order, data.Keys)
    ensures var files := FilesOf(data, order, mode);
      && |files| == |data|
      && (forall i | 0 <= i < |files| :: files[i].permissions == mode && files[i].path in data)
      && (forall k | k in data :: exists i | 0 <= i < |files| :: files[i].path == k)
  {
    EnumeratesAsMany(order, data.Keys);
    var files := FilesOf(data, order, mode);
    forall i | 0 <= i < |files| ensures files[i].path in data {
      assert order[i] in order;
    }
    forall k | k in data ensures exists i | 0 <= i < |files| :: files[i].path == k {
      var i :| 0 <= i < |order| && order[i] == k;
      assert files[i].path == k;
    }
  }

  /** What the files and commands of a printed pair of maps look like. */
  lemma ConfigShape(config: Config, data: map<string, seq<byte>>, run: map<string, seq<byte>>)
    returns (x: seq<File>, y: seq<File>)
    requires PrintsAs(config, data, run)
    ensures config.files == x + y && |x| == |data| && |y| == |run|
    ensures forall i | 0 <= i < |x| :: x[i].permissions == DATA_MODE && x[i].path in data
    ensures forall i | 0 <= i < |y| :: y[i].permissions == RUN_MODE && y[i].path in run
    ensures forall k | k in data :: exists i | 0 <= i < |x| :: x[i].path == k
    ensures forall k | k in run :: exists i | 0 <= i < |y| :: y[i].path == k
    ensures forall k :: k in config.commands <==> k in run
  {
    var dataOrder, runOrder, commandOrder :|
      && Enumerates(dataOrder, data.Keys) && Enumerates(runOrder, run.Keys) && Enumerates(commandOrder, run.Keys)
      && config == Printed(data, run, dataOrder, runOrder, commandOrder);
    x, y := FilesOf(data, dataOrder, DATA_MODE), FilesOf(run, runOrder, RUN_MODE);
    FilesOfShape(data, dataOrder, DATA_MODE);
    FilesOfShape(run, runOrder, RUN_MODE);
  }

  lemma DataCount(x: seq<File>, y: seq<File>)
    requires forall f | f in x :: f.permissions == DATA_MODE
    requires forall f | f in y :: f.permissions == RUN_MODE
    ensures multiset(FilesSpread(x + y))[DATA_LINE] >= |x|
    ensures (forall f | f in x + y :: OneLine(f.path)) ==> multiset(FilesSpread(x + y))[DATA_LINE] == |x|
  {
    Modes();
    DataFilesJoin(x, y);
    DataFilesOf(x, DATA_MODE);
    DataFilesOf(y, RUN_MODE);
    DataLines(x + y);
  }

  predicate OneLineKeys(data: map<string, seq<byte>>, run: map<string, seq<byte>>) {
    forall k | k in data.Keys + run.Keys :: OneLine(k)
  }

  /** The lines in front of and behind "runcmd:" that one-line maps print are all that another pair of maps with the
      same text can print there. */
  lemma SameLines(a: Config, b: Config)
    requires OneLiners(a.files) && (forall p | p in a.commands :: OneLine(p))
    requires (forall f | f in b.files :: OneLine(f.permissions)) && Render(a) == Render(b)
    ensures Before(a.files) == Before(b.files) && Behind(a.commands) == Behind(b.commands)
    ensures FilesSpread(a.files) == FilesSpread(b.files)
    ensures Orderly(Before(a.files)) && Commanding(Behind(a.commands))
  {
    LinesOfText(a);
    LinesOfText(b);
    BeforeOrderly(a.files);
    CommandsCommanding(a.commands);
    assert Commanding(Behind(a.commands));
    SameParts(Before(a.files), Behind(a.commands), Before(b.files), Behind(b.commands), COMMANDS);
    assert FilesSpread(a.files) == Before(a.files)[4..] && FilesSpread(b.files) == Before(b.files)[4..];
  }

  lemma RunKeysAreOneLine(b: Config, i: nat)
    requires Orderly(Before(b.files)) && Commanding(Behind(b.commands))
    requires i < |b.files| && b.files[i].path in b.commands
    ensures OneLine(b.files[i].path)
  {
    var x, y := FileAt(b.files, i);
    CommandShows(b.commands, b.files[i].path);
    var head := ["", MAGIC, FILES, ""];
    Reassociate(head, x, Spread(PATH, b.files[i].path) + Tail(b.files[i]), y);
    RunPathIsOneLine(Before(b.files), Behind(b.commands), head + x, b.files[i], y);
  }

  /** The first file of data: its path, its permissions, and the rest. */
  lemma FirstData(files: seq<File>, line: string) returns (t: seq<string>, rest: seq<string>)
    requires files != [] && files[0].permissions == DATA_MODE && line == DATA_LINE
    ensures FilesSpread(files) == Spread(PATH, files[0].path) + t + rest && t != [] && t[0] == line
  {
    TailWords(files[0]);
    t, rest := Tail(files[0]), FilesSpread(files[1..]);
  }

  lemma SpreadIsOneLine(path: string)
    ensures |Spread(PATH, path)| <= 1 <==> OneLine(path)
    ensures Spread(PATH, path) != []
  {
    Words();
    SpreadOfPath(PATH, path);
    OneLineExactly(path);
  }

  lemma FirstDataIsOneLine(a: seq<File>, b: seq<File>, line: string)
    requires a != [] && a[0].permissions == DATA_MODE && OneLine(a[0].path) && line == DATA_LINE
    requires b != [] && b[0].permissions == DATA_MODE && FilesSpread(a) == FilesSpread(b)
    requires multiset(FilesSpread(b))[line] <= 1
    ensures OneLine(b[0].path)
  {
    var t, rest := FirstData(a, line);
    var u, rest' := FirstData(b, line);
    var spread, spread' := Spread(PATH, a[0].path), Spread(PATH, b[0].path);
    SpreadIsOneLine(a[0].path);
    SpreadIsOneLine(b[0].path);
    assert spread == [spread[0]];
    FirstSpreadIsOneLine(spread[0], t, rest, spread', u, rest', line);
  }

  lemma DataKeyIsOneLine(a: seq<File>, b: seq<File>, x: seq<File>, y: seq<File>, u: seq<File>, v: seq<File>)
    requires OneLiners(a) && FilesSpread(a) == FilesSpread(b) && |x| <= 1 && a == x + y && b == u + v
    requires (forall f | f in x :: f.permissions == DATA_MODE) && (forall f | f in u :: f.permissions == DATA_MODE)
    requires (forall f | f in y :: f.permissions == RUN_MODE) && (forall f | f in v :: f.permissions == RUN_MODE)
    ensures |u| <= 1 && forall f | f in u :: OneLine(f.path)
  {
    DataCount(x, y);
    DataCount(u, v);
    if u != [] {
      assert a[0] == x[0] && b[0] == u[0];
      FirstDataIsOneLine(a, b, DATA_LINE);
      assert u == [u[0]];
    }
  }

  lemma ConfigParts(config: Config, data: map<string, seq<byte>>, run: map<string, seq<byte>>)
    returns (x: seq<File>, y: seq<File>)
    requires PrintsAs(config, data, run)
    ensures config.files == x + y && |x| == |data|
    ensures (forall f | f in x :: f.permissions == DATA_MODE) && (forall f | f in y :: f.permissions == RUN_MODE)
    ensures forall f | f in y :: f.path in config.commands
    ensures OneLineKeys(data, run) <==> forall f | f in x + y :: OneLine(f.path)
    ensures OneLineKeys(data, run) ==> forall p | p in config.commands :: OneLine(p)
  {
    x, y := ConfigShape(config, data, run);
    if forall f | f in x + y :: OneLine(f.path) {
      forall k | k in data ensures OneLine(k) {
        var i :| 0 <= i < |x| && x[i].path == k;
        assert x[i] in x + y;
      }
      forall k | k in run ensures OneLine(k) {
        var i :| 0 <= i < |y| && y[i].path == k;
        assert y[i] in x + y;
      }
    }
  }

  /** With at most one file of data, every pair of maps that prints the same text has one-line keys. */
  lemma OthersAreOneLine(text: string, a: map<string, seq<byte>>, aRun: map<string, seq<byte>>,
                         b: map<string, seq<byte>>, bRun: map<string, seq<byte>>)
    requires Prints(text, a, aRun) && Prints(text, b, bRun) && OneLineKeys(a, aRun) && |a| <= 1
    ensures OneLineKeys(b, bRun)
  {
    var ca := PrintedConfig(text, a, aRun);
    var cb := PrintedConfig(text, b, bRun);
    var x, y := ConfigParts(ca, a, aRun);
    var u, v := ConfigParts(cb, b, bRun);
    Modes();
    ShapesAreOneLine(ca, cb, x, y, u, v);
  }

  lemma ShapesAreOneLine(a: Config, b: Config, x: seq<File>, y: seq<File>, u: seq<File>, v: seq<File>)
    requires a.files == x + y && b.files == u + v && Render(a) == Render(b) && |x| <= 1
    requires OneLiners(a.files) && (forall p | p in a.commands :: OneLine(p))
    requires (forall f | f in x :: f.permissions == DATA_MODE) && (forall f | f in u :: f.permissions == DATA_MODE)
    requires (forall f | f in y :: f.permissions == RUN_MODE) && (forall f | f in v :: f.permissions == RUN_MODE)
    requires forall f | f in v :: f.path in b.commands
    ensures forall f | f in u + v :: OneLine(f.path)
  {
    Modes();
    SameLines(a, b);
    DataKeyIsOneLine(a.files, b.files, x, y, u, v);
    forall i | 0 <= i < |v| ensures OneLine(v[i].path) {
      RunFileIsOneLine(b, u, v, i);
    }
  }

  lemma RunFileIsOneLine(b: Config, u: seq<File>, v: seq<File>, i: nat)
    requires Orderly(Before(b.files)) && Commanding(Behind(b.commands)) && b.files == u + v
    requires i < |v| && v[i].path in b.commands
    ensures OneLine(v[i].path)
  {
    assert b.files[|u| + i] == v[i];
    RunKeysAreOneLine(b, |u| + i);
  }

  // ---------- Another reading of two files of data ----------

  lemma DocumentLast(blocks: seq<seq<string>>, last: seq<string>)
    ensures Document(blocks + [last]) == Document(blocks) + Block(last)
  {
    assert (blocks + [last])[..|blocks|] == blocks;
  }

  lemma {:induction false} MergedInside(pre: seq<seq<string>>, x: seq<string>, y: seq<string>, z: seq<string>,
                                        post: seq<seq<string>>)
    requires Block(x) + Block(y) == Block(z)
    ensures Document(pre + [x, y] + post) == Document(pre + [z] + post)
    decreases |post|
  {
    if post == [] {
      DocumentLast(pre, x);
      DocumentLast(pre + [x], y);
      DocumentLast(pre, z);
      assert pre + [x, y] + post == pre + [x] + [y] && pre + [z] + post == pre + [z];
      assert Document(pre) + Block(x) + Block(y) == Document(pre) + (Block(x) + Block(y));
    } else {
      var front, last := post[..|post| - 1], post[|post| - 1];
      MergedInside(pre, x, y, z, front);
      DocumentLast(pre + [x, y] + front, last);
      DocumentLast(pre + [z] + front, last);
      assert pre + [x, y] + post == pre + [x, y] + front + [last] && pre + [z] + post == pre + [z] + front + [last];
    }
  }

  /** The path behind which two files hide. */
  function Hiding(x: File, y: File): string {
    x.path + Block(FileLines(x)[1..]) + NEWLINE + (PATH + y.path)
  }

  lemma HidingIsLonger(x: File, y: File)
    ensures |Hiding(x, y)| > |x.path| && |Hiding(x, y)| > |y.path|
  {
    assert |NEWLINE| == 1;
  }

  lemma FilesHide(pre: seq<File>, x: File, y: File, more: seq<File>, commands: seq<string>)
    ensures Render(Config(pre + [x, y] + more, commands))
      == Render(Config(pre + [y.(path := Hiding(x, y))] + more, commands))
  {
    var z := y.(path := Hiding(x, y));
    FilesMerge(x, y, z);
    var head, tail := [[MAGIC, FILES]], [[COMMANDS]] + CommandBlocks(commands);
    MergedInside(head + FileBlocks(pre), FileLines(x), FileLines(y), FileLines(z), FileBlocks(more) + tail);
    BlocksOf(pre, [x, y], more, commands);
    BlocksOf(pre, [z], more, commands);
    assert FileBlocks([x, y]) == [FileLines(x), FileLines(y)] && FileBlocks([z]) == [FileLines(z)];
  }

  lemma BlocksOf(pre: seq<File>, some: seq<File>, more: seq<File>, commands: seq<string>)
    ensures Blocks(Config(pre + some + more, commands))
      == [[MAGIC, FILES]] + FileBlocks(pre) + FileBlocks(some)
         + (FileBlocks(more) + ([[COMMANDS]] + CommandBlocks(commands)))
  {
    FileBlocksJoin(pre + some, more);
    FileBlocksJoin(pre, some);
    BlocksAre([[MAGIC, FILES]], FileBlocks(pre), FileBlocks(some), FileBlocks(more), [[COMMANDS]],
      CommandBlocks(commands));
  }

  lemma BlocksAre(head: seq<seq<string>>, pre: seq<seq<string>>, some: seq<seq<string>>, more: seq<seq<string>>,
                  word: seq<seq<string>>, commands: seq<seq<string>>)
    ensures head + (pre + some + more) + word + commands == head + pre + some + (more + (word + commands))
  {}

  /** The map in which two keys have become one. */
  function Hidden(data: map<string, seq<byte>>, x: string, y: string, hiding: string): map<string, seq<byte>>
    requires y in data
  {
    map k | k in data.Keys - {x, y} + {hiding} :: if k == hiding then data[y] else data[k]
  }

  /** The keys in printing order, with two neighbours set apart. */
  ghost predicate Apart(data: map<string, seq<byte>>, u: seq<string>, x: string, y: string, v: seq<string>) {
    Enumerates(u + [x, y] + v, data.Keys)
  }

  lemma ApartMembers(data: map<string, seq<byte>>, u: seq<string>, x: string, y: string, v: seq<string>)
    requires Apart(data, u, x, y, v)
    ensures x in data && y in data && x != y && (forall k | k in u + v :: k in data && k != x && k != y)
    ensures forall k | k in data && k != x && k != y :: k in u + v
    ensures forall i, j | 0 <= i < j < |u + v| :: (u + v)[i] != (u + v)[j]
  {
    var order := u + [x, y] + v;
    assert order[|u|] == x && order[|u| + 1] == y;
    assert forall i | 0 <= i < |u + v| :: (u + v)[i] == order[if i < |u| then i else i + 2];
    assert forall k :: k in order <==> k in u + v || k == x || k == y;
  }

  lemma DistinctWith(u: seq<string>, k: string, v: seq<string>)
    requires k !in u + v && forall i, j | 0 <= i < j < |u + v| :: (u + v)[i] != (u + v)[j]
    ensures forall i, j | 0 <= i < j < |u + [k] + v| :: (u + [k] + v)[i] != (u + [k] + v)[j]
  {
    var order := u + [k] + v;
    assert forall i | 0 <= i < |order| && i != |u| :: order[i] == (u + v)[if i < |u| then i else i - 1];
  }

  lemma HiddenKeys(data: map<string, seq<byte>>, u: seq<string>, x: string, y: string, v: seq<string>, hiding: string)
    requires Apart(data, u, x, y, v) && hiding !in data
    ensures y in data
    ensures var b := Hidden(data, x, y, hiding); b != data && Enumerates(u + [hiding] + v, b.Keys)
  {
    ApartMembers(data, u, x, y, v);
    assert forall k :: k in u + [hiding] + v <==> k in u + v || k == hiding;
    assert hiding in Hidden(data, x, y, hiding);
    DistinctWith(u, hiding, v);
  }

  lemma FilesOfJoin(data: map<string, seq<byte>>, p: seq<string>, q: seq<string>, mode: string)
    requires forall k | k in p + q :: k in data
    ensures (forall k | k in p :: k in data) && forall k | k in q :: k in data
    ensures FilesOf(data, p + q, mode) == FilesOf(data, p, mode) + FilesOf(data, q, mode)
  {
    assert forall k | k in p :: k in p + q;
    assert forall k | k in q :: k in p + q;
    assert forall i | 0 <= i < |q| :: (p + q)[|p| + i] == q[i];
  }

  lemma SameFiles(a: map<string, seq<byte>>, b: map<string, seq<byte>>, order: seq<string>, mode: string)
    requires forall k | k in order :: k in a && k in b && a[k] == b[k]
    ensures FilesOf(a, order, mode) == FilesOf(b, order, mode)
  {
    assert forall i | 0 <= i < |order| :: order[i] in order;
  }

  lemma ApartFiles(data: map<string, seq<byte>>, u: seq<string>, x: string, y: string, v: seq<string>, mode: string)
    requires Apart(data, u, x, y, v)
    ensures x in data && y in data && (forall k | k in u :: k in data) && (forall k | k in v :: k in data)
    ensures FilesOf(data, u + [x, y] + v, mode) ==
      FilesOf(data, u, mode) + [File(x, mode, data[x]), File(y, mode, data[y])] + FilesOf(data, v, mode)
  {
    ApartMembers(data, u, x, y, v);
    FilesOfJoin(data, u + [x, y], v, mode);
    FilesOfJoin(data, u, [x, y], mode);
  }

  lemma FilesOfThree(data: map<string, seq<byte>>, u: seq<string>, k: string, v: seq<string>, mode: string)
    requires k in data && (forall l | l in u :: l in data) && (forall l | l in v :: l in data)
    ensures FilesOf(data, u + [k] + v, mode) == FilesOf(data, u, mode) + [File(k, mode, data[k])] + FilesOf(data, v, mode)
  {
    FilesOfJoin(data, u + [k], v, mode);
    FilesOfJoin(data, u, [k], mode);
  }

  lemma HiddenFiles(data: map<string, seq<byte>>, u: seq<string>, x: string, y: string, v: seq<string>, hiding: string,
                    mode: string)
    requires Apart(data, u, x, y, v) && hiding !in data
    requires y in data && (forall k | k in u :: k in data) && (forall k | k in v :: k in data)
    requires forall k | k in u + [hiding] + v :: k in Hidden(data, x, y, hiding)
    ensures FilesOf(Hidden(data, x, y, hiding), u + [hiding] + v, mode) ==
      FilesOf(data, u, mode) + [File(hiding, mode, data[y])] + FilesOf(data, v, mode)
  {
    var b := Hidden(data, x, y, hiding);
    HiddenAgrees(data, u, x, y, v, hiding);
    FilesOfThree(b, u, hiding, v, mode);
    SameFiles(b, data, u, mode);
    SameFiles(b, data, v, mode);
  }

  lemma HiddenAgrees(data: map<string, seq<byte>>, u: seq<string>, x: string, y: string, v: seq<string>, hiding: string)
    requires Apart(data, u, x, y, v) && hiding !in data && y in data
    ensures var b := Hidden(data, x, y, hiding);
      && (forall k | k in u :: k in b && k in data && b[k] == data[k])
      && (forall k | k in v :: k in b && k in data && b[k] == data[k])
      && hiding in b && b[hiding] == data[y]
  {
    ApartMembers(data, u, x, y, v);
    assert forall k | k in u :: k in u + v;
    assert forall k | k in v :: k in u + v;
  }

  lemma {:induction false} Longest(order: seq<string>) returns (i: nat)
    requires order != []
    ensures i < |order| && forall j | 0 <= j < |order| :: |order[j]| <= |order[i]|
    decreases |order|
  {
    i := |order| - 1;
    if i > 0 {
      var front := order[..i];
      var k := Longest(front);
      if |order[k]| > |order[i]| {
        i := k;
      }
      assert forall j | 0 <= j < |front| :: order[j] == front[j];
    }
  }

  /** Of two neighbours one is a longest key. */
  lemma LongNeighbours(data: map<string, seq<byte>>, order: seq<string>)
    returns (u: seq<string>, x: string, y: string, v: seq<string>)
    requires Enumerates(order, data.Keys) && |order| >= 2
    ensures order == u + [x, y] + v && Apart(data, u, x, y, v)
    ensures forall k | k in data :: |k| <= |x| || |k| <= |y|
  {
    var i := Longest(order);
    var p := if i + 1 < |order| then i else i - 1;
    u, x, y, v := order[..p], order[p], order[p + 1], order[p + 2..];
    assert order == u + [x, y] + v;
    forall k | k in data ensures |k| <= |order[i]| {
      var j :| 0 <= j < |order| && order[j] == k;
    }
  }

  /** Every text with two files of data or more, whatever their keys, is also printed from another map. */
  lemma TwoFilesHide(text: string, a: map<string, seq<byte>>, aRun: map<string, seq<byte>>)
    requires Prints(text, a, aRun) && |a| >= 2
    ensures exists b :: b != a && Prints(text, b, aRun)
  {
    var order, runOrder, commandOrder :|
      && Enumerates(order, a.Keys)
      && Enumerates(runOrder, aRun.Keys) && Enumerates(commandOrder, aRun.Keys)
      && text == Render(Printed(a, aRun, order, runOrder, commandOrder));
    EnumeratesAsMany(order, a.Keys);
    var u, x, y, v := LongNeighbours(a, order);
    ApartMembers(a, u, x, y, v);
    var hiding := Hiding(File(x, DATA_MODE, a[x]), File(y, DATA_MODE, a[y]));
    HidingIsLonger(File(x, DATA_MODE, a[x]), File(y, DATA_MODE, a[y]));
    HiddenPrints(text, a, aRun, u, x, y, v, runOrder, commandOrder, hiding);
  }

  lemma HiddenPrints(text: string, a: map<string, seq<byte>>, aRun: map<string, seq<byte>>,
                     u: seq<string>, x: string, y: string, v: seq<string>,
                     runOrder: seq<string>, commandOrder: seq<string>, hiding: string)
    requires Apart(a, u, x, y, v) && hiding !in a && x in a && y in a
    requires Enumerates(runOrder, aRun.Keys) && Enumerates(commandOrder, aRun.Keys)
    requires text == Render(Printed(a, aRun, u + [x, y] + v, runOrder, commandOrder))
    requires hiding == Hiding(File(x, DATA_MODE, a[x]), File(y, DATA_MODE, a[y]))
    ensures exists b :: b != a && Prints(text, b, aRun)
  {
    HiddenKeys(a, u, x, y, v, hiding);
    ApartFiles(a, u, x, y, v, DATA_MODE);
    HiddenFiles(a, u, x, y, v, hiding, DATA_MODE);
    var runFiles := FilesOf(aRun, runOrder, RUN_MODE);
    RenderHides(FilesOf(a, u, DATA_MODE), File(x, DATA_MODE, a[x]), File(y, DATA_MODE, a[y]),
      FilesOf(a, v, DATA_MODE), runFiles, commandOrder);
    var b := Hidden(a, x, y, hiding);
    assert text == Render(Printed(b, aRun, u + [hiding] + v, runOrder, commandOrder));
    assert Prints(text, b, aRun);
  }

  lemma RenderHides(pre: seq<File>, x: File, y: File, post: seq<File>, more: seq<File>, commands: seq<string>)
    ensures Render(Config(pre + [x, y] + post + more, commands))
      == Render(Config(pre + [y.(path := Hiding(x, y))] + post + more, commands))
  {
    FilesHide(pre, x, y, post + more, commands);
    assert pre + [x, y] + post + more == pre + [x, y] + (post + more);
    var z := y.(path := Hiding(x, y));
    assert pre + [z] + post + more == pre + [z] + (post + more);
  }

  /** Of all pairs of maps, with line breaks in their keys or without, a printed text whose own keys have none can
      come from one pair only, exactly when it writes at most one file of data. (By TwoFilesHide the second half needs
      nothing of the keys.) */
  lemma UniqueExactly(text: string, a: map<string, seq<byte>>, aRun: map<string, seq<byte>>)
    requires Prints(text, a, aRun) && OneLineKeys(a, aRun)
    ensures (forall b, bRun | Prints(text, b, bRun) :: b == a && bRun == aRun) <==> |a| <= 1
  {
    if |a| <= 1 {
      forall b, bRun | Prints(text, b, bRun) ensures b == a && bRun == aRun {
        OthersAreOneLine(text, a, aRun, b, bRun);
        SameTextSameMaps(text, a, aRun, b, bRun);
      }
    } else {
      TwoFilesHide(text, a, aRun);
    }
  }
}
