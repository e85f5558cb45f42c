/** The cloud-config text handed to a new machine: files to write, and commands to run. */
module CloudInit {
  import opened Types
  import opened Base64

  datatype File = File(path: string, permissions: string, content: seq<byte>)
  datatype Config = Config(files: seq<File>, commands: seq<string>)

  const NEWLINE := "\n"
  const DATA_MODE := "0644"
  const RUN_MODE := "0755"

  const MAGIC := "#cloud-config"
  const FILES := "write_files:"
  const PATH := "- path: "
  const PERMISSIONS := "  permissions: \""
  const QUOTE := "\""
  const ENCODING := "  encoding: base64"
  const OWNER := "  owner: root"
  const CONTENT := "  content: |"
  const INDENT := "    "
  const COMMANDS := "runcmd:"
  const SUDO := " - sudo "

  // ---------- Printing ----------

  /** One of the printer's templates: every line behind a line break, and a line break at the end. */
  function Block(lines: seq<string>): string {
    if lines == [] then NEWLINE else NEWLINE + lines[0] + Block(lines[1..])
  }

  function Document(blocks: seq<seq<string>>): string {
    if blocks == [] then "" else Document(blocks[..|blocks| - 1]) + Block(blocks[|blocks| - 1])
  }

  function FileLines(f: File): seq<string> {
    [PATH + f.path, PERMISSIONS + (f.permissions + QUOTE), ENCODING, OWNER, CONTENT, INDENT + Encode(f.content)]
  }

  function FileBlocks(files: seq<File>): (blocks: seq<seq<string>>)
    ensures |blocks| == |files|
  {
    seq(|files|, i requires 0 <= i < |files| => FileLines(files[i]))
  }

  function CommandBlocks(paths: seq<string>): (blocks: seq<seq<string>>)
    ensures |blocks| == |paths|
  {
    seq(|paths|, i requires 0 <= i < |paths| => [SUDO + paths[i]])
  }

  function Blocks(config: Config): seq<seq<string>> {
    [[MAGIC, FILES]] + FileBlocks(config.files) + [[COMMANDS]] + CommandBlocks(config.commands)
  }

  function Render(config: Config): string { Document(Blocks(config)) }

  /** The files of a map, in the given order of its keys. */
  function FilesOf(data: map<string, seq<byte>>, order: seq<string>, permissions: string): (files: seq<File>)
    requires forall k | k in order :: k in data
    ensures |files| == |order|
  {
    seq(|order|, i requires 0 <= i < |order| => assert order[i] in order; File(order[i], permissions, data[order[i]]))
  }

  /** `order` lists every one of `keys` once. */
  ghost predicate Enumerates(order: seq<string>, keys: set<string>) {
    && (forall k :: k in order <==> k in keys)
    && (forall i, j | 0 <= i < j < |order| :: order[i] != order[j])
  }

  function Printed(customData: map<string, seq<byte>>, customRunData: map<string, seq<byte>>,
                   dataOrder: seq<string>, runOrder: seq<string>, commandOrder: seq<string>): Config
    requires forall k | k in dataOrder :: k in customData
    requires forall k | k in runOrder :: k in customRunData
  {
    Config(FilesOf(customData, dataOrder, DATA_MODE) + FilesOf(customRunData, runOrder, RUN_MODE), commandOrder)
  }

  lemma EnumeratesMore(order: seq<string>, all: set<string>, left: set<string>, key: string)
    requires Enumerates(order, all - left) && key in left && key in all
    ensures Enumerates(order + [key], all - (left - {key}))
  {}

  lemma DocumentMore(before: seq<seq<string>>, blocks: seq<seq<string>>, block: seq<string>)
    ensures Document(before + (blocks + [block])) == Document(before + blocks) + Block(block)
  {
    var all := before + (blocks + [block]);
    assert all[..|all| - 1] == before + blocks;
  }

  lemma FileBlocksMore(data: map<string, seq<byte>>, order: seq<string>, key: string, permissions: string)
    requires (forall k | k in order :: k in data) && key in data
    ensures FileBlocks(FilesOf(data, order + [key], permissions)) ==
      FileBlocks(FilesOf(data, order, permissions)) + [FileLines(File(key, permissions, data[key]))]
  {}

  lemma PrintsOneMore(blocks: seq<seq<string>>, data: map<string, seq<byte>>, order: seq<string>, key: string,
                      permissions: string)
    requires (forall k | k in order :: k in data) && key in data
    ensures Document(blocks + FileBlocks(FilesOf(data, order + [key], permissions)))
      == Document(blocks + FileBlocks(FilesOf(data, order, permissions)))
         + Block(FileLines(File(key, permissions, data[key])))
  {
    FileBlocksMore(data, order, key, permissions);
    DocumentMore(blocks, FileBlocks(FilesOf(data, order, permissions)), FileLines(File(key, permissions, data[key])));
  }

  lemma FileBlocksJoin(a: seq<File>, b: seq<File>)
    ensures FileBlocks(a + b) == FileBlocks(a) + FileBlocks(b)
  {}

  /** The text prints both maps, each loop in some order that lists every key once. */
  ghost predicate Prints(text: string, customData: map<string, seq<byte>>, customRunData: map<string, seq<byte>>) {
    exists dataOrder, runOrder, commandOrder ::
      && Enumerates(dataOrder, customData.Keys)
      && Enumerates(runOrder, customRunData.Keys) && Enumerates(commandOrder, customRunData.Keys)
      && text == Render(Printed(customData, customRunData, dataOrder, runOrder, commandOrder))
  }

  /** Prints both maps, each loop in whatever order the map yields its keys. */
  method GetCustomData(customData: map<string, seq<byte>>, customRunData: map<string, seq<byte>>) returns (text: string)
    ensures Prints(text, customData, customRunData)
  {
    var head, commands := [MAGIC, FILES], [COMMANDS];
    ghost var dataOrder, runOrder, commandOrder;
    text := Block(head);
    DocumentMore([], [], head);
    text, dataOrder := PrintFiles(text, customData, DATA_MODE, [] + ([] + [head]));
    ghost var dataFiles := FilesOf(customData, dataOrder, DATA_MODE);
    ghost var blocks := [] + ([] + [head]) + FileBlocks(dataFiles);
    text, runOrder := PrintFiles(text, customRunData, RUN_MODE, blocks);
    ghost var runFiles := FilesOf(customRunData, runOrder, RUN_MODE);
    DocumentMore(blocks, FileBlocks(runFiles), commands);
    text := text + Block(commands);
    ghost var all := blocks + (FileBlocks(runFiles) + [commands]);
    text, commandOrder := PrintCommands(text, customRunData.Keys, all);
    BlocksInOrder(head, commands, dataFiles, runFiles, commandOrder);
    assert text == Render(Printed(customData, customRunData, dataOrder, runOrder, commandOrder));
  }

  lemma BlocksInOrder(head: seq<string>, commands: seq<string>, dataFiles: seq<File>, runFiles: seq<File>,
                      paths: seq<string>)
    ensures [] + ([] + [head]) + FileBlocks(dataFiles) + (FileBlocks(runFiles) + [commands]) + CommandBlocks(paths)
      == [head] + FileBlocks(dataFiles + runFiles) + [commands] + CommandBlocks(paths)
  {
    FileBlocksJoin(dataFiles, runFiles);
  }

  method PrintFiles(before: string, data: map<string, seq<byte>>, permissions: string, ghost blocks: seq<seq<string>>)
    returns (text: string, ghost order: seq<string>)
    requires before == Document(blocks)
    ensures Enumerates(order, data.Keys) && text == Document(blocks + FileBlocks(FilesOf(data, order, permissions)))
  {
    text, order := before, [];
    var keys := data.Keys;
    assert blocks + FileBlocks(FilesOf(data, order, permissions)) == blocks;
    while keys != {}
      invariant keys <= data.Keys && Enumerates(order, data.Keys - keys)
      invariant text == Document(blocks + FileBlocks(FilesOf(data, order, permissions)))
      decreases keys
    {
      var key :| key in keys;
      text := text + Block(FileLines(File(key, permissions, data[key])));
      PrintsOneMore(blocks, data, order, key, permissions);
      EnumeratesMore(order, data.Keys, keys, key);
      order := order + [key];
      keys := keys - {key};
    }
  }

  method PrintCommands(before: string, all: set<string>, ghost blocks: seq<seq<string>>)
    returns (text: string, ghost order: seq<string>)
    requires before == Document(blocks)
    ensures Enumerates(order, all) && text == Document(blocks + CommandBlocks(order))
  {
    text, order := before, [];
    var keys := all;
    assert blocks + CommandBlocks(order) == blocks;
    while keys != {}
      invariant keys <= all && Enumerates(order, all - keys)
      invariant text == Document(blocks + CommandBlocks(order))
      decreases keys
    {
      var key :| key in keys;
      var lines := [SUDO + key];
      text := text + Block(lines);
      DocumentMore(blocks, CommandBlocks(order), lines);
      assert CommandBlocks(order + [key]) == CommandBlocks(order) + [lines];
      EnumeratesMore(order, all, keys, key);
      order := order + [key];
      keys := keys - {key};
    }
  }

  // ---------- The text in full ----------

  function Concat(pieces: seq<string>): string {
    if pieces == [] then "" else pieces[0] + Concat(pieces[1..])
  }

  lemma {:induction false} ConcatJoin(x: seq<string>, y: seq<string>)
    ensures Concat(x + y) == Concat(x) + Concat(y)
    decreases |x|
  {
    if x == [] {
      assert x + y == y;
    } else {
      ConcatJoin(x[1..], y);
      assert (x + y)[1..] == x[1..] + y;
    }
  }

  lemma BlockOfOne(a: string)
    ensures Block([a]) == "\n" + a + "\n"
  {}

  lemma BlockOfTwo(a: string, b: string)
    ensures Block([a, b]) == "\n" + a + "\n" + b + "\n"
  {
    BlockOfOne(b);
    assert [a, b][1..] == [b];
  }

  lemma BlockOfThree(a: string, b: string, c: string)
    ensures Block([a, b, c]) == "\n" + a + "\n" + b + "\n" + c + "\n"
  {
    BlockOfTwo(b, c);
    assert [a, b, c][1..] == [b, c];
  }

  lemma BlockOfSix(a: string, b: string, c: string, d: string, e: string, f: string)
    ensures Block([a, b, c, d, e, f])
      == "\n" + a + "\n" + b + "\n" + c + "\n" + d + "\n" + e + "\n" + f + "\n"
  {
    BlockOfThree(d, e, f);
    assert [a, b, c, d, e, f][1..] == [b, c, d, e, f] && [b, c, d, e, f][1..] == [c, d, e, f];
    assert [c, d, e, f][1..] == [d, e, f];
    assert Block([c, d, e, f]) == NEWLINE + c + Block([d, e, f]);
    assert Block([b, c, d, e, f]) == NEWLINE + b + Block([c, d, e, f]);
  }

  /** A file. */
  lemma FileText(f: File)
    ensures Block(FileLines(f)) ==
      "\n" + ("- path: " + f.path) + "\n" + ("  permissions: \"" + (f.permissions + "\"")) + "\n"
      + "  encoding: base64" + "\n" + "  owner: root" + "\n" + "  content: |" + "\n" + ("    " + Encode(f.content)) + "\n"
  {
    BlockOfSix(PATH + f.path, PERMISSIONS + (f.permissions + QUOTE), ENCODING, OWNER, CONTENT, INDENT + Encode(f.content));
  }

  /** The head, and a command. */
  lemma FrameText(path: string)
    ensures Block([MAGIC, FILES]) == "\n" + "#cloud-config" + "\n" + "write_files:" + "\n"
    ensures Block([COMMANDS]) == "\n" + "runcmd:" + "\n"
    ensures Block([SUDO + path]) == "\n" + (" - sudo " + path) + "\n"
  {
    BlockOfTwo(MAGIC, FILES);
    BlockOfOne(COMMANDS);
    BlockOfOne(SUDO + path);
  }

  function Texts(blocks: seq<seq<string>>): (texts: seq<string>)
    ensures |texts| == |blocks|
  {
    seq(|blocks|, i requires 0 <= i < |blocks| => Block(blocks[i]))
  }

  lemma {:induction false} DocumentIsConcat(blocks: seq<seq<string>>)
    ensures Document(blocks) == Concat(Texts(blocks))
    decreases |blocks|
  {
    if blocks != [] {
      var front, last := blocks[..|blocks| - 1], blocks[|blocks| - 1];
      DocumentIsConcat(front);
      ConcatJoin(Texts(front), [Block(last)]);
      assert Texts(blocks) == Texts(front) + [Block(last)];
      assert Concat([Block(last)]) == Block(last) + Concat([]);
    }
  }

  /** The printed text: head, the files of data, the files that are run, "runcmd:", and the commands. */
  lemma RenderInFull(x: seq<File>, y: seq<File>, commands: seq<string>)
    ensures Render(Config(x + y, commands)) ==
      Block([MAGIC, FILES]) + Concat(Texts(FileBlocks(x))) + Concat(Texts(FileBlocks(y))) + Block([COMMANDS])
      + Concat(Texts(CommandBlocks(commands)))
  {
    FileBlocksJoin(x, y);
    DocumentInFull([MAGIC, FILES], FileBlocks(x), FileBlocks(y), [COMMANDS], CommandBlocks(commands));
  }

  lemma {:induction false} DocumentJoin(x: seq<seq<string>>, y: seq<seq<string>>)
    ensures Document(x + y) == Document(x) + Document(y)
    decreases |y|
  {
    if y == [] {
      assert x + y == x;
    } else {
      var front, last := y[..|y| - 1], y[|y| - 1];
      DocumentJoin(x, front);
      assert y == front + [last];
      DocumentMore(x, front, last);
      JoinLast(Document(x), Document(front), Block(last));
    }
  }

  lemma JoinLast(a: string, b: string, c: string)
    ensures (a + b) + c == a + (b + c)
  {}

  lemma DocumentOfBlocks(lines: seq<string>)
    ensures Document([lines]) == Block(lines)
  {
    assert [lines][..0] == [];
    assert Document([lines]) == "" + Block(lines);
  }

  lemma Ungroup(a: string, b: string, c: string, d: string, e: string)
    ensures a + (b + c) + d + e == a + b + c + d + e
  {}

  lemma DocumentInFull(head: seq<string>, x: seq<seq<string>>, y: seq<seq<string>>, word: seq<string>,
                       z: seq<seq<string>>)
    ensures Document([head] + (x + y) + [word] + z) ==
      Block(head) + Concat(Texts(x)) + Concat(Texts(y)) + Block(word) + Concat(Texts(z))
  {
    DocumentJoin([head] + (x + y) + [word], z);
    DocumentJoin([head] + (x + y), [word]);
    DocumentJoin([head], x + y);
    DocumentJoin(x, y);
    DocumentOfBlocks(head);
    DocumentOfBlocks(word);
    Ungroup(Block(head), Document(x), Document(y), Block(word), Document(z));
    DocumentIsConcat(x);
    DocumentIsConcat(y);
    DocumentIsConcat(z);
  }

  /** What GetCustomData prints: the head, every file of data with mode 0644, every file that is run with mode 0755,
      and the commands. FileText and FrameText spell out each piece. */
  lemma PrintsInFull(text: string, data: map<string, seq<byte>>, run: map<string, seq<byte>>)
    requires Prints(text, data, run)
    ensures exists dataOrder, runOrder, commandOrder ::
      && Enumerates(dataOrder, data.Keys) && Enumerates(runOrder, run.Keys) && Enumerates(commandOrder, run.Keys)
      && text == ("\n" + "#cloud-config" + "\n" + "write_files:" + "\n")
           + Concat(Texts(FileBlocks(FilesOf(data, dataOrder, "0644"))))
           + Concat(Texts(FileBlocks(FilesOf(run, runOrder, "0755"))))
           + ("\n" + "runcmd:" + "\n") + Concat(Texts(CommandBlocks(commandOrder)))
  {
    var dataOrder, runOrder, commandOrder :|
      && Enumerates(dataOrder, data.Keys)
      && Enumerates(runOrder, run.Keys) && Enumerates(commandOrder, run.Keys)
      && text == Render(Printed(data, run, dataOrder, runOrder, commandOrder));
    RenderInFull(FilesOf(data, dataOrder, DATA_MODE), FilesOf(run, runOrder, RUN_MODE), commandOrder);
    FrameText("");
  }

  // ---------- Reading ----------

  /** The lines of a text that gets one more character in front. */
  function Pushed(c: char, lines: seq<string>): (r: seq<string>)
    requires lines != []
    ensures r != []
  {
    if c == '\n' then [""] + lines else [[c] + lines[0]] + lines[1..]
  }

  /** The text between line breaks. */
  function Lines(text: string): (lines: seq<string>)
    ensures lines != []
  {
    if text == "" then [""] else Pushed(text[0], Lines(text[1..]))
  }

  function NonBlank(lines: seq<string>): seq<string> {
    if lines == [] then []
    else if lines[0] == "" then NonBlank(lines[1..])
    else [lines[0]] + NonBlank(lines[1..])
  }

  function Strip(prefix: string, line: string): Option<string> {
    if prefix <= line then Some(line[|prefix|..]) else None
  }

  function Unquote(text: string): Option<string> {
    if |text| > 0 && text[|text| - 1] == '\"' then Some(text[..|text| - 1]) else None
  }

  function ParseFile(lines: seq<string>): Option<File>
    requires |lines| == 6
  {
    match (Strip(PATH, lines[0]), Strip(PERMISSIONS, lines[1]), Strip(INDENT, lines[5]))
    case (Some(path), Some(quoted), Some(text)) =>
      if lines[2] != ENCODING || lines[3] != OWNER || lines[4] != CONTENT then None
      else
        (match (Unquote(quoted), Decode(text))
         case (Some(permissions), Some(content)) => Some(File(path, permissions, content))
         case _ => None)
    case _ => None
  }

  function ParseCommands(lines: seq<string>): Option<seq<string>> {
    if lines == [] then Some([])
    else
      match (Strip(SUDO, lines[0]), ParseCommands(lines[1..]))
      case (Some(path), Some(paths)) => Some([path] + paths)
      case _ => None
  }

  function ParseBody(lines: seq<string>): Option<Config> {
    if lines == [] then None
    else if lines[0] == COMMANDS then
      match ParseCommands(lines[1..])
      case Some(paths) => Some(Config([], paths))
      case None => None
    else if |lines| < 6 then None
    else
      match (ParseFile(lines[..6]), ParseBody(lines[6..]))
      case (Some(file), Some(config)) => Some(config.(files := [file] + config.files))
      case _ => None
  }

  /** A reader that knows nothing of the maps: it takes the text line by line. */
  function Parse(text: string): Option<Config> {
    var lines := NonBlank(Lines(text));
    if |lines| >= 2 && lines[0] == MAGIC && lines[1] == FILES then ParseBody(lines[2..]) else None
  }

  // ---------- The lines of a printed text ----------

  predicate OneLine(text: string) { '\n' !in text }

  function Shown(text: string): seq<string> { NonBlank(Lines(text)) }

  lemma {:induction false} LinesOfOne(text: string)
    requires OneLine(text)
    ensures Lines(text) == [text]
  {
    if text != "" {
      LinesOfOne(text[1..]);
      assert [text[0]] + text[1..] == text;
    }
  }

  lemma PushedJoin(c: char, lines: seq<string>, more: seq<string>)
    requires lines != []
    ensures Pushed(c, lines + more) == Pushed(c, lines) + more
  {}

  lemma {:induction false} LinesJoin(a: string, b: string)
    ensures Lines(a + NEWLINE + b) == Lines(a) + Lines(b)
    decreases |a|
  {
    var text := a + NEWLINE + b;
    if a == "" {
      assert text[1..] == b;
    } else {
      LinesJoin(a[1..], b);
      PushedJoin(a[0], Lines(a[1..]), Lines(b));
      assert text[1..] == a[1..] + NEWLINE + b;
    }
  }

  lemma NonBlankCons(line: string, lines: seq<string>)
    ensures NonBlank([line] + lines) == (if line == "" then [] else [line]) + NonBlank(lines)
  {
    assert ([line] + lines)[1..] == lines;
  }

  lemma {:induction false} NonBlankJoin(a: seq<string>, b: seq<string>)
    ensures NonBlank(a + b) == NonBlank(a) + NonBlank(b)
    decreases |a|
  {
    if a == [] {
      assert a + b == b;
    } else {
      NonBlankJoin(a[1..], b);
      NonBlankCons(a[0], a[1..]);
      NonBlankCons(a[0], a[1..] + b);
      assert [a[0]] + a[1..] == a && [a[0]] + (a[1..] + b) == a + b;
    }
  }

  lemma ShownJoin(a: string, b: string)
    ensures Shown(a + NEWLINE + b) == Shown(a) + Shown(b)
  {
    LinesJoin(a, b);
    NonBlankJoin(Lines(a), Lines(b));
  }

  predicate Clean(lines: seq<string>) {
    forall l | l in lines :: l != "" && OneLine(l)
  }

  /** A block behind other text adds its lines. */
  lemma {:induction false} ShownBlock(a: string, lines: seq<string>)
    requires Clean(lines)
    ensures Shown(a + Block(lines)) == Shown(a) + lines
    decreases |lines|
  {
    if lines == [] {
      ShownJoin(a, "");
      assert a + NEWLINE + "" == a + Block(lines);
    } else {
      var line, more := lines[0], lines[1..];
      ShownJoin(a, line);
      LinesOfOne(line);
      ShownBlock(a + NEWLINE + line, more);
      assert a + NEWLINE + line + Block(more) == a + (NEWLINE + line + Block(more));
      assert NonBlank([line]) == [line] + NonBlank([]);
      assert Shown(a) + [line] + more == Shown(a) + lines;
    }
  }

  function Flat(blocks: seq<seq<string>>): seq<string> {
    if blocks == [] then [] else blocks[0] + Flat(blocks[1..])
  }

  lemma {:induction false} FlatMore(blocks: seq<seq<string>>, last: seq<string>)
    ensures Flat(blocks + [last]) == Flat(blocks) + last
    decreases |blocks|
  {
    if blocks == [] {
      assert blocks + [last] == [last];
    } else {
      FlatMore(blocks[1..], last);
      assert (blocks + [last])[1..] == blocks[1..] + [last];
    }
  }

  lemma {:induction false} ShownDocument(blocks: seq<seq<string>>)
    requires forall b | b in blocks :: Clean(b)
    ensures Shown(Document(blocks)) == Flat(blocks)
    decreases |blocks|
  {
    if blocks == [] {
      LinesOfOne("");
    } else {
      var front, last := blocks[..|blocks| - 1], blocks[|blocks| - 1];
      assert last in blocks && forall b | b in front :: b in blocks;
      ShownDocument(front);
      ShownBlock(Document(front), last);
      FlatMore(front, last);
      assert blocks == front + [last];
    }
  }

  // ---------- Reading back ----------

  lemma Stripped(prefix: string, rest: string)
    ensures Strip(prefix, prefix + rest) == Some(rest)
  {}

  lemma Unquoted(text: string)
    ensures Unquote(text + QUOTE) == Some(text)
  {}

  lemma FileReadsBack(f: File)
    ensures ParseFile(FileLines(f)) == Some(f)
  {
    RoundTrip(f.content);
    Stripped(PATH, f.path);
    Stripped(PERMISSIONS, f.permissions + QUOTE);
    Unquoted(f.permissions);
    Stripped(INDENT, Encode(f.content));
  }

  lemma {:induction false} CommandsReadBack(paths: seq<string>)
    ensures ParseCommands(Flat(CommandBlocks(paths))) == Some(paths)
    decreases |paths|
  {
    if paths != [] {
      CommandsReadBack(paths[1..]);
      assert CommandBlocks(paths)[1..] == CommandBlocks(paths[1..]);
      Stripped(SUDO, paths[0]);
      assert [paths[0]] + paths[1..] == paths;
    }
  }

  predicate ReadsAs(lines: seq<string>, f: File) {
    |lines| == 6 && lines[0] != COMMANDS && ParseFile(lines) == Some(f)
  }

  lemma FileLinesReadAs(f: File)
    ensures ReadsAs(FileLines(f), f)
  {
    FileReadsBack(f);
    assert FileLines(f)[0][0] == '-' && COMMANDS[0] == 'r';
  }

  lemma BodyStep(f: File, lines: seq<string>, rest: seq<string>, config: Config)
    requires ReadsAs(lines, f) && ParseBody(rest) == Some(config)
    ensures ParseBody(lines + rest) == Some(Config([f] + config.files, config.commands))
  {
    var all := lines + rest;
    assert all[..6] == lines && all[6..] == rest;
  }

  lemma {:induction false} FilesReadBack(files: seq<File>, blocks: seq<seq<string>>, tail: seq<seq<string>>,
                                         paths: seq<string>)
    requires |blocks| == |files| && forall i | 0 <= i < |files| :: ReadsAs(blocks[i], files[i])
    requires ParseBody(Flat(tail)) == Some(Config([], paths))
    ensures ParseBody(Flat(blocks + tail)) == Some(Config(files, paths))
    decreases |files|
  {
    if files == [] {
      assert blocks + tail == tail;
    } else {
      var all := blocks + tail;
      FilesReadBack(files[1..], blocks[1..], tail, paths);
      assert all[1..] == blocks[1..] + tail;
      BodyStep(files[0], blocks[0], Flat(all[1..]), Config(files[1..], paths));
      assert [files[0]] + files[1..] == files;
    }
  }

  lemma BodyReadsBack(files: seq<File>, paths: seq<string>)
    ensures ParseBody(Flat(FileBlocks(files) + ([[COMMANDS]] + CommandBlocks(paths)))) == Some(Config(files, paths))
  {
    var tail := [[COMMANDS]] + CommandBlocks(paths);
    CommandsReadBack(paths);
    assert tail[1..] == CommandBlocks(paths);
    assert Flat(tail)[1..] == Flat(CommandBlocks(paths));
    forall i | 0 <= i < |files| ensures ReadsAs(FileBlocks(files)[i], files[i]) {
      FileLinesReadAs(files[i]);
    }
    FilesReadBack(files, FileBlocks(files), tail, paths);
  }

  predicate Printable(config: Config) {
    && (forall f | f in config.files :: OneLine(f.path) && OneLine(f.permissions))
    && (forall p | p in config.commands :: OneLine(p))
  }

  lemma TemplateIsOneLine()
    ensures OneLine(PATH) && OneLine(PERMISSIONS) && OneLine(QUOTE) && OneLine(ENCODING) && OneLine(OWNER)
    ensures OneLine(CONTENT) && OneLine(INDENT)
  {}

  lemma OneLineJoin(a: string, b: string)
    requires OneLine(a) && OneLine(b)
    ensures OneLine(a + b) && (a != "" ==> a + b != "")
  {}

  lemma FileLinesClean(f: File)
    requires OneLine(f.path) && OneLine(f.permissions)
    ensures Clean(FileLines(f))
  {
    TemplateIsOneLine();
    EncodedCharacters(f.content);
    OneLineJoin(PATH, f.path);
    OneLineJoin(f.permissions, QUOTE);
    OneLineJoin(PERMISSIONS, f.permissions + QUOTE);
    OneLineJoin(INDENT, Encode(f.content));
  }

  lemma BlocksClean(config: Config)
    requires Printable(config)
    ensures forall b | b in Blocks(config) :: Clean(b)
  {
    forall b | b in FileBlocks(config.files) ensures Clean(b) {
      var i :| 0 <= i < |config.files| && b == FileBlocks(config.files)[i];
      assert config.files[i] in config.files;
      FileLinesClean(config.files[i]);
    }
    forall b | b in CommandBlocks(config.commands) ensures Clean(b) {
      var i :| 0 <= i < |config.commands| && b == CommandBlocks(config.commands)[i];
      assert config.commands[i] in config.commands;
    }
  }

  /** What was printed from one-line paths is read back, files and commands in the printed order. */
  lemma ReadsBack(config: Config)
    requires Printable(config)
    ensures Parse(Render(config)) == Some(config)
  {
    BlocksClean(config);
    ShownDocument(Blocks(config));
    BodyReadsBack(config.files, config.commands);
    var tail := FileBlocks(config.files) + ([[COMMANDS]] + CommandBlocks(config.commands));
    assert Blocks(config) == [[MAGIC, FILES]] + tail;
    assert Blocks(config)[1..] == tail;
    assert Flat(Blocks(config))[2..] == Flat(tail);
  }

  /** The map that the files with these permissions make up. */
  function Collected(files: seq<File>, permissions: string): map<string, seq<byte>> {
    if files == [] then map[]
    else
      var front, f := Collected(files[..|files| - 1], permissions), files[|files| - 1];
      if f.permissions == permissions then front[f.path := f.content] else front
  }

  lemma {:induction false} CollectedJoin(a: seq<File>, b: seq<File>, permissions: string)
    ensures Collected(a + b, permissions) == Collected(a, permissions) + Collected(b, permissions)
    decreases |b|
  {
    if b == [] {
      assert a + b == a;
    } else {
      CollectedJoin(a, b[..|b| - 1], permissions);
      assert (a + b)[..|a + b| - 1] == a + b[..|b| - 1];
    }
  }

  lemma {:induction false} CollectedOf(data: map<string, seq<byte>>, order: seq<string>, mode: string, permissions: string)
    requires forall k | k in order :: k in data
    ensures Collected(FilesOf(data, order, mode), permissions) ==
      if mode == permissions then map k | k in order :: data[k] else map[]
    decreases |order|
  {
    if order != [] {
      var front := order[..|order| - 1];
      CollectedOf(data, front, mode, permissions);
      assert FilesOf(data, order, mode)[..|front|] == FilesOf(data, front, mode);
      assert forall k :: k in order <==> k in front || k == order[|front|];
    }
  }

  /** The text tells both maps, and its commands are the keys of the second. */
  ghost predicate Tells(text: string, customData: map<string, seq<byte>>, customRunData: map<string, seq<byte>>) {
    match Parse(text)
    case None => false
    case Some(config) =>
      && Collected(config.files, "0644") == customData && Collected(config.files, "0755") == customRunData
      && |config.files| == |customData| + |customRunData|
      && Enumerates(config.commands, customRunData.Keys)
  }

  lemma {:induction false} EnumeratesAsMany(order: seq<string>, keys: set<string>)
    requires Enumerates(order, keys)
    ensures |order| == |keys|
    decreases |order|
  {
    if order == [] {
      assert keys == {};
    } else {
      var front, last := order[..|order| - 1], order[|order| - 1];
      forall k ensures k in front <==> k in keys - {last} {
        if k in keys - {last} {
          assert k in order;
        }
      }
      assert last in keys;
      EnumeratesAsMany(front, keys - {last});
    }
  }

  lemma FilesOfOneLine(data: map<string, seq<byte>>, order: seq<string>, mode: string)
    requires (forall k | k in order :: k in data) && (forall k | k in data :: OneLine(k)) && OneLine(mode)
    ensures forall f | f in FilesOf(data, order, mode) :: OneLine(f.path) && OneLine(f.permissions)
  {
    forall f | f in FilesOf(data, order, mode) ensures OneLine(f.path) && OneLine(f.permissions) {
      var i :| 0 <= i < |order| && f == FilesOf(data, order, mode)[i];
      assert order[i] in order;
    }
  }

  lemma FilesOfCollected(data: map<string, seq<byte>>, order: seq<string>, mode: string, other: string)
    requires Enumerates(order, data.Keys) && other != mode
    ensures |FilesOf(data, order, mode)| == |data|
    ensures Collected(FilesOf(data, order, mode), mode) == data && Collected(FilesOf(data, order, mode), other) == map[]
  {
    CollectedOf(data, order, mode, mode);
    CollectedOf(data, order, mode, other);
    EnumeratesAsMany(order, data.Keys);
    assert (map k | k in order :: data[k]) == data;
  }

  lemma TwoMapsCollected(a: seq<File>, b: seq<File>, dataMode: string, runMode: string)
    requires Collected(a, runMode) == map[] && Collected(b, dataMode) == map[]
    ensures Collected(a + b, dataMode) == Collected(a, dataMode) && Collected(a + b, runMode) == Collected(b, runMode)
  {
    CollectedJoin(a, b, dataMode);
    CollectedJoin(a, b, runMode);
  }

  /** Whatever the iteration orders, a reader recovers both maps when no key has a line break. */
  lemma OneLineKeysAreTold(customData: map<string, seq<byte>>, customRunData: map<string, seq<byte>>,
                           dataOrder: seq<string>, runOrder: seq<string>, commandOrder: seq<string>)
    requires Enumerates(dataOrder, customData.Keys)
    requires Enumerates(runOrder, customRunData.Keys) && Enumerates(commandOrder, customRunData.Keys)
    requires forall k | k in customData.Keys + customRunData.Keys :: OneLine(k)
    ensures Tells(Render(Printed(customData, customRunData, dataOrder, runOrder, commandOrder)), customData, customRunData)
  {
    var a, b := FilesOf(customData, dataOrder, DATA_MODE), FilesOf(customRunData, runOrder, RUN_MODE);
    FilesOfOneLine(customData, dataOrder, DATA_MODE);
    FilesOfOneLine(customRunData, runOrder, RUN_MODE);
    ReadsBack(Config(a + b, commandOrder));
    assert DATA_MODE[2] != RUN_MODE[2];
    FilesOfCollected(customData, dataOrder, DATA_MODE, RUN_MODE);
    FilesOfCollected(customRunData, runOrder, RUN_MODE, DATA_MODE);
    TwoMapsCollected(a, b, DATA_MODE, RUN_MODE);
  }

  // ---------- Line breaks in keys ----------

  lemma {:induction false} LinesAreOneLine(text: string)
    ensures forall l | l in Lines(text) :: OneLine(l)
    decreases |text|
  {
    if text != "" {
      LinesAreOneLine(text[1..]);
      var rest := Lines(text[1..]);
      assert rest[0] in rest && forall l | l in rest[1..] :: l in rest;
    }
  }

  lemma {:induction false} NonBlankAreLines(lines: seq<string>)
    ensures forall l | l in NonBlank(lines) :: l in lines
    decreases |lines|
  {
    if lines != [] {
      NonBlankAreLines(lines[1..]);
    }
  }

  lemma {:induction false} ParsedPathsAreOneLine(lines: seq<string>)
    requires forall l | l in lines :: OneLine(l)
    ensures ParseBody(lines).Some? ==> forall f | f in ParseBody(lines).value.files :: OneLine(f.path)
    decreases |lines|
  {
    if lines != [] && lines[0] != COMMANDS && |lines| >= 6 {
      assert lines[0] in lines && forall l | l in lines[6..] :: l in lines;
      ParsedPathsAreOneLine(lines[6..]);
    }
  }

  lemma {:induction false} CollectedPaths(files: seq<File>, permissions: string)
    ensures forall k | k in Collected(files, permissions) :: exists f :: f in files && f.path == k
    decreases |files|
  {
    if files != [] {
      CollectedPaths(files[..|files| - 1], permissions);
    }
  }

  lemma ToldKeysAreOneLine(text: string, customData: map<string, seq<byte>>, customRunData: map<string, seq<byte>>)
    requires Tells(text, customData, customRunData)
    ensures forall k | k in customData.Keys + customRunData.Keys :: OneLine(k)
  {
    var lines := NonBlank(Lines(text));
    LinesAreOneLine(text);
    NonBlankAreLines(Lines(text));
    ParsedPathsAreOneLine(lines[2..]);
    CollectedPaths(Parse(text).value.files, DATA_MODE);
    CollectedPaths(Parse(text).value.files, RUN_MODE);
  }

  /** The line reader recovers both maps exactly when no key has a line break, for every pair of maps and all
      iteration orders. */
  lemma ToldExactly(customData: map<string, seq<byte>>, customRunData: map<string, seq<byte>>,
                    dataOrder: seq<string>, runOrder: seq<string>, commandOrder: seq<string>)
    requires Enumerates(dataOrder, customData.Keys)
    requires Enumerates(runOrder, customRunData.Keys) && Enumerates(commandOrder, customRunData.Keys)
    ensures Tells(Render(Printed(customData, customRunData, dataOrder, runOrder, commandOrder)), customData, customRunData)
      <==> forall k | k in customData.Keys + customRunData.Keys :: OneLine(k)
  {
    var text := Render(Printed(customData, customRunData, dataOrder, runOrder, commandOrder));
    if Tells(text, customData, customRunData) {
      ToldKeysAreOneLine(text, customData, customRunData);
    } else if forall k | k in customData.Keys + customRunData.Keys :: OneLine(k) {
      OneLineKeysAreTold(customData, customRunData, dataOrder, runOrder, commandOrder);
    }
  }

  /** From whatever GetCustomData prints, the line reader recovers both maps exactly when no key has a line break. */
  lemma PrintedIsToldExactly(text: string, customData: map<string, seq<byte>>, customRunData: map<string, seq<byte>>)
    requires Prints(text, customData, customRunData)
    ensures Tells(text, customData, customRunData)
      <==> forall k | k in customData.Keys + customRunData.Keys :: OneLine(k)
  {
    var dataOrder, runOrder, commandOrder :|
      && Enumerates(dataOrder, customData.Keys)
      && Enumerates(runOrder, customRunData.Keys) && Enumerates(commandOrder, customRunData.Keys)
      && text == Render(Printed(customData, customRunData, dataOrder, runOrder, commandOrder));
    ToldExactly(customData, customRunData, dataOrder, runOrder, commandOrder);
  }

  /** Maps without line breaks that print the same text, in whatever orders, are the same. */
  lemma SameTextSameMaps(text: string, a: map<string, seq<byte>>, aRun: map<string, seq<byte>>,
                         b: map<string, seq<byte>>, bRun: map<string, seq<byte>>)
    requires Prints(text, a, aRun) && Prints(text, b, bRun)
    requires forall k | k in a.Keys + aRun.Keys + b.Keys + bRun.Keys :: OneLine(k)
    ensures a == b && aRun == bRun
  {
    PrintedIsToldExactly(text, a, aRun);
    PrintedIsToldExactly(text, b, bRun);
  }

  lemma BlocksMerge(a: string, b: string, more: seq<string>, rest: seq<string>)
    ensures Block([a] + more) + Block([b] + rest) == Block([a + Block(more) + NEWLINE + b] + rest)
  {
    assert ([a] + more)[1..] == more && ([b] + rest)[1..] == rest;
    var merged := [a + Block(more) + NEWLINE + b] + rest;
    assert merged[1..] == rest;
  }

  lemma DocumentOfTwo(a: seq<string>, b: seq<string>)
    ensures Document([a, b]) == Block(a) + Block(b)
  {
    assert [a, b][..1] == [a] && [a][..0] == [];
    assert Document([a]) == "" + Block(a);
  }

  lemma DocumentOfThree(a: seq<string>, b: seq<string>, c: seq<string>)
    ensures Document([a, b, c]) == Block(a) + Block(b) + Block(c)
  {
    DocumentOfTwo(a, b);
    assert [a, b, c][..2] == [a, b];
  }

  lemma Regroup(a: string, b: string, c: string, d: string)
    ensures a + b + c + d == a + (b + c) + d
  {}

  lemma DocumentMerge(head: seq<string>, tail: seq<string>, x: seq<string>, y: seq<string>, z: seq<string>)
    requires Block(x) + Block(y) == Block(z)
    ensures Document([head, x, y, tail]) == Document([head, z, tail])
  {
    DocumentOfThree(head, x, y);
    assert [head, x, y, tail][..3] == [head, x, y];
    DocumentOfThree(head, z, tail);
    Regroup(Block(head), Block(x), Block(y), Block(tail));
  }

  lemma FilesMerge(x: File, y: File, hidden: File)
    requires hidden == y.(path := x.path + Block(FileLines(x)[1..]) + NEWLINE + (PATH + y.path))
    ensures Block(FileLines(x)) + Block(FileLines(y)) == Block(FileLines(hidden))
  {
    var more, rest := FileLines(x)[1..], FileLines(y)[1..];
    BlocksMerge(PATH + x.path, PATH + y.path, more, rest);
    assert FileLines(x) == [PATH + x.path] + more && FileLines(y) == [PATH + y.path] + rest;
    assert PATH + hidden.path == PATH + x.path + Block(more) + NEWLINE + (PATH + y.path);
    assert FileLines(hidden) == [PATH + hidden.path] + rest;
  }

  /** Behind every two files some single file hides that prints the same text: its path has line breaks. */
  lemma LineBreakHidesAFile(x: File, y: File)
    ensures exists hidden :: Render(Config([x, y], [])) == Render(Config([hidden], []))
  {
    var hidden := y.(path := x.path + Block(FileLines(x)[1..]) + NEWLINE + (PATH + y.path));
    FilesMerge(x, y, hidden);
    DocumentMerge([MAGIC, FILES], [COMMANDS], FileLines(x), FileLines(y), FileLines(hidden));
    assert Blocks(Config([x, y], [])) == [[MAGIC, FILES], FileLines(x), FileLines(y), [COMMANDS]];
    assert Blocks(Config([hidden], [])) == [[MAGIC, FILES], FileLines(hidden), [COMMANDS]];
  }
}
