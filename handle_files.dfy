/**
 * The two file tools: the directory listing (`get_tree_directory_from_path`)
 * and the numbered excerpt of one file (`read_file`).
 *
 * The listing is a walk of the directory tree in the order `os.walk` takes
 * top-down: a directory is visited, the loop body may shrink its list of
 * subdirectories in place, and the walk then goes on into the subdirectories
 * left in that list, one after the other. The function `Visit` states that
 * order recursively; the method `GetTreeDirectoryFromPath` runs it with an
 * explicit stack, as CPython's `os.walk` does, and is proved to produce the
 * lines `Visit` describes.
 */
module HandleFiles {
  import opened Wrappers
  import opened Exceptions
  import opened Text
  import opened FileSystem
  import opened Sorting
  import opened Files
  import opened Sequences

  // ---------------------------------------------------------------------------
  // Languages and their exclusion rules.

  datatype Language = Python | JavaScript | Java | Go | Ruby | Rust | CSharp | Generic

  /** The value of each member of the `Language` enumeration. */
  function Tag(l: Language): string
  {
    match l
    case Python => "python"
    case JavaScript => "javascript"
    case Java => "java"
    case Go => "go"
    case Ruby => "ruby"
    case Rust => "rust"
    case CSharp => "csharp"
    case Generic => "generic"
  }

  /** `Language(tag)`: the member whose value is tag, if there is one. */
  function ParseLanguage(tag: string): (r: Option<Language>)
    ensures r.Some? ==> Tag(r.value) == tag
    ensures forall l :: Tag(l) == tag ==> r == Some(l)
  {
    if tag == "python" then Some(Python)
    else if tag == "javascript" then Some(JavaScript)
    else if tag == "java" then Some(Java)
    else if tag == "go" then Some(Go)
    else if tag == "ruby" then Some(Ruby)
    else if tag == "rust" then Some(Rust)
    else if tag == "csharp" then Some(CSharp)
    else if tag == "generic" then Some(Generic)
    else None
  }

  /** The "directories" and "files" patterns of one entry of the exclusion table. */
  datatype Rules = Rules(dirPatterns: seq<string>, filePatterns: seq<string>)

  /** Some pattern is found in name. Patterns are taken as literal text. */
  predicate AnyMatch(patterns: seq<string>, name: string)
  {
    exists i :: 0 <= i < |patterns| && IsSubstring(patterns[i], name)
  }

  /** `EXCLUDED_ITEMS.get(language, EXCLUDED_ITEMS[Language.GENERIC])`. The default is
      looked up before `get` runs, so a table without a generic entry fails for every
      language. */
  function RulesFor(table: map<Language, Rules>, l: Language): (r: Result<Rules, Error>)
    ensures r.Err? <==> Generic !in table
    ensures r.Ok? && l in table ==> r.value == table[l]
    ensures r.Ok? && l !in table ==> r.value == table[Generic]
  {
    if Generic !in table then Err(KeyError("generic"))
    else if l in table then Ok(table[l])
    else Ok(table[Generic])
  }

  // ---------------------------------------------------------------------------
  // Order-preserving filters.

  /** `[d for d in dirs if not any(pattern.search(d) for pattern in dir_patterns)]`. */
  function Prune(dirs: seq<Dir>, patterns: seq<string>): seq<Dir>
  {
    if dirs == [] then []
    else (if AnyMatch(patterns, dirs[0].name) then [] else [dirs[0]]) + Prune(dirs[1..], patterns)
  }

  /** One step of the filter: the first subdirectory is kept or dropped. */
  lemma PruneStep(dirs: seq<Dir>, patterns: seq<string>)
    requires dirs != []
    ensures AnyMatch(patterns, dirs[0].name) ==> Prune(dirs, patterns) == Prune(dirs[1..], patterns)
    ensures !AnyMatch(patterns, dirs[0].name) ==>
              Prune(dirs, patterns) != [] && Prune(dirs, patterns)[0] == dirs[0]
              && Prune(dirs, patterns)[1..] == Prune(dirs[1..], patterns)
  {
    var t := Prune(dirs[1..], patterns);
    if AnyMatch(patterns, dirs[0].name) {
      assert [] + t == t;
    } else {
      assert ([dirs[0]] + t)[1..] == t;
    }
  }

  /** The pruned list holds exactly the subdirectories whose name no pattern matches, in
      their order. */
  lemma PruneKeepsUnmatched(dirs: seq<Dir>, patterns: seq<string>)
    ensures var r := Prune(dirs, patterns);
      Subsequence(r, dirs)
      && (forall i :: 0 <= i < |r| ==> !AnyMatch(patterns, r[i].name))
      && (forall d :: multiset(r)[d] == if AnyMatch(patterns, d.name) then 0 else multiset(dirs)[d])
  {
    PruneOrder(dirs, patterns);
    PruneCounts(dirs, patterns);
  }

  lemma {:induction false} PruneOrder(dirs: seq<Dir>, patterns: seq<string>)
    ensures var r := Prune(dirs, patterns);
      Subsequence(r, dirs) && forall i :: 0 <= i < |r| ==> !AnyMatch(patterns, r[i].name)
  {
    if dirs != [] {
      PruneStep(dirs, patterns);
      PruneOrder(dirs[1..], patterns);
    }
  }

  lemma {:induction false} PruneCounts(dirs: seq<Dir>, patterns: seq<string>)
    ensures forall d :: multiset(Prune(dirs, patterns))[d] == if AnyMatch(patterns, d.name) then 0 else multiset(dirs)[d]
  {
    if dirs != [] {
      PruneCounts(dirs[1..], patterns);
      assert dirs == [dirs[0]] + dirs[1..];
    }
  }

  /** The files of a listing whose name no pattern matches, in their order. */
  function KeepFiles(files: seq<FileEntry>, patterns: seq<string>): seq<FileEntry>
  {
    if files == [] then []
    else (if AnyMatch(patterns, files[0].name) then [] else [files[0]]) + KeepFiles(files[1..], patterns)
  }

  lemma KeepFilesStep(files: seq<FileEntry>, patterns: seq<string>)
    requires files != []
    ensures AnyMatch(patterns, files[0].name) ==> KeepFiles(files, patterns) == KeepFiles(files[1..], patterns)
    ensures !AnyMatch(patterns, files[0].name) ==>
              KeepFiles(files, patterns) != [] && KeepFiles(files, patterns)[0] == files[0]
              && KeepFiles(files, patterns)[1..] == KeepFiles(files[1..], patterns)
  {
    var t := KeepFiles(files[1..], patterns);
    if AnyMatch(patterns, files[0].name) {
      assert [] + t == t;
    } else {
      assert ([files[0]] + t)[1..] == t;
    }
  }

  /** The kept files are exactly those whose name no pattern matches, in their order. */
  lemma KeepFilesKeepsUnmatched(files: seq<FileEntry>, patterns: seq<string>)
    ensures var r := KeepFiles(files, patterns);
      Subsequence(r, files)
      && (forall i :: 0 <= i < |r| ==> !AnyMatch(patterns, r[i].name))
      && (forall e :: multiset(r)[e] == if AnyMatch(patterns, e.name) then 0 else multiset(files)[e])
  {
    KeepFilesOrder(files, patterns);
    KeepFilesCounts(files, patterns);
  }

  lemma {:induction false} KeepFilesOrder(files: seq<FileEntry>, patterns: seq<string>)
    ensures var r := KeepFiles(files, patterns);
      Subsequence(r, files) && forall i :: 0 <= i < |r| ==> !AnyMatch(patterns, r[i].name)
  {
    if files != [] {
      KeepFilesStep(files, patterns);
      KeepFilesOrder(files[1..], patterns);
    }
  }

  lemma {:induction false} KeepFilesCounts(files: seq<FileEntry>, patterns: seq<string>)
    ensures forall e :: multiset(KeepFiles(files, patterns))[e] == if AnyMatch(patterns, e.name) then 0 else multiset(files)[e]
  {
    if files != [] {
      KeepFilesCounts(files[1..], patterns);
      assert files == [files[0]] + files[1..];
    }
  }

  lemma {:induction false} KeepFilesAppend(a: seq<FileEntry>, b: seq<FileEntry>, patterns: seq<string>)
    ensures KeepFiles(a + b, patterns) == KeepFiles(a, patterns) + KeepFiles(b, patterns)
  {
    if a == [] {
      assert a + b == b;
    } else {
      assert (a + b)[1..] == a[1..] + b;
      KeepFilesAppend(a[1..], b, patterns);
    }
  }

  /** What the loops over `sorted(files)` list: the files no pattern matches, in
      ascending order of name, each of them once. */
  lemma ListedFilesSortedAndFiltered(files: seq<FileEntry>, patterns: seq<string>)
    ensures var kept := KeepFiles(SortByName(files), patterns);
      SortedByName(kept)
      && (forall i :: 0 <= i < |kept| ==> !AnyMatch(patterns, kept[i].name))
      && multiset(kept) == multiset(KeepFiles(files, patterns))
  {
    SortByNameCorrect(files);
    KeepFilesOrder(SortByName(files), patterns);
    SubsequenceOfSorted(KeepFiles(SortByName(files), patterns), SortByName(files));
    KeepFilesOfPermutation(SortByName(files), files, patterns);
  }

  lemma KeepFilesOfPermutation(a: seq<FileEntry>, b: seq<FileEntry>, patterns: seq<string>)
    requires multiset(a) == multiset(b)
    ensures multiset(KeepFiles(a, patterns)) == multiset(KeepFiles(b, patterns))
  {
    KeepFilesCounts(a, patterns);
    KeepFilesCounts(b, patterns);
    assert forall e :: multiset(KeepFiles(a, patterns))[e] == multiset(KeepFiles(b, patterns))[e];
  }

  lemma {:induction false} SubsequenceOfSorted(a: seq<FileEntry>, b: seq<FileEntry>)
    requires Subsequence(a, b) && SortedByName(b)
    ensures SortedByName(a)
    decreases |b|
  {
    if a != [] {
      if a[0] == b[0] && Subsequence(a[1..], b[1..]) {
        SubsequenceOfSorted(a[1..], b[1..]);
        SubsequenceMembers(a[1..], b[1..]);
        forall j | 0 <= j < |a[1..]|
          ensures StrLessEq(a[0].name, a[1..][j].name)
        {
          assert a[1..][j] in b[1..];
          var m :| 0 <= m < |b[1..]| && b[1..][m] == a[1..][j];
          assert b[m + 1] == a[1..][j];
        }
        SortedCons(a[0], a[1..]);
        assert [a[0]] + a[1..] == a;
      } else {
        SubsequenceOfSorted(a, b[1..]);
      }
    }
  }

  // ---------------------------------------------------------------------------
  // The lines of the listing.

  /** A line of the listing: a directory, or a file with its line count. */
  datatype TreeLine = DirLine(indent: nat, name: string) | FileLine(indent: nat, name: string, count: nat)

  /** The text of a line: `f"{indent}{name}/"` or `f"{indent}{file} ({line_count} lines)"`. */
  function Render(line: TreeLine): string
  {
    match line
    case DirLine(indent, name) => Spaces(indent) + name + "/"
    case FileLine(indent, name, count) => Spaces(indent) + name + " (" + NatToString(count) + " lines)"
  }

  function RenderAll(lines: seq<TreeLine>): seq<string>
  {
    seq(|lines|, i requires 0 <= i < |lines| => Render(lines[i]))
  }

  lemma RenderAllAppend(a: seq<TreeLine>, b: seq<TreeLine>)
    ensures RenderAll(a + b) == RenderAll(a) + RenderAll(b)
  {
  }

  /** The lines the files of one directory add at the given indentation. */
  function LinesOfFiles(files: seq<FileEntry>, indent: nat): seq<TreeLine>
  {
    seq(|files|, i requires 0 <= i < |files| => FileLine(indent, files[i].name, CountLines(files[i].text)))
  }

  /** The `for file in sorted(files)` loops of the listing: one line per file that no pattern
      matches. */
  function FileLines(files: seq<FileEntry>, patterns: seq<string>, indent: nat): seq<TreeLine>
  {
    LinesOfFiles(KeepFiles(SortByName(files), patterns), indent)
  }

  /** The rendered lines of the first n files of a listing that the patterns keep. */
  function ListedPrefix(files: seq<FileEntry>, n: nat, patterns: seq<string>, indent: nat): seq<string>
    requires n <= |files|
  {
    RenderAll(LinesOfFiles(KeepFiles(files[..n], patterns), indent))
  }

  /** The loop over `sorted(files)`, appending to the lines already produced. */
  method AppendFileLines(lines: seq<string>, files: seq<FileEntry>, patterns: seq<string>, indent: nat)
    returns (out: seq<string>)
    ensures out == lines + RenderAll(FileLines(files, patterns, indent))
  {
    var sortedFiles := SortByName(files);
    out := lines;
    for i := 0 to |sortedFiles|
      invariant out == lines + ListedPrefix(sortedFiles, i, patterns, indent)
    {
      var file := sortedFiles[i];
      ListedPrefixStep(sortedFiles, i, patterns, indent);
      if !AnyMatch(patterns, file.name) {
        var lineCount := CountLines(file.text);
        out := out + [Render(FileLine(indent, file.name, lineCount))];
      }
    }
    assert sortedFiles[..|sortedFiles|] == sortedFiles;
  }

  /** The lines of the files grow by one file at a time, as the loop takes them. */
  lemma ListedPrefixStep(files: seq<FileEntry>, i: nat, patterns: seq<string>, indent: nat)
    requires i < |files|
    ensures ListedPrefix(files, i + 1, patterns, indent)
            == ListedPrefix(files, i, patterns, indent)
               + (if AnyMatch(patterns, files[i].name) then []
                  else [Render(FileLine(indent, files[i].name, CountLines(files[i].text)))])
  {
    var file := files[i];
    assert files[..i + 1] == files[..i] + [file];
    KeepFilesAppend(files[..i], [file], patterns);
    assert [file][1..] == [];
    KeepFilesStep([file], patterns);
    var before := KeepFiles(files[..i], patterns);
    if !AnyMatch(patterns, file.name) {
      assert KeepFiles([file], patterns) == [file];
      assert LinesOfFiles(before + [file], indent) == LinesOfFiles(before, indent) + [FileLine(indent, file.name, CountLines(file.text))];
      RenderAllAppend(LinesOfFiles(before, indent), [FileLine(indent, file.name, CountLines(file.text))]);
    } else {
      assert KeepFiles([file], patterns) == [];
      assert before + [] == before;
    }
  }

  // ---------------------------------------------------------------------------
  // The walk.

  /** A directory the walk reaches, with its path relative to the top of the walk as a
      list of components (empty for the top itself). */
  datatype Frame = Frame(dir: Dir, parts: seq<string>)

  /** `os.path.relpath(root, path)` for a directory below the top. */
  function RelPath(parts: seq<string>): string
  {
    Join(parts, '/')
  }

  /** Some path component matches some pattern. */
  predicate AnyPartMatches(pathParts: seq<string>, patterns: seq<string>)
  {
    exists k :: 0 <= k < |pathParts| && AnyMatch(patterns, pathParts[k])
  }

  /** The skip test of the listing: some component of the relative path matches a
      directory pattern. */
  predicate Suppressed(parts: seq<string>, patterns: seq<string>)
  {
    AnyPartMatches(Split(RelPath(parts), '/'), patterns)
  }

  /** The indentation level of the listing, `rel_path.count(os.sep)`. */
  function Level(parts: seq<string>): nat
  {
    CountChar(RelPath(parts), '/')
  }

  /** The lines one visit of the loop body adds. */
  function Own(f: Frame, rules: Rules): seq<TreeLine>
  {
    if f.parts == [] then FileLines(f.dir.files, rules.filePatterns, 4)
    else if Suppressed(f.parts, rules.dirPatterns) then []
    else
      var level := Level(f.parts);
      [DirLine(4 * (level + 1), f.dir.name)] + FileLines(f.dir.files, rules.filePatterns, 4 * (level + 2))
  }

  /** The subdirectories the walk goes on into: the pruned list, except after a
      suppressed directory, whose list the loop body leaves as it was. */
  function Descend(f: Frame, rules: Rules): seq<Dir>
  {
    if f.parts == [] || !Suppressed(f.parts, rules.dirPatterns) then Prune(f.dir.dirs, rules.dirPatterns)
    else f.dir.dirs
  }

  function ChildFrames(dirs: seq<Dir>, parts: seq<string>): seq<Frame>
  {
    seq(|dirs|, i requires 0 <= i < |dirs| => Frame(dirs[i], parts + [dirs[i].name]))
  }

  function Children(f: Frame, rules: Rules): seq<Frame>
  {
    ChildFrames(Descend(f, rules), f.parts)
  }

  /** Number of directories in the trees of the frames: the stack's termination measure. */
  function SizeFrames(fs: seq<Frame>): nat
  {
    if fs == [] then 0 else Size(fs[0].dir) + SizeFrames(fs[1..])
  }

  lemma {:induction false} SizeFramesAppend(a: seq<Frame>, b: seq<Frame>)
    ensures SizeFrames(a + b) == SizeFrames(a) + SizeFrames(b)
  {
    if a == [] {
      assert a + b == b;
    } else {
      assert (a + b)[1..] == a[1..] + b;
      SizeFramesAppend(a[1..], b);
    }
  }

  lemma {:induction false} SizeOfChildFrames(dirs: seq<Dir>, parts: seq<string>)
    ensures SizeFrames(ChildFrames(dirs, parts)) == SizeAll(dirs)
  {
    if dirs != [] {
      assert ChildFrames(dirs, parts)[1..] == ChildFrames(dirs[1..], parts);
      SizeOfChildFrames(dirs[1..], parts);
    }
  }

  lemma {:induction false} PruneSmaller(dirs: seq<Dir>, patterns: seq<string>)
    ensures SizeAll(Prune(dirs, patterns)) <= SizeAll(dirs)
  {
    if dirs != [] {
      PruneStep(dirs, patterns);
      PruneSmaller(dirs[1..], patterns);
    }
  }

  /** The children of a frame hold fewer directories than the frame itself. */
  lemma ChildrenSmaller(f: Frame, rules: Rules)
    ensures SizeFrames(Children(f, rules)) < Size(f.dir)
  {
    SizeOfChildFrames(Descend(f, rules), f.parts);
    PruneSmaller(f.dir.dirs, rules.dirPatterns);
  }

  /** The lines the walk adds from frame f on: its own visit, then the walks of the
      subdirectories it goes on into. */
  function Visit(f: Frame, rules: Rules): seq<TreeLine>
    decreases Size(f.dir), 0
  {
    ChildrenSmaller(f, rules);
    Own(f, rules) + VisitAll(Children(f, rules), rules)
  }

  function VisitAll(fs: seq<Frame>, rules: Rules): seq<TreeLine>
    decreases SizeFrames(fs), 1
  {
    if fs == [] then [] else Visit(fs[0], rules) + VisitAll(fs[1..], rules)
  }

  /** The directories the walk yields from frame f on, in the order it yields them. */
  function Walked(f: Frame, rules: Rules): seq<Frame>
    decreases Size(f.dir), 0
  {
    ChildrenSmaller(f, rules);
    [f] + WalkedAll(Children(f, rules), rules)
  }

  function WalkedAll(fs: seq<Frame>, rules: Rules): seq<Frame>
    decreases SizeFrames(fs), 1
  {
    if fs == [] then [] else Walked(fs[0], rules) + WalkedAll(fs[1..], rules)
  }

  lemma VisitAllAppend(a: seq<Frame>, b: seq<Frame>, rules: Rules)
    ensures VisitAll(a + b, rules) == VisitAll(a, rules) + VisitAll(b, rules)
    ensures WalkedAll(a + b, rules) == WalkedAll(a, rules) + WalkedAll(b, rules)
  {
    VisitAllAppendLines(a, b, rules);
    WalkedAllAppend(a, b, rules);
  }

  lemma {:induction false} VisitAllAppendLines(a: seq<Frame>, b: seq<Frame>, rules: Rules)
    ensures VisitAll(a + b, rules) == VisitAll(a, rules) + VisitAll(b, rules)
    decreases |a|
  {
    if a == [] {
      assert a + b == b;
    } else {
      var ab := a + b;
      assert ab[0] == a[0] && ab[1..] == a[1..] + b;
      assert VisitAll(ab, rules) == Visit(a[0], rules) + VisitAll(a[1..] + b, rules);
      assert VisitAll(a, rules) == Visit(a[0], rules) + VisitAll(a[1..], rules);
      VisitAllAppendLines(a[1..], b, rules);
      Regroup(VisitAll(a, rules) + VisitAll(b, rules), VisitAll(a, rules), VisitAll(b, rules),
              Visit(a[0], rules), VisitAll(a[1..], rules), VisitAll(a[1..] + b, rules));
    }
  }

  lemma {:induction false} WalkedAllAppend(a: seq<Frame>, b: seq<Frame>, rules: Rules)
    ensures WalkedAll(a + b, rules) == WalkedAll(a, rules) + WalkedAll(b, rules)
    decreases |a|
  {
    if a == [] {
      assert a + b == b;
    } else {
      var ab := a + b;
      assert ab[0] == a[0] && ab[1..] == a[1..] + b;
      assert WalkedAll(ab, rules) == Walked(a[0], rules) + WalkedAll(a[1..] + b, rules);
      assert WalkedAll(a, rules) == Walked(a[0], rules) + WalkedAll(a[1..], rules);
      WalkedAllAppend(a[1..], b, rules);
      Regroup(WalkedAll(a, rules) + WalkedAll(b, rules), WalkedAll(a, rules), WalkedAll(b, rules),
              Walked(a[0], rules), WalkedAll(a[1..], rules), WalkedAll(a[1..] + b, rules));
    }
  }

  /** One turn of the walk: the frame on top of the stack is replaced by its children. */
  lemma VisitStep(f: Frame, rest: seq<Frame>, rules: Rules)
    ensures VisitAll([f] + rest, rules) == Own(f, rules) + VisitAll(Children(f, rules) + rest, rules)
    ensures WalkedAll([f] + rest, rules) == [f] + WalkedAll(Children(f, rules) + rest, rules)
    ensures SizeFrames(Children(f, rules) + rest) < SizeFrames([f] + rest)
  {
    VisitStepLines(f, rest, rules);
    VisitStepFrames(f, rest, rules);
    VisitStepSize(f, rest, rules);
  }

  lemma VisitStepLines(f: Frame, rest: seq<Frame>, rules: Rules)
    ensures VisitAll([f] + rest, rules) == Own(f, rules) + VisitAll(Children(f, rules) + rest, rules)
  {
    var children := Children(f, rules);
    VisitAllCons(f, rest, rules);
    VisitUnfold(f, rules);
    VisitAllAppend(children, rest, rules);
    Regroup(VisitAll([f] + rest, rules), Visit(f, rules), VisitAll(rest, rules),
            Own(f, rules), VisitAll(children, rules), VisitAll(children + rest, rules));
  }

  lemma VisitStepFrames(f: Frame, rest: seq<Frame>, rules: Rules)
    ensures WalkedAll([f] + rest, rules) == [f] + WalkedAll(Children(f, rules) + rest, rules)
  {
    var children := Children(f, rules);
    VisitAllCons(f, rest, rules);
    VisitUnfold(f, rules);
    VisitAllAppend(children, rest, rules);
    Regroup(WalkedAll([f] + rest, rules), Walked(f, rules), WalkedAll(rest, rules),
            [f], WalkedAll(children, rules), WalkedAll(children + rest, rules));
  }

  lemma VisitAllCons(f: Frame, rest: seq<Frame>, rules: Rules)
    ensures VisitAll([f] + rest, rules) == Visit(f, rules) + VisitAll(rest, rules)
    ensures WalkedAll([f] + rest, rules) == Walked(f, rules) + WalkedAll(rest, rules)
  {
    var stack := [f] + rest;
    assert stack[0] == f && stack[1..] == rest;
  }

  lemma VisitUnfold(f: Frame, rules: Rules)
    ensures Visit(f, rules) == Own(f, rules) + VisitAll(Children(f, rules), rules)
    ensures Walked(f, rules) == [f] + WalkedAll(Children(f, rules), rules)
  {
  }

  lemma VisitStepSize(f: Frame, rest: seq<Frame>, rules: Rules)
    ensures SizeFrames(Children(f, rules) + rest) < SizeFrames([f] + rest)
  {
    assert ([f] + rest)[0] == f;
    assert ([f] + rest)[1..] == rest;
    SizeFramesAppend(Children(f, rules), rest);
    ChildrenSmaller(f, rules);
  }

  /** `os.path.basename(path)`: what follows the last '/'. */
  function BaseName(path: string): string
  {
    var pieces := Split(path, '/');
    pieces[|pieces| - 1]
  }

  /** The whole listing: the line of the top directory, then the walk, if path names a
      directory (`os.walk` yields nothing otherwise). */
  function Tree(path: string, top: Option<Dir>, rules: Rules): seq<TreeLine>
  {
    [DirLine(0, BaseName(path))] + (if top.None? then [] else Visit(Frame(top.value, []), rules))
  }

  /** The loop body on a directory below the top that is not suppressed. */
  lemma OwnListed(f: Frame, rules: Rules)
    requires f.parts != [] && !Suppressed(f.parts, rules.dirPatterns)
    ensures var level := Level(f.parts);
      RenderAll(Own(f, rules))
        == [Render(DirLine(4 * (level + 1), f.dir.name))]
           + RenderAll(FileLines(f.dir.files, rules.filePatterns, 4 * (level + 2)))
    ensures Descend(f, rules) == Prune(f.dir.dirs, rules.dirPatterns)
  {
    var level := Level(f.parts);
    var head := DirLine(4 * (level + 1), f.dir.name);
    var files := FileLines(f.dir.files, rules.filePatterns, 4 * (level + 2));
    assert Own(f, rules) == [head] + files;
    RenderAllAppend([head], files);
    assert RenderAll([head]) == [Render(head)];
  }

  /** The body of the `for root, dirs, files in os.walk(path)` loop for one directory:
      the lines it appends and the subdirectories it leaves in `dirs`. */
  method VisitDirectory(treeLines: seq<string>, frame: Frame, rules: Rules)
    returns (out: seq<string>, descend: seq<Dir>)
    ensures out == treeLines + RenderAll(Own(frame, rules))
    ensures descend == Descend(frame, rules)
  {
    if frame.parts == [] {
      descend := Prune(frame.dir.dirs, rules.dirPatterns);
      out := AppendFileLines(treeLines, frame.dir.files, rules.filePatterns, 4);
    } else {
      out, descend := VisitSubdirectory(treeLines, frame, rules);
    }
  }

  /** The loop body for a directory below the top: the skip test, the prune of `dirs`,
      the directory line and the file lines. */
  method VisitSubdirectory(treeLines: seq<string>, frame: Frame, rules: Rules)
    returns (out: seq<string>, descend: seq<Dir>)
    requires frame.parts != []
    ensures out == treeLines + RenderAll(Own(frame, rules))
    ensures descend == Descend(frame, rules)
    ensures Suppressed(frame.parts, rules.dirPatterns) ==> out == treeLines && descend == frame.dir.dirs
    ensures !Suppressed(frame.parts, rules.dirPatterns) ==> descend == Prune(frame.dir.dirs, rules.dirPatterns)
  {
    var dir := frame.dir;
    var dirPatterns, filePatterns := rules.dirPatterns, rules.filePatterns;
    var relPath := Join(frame.parts, '/');
    var pathParts := Split(relPath, '/');
    if AnyPartMatches(pathParts, dirPatterns) {
      return treeLines, dir.dirs;
    }
    OwnListed(frame, rules);
    descend := Prune(dir.dirs, dirPatterns);
    var level := CountChar(relPath, '/');
    var headed := treeLines + [Render(DirLine(4 * (level + 1), dir.name))];
    out := AppendFileLines(headed, dir.files, filePatterns, 4 * (level + 2));
    Regroup(out, headed, RenderAll(FileLines(dir.files, filePatterns, 4 * (level + 2))),
            treeLines, [Render(DirLine(4 * (level + 1), dir.name))], RenderAll(Own(frame, rules)));
  }

  /** One turn of the walk, as the loop sees it: the lines produced so far and the lines
      still to come add up as before. */
  lemma WalkStep(before: seq<string>, f: Frame, rest: seq<Frame>, rules: Rules)
    ensures (before + RenderAll(Own(f, rules))) + RenderAll(VisitAll(Children(f, rules) + rest, rules))
            == before + RenderAll(VisitAll([f] + rest, rules))
    ensures WalkedAll([f] + rest, rules) == [f] + WalkedAll(Children(f, rules) + rest, rules)
    ensures SizeFrames(Children(f, rules) + rest) < SizeFrames([f] + rest)
  {
    var later := VisitAll(Children(f, rules) + rest, rules);
    VisitStep(f, rest, rules);
    RenderAllAppend(Own(f, rules), later);
    Regroup((before + RenderAll(Own(f, rules))) + RenderAll(later), before + RenderAll(Own(f, rules)),
            RenderAll(later), before, RenderAll(Own(f, rules)), RenderAll(VisitAll([f] + rest, rules)));
  }

  /** One turn of the walk loop: visit the directory on top of the stack and put the
      subdirectories it goes on into in its place. */
  method WalkTurn(treeLines: seq<string>, stack: seq<Frame>, rules: Rules)
    returns (out: seq<string>, next: seq<Frame>)
    requires stack != []
    ensures out + RenderAll(VisitAll(next, rules)) == treeLines + RenderAll(VisitAll(stack, rules))
    ensures WalkedAll(stack, rules) == [stack[0]] + WalkedAll(next, rules)
    ensures SizeFrames(next) < SizeFrames(stack)
  {
    var frame, rest := stack[0], stack[1..];
    var descend;
    out, descend := VisitDirectory(treeLines, frame, rules);
    assert stack == [frame] + rest;
    WalkStep(treeLines, frame, rest, rules);
    next := ChildFrames(descend, frame.parts) + rest;
    assert next == Children(frame, rules) + rest;
  }

  /** The loop `for root, dirs, files in os.walk(path)` over the tree top, run with an
      explicit stack of the directories still to visit, each next to be visited first.
      The ghost `walked` lists the directories the walk yields. */
  method WalkTree(lines: seq<string>, top: Dir, rules: Rules) returns (out: seq<string>, ghost walked: seq<Frame>)
    ensures out == lines + RenderAll(Visit(Frame(top, []), rules))
    ensures walked == Walked(Frame(top, []), rules)
  {
    var root := Frame(top, []);
    var stack := [root];
    out := lines;
    walked := [];
    assert [root][1..] == [];
    assert VisitAll(stack, rules) == Visit(root, rules);
    assert WalkedAll(stack, rules) == Walked(root, rules);
    while stack != []
      invariant out + RenderAll(VisitAll(stack, rules)) == lines + RenderAll(Visit(root, rules))
      invariant walked + WalkedAll(stack, rules) == Walked(root, rules)
      decreases SizeFrames(stack)
    {
      var frame := stack[0];
      var next;
      out, next := WalkTurn(out, stack, rules);
      Regroup((walked + [frame]) + WalkedAll(next, rules), walked + [frame], WalkedAll(next, rules),
              walked, [frame], WalkedAll(stack, rules));
      stack := next;
      walked := walked + [frame];
    }
    assert VisitAll(stack, rules) == [] && WalkedAll(stack, rules) == [];
  }

  /** `get_tree_directory_from_path(path, language)`, with the exclusion table and the
      directory tree at path (None when path is not a directory) as parameters. The
      ghost `walked` lists the directories `os.walk` yields. */
  method GetTreeDirectoryFromPath(path: string, language: string, table: map<Language, Rules>, top: Option<Dir>)
    returns (r: Result<string, Error>, ghost walked: seq<Frame>)
    ensures ParseLanguage(Lower(language)).None? ==> r == Err(InvalidLanguage(Lower(language)))
    ensures ParseLanguage(Lower(language)).Some? && RulesFor(table, ParseLanguage(Lower(language)).value).Err? ==>
              r == Err(KeyError("generic"))
    ensures ParseLanguage(Lower(language)).Some? && RulesFor(table, ParseLanguage(Lower(language)).value).Ok? ==>
              r == Ok(Join(RenderAll(Tree(path, top, RulesFor(table, ParseLanguage(Lower(language)).value).value)), '\n'))
    ensures r.Err? ==> walked == []
    ensures ParseLanguage(Lower(language)).Some? && RulesFor(table, ParseLanguage(Lower(language)).value).Ok? ==>
              var rules := RulesFor(table, ParseLanguage(Lower(language)).value).value;
              walked == (if top.None? then [] else Walked(Frame(top.value, []), rules))
  {
    var tag := Lower(language);
    var parsed := ParseLanguage(tag);
    if parsed.None? {
      return Err(InvalidLanguage(tag)), [];
    }
    var exclusions := RulesFor(table, parsed.value);
    if exclusions.Err? {
      return Err(exclusions.error), [];
    }
    var rules := exclusions.value;
    var first := DirLine(0, BaseName(path));
    var treeLines := [Render(first)];
    walked := [];
    if top.Some? {
      treeLines, walked := WalkTree(treeLines, top.value, rules);
      RenderAllAppend([first], Visit(Frame(top.value, []), rules));
    } else {
      assert Tree(path, top, rules) == [first];
    }
    r := Ok(Join(treeLines, '\n'));
  }

  // ---------------------------------------------------------------------------
  // What the listing shows.

  /** Every component of the frame's path is a plain name that no directory pattern
      matches, and no directory below it has '/' in its name. */
  predicate Clean(f: Frame, patterns: seq<string>)
  {
    WellNamed(f.dir)
    && (forall k :: 0 <= k < |f.parts| ==> '/' !in f.parts[k] && !AnyMatch(patterns, f.parts[k]))
    && (f.parts != [] ==> f.parts[|f.parts| - 1] == f.dir.name)
  }

  /** A clean frame below the top is not suppressed: its relative path splits back into
      its components, none of which matches. */
  lemma CleanNotSuppressed(f: Frame, patterns: seq<string>)
    requires Clean(f, patterns) && f.parts != []
    ensures !Suppressed(f.parts, patterns)
  {
    SplitJoin(f.parts, '/');
  }

  /** The walk goes on from a clean frame into clean frames only. */
  lemma ChildrenClean(f: Frame, rules: Rules)
    requires Clean(f, rules.dirPatterns)
    ensures forall c :: c in Children(f, rules) ==> Clean(c, rules.dirPatterns)
  {
    if f.parts != [] {
      CleanNotSuppressed(f, rules.dirPatterns);
    }
    var kept := Prune(f.dir.dirs, rules.dirPatterns);
    assert Descend(f, rules) == kept;
    PruneOrder(f.dir.dirs, rules.dirPatterns);
    SubsequenceMembers(kept, f.dir.dirs);
    ChildFramesClean(f, kept, rules.dirPatterns);
  }

  lemma ChildFramesClean(f: Frame, kept: seq<Dir>, patterns: seq<string>)
    requires Clean(f, patterns)
    requires forall d :: d in kept ==> d in f.dir.dirs
    requires forall i :: 0 <= i < |kept| ==> !AnyMatch(patterns, kept[i].name)
    ensures forall c :: c in ChildFrames(kept, f.parts) ==> Clean(c, patterns)
  {
    forall i | 0 <= i < |kept|
      ensures Clean(ChildFrames(kept, f.parts)[i], patterns)
    {
      ChildClean(f, kept[i], patterns);
    }
  }

  lemma ChildClean(f: Frame, d: Dir, patterns: seq<string>)
    requires Clean(f, patterns) && d in f.dir.dirs && !AnyMatch(patterns, d.name)
    ensures Clean(Frame(d, f.parts + [d.name]), patterns)
  {
    var j :| 0 <= j < |f.dir.dirs| && f.dir.dirs[j] == d;
    var parts := f.parts + [d.name];
    forall k | 0 <= k < |parts|
      ensures '/' !in parts[k] && !AnyMatch(patterns, parts[k])
    {
      if k < |f.parts| {
        assert parts[k] == f.parts[k];
      }
    }
  }

  lemma {:induction false} WalkedClean(f: Frame, rules: Rules)
    requires Clean(f, rules.dirPatterns)
    ensures forall g :: g in Walked(f, rules) ==> Clean(g, rules.dirPatterns)
    decreases Size(f.dir), 0
  {
    ChildrenSmaller(f, rules);
    ChildrenClean(f, rules);
    WalkedAllClean(Children(f, rules), rules);
  }

  lemma {:induction false} WalkedAllClean(fs: seq<Frame>, rules: Rules)
    requires forall c :: c in fs ==> Clean(c, rules.dirPatterns)
    ensures forall g :: g in WalkedAll(fs, rules) ==> Clean(g, rules.dirPatterns)
    decreases SizeFrames(fs), 1
  {
    if fs != [] {
      WalkedClean(fs[0], rules);
      WalkedAllClean(fs[1..], rules);
    }
  }

  /** Pruning at every level keeps the walk out of excluded directories: when no
      directory name holds '/', no directory the walk yields below the top has a path
      component that a directory pattern matches, so the skip of a directory with an
      excluded component never happens. */
  lemma WalkAvoidsExcluded(top: Dir, rules: Rules)
    requires WellNamed(top)
    ensures forall g :: g in Walked(Frame(top, []), rules) && g.parts != [] ==>
              !Suppressed(g.parts, rules.dirPatterns)
              && forall k :: 0 <= k < |g.parts| ==> !AnyMatch(rules.dirPatterns, g.parts[k])
  {
    WalkedClean(Frame(top, []), rules);
    forall g | g in Walked(Frame(top, []), rules) && g.parts != []
      ensures !Suppressed(g.parts, rules.dirPatterns)
    {
      CleanNotSuppressed(g, rules.dirPatterns);
    }
  }

  /** A directory at depth n (n components below the top) is listed with 4 * n blanks
      and its files with 4 * (n + 1); the top's files get 4. */
  lemma IndentByDepth(f: Frame, rules: Rules)
    requires forall k :: 0 <= k < |f.parts| ==> '/' !in f.parts[k]
    requires f.parts == [] || !Suppressed(f.parts, rules.dirPatterns)
    ensures f.parts == [] ==> Own(f, rules) == FileLines(f.dir.files, rules.filePatterns, 4)
    ensures f.parts != [] ==>
              Own(f, rules) == [DirLine(4 * |f.parts|, f.dir.name)]
                               + FileLines(f.dir.files, rules.filePatterns, 4 * (|f.parts| + 1))
  {
    if f.parts != [] {
      CountSeparatorsOfJoin(f.parts, '/');
    }
  }

  /** No line of the listing below the top names something a pattern excludes: a
      directory line's name matches no directory pattern, a file line's name no file
      pattern. */
  lemma {:induction false} VisitListsNoExcluded(f: Frame, rules: Rules)
    requires Clean(f, rules.dirPatterns)
    ensures forall l :: l in Visit(f, rules) ==>
              (l.DirLine? ==> !AnyMatch(rules.dirPatterns, l.name))
              && (l.FileLine? ==> !AnyMatch(rules.filePatterns, l.name))
    decreases Size(f.dir), 0
  {
    ChildrenSmaller(f, rules);
    ChildrenClean(f, rules);
    OwnListsNoExcluded(f, rules);
    VisitAllListsNoExcluded(Children(f, rules), rules);
  }

  lemma {:induction false} VisitAllListsNoExcluded(fs: seq<Frame>, rules: Rules)
    requires forall c :: c in fs ==> Clean(c, rules.dirPatterns)
    ensures forall l :: l in VisitAll(fs, rules) ==>
              (l.DirLine? ==> !AnyMatch(rules.dirPatterns, l.name))
              && (l.FileLine? ==> !AnyMatch(rules.filePatterns, l.name))
    decreases SizeFrames(fs), 1
  {
    if fs != [] {
      VisitListsNoExcluded(fs[0], rules);
      VisitAllListsNoExcluded(fs[1..], rules);
    }
  }

  lemma OwnListsNoExcluded(f: Frame, rules: Rules)
    requires Clean(f, rules.dirPatterns)
    ensures forall l :: l in Own(f, rules) ==>
              (l.DirLine? ==> !AnyMatch(rules.dirPatterns, l.name))
              && (l.FileLine? ==> !AnyMatch(rules.filePatterns, l.name))
  {
    FileLinesUnmatched(f.dir.files, rules.filePatterns, 4 * (Level(f.parts) + 2));
    FileLinesUnmatched(f.dir.files, rules.filePatterns, 4);
    if f.parts != [] {
      CleanNotSuppressed(f, rules.dirPatterns);
      assert f.dir.name == f.parts[|f.parts| - 1];
    }
  }

  lemma FileLinesUnmatched(files: seq<FileEntry>, patterns: seq<string>, indent: nat)
    ensures forall l :: l in FileLines(files, patterns, indent) ==> l.FileLine? && !AnyMatch(patterns, l.name)
  {
    KeepFilesOrder(SortByName(files), patterns);
  }

  /** The listing starts with the top's name and splits back into its lines, when no
      name in it holds a '\n'. */
  lemma ListingLines(path: string, top: Option<Dir>, rules: Rules)
    requires forall i :: 0 <= i < |RenderAll(Tree(path, top, rules))| ==> '\n' !in RenderAll(Tree(path, top, rules))[i]
    ensures var lines := Split(Join(RenderAll(Tree(path, top, rules)), '\n'), '\n');
      lines == RenderAll(Tree(path, top, rules)) && lines[0] == BaseName(path) + "/"
  {
    SplitJoin(RenderAll(Tree(path, top, rules)), '\n');
  }

  // ---------------------------------------------------------------------------
  // read_file.

  /** The messages of the two range errors. */
  const StartLineNegative := "start_line must be non-negative"
  const EndBeforeStart := "end_line must be greater than or equal to start_line"

  /** The first line of the excerpt. */
  function Header(total: nat): string
  {
    "Total lines: " + NatToString(total) + "\n"
  }

  /** `f"{i+1:4d} | {line}"` for the line at index i. */
  function NumberedLine(index: nat, line: string): string
  {
    RightAlign(NatToString(index + 1), 4) + " | " + line
  }

  /** end_line after `read_file` adjusts a missing or too large one: never past the last
      line. */
  function ClampEnd(endLine: Option<int>, total: nat): (last: int)
    ensures last < total
    ensures endLine.None? || endLine.value >= total ==> last == total - 1
    ensures endLine.Some? && endLine.value < total ==> last == endLine.value
  {
    if endLine.None? || endLine.value >= total then total - 1 else endLine.value
  }

  /** The numbered lines first..last. */
  function NumberedRange(lines: seq<string>, first: nat, last: int): seq<string>
    requires last < |lines|
  {
    if last < first then []
    else seq(last - first + 1, k requires 0 <= k < last - first + 1 => NumberedLine(first + k, lines[first + k]))
  }

  lemma NumberedRangeStep(lines: seq<string>, first: nat, i: nat)
    requires first <= i < |lines|
    ensures NumberedRange(lines, first, i) == NumberedRange(lines, first, i - 1) + [NumberedLine(i, lines[i])]
  {
    var longer, shorter := NumberedRange(lines, first, i), NumberedRange(lines, first, i - 1);
    assert |longer| == |shorter| + 1;
    assert forall k :: 0 <= k < |shorter| ==> longer[k] == shorter[k];
    assert longer[|shorter|] == NumberedLine(i, lines[i]);
  }

  /** `read_file(file_path, start_line, end_line)`, with what file_path names as a
      parameter (None when nothing exists there). */
  method ReadFile(path: string, entry: Option<Entry>, startLine: int, endLine: Option<int>)
    returns (r: Result<string, Error>)
    ensures entry.None? ==> r == Err(FileNotFound(path))
    ensures entry == Some(NotRegularFile) ==> r == Err(ValueError(path + " is not a file"))
    ensures entry.Some? && !entry.value.NotRegularFile? && startLine < 0 ==>
              r == Err(ValueError(StartLineNegative))
    ensures entry == Some(UnreadableFile) && startLine >= 0 ==> r == Err(OSError(path))
    ensures entry.Some? && entry.value.RegularFile? && startLine >= 0 && entry.value.text.None? ==>
              r == Err(UnicodeDecodeError(path))
    ensures entry.Some? && entry.value.RegularFile? && startLine >= 0 && entry.value.text.Some? ==>
              var lines := SplitLines(entry.value.text.value);
              var last := ClampEnd(endLine, |lines|);
              (last < startLine ==> r == Err(ValueError(EndBeforeStart)))
              && (startLine <= last ==> r == Ok(Header(|lines|) + Concat(NumberedRange(lines, startLine, last))))
    ensures entry.Some? && entry.value.RegularFile? && startLine >= 0 && entry.value.text == Some("") ==>
              r == Err(ValueError(EndBeforeStart))
  {
    if entry.None? {
      return Err(FileNotFound(path));
    }
    if entry.value.NotRegularFile? {
      return Err(ValueError(path + " is not a file"));
    }
    if startLine < 0 {
      return Err(ValueError(StartLineNegative));
    }
    if entry.value.UnreadableFile? {
      return Err(OSError(path));
    }
    if entry.value.text.None? {
      return Err(UnicodeDecodeError(path));
    }
    var lines := SplitLines(entry.value.text.value);
    var last := if endLine.None? || endLine.value >= |lines| then |lines| - 1 else endLine.value;
    if last < startLine {
      return Err(ValueError(EndBeforeStart));
    }
    var result := NumberLines(lines, startLine, last);
    ConcatCons(Header(|lines|), NumberedRange(lines, startLine, last));
    r := Ok(Concat(result));
  }

  /** The excerpt `read_file` builds: the header, then lines first..last each under its
      number. */
  method NumberLines(lines: seq<string>, first: nat, last: int) returns (result: seq<string>)
    requires first <= last < |lines|
    ensures result == [Header(|lines|)] + NumberedRange(lines, first, last)
  {
    result := [Header(|lines|)];
    for i := first to last + 1
      invariant result == [Header(|lines|)] + NumberedRange(lines, first, i - 1)
    {
      NumberedRangeStep(lines, first, i);
      result := result + [NumberedLine(i, lines[i])];
    }
  }

  lemma ConcatCons(head: string, rest: seq<string>)
    ensures Concat([head] + rest) == head + Concat(rest)
  {
    assert ([head] + rest)[1..] == rest;
  }

  /** Reads an entry of the excerpt back: the blanks of the field, the line number, the
      " | " separator, and the line itself. */
  function ParseNumbered(entry: string): Option<(nat, string)>
  {
    var blanks := LeadingSpaces(entry);
    var rest := entry[blanks..];
    var digits := LeadingDigits(rest);
    if digits == 0 || !IsPrefix(" | ", rest[digits..]) then None
    else Some((ParseDigits(rest[..digits]), rest[digits + 3..]))
  }

  /** Blanks, then digits, then " | " and a line read back as the number and the line. */
  lemma ParseNumberedOf(pad: string, digits: string, line: string)
    requires forall i :: 0 <= i < |pad| ==> pad[i] == ' '
    requires digits != [] && AllDigits(digits)
    ensures ParseNumbered(pad + digits + " | " + line) == Some((ParseDigits(digits), line))
  {
    var sep := " | " + line;
    var tail := digits + sep;
    var entry := pad + digits + " | " + line;
    assert entry == pad + tail;
    LeadingSpacesOf(pad, tail);
    assert entry[|pad|..] == tail;
    LeadingDigitsOf(digits, sep);
    assert tail[..|digits|] == digits;
    assert tail[|digits|..] == sep;
    assert sep[..3] == " | ";
    assert sep[3..] == line;
  }

  /** Every entry of the excerpt reads back as its 1-based line number and its line. */
  lemma NumberedLineRoundTrip(index: nat, line: string)
    ensures ParseNumbered(NumberedLine(index, line)) == Some((index + 1, line))
  {
    var numeral := NatToString(index + 1);
    NatToStringRoundTrip(index + 1);
    var pad := if |numeral| < 4 then Spaces(4 - |numeral|) else "";
    assert RightAlign(numeral, 4) == pad + numeral;
    ParseNumberedOf(pad, numeral, line);
  }

  /** The excerpt holds lines first..last of the file, each under its own number. */
  lemma ExcerptLines(lines: seq<string>, first: nat, last: int)
    requires first <= last < |lines|
    ensures var entries := NumberedRange(lines, first, last);
      |entries| == last - first + 1
      && forall k :: 0 <= k < |entries| ==> ParseNumbered(entries[k]) == Some((first + k + 1, lines[first + k]))
  {
    forall k | 0 <= k < last - first + 1
      ensures ParseNumbered(NumberedRange(lines, first, last)[k]) == Some((first + k + 1, lines[first + k]))
    {
      NumberedLineRoundTrip(first + k, lines[first + k]);
    }
  }

  /** With the defaults (from line 0, no end) the excerpt covers the whole file: the
      lines it numbers make up the text again. */
  lemma WholeFileExcerpt(text: string)
    requires text != []
    ensures var lines := SplitLines(text);
      ClampEnd(None, |lines|) == |lines| - 1
      && |NumberedRange(lines, 0, |lines| - 1)| == |lines|
      && Concat(lines) == text
  {
    SplitLinesConcat(text);
    assert SplitLines(text) != [];
  }
}
