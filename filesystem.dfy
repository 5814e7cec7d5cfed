/**
 * The part of the filesystem the tools look at, as values. A directory holds
 * its subdirectories in the order the operating system lists them and its
 * files with their text. Text is taken after decoding and newline translation,
 * so only '\n' ends a line.
 */
module FileSystem {
  import opened Wrappers

  /** A file of the listing with its text decoded as `count_lines` decodes it, dropping
      bytes that are not UTF-8, which never fails; `None` when the file cannot be opened
      or read. */
  datatype FileEntry = FileEntry(name: string, text: Option<string>)

  datatype Dir = Dir(name: string, dirs: seq<Dir>, files: seq<FileEntry>)

  /** What a path names, for `read_file`: a regular file whose text is decoded strictly as
      UTF-8 (`None` when it is not valid UTF-8), a regular file that cannot be opened or
      read (permission denied, an I/O error), or something that is not a regular file. */
  datatype Entry = RegularFile(text: Option<string>) | UnreadableFile | NotRegularFile

  /** No directory name below d holds the separator '/'; POSIX guarantees it. */
  predicate WellNamed(d: Dir)
  {
    forall i :: 0 <= i < |d.dirs| ==> '/' !in d.dirs[i].name && WellNamed(d.dirs[i])
  }

  /** Number of directories in the tree of d, d included: the walk's termination measure. */
  function Size(d: Dir): (n: nat)
    ensures n >= 1
  {
    1 + SizeAll(d.dirs)
  }

  function SizeAll(ds: seq<Dir>): nat
  {
    if ds == [] then 0 else Size(ds[0]) + SizeAll(ds[1..])
  }
}

/** Python's `sorted()` on a directory's file names. */
module Sorting {
  import opened FileSystem

  /** Python's `a <= b` on str: lexicographic by code point. */
  predicate StrLessEq(a: string, b: string)
    decreases |a|
  {
    a == [] || (b != [] && (a[0] < b[0] || (a[0] == b[0] && StrLessEq(a[1..], b[1..]))))
  }

  lemma {:induction false} StrLessEqTotal(a: string, b: string)
    ensures StrLessEq(a, b) || StrLessEq(b, a)
    decreases |a|
  {
    if a != [] && b != [] && a[0] == b[0] {
      StrLessEqTotal(a[1..], b[1..]);
    }
  }

  lemma {:induction false} StrLessEqTransitive(a: string, b: string, c: string)
    requires StrLessEq(a, b) && StrLessEq(b, c)
    ensures StrLessEq(a, c)
    decreases |a|
  {
    if a != [] && a[0] == b[0] && b[0] == c[0] {
      StrLessEqTransitive(a[1..], b[1..], c[1..]);
    }
  }

  predicate SortedByName(s: seq<FileEntry>)
  {
    forall i, j :: 0 <= i < j < |s| ==> StrLessEq(s[i].name, s[j].name)
  }

  function InsertByName(x: FileEntry, s: seq<FileEntry>): seq<FileEntry>
  {
    if s == [] then [x]
    else if StrLessEq(x.name, s[0].name) then [x] + s
    else [s[0]] + InsertByName(x, s[1..])
  }

  /** `sorted(files)`, keyed on the name. */
  function SortByName(s: seq<FileEntry>): seq<FileEntry>
  {
    if s == [] then [] else InsertByName(s[0], SortByName(s[1..]))
  }

  /** b is at most every name in s. */
  predicate LowerBound(b: string, s: seq<FileEntry>)
  {
    forall j :: 0 <= j < |s| ==> StrLessEq(b, s[j].name)
  }

  lemma LowerBoundOfPermutation(b: string, x: FileEntry, t: seq<FileEntry>, r: seq<FileEntry>)
    requires LowerBound(b, t) && StrLessEq(b, x.name)
    requires multiset(r) == multiset(t) + multiset{x}
    ensures LowerBound(b, r)
  {
    forall j | 0 <= j < |r|
      ensures StrLessEq(b, r[j].name)
    {
      assert r[j] in multiset(r);
      if r[j] != x {
        assert r[j] in multiset(t);
        assert r[j] in t;
      }
    }
  }

  lemma SortedCons(y: FileEntry, r: seq<FileEntry>)
    requires LowerBound(y.name, r) && SortedByName(r)
    ensures SortedByName([y] + r)
  {
    assert forall j :: 1 <= j <= |r| ==> ([y] + r)[j] == r[j - 1];
  }

  lemma {:induction false} InsertByNameCorrect(x: FileEntry, s: seq<FileEntry>)
    requires SortedByName(s)
    ensures SortedByName(InsertByName(x, s))
    ensures multiset(InsertByName(x, s)) == multiset(s) + multiset{x}
  {
    if s == [] {
    } else if StrLessEq(x.name, s[0].name) {
      forall j | 0 <= j < |s|
        ensures StrLessEq(x.name, s[j].name)
      {
        if j > 0 {
          StrLessEqTransitive(x.name, s[0].name, s[j].name);
        }
      }
      SortedCons(x, s);
    } else {
      var t := s[1..];
      assert s == [s[0]] + t;
      InsertByNameCorrect(x, t);
      StrLessEqTotal(x.name, s[0].name);
      LowerBoundOfPermutation(s[0].name, x, t, InsertByName(x, t));
      SortedCons(s[0], InsertByName(x, t));
    }
  }

  /** `sorted` returns the same entries, in ascending order of name. */
  lemma {:induction false} SortByNameCorrect(s: seq<FileEntry>)
    ensures SortedByName(SortByName(s))
    ensures multiset(SortByName(s)) == multiset(s)
  {
    if s != [] {
      SortByNameCorrect(s[1..]);
      InsertByNameCorrect(s[0], SortByName(s[1..]));
      assert s == [s[0]] + s[1..];
    }
  }
}
