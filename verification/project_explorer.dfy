/** `ProjectExplorer`: the tree listing of a project directory and the collection of the
    function names found in its code files, assembled into a transcription prompt. The
    directory is given as a value (its entries in listing order, each file with the regular
    expression matches found in it); the explorer's lists are module constants since it
    never changes them. */
module ProjectExplorer {
  import opened Wrappers
  import opened Text

  /** `code_extensions`; the keys of `function_patterns` are the same nine extensions. */
  const CodeExtensions: seq<string> := [".py", ".js", ".ts", ".java", ".c", ".cpp", ".cs", ".php", ".rb"]
  const IgnoredFolders: seq<string> := ["__pycache__", ".git", ".vscode", "node_modules", "venv", "env", ".env"]

  const LastConnector := "└─ "
  const MidConnector := "├─ "
  const LastIndent := "    "
  const MidIndent := "│   "
  /** The prefix of the root's own entries. */
  const RootIndent := "  "

  const FilesHeader := "El usuario puede mencionar los siguientes nombres de archivos en el audio:"
  const NoFilesNote := "No se encontraron archivos en el proyecto."
  const FunctionsHeader := "El usuario puede mencionar también nombres de funciones en el audio:"
  const NoFunctionsNote := "No se encontraron funciones en el proyecto."

  /** One regular expression match, as the list of its groups; a group that did not take
      part is "" (like `None`, it is falsy). */
  type Match = seq<string>

  /** What reading a file gives: an error (the file is skipped), or its matches in order. */
  datatype FileContent = Unreadable | Readable(matches: seq<Match>)

  /** A directory entry; a folder holds its entries in `os.listdir` order. */
  datatype Entry = File(name: string, content: FileContent) | Folder(name: string, entries: seq<Entry>)

  // ---------------------------------------------------------------------------
  // Partition and sorting of a directory's entries
  // ---------------------------------------------------------------------------

  predicate Ignored(e: Entry)
  {
    e.Folder? && e.name in IgnoredFolders
  }

  /** The folders of a listing that are not ignored, in listing order. */
  function FoldersOf(es: seq<Entry>): seq<Entry>
  {
    if es == [] then []
    else
      var last := es[|es| - 1];
      FoldersOf(es[..|es| - 1]) + (if last.Folder? && !Ignored(last) then [last] else [])
  }

  /** The files of a listing, in listing order; no file is dropped for its name. */
  function FilesOf(es: seq<Entry>): seq<Entry>
  {
    if es == [] then []
    else
      var last := es[|es| - 1];
      FilesOf(es[..|es| - 1]) + (if last.File? then [last] else [])
  }

  /** The folders kept are exactly the listing's folders that are not ignored, and the
      files are exactly its files: no file is dropped for its name. */
  lemma {:induction false} PartitionMembers(es: seq<Entry>)
    ensures forall x :: x in FoldersOf(es) <==> x in es && x.Folder? && !Ignored(x)
    ensures forall x :: x in FilesOf(es) <==> x in es && x.File?
    decreases |es|
  {
    if es != [] {
      var init := es[..|es| - 1];
      PartitionMembers(init);
      assert es == init + [es[|es| - 1]];
    }
  }

  lemma {:induction false} FoldersOfAppend(a: seq<Entry>, b: seq<Entry>)
    ensures FoldersOf(a + b) == FoldersOf(a) + FoldersOf(b)
    ensures FilesOf(a + b) == FilesOf(a) + FilesOf(b)
    decreases |b|
  {
    if b == [] {
      assert a + b == a;
    } else {
      var b' := b[..|b| - 1];
      assert (a + b)[..|a + b| - 1] == a + b';
      FoldersOfAppend(a, b');
    }
  }

  predicate SortedByName(es: seq<Entry>)
  {
    forall i, j :: 0 <= i < j < |es| ==> LessEq(es[i].name, es[j].name)
  }

  lemma LessEqTransitive(a: string, b: string, c: string)
    requires LessEq(a, b) && LessEq(b, c)
    ensures LessEq(a, c)
  {
    if a != b && b != c {
      LessTransitive(a, b, c);
    }
  }

  /** `x` placed before the first entry of `s` whose name it does not exceed. */
  function InsertByName(x: Entry, s: seq<Entry>): seq<Entry>
  {
    if s == [] then [x]
    else if LessEq(x.name, s[0].name) then [x] + s
    else [s[0]] + InsertByName(x, s[1..])
  }

  /** Insertion adds `x` and loses nothing. */
  lemma {:induction false} InsertByNamePermutes(x: Entry, s: seq<Entry>)
    ensures multiset(InsertByName(x, s)) == multiset(s) + multiset{x}
  {
    if s != [] && !LessEq(x.name, s[0].name) {
      InsertByNamePermutes(x, s[1..]);
      assert s == [s[0]] + s[1..];
    }
  }

  /** Every name in `s` is at least `n`. */
  predicate NamesAtLeast(n: string, s: seq<Entry>)
  {
    forall j :: 0 <= j < |s| ==> LessEq(n, s[j].name)
  }

  /** Inserting an entry no smaller than `n` keeps every name at least `n`. */
  lemma {:induction false} InsertByNameBound(x: Entry, s: seq<Entry>, n: string)
    requires LessEq(n, x.name) && NamesAtLeast(n, s)
    ensures NamesAtLeast(n, InsertByName(x, s))
  {
    if s != [] && !LessEq(x.name, s[0].name) {
      InsertByNameBound(x, s[1..], n);
      assert NamesAtLeast(n, s[1..]) by {
        forall j | 0 <= j < |s| - 1 ensures LessEq(n, s[1..][j].name) {
          assert s[1..][j] == s[j + 1];
        }
      }
    }
  }

  lemma {:induction false} InsertByNameSorted(x: Entry, s: seq<Entry>)
    requires SortedByName(s)
    ensures SortedByName(InsertByName(x, s))
  {
    if s == [] {
    } else if LessEq(x.name, s[0].name) {
      forall j | 0 < j < |s|
        ensures LessEq(x.name, s[j].name)
      {
        LessEqTransitive(x.name, s[0].name, s[j].name);
      }
      assert SortedByName([x] + s);
    } else {
      var tail := s[1..];
      assert SortedByName(tail) && NamesAtLeast(s[0].name, tail) by {
        forall j | 0 <= j < |tail| ensures tail[j] == s[j + 1] { }
      }
      InsertByNameSorted(x, tail);
      LessTotal(x.name, s[0].name);
      InsertByNameBound(x, tail, s[0].name);
      var rest := InsertByName(x, tail);
      assert InsertByName(x, s) == [s[0]] + rest;
    }
  }

  /** Insertion adds `x` and keeps every entry of `s`. */
  lemma {:induction false} InsertByNameMembers(x: Entry, s: seq<Entry>)
    ensures forall y :: y in InsertByName(x, s) <==> y == x || y in s
  {
    if s != [] && !LessEq(x.name, s[0].name) {
      InsertByNameMembers(x, s[1..]);
      assert s == [s[0]] + s[1..];
    }
  }

  /** `list.sort()` on the entries, by name, as an insertion sort: a permutation of the
      input, holding the same entries. */
  function SortByName(s: seq<Entry>): seq<Entry>
  {
    if s == [] then []
    else InsertByName(s[|s| - 1], SortByName(s[..|s| - 1]))
  }

  /** Sorting is a permutation. */
  lemma {:induction false} SortByNamePermutes(s: seq<Entry>)
    ensures multiset(SortByName(s)) == multiset(s)
  {
    if s != [] {
      var init, x := s[..|s| - 1], s[|s| - 1];
      SortByNamePermutes(init);
      InsertByNamePermutes(x, SortByName(init));
      assert s == init + [x];
      assert multiset(s) == multiset(init) + multiset{x};
    }
  }

  /** Sorting keeps exactly the entries it was given. */
  lemma {:induction false} SortByNameMembers(s: seq<Entry>)
    ensures forall x :: x in SortByName(s) <==> x in s
  {
    if s != [] {
      var init := s[..|s| - 1];
      SortByNameMembers(init);
      InsertByNameMembers(s[|s| - 1], SortByName(init));
      assert s == init + [s[|s| - 1]];
    }
  }

  /** What a directory's sorted folders and files hold. */
  lemma ListingMembers(dir: Entry)
    requires dir.Folder?
    ensures forall x :: x in SortByName(FoldersOf(dir.entries)) <==> x in dir.entries && x.Folder? && !Ignored(x)
    ensures forall x :: x in SortByName(FilesOf(dir.entries)) <==> x in dir.entries && x.File?
  {
    PartitionMembers(dir.entries);
    SortByNameMembers(FoldersOf(dir.entries));
    SortByNameMembers(FilesOf(dir.entries));
  }

  /** The sorted listing is in order of name. */
  lemma {:induction false} SortByNameSorted(s: seq<Entry>)
    ensures SortedByName(SortByName(s))
  {
    if s != [] {
      SortByNameSorted(s[..|s| - 1]);
      InsertByNameSorted(s[|s| - 1], SortByName(s[..|s| - 1]));
    }
  }

  // ---------------------------------------------------------------------------
  // The tree listing
  // ---------------------------------------------------------------------------

  function Connector(last: bool): string
  {
    if last then LastConnector else MidConnector
  }

  function Indent(last: bool): string
  {
    if last then LastIndent else MidIndent
  }

  /** The lines `_get_file_tree(dir, prefix, is_root)` returns: for the root, its name and
      "/", with its entries at two spaces; then the folder blocks, then the file lines. */
  function Tree(dir: Entry, prefix: string, isRoot: bool): (r: seq<string>)
    requires dir.Folder?
    ensures isRoot ==> |r| >= 1 && r[0] == dir.name + "/"
    decreases dir, 2
  {
    if isRoot then [dir.name + "/"] + Below(dir, RootIndent) else Below(dir, prefix)
  }

  /** The lines of a directory's entries at prefix `p`: the folder blocks, then the files. */
  function Below(dir: Entry, p: string): seq<string>
    requires dir.Folder?
    decreases dir, 1
  {
    var folders := SortByName(FoldersOf(dir.entries));
    var files := SortByName(FilesOf(dir.entries));
    ListingMembers(dir);
    FolderLines(dir, folders, |folders|, files == [], p) + FileLines(files, |files|, p)
  }

  /** The lines of the first `n` folders `fs` of `dir`: each folder's own line (its
      connector "└─ " when it is the last folder of a directory without files), then its
      own tree one level deeper. */
  function FolderLines(dir: Entry, fs: seq<Entry>, n: nat, noFiles: bool, prefix: string): seq<string>
    requires dir.Folder? && n <= |fs|
    requires forall f :: f in fs ==> f in dir.entries && f.Folder?
    decreases dir, 0, n
  {
    if n == 0 then []
    else
      var i := n - 1;
      var last := i == |fs| - 1 && noFiles;
      assert fs[i] in fs;
      FolderLines(dir, fs, i, noFiles, prefix)
      + [prefix + Connector(last) + fs[i].name + "/"]
      + Tree(fs[i], prefix + Indent(last), false)
  }

  /** The lines of the first `n` files, "└─ " for the last file only. */
  function FileLines(files: seq<Entry>, n: nat, prefix: string): seq<string>
    requires n <= |files|
  {
    if n == 0 then []
    else FileLines(files, n - 1, prefix) + [prefix + Connector(n - 1 == |files| - 1) + files[n - 1].name]
  }

  /** `_get_file_tree`: the root line first when at the root, then the entries' lines. */
  method GetFileTree(dir: Entry, prefix: string := "", isRoot: bool := true) returns (lines: seq<string>)
    requires dir.Folder?
    ensures lines == Tree(dir, prefix, isRoot)
    decreases dir, 2
  {
    if isRoot {
      var below := ListEntries(dir, RootIndent);
      lines := [dir.name + "/"] + below;
    } else {
      lines := ListEntries(dir, prefix);
    }
  }

  /** The body of `_get_file_tree` below the root line: splits the listing into the folders
      it keeps and the files, sorts both, then emits the folder blocks (recursing into each
      folder) and the file lines. */
  method ListEntries(dir: Entry, p: string) returns (lines: seq<string>)
    requires dir.Folder?
    ensures lines == Below(dir, p)
    decreases dir, 1
  {
    var folders, files := SplitListing(dir.entries);
    folders := SortByName(folders);
    files := SortByName(files);
    ListingMembers(dir);
    var folderLines := ListFolders(dir, folders, files == [], p);
    var fileLines := ListFiles(files, p);
    lines := folderLines + fileLines;
  }

  /** The loop of `_get_file_tree` over the sorted folders: each folder's line, then the
      tree of that folder one level deeper. */
  method ListFolders(dir: Entry, folders: seq<Entry>, noFiles: bool, p: string) returns (lines: seq<string>)
    requires dir.Folder?
    requires forall f :: f in folders ==> f in dir.entries && f.Folder?
    ensures lines == FolderLines(dir, folders, |folders|, noFiles, p)
    decreases dir, 0
  {
    lines := [];
    var i := 0;
    while i < |folders|
      invariant 0 <= i <= |folders|
      invariant lines == FolderLines(dir, folders, i, noFiles, p)
    {
      var last := i == |folders| - 1 && noFiles;
      assert folders[i] in folders;
      lines := lines + [p + Connector(last) + folders[i].name + "/"];
      var subtree := GetFileTree(folders[i], p + Indent(last), false);
      lines := lines + subtree;
      i := i + 1;
    }
  }

  /** The loop of `_get_file_tree` that sorts the listing into the folders it keeps and
      the files. */
  method SplitListing(entries: seq<Entry>) returns (folders: seq<Entry>, files: seq<Entry>)
    ensures folders == FoldersOf(entries) && files == FilesOf(entries)
  {
    folders, files := [], [];
    var k := 0;
    while k < |entries|
      invariant 0 <= k <= |entries|
      invariant folders == FoldersOf(entries[..k]) && files == FilesOf(entries[..k])
    {
      var item := entries[k];
      assert entries[..k + 1][..k] == entries[..k];
      if item.Folder? {
        if item.name !in IgnoredFolders {
          folders := folders + [item];
        }
      } else {
        files := files + [item];
      }
      k := k + 1;
    }
    assert entries[..k] == entries;
  }

  /** The loop of `_get_file_tree` over the sorted files. */
  method ListFiles(files: seq<Entry>, p: string) returns (lines: seq<string>)
    ensures lines == FileLines(files, |files|, p)
  {
    lines := [];
    var j := 0;
    while j < |files|
      invariant 0 <= j <= |files|
      invariant lines == FileLines(files, j, p)
    {
      lines := lines + [p + Connector(j == |files| - 1) + files[j].name];
      j := j + 1;
    }
  }

  /** Every line of `lines` extends `q` by at least one character. */
  predicate Prefixed(lines: seq<string>, q: string)
  {
    forall k :: 0 <= k < |lines| ==> q < lines[k]
  }

  lemma PrefixedAppend(a: seq<string>, b: seq<string>, q: string)
    requires Prefixed(a, q) && Prefixed(b, q)
    ensures Prefixed(a + b, q)
  {
    forall k | 0 <= k < |a + b|
      ensures q < (a + b)[k]
    {
      if k >= |a| {
        assert (a + b)[k] == b[k - |a|];
      }
    }
  }

  lemma PrefixedWeaken(lines: seq<string>, q: string, ext: string)
    requires Prefixed(lines, q + ext)
    ensures Prefixed(lines, q)
  {
    forall k | 0 <= k < |lines|
      ensures q < lines[k]
    {
      assert (q + ext)[..|q|] == q;
      assert lines[k][..|q + ext|][..|q|] == lines[k][..|q|];
    }
  }

  /** Below the root, every line of a directory's tree starts with its prefix. */
  lemma {:induction false} TreePrefixed(dir: Entry, prefix: string)
    requires dir.Folder?
    ensures Prefixed(Tree(dir, prefix, false), prefix)
    decreases dir, 2
  {
    var folders := SortByName(FoldersOf(dir.entries));
    var files := SortByName(FilesOf(dir.entries));
    ListingMembers(dir);
    FolderLinesPrefixed(dir, folders, |folders|, files == [], prefix);
    FileLinesPrefixed(files, |files|, prefix);
    PrefixedAppend(FolderLines(dir, folders, |folders|, files == [], prefix), FileLines(files, |files|, prefix), prefix);
  }

  /** The block of folder `fs[n - 1]`: its own line with its connector and a trailing "/",
      then its whole subtree, every line of which starts with the parent's prefix followed
      by "    " when the folder is the last entry and by "│   " otherwise. */
  lemma FolderChildrenIndented(dir: Entry, fs: seq<Entry>, n: nat, noFiles: bool, p: string)
    requires dir.Folder? && 0 < n <= |fs|
    requires forall f :: f in fs ==> f in dir.entries && f.Folder?
    ensures var before := FolderLines(dir, fs, n - 1, noFiles, p);
            var lines := FolderLines(dir, fs, n, noFiles, p);
            var last := n - 1 == |fs| - 1 && noFiles;
            && |before| < |lines| && lines[..|before|] == before
            && lines[|before|] == p + Connector(last) + fs[n - 1].name + "/"
            && Prefixed(lines[|before| + 1..], p + (if last then LastIndent else MidIndent))
  {
    var last := n - 1 == |fs| - 1 && noFiles;
    assert fs[n - 1] in fs;
    TreePrefixed(fs[n - 1], p + Indent(last));
    var before := FolderLines(dir, fs, n - 1, noFiles, p);
    var own := p + Connector(last) + fs[n - 1].name + "/";
    var sub := Tree(fs[n - 1], p + Indent(last), false);
    var lines := FolderLines(dir, fs, n, noFiles, p);
    assert lines == before + [own] + sub;
    assert lines[|before| + 1..] == sub;
  }

  lemma {:induction false} FolderLinesPrefixed(dir: Entry, fs: seq<Entry>, n: nat, noFiles: bool, prefix: string)
    requires dir.Folder? && n <= |fs|
    requires forall f :: f in fs ==> f in dir.entries && f.Folder?
    ensures Prefixed(FolderLines(dir, fs, n, noFiles, prefix), prefix)
    decreases dir, 0, n
  {
    if n > 0 {
      var i := n - 1;
      var last := i == |fs| - 1 && noFiles;
      assert fs[i] in fs;
      var own := prefix + Connector(last) + fs[i].name + "/";
      assert own[..|prefix|] == prefix;
      var sub := Tree(fs[i], prefix + Indent(last), false);
      TreePrefixed(fs[i], prefix + Indent(last));
      PrefixedWeaken(sub, prefix, Indent(last));
      FolderLinesPrefixed(dir, fs, i, noFiles, prefix);
      PrefixedAppend(FolderLines(dir, fs, i, noFiles, prefix), [own], prefix);
      PrefixedAppend(FolderLines(dir, fs, i, noFiles, prefix) + [own], sub, prefix);
    }
  }

  lemma {:induction false} FileLinesPrefixed(files: seq<Entry>, n: nat, prefix: string)
    requires n <= |files|
    ensures Prefixed(FileLines(files, n, prefix), prefix)
  {
    if n > 0 {
      var own := prefix + Connector(n - 1 == |files| - 1) + files[n - 1].name;
      assert own[..|prefix|] == prefix;
      FileLinesPrefixed(files, n - 1, prefix);
      PrefixedAppend(FileLines(files, n - 1, prefix), [own], prefix);
    }
  }

  /** The first line is the root's name and "/", and every other line is indented by at
      least the two spaces of the root's entries. */
  lemma RootTree(root: Entry, prefix: string)
    requires root.Folder?
    ensures var t := Tree(root, prefix, true);
            |t| >= 1 && t[0] == root.name + "/" && Prefixed(t[1..], RootIndent)
  {
    var t := Tree(root, prefix, true);
    assert t[1..] == Tree(root, RootIndent, false);
    TreePrefixed(root, RootIndent);
  }

  /** A line that lists an entry directly under the prefix `p` (its connector comes right
      after `p`), as opposed to the lines of a deeper level. */
  predicate IsEntryLine(line: string, p: string)
  {
    p < line && (line[|p|] == '└' || line[|p|] == '├')
  }

  /** The lines that list entries directly under `p`, in order. */
  function EntryLines(lines: seq<string>, p: string): seq<string>
  {
    if lines == [] then []
    else (if IsEntryLine(lines[0], p) then [lines[0]] else []) + EntryLines(lines[1..], p)
  }

  lemma {:induction false} EntryLinesAppend(a: seq<string>, b: seq<string>, p: string)
    ensures EntryLines(a + b, p) == EntryLines(a, p) + EntryLines(b, p)
  {
    if a == [] {
      assert a + b == b;
    } else {
      assert (a + b)[1..] == a[1..] + b;
      EntryLinesAppend(a[1..], b, p);
    }
  }

  /** A block indented one level deeper than `p` lists nothing directly under `p`. */
  lemma {:induction false} EntryLinesOfDeeper(lines: seq<string>, p: string, last: bool)
    requires Prefixed(lines, p + Indent(last))
    ensures EntryLines(lines, p) == []
  {
    if lines != [] {
      var q := p + Indent(last);
      assert q < lines[0];
      assert lines[0][|p|] == q[|p|];
      assert !IsEntryLine(lines[0], p);
      EntryLinesOfDeeper(lines[1..], p, last);
    }
  }

  /** An entry line followed by a deeper block adds just that entry to what `before` lists. */
  lemma EntryLinesBlock(before: seq<string>, own: string, sub: seq<string>, p: string, last: bool)
    requires IsEntryLine(own, p) && Prefixed(sub, p + Indent(last))
    ensures EntryLines(before + [own] + sub, p) == EntryLines(before, p) + [own]
  {
    var single: seq<string> := [own];
    assert EntryLines(single, p) == single by {
      assert single[1..] == [];
    }
    EntryLinesOfDeeper(sub, p, last);
    EntryLinesAppend(before, single, p);
    EntryLinesAppend(before + single, sub, p);
  }

  lemma {:induction false} FolderEntryLines(dir: Entry, fs: seq<Entry>, n: nat, noFiles: bool, p: string)
    requires dir.Folder? && n <= |fs|
    requires forall f :: f in fs ==> f in dir.entries && f.Folder?
    ensures var e := EntryLines(FolderLines(dir, fs, n, noFiles, p), p);
            && |e| == n
            && forall k :: 0 <= k < n ==> e[k] == p + Connector(k == |fs| - 1 && noFiles) + fs[k].name + "/"
  {
    if n > 0 {
      var i := n - 1;
      var last := i == |fs| - 1 && noFiles;
      assert fs[i] in fs;
      var own := p + Connector(last) + fs[i].name + "/";
      var sub := Tree(fs[i], p + Indent(last), false);
      assert own[..|p|] == p && own[|p|] == Connector(last)[0];
      TreePrefixed(fs[i], p + Indent(last));
      var lines := FolderLines(dir, fs, i, noFiles, p);
      EntryLinesBlock(lines, own, sub, p, last);
      FolderEntryLines(dir, fs, i, noFiles, p);
      var before := EntryLines(lines, p);
      var e := EntryLines(FolderLines(dir, fs, n, noFiles, p), p);
      assert e == before + [own];
      forall k | 0 <= k < n
        ensures e[k] == p + Connector(k == |fs| - 1 && noFiles) + fs[k].name + "/"
      {
        if k < i {
          assert e[k] == before[k];
        }
      }
    }
  }

  lemma {:induction false} FileEntryLines(files: seq<Entry>, n: nat, p: string)
    requires n <= |files|
    ensures var e := EntryLines(FileLines(files, n, p), p);
            && |e| == n
            && forall k :: 0 <= k < n ==> e[k] == p + Connector(k == |files| - 1) + files[k].name
  {
    if n > 0 {
      var own := p + Connector(n - 1 == |files| - 1) + files[n - 1].name;
      assert own[..|p|] == p && own[|p|] == Connector(n - 1 == |files| - 1)[0];
      var single: seq<string> := [own];
      assert EntryLines(single, p) == single by {
        assert single[1..] == [];
      }
      FileEntryLines(files, n - 1, p);
      EntryLinesAppend(FileLines(files, n - 1, p), single, p);
      var before := EntryLines(FileLines(files, n - 1, p), p);
      var e := EntryLines(FileLines(files, n, p), p);
      assert e == before + [own];
      forall k | 0 <= k < n
        ensures e[k] == p + Connector(k == |files| - 1) + files[k].name
      {
        if k < n - 1 {
          assert e[k] == before[k];
        }
      }
    }
  }

  /** `e` lists the folders, each with a trailing "/", then the files, all directly under
      `p`; the last file gets "└─ ", the last folder gets it only when there are no files,
      and every other entry gets "├─ ". */
  predicate ListsEntries(e: seq<string>, folders: seq<Entry>, files: seq<Entry>, p: string)
  {
    && |e| == |folders| + |files|
    && (forall i :: 0 <= i < |folders| ==>
          e[i] == p + Connector(i == |folders| - 1 && files == []) + folders[i].name + "/")
    && (forall j :: 0 <= j < |files| ==>
          e[|folders| + j] == p + Connector(j == |files| - 1) + files[j].name)
  }

  /** Within one directory, the lines listing entries directly under `p`: every folder
      before every file, both groups sorted by name, ignored folders left out and no file
      left out, with the connectors of `ListsEntries`. */
  lemma DirectoryListing(dir: Entry, p: string)
    requires dir.Folder?
    ensures ListsEntries(EntryLines(Tree(dir, p, false), p),
                         SortByName(FoldersOf(dir.entries)), SortByName(FilesOf(dir.entries)), p)
    ensures SortedByName(SortByName(FoldersOf(dir.entries))) && SortedByName(SortByName(FilesOf(dir.entries)))
    ensures forall x :: x in SortByName(FoldersOf(dir.entries)) <==> x in dir.entries && x.Folder? && !Ignored(x)
    ensures forall x :: x in SortByName(FilesOf(dir.entries)) <==> x in dir.entries && x.File?
  {
    var folders := SortByName(FoldersOf(dir.entries));
    var files := SortByName(FilesOf(dir.entries));
    SortByNameSorted(FoldersOf(dir.entries));
    SortByNameSorted(FilesOf(dir.entries));
    ListingMembers(dir);
    assert Tree(dir, p, false) == FolderLines(dir, folders, |folders|, files == [], p) + FileLines(files, |files|, p);
    ListingEntryLines(dir, folders, files, p);
  }

  /** The entry lines of the folder blocks followed by the file lines. */
  lemma ListingEntryLines(dir: Entry, folders: seq<Entry>, files: seq<Entry>, p: string)
    requires dir.Folder?
    requires forall f :: f in folders ==> f in dir.entries && f.Folder?
    ensures ListsEntries(EntryLines(FolderLines(dir, folders, |folders|, files == [], p)
                                    + FileLines(files, |files|, p), p), folders, files, p)
  {
    var fl := FolderLines(dir, folders, |folders|, files == [], p);
    var gl := FileLines(files, |files|, p);
    EntryLinesAppend(fl, gl, p);
    FolderEntryLines(dir, folders, |folders|, files == [], p);
    FileEntryLines(files, |files|, p);
    ConcatListsEntries(EntryLines(fl, p), EntryLines(gl, p), folders, files, p);
  }

  lemma ConcatListsEntries(fe: seq<string>, ge: seq<string>, folders: seq<Entry>, files: seq<Entry>, p: string)
    requires |fe| == |folders|
    requires forall k :: 0 <= k < |folders| ==>
               fe[k] == p + Connector(k == |folders| - 1 && files == []) + folders[k].name + "/"
    requires |ge| == |files|
    requires forall k :: 0 <= k < |files| ==> ge[k] == p + Connector(k == |files| - 1) + files[k].name
    ensures ListsEntries(fe + ge, folders, files, p)
  {
    var e := fe + ge;
    assert forall j :: 0 <= j < |files| ==> e[|folders| + j] == ge[j];
  }

  /** An ignored folder, wherever it sits in the listing and whatever it holds, changes
      nothing in the tree. */
  lemma IgnoredFolderInvisible(dir: Entry, k: nat, junk: Entry, prefix: string, isRoot: bool)
    requires dir.Folder? && k <= |dir.entries| && Ignored(junk)
    ensures Tree(Folder(dir.name, dir.entries[..k] + [junk] + dir.entries[k..]), prefix, isRoot)
            == Tree(dir, prefix, isRoot)
  {
    var dir' := Folder(dir.name, dir.entries[..k] + [junk] + dir.entries[k..]);
    BelowIgnored(dir, k, junk, RootIndent);
    BelowIgnored(dir, k, junk, prefix);
    assert Tree(dir', prefix, isRoot)
           == if isRoot then [dir.name + "/"] + Below(dir', RootIndent) else Below(dir', prefix);
  }

  /** An ignored folder contributes neither a folder nor a file to the partition. */
  lemma PartitionSkipsIgnored(a: seq<Entry>, junk: Entry, b: seq<Entry>)
    requires Ignored(junk)
    ensures FoldersOf(a + [junk] + b) == FoldersOf(a + b)
    ensures FilesOf(a + [junk] + b) == FilesOf(a + b)
  {
    FoldersOfAppend(a, [junk]);
    FoldersOfAppend(a + [junk], b);
    FoldersOfAppend(a, b);
    assert FoldersOf([junk]) == [] && FilesOf([junk]) == [] by {
      assert [junk][..0] == [];
    }
  }

  lemma BelowIgnored(dir: Entry, k: nat, junk: Entry, p: string)
    requires dir.Folder? && k <= |dir.entries| && Ignored(junk)
    ensures Below(Folder(dir.name, dir.entries[..k] + [junk] + dir.entries[k..]), p) == Below(dir, p)
  {
    var es := dir.entries;
    var a, b := es[..k], es[k..];
    assert es == a + b;
    var es' := a + [junk] + b;
    var dir' := Folder(dir.name, es');
    PartitionSkipsIgnored(a, junk, b);
    var folders := SortByName(FoldersOf(es));
    var files := SortByName(FilesOf(es));
    ListingMembers(dir);
    assert forall f :: f in es ==> f in es';
    FolderLinesOtherDir(dir, dir', folders, |folders|, files == [], p);
  }

  /** The folder lines depend on the folders listed, not on the directory they came from. */
  lemma {:induction false} FolderLinesOtherDir(dir: Entry, dir': Entry, fs: seq<Entry>, n: nat,
                                                noFiles: bool, p: string)
    requires dir.Folder? && dir'.Folder? && n <= |fs|
    requires forall f :: f in fs ==> f in dir.entries && f in dir'.entries && f.Folder?
    ensures FolderLines(dir, fs, n, noFiles, p) == FolderLines(dir', fs, n, noFiles, p)
  {
    if n > 0 {
      FolderLinesOtherDir(dir, dir', fs, n - 1, noFiles, p);
    }
  }

  // ---------------------------------------------------------------------------
  // Function names
  // ---------------------------------------------------------------------------

  /** The index of the last '.' of `s`, if any. */
  function LastDot(s: string): (r: Option<nat>)
    ensures r.Some? ==> r.value < |s| && s[r.value] == '.'
    ensures r.Some? ==> forall k :: r.value < k < |s| ==> s[k] != '.'
    ensures r.None? ==> forall k :: 0 <= k < |s| ==> s[k] != '.'
  {
    if s == [] then None
    else if s[|s| - 1] == '.' then Some(|s| - 1)
    else LastDot(s[..|s| - 1])
  }

  /** The extension `os.path.splitext` gives a file name: from the last '.' on, unless
      only dots come before that '.' (".env" and "..py" have none). */
  function Ext(name: string): string
  {
    match LastDot(name)
    case None => ""
    case Some(d) => if exists k :: 0 <= k < d && name[k] != '.' then name[d..] else ""
  }

  /** A stem holding something other than a dot, followed by a dot and text without dots,
      has exactly that suffix as its extension. */
  lemma ExtOfStem(stem: string, suffix: string)
    requires exists k :: 0 <= k < |stem| && stem[k] != '.'
    requires |suffix| >= 1 && suffix[0] == '.' && forall k :: 1 <= k < |suffix| ==> suffix[k] != '.'
    ensures Ext(stem + suffix) == suffix
  {
    var s := stem + suffix;
    var d := LastDot(s);
    assert s[|stem|] == '.';
    assert forall k :: |stem| < k < |s| ==> s[k] == suffix[k - |stem|];
    assert d.Some? && d.value == |stem|;
    var k :| 0 <= k < |stem| && stem[k] != '.';
    assert s[k] == stem[k];
    assert s[|stem|..] == suffix;
  }

  /** `next((g for g in match.groups() if g), match.group(1))`, where the fallback is
      itself falsy: the first non-empty group, or "" when there is none. */
  function FirstNonEmpty(groups: Match): string
  {
    if groups == [] then ""
    else if groups[0] != "" then groups[0]
    else FirstNonEmpty(groups[1..])
  }

  /** The name is empty exactly when every group is, and otherwise it is the first
      non-empty group. */
  lemma {:induction false} FirstNonEmptySpec(groups: Match)
    ensures FirstNonEmpty(groups) == "" <==> forall i :: 0 <= i < |groups| ==> groups[i] == ""
    ensures FirstNonEmpty(groups) != "" ==>
              exists i :: 0 <= i < |groups| && groups[i] == FirstNonEmpty(groups)
                          && forall k :: 0 <= k < i ==> groups[k] == ""
  {
    if groups != [] && groups[0] == "" {
      var r := FirstNonEmpty(groups[1..]);
      FirstNonEmptySpec(groups[1..]);
      assert forall i :: 1 <= i < |groups| ==> groups[i] == groups[1..][i - 1];
      if r != "" {
        var i :| 0 <= i < |groups[1..]| && groups[1..][i] == r
                 && forall k :: 0 <= k < i ==> groups[1..][k] == "";
        assert groups[i + 1] == r;
      }
    }
  }

  /** The candidate name of each match, in match order. */
  function MatchNames(matches: seq<Match>): (r: seq<string>)
    ensures |r| == |matches| && forall i :: 0 <= i < |r| ==> r[i] == FirstNonEmpty(matches[i])
  {
    seq(|matches|, i requires 0 <= i < |matches| => FirstNonEmpty(matches[i]))
  }

  /** The index of the first occurrence of `x` in `s`. */
  function IndexOf(s: seq<string>, x: string): (r: nat)
    requires x in s
    ensures r < |s| && s[r] == x && forall k :: 0 <= k < r ==> s[k] != x
  {
    if s[0] == x then 0 else 1 + IndexOf(s[1..], x)
  }

  predicate NoDuplicates(s: seq<string>)
  {
    forall i, j :: 0 <= i < j < |s| ==> s[i] != s[j]
  }

  /** The names kept by `_extract_functions_from_file`'s loop: each name appended unless
      it is empty or already kept. */
  function Dedup(names: seq<string>): seq<string>
  {
    if names == [] then []
    else
      var r0 := Dedup(names[..|names| - 1]);
      var x := names[|names| - 1];
      if x == "" || x in r0 then r0 else r0 + [x]
  }

  /** The loop keeps exactly the non-empty names. */
  lemma {:induction false} DedupMembers(names: seq<string>)
    ensures forall x :: x in Dedup(names) <==> x in names && x != ""
  {
    if names != [] {
      var init := names[..|names| - 1];
      DedupMembers(init);
      assert names == init + [names[|names| - 1]];
    }
  }

  /** The loop keeps each name once. */
  lemma {:induction false} DedupNoDuplicates(names: seq<string>)
    ensures NoDuplicates(Dedup(names))
  {
    if names != [] {
      DedupNoDuplicates(names[..|names| - 1]);
    }
  }

  /** Appending a name does not move the first occurrence of a name already present. */
  lemma IndexOfAppend(init: seq<string>, x: string, y: string)
    requires y in init
    ensures y in init + [x] && IndexOf(init + [x], y) == IndexOf(init, y)
  {
    var names := init + [x];
    var a, b := IndexOf(names, y), IndexOf(init, y);
    assert names[b] == y;
    if a < |init| {
      assert init[a] == y;
    }
  }

  /** `d` lists names of `names` in the order of their first occurrence there. */
  predicate InFirstOrder(names: seq<string>, d: seq<string>)
  {
    && (forall x :: x in d ==> x in names)
    && forall i, j :: 0 <= i < j < |d| ==> IndexOf(names, d[i]) < IndexOf(names, d[j])
  }

  /** The loop keeps the names in the order of their first occurrence. */
  lemma {:induction false} DedupFirstOrder(names: seq<string>)
    ensures InFirstOrder(names, Dedup(names))
  {
    if names != [] {
      var init := names[..|names| - 1];
      var x := names[|names| - 1];
      DedupFirstOrder(init);
      assert names == init + [x];
      DedupOrderStep(init, x);
    }
  }

  /** One step of `DedupFirstOrder`: the order survives one more name. */
  lemma DedupOrderStep(init: seq<string>, x: string)
    requires InFirstOrder(init, Dedup(init))
    ensures InFirstOrder(init + [x], Dedup(init + [x]))
  {
    var names := init + [x];
    assert forall y :: y in Dedup(names) ==> y in names by {
      DedupMembers(names);
    }
    forall i, j | 0 <= i < j < |Dedup(names)|
      ensures IndexOf(names, Dedup(names)[i]) < IndexOf(names, Dedup(names)[j])
    {
      DedupPairStep(init, x, i, j);
    }
  }

  /** Two names kept after one more name is seen keep their order. */
  lemma DedupPairStep(init: seq<string>, x: string, i: nat, j: nat)
    requires InFirstOrder(init, Dedup(init))
    requires i < j < |Dedup(init + [x])|
    ensures Dedup(init + [x])[i] in init + [x] && Dedup(init + [x])[j] in init + [x]
    ensures IndexOf(init + [x], Dedup(init + [x])[i]) < IndexOf(init + [x], Dedup(init + [x])[j])
  {
    var names := init + [x];
    var r0 := Dedup(init);
    var d := Dedup(names);
    var appended := !(x == "" || x in r0);
    assert d == (if appended then r0 + [x] else r0) by {
      assert names[..|names| - 1] == init;
    }
    assert d[i] == r0[i] && r0[i] in init;
    IndexOfAppend(init, x, r0[i]);
    if j < |r0| {
      assert d[j] == r0[j] && r0[j] in init;
      IndexOfAppend(init, x, r0[j]);
    } else {
      assert x !in init by {
        DedupMembers(init);
      }
      assert d[j] == x;
      assert IndexOf(names, x) == |init|;
    }
  }

  /** The names one file contributes: none for an extension without a pattern or a file
      that cannot be read, otherwise the deduplicated first non-empty groups. */
  function FunctionsOf(file: Entry): seq<string>
    requires file.File?
  {
    if Ext(file.name) !in CodeExtensions then []
    else
      match file.content
      case Unreadable => []
      case Readable(ms) => Dedup(MatchNames(ms))
  }

  /** A file of a language without a pattern, or one that cannot be read, contributes
      nothing; otherwise every non-empty candidate name exactly once and nothing else. */
  lemma FunctionsOfSpec(file: Entry)
    requires file.File?
    ensures Ext(file.name) !in CodeExtensions || file.content.Unreadable? ==> FunctionsOf(file) == []
    ensures NoDuplicates(FunctionsOf(file)) && "" !in FunctionsOf(file)
    ensures file.content.Readable? ==>
              forall x :: x in FunctionsOf(file) <==>
                x != "" && x in MatchNames(file.content.matches) && Ext(file.name) in CodeExtensions
  {
    if file.content.Readable? {
      DedupMembers(MatchNames(file.content.matches));
      DedupNoDuplicates(MatchNames(file.content.matches));
    }
  }

  /** `_extract_functions_from_file` after the matching: walks the matches in order and
      appends each non-empty name not yet collected. */
  method ExtractFunctionsFromFile(file: Entry) returns (functions: seq<string>)
    requires file.File?
    ensures functions == FunctionsOf(file)
  {
    var ext := Ext(file.name);
    if ext !in CodeExtensions {
      return [];
    }
    functions := [];
    if file.content.Unreadable? {
      return;
    }
    var matches := file.content.matches;
    var k := 0;
    while k < |matches|
      invariant 0 <= k <= |matches|
      invariant functions == Dedup(MatchNames(matches[..k]))
    {
      var name := FirstNonEmpty(matches[k]);
      assert MatchNames(matches[..k + 1]) == MatchNames(matches[..k]) + [name];
      if name != "" && name !in functions {
        functions := functions + [name];
      }
      k := k + 1;
    }
    assert matches[..k] == matches;
  }

  /** The names `os.walk` collects below `dir`: first those of `dir`'s own files, then,
      folder by folder in listing order, those below each folder that is not ignored. */
  function Walk(dir: Entry): seq<string>
    requires dir.Folder?
    decreases dir, 1
  {
    PartitionMembers(dir.entries);
    var files := FilesOf(dir.entries);
    var folders := FoldersOf(dir.entries);
    FilesFunctions(files, |files|) + FoldersWalk(dir, folders, |folders|)
  }

  /** The names found in the first `n` files, file by file. */
  function FilesFunctions(files: seq<Entry>, n: nat): seq<string>
    requires n <= |files| && forall f :: f in files ==> f.File?
  {
    if n == 0 then []
    else
      assert files[n - 1] in files;
      FilesFunctions(files, n - 1) + FunctionsOf(files[n - 1])
  }

  /** The names found under the first `n` folders, folder by folder. */
  function FoldersWalk(dir: Entry, fs: seq<Entry>, n: nat): seq<string>
    requires dir.Folder? && n <= |fs|
    requires forall f :: f in fs ==> f in dir.entries && f.Folder?
    decreases dir, 0, n
  {
    if n == 0 then []
    else
      assert fs[n - 1] in fs;
      FoldersWalk(dir, fs, n - 1) + Walk(fs[n - 1])
  }

  /** The walk of `scan_project`: extends the list with the names of each file of the
      directory, then walks each folder that is not ignored. */
  method CollectFunctions(dir: Entry) returns (all: seq<string>)
    requires dir.Folder?
    ensures all == Walk(dir)
    decreases dir, 1
  {
    var dirs := FoldersOf(dir.entries);
    var files := FilesOf(dir.entries);
    PartitionMembers(dir.entries);
    var fromFiles := CollectFromFiles(files);
    var fromFolders := CollectFromFolders(dir, dirs);
    all := fromFiles + fromFolders;
  }

  /** The loop of `scan_project` over the files of one directory. */
  method CollectFromFiles(files: seq<Entry>) returns (all: seq<string>)
    requires forall f :: f in files ==> f.File?
    ensures all == FilesFunctions(files, |files|)
  {
    all := [];
    var j := 0;
    while j < |files|
      invariant 0 <= j <= |files|
      invariant all == FilesFunctions(files, j)
    {
      all := CollectFile(files, j, all);
      j := j + 1;
    }
  }

  /** One turn of the loop over the files: the names of the `j`-th file join those
      collected so far. */
  method CollectFile(files: seq<Entry>, j: nat, before: seq<string>) returns (all: seq<string>)
    requires j < |files| && forall f :: f in files ==> f.File?
    requires before == FilesFunctions(files, j)
    ensures all == FilesFunctions(files, j + 1)
  {
    assert files[j] in files;
    var functions := ExtractFunctionsFromFile(files[j]);
    all := before + functions;
  }

  /** `os.walk` descending into each folder that is not ignored. */
  method CollectFromFolders(dir: Entry, dirs: seq<Entry>) returns (all: seq<string>)
    requires dir.Folder?
    requires forall f :: f in dirs ==> f in dir.entries && f.Folder?
    ensures all == FoldersWalk(dir, dirs, |dirs|)
    decreases dir, 0, 1
  {
    all := [];
    var i := 0;
    while i < |dirs|
      invariant 0 <= i <= |dirs|
      invariant all == FoldersWalk(dir, dirs, i)
    {
      all := WalkFolder(dir, dirs, i, all);
      i := i + 1;
    }
  }

  /** One turn of `os.walk`'s descent: the names below the `i`-th folder join those
      collected so far. */
  method WalkFolder(dir: Entry, dirs: seq<Entry>, i: nat, before: seq<string>) returns (all: seq<string>)
    requires dir.Folder? && i < |dirs|
    requires forall f :: f in dirs ==> f in dir.entries && f.Folder?
    requires before == FoldersWalk(dir, dirs, i)
    ensures all == FoldersWalk(dir, dirs, i + 1)
    decreases dir, 0, 0
  {
    assert dirs[i] in dirs;
    var below := CollectFunctions(dirs[i]);
    all := before + below;
  }

  predicate StrictlySorted(s: seq<string>)
  {
    forall i, j :: 0 <= i < j < |s| ==> Less(s[i], s[j])
  }

  function InsertUnique(x: string, s: seq<string>): (r: seq<string>)
    requires StrictlySorted(s)
    ensures StrictlySorted(r) && forall y :: y in r <==> y == x || y in s
  {
    if s == [] then [x]
    else if x == s[0] then s
    else if Less(x, s[0]) then
      assert forall j :: 0 <= j < |s| ==> Less(x, s[j]) by {
        forall j | 0 < j < |s|
          ensures Less(x, s[j])
        {
          LessTransitive(x, s[0], s[j]);
        }
      }
      [x] + s
    else
      var rest := InsertUnique(x, s[1..]);
      LessTotal(x, s[0]);
      assert forall y :: y in rest ==> Less(s[0], y) by {
        forall y | y in rest
          ensures Less(s[0], y)
        {
          if y != x {
            var j :| 0 <= j < |s[1..]| && s[1..][j] == y;
            assert s[j + 1] == y;
          }
        }
      }
      assert forall j :: 0 <= j < |rest| ==> rest[j] in rest;
      assert s == [s[0]] + s[1..];
      [s[0]] + rest
  }

  /** `sorted(list(set(names)))`: strictly increasing, holding exactly the given names. */
  function SortedUnique(names: seq<string>): (r: seq<string>)
    ensures StrictlySorted(r) && forall y :: y in r <==> y in names
  {
    if names == [] then []
    else
      assert names == names[..|names| - 1] + [names[|names| - 1]];
      InsertUnique(names[|names| - 1], SortedUnique(names[..|names| - 1]))
  }

  /** What `scan_project` returns for a project that is absent (`None`) or a directory. */
  function Scan(project: Option<Entry>): (r: (seq<string>, seq<string>))
    requires project.Some? ==> project.value.Folder?
    ensures project.None? ==> r == ([], [])
    ensures project.Some? ==> |r.0| >= 1 && r.0[0] == project.value.name + "/"
    ensures StrictlySorted(r.1) && NoDuplicates(r.1)
    ensures project.Some? ==> forall y :: y in r.1 <==> y in Walk(project.value)
  {
    match project
    case None => ([], [])
    case Some(root) =>
      var functions := SortedUnique(Walk(root));
      assert forall i, j :: 0 <= i < j < |functions| ==> functions[i] != functions[j] by {
        forall i, j | 0 <= i < j < |functions|
          ensures functions[i] != functions[j]
        {
          LessIrreflexive(functions[i]);
        }
      }
      (Tree(root, "", true), functions)
  }

  /** `scan_project`: nothing for a missing path; otherwise the tree of the root and the
      sorted distinct names of the walk. */
  method ScanProject(project: Option<Entry>) returns (fileTree: seq<string>, functions: seq<string>)
    requires project.Some? ==> project.value.Folder?
    ensures (fileTree, functions) == Scan(project)
  {
    if project.None? {
      return [], [];
    }
    fileTree := GetFileTree(project.value);
    var all := CollectFunctions(project.value);
    functions := SortedUnique(all);
  }

  /** The prompt `generate_transcription_prompt` builds from a tree and a name list. */
  function PromptText(fileTree: seq<string>, functions: seq<string>): string
  {
    FilesHeader + "\n"
    + (if fileTree == [] then NoFilesNote else Join(fileTree, "\n"))
    + "\n" + "\n" + "\n"
    + FunctionsHeader + "\n"
    + (if functions == [] then NoFunctionsNote else Join(functions, ", "))
  }

  /** `generate_transcription_prompt`: five parts (header, tree or note, a blank "\n"
      part, header, names or note) joined by newlines. */
  method GenerateTranscriptionPrompt(project: Option<Entry>) returns (prompt: string)
    requires project.Some? ==> project.value.Folder?
    ensures prompt == PromptText(Scan(project).0, Scan(project).1)
  {
    var fileTree, functions := ScanProject(project);
    var parts: seq<string> := [FilesHeader];
    var treePart := NoFilesNote;
    if fileTree != [] {
      treePart := Join(fileTree, "\n");
    }
    parts := parts + [treePart];
    parts := parts + ["\n"];
    parts := parts + [FunctionsHeader];
    var namesPart := NoFunctionsNote;
    if functions != [] {
      namesPart := Join(functions, ", ");
    }
    parts := parts + [namesPart];
    assert parts == [FilesHeader, treePart, "\n", FunctionsHeader, namesPart];
    JoinFiveParts(treePart, namesPart);
    prompt := Join(parts, "\n");
  }

  /** The five parts joined by "\n", written out. */
  lemma JoinFiveParts(tree: string, names: string)
    ensures Join([FilesHeader, tree, "\n", FunctionsHeader, names], "\n")
            == FilesHeader + "\n" + tree + "\n" + "\n" + "\n" + FunctionsHeader + "\n" + names
  {
    JoinCons(FunctionsHeader, [names], "\n");
    assert ["\n"] + [FunctionsHeader, names] == ["\n", FunctionsHeader, names];
    JoinCons("\n", [FunctionsHeader, names], "\n");
    assert [tree] + ["\n", FunctionsHeader, names] == [tree, "\n", FunctionsHeader, names];
    JoinCons(tree, ["\n", FunctionsHeader, names], "\n");
    assert [FilesHeader] + [tree, "\n", FunctionsHeader, names] == [FilesHeader, tree, "\n", FunctionsHeader, names];
    JoinCons(FilesHeader, [tree, "\n", FunctionsHeader, names], "\n");
  }

  /** `get_project_transcription_prompt`: the prompt of an explorer for that project. */
  method GetProjectTranscriptionPrompt(project: Option<Entry>) returns (prompt: string)
    requires project.Some? ==> project.value.Folder?
    ensures prompt == PromptText(Scan(project).0, Scan(project).1)
  {
    prompt := GenerateTranscriptionPrompt(project);
  }

  /** Any prompt opens with the file header on a line of its own and closes with the names
      part: the found names separated by ", ", or the note when there are none. */
  lemma PromptSections(fileTree: seq<string>, functions: seq<string>)
    ensures var t := PromptText(fileTree, functions);
            var names := if functions == [] then NoFunctionsNote else Join(functions, ", ");
            && |FilesHeader| + 1 + |names| <= |t|
            && t[..|FilesHeader| + 1] == FilesHeader + "\n"
            && t[|t| - |names|..] == names
  {
    var tree := if fileTree == [] then NoFilesNote else Join(fileTree, "\n");
    var names := if functions == [] then NoFunctionsNote else Join(functions, ", ");
    var head := FilesHeader + "\n";
    var a1 := head + tree;
    var a2 := a1 + "\n";
    var a3 := a2 + "\n";
    var a4 := a3 + "\n";
    var a5 := a4 + FunctionsHeader;
    var b := a5 + "\n";
    assert PromptText(fileTree, functions) == b + names;
    PrefixKept(head, tree, |head|);
    PrefixKept(a1, "\n", |head|);
    PrefixKept(a2, "\n", |head|);
    PrefixKept(a3, "\n", |head|);
    PrefixKept(a4, FunctionsHeader, |head|);
    PrefixKept(a5, "\n", |head|);
    PrefixKept(b, names, |head|);
    assert (b + names)[|b|..] == names;
  }
}
