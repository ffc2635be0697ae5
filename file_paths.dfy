/**
 * utils/file_paths.py: recognising Solidity files by their extension, and
 * collecting the Solidity files in a set of folders.
 *
 * Paths are POSIX paths. The file system is a finite tree: a folder path is
 * paired with what it denotes, `None` when nothing is there, and a directory
 * lists its entries in the order `os.listdir` gives them. The URI helpers of
 * the same file call urllib and are functions the caller supplies (see
 * AppTypes.Helpers).
 */
module FilePaths {
  import opened Values

  // ---------------------------------------------------------------------------
  // `os.path.splitext` and `str.lower` on the characters that matter.

  /** The index of the last `c` in `s`, or -1 when there is none (`str.rfind`). */
  function LastIndexOf(s: string, c: char): (i: int)
    ensures -1 <= i < |s|
    ensures i >= 0 ==> s[i] == c
  {
    if |s| == 0 then -1
    else if s[|s| - 1] == c then |s| - 1
    else LastIndexOf(s[..|s| - 1], c)
  }

  /** Every character of `s` is a dot. */
  predicate AllDots(s: string)
  {
    forall k :: 0 <= k < |s| ==> s[k] == '.'
  }

  /**
   * The extension `os.path.splitext` splits off: from the last dot to the end,
   * provided that dot follows the last slash and something other than a dot
   * comes before it in the file name; otherwise empty.
   */
  function Extension(path: string): string
  {
    var sep := LastIndexOf(path, '/');
    var dot := LastIndexOf(path, '.');
    if dot > sep && !AllDots(path[sep + 1..dot]) then path[dot..] else ""
  }

  /**
   * `str.lower` on one character, for ASCII letters. No other character lowers
   * to `.`, `s`, `o` or `l`, so comparing the lowered extension with ".sol"
   * needs no more.
   */
  function Lower(c: char): char
  {
    if 'A' <= c <= 'Z' then (c as int + 32) as char else c
  }

  /** `str.lower`, character by character. */
  function LowerAll(s: string): string
  {
    seq(|s|, k requires 0 <= k < |s| => Lower(s[k]))
  }

  /** `is_solidity_file`: the lower-cased extension is ".sol". */
  function IsSolidityFile(path: string): bool
  {
    LowerAll(Extension(path)) == ".sol"
  }

  /** The file name: what follows the last slash. */
  function BaseName(path: string): string
  {
    path[LastIndexOf(path, '/') + 1..]
  }

  lemma LastIndexOfAbsent(s: string, c: char)
    requires c !in s
    ensures LastIndexOf(s, c) == -1
  {
  }

  lemma {:induction false} LastIndexOfAppend(x: string, y: string, c: char)
    ensures LastIndexOf(x + y, c) == if LastIndexOf(y, c) >= 0 then |x| + LastIndexOf(y, c) else LastIndexOf(x, c)
    decreases |y|
  {
    if y == [] {
      assert x + y == x;
    } else {
      var xy := x + y;
      assert xy[|xy| - 1] == y[|y| - 1];
      if y[|y| - 1] != c {
        assert xy[..|xy| - 1] == x + y[..|y| - 1];
        LastIndexOfAppend(x, y[..|y| - 1], c);
      }
    }
  }

  /** The four characters that lower to ".sol". */
  predicate SolSpelling(e: string)
  {
    |e| == 4 && e[0] == '.' && (e[1] == 's' || e[1] == 'S') && (e[2] == 'o' || e[2] == 'O') && (e[3] == 'l' || e[3] == 'L')
  }

  /** Lowering gives ".sol" exactly for ".sol" spelled in any case. */
  lemma LowerSol(e: string)
    ensures LowerAll(e) == ".sol" <==> SolSpelling(e)
  {
    if LowerAll(e) == ".sol" {
      assert |e| == 4;
      assert LowerAll(e)[0] == '.' && LowerAll(e)[1] == 's' && LowerAll(e)[2] == 'o' && LowerAll(e)[3] == 'l';
    }
    if SolSpelling(e) {
      assert LowerAll(e) == ".sol";
    }
  }

  /** Such a suffix holds no slash, and its only dot is the first character. */
  lemma SolSpellingDots(e: string)
    requires SolSpelling(e)
    ensures '/' !in e && LastIndexOf(e, '.') == 0
  {
    var t := e[1..];
    assert '.' !in t;
    LastIndexOfAbsent(t, '.');
    assert e == [e[0]] + t;
    LastIndexOfAppend([e[0]], t, '.');
  }

  /** The extension of a path that ends in a dot followed by no dot and no slash. */
  lemma ExtensionOfSuffix(q: string, e: string)
    requires '/' !in e && |e| > 0 && LastIndexOf(e, '.') == 0
    ensures Extension(q + e) == if AllDots(BaseName(q)) then "" else e
  {
    var path := q + e;
    LastIndexOfAbsent(e, '/');
    LastIndexOfAppend(q, e, '/');
    LastIndexOfAppend(q, e, '.');
    var sep := LastIndexOf(q, '/');
    assert path[sep + 1..|q|] == BaseName(q);
    assert path[|q|..] == e;
  }

  /** The suffix test of `SolidityFileIff`. */
  predicate EndsInSol(path: string)
  {
    |path| >= 4 && LowerAll(path[|path| - 4..]) == ".sol" && !AllDots(BaseName(path[..|path| - 4]))
  }

  lemma SolidityFileEndsInSol(path: string)
    requires IsSolidityFile(path)
    ensures EndsInSol(path)
  {
    var dot := LastIndexOf(path, '.');
    var e := path[dot..];
    LowerSol(e);
    SolSpellingDots(e);
    assert path == path[..dot] + e;
    ExtensionOfSuffix(path[..dot], e);
  }

  lemma EndsInSolSolidityFile(path: string)
    requires EndsInSol(path)
    ensures IsSolidityFile(path)
  {
    var e := path[|path| - 4..];
    LowerSol(e);
    SolSpellingDots(e);
    assert path == path[..|path| - 4] + e;
    ExtensionOfSuffix(path[..|path| - 4], e);
  }

  /**
   * A path is a Solidity file exactly when its last four characters lower to
   * ".sol" and the file name before them is not only dots (so ".sol" and
   * "dir/..sol" are not Solidity files, while "A.SOL" is).
   */
  lemma SolidityFileIff(path: string)
    ensures IsSolidityFile(path) <==> EndsInSol(path)
  {
    if IsSolidityFile(path) {
      SolidityFileEndsInSol(path);
    }
    if EndsInSol(path) {
      EndsInSolSolidityFile(path);
    }
  }

  /** A hidden file named ".sol" is not a Solidity file; "A.SOL" is. */
  lemma SampleSolidityFiles()
    ensures IsSolidityFile("A.SOL")
    ensures !IsSolidityFile(".sol")
  {
    assert LastIndexOf("A", '/') == -1;
    assert !AllDots(BaseName("A"));
    assert LowerAll(".SOL") == ".sol";
    EndsInSolSolidityFile("A.SOL");
    assert ".sol"[..0] == "";
    SolidityFileIff(".sol");
  }

  // ---------------------------------------------------------------------------
  // `os.path.join` for a listed entry.

  /** `os.path.join(folder, name)` for a name without a leading slash. */
  function Join(folder: string, name: string): string
  {
    if folder == [] || folder[|folder| - 1] == '/' then folder + name else folder + "/" + name
  }

  /** The folder is a prefix of every path joined under it. */
  lemma JoinPrefix(folder: string, name: string)
    ensures folder <= Join(folder, name)
  {
    if !(folder == [] || folder[|folder| - 1] == '/') {
      assert folder + "/" + name == folder + ("/" + name);
    }
  }

  /** A folder part ending in '/' has its last separator at its end, and any dot before it. */
  lemma FolderPartIndexes(head: string)
    requires head == [] || head[|head| - 1] == '/'
    ensures LastIndexOf(head, '/') == |head| - 1
    ensures LastIndexOf(head, '.') < LastIndexOf(head, '/') || head == []
  {
  }

  /** The extension depends only on the file name. */
  lemma ExtensionOfBaseName(head: string, name: string)
    requires head == [] || head[|head| - 1] == '/'
    requires '/' !in name
    ensures Extension(head + name) == Extension(name)
  {
    var p := head + name;
    LastIndexOfAbsent(name, '/');
    LastIndexOfAppend(head, name, '/');
    LastIndexOfAppend(head, name, '.');
    FolderPartIndexes(head);
    assert LastIndexOf(p, '/') == |head| - 1;
    var d := LastIndexOf(name, '.');
    if d >= 0 {
      ExtensionAfterSeparator(head, name, d);
    } else {
      assert LastIndexOf(p, '.') <= LastIndexOf(p, '/');
    }
  }

  lemma ExtensionAfterSeparator(head: string, name: string, d: int)
    requires 0 <= d < |name| && LastIndexOf(name, '/') == -1 && LastIndexOf(name, '.') == d
    requires LastIndexOf(head + name, '/') == |head| - 1 && LastIndexOf(head + name, '.') == |head| + d
    ensures Extension(head + name) == Extension(name)
  {
    var p := head + name;
    var sep, dot := LastIndexOf(p, '/'), LastIndexOf(p, '.');
    assert p[sep + 1..dot] == name[0..d] by {
      SliceOfAppend(head, name, 0, d);
    }
    assert p[dot..] == name[d..] by {
      SliceOfAppend(head, name, d, |name|);
      assert p[dot..] == p[|head| + d..|head| + |name|];
    }
  }

  lemma SliceOfAppend(x: string, y: string, i: int, j: int)
    requires 0 <= i <= j <= |y|
    ensures (x + y)[|x| + i..|x| + j] == y[i..j]
  {
  }

  /** Joining an entry name to its folder does not change whether it names a Solidity file. */
  lemma JoinKeepsSolidity(folder: string, name: string)
    requires '/' !in name
    ensures IsSolidityFile(Join(folder, name)) == IsSolidityFile(name)
  {
    if folder == [] || folder[|folder| - 1] == '/' {
      ExtensionOfBaseName(folder, name);
    } else {
      var head := folder + "/";
      assert Join(folder, name) == head + name;
      ExtensionOfBaseName(head, name);
    }
  }

  // ---------------------------------------------------------------------------
  // The directory tree.

  /**
   * What a path denotes: a regular file, a directory with its listing, a
   * directory `os.listdir` cannot read, or something that is neither a file
   * nor a directory (a socket, a dangling link).
   */
  datatype Node = File | Dir(entries: seq<Entry>) | Unreadable | Special

  /** One name in a listing; names are not empty and hold no slash. */
  datatype Entry = Entry(name: string, node: Node)

  /** `os.path.isdir`. */
  predicate IsDir(node: Node)
  {
    node.Dir? || node.Unreadable?
  }

  /** `os.listdir`: the entries of a readable directory, else OSError. */
  function ListDir(node: Option<Node>): (r: Result<seq<Entry>>)
    ensures r.Err? ==> r.error == OSError
  {
    if node.Some? && node.value.Dir? then Ok(node.value.entries) else Err(OSError)
  }

  function NodeSize(node: Node): nat
  {
    match node
    case Dir(entries) => 1 + EntriesSize(entries)
    case _ => 1
  }

  function EntriesSize(entries: seq<Entry>): nat
  {
    if entries == [] then 0 else EntriesSize(entries[..|entries| - 1]) + NodeSize(entries[|entries| - 1].node)
  }

  function FoldersSize(folders: seq<(string, Option<Node>)>): nat
  {
    if folders == [] then 0
    else
      var node := folders[|folders| - 1].1;
      FoldersSize(folders[..|folders| - 1]) + (if node.Some? then NodeSize(node.value) else 0)
  }

  lemma {:induction false} EntrySmaller(entries: seq<Entry>, j: int)
    requires 0 <= j < |entries|
    ensures NodeSize(entries[j].node) <= EntriesSize(entries)
    decreases |entries|
  {
    if j < |entries| - 1 {
      EntrySmaller(entries[..|entries| - 1], j);
    }
  }

  lemma {:induction false} FolderSmaller(folders: seq<(string, Option<Node>)>, i: int)
    requires 0 <= i < |folders| && folders[i].1.Some?
    ensures NodeSize(folders[i].1.value) <= FoldersSize(folders)
    decreases |folders|
  {
    if i < |folders| - 1 {
      FolderSmaller(folders[..|folders| - 1], i);
    }
  }

  // ---------------------------------------------------------------------------
  // What `get_solidity_files` finds.

  /** Both sets, or the first error. */
  function Union(a: Result<set<string>>, b: Result<set<string>>): Result<set<string>>
  {
    if a.Err? then a else if b.Err? then b else Ok(a.value + b.value)
  }

  /** A union that succeeds holds both of its parts. */
  lemma UnionParts(a: Result<set<string>>, b: Result<set<string>>)
    requires Union(a, b).Ok?
    ensures a.Ok? && b.Ok? && a.value <= Union(a, b).value && b.value <= Union(a, b).value
  {
  }

  /** The files found in the listing of one folder, or the error listing it raises. */
  function FolderFiles(folder: string, node: Option<Node>, recursive: bool): Result<set<string>>
    decreases if node.Some? then NodeSize(node.value) else 0, 1
  {
    match ListDir(node)
    case Err(e) => Err(e)
    case Ok(entries) => EntriesFiles(folder, entries, recursive)
  }

  /**
   * The files found among some entries of `folder`: a file when it is a
   * Solidity file, and, when recursive, what the directories other than
   * `node_modules` hold.
   */
  function EntriesFiles(folder: string, entries: seq<Entry>, recursive: bool): Result<set<string>>
    decreases EntriesSize(entries), 2
  {
    if entries == [] then Ok({})
    else
      var item := entries[|entries| - 1];
      var fullPath := Join(folder, item.name);
      EntrySmaller(entries, |entries| - 1);
      Union(EntriesFiles(folder, entries[..|entries| - 1], recursive),
            if item.node.File? then Ok(if IsSolidityFile(fullPath) then {fullPath} else {})
            else if recursive && IsDir(item.node) && item.name != "node_modules" then
              FolderFiles(fullPath, Some(item.node), recursive)
            else Ok({}))
  }

  /** The files found in every folder, or the first error. */
  function FoldersFiles(folders: seq<(string, Option<Node>)>, recursive: bool): Result<set<string>>
  {
    if folders == [] then Ok({})
    else
      var (folder, node) := folders[|folders| - 1];
      Union(FoldersFiles(folders[..|folders| - 1], recursive), FolderFiles(folder, node, recursive))
  }

  /** The contribution of one listed entry, as `EntriesFiles` adds it. */
  function EntryFiles(folder: string, item: Entry, recursive: bool): Result<set<string>>
  {
    var fullPath := Join(folder, item.name);
    if item.node.File? then Ok(if IsSolidityFile(fullPath) then {fullPath} else {})
    else if recursive && IsDir(item.node) && item.name != "node_modules" then
      FolderFiles(fullPath, Some(item.node), recursive)
    else Ok({})
  }

  lemma EntriesFilesStep(folder: string, entries: seq<Entry>, recursive: bool)
    requires entries != []
    ensures EntriesFiles(folder, entries, recursive) ==
              Union(EntriesFiles(folder, entries[..|entries| - 1], recursive), EntryFiles(folder, entries[|entries| - 1], recursive))
  {
  }

  /** An error among the first folders is the error of them all. */
  lemma {:induction false} PrefixError(folders: seq<(string, Option<Node>)>, n: int, recursive: bool)
    requires 0 <= n <= |folders| && FoldersFiles(folders[..n], recursive).Err?
    ensures FoldersFiles(folders, recursive) == FoldersFiles(folders[..n], recursive)
    decreases |folders| - n
  {
    if n < |folders| {
      var m := |folders| - 1;
      assert folders[..m][..n] == folders[..n];
      PrefixError(folders[..m], n, recursive);
    } else {
      assert folders[..n] == folders;
    }
  }

  /** An error among the first entries is the error of the whole listing. */
  lemma {:induction false} EntriesPrefixError(folder: string, entries: seq<Entry>, n: int, recursive: bool)
    requires 0 <= n <= |entries| && EntriesFiles(folder, entries[..n], recursive).Err?
    ensures EntriesFiles(folder, entries, recursive) == EntriesFiles(folder, entries[..n], recursive)
    decreases |entries| - n
  {
    if n < |entries| {
      var m := |entries| - 1;
      assert entries[..m][..n] == entries[..n];
      EntriesPrefixError(folder, entries[..m], n, recursive);
      EntriesFilesStep(folder, entries, recursive);
    } else {
      assert entries[..n] == entries;
    }
  }

  lemma EntriesPrefixStep(folder: string, entries: seq<Entry>, j: int, recursive: bool)
    requires 0 <= j < |entries|
    ensures EntriesFiles(folder, entries[..j + 1], recursive) ==
              Union(EntriesFiles(folder, entries[..j], recursive), EntryFiles(folder, entries[j], recursive))
  {
    assert entries[..j + 1][..j] == entries[..j];
    EntriesFilesStep(folder, entries[..j + 1], recursive);
  }

  lemma FoldersPrefixStep(folders: seq<(string, Option<Node>)>, i: int, recursive: bool)
    requires 0 <= i < |folders|
    ensures FoldersFiles(folders[..i + 1], recursive) ==
              Union(FoldersFiles(folders[..i], recursive), FolderFiles(folders[i].0, folders[i].1, recursive))
  {
    assert folders[..i + 1][..i] == folders[..i];
  }

  /** A single folder finds what its listing holds. */
  lemma SingleFolder(folder: string, node: Option<Node>, recursive: bool)
    ensures FoldersFiles([(folder, node)], recursive) == FolderFiles(folder, node, recursive)
  {
    assert [(folder, node)][..0] == [];
    var r := FolderFiles(folder, node, recursive);
    if r.Ok? {
      assert {} + r.value == r.value;
    }
  }

  /** A listed entry is a smaller tree than the folders searched. */
  lemma EntryShrinks(folders: seq<(string, Option<Node>)>, i: int, entries: seq<Entry>, j: int)
    requires 0 <= i < |folders| && folders[i].1 == Some(Dir(entries)) && 0 <= j < |entries|
    ensures NodeSize(entries[j].node) < FoldersSize(folders)
  {
    EntrySmaller(entries, j);
    FolderSmaller(folders, i);
  }

  /** `get_solidity_files(folders, recursive)`. */
  method GetSolidityFiles(folders: seq<(string, Option<Node>)>, recursive: bool) returns (r: Result<set<string>>)
    ensures r == FoldersFiles(folders, recursive)
    decreases FoldersSize(folders), 0
  {
    var solidityFiles: set<string> := {};
    for i := 0 to |folders|
      invariant FoldersFiles(folders[..i], recursive) == Ok(solidityFiles)
    {
      var (folder, node) := folders[i];
      FoldersPrefixStep(folders, i, recursive);
      var listing := ListDir(node);
      if listing.Err? {
        PrefixError(folders, i + 1, recursive);
        return Err(listing.error);
      }
      var items := listing.value;
      ghost var before := solidityFiles;
      for j := 0 to |items|
        invariant EntriesFiles(folder, items[..j], recursive).Ok?
        invariant solidityFiles == before + EntriesFiles(folder, items[..j], recursive).value
      {
        EntriesPrefixStep(folder, items, j, recursive);
        EntryShrinks(folders, i, items, j);
        var found := SearchEntry(folder, items[j], recursive);
        if found.Err? {
          EntriesPrefixError(folder, items, j + 1, recursive);
          PrefixError(folders, i + 1, recursive);
          return found;
        }
        solidityFiles := solidityFiles + found.value;
      }
      assert items[..|items|] == items;
    }
    assert folders[..|folders|] == folders;
    return Ok(solidityFiles);
  }

  /** The body of the loop over one folder's listing: a Solidity file is kept, a directory other than node_modules searched. */
  method SearchEntry(folder: string, item: Entry, recursive: bool) returns (r: Result<set<string>>)
    ensures r == EntryFiles(folder, item, recursive)
    decreases NodeSize(item.node), 1
  {
    var fullPath := Join(folder, item.name);
    if item.node.File? {
      if IsSolidityFile(fullPath) {
        return Ok({fullPath});
      }
      return Ok({});
    } else if recursive && IsDir(item.node) {
      if item.name != "node_modules" {
        assert FoldersSize([(fullPath, Some(item.node))]) == NodeSize(item.node) by {
          assert [(fullPath, Some(item.node))][..0] == [];
        }
        r := GetSolidityFiles([(fullPath, Some(item.node))], recursive);
        SingleFolder(fullPath, Some(item.node), recursive);
        return r;
      }
    }
    return Ok({});
  }

  // ---------------------------------------------------------------------------
  // What the search finds, and what it leaves alone.

  /** Every path in `found` is a Solidity file inside `folder`. */
  predicate SolidityFilesUnder(folder: string, found: set<string>)
  {
    forall f :: f in found ==> IsSolidityFile(f) && folder <= f
  }

  lemma PrefixTransitive(a: string, b: string, c: string)
    requires a <= b && b <= c
    ensures a <= c
  {
    assert c[..|a|] == b[..|a|];
  }

  lemma {:induction false} FolderFilesSound(folder: string, node: Option<Node>, recursive: bool)
    ensures FolderFiles(folder, node, recursive).Ok? ==> SolidityFilesUnder(folder, FolderFiles(folder, node, recursive).value)
    decreases if node.Some? then NodeSize(node.value) else 0, 1
  {
    if ListDir(node).Ok? {
      EntriesFilesSound(folder, ListDir(node).value, recursive);
    }
  }

  lemma {:induction false} EntriesFilesSound(folder: string, entries: seq<Entry>, recursive: bool)
    ensures EntriesFiles(folder, entries, recursive).Ok? ==> SolidityFilesUnder(folder, EntriesFiles(folder, entries, recursive).value)
    decreases EntriesSize(entries), 2
  {
    if entries != [] {
      var n := |entries| - 1;
      var item := entries[n];
      var fullPath := Join(folder, item.name);
      EntrySmaller(entries, n);
      EntriesFilesStep(folder, entries, recursive);
      EntriesFilesSound(folder, entries[..n], recursive);
      JoinPrefix(folder, item.name);
      if !item.node.File? && recursive && IsDir(item.node) && item.name != "node_modules" {
        FolderFilesSound(fullPath, Some(item.node), recursive);
        var sub := FolderFiles(fullPath, Some(item.node), recursive);
        if sub.Ok? {
          forall f | f in sub.value
            ensures folder <= f
          {
            PrefixTransitive(folder, fullPath, f);
          }
        }
      }
    }
  }

  /**
   * Everything `get_solidity_files` returns is a Solidity file lying inside
   * one of the folders it was given.
   */
  lemma {:induction false} FoundAreSolidityFiles(folders: seq<(string, Option<Node>)>, recursive: bool)
    ensures var r := FoldersFiles(folders, recursive);
            r.Ok? ==> forall f :: f in r.value ==> IsSolidityFile(f) && exists i :: 0 <= i < |folders| && folders[i].0 <= f
  {
    if folders != [] {
      var n := |folders| - 1;
      FoundAreSolidityFiles(folders[..n], recursive);
      FolderFilesSound(folders[n].0, folders[n].1, recursive);
      var r := FoldersFiles(folders, recursive);
      if r.Ok? {
        forall f | f in r.value
          ensures IsSolidityFile(f) && exists i :: 0 <= i < |folders| && folders[i].0 <= f
        {
          if f !in FolderFiles(folders[n].0, folders[n].1, recursive).value {
            var i :| 0 <= i < n && folders[..n][i].0 <= f;
            assert folders[i] == folders[..n][i];
          }
        }
      }
    }
  }

  lemma {:induction false} EntriesFilesHold(folder: string, entries: seq<Entry>, j: int, recursive: bool)
    requires 0 <= j < |entries| && EntriesFiles(folder, entries, recursive).Ok?
    ensures EntryFiles(folder, entries[j], recursive).Ok?
    ensures EntryFiles(folder, entries[j], recursive).value <= EntriesFiles(folder, entries, recursive).value
  {
    var n := |entries| - 1;
    EntriesFilesStep(folder, entries, recursive);
    UnionParts(EntriesFiles(folder, entries[..n], recursive), EntryFiles(folder, entries[n], recursive));
    if j < n {
      EntriesFilesHold(folder, entries[..n], j, recursive);
      assert entries[..n][j] == entries[j];
    }
  }

  lemma {:induction false} FoldersFilesHold(folders: seq<(string, Option<Node>)>, i: int, recursive: bool)
    requires 0 <= i < |folders| && FoldersFiles(folders, recursive).Ok?
    ensures FolderFiles(folders[i].0, folders[i].1, recursive).Ok?
    ensures FolderFiles(folders[i].0, folders[i].1, recursive).value <= FoldersFiles(folders, recursive).value
  {
    var n := |folders| - 1;
    if i < n {
      FoldersFilesHold(folders[..n], i, recursive);
      assert folders[..n][i] == folders[i];
    }
  }

  /** A Solidity file listed directly in one of the folders is always found, recursive or not. */
  lemma DirectFilesFound(folders: seq<(string, Option<Node>)>, i: int, j: int, recursive: bool)
    requires 0 <= i < |folders| && folders[i].1.Some? && folders[i].1.value.Dir?
    requires 0 <= j < |folders[i].1.value.entries|
    requires folders[i].1.value.entries[j].node.File?
    requires IsSolidityFile(Join(folders[i].0, folders[i].1.value.entries[j].name))
    requires FoldersFiles(folders, recursive).Ok?
    ensures Join(folders[i].0, folders[i].1.value.entries[j].name) in FoldersFiles(folders, recursive).value
  {
    FoldersFilesHold(folders, i, recursive);
    EntriesFilesHold(folders[i].0, folders[i].1.value.entries, j, recursive);
  }

  /** `f` is a file listed directly in one of the folders. */
  predicate ListedFile(folders: seq<(string, Option<Node>)>, f: string)
  {
    exists i, j :: 0 <= i < |folders| && folders[i].1.Some? && folders[i].1.value.Dir? &&
      0 <= j < |folders[i].1.value.entries| && folders[i].1.value.entries[j].node.File? &&
      f == Join(folders[i].0, folders[i].1.value.entries[j].name)
  }

  lemma {:induction false} EntriesOnlyFiles(folder: string, entries: seq<Entry>)
    ensures EntriesFiles(folder, entries, false).Ok?
    ensures forall f :: f in EntriesFiles(folder, entries, false).value ==>
              exists j :: 0 <= j < |entries| && entries[j].node.File? && f == Join(folder, entries[j].name)
  {
    if entries != [] {
      var n := |entries| - 1;
      EntriesFilesStep(folder, entries, false);
      EntriesOnlyFiles(folder, entries[..n]);
      forall f | f in EntriesFiles(folder, entries, false).value
        ensures exists j :: 0 <= j < |entries| && entries[j].node.File? && f == Join(folder, entries[j].name)
      {
        if f !in EntryFiles(folder, entries[n], false).value {
          var j :| 0 <= j < n && entries[..n][j].node.File? && f == Join(folder, entries[..n][j].name);
          assert entries[j] == entries[..n][j];
        }
      }
    }
  }

  /** Without recursion, only files listed directly in the folders are found: no directory is entered. */
  lemma {:induction false} NonRecursiveFindsListedFiles(folders: seq<(string, Option<Node>)>)
    ensures var r := FoldersFiles(folders, false);
            r.Ok? ==> forall f :: f in r.value ==> ListedFile(folders, f)
  {
    if folders != [] {
      var n := |folders| - 1;
      NonRecursiveFindsListedFiles(folders[..n]);
      var r := FoldersFiles(folders, false);
      if r.Ok? {
        var last := FolderFiles(folders[n].0, folders[n].1, false);
        if ListDir(folders[n].1).Ok? {
          EntriesOnlyFiles(folders[n].0, ListDir(folders[n].1).value);
        }
        forall f | f in r.value
          ensures ListedFile(folders, f)
        {
          if f in last.value {
            var j :| 0 <= j < |folders[n].1.value.entries| && folders[n].1.value.entries[j].node.File? &&
                     f == Join(folders[n].0, folders[n].1.value.entries[j].name);
            assert 0 <= n < |folders|;
          } else {
            var i, j :| 0 <= i < n && folders[..n][i].1.Some? && folders[..n][i].1.value.Dir? &&
              0 <= j < |folders[..n][i].1.value.entries| && folders[..n][i].1.value.entries[j].node.File? &&
              f == Join(folders[..n][i].0, folders[..n][i].1.value.entries[j].name);
            assert folders[..n][i] == folders[i];
          }
        }
      }
    }
  }

  lemma NodeModulesEntryEmpty(folder: string, item: Entry, recursive: bool)
    requires item.name == "node_modules" && IsDir(item.node)
    ensures EntryFiles(folder, item, recursive) == Ok({})
  {
  }

  /**
   * A `node_modules` directory is never searched: giving it any other
   * directory's contents changes nothing that is found.
   */
  lemma {:induction false} NodeModulesSkipped(folder: string, entries: seq<Entry>, j: int, other: Node, recursive: bool)
    requires 0 <= j < |entries| && entries[j].name == "node_modules" && IsDir(entries[j].node) && IsDir(other)
    ensures EntriesFiles(folder, entries, recursive) == EntriesFiles(folder, entries[j := Entry("node_modules", other)], recursive)
  {
    var n := |entries| - 1;
    var changed := entries[j := Entry("node_modules", other)];
    EntriesFilesStep(folder, entries, recursive);
    EntriesFilesStep(folder, changed, recursive);
    assert EntriesFiles(folder, entries[..n], recursive) == EntriesFiles(folder, changed[..n], recursive) by {
      if j < n {
        assert changed[..n] == entries[..n][j := Entry("node_modules", other)];
        NodeModulesSkipped(folder, entries[..n], j, other, recursive);
      } else {
        assert changed[..n] == entries[..n];
      }
    }
    assert EntryFiles(folder, entries[n], recursive) == EntryFiles(folder, changed[n], recursive) by {
      if j < n {
        assert changed[n] == entries[n];
      } else {
        NodeModulesEntryEmpty(folder, entries[n], recursive);
        NodeModulesEntryEmpty(folder, changed[n], recursive);
      }
    }
  }

  /** The only exception the search raises is OSError. */
  lemma {:induction false} FolderErrorsAreOSError(folder: string, node: Option<Node>, recursive: bool)
    ensures FolderFiles(folder, node, recursive).Err? ==> FolderFiles(folder, node, recursive).error == OSError
    decreases if node.Some? then NodeSize(node.value) else 0, 1
  {
    if ListDir(node).Ok? {
      EntriesErrorsAreOSError(folder, ListDir(node).value, recursive);
    }
  }

  lemma {:induction false} EntriesErrorsAreOSError(folder: string, entries: seq<Entry>, recursive: bool)
    ensures EntriesFiles(folder, entries, recursive).Err? ==> EntriesFiles(folder, entries, recursive).error == OSError
    decreases EntriesSize(entries), 2
  {
    if entries != [] {
      var n := |entries| - 1;
      EntrySmaller(entries, n);
      EntriesFilesStep(folder, entries, recursive);
      EntriesErrorsAreOSError(folder, entries[..n], recursive);
      FolderErrorsAreOSError(Join(folder, entries[n].name), Some(entries[n].node), recursive);
    }
  }

  /** A folder that cannot be listed (missing, a file, unreadable) makes the whole search raise OSError. */
  lemma UnlistableFolderFails(folders: seq<(string, Option<Node>)>, i: int, recursive: bool)
    requires 0 <= i < |folders| && ListDir(folders[i].1).Err?
    ensures FoldersFiles(folders, recursive) == Err(OSError)
  {
    FoldersPrefixStep(folders, i, recursive);
    var prefix := FoldersFiles(folders[..i], recursive);
    if prefix.Err? {
      PrefixError(folders, i, recursive);
      FoldersErrorsAreOSError(folders[..i], recursive);
    } else {
      PrefixError(folders, i + 1, recursive);
    }
  }

  lemma {:induction false} FoldersErrorsAreOSError(folders: seq<(string, Option<Node>)>, recursive: bool)
    ensures FoldersFiles(folders, recursive).Err? ==> FoldersFiles(folders, recursive).error == OSError
  {
    if folders != [] {
      var n := |folders| - 1;
      FoldersErrorsAreOSError(folders[..n], recursive);
      FolderErrorsAreOSError(folders[n].0, folders[n].1, recursive);
    }
  }
}
