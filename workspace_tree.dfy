/** The workspace tree shown to the agent: directories first, then files,
    each group in case-insensitive name order, ignored names left out, long
    listings cut to their directories, and nesting bounded by a depth. The
    file system is an abstract directory tree. */
module WorkspaceTree {
  import opened Wrappers
  import opened Strs

  const DefaultIgnorePatterns: set<string> := {
    ".venv", "venv", "__pycache__", ".pytest_cache", ".mypy_cache", ".tox", ".eggs", "*.egg-info",
    "dist", "build", "node_modules", ".git", ".gitignore", ".idea", ".vscode", ".vs", ".DS_Store",
    "Thumbs.db", ".env", ".env.*", ".coverage", "htmlcov", ".ruff_cache"
  }
  const DefaultMaxDepth: int := 3
  const DefaultMaxFiles: int := 20

  /** A directory entry, as `iterdir` lists it. */
  datatype Entry = File(name: string) | Dir(name: string, listing: Listing)

  /** What reading a directory gives. */
  datatype Listing = Entries(items: seq<Entry>) | PermissionDenied | ReadError

  /** What the workspace root path is. */
  datatype Root = Missing | NotDirectory | Directory(listing: Listing)

  /** The limits of one tree. */
  datatype Options = Options(maxDepth: int, maxFiles: int, ignores: set<string>)

  predicate EndsWith(s: string, suffix: string) {
    |suffix| <= |s| && s[|s| - |suffix|..] == suffix
  }

  /** A pattern starting with '*' stands for every name ending in the rest. */
  predicate Wildcard(p: string) {
    |p| > 0 && p[0] == '*'
  }

  /** `_should_ignore`: a name listed among the patterns is ignored; without
      wildcards nothing else is; the bare wildcard "*" ignores every name. */
  predicate ShouldIgnore(name: string, patterns: set<string>): (ignored: bool)
    ensures name in patterns ==> ignored
    ensures (forall p :: p in patterns ==> !Wildcard(p)) ==> (ignored <==> name in patterns)
    ensures "*" in patterns ==> ignored
  {
    name in patterns || exists p :: p in patterns && Wildcard(p) && EndsWith(name, p[1..])
  }

  /** Of the default patterns only "*.egg-info" is a wildcard. */
  lemma DefaultWildcards(p: string)
    requires p in DefaultIgnorePatterns && Wildcard(p)
    ensures p == "*.egg-info"
  {
  }

  /** A worked example on the default patterns, not a general property:
      they hide egg-info directories by their suffix and ".env" by its
      name. */
  lemma DefaultIgnoreMatches()
    ensures ShouldIgnore("pkg.egg-info", DefaultIgnorePatterns)
    ensures ShouldIgnore(".env", DefaultIgnorePatterns) && ShouldIgnore(".env.*", DefaultIgnorePatterns)
  {
    assert Wildcard("*.egg-info") && EndsWith("pkg.egg-info", "*.egg-info"[1..]);
  }

  /** ".env.*" is compared literally, so ".env.local" is listed. */
  lemma EnvVariantListed()
    ensures !ShouldIgnore(".env.local", DefaultIgnorePatterns)
  {
    assert ".env.local" !in DefaultIgnorePatterns;
    forall p | p in DefaultIgnorePatterns && Wildcard(p)
      ensures !EndsWith(".env.local", p[1..])
    {
      DefaultWildcards(p);
    }
  }

  /** Python's `<=` on strings: character by character, a prefix first. */
  predicate LessOrEqual(a: string, b: string) {
    if a == [] then true
    else if b == [] then false
    else if a[0] != b[0] then a[0] < b[0]
    else LessOrEqual(a[1..], b[1..])
  }

  lemma {:induction false} LessOrEqualTotal(a: string, b: string)
    ensures LessOrEqual(a, b) || LessOrEqual(b, a)
  {
    if a != [] && b != [] && a[0] == b[0] {
      LessOrEqualTotal(a[1..], b[1..]);
    }
  }

  /** The sort key `p.name.lower()`. */
  function Key(e: Entry): string {
    Lower(e.name)
  }

  predicate Ascending(s: seq<Entry>) {
    forall i :: 0 < i < |s| ==> LessOrEqual(Key(s[i - 1]), Key(s[i]))
  }

  /** Places `x` after every element whose key is not above its own. */
  function Insert(x: Entry, s: seq<Entry>): (r: seq<Entry>)
    ensures multiset(r) == multiset(s) + multiset{x}
    ensures |r| == |s| + 1
    ensures r[|r| - 1] == x || (s != [] && r[|r| - 1] == s[|s| - 1])
  {
    if s == [] || LessOrEqual(Key(s[|s| - 1]), Key(x)) then s + [x]
    else
      assert s == s[..|s| - 1] + [s[|s| - 1]];
      Insert(x, s[..|s| - 1]) + [s[|s| - 1]]
  }

  lemma {:induction false} InsertAscending(x: Entry, s: seq<Entry>)
    requires Ascending(s)
    ensures Ascending(Insert(x, s))
  {
    if s != [] && !LessOrEqual(Key(s[|s| - 1]), Key(x)) {
      var init := s[..|s| - 1];
      InsertAscending(x, init);
      LessOrEqualTotal(Key(s[|s| - 1]), Key(x));
      var r := Insert(x, init);
      assert Insert(x, s) == r + [s[|s| - 1]];
      if init != [] {
        assert LessOrEqual(Key(init[|init| - 1]), Key(s[|s| - 1]));
      }
    }
  }

  /** `list.sort(key=lambda p: p.name.lower())`: a stable sort, written as
      an insertion sort. */
  function SortByKey(s: seq<Entry>): (r: seq<Entry>)
    ensures multiset(r) == multiset(s) && |r| == |s|
  {
    if s == [] then []
    else
      assert s == s[..|s| - 1] + [s[|s| - 1]];
      Insert(s[|s| - 1], SortByKey(s[..|s| - 1]))
  }

  lemma {:induction false} SortAscending(s: seq<Entry>)
    ensures Ascending(SortByKey(s))
  {
    if s != [] {
      SortAscending(s[..|s| - 1]);
      InsertAscending(s[|s| - 1], SortByKey(s[..|s| - 1]));
    }
  }

  /** The directories among `items` that are not ignored, in listing order. */
  function Dirs(items: seq<Entry>, ignores: set<string>): seq<Entry> {
    if items == [] then []
    else
      var e := items[|items| - 1];
      var before := Dirs(items[..|items| - 1], ignores);
      if e.Dir? && !ShouldIgnore(e.name, ignores) then before + [e] else before
  }

  /** The files among `items` that are not ignored, in listing order. */
  function Files(items: seq<Entry>, ignores: set<string>): seq<Entry> {
    if items == [] then []
    else
      var e := items[|items| - 1];
      var before := Files(items[..|items| - 1], ignores);
      if e.File? && !ShouldIgnore(e.name, ignores) then before + [e] else before
  }

  /** The two groups hold exactly the entries of their kind not ignored. */
  lemma {:induction false} GroupMembers(items: seq<Entry>, ignores: set<string>)
    ensures forall e :: e in Dirs(items, ignores) <==> e in items && e.Dir? && !ShouldIgnore(e.name, ignores)
    ensures forall e :: e in Files(items, ignores) <==> e in items && e.File? && !ShouldIgnore(e.name, ignores)
  {
    if items != [] {
      var init := items[..|items| - 1];
      GroupMembers(init, ignores);
      assert items == init + [items[|items| - 1]];
    }
  }

  /** More entries than `maxFiles` shows the directories only. */
  predicate Truncated(items: seq<Entry>, opts: Options) {
    |Dirs(items, opts.ignores)| + |Files(items, opts.ignores)| > opts.maxFiles
  }

  /** The entries listed for a directory, in the order they are listed. */
  function Shown(items: seq<Entry>, opts: Options): seq<Entry> {
    var dirs := SortByKey(Dirs(items, opts.ignores));
    if Truncated(items, opts) then dirs else dirs + SortByKey(Files(items, opts.ignores))
  }

  /** Sorting keeps exactly the same entries. */
  lemma SortKeepsMembers(s: seq<Entry>)
    ensures forall e :: e in SortByKey(s) <==> e in s
  {
    forall e ensures e in SortByKey(s) <==> e in s {
      assert e in SortByKey(s) <==> e in multiset(SortByKey(s));
    }
  }

  /** No ignored name is listed; a truncated listing holds exactly the
      directories, an untruncated one exactly the entries not ignored. */
  lemma ShownMembers(items: seq<Entry>, opts: Options)
    ensures forall e :: e in Shown(items, opts) ==> e in items && !ShouldIgnore(e.name, opts.ignores)
    ensures Truncated(items, opts) ==>
      forall e :: e in Shown(items, opts) <==> e in items && e.Dir? && !ShouldIgnore(e.name, opts.ignores)
    ensures !Truncated(items, opts) ==>
      forall e :: e in Shown(items, opts) <==> e in items && !ShouldIgnore(e.name, opts.ignores)
  {
    GroupMembers(items, opts.ignores);
    SortKeepsMembers(Dirs(items, opts.ignores));
    SortKeepsMembers(Files(items, opts.ignores));
  }

  /** Directories precede files, and each group is in key order. */
  lemma ShownOrder(items: seq<Entry>, opts: Options)
    ensures forall i, j :: 0 <= i < j < |Shown(items, opts)| && Shown(items, opts)[j].Dir? ==> Shown(items, opts)[i].Dir?
    ensures Shown(items, opts)[..|Dirs(items, opts.ignores)|] == SortByKey(Dirs(items, opts.ignores))
    ensures Ascending(SortByKey(Dirs(items, opts.ignores))) && Ascending(SortByKey(Files(items, opts.ignores)))
  {
    var dirs := SortByKey(Dirs(items, opts.ignores));
    var files := SortByKey(Files(items, opts.ignores));
    SortAscending(Dirs(items, opts.ignores));
    SortAscending(Files(items, opts.ignores));
    GroupMembers(items, opts.ignores);
    SortKeepsMembers(Dirs(items, opts.ignores));
    SortKeepsMembers(Files(items, opts.ignores));
    var shown := Shown(items, opts);
    forall i, j | 0 <= i < j < |shown| && shown[j].Dir?
      ensures shown[i].Dir?
    {
      if i < |dirs| {
        assert shown[i] == dirs[i] && dirs[i] in dirs;
      }
    }
  }

  /** The connector before an entry's name. */
  function Connector(last: bool): string {
    if last then "└── " else "├── "
  }

  /** The prefix of the lines below an entry. */
  function ChildPrefix(prefix: string, last: bool): string {
    prefix + (if last then "    " else "│   ")
  }

  /** The line for an entry: directories end in '/'. */
  function EntryLine(prefix: string, last: bool, e: Entry): string {
    if e.Dir? then prefix + Connector(last) + e.name + "/" else prefix + Connector(last) + e.name
  }

  function TruncationLine(prefix: string, total: nat, dirs: nat): string {
    prefix + "... (" + IntToString(total) + " items total, showing " + IntToString(dirs) + " directories)"
  }

  /** Levels left before `maxDepth` is passed. */
  function Levels(depth: int, maxDepth: int): nat {
    if depth > maxDepth then 0 else maxDepth - depth + 1
  }

  /** The lines `_build_tree` appends for a directory at `depth`. */
  function DirLines(listing: Listing, prefix: string, depth: int, opts: Options): seq<string>
    decreases Levels(depth, opts.maxDepth), 1, 0
  {
    if depth > opts.maxDepth then []
    else
      match listing
      case PermissionDenied => [prefix + "[Permission Denied]"]
      case ReadError => [prefix + "[Error reading directory]"]
      case Entries(items) =>
        ListingHead(items, prefix, opts) + EntryLines(Shown(items, opts), 0, Truncated(items, opts), prefix, depth, opts)
  }

  /** The line a listing starts with: the truncation note when it is cut. */
  function ListingHead(items: seq<Entry>, prefix: string, opts: Options): seq<string> {
    var dirs := Dirs(items, opts.ignores);
    if Truncated(items, opts) then [TruncationLine(prefix, |dirs| + |Files(items, opts.ignores)|, |dirs|)] else []
  }

  /** The lines for the shown entries from position `k` on: each entry's
      line, then, for a directory above the depth limit, its own tree. Only
      the last entry of an untruncated listing gets the closing connector. */
  function EntryLines(shown: seq<Entry>, k: nat, truncated: bool, prefix: string, depth: int, opts: Options): seq<string>
    requires k <= |shown|
    decreases Levels(depth, opts.maxDepth), 0, |shown| - k
  {
    if k == |shown| then []
    else
      var last := k == |shown| - 1 && !truncated;
      var e := shown[k];
      [EntryLine(prefix, last, e)] + Below(e, last, prefix, depth, opts) + EntryLines(shown, k + 1, truncated, prefix, depth, opts)
  }

  /** The tree under an entry: a directory above the depth limit expands. */
  function Below(e: Entry, last: bool, prefix: string, depth: int, opts: Options): seq<string>
    decreases Levels(depth, opts.maxDepth), 0, 0
  {
    if e.Dir? && depth < opts.maxDepth then DirLines(e.listing, ChildPrefix(prefix, last), depth + 1, opts) else []
  }

  /** One step of `EntryLines`. */
  lemma EntryLinesStep(shown: seq<Entry>, k: nat, truncated: bool, prefix: string, depth: int, opts: Options)
    requires k < |shown|
    ensures EntryLines(shown, k, truncated, prefix, depth, opts) ==
      [EntryLine(prefix, k == |shown| - 1 && !truncated, shown[k])]
      + Below(shown[k], k == |shown| - 1 && !truncated, prefix, depth, opts)
      + EntryLines(shown, k + 1, truncated, prefix, depth, opts)
  {
  }

  /** The lines of a readable directory within the depth limit. */
  lemma DirLinesOfEntries(items: seq<Entry>, prefix: string, depth: int, opts: Options)
    requires depth <= opts.maxDepth
    ensures DirLines(Entries(items), prefix, depth, opts) ==
      ListingHead(items, prefix, opts) + EntryLines(Shown(items, opts), 0, Truncated(items, opts), prefix, depth, opts)
  {
  }

  /** At the deepest level listed, subdirectories are not expanded: one
      line per shown entry. */
  lemma {:induction false} DeepestLevelIsFlat(shown: seq<Entry>, k: nat, truncated: bool, prefix: string, depth: int, opts: Options)
    requires k <= |shown| && depth >= opts.maxDepth
    ensures |EntryLines(shown, k, truncated, prefix, depth, opts)| == |shown| - k
    ensures forall i :: 0 <= i < |shown| - k ==>
      EntryLines(shown, k, truncated, prefix, depth, opts)[i] ==
        EntryLine(prefix, k + i == |shown| - 1 && !truncated, shown[k + i])
    decreases |shown| - k
  {
    if k < |shown| {
      DeepestLevelIsFlat(shown, k + 1, truncated, prefix, depth, opts);
      var line := EntryLine(prefix, k == |shown| - 1 && !truncated, shown[k]);
      var rest := EntryLines(shown, k + 1, truncated, prefix, depth, opts);
      FlatStep(shown, k, truncated, prefix, depth, opts);
      forall i | 0 <= i < |shown| - k
        ensures ([line] + rest)[i] == EntryLine(prefix, k + i == |shown| - 1 && !truncated, shown[k + i])
      {
        if i > 0 {
          assert ([line] + rest)[i] == rest[i - 1];
          assert k + 1 + (i - 1) == k + i;
        }
      }
    }
  }

  /** One step of `EntryLines` at the deepest level: no tree below. */
  lemma FlatStep(shown: seq<Entry>, k: nat, truncated: bool, prefix: string, depth: int, opts: Options)
    requires k < |shown| && depth >= opts.maxDepth
    ensures EntryLines(shown, k, truncated, prefix, depth, opts) ==
      [EntryLine(prefix, k == |shown| - 1 && !truncated, shown[k])] + EntryLines(shown, k + 1, truncated, prefix, depth, opts)
  {
    EntryLinesStep(shown, k, truncated, prefix, depth, opts);
    assert Below(shown[k], k == |shown| - 1 && !truncated, prefix, depth, opts) == [];
  }

  /** A directory below the depth limit contributes nothing. */
  lemma BeyondDepthIsEmpty(listing: Listing, prefix: string, depth: int, opts: Options)
    requires depth > opts.maxDepth
    ensures DirLines(listing, prefix, depth, opts) == []
  {
  }

  /** A directory that cannot be read shows one line saying why. */
  lemma UnreadableLines(listing: Listing, prefix: string, depth: int, opts: Options)
    requires depth <= opts.maxDepth && !listing.Entries?
    ensures DirLines(listing, prefix, depth, opts) ==
      [prefix + (if listing.PermissionDenied? then "[Permission Denied]" else "[Error reading directory]")]
  {
  }

  lemma AppendRegroup(a: seq<string>, b: seq<string>, c: seq<string>, d: seq<string>)
    ensures a + b + c + d == a + (b + c + d)
  {
  }

  /** The two-line text for a root that cannot be listed. */
  function Header(path: string): string {
    "# Workspace Directory: " + path
  }

  /** The text `generate_workspace_tree` returns. */
  function TreeText(root: Root, path: string, rootName: string, opts: Options): string {
    match root
    case Missing => Header(path) + "\n(Directory does not exist)"
    case NotDirectory => Header(path) + "\n(Not a directory)"
    case Directory(listing) => Join([Header(path), "", rootName + "/"] + DirLines(listing, "", 1, opts), "\n")
  }

  /** A listed root starts with the header line. */
  lemma TreeStartsWithHeader(listing: Listing, path: string, rootName: string, opts: Options)
    ensures Header(path) <= TreeText(Directory(listing), path, rootName, opts)
  {
    JoinStartsWithFirst([Header(path), "", rootName + "/"] + DirLines(listing, "", 1, opts), "\n");
  }

  /** The lines collected by one run of `generate_workspace_tree`. */
  class TreeWriter {
    var lines: seq<string>

    constructor(header: seq<string>)
      ensures lines == header
    {
      lines := header;
    }

    /** `_build_tree`: appends the lines of one directory and of the
        directories below it. */
    method BuildTree(listing: Listing, prefix: string, depth: int, opts: Options)
      modifies this
      ensures lines == old(lines) + DirLines(listing, prefix, depth, opts)
      decreases Levels(depth, opts.maxDepth), 3
    {
      if depth > opts.maxDepth {
        BeyondDepthIsEmpty(listing, prefix, depth, opts);
        return;
      }
      if listing.PermissionDenied? {
        UnreadableLines(listing, prefix, depth, opts);
        lines := lines + [prefix + "[Permission Denied]"];
        return;
      }
      if listing.ReadError? {
        UnreadableLines(listing, prefix, depth, opts);
        lines := lines + [prefix + "[Error reading directory]"];
        return;
      }
      WriteListing(listing.items, prefix, depth, opts);
    }

    /** `_build_tree` for a directory that could be read. */
    method WriteListing(items: seq<Entry>, prefix: string, depth: int, opts: Options)
      requires depth <= opts.maxDepth
      modifies this
      ensures lines == old(lines) + DirLines(Entries(items), prefix, depth, opts)
      decreases Levels(depth, opts.maxDepth), 2
    {
      var head, shown, truncated := ListingParts(items, prefix, opts);
      DirLinesOfEntries(items, prefix, depth, opts);
      ghost var start := lines;
      ghost var tail := EntryLines(shown, 0, truncated, prefix, depth, opts);
      lines := lines + head;
      WriteEntries(shown, truncated, prefix, depth, opts);
      AppendAssoc(start, head, tail);
    }

    /** The grouping, sorting and cut of `_build_tree` for one listing. */
    static method ListingParts(items: seq<Entry>, prefix: string, opts: Options)
      returns (head: seq<string>, shown: seq<Entry>, truncated: bool)
      ensures head == ListingHead(items, prefix, opts)
      ensures shown == Shown(items, opts) && truncated == Truncated(items, opts)
    {
      var dirs, files := Partition(items, opts.ignores);
      var total := |dirs| + |files|;
      var count := |dirs|;
      ghost var line := TruncationLine(prefix, total, count);
      assert ListingHead(items, prefix, opts) == if total > opts.maxFiles then [line] else [];
      dirs := SortByKey(dirs);
      files := SortByKey(files);
      truncated := total > opts.maxFiles;
      if truncated {
        shown := dirs;
        head := [TruncationLine(prefix, total, count)];
      } else {
        shown := dirs + files;
        head := [];
      }
    }

    /** The entry loop of `_build_tree`. */
    method WriteEntries(shown: seq<Entry>, truncated: bool, prefix: string, depth: int, opts: Options)
      modifies this
      ensures lines == old(lines) + EntryLines(shown, 0, truncated, prefix, depth, opts)
      decreases Levels(depth, opts.maxDepth), 1
    {
      ghost var target := old(lines) + EntryLines(shown, 0, truncated, prefix, depth, opts);
      for i := 0 to |shown|
        invariant lines + EntryLines(shown, i, truncated, prefix, depth, opts) == target
      {
        var last := i == |shown| - 1 && !truncated;
        var e := shown[i];
        ghost var rest := EntryLines(shown, i + 1, truncated, prefix, depth, opts);
        ghost var below := Below(e, last, prefix, depth, opts);
        EntryLinesStep(shown, i, truncated, prefix, depth, opts);
        ghost var before := lines;
        lines := lines + [EntryLine(prefix, last, e)];
        ExpandEntry(e, last, prefix, depth, opts);
        AppendRegroup(before, [EntryLine(prefix, last, e)], below, rest);
      }
      assert EntryLines(shown, |shown|, truncated, prefix, depth, opts) == [];
      assert lines + [] == lines;
    }

  /** Where the loop body of `_build_tree` recurses. */
    method ExpandEntry(e: Entry, last: bool, prefix: string, depth: int, opts: Options)
      modifies this
      ensures lines == old(lines) + Below(e, last, prefix, depth, opts)
      decreases Levels(depth, opts.maxDepth), 0
    {
      if e.Dir? && depth < opts.maxDepth {
        BuildTree(e.listing, ChildPrefix(prefix, last), depth + 1, opts);
      } else {
        assert lines + [] == lines;
      }
    }
  }

  /** The loop that splits a listing into directories and files. */
  method Partition(items: seq<Entry>, ignores: set<string>) returns (dirs: seq<Entry>, files: seq<Entry>)
    ensures dirs == Dirs(items, ignores) && files == Files(items, ignores)
  {
    dirs, files := [], [];
    for i := 0 to |items|
      invariant dirs == Dirs(items[..i], ignores) && files == Files(items[..i], ignores)
    {
      assert items[..i + 1][..i] == items[..i];
      var e := items[i];
      if ShouldIgnore(e.name, ignores) {
        continue;
      }
      if e.Dir? {
        dirs := dirs + [e];
      } else {
        files := files + [e];
      }
    }
    assert items[..|items|] == items;
  }

  /** `generate_workspace_tree`; absent ignore patterns mean the defaults. */
  method GenerateWorkspaceTree(root: Root, path: string, rootName: string, maxDepth: int, maxFiles: int,
                               ignorePatterns: Option<set<string>>)
    returns (text: string)
    ensures text == TreeText(root, path, rootName, Options(maxDepth, maxFiles, ignorePatterns.GetOr(DefaultIgnorePatterns)))
  {
    if root.Missing? {
      return Header(path) + "\n(Directory does not exist)";
    }
    if root.NotDirectory? {
      return Header(path) + "\n(Not a directory)";
    }
    var opts := Options(maxDepth, maxFiles, ignorePatterns.GetOr(DefaultIgnorePatterns));
    var writer := new TreeWriter([Header(path), "", rootName + "/"]);
    writer.BuildTree(root.listing, "", 1, opts);
    text := Join(writer.lines, "\n");
  }

  /** `get_workspace_tree_context`: the tree inside the prompt section. */
  function TreeContext(tree: string): (r: string)
    ensures "WORKSPACE STRUCTURE:\n" + tree <= r
  {
    var head := "WORKSPACE STRUCTURE:\n" + tree;
    assert (head + TreeNote)[..|head|] == head;
    head + TreeNote
  }

  /** The advice printed under the tree. */
  const TreeNote := "\n\nNote: Use this structure to understand the workspace layout. For detailed file listings, use filesystem:list_files tool.\n"
}
