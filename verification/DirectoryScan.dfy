/** The two recursive scanners of the context cache on one unchanging disk: the full scan that caches files and
    builds the file tree, and the light scan that only hashes (src/services/context/ContextCacheService.ts). */
module DirectoryScan {
  const MAX_FILE_SIZE_KB := 500

  datatype DirEntry = Directory(name: string) | File(name: string) | Other(name: string)

  datatype Stat = Stat(size: nat, mtime: int)

  /** What can be read below `root`: a path missing from a map makes the matching call throw. The ignore
      patterns, the file-name filter and the hash are parameters that both scanners share. */
  datatype Disk = Disk(
    root: string,
    listing: map<string, seq<DirEntry>>,
    stats: map<string, Stat>,
    contents: map<string, string>,
    ignored: (string, string) -> bool,
    included: string -> bool,
    hash: string -> string)
  {
    function Size(full: string): nat {
      if full in stats then stats[full].size else 0
    }

    function Mtime(full: string): int {
      if full in stats then stats[full].mtime else 0
    }

    function Content(full: string): string {
      if full in contents then contents[full] else ""
    }

    function Hash(full: string): string {
      hash(Content(full))
    }

    /** path.join(rootPath, relativePath) */
    function Full(relative: string): string {
      Join(root, relative)
    }

    /** path.relative(rootPath, fullPath) */
    function Relative(full: string): string {
      if Below(full) then full[|root| + 1..] else full
    }

    predicate Below(full: string) {
      |root| < |full| && full[..|root|] == root && full[|root|] == '/'
    }

    predicate InTree(dir: string) {
      dir == root || Below(dir)
    }
  }

  function Join(dir: string, name: string): string {
    dir + "/" + name
  }

  datatype CachedFile = CachedFile(path: string, relativePath: string, hash: string, content: string, size: nat,
                                   lastModified: int)

  datatype Light = Light(hash: string, mtime: int)

  datatype Node =
    | FileNode(name: string, path: string, size: nat, hash: string)
    | DirNode(name: string, path: string, children: seq<Node>)

  function Record(d: Disk, relative: string): CachedFile {
    var full := d.Full(relative);
    CachedFile(full, relative, d.Hash(full), d.Content(full), d.Size(full), d.Mtime(full))
  }

  function LightRecord(d: Disk, relative: string): Light {
    var full := d.Full(relative);
    Light(d.Hash(full), d.Mtime(full))
  }

  // ---- Which files count ----

  /** The directories that a scan of `dir` can still visit. */
  ghost function Depth(d: Disk, dir: string): set<string> {
    set k | k in d.listing && |k| >= |dir|
  }

  lemma Deeper(d: Disk, dir: string, name: string)
    requires dir in d.listing
    ensures Depth(d, Join(dir, name)) < Depth(d, dir)
  {
    assert dir in Depth(d, dir) && dir !in Depth(d, Join(dir, name));
  }

  /** The file has an accepted name, can be read, and is not too large. */
  predicate Eligible(d: Disk, name: string, full: string) {
    d.included(name) && full in d.stats && d.stats[full].size <= MAX_FILE_SIZE_KB * 1024 && full in d.contents
  }

  /** The path `full` is found from `dir`: through directories that are readable and not ignored, to an eligible
      file. */
  ghost predicate Found(d: Disk, dir: string, full: string)
    decreases Depth(d, dir), 1
  {
    dir in d.listing && exists i :: 0 <= i < |d.listing[dir]| && FoundBy(d, dir, d.listing[dir][i], full)
  }

  ghost predicate FoundBy(d: Disk, dir: string, entry: DirEntry, full: string)
    requires dir in d.listing
    decreases Depth(d, dir), 0
  {
    var child := Join(dir, entry.name);
    Deeper(d, dir, entry.name);
    !d.ignored(entry.name, d.Relative(child)) &&
    match entry
    case Directory(_) => Found(d, child, full)
    case File(name) => full == child && Eligible(d, name, full)
    case Other(_) => false
  }

  /** The path after the first k entries of a chain that starts in `dir`. */
  ghost function PathAt(dir: string, chain: seq<DirEntry>, k: nat): string
    requires k <= |chain|
  {
    if k == 0 then dir else Join(PathAt(dir, chain, k - 1), chain[k - 1].name)
  }

  /** A chain of listed entries that no pattern ignores, directories up to the last and that a file with an accepted
      name, readable and of at most 500 KB. */
  ghost predicate Leads(d: Disk, dir: string, chain: seq<DirEntry>, full: string) {
    && chain != []
    && (forall k :: 0 <= k < |chain| ==> Passes(d, dir, chain, k))
    && (forall k :: 0 <= k < |chain| - 1 ==> chain[k].Directory?)
    && var last := chain[|chain| - 1];
       && last.File? && d.included(last.name) && full == PathAt(dir, chain, |chain|)
       && full in d.contents && full in d.stats && d.stats[full].size <= 512_000
  }

  ghost predicate Passes(d: Disk, dir: string, chain: seq<DirEntry>, k: nat)
    requires k < |chain|
  {
    && PathAt(dir, chain, k) in d.listing && chain[k] in d.listing[PathAt(dir, chain, k)]
    && !d.ignored(chain[k].name, d.Relative(PathAt(dir, chain, k + 1)))
  }

  lemma {:induction false} PathShift(dir: string, entry: DirEntry, chain: seq<DirEntry>, k: nat)
    requires k <= |chain|
    ensures PathAt(dir, [entry] + chain, k + 1) == PathAt(Join(dir, entry.name), chain, k)
  {
    if k > 0 {
      PathShift(dir, entry, chain, k - 1);
    }
  }

  lemma PassesShift(d: Disk, dir: string, entry: DirEntry, chain: seq<DirEntry>, k: nat)
    requires k < |chain|
    ensures Passes(d, dir, [entry] + chain, k + 1) <==> Passes(d, Join(dir, entry.name), chain, k)
  {
    var longer := [entry] + chain;
    assert longer[k + 1] == chain[k];
    PathShift(dir, entry, chain, k);
    PathShift(dir, entry, chain, k + 1);
    assert PathAt(dir, longer, k + 2) == PathAt(Join(dir, entry.name), chain, k + 1);
  }

  lemma LeadsFurther(d: Disk, dir: string, entry: DirEntry, rest: seq<DirEntry>, full: string)
    requires Leads(d, Join(dir, entry.name), rest, full) && entry.Directory?
    requires dir in d.listing && entry in d.listing[dir] && !d.ignored(entry.name, d.Relative(Join(dir, entry.name)))
    ensures Leads(d, dir, [entry] + rest, full)
  {
    var chain := [entry] + rest;
    PathShift(dir, entry, rest, 0);
    PathShift(dir, entry, rest, |rest|);
    assert Passes(d, dir, chain, 0);
    forall k | 0 < k < |chain| ensures Passes(d, dir, chain, k) {
      PassesShift(d, dir, entry, rest, k - 1);
    }
  }

  lemma {:induction false} FoundLeads(d: Disk, dir: string, full: string) returns (chain: seq<DirEntry>)
    requires Found(d, dir, full)
    ensures Leads(d, dir, chain, full)
    decreases Depth(d, dir)
  {
    var i :| 0 <= i < |d.listing[dir]| && FoundBy(d, dir, d.listing[dir][i], full);
    var entry := d.listing[dir][i];
    Deeper(d, dir, entry.name);
    chain := [entry];
    assert PathAt(dir, chain, 1) == Join(PathAt(dir, chain, 0), entry.name);
    if entry.Directory? {
      var rest := FoundLeads(d, Join(dir, entry.name), full);
      LeadsFurther(d, dir, entry, rest, full);
      chain := [entry] + rest;
    } else {
      assert Passes(d, dir, chain, 0);
    }
  }

  lemma {:induction false} LeadsFound(d: Disk, dir: string, chain: seq<DirEntry>, full: string)
    requires Leads(d, dir, chain, full)
    ensures Found(d, dir, full)
    decreases |chain|
  {
    var entry, rest := chain[0], chain[1..];
    assert chain == [entry] + rest && Passes(d, dir, chain, 0);
    PathShift(dir, entry, rest, 0);
    var i :| 0 <= i < |d.listing[dir]| && d.listing[dir][i] == entry;
    if rest != [] {
      forall k | 0 <= k < |rest| ensures Passes(d, Join(dir, entry.name), rest, k) {
        assert Passes(d, dir, chain, k + 1);
        PassesShift(d, dir, entry, rest, k);
      }
      PathShift(dir, entry, rest, |rest|);
      LeadsFound(d, Join(dir, entry.name), rest, full);
    }
    assert FoundBy(d, dir, d.listing[dir][i], full);
  }

  /** A scan counts a file exactly if a chain of entries leads to it. */
  lemma FoundIff(d: Disk, dir: string, full: string)
    ensures Found(d, dir, full) <==> exists chain :: Leads(d, dir, chain, full)
  {
    if Found(d, dir, full) {
      var chain := FoundLeads(d, dir, full);
    }
    if chain :| Leads(d, dir, chain, full) {
      LeadsFound(d, dir, chain, full);
    }
  }

  /** All files found from `dir`, from one of its entries, from its first `n` entries. */
  ghost function Files(d: Disk, dir: string): iset<string> {
    iset full | Found(d, dir, full)
  }

  ghost function FilesBy(d: Disk, dir: string, entry: DirEntry): iset<string>
    requires dir in d.listing
  {
    iset full | FoundBy(d, dir, entry, full)
  }

  ghost function FilesUpTo(d: Disk, dir: string, n: nat): iset<string>
    requires dir in d.listing && n <= |d.listing[dir]|
  {
    iset full | FoundAmong(d, dir, n, full)
  }

  ghost predicate FoundAmong(d: Disk, dir: string, n: nat, full: string)
    requires dir in d.listing && n <= |d.listing[dir]|
  {
    exists i :: 0 <= i < n && FoundBy(d, dir, d.listing[dir][i], full)
  }

  lemma UpToNext(d: Disk, dir: string, n: nat)
    requires dir in d.listing && n < |d.listing[dir]|
    ensures FilesUpTo(d, dir, n + 1) == FilesUpTo(d, dir, n) + FilesBy(d, dir, d.listing[dir][n])
  {
  }

  lemma UpToAll(d: Disk, dir: string)
    ensures dir in d.listing ==> FilesUpTo(d, dir, |d.listing[dir]|) == Files(d, dir)
    ensures dir !in d.listing ==> Files(d, dir) == iset{}
  {
  }

  lemma FilesByCases(d: Disk, dir: string, entry: DirEntry)
    requires dir in d.listing
    ensures var child := Join(dir, entry.name);
            FilesBy(d, dir, entry) ==
              if d.ignored(entry.name, d.Relative(child)) then iset{}
              else match entry
                   case Directory(_) => Files(d, child)
                   case File(name) => (if Eligible(d, name, child) then iset{child} else iset{})
                   case Other(_) => iset{}
  {
  }

  // ---- What a scan does to a map ----

  /** The map `now` is `was` with the record of every file of `xs` set. */
  ghost predicate Adds<V>(d: Disk, xs: iset<string>, record: string -> V, was: map<string, V>, now: map<string, V>) {
    && (forall p :: p in now <==> p in was || d.Full(p) in xs)
    && (forall p :: p in now ==> now[p] == if d.Full(p) in xs then record(p) else was[p])
  }

  lemma AddsTwice<V>(d: Disk, xs: iset<string>, ys: iset<string>, record: string -> V,
                     was: map<string, V>, mid: map<string, V>, now: map<string, V>)
    requires Adds(d, xs, record, was, mid) && Adds(d, ys, record, mid, now)
    ensures Adds(d, xs + ys, record, was, now)
  {
  }

  lemma RelativeFull(d: Disk, full: string)
    requires d.Below(full)
    ensures d.Full(d.Relative(full)) == full
  {
    assert full == full[..|d.root|] + [full[|d.root|]] + full[|d.root| + 1..];
  }

  lemma FullInjective(d: Disk, p: string, q: string)
    requires d.Full(p) == d.Full(q)
    ensures p == q
  {
    assert p == d.Full(p)[|d.root| + 1..];
    assert q == d.Full(q)[|d.root| + 1..];
  }

  lemma ChildBelow(d: Disk, dir: string, name: string)
    requires d.InTree(dir)
    ensures d.Below(Join(dir, name))
  {
    var child := Join(dir, name);
    assert child[..|dir|] == dir && child[|dir|] == '/';
    if dir != d.root {
      assert child[..|d.root|] == dir[..|d.root|];
    }
  }

  lemma AddsOne<V>(d: Disk, full: string, record: string -> V, was: map<string, V>)
    requires d.Below(full)
    ensures Adds(d, iset{full}, record, was, was[d.Relative(full) := record(d.Relative(full))])
  {
    RelativeFull(d, full);
    forall p ensures d.Full(p) == full <==> p == d.Relative(full) {
      if d.Full(p) == full {
        FullInjective(d, p, d.Relative(full));
      }
    }
  }

  // ---- File trees ----

  ghost predicate Leaf(nodes: seq<Node>, path: string, size: nat, hash: string) {
    exists i :: 0 <= i < |nodes| &&
      match nodes[i]
      case FileNode(_, p, s, h) => p == path && s == size && h == hash
      case DirNode(_, _, children) => Leaf(children, path, size, hash)
  }

  /** The file leaves are exactly the files of `xs`, with their sizes and hashes. */
  ghost predicate LeavesAre(d: Disk, nodes: seq<Node>, xs: iset<string>) {
    forall p, size, hash :: Leaf(nodes, p, size, hash) <==>
      d.Full(p) in xs && size == d.Size(d.Full(p)) && hash == d.Hash(d.Full(p))
  }

  lemma LeafConcat(a: seq<Node>, b: Node, path: string, size: nat, hash: string)
    ensures Leaf(a + [b], path, size, hash) <==> Leaf(a, path, size, hash) || Leaf([b], path, size, hash)
  {
    var c := a + [b];
    assert c[|a|] == b && forall i :: 0 <= i < |a| ==> c[i] == a[i];
    if Leaf([b], path, size, hash) {
      assert [b][0] == c[|a|];
    }
    if Leaf(a, path, size, hash) {
      var i :| 0 <= i < |a| && match a[i]
                               case FileNode(_, p, s, h) => p == path && s == size && h == hash
                               case DirNode(_, _, children) => Leaf(children, path, size, hash);
      assert c[i] == a[i];
    }
  }

  lemma LeavesConcat(d: Disk, a: seq<Node>, b: Node, xs: iset<string>, ys: iset<string>)
    requires LeavesAre(d, a, xs) && LeavesAre(d, [b], ys)
    ensures LeavesAre(d, a + [b], xs + ys)
  {
    forall p, size, hash
      ensures Leaf(a + [b], p, size, hash) <==>
              d.Full(p) in xs + ys && size == d.Size(d.Full(p)) && hash == d.Hash(d.Full(p))
    {
      LeafConcat(a, b, p, size, hash);
    }
  }

  lemma DirLeaves(d: Disk, name: string, path: string, children: seq<Node>, xs: iset<string>)
    requires LeavesAre(d, children, xs)
    ensures LeavesAre(d, [DirNode(name, path, children)], xs)
  {
    var nodes := [DirNode(name, path, children)];
    forall p, size, hash ensures Leaf(nodes, p, size, hash) <==> Leaf(children, p, size, hash) {
      assert nodes[0].children == children;
    }
  }

  lemma FileLeaves(d: Disk, name: string, full: string)
    requires d.Below(full)
    ensures LeavesAre(d, [FileNode(name, d.Relative(full), d.Size(full), d.Hash(full))], iset{full})
  {
    var nodes := [FileNode(name, d.Relative(full), d.Size(full), d.Hash(full))];
    RelativeFull(d, full);
    forall p, size, hash
      ensures Leaf(nodes, p, size, hash) <==> d.Full(p) == full && size == d.Size(full) && hash == d.Hash(full)
    {
      assert nodes[0].path == d.Relative(full);
      if d.Full(p) == full {
        FullInjective(d, p, d.Relative(full));
      }
    }
  }

  // ---- The scanners ----

  class FileTable {
    var files: map<string, CachedFile>
    constructor () ensures files == map[] { files := map[]; }
  }

  class HashTable {
    var files: map<string, Light>
    constructor () ensures files == map[] { files := map[]; }
  }

  /** Caches exactly the files found from `dir`, and builds a tree whose file leaves are exactly those files. */
  method ScanDirectory(d: Disk, dir: string, table: FileTable) returns (tree: seq<Node>)
    requires d.InTree(dir)
    modifies table
    ensures Adds(d, Files(d, dir), p => Record(d, p), old(table.files), table.files)
    ensures LeavesAre(d, tree, Files(d, dir))
    decreases Depth(d, dir)
  {
    tree := [];
    UpToAll(d, dir);
    if dir !in d.listing {
      return;
    }
    var entries := d.listing[dir];
    ghost var record := (p: string) => Record(d, p);
    for i := 0 to |entries|
      invariant Adds(d, FilesUpTo(d, dir, i), record, old(table.files), table.files)
      invariant LeavesAre(d, tree, FilesUpTo(d, dir, i))
    {
      var name := entries[i].name;
      var child := Join(dir, name);
      var relative := d.Relative(child);
      ghost var before := table.files;
      UpToNext(d, dir, i);
      FilesByCases(d, dir, entries[i]);
      ChildBelow(d, dir, name);
      if !d.ignored(name, relative) {
        match entries[i]
        case Directory(_) =>
          Deeper(d, dir, name);
          var children := ScanDirectory(d, child, table);
          AddsTwice(d, FilesUpTo(d, dir, i), Files(d, child), record, old(table.files), before, table.files);
          DirLeaves(d, name, relative, children, Files(d, child));
          LeavesConcat(d, tree, DirNode(name, relative, children), FilesUpTo(d, dir, i), Files(d, child));
          tree := tree + [DirNode(name, relative, children)];
        case File(_) =>
          if d.included(name) && child in d.stats && d.stats[child].size <= MAX_FILE_SIZE_KB * 1024
             && child in d.contents {
            var content := d.contents[child];
            var hash := d.hash(content);
            RelativeFull(d, child);
            var file := CachedFile(child, relative, hash, content, d.stats[child].size, d.stats[child].mtime);
            table.files := table.files[relative := file];
            AddsOne(d, child, record, before);
            AddsTwice(d, FilesUpTo(d, dir, i), iset{child}, record, old(table.files), before, table.files);
            FileLeaves(d, name, child);
            LeavesConcat(d, tree, FileNode(name, relative, d.stats[child].size, hash), FilesUpTo(d, dir, i),
                         iset{child});
            tree := tree + [FileNode(name, relative, d.stats[child].size, hash)];
          }
        case Other(_) =>
      }
      assert FilesUpTo(d, dir, i) + iset{} == FilesUpTo(d, dir, i);
    }
  }

  /** Records the hash of exactly the files found from `dir`. */
  method ScanForChanges(d: Disk, dir: string, table: HashTable)
    requires d.InTree(dir)
    modifies table
    ensures Adds(d, Files(d, dir), p => LightRecord(d, p), old(table.files), table.files)
    decreases Depth(d, dir)
  {
    UpToAll(d, dir);
    if dir !in d.listing {
      return;
    }
    var entries := d.listing[dir];
    ghost var record := (p: string) => LightRecord(d, p);
    for i := 0 to |entries|
      invariant Adds(d, FilesUpTo(d, dir, i), record, old(table.files), table.files)
    {
      var name := entries[i].name;
      var child := Join(dir, name);
      var relative := d.Relative(child);
      ghost var before := table.files;
      UpToNext(d, dir, i);
      FilesByCases(d, dir, entries[i]);
      ChildBelow(d, dir, name);
      if !d.ignored(name, relative) {
        match entries[i]
        case Directory(_) =>
          Deeper(d, dir, name);
          ScanForChanges(d, child, table);
          AddsTwice(d, FilesUpTo(d, dir, i), Files(d, child), record, old(table.files), before, table.files);
        case File(_) =>
          if d.included(name) && child in d.stats && d.stats[child].size <= MAX_FILE_SIZE_KB * 1024
             && child in d.contents {
            RelativeFull(d, child);
            table.files := table.files[relative := Light(d.hash(d.contents[child]), d.stats[child].mtime)];
            AddsOne(d, child, record, before);
            AddsTwice(d, FilesUpTo(d, dir, i), iset{child}, record, old(table.files), before, table.files);
          }
        case Other(_) =>
      }
      assert FilesUpTo(d, dir, i) + iset{} == FilesUpTo(d, dir, i);
    }
  }

  // ---- The light scan refines the full scan ----

  /** `files` is what a full scan of the disk caches from nothing. */
  ghost predicate Fresh(d: Disk, files: map<string, CachedFile>) {
    Adds(d, Files(d, d.root), p => Record(d, p), map[], files)
  }

  ghost predicate FreshHashes(d: Disk, hashes: map<string, Light>) {
    Adds(d, Files(d, d.root), p => LightRecord(d, p), map[], hashes)
  }

  /** On every disk both scanners record the same paths with the same hashes and modification times. */
  lemma LightScanRefinesFullScan(d: Disk, files: map<string, CachedFile>, hashes: map<string, Light>)
    requires Fresh(d, files) && FreshHashes(d, hashes)
    ensures files.Keys == hashes.Keys
    ensures forall p :: p in files ==> hashes[p] == Light(files[p].hash, files[p].lastModified)
  {
  }
}
