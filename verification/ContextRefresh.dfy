/** Building a project context, detecting what changed on disk and patching the context
    (src/services/context/ContextCacheService.ts). */
module ContextRefresh {
  import opened DirectoryScan

  datatype Diff = Diff(added: seq<string>, modified: seq<string>, deleted: seq<string>, untouched: seq<string>)

  class ProjectContext {
    var files: map<string, CachedFile>
    var fileTree: seq<Node>
    var totalSize: nat
    var totalFiles: nat
    var lastUpdated: nat

    constructor (files: map<string, CachedFile>, fileTree: seq<Node>, totalSize: nat, now: nat)
      ensures this.files == files && this.fileTree == fileTree
      ensures this.totalSize == totalSize && this.totalFiles == |files| && this.lastUpdated == now
    {
      this.files, this.fileTree, this.totalSize, this.totalFiles, this.lastUpdated :=
        files, fileTree, totalSize, |files|, now;
    }

    /** The totals count the files. */
    ghost predicate Tallied()
      reads this
    {
      totalSize == SumSizes(files) && totalFiles == |files|
    }
  }

  // ---- Totals ----

  ghost function SumSizes(files: map<string, CachedFile>): nat {
    if files == map[] then 0
    else
      var k :| k in files;
      files[k].size + SumSizes(files - {k})
  }

  lemma {:induction false} SumSizesAt(files: map<string, CachedFile>, k: string)
    requires k in files
    ensures SumSizes(files) == files[k].size + SumSizes(files - {k})
    decreases |files|
  {
    var p :| p in files && SumSizes(files) == files[p].size + SumSizes(files - {p});
    if p != k {
      assert files - {p} - {k} == files - {k} - {p};
      SumSizesAt(files - {p}, k);
      SumSizesAt(files - {k}, p);
    }
  }

  lemma {:induction false} SumSizesSame(a: map<string, CachedFile>, b: map<string, CachedFile>)
    requires a.Keys == b.Keys && forall p :: p in a ==> a[p].size == b[p].size
    ensures SumSizes(a) == SumSizes(b)
    decreases |a|
  {
    if a == map[] {
      assert b == map[];
    } else {
      var k :| k in a;
      SumSizesAt(a, k);
      SumSizesAt(b, k);
      SumSizesSame(a - {k}, b - {k});
    }
  }

  method ComputeSize(files: map<string, CachedFile>) returns (total: nat)
    ensures total == SumSizes(files)
  {
    total := 0;
    var left := files;
    while left != map[]
      invariant SumSizes(files) == total + SumSizes(left)
      decreases |left|
    {
      var k :| k in left;
      SumSizesAt(left, k);
      total := total + left[k].size;
      left := left - {k};
    }
  }

  method BuildContext(d: Disk, now: nat) returns (c: ProjectContext)
    ensures fresh(c) && Fresh(d, c.files) && LeavesAre(d, c.fileTree, Files(d, d.root))
    ensures c.Tallied() && c.lastUpdated == now
  {
    var table := new FileTable();
    var tree := ScanDirectory(d, d.root, table);
    var totalSize := ComputeSize(table.files);
    c := new ProjectContext(table.files, tree, totalSize, now);
  }

  // ---- Detecting changes ----

  ghost predicate OnDisk(d: Disk, p: string) {
    d.Full(p) in Files(d, d.root)
  }

  ghost predicate SameHash(d: Disk, cached: map<string, CachedFile>, p: string)
    requires p in cached
  {
    cached[p].hash == d.Hash(d.Full(p))
  }

  /** The list holds each path of the set once, and nothing else. */
  ghost predicate Lists(xs: seq<string>, paths: set<string>) {
    && (forall p :: p in xs <==> p in paths)
    && (forall i, j :: 0 <= i < j < |xs| ==> xs[i] != xs[j])
  }

  lemma ListsAppend(xs: seq<string>, paths: set<string>, p: string)
    requires Lists(xs, paths) && p !in paths
    ensures Lists(xs + [p], paths + {p})
  {
  }

  ghost function Deleted(d: Disk, cached: map<string, CachedFile>, seen: set<string>): set<string> {
    set p | p in seen && p in cached && !OnDisk(d, p)
  }

  ghost function Modified(d: Disk, cached: map<string, CachedFile>, seen: set<string>): set<string> {
    set p | p in seen && p in cached && OnDisk(d, p) && !SameHash(d, cached, p)
  }

  ghost function Untouched(d: Disk, cached: map<string, CachedFile>, seen: set<string>): set<string> {
    set p | p in seen && p in cached && OnDisk(d, p) && SameHash(d, cached, p)
  }

  /** The lists hold each cached path of `seen` in the right place, once. */
  ghost predicate Classified(d: Disk, cached: map<string, CachedFile>, seen: set<string>, diff: Diff) {
    && Lists(diff.deleted, Deleted(d, cached, seen))
    && Lists(diff.modified, Modified(d, cached, seen))
    && Lists(diff.untouched, Untouched(d, cached, seen))
  }

  /** The four lists partition the cached and the current paths: each path is in exactly one, once. */
  ghost predicate IsDiff(d: Disk, cached: map<string, CachedFile>, diff: Diff) {
    && Classified(d, cached, cached.Keys, diff)
    && (forall p :: p in diff.added <==> p !in cached && OnDisk(d, p))
    && (forall i, j :: 0 <= i < j < |diff.added| ==> diff.added[i] != diff.added[j])
  }

  lemma PartitionExact(d: Disk, cached: map<string, CachedFile>, diff: Diff, p: string)
    requires IsDiff(d, cached, diff)
    ensures p in diff.deleted <==> p in cached && !OnDisk(d, p)
    ensures p in diff.modified <==> p in cached && OnDisk(d, p) && !SameHash(d, cached, p)
    ensures p in diff.untouched <==> p in cached && OnDisk(d, p) && SameHash(d, cached, p)
    ensures p in diff.added <==> p !in cached && OnDisk(d, p)
  {
  }

  method DetectChanges(context: ProjectContext, d: Disk) returns (diff: Diff)
    ensures IsDiff(d, context.files, diff)
  {
    var table := new HashTable();
    ScanForChanges(d, d.root, table);
    diff := CompareCached(context.files, d, table.files);
    var added := Additions(table.files, context.files.Keys);
    diff := diff.(added := added);
  }

  /** The diff with cached path `p` put in its place. */
  function Classify(diff: Diff, cached: CachedFile, hashes: map<string, Light>, p: string): Diff {
    if p !in hashes then diff.(deleted := diff.deleted + [p])
    else if hashes[p].hash != cached.hash then diff.(modified := diff.modified + [p])
    else diff.(untouched := diff.untouched + [p])
  }

  lemma ClassifyNext(d: Disk, cached: map<string, CachedFile>, hashes: map<string, Light>, seen: set<string>,
                     diff: Diff, p: string)
    requires FreshHashes(d, hashes) && Classified(d, cached, seen, diff) && p in cached && p !in seen
    ensures Classified(d, cached, seen + {p}, Classify(diff, cached[p], hashes, p))
  {
    var more := seen + {p};
    assert p in hashes <==> OnDisk(d, p);
    assert p in hashes ==> hashes[p].hash == d.Hash(d.Full(p));
    assert Deleted(d, cached, more) == Deleted(d, cached, seen) + if p !in hashes then {p} else {};
    assert Modified(d, cached, more) ==
           Modified(d, cached, seen) + if p in hashes && hashes[p].hash != cached[p].hash then {p} else {};
    assert Untouched(d, cached, more) ==
           Untouched(d, cached, seen) + if p in hashes && hashes[p].hash == cached[p].hash then {p} else {};
    if p !in hashes {
      ListsAppend(diff.deleted, Deleted(d, cached, seen), p);
    } else if hashes[p].hash != cached[p].hash {
      ListsAppend(diff.modified, Modified(d, cached, seen), p);
    } else {
      ListsAppend(diff.untouched, Untouched(d, cached, seen), p);
    }
  }

  /** Compares every cached path with the current hashes. */
  method CompareCached(cached: map<string, CachedFile>, d: Disk, hashes: map<string, Light>) returns (diff: Diff)
    requires FreshHashes(d, hashes)
    ensures Classified(d, cached, cached.Keys, diff)
  {
    diff := Diff([], [], [], []);
    var left := cached.Keys;
    ghost var seen := {};
    while left != {}
      invariant seen + left == cached.Keys && seen !! left
      invariant Classified(d, cached, seen, diff)
      decreases |left|
    {
      var p :| p in left;
      ClassifyNext(d, cached, hashes, seen, diff, p);
      diff := Classify(diff, cached[p], hashes, p);
      left, seen := left - {p}, seen + {p};
    }
    assert seen == cached.Keys;
  }

  /** The current paths that remain when every cached path has been taken out. */
  method Additions(hashes: map<string, Light>, cached: set<string>) returns (added: seq<string>)
    ensures Lists(added, hashes.Keys - cached)
  {
    added := [];
    var left := hashes.Keys - cached;
    ghost var seen := {};
    while left != {}
      invariant seen + left == hashes.Keys - cached && seen !! left
      invariant Lists(added, seen)
      decreases |left|
    {
      var p :| p in left;
      ListsAppend(added, seen, p);
      added := added + [p];
      left, seen := left - {p}, seen + {p};
    }
    assert seen == hashes.Keys - cached;
  }

  // ---- Applying the diff ----

  predicate Readable(d: Disk, p: string) {
    d.Full(p) in d.stats && d.Full(p) in d.contents
  }

  /** Deleted paths removed, then each path of `reread` that can be read set to its record. */
  ghost predicate Patched(d: Disk, deleted: seq<string>, reread: seq<string>, was: map<string, CachedFile>,
                          now: map<string, CachedFile>) {
    && (forall p :: p in now <==> (p in reread && Readable(d, p)) || (p in was && p !in deleted))
    && (forall p :: p in now ==> now[p] == if p in reread && Readable(d, p) then Record(d, p) else was[p])
  }

  method RemoveAll(files: map<string, CachedFile>, paths: seq<string>) returns (r: map<string, CachedFile>)
    ensures forall p :: p in r <==> p in files && p !in paths
    ensures forall p :: p in r ==> r[p] == files[p]
  {
    r := files;
    for i := 0 to |paths|
      invariant forall p :: p in r <==> p in files && p !in paths[..i]
      invariant forall p :: p in r ==> r[p] == files[p]
    {
      r := r - {paths[i]};
      assert paths[..i + 1] == paths[..i] + [paths[i]];
    }
    assert paths[..|paths|] == paths;
  }

  method RereadAll(files: map<string, CachedFile>, d: Disk, paths: seq<string>) returns (r: map<string, CachedFile>)
    ensures forall p :: p in r <==> p in files || (p in paths && Readable(d, p))
    ensures forall p :: p in r ==> r[p] == if p in paths && Readable(d, p) then Record(d, p) else files[p]
  {
    r := files;
    for i := 0 to |paths|
      invariant forall p :: p in r <==> p in files || (p in paths[..i] && Readable(d, p))
      invariant forall p :: p in r ==> r[p] == if p in paths[..i] && Readable(d, p) then Record(d, p) else files[p]
    {
      var p := paths[i];
      var full := d.Full(p);
      assert paths[..i + 1] == paths[..i] + [p];
      if full in d.stats && full in d.contents {
        var content := d.contents[full];
        r := r[p := CachedFile(full, p, d.hash(content), content, d.stats[full].size, d.stats[full].mtime)];
      }
    }
    assert paths[..|paths|] == paths;
  }

  method ApplyDiff(context: ProjectContext, d: Disk, diff: Diff, now: nat)
    modifies context
    ensures Patched(d, diff.deleted, diff.modified + diff.added, old(context.files), context.files)
    ensures context.Tallied() && context.lastUpdated == now && context.fileTree == old(context.fileTree)
  {
    var kept := RemoveAll(context.files, diff.deleted);
    var files := RereadAll(kept, d, diff.modified + diff.added);
    context.files := files;
    context.totalSize := ComputeSize(files);
    context.totalFiles := |files|;
    context.lastUpdated := now;
  }

  // ---- Refresh equals rebuild ----

  /** What a refresh leaves: the paths of a fresh build, each with its cached file if the hash is unchanged and
      with a fresh one otherwise. */
  ghost predicate Refreshed(d: Disk, was: map<string, CachedFile>, now: map<string, CachedFile>) {
    && (forall p :: p in now <==> OnDisk(d, p))
    && (forall p :: p in now ==> now[p] == if p in was && SameHash(d, was, p) then was[p] else Record(d, p))
  }

  lemma {:induction false} FoundIsReadable(d: Disk, dir: string, full: string)
    requires Found(d, dir, full)
    ensures full in d.stats && full in d.contents
    decreases Depth(d, dir)
  {
    var i :| 0 <= i < |d.listing[dir]| && FoundBy(d, dir, d.listing[dir][i], full);
    var entry := d.listing[dir][i];
    if entry.Directory? {
      Deeper(d, dir, entry.name);
      FoundIsReadable(d, Join(dir, entry.name), full);
    }
  }

  /** A fresh build has a record of exactly the files that a chain of entries leads to, and it is what can be read of
      them. */
  lemma FreshMatchesDisk(d: Disk, files: map<string, CachedFile>, p: string)
    requires Fresh(d, files)
    ensures p in files <==> exists chain :: Leads(d, d.root, chain, d.root + "/" + p)
    ensures var full := d.root + "/" + p;
            p in files ==>
              && full in d.contents && full in d.stats
              && files[p] == CachedFile(full, p, d.hash(d.contents[full]), d.contents[full],
                                        d.stats[full].size, d.stats[full].mtime)
  {
    var full := d.root + "/" + p;
    assert d.Full(p) == full;
    FoundIff(d, d.root, full);
    if p in files {
      FoundIsReadable(d, d.root, full);
    }
  }

  lemma PatchRefreshes(d: Disk, was: map<string, CachedFile>, diff: Diff, now: map<string, CachedFile>)
    requires IsDiff(d, was, diff) && Patched(d, diff.deleted, diff.modified + diff.added, was, now)
    ensures Refreshed(d, was, now)
  {
    forall p | OnDisk(d, p) ensures Readable(d, p) {
      FoundIsReadable(d, d.root, d.Full(p));
    }
    forall p ensures p in diff.modified + diff.added <==> OnDisk(d, p) && !(p in was && SameHash(d, was, p)) {
      PartitionExact(d, was, diff, p);
    }
    forall p ensures p in diff.deleted <==> p in was && !OnDisk(d, p) {
      PartitionExact(d, was, diff, p);
    }
  }

  lemma NoChangeRefreshes(d: Disk, was: map<string, CachedFile>, diff: Diff)
    requires IsDiff(d, was, diff) && diff.added == [] && diff.modified == [] && diff.deleted == []
    ensures Refreshed(d, was, was)
  {
    forall p ensures p in was <==> OnDisk(d, p) {
      PartitionExact(d, was, diff, p);
    }
    forall p | p in was ensures SameHash(d, was, p) {
      PartitionExact(d, was, diff, p);
    }
  }

  /** The background refresh after a cache hit. The file tree is left as it is, and the context is younger afterwards
      only if something changed. */
  method RefreshContext(context: ProjectContext, d: Disk, now: nat)
    requires context.Tallied()
    modifies context
    ensures Refreshed(d, old(context.files), context.files) && context.Tallied()
    ensures context.fileTree == old(context.fileTree)
    ensures context.lastUpdated == if NothingChanged(d, old(context.files)) then old(context.lastUpdated) else now
  {
    var diff := DetectChanges(context, d);
    NoDiffIff(d, context.files, diff);
    if |diff.added| > 0 || |diff.modified| > 0 || |diff.deleted| > 0 {
      ApplyDiff(context, d, diff, now);
      PatchRefreshes(d, old(context.files), diff, context.files);
    } else {
      NoChangeRefreshes(d, context.files, diff);
    }
  }

  // ---- The file tree ----

  /** The file leaves of the tree are exactly the cached files, with their sizes and hashes. */
  ghost predicate TreeShows(tree: seq<Node>, files: map<string, CachedFile>) {
    forall p, size, hash :: Leaf(tree, p, size, hash) <==> p in files && size == files[p].size && hash == files[p].hash
  }

  lemma BuiltTreeShows(d: Disk, tree: seq<Node>, files: map<string, CachedFile>)
    requires Fresh(d, files) && LeavesAre(d, tree, Files(d, d.root))
    ensures TreeShows(tree, files)
  {
    forall p, size, hash
      ensures Leaf(tree, p, size, hash) <==> p in files && size == files[p].size && hash == files[p].hash
    {
      assert p in files ==> files[p] == Record(d, p);
    }
  }

  /** The disk has the cached paths, with the cached hashes. */
  ghost predicate NothingChanged(d: Disk, was: map<string, CachedFile>) {
    (forall p :: p in was <==> OnDisk(d, p)) && forall p :: p in was ==> SameHash(d, was, p)
  }

  /** After a refresh the tree still shows the cached files if and only if nothing had changed. */
  lemma RefreshKeepsTreeIff(d: Disk, tree: seq<Node>, was: map<string, CachedFile>, now: map<string, CachedFile>)
    requires TreeShows(tree, was) && Refreshed(d, was, now)
    ensures TreeShows(tree, now) <==> NothingChanged(d, was)
  {
    if NothingChanged(d, was) {
      assert now == was;
    }
    if TreeShows(tree, now) {
      forall p ensures (p in was <==> OnDisk(d, p)) && (p in was ==> SameHash(d, was, p)) {
        ShownAt(tree, was, now, p);
      }
    }
  }

  lemma ShownAt(tree: seq<Node>, a: map<string, CachedFile>, b: map<string, CachedFile>, p: string)
    requires TreeShows(tree, a) && TreeShows(tree, b)
    ensures (p in a <==> p in b) && (p in a && p in b ==> a[p].hash == b[p].hash)
  {
    if p in a {
      assert Leaf(tree, p, a[p].size, a[p].hash);
    }
    if p in b {
      assert Leaf(tree, p, b[p].size, b[p].hash);
    }
  }

  /** A refresh finds no change exactly if nothing changed. */
  lemma NoDiffIff(d: Disk, was: map<string, CachedFile>, diff: Diff)
    requires IsDiff(d, was, diff)
    ensures diff.added == [] && diff.modified == [] && diff.deleted == [] <==> NothingChanged(d, was)
  {
    if diff.added == [] && diff.modified == [] && diff.deleted == [] {
      forall p ensures (p in was <==> OnDisk(d, p)) && (p in was ==> SameHash(d, was, p)) {
        PartitionExact(d, was, diff, p);
      }
    }
    if NothingChanged(d, was) {
      forall p ensures p !in diff.added && p !in diff.modified && p !in diff.deleted {
        PartitionExact(d, was, diff, p);
      }
      FirstIsMember(diff.added);
      FirstIsMember(diff.modified);
      FirstIsMember(diff.deleted);
    }
  }

  lemma FirstIsMember(xs: seq<string>)
    ensures xs == [] || xs[0] in xs
  {
  }

  /** A refresh always leaves exactly the paths and hashes of a fresh build, hence its number of files. */
  lemma RefreshHasFreshHashes(d: Disk, was: map<string, CachedFile>, now: map<string, CachedFile>,
                              built: map<string, CachedFile>)
    requires Refreshed(d, was, now) && Fresh(d, built)
    ensures now.Keys == built.Keys && |now| == |built|
    ensures forall p :: p in now ==> now[p].hash == built[p].hash
  {
    forall p ensures p in now.Keys <==> p in built.Keys {
    }
    assert now.Keys == built.Keys;
    assert |now| == |now.Keys| && |built| == |built.Keys|;
  }

  /** The cached files whose hash still matches have the content and size of the disk: no hash collision, and no two
      byte sequences that decode to the same text. */
  ghost predicate Faithful(d: Disk, was: map<string, CachedFile>) {
    forall p :: p in was && OnDisk(d, p) && SameHash(d, was, p) ==>
      was[p].content == d.Content(d.Full(p)) && was[p].size == d.Size(d.Full(p))
  }

  ghost predicate SameFiles(a: map<string, CachedFile>, b: map<string, CachedFile>) {
    a.Keys == b.Keys &&
    forall p :: p in a ==> a[p].hash == b[p].hash && a[p].content == b[p].content && a[p].size == b[p].size
  }

  lemma FaithfulRefresh(d: Disk, was: map<string, CachedFile>, now: map<string, CachedFile>,
                        built: map<string, CachedFile>)
    requires Refreshed(d, was, now) && Fresh(d, built)
    ensures SameFiles(now, built) <==> Faithful(d, was)
  {
    RefreshHasFreshHashes(d, was, now, built);
    forall p | p in now ensures built[p] == Record(d, p) {
    }
    if SameFiles(now, built) {
      forall p | p in was && OnDisk(d, p) && SameHash(d, was, p)
        ensures was[p].content == d.Content(d.Full(p)) && was[p].size == d.Size(d.Full(p))
      {
        assert p in now && now[p] == was[p];
      }
    }
  }

  /** A refresh equals a rebuild, in paths, hashes, contents and sizes, if and only if the cached files whose hash
      matches are faithful; then the totals are equal too. */
  lemma RefreshEqualsRebuildIff(d: Disk, was: map<string, CachedFile>, now: map<string, CachedFile>,
                                built: map<string, CachedFile>)
    requires Refreshed(d, was, now) && Fresh(d, built)
    ensures SameFiles(now, built) <==> Faithful(d, was)
    ensures SameFiles(now, built) ==> SumSizes(now) == SumSizes(built) && |now| == |built|
  {
    FaithfulRefresh(d, was, now, built);
    RefreshHasFreshHashes(d, was, now, built);
    if SameFiles(now, built) {
      SumSizesSame(now, built);
    }
  }

  /** A disk with the file `a.ts`, whose bytes decode to the replacement character: of one byte if it is not valid
      UTF-8, of three if it is the encoding of that character. */
  function OneFileDisk(size: nat): Disk {
    Disk("r", map["r" := [File("a.ts")]], map["r/a.ts" := Stat(size, 0)], map["r/a.ts" := "\U{FFFD}"],
         (n, p) => false, n => n == "a.ts", c => c)
  }

  /** What a build of that disk caches. */
  function OneFile(size: nat): map<string, CachedFile> {
    map["a.ts" := Record(OneFileDisk(size), "a.ts")]
  }

  lemma OneFileFound(size: nat, full: string)
    requires size <= MAX_FILE_SIZE_KB * 1024
    ensures Found(OneFileDisk(size), "r", full) <==> full == "r/a.ts"
  {
    var d := OneFileDisk(size);
    assert d.listing["r"][0] == File("a.ts") && Join("r", "a.ts") == "r/a.ts";
    assert FoundBy(d, "r", File("a.ts"), full) <==> full == "r/a.ts";
  }

  lemma OneFileBuilt(size: nat)
    requires size <= MAX_FILE_SIZE_KB * 1024
    ensures Fresh(OneFileDisk(size), OneFile(size)) && SumSizes(OneFile(size)) == size
    ensures forall p :: p in OneFile(size) <==> OnDisk(OneFileDisk(size), p)
  {
    var d, files := OneFileDisk(size), OneFile(size);
    assert d.Full("a.ts") == "r/a.ts";
    forall p ensures p in files <==> OnDisk(d, p) {
      OneFileFound(size, d.Full(p));
      if OnDisk(d, p) {
        FullInjective(d, p, "a.ts");
      }
    }
    SumSizesAt(files, "a.ts");
    assert files - {"a.ts"} == map[];
  }

  lemma OneFileRefreshed(was: nat, now: nat)
    requires was <= MAX_FILE_SIZE_KB * 1024 && now <= MAX_FILE_SIZE_KB * 1024
    ensures Refreshed(OneFileDisk(now), OneFile(was), OneFile(was))
    ensures Faithful(OneFileDisk(now), OneFile(was)) <==> was == now
  {
    OneFileBuilt(now);
    var d, files := OneFileDisk(now), OneFile(was);
    assert forall p :: p in files <==> p in OneFile(now);
    assert "a.ts" in files && OnDisk(d, "a.ts") && d.Full("a.ts") == "r/a.ts" == OneFileDisk(was).Full("a.ts");
    assert SameHash(d, files, "a.ts") && files["a.ts"].size == was && d.Size("r/a.ts") == now;
  }

  /** A file of one invalid byte is cached and then replaced by the three bytes that decode alike: the refresh finds no
      change, and the total it keeps is not that of a rebuild. */
  lemma StaleSizeSurvivesRefresh()
    ensures Fresh(OneFileDisk(1), OneFile(1)) && Fresh(OneFileDisk(3), OneFile(3))
    ensures Refreshed(OneFileDisk(3), OneFile(1), OneFile(1)) && !Faithful(OneFileDisk(3), OneFile(1))
    ensures SumSizes(OneFile(1)) == 1 && SumSizes(OneFile(3)) == 3
  {
    OneFileBuilt(1);
    OneFileBuilt(3);
    OneFileRefreshed(1, 3);
  }

  /** A file that appears after the build is cached by the refresh, and the tree does not show it. */
  lemma TreeMissesNewFile()
    ensures TreeShows([], map[]) && Refreshed(OneFileDisk(1), map[], OneFile(1)) && !TreeShows([], OneFile(1))
  {
    OneFileBuilt(1);
    var file := OneFile(1)["a.ts"];
    assert !Leaf([], "a.ts", file.size, file.hash);
  }
}
