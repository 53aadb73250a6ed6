/** The eviction of the oldest project contexts (src/services/context/ContextCacheService.ts). */
module ContextCache {
  import opened ContextRefresh

  const MAX_SIZE_BYTES := 100 * 1024 * 1024

  /** maxSizeBytes * 0.8 */
  const LOW_WATER_BYTES := 83_886_080

  /** `projectId:taskId` */
  type Key = nat

  /** What eviction looks at. */
  datatype Slot = Slot(key: Key, size: nat, updated: nat)

  function Total(slots: seq<Slot>): nat {
    if slots == [] then 0 else slots[0].size + Total(slots[1..])
  }

  // ---- Oldest first ----

  /** Array.sort by lastUpdated, which is stable. */
  function Insert(x: Slot, sorted: seq<Slot>): seq<Slot> {
    if sorted == [] || x.updated <= sorted[0].updated then [x] + sorted
    else [sorted[0]] + Insert(x, sorted[1..])
  }

  function ByAge(slots: seq<Slot>): seq<Slot> {
    if slots == [] then [] else Insert(slots[0], ByAge(slots[1..]))
  }

  predicate OldestFirst(slots: seq<Slot>) {
    forall i, j :: 0 <= i < j < |slots| ==> slots[i].updated <= slots[j].updated
  }

  predicate DistinctKeys(slots: seq<Slot>) {
    forall i, j :: 0 <= i < j < |slots| ==> slots[i].key != slots[j].key
  }

  lemma {:induction false} InsertExact(x: Slot, sorted: seq<Slot>)
    ensures forall y :: y in Insert(x, sorted) <==> y == x || y in sorted
    ensures |Insert(x, sorted)| == |sorted| + 1
    ensures Total(Insert(x, sorted)) == x.size + Total(sorted)
  {
    if sorted != [] {
      assert sorted == [sorted[0]] + sorted[1..];
      if x.updated > sorted[0].updated {
        InsertExact(x, sorted[1..]);
      }
    }
  }

  lemma PrependSorts(x: Slot, rest: seq<Slot>)
    requires OldestFirst(rest) && forall i :: 0 <= i < |rest| ==> x.updated <= rest[i].updated
    ensures OldestFirst([x] + rest)
  {
  }

  lemma PrependDistinct(x: Slot, rest: seq<Slot>)
    requires DistinctKeys(rest) && forall i :: 0 <= i < |rest| ==> x.key != rest[i].key
    ensures DistinctKeys([x] + rest)
  {
  }

  lemma {:induction false} InsertSorts(x: Slot, sorted: seq<Slot>)
    requires OldestFirst(sorted)
    ensures OldestFirst(Insert(x, sorted))
  {
    if sorted != [] && x.updated > sorted[0].updated {
      var rest := Insert(x, sorted[1..]);
      InsertSorts(x, sorted[1..]);
      InsertExact(x, sorted[1..]);
      forall i | 0 <= i < |rest| ensures sorted[0].updated <= rest[i].updated {
        assert rest[i] == x || rest[i] in sorted[1..];
      }
      PrependSorts(sorted[0], rest);
    } else {
      PrependSorts(x, sorted);
    }
  }

  lemma {:induction false} InsertKeepsDistinct(x: Slot, sorted: seq<Slot>)
    requires DistinctKeys(sorted) && forall y :: y in sorted ==> y.key != x.key
    ensures DistinctKeys(Insert(x, sorted))
  {
    if sorted != [] && x.updated > sorted[0].updated {
      var rest := Insert(x, sorted[1..]);
      InsertKeepsDistinct(x, sorted[1..]);
      InsertExact(x, sorted[1..]);
      forall i | 0 <= i < |rest| ensures sorted[0].key != rest[i].key {
        assert rest[i] == x || rest[i] in sorted[1..];
      }
      PrependDistinct(sorted[0], rest);
    } else {
      PrependDistinct(x, sorted);
    }
  }

  /** Sorting keeps the contexts and puts the oldest first. */
  lemma {:induction false} ByAgeSorts(slots: seq<Slot>)
    requires DistinctKeys(slots)
    ensures OldestFirst(ByAge(slots)) && DistinctKeys(ByAge(slots))
    ensures forall y :: y in ByAge(slots) <==> y in slots
    ensures |ByAge(slots)| == |slots| && Total(ByAge(slots)) == Total(slots)
  {
    if slots != [] {
      ByAgeSorts(slots[1..]);
      InsertExact(slots[0], ByAge(slots[1..]));
      InsertSorts(slots[0], ByAge(slots[1..]));
      InsertKeepsDistinct(slots[0], ByAge(slots[1..]));
      assert slots == [slots[0]] + slots[1..];
    }
  }

  // ---- How much is evicted ----

  /** The number of contexts the eviction loop removes from the front of the sorted list. */
  function Cut(sorted: seq<Slot>): (k: nat)
    ensures k <= |sorted|
  {
    if Total(sorted) <= LOW_WATER_BYTES then 0 else 1 + Cut(sorted[1..])
  }

  /** It is the shortest prefix whose removal brings the total to the low-water mark. */
  lemma {:induction false} CutIsShortest(sorted: seq<Slot>, j: nat)
    requires j <= |sorted|
    ensures Total(sorted[Cut(sorted)..]) <= LOW_WATER_BYTES
    ensures j < Cut(sorted) ==> Total(sorted[j..]) > LOW_WATER_BYTES
  {
    assert sorted[0..] == sorted;
    if Total(sorted) > LOW_WATER_BYTES {
      var rest := sorted[1..];
      CutIsShortest(rest, if j == 0 then 0 else j - 1);
      assert sorted[Cut(sorted)..] == rest[Cut(rest)..];
      assert j > 0 ==> sorted[j..] == rest[j - 1..];
    }
  }

  function Evicted(slots: seq<Slot>): seq<Slot> {
    if Total(slots) <= MAX_SIZE_BYTES then [] else ByAge(slots)[..Cut(ByAge(slots))]
  }

  /** Something goes exactly when there is more than 100 MB. */
  lemma EvictsIff(slots: seq<Slot>)
    requires DistinctKeys(slots)
    ensures Evicted(slots) != [] <==> Total(slots) > 104_857_600
  {
    ByAgeSorts(slots);
    assert Total(slots) > LOW_WATER_BYTES ==> Cut(ByAge(slots)) > 0;
  }

  function Without(slots: seq<Slot>, key: Key): seq<Slot> {
    if slots == [] then []
    else (if slots[0].key == key then [] else [slots[0]]) + Without(slots[1..], key)
  }

  lemma {:induction false} WithoutExact(slots: seq<Slot>, key: Key, x: Slot)
    ensures x in Without(slots, key) <==> x in slots && x.key != key
  {
    if slots != [] {
      WithoutExact(slots[1..], key, x);
      assert slots == [slots[0]] + slots[1..];
    }
  }

  /** Every context that is kept is at least as recent as every context that is evicted. */
  lemma KeptAreNewer(slots: seq<Slot>, x: Slot, y: Slot)
    requires DistinctKeys(slots) && x in slots && x !in Evicted(slots) && y in Evicted(slots)
    ensures y.updated <= x.updated
  {
    var sorted := ByAge(slots);
    var k := Cut(sorted);
    ByAgeSorts(slots);
    assert forall m :: 0 <= m < k ==> sorted[..k][m] == sorted[m];
    var i :| 0 <= i < |sorted| && sorted[i] == x;
    var j :| 0 <= j < k && sorted[..k][j] == y;
    assert sorted[j] == y;
  }

  /** The strictly newest context comes last. */
  lemma NewestIsLast(slots: seq<Slot>, x: Slot)
    requires DistinctKeys(slots) && x in slots && forall y :: y in slots && y != x ==> y.updated < x.updated
    ensures ByAge(slots)[|ByAge(slots)| - 1] == x
  {
    var sorted := ByAge(slots);
    ByAgeSorts(slots);
    var i :| 0 <= i < |sorted| && sorted[i] == x;
    assert sorted[|sorted| - 1] in slots;
  }

  /** The last of distinct contexts is in a prefix exactly when the prefix is the whole list. */
  lemma LastInPrefix(sorted: seq<Slot>, k: nat)
    requires sorted != [] && DistinctKeys(sorted) && k <= |sorted|
    ensures sorted[|sorted| - 1] in sorted[..k] <==> k == |sorted|
  {
    var x := sorted[|sorted| - 1];
    if x in sorted[..k] {
      var j :| 0 <= j < k && sorted[..k][j] == x;
      assert sorted[j].key == x.key;
    }
    assert k == |sorted| ==> sorted[..k][k - 1] == x;
  }

  /** The eviction loop removes everything exactly when the last context alone exceeds the low-water mark. */
  lemma CutsAllIff(sorted: seq<Slot>)
    requires sorted != []
    ensures Cut(sorted) == |sorted| <==> sorted[|sorted| - 1].size > LOW_WATER_BYTES
  {
    var n := |sorted|;
    assert sorted[n - 1..] == [sorted[n - 1]] && Total([sorted[n - 1]]) == sorted[n - 1].size;
    CutIsShortest(sorted, n - 1);
    if Cut(sorted) < n {
      CutLastFits(sorted, Cut(sorted));
    }
  }

  /** When eviction runs, the strictly newest context, which is the one just built, survives if and only if it fits
      under the low-water mark on its own. */
  lemma NewestSurvivesIff(slots: seq<Slot>, x: Slot)
    requires DistinctKeys(slots) && x in slots && forall y :: y in slots && y != x ==> y.updated < x.updated
    ensures x in Evicted(slots) <==> Total(slots) > MAX_SIZE_BYTES && x.size > LOW_WATER_BYTES
  {
    ByAgeSorts(slots);
    NewestIsLast(slots, x);
    LastInPrefix(ByAge(slots), Cut(ByAge(slots)));
    CutsAllIff(ByAge(slots));
  }

  /** A context of 90 MB is evicted as soon as it is built beside one of 20 MB. */
  lemma NewestCanBeEvicted()
    ensures var newest := Slot(1, 90_000_000, 2); newest in Evicted([Slot(0, 20_000_000, 1), newest])
  {
    var slots := [Slot(0, 20_000_000, 1), Slot(1, 90_000_000, 2)];
    assert slots[1..][1..] == [] && Total(slots) == 110_000_000;
    NewestSurvivesIff(slots, slots[1]);
  }

  /** The last context alone is no more than any suffix. */
  lemma {:induction false} CutLastFits(sorted: seq<Slot>, k: nat)
    requires k < |sorted|
    ensures sorted[|sorted| - 1].size <= Total(sorted[k..])
    decreases |sorted| - k
  {
    assert sorted[k..][1..] == sorted[k + 1..];
    if k + 1 < |sorted| {
      CutLastFits(sorted, k + 1);
    }
  }

  // ---- What is kept ----

  function WithoutAll(slots: seq<Slot>, gone: seq<Slot>): seq<Slot> {
    if gone == [] then slots else Without(WithoutAll(slots, gone[..|gone| - 1]), gone[|gone| - 1].key)
  }

  ghost predicate Spared(x: Slot, gone: seq<Slot>) {
    forall i :: 0 <= i < |gone| ==> gone[i].key != x.key
  }

  lemma SparedNext(x: Slot, gone: seq<Slot>, last: Slot)
    ensures Spared(x, gone + [last]) <==> Spared(x, gone) && last.key != x.key
  {
    if Spared(x, gone + [last]) {
      forall i | 0 <= i < |gone| ensures gone[i].key != x.key {
        assert (gone + [last])[i] == gone[i];
      }
      assert (gone + [last])[|gone|] == last;
    }
  }

  lemma {:induction false} WithoutAllExact(slots: seq<Slot>, gone: seq<Slot>, x: Slot)
    ensures x in WithoutAll(slots, gone) <==> x in slots && Spared(x, gone)
  {
    if gone != [] {
      var n := |gone| - 1;
      WithoutAllExact(slots, gone[..n], x);
      WithoutExact(WithoutAll(slots, gone[..n]), gone[n].key, x);
      SparedNext(x, gone[..n], gone[n]);
      assert gone == gone[..n] + [gone[n]];
    }
  }

  lemma {:induction false} WithoutDistinct(slots: seq<Slot>, key: Key)
    requires DistinctKeys(slots)
    ensures DistinctKeys(Without(slots, key))
  {
    if slots != [] {
      WithoutDistinct(slots[1..], key);
      var rest := Without(slots[1..], key);
      forall i | 0 <= i < |rest| ensures rest[i].key != slots[0].key {
        WithoutExact(slots[1..], key, rest[i]);
        assert rest[i] in slots[1..];
      }
      PrependDistinct(slots[0], rest);
    }
  }

  lemma {:induction false} TotalWithout(slots: seq<Slot>, x: Slot)
    requires DistinctKeys(slots) && x in slots
    ensures Total(Without(slots, x.key)) == Total(slots) - x.size
  {
    var rest := slots[1..];
    if slots[0] == x {
      WithoutAbsent(rest, x.key);
      assert [] + rest == rest;
    } else {
      assert x in rest;
      TotalWithout(rest, x);
      var i :| 0 <= i < |rest| && rest[i] == x;
      assert slots[i + 1] == x;
      assert ([slots[0]] + Without(rest, x.key))[1..] == Without(rest, x.key);
    }
  }

  lemma {:induction false} WithoutAbsent(slots: seq<Slot>, key: Key)
    requires forall i :: 0 <= i < |slots| ==> slots[i].key != key
    ensures Without(slots, key) == slots
  {
    if slots != [] {
      WithoutAbsent(slots[1..], key);
    }
  }

  /** Removing the first k of the contexts by age leaves the total of the others. */
  lemma {:induction false} RemainingTotal(slots: seq<Slot>, k: nat)
    requires DistinctKeys(slots) && k <= |ByAge(slots)|
    ensures DistinctKeys(WithoutAll(slots, ByAge(slots)[..k]))
    ensures Total(WithoutAll(slots, ByAge(slots)[..k])) == Total(ByAge(slots)[k..])
  {
    var sorted := ByAge(slots);
    ByAgeSorts(slots);
    if k == 0 {
      assert sorted[0..] == sorted;
    } else {
      RemainingTotal(slots, k - 1);
      assert sorted[..k][..k - 1] == sorted[..k - 1] && sorted[k - 1..][1..] == sorted[k..];
      NotYetRemoved(slots, k - 1);
      RemoveOne(WithoutAll(slots, sorted[..k - 1]), sorted[k - 1]);
    }
  }

  lemma RemoveOne(slots: seq<Slot>, x: Slot)
    requires DistinctKeys(slots) && x in slots
    ensures DistinctKeys(Without(slots, x.key)) && Total(Without(slots, x.key)) == Total(slots) - x.size
  {
    WithoutDistinct(slots, x.key);
    TotalWithout(slots, x);
  }

  lemma NotYetRemoved(slots: seq<Slot>, k: nat)
    requires DistinctKeys(slots) && k < |ByAge(slots)|
    ensures ByAge(slots)[k] in WithoutAll(slots, ByAge(slots)[..k])
  {
    var sorted := ByAge(slots);
    ByAgeSorts(slots);
    forall i | 0 <= i < k ensures sorted[..k][i].key != sorted[k].key {
      assert sorted[..k][i] == sorted[i];
    }
    WithoutAllExact(slots, sorted[..k], sorted[k]);
  }

  /** Eviction leaves at most 100 MB, and at most 80 MB if it removes anything. */
  lemma EvictionBounds(slots: seq<Slot>)
    requires DistinctKeys(slots)
    ensures DistinctKeys(WithoutAll(slots, Evicted(slots)))
    ensures Bounded(slots, WithoutAll(slots, Evicted(slots)))
  {
    if Total(slots) > MAX_SIZE_BYTES {
      RemainingTotal(slots, Cut(ByAge(slots)));
      CutIsShortest(ByAge(slots), 0);
    }
  }

  /** Eviction keeps exactly the contexts it does not evict. */
  lemma KeptExactly(slots: seq<Slot>, x: Slot)
    requires DistinctKeys(slots)
    ensures x in WithoutAll(slots, Evicted(slots)) <==> x in slots && x !in Evicted(slots)
  {
    var gone := Evicted(slots);
    ByAgeSorts(slots);
    WithoutAllExact(slots, gone, x);
    forall i | 0 <= i < |gone| ensures gone[i] in slots {
      assert gone[i] == ByAge(slots)[i];
    }
    if x in slots && x !in gone {
      var j :| 0 <= j < |slots| && slots[j] == x;
      forall i | 0 <= i < |gone| ensures gone[i].key != x.key {
        var k :| 0 <= k < |slots| && slots[k] == gone[i];
        assert k != j;
      }
    }
  }

  // ---- The service ----

  datatype Entry = Entry(key: Key, context: ProjectContext)

  ghost function SlotsOf(caches: seq<Entry>): (r: seq<Slot>)
    reads set i | 0 <= i < |caches| :: caches[i].context
    ensures |r| == |caches|
    ensures forall i :: 0 <= i < |caches| ==>
            r[i] == Slot(caches[i].key, caches[i].context.totalSize, caches[i].context.lastUpdated)
  {
    if caches == [] then []
    else
      [Slot(caches[0].key, caches[0].context.totalSize, caches[0].context.lastUpdated)] + SlotsOf(caches[1..])
  }

  function Remove(caches: seq<Entry>, key: Key): seq<Entry> {
    if caches == [] then [] else (if caches[0].key == key then [] else [caches[0]]) + Remove(caches[1..], key)
  }

  lemma {:induction false} RemoveKeeps(caches: seq<Entry>, key: Key)
    ensures forall e :: e in Remove(caches, key) ==> e in caches
  {
    if caches != [] {
      RemoveKeeps(caches[1..], key);
      assert caches == [caches[0]] + caches[1..];
    }
  }

  lemma {:induction false} SlotsOfRemove(caches: seq<Entry>, key: Key)
    ensures SlotsOf(Remove(caches, key)) == Without(SlotsOf(caches), key)
  {
    if caches != [] {
      SlotsOfRemove(caches[1..], key);
      assert SlotsOf(caches)[1..] == SlotsOf(caches[1..]);
      if caches[0].key != key {
        assert Remove(caches, key)[1..] == Remove(caches[1..], key);
      }
    }
  }

  class Cache {
    var caches: seq<Entry>
    var evictions: nat

    constructor ()
      ensures caches == [] && evictions == 0
    {
      caches, evictions := [], 0;
    }

    /** Above 100 MB the oldest contexts go, as few as bring the total to 80 MB; otherwise nothing changes. */
    method EvictIfNeeded()
      requires DistinctKeys(SlotsOf(caches))
      modifies this`caches, this`evictions
      ensures SlotsOf(caches) == WithoutAll(old(SlotsOf(caches)), Evicted(old(SlotsOf(caches))))
      ensures evictions == old(evictions) + |Evicted(old(SlotsOf(caches)))|
      ensures forall e :: e in caches ==> e in old(caches)
      ensures Total(old(SlotsOf(caches))) <= MAX_SIZE_BYTES ==> caches == old(caches) && evictions == old(evictions)
      ensures DistinctKeys(SlotsOf(caches)) && Bounded(old(SlotsOf(caches)), SlotsOf(caches))
    {
      ghost var before := SlotsOf(caches);
      var left, removed := Trim(caches);
      ghost var after := SlotsOf(left);
      assert after == WithoutAll(before, Evicted(before)) && DistinctKeys(after) && Bounded(before, after);
      caches, evictions := left, evictions + removed;
      assert SlotsOf(caches) == after;
    }
  }

  /** At most 100 MB, and at most 80 MB if there was more than 100 MB before. */
  predicate Bounded(before: seq<Slot>, now: seq<Slot>) {
    Total(now) <= if Total(before) > MAX_SIZE_BYTES then LOW_WATER_BYTES else MAX_SIZE_BYTES
  }

  /** The contexts that stay, and how many go. */
  method Trim(entries: seq<Entry>) returns (left: seq<Entry>, removed: nat)
    requires DistinctKeys(SlotsOf(entries))
    ensures SlotsOf(left) == WithoutAll(SlotsOf(entries), Evicted(SlotsOf(entries))) &&
            removed == |Evicted(SlotsOf(entries))|
    ensures forall e :: e in left ==> e in entries
    ensures Total(SlotsOf(entries)) <= MAX_SIZE_BYTES ==> left == entries && removed == 0
    ensures DistinctKeys(SlotsOf(left)) && Bounded(SlotsOf(entries), SlotsOf(left))
  {
    var slots, totalSize := Snapshot(entries);
    EvictionBounds(slots);
    left, removed := entries, 0;
    if totalSize > MAX_SIZE_BYTES {
      left, removed := Shrink(entries, slots, totalSize);
    }
  }

  method Snapshot(entries: seq<Entry>) returns (slots: seq<Slot>, total: nat)
    ensures slots == SlotsOf(entries) && total == Total(slots)
  {
    slots, total := [], 0;
    for i := 0 to |entries|
      invariant |slots| == i && (forall j :: 0 <= j < i ==> slots[j] == SlotsOf(entries)[j]) && total == Total(slots)
    {
      var slot := Slot(entries[i].key, entries[i].context.totalSize, entries[i].context.lastUpdated);
      TotalAppend(slots, slot);
      slots, total := slots + [slot], total + slot.size;
    }
  }

  /** The eviction loop. */
  method Shrink(entries: seq<Entry>, slots: seq<Slot>, total: nat) returns (left: seq<Entry>, removed: nat)
    requires slots == SlotsOf(entries) && DistinctKeys(slots) && total == Total(slots)
    ensures removed == Cut(ByAge(slots)) && SlotsOf(left) == WithoutAll(slots, ByAge(slots)[..removed])
    ensures forall e :: e in left ==> e in entries
  {
    var sorted := ByAge(slots);
    var totalSize := total;
    ByAgeSorts(slots);
    assert sorted[0..] == sorted;
    left, removed := entries, 0;
    while totalSize > LOW_WATER_BYTES && removed < |sorted|
      invariant removed <= Cut(sorted) && totalSize == Total(sorted[removed..])
      invariant SlotsOf(left) == WithoutAll(slots, sorted[..removed])
      invariant forall e :: e in left ==> e in entries
    {
      CutIsShortest(sorted, removed);
      SlotsOfRemove(left, sorted[removed].key);
      RemoveKeeps(left, sorted[removed].key);
      assert sorted[removed..][1..] == sorted[removed + 1..];
      assert sorted[..removed + 1][..removed] == sorted[..removed];
      totalSize := totalSize - sorted[removed].size;
      left := Remove(left, sorted[removed].key);
      removed := removed + 1;
    }
    CutIsShortest(sorted, removed);
  }

  lemma {:induction false} TotalAppend(slots: seq<Slot>, x: Slot)
    ensures Total(slots + [x]) == Total(slots) + x.size
  {
    if slots != [] {
      assert (slots + [x])[1..] == slots[1..] + [x];
      TotalAppend(slots[1..], x);
    }
  }
}
