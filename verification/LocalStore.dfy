/** The chunk directory, its size, and least-recently-used eviction under a quota. */
module LocalStore {
  import opened Primitives
  import opened Sorting

  /** `chunk_<hash>.bin`, or any other file: the database, resume files, merged output. */
  datatype FileName = ChunkFile(hash: string) | OtherFile(name: string)

  datatype File = File(name: FileName, data: Bytes, atime: int)

  ghost predicate DistinctNames(files: seq<File>) {
    forall i, j :: 0 <= i < j < |files| ==> files[i].name != files[j].name
  }

  function Lookup(files: seq<File>, name: FileName): Option<File> {
    if files == [] then None
    else if files[0].name == name then Some(files[0])
    else Lookup(files[1..], name)
  }

  function TotalSize(files: seq<File>): nat {
    if files == [] then 0 else |files[0].data| + TotalSize(files[1..])
  }

  function ByAccess(): (File, File) -> bool {
    (a: File, b: File) => a.atime <= b.atime
  }

  function IsChunk(): File -> bool {
    (f: File) => f.name.ChunkFile?
  }

  /** Files that the file system lets us remove. */
  function Removable(locked: FileName -> bool): File -> bool {
    (f: File) => !locked(f.name)
  }

  function Named(name: FileName): File -> bool {
    (f: File) => f.name == name
  }

  /** The chunk files, least recently accessed first. */
  function AccessOrder(files: seq<File>): seq<File> {
    Sort(ByAccess(), Filter(IsChunk(), files))
  }

  /** The chunk files that an eviction can remove, in the order it meets them. */
  function Candidates(files: seq<File>, locked: FileName -> bool): seq<File> {
    Filter(Removable(locked), AccessOrder(files))
  }

  /** What the eviction loop removes on its way through `order`. */
  function Evicted(order: seq<File>, locked: FileName -> bool, target: int): seq<File> {
    if order == [] || target <= 0 then []
    else if locked(order[0].name) then Evicted(order[1..], locked, target)
    else [order[0]] + Evicted(order[1..], locked, target - |order[0].data|)
  }

  function Remaining(files: seq<File>, locked: FileName -> bool, target: int): seq<File> {
    Filter(NotIn(Evicted(AccessOrder(files), locked, target)), files)
  }

  /** `int(used - max * 0.90)`. */
  function EvictionTarget(used: nat, max: nat): int {
    (used as real - max as real * 0.9).Floor
  }

  class LocalStore {
    var files: seq<File>

    ghost predicate Valid()
      reads this
    {
      DistinctNames(files)
    }

    constructor ()
      ensures Valid() && files == []
    {
      files := [];
    }

    method SaveChunk(hash: string, data: Bytes, atime: int)
      requires Valid()
      modifies this
      ensures Valid()
      ensures Lookup(files, ChunkFile(hash)) == Some(File(ChunkFile(hash), data, atime))
      ensures forall n :: n != ChunkFile(hash) ==> Lookup(files, n) == Lookup(old(files), n)
    {
      UnlinkKeepsOthers(files, ChunkFile(hash));
      Unlink(ChunkFile(hash));
      WriteNew(files, File(ChunkFile(hash), data, atime));
      files := files + [File(ChunkFile(hash), data, atime)];
    }

    /** `atime` is the access time the file system leaves behind after the read. */
    method LoadChunk(hash: string, atime: int) returns (data: Option<Bytes>)
      requires Valid()
      modifies this
      ensures Valid()
      ensures data.Some? <==> Lookup(old(files), ChunkFile(hash)).Some?
      ensures data.None? ==> files == old(files)
      ensures data.Some? ==> data.value == Lookup(old(files), ChunkFile(hash)).value.data &&
                             Lookup(files, ChunkFile(hash)) == Some(File(ChunkFile(hash), data.value, atime))
      ensures forall n :: n != ChunkFile(hash) ==> Lookup(files, n) == Lookup(old(files), n)
    {
      var found := Lookup(files, ChunkFile(hash));
      if found == None {
        return None;
      }
      data := Some(found.value.data);
      SaveChunk(hash, found.value.data, atime);
    }

    method HasChunk(hash: string) returns (held: bool)
      requires Valid()
      ensures held <==> exists f :: f in files && f.name == ChunkFile(hash)
    {
      LookupFinds(files, ChunkFile(hash));
      held := Lookup(files, ChunkFile(hash)).Some?;
    }

    method DeleteChunk(hash: string) returns (deleted: bool)
      requires Valid()
      modifies this
      ensures Valid()
      ensures deleted <==> Lookup(old(files), ChunkFile(hash)).Some?
      ensures Lookup(files, ChunkFile(hash)) == None
      ensures forall n :: n != ChunkFile(hash) ==> Lookup(files, n) == Lookup(old(files), n)
    {
      deleted := Lookup(files, ChunkFile(hash)).Some?;
      UnlinkKeepsOthers(files, ChunkFile(hash));
      if deleted {
        Unlink(ChunkFile(hash));
      }
    }

    method Unlink(name: FileName)
      modifies this
      ensures files == Filter(Not(Named(name)), old(files))
    {
      files := Filter(Not(Named(name)), files);
    }

    method GetStorageSize() returns (total: nat)
      ensures total == TotalSize(files)
    {
      total := 0;
      for i := 0 to |files|
        invariant total + TotalSize(files[i..]) == TotalSize(files)
      {
        total := total + |files[i].data|;
      }
    }

    method EvictOldestChunks(target: int, locked: FileName -> bool) returns (freed: nat)
      requires Valid()
      modifies this
      ensures Valid()
      ensures files == Remaining(old(files), locked, target)
      ensures freed == TotalSize(Evicted(AccessOrder(old(files)), locked, target))
    {
      var chunks := AccessOrder(files);
      ghost var before, gone: seq<File> := files, [];
      SweepStarts(files, locked, target);
      freed := 0;
      var i := 0;
      while i < |chunks| && freed < target
        invariant 0 <= i <= |chunks|
        invariant Sweeping(before, files, locked, target, i, gone, freed)
      {
        freed, gone := EvictNext(chunks[i], locked, target, freed, before, i, gone);
        i := i + 1;
      }
      SweepEnds(before, files, locked, target, i, gone, freed);
    }

    /** One chunk file of the sweep; one that cannot be unlinked is skipped. */
    method EvictNext(f: File, locked: FileName -> bool, target: int, freed: nat, ghost before: seq<File>, ghost i: nat,
                     ghost gone: seq<File>)
      returns (total: nat, ghost removed: seq<File>)
      requires Sweeping(before, files, locked, target, i, gone, freed) && DistinctNames(before)
      requires i < |AccessOrder(before)| && f == AccessOrder(before)[i] && freed < target
      modifies this
      ensures Sweeping(before, files, locked, target, i + 1, removed, total)
    {
      if locked(f.name) {
        SweepSkips(before, files, locked, target, i, gone, freed);
        return freed, gone;
      }
      SweepRemoves(before, files, locked, target, i, gone, freed);
      Unlink(f.name);
      return freed + |f.data|, gone + [f];
    }

    /** One round of the storage monitor. */
    method EnforceQuota(maxStorageMb: nat, locked: FileName -> bool) returns (freed: nat)
      requires Valid()
      modifies this
      ensures Valid()
      ensures var max := maxStorageMb * 1024 * 1024;
              var used := TotalSize(old(files));
              files == (if used > max then Remaining(old(files), locked, EvictionTarget(used, max)) else old(files))
      ensures freed + TotalSize(files) == TotalSize(old(files))
    {
      var max := maxStorageMb * 1024 * 1024;
      var used := GetStorageSize();
      freed := 0;
      if used > max {
        EvictionConserves(files, locked, EvictionTarget(used, max));
        freed := EvictOldestChunks(EvictionTarget(used, max), locked);
      }
    }
  }

  // ---- The directory as a map ----

  lemma {:induction false} LookupFinds(files: seq<File>, name: FileName)
    ensures Lookup(files, name).Some? <==> exists f :: f in files && f.name == name
  {
    if files != [] {
      LookupFinds(files[1..], name);
    }
  }

  lemma {:induction false} UnlinkKeepsOthers(files: seq<File>, name: FileName)
    ensures var rest := Filter(Not(Named(name)), files);
            && Lookup(rest, name) == None
            && (forall n :: n != name ==> Lookup(rest, n) == Lookup(files, n))
            && (DistinctNames(files) ==> DistinctNames(rest))
  {
    if files != [] {
      UnlinkKeepsOthers(files[1..], name);
      if DistinctNames(files) {
        NamesSurviveFilter(Not(Named(name)), files);
      }
    }
  }

  lemma {:induction false} NamesSurviveFilter(keep: File -> bool, files: seq<File>)
    requires DistinctNames(files)
    ensures DistinctNames(Filter(keep, files))
  {
    if files != [] {
      var rest := Filter(keep, files[1..]);
      NamesSurviveFilter(keep, files[1..]);
      FilterMembers(keep, files[1..]);
      forall j | 0 <= j < |rest|
        ensures rest[j].name != files[0].name
      {
        assert rest[j] in files[1..];
      }
    }
  }

  lemma {:induction false} WriteNew(files: seq<File>, f: File)
    requires Lookup(files, f.name) == None && DistinctNames(files)
    ensures DistinctNames(files + [f])
    ensures Lookup(files + [f], f.name) == Some(f)
    ensures forall n :: n != f.name ==> Lookup(files + [f], n) == Lookup(files, n)
  {
    if files != [] {
      assert (files + [f])[1..] == files[1..] + [f];
      WriteNew(files[1..], f);
      LookupFinds(files, f.name);
      assert forall i :: 0 <= i < |files| ==> files[i] in files;
    }
  }

  // ---- Eviction ----

  /** A directory's size is the number of bytes in it, file by file. */
  lemma SizesAddUp(a: seq<File>, f: File, b: seq<File>)
    ensures TotalSize([]) == 0 && TotalSize(a + ([f] + b)) == TotalSize(a) + |f.data| + TotalSize(b)
  {
    SizeOfConcat(a, [f] + b);
    assert ([f] + b)[1..] == b;
  }

  lemma {:induction false} SizeOfConcat(a: seq<File>, b: seq<File>)
    ensures TotalSize(a + b) == TotalSize(a) + TotalSize(b)
  {
    if a == [] {
      assert a + b == b;
    } else {
      assert (a + b)[1..] == a[1..] + b;
      SizeOfConcat(a[1..], b);
    }
  }

  lemma NamesTellFilesApart(files: seq<File>)
    requires DistinctNames(files)
    ensures NoDup(files)
    ensures forall f, g :: f in files && g in files && f.name == g.name ==> f == g
  {
  }

  lemma OrderFacts(files: seq<File>)
    requires DistinctNames(files)
    ensures NoDup(AccessOrder(files)) && SortedBy(ByAccess(), AccessOrder(files))
    ensures forall f :: f in AccessOrder(files) <==> f in files && f.name.ChunkFile?
  {
    NamesTellFilesApart(files);
    FilterMembers(IsChunk(), files);
    var chunks := Filter(IsChunk(), files);
    SortKeepsNoDup(ByAccess(), chunks);
    SortSorts(ByAccess(), chunks);
    forall f
      ensures f in AccessOrder(files) <==> f in files && f.name.ChunkFile?
    {
      SortMember(ByAccess(), chunks, f);
    }
  }

  /** The loop has visited i files, removed `gone` and counted `freed` bytes. */
  ghost predicate Swept(order: seq<File>, locked: FileName -> bool, target: int, i: nat, gone: seq<File>, freed: int) {
    var swept :=
      && i <= |order|
      && Evicted(order, locked, target) == gone + Evicted(order[i..], locked, target - freed)
      && freed == TotalSize(gone);
    swept
  }

  ghost predicate Sweeping(before: seq<File>, files: seq<File>, locked: FileName -> bool, target: int, i: nat,
                           gone: seq<File>, freed: int)
  {
    var sweeping := files == Filter(NotIn(gone), before) && Swept(AccessOrder(before), locked, target, i, gone, freed);
    sweeping
  }

  lemma SweepStarts(files: seq<File>, locked: FileName -> bool, target: int)
    ensures Sweeping(files, files, locked, target, 0, [], 0)
  {
    var order := AccessOrder(files);
    FilterKeepsAll(NotIn([]), files);
    assert order[0..] == order;
    assert [] + Evicted(order, locked, target - 0) == Evicted(order, locked, target);
  }

  lemma SweepSkips(before: seq<File>, files: seq<File>, locked: FileName -> bool, target: int, i: nat,
                   gone: seq<File>, freed: int)
    requires Sweeping(before, files, locked, target, i, gone, freed) && i < |AccessOrder(before)| && freed < target
    requires locked(AccessOrder(before)[i].name)
    ensures Sweeping(before, files, locked, target, i + 1, gone, freed)
  {
    var order := AccessOrder(before);
    assert order[i..][1..] == order[i + 1..];
  }

  lemma SweepRemoves(before: seq<File>, files: seq<File>, locked: FileName -> bool, target: int, i: nat,
                     gone: seq<File>, freed: int)
    requires Sweeping(before, files, locked, target, i, gone, freed) && i < |AccessOrder(before)| && freed < target
    requires !locked(AccessOrder(before)[i].name) && DistinctNames(before)
    ensures var f := AccessOrder(before)[i];
            Sweeping(before, Filter(Not(Named(f.name)), files), locked, target, i + 1, gone + [f], freed + |f.data|)
  {
    OrderedIsThere(before, i);
    SweptOneMore(AccessOrder(before), locked, target, i, gone, freed);
    UnlinkOne(before, gone, AccessOrder(before)[i]);
  }

  lemma OrderedIsThere(files: seq<File>, i: nat)
    requires i < |AccessOrder(files)|
    ensures AccessOrder(files)[i] in files
  {
    var chunks := Filter(IsChunk(), files);
    SortMember(ByAccess(), chunks, AccessOrder(files)[i]);
    FilterMembers(IsChunk(), files);
  }

  lemma SweptOneMore(order: seq<File>, locked: FileName -> bool, target: int, i: nat, gone: seq<File>, freed: int)
    requires Swept(order, locked, target, i, gone, freed) && i < |order| && freed < target && !locked(order[i].name)
    ensures Swept(order, locked, target, i + 1, gone + [order[i]], freed + |order[i].data|)
  {
    var f := order[i];
    SizeOfConcat(gone, [f]);
    assert order[i..][1..] == order[i + 1..];
    var rest := Evicted(order[i + 1..], locked, target - freed - |f.data|);
    assert gone + ([f] + rest) == (gone + [f]) + rest;
  }

  lemma SweepEnds(before: seq<File>, files: seq<File>, locked: FileName -> bool, target: int, i: nat, gone: seq<File>,
                  freed: int)
    requires Sweeping(before, files, locked, target, i, gone, freed) && DistinctNames(before)
    requires i < |AccessOrder(before)| ==> freed >= target
    ensures files == Remaining(before, locked, target) && DistinctNames(files)
    ensures freed == TotalSize(Evicted(AccessOrder(before), locked, target))
  {
    assert gone + [] == gone;
    NamesSurviveFilter(NotIn(gone), before);
  }

  lemma UnlinkOne(files: seq<File>, gone: seq<File>, f: File)
    requires DistinctNames(files) && f in files
    ensures Filter(Not(Named(f.name)), Filter(NotIn(gone), files)) == Filter(NotIn(gone + [f]), files)
  {
    NamesTellFilesApart(files);
    FilterTwice(Not(Named(f.name)), NotIn(gone), files);
    FilterAgrees(Both(NotIn(gone), Not(Named(f.name))), NotIn(gone + [f]), files);
  }

  /** The evicted files are exactly the shortest prefix of the candidates whose sizes reach the
      target, or all candidates when even those do not. */
  lemma {:induction false} EvictsShortestPrefix(order: seq<File>, locked: FileName -> bool, target: int, k: nat)
    ensures var usable := Filter(Removable(locked), order);
            var gone := Evicted(order, locked, target);
            && |gone| <= |usable| && gone == usable[..|gone|]
            && (k == |gone| <==> k <= |usable| && (k == |usable| || TotalSize(usable[..k]) >= target)
                                 && forall j :: 0 <= j < k ==> TotalSize(usable[..j]) < target)
  {
    var usable := Filter(Removable(locked), order);
    var gone := Evicted(order, locked, target);
    if order == [] || target <= 0 {
      assert usable[..0] == [];
    } else if locked(order[0].name) {
      EvictsShortestPrefix(order[1..], locked, target, k);
    } else {
      var f, rest := order[0], Filter(Removable(locked), order[1..]);
      assert usable == [f] + rest;
      EvictsShortestPrefix(order[1..], locked, target - |f.data|, if k == 0 then 0 else k - 1);
      forall j | 0 < j <= |usable|
        ensures TotalSize(usable[..j]) == |f.data| + TotalSize(rest[..j - 1])
      {
        assert usable[..j][1..] == rest[..j - 1];
      }
      if k > 0 {
        assert TotalSize(usable[..0]) == 0;
        assert k <= |usable| ==> forall j :: 0 <= j < k - 1 ==>
               0 < j + 1 <= |usable| && TotalSize(usable[..j + 1]) == |f.data| + TotalSize(rest[..j]);
      }
    }
  }

  lemma {:induction false} RemovalConserves(files: seq<File>, gone: seq<File>)
    requires NoDup(files) && NoDup(gone) && forall f :: f in gone ==> f in files
    ensures TotalSize(Filter(NotIn(gone), files)) + TotalSize(gone) == TotalSize(files)
    decreases |gone|
  {
    if gone == [] {
      FilterKeepsAll(NotIn(gone), files);
    } else {
      var last := |gone| - 1;
      var f, before := gone[last], gone[..last];
      assert gone == before + [f];
      RemovalConserves(files, before);
      var kept := Filter(NotIn(before), files);
      FilterMembers(NotIn(before), files);
      FilterTwice(NotIn([f]), NotIn(before), files);
      FilterAgrees(Both(NotIn(before), NotIn([f])), NotIn(gone), files);
      RemovingOneShrinks(kept, f);
      SizeOfConcat(before, [f]);
    }
  }

  lemma {:induction false} RemovingOneShrinks(files: seq<File>, f: File)
    requires NoDup(files) && f in files
    ensures TotalSize(Filter(NotIn([f]), files)) + |f.data| == TotalSize(files)
  {
    if files[0] == f {
      FilterKeepsAll(NotIn([f]), files[1..]);
    } else {
      RemovingOneShrinks(files[1..], f);
    }
  }

  lemma CandidateFacts(files: seq<File>, locked: FileName -> bool)
    requires DistinctNames(files)
    ensures NoDup(Candidates(files, locked)) && SortedBy(ByAccess(), Candidates(files, locked))
    ensures forall f :: f in Candidates(files, locked) <==> f in files && f.name.ChunkFile? && !locked(f.name)
  {
    OrderFacts(files);
    FilterMembers(Removable(locked), AccessOrder(files));
    FilterKeepsSorted(Removable(locked), AccessOrder(files));
  }

  lemma {:induction false} FilterKeepsSorted(keep: File -> bool, files: seq<File>)
    requires SortedBy(ByAccess(), files)
    ensures SortedBy(ByAccess(), Filter(keep, files))
  {
    if files != [] {
      var rest := Filter(keep, files[1..]);
      FilterKeepsSorted(keep, files[1..]);
      FilterMembers(keep, files[1..]);
      forall j | 0 <= j < |rest|
        ensures ByAccess()(files[0], rest[j])
      {
        assert rest[j] in files[1..];
      }
    }
  }

  /** Storage shrinks by exactly the bytes that eviction reports. */
  lemma EvictionConserves(files: seq<File>, locked: FileName -> bool, target: int)
    requires DistinctNames(files)
    ensures TotalSize(Remaining(files, locked, target)) + TotalSize(Evicted(AccessOrder(files), locked, target)) ==
            TotalSize(files)
  {
    var gone := Evicted(AccessOrder(files), locked, target);
    CandidateFacts(files, locked);
    EvictsShortestPrefix(AccessOrder(files), locked, target, |gone|);
    NamesTellFilesApart(files);
    RemovalConserves(files, gone);
  }

  /** Eviction takes only removable chunk files, and none of them was accessed after a
      removable chunk file that stays. */
  lemma EvictionIsLeastRecentlyUsed(files: seq<File>, locked: FileName -> bool, target: int)
    requires DistinctNames(files)
    ensures var kept := Remaining(files, locked, target);
            && (forall f :: f in files && (f.name.OtherFile? || locked(f.name)) ==> f in kept)
            && (forall f, g :: f in files && f !in kept && g in kept && g.name.ChunkFile? && !locked(g.name)
                               ==> f.atime <= g.atime)
  {
    var order := AccessOrder(files);
    var gone := Evicted(order, locked, target);
    var usable := Candidates(files, locked);
    CandidateFacts(files, locked);
    EvictsShortestPrefix(order, locked, target, |gone|);
    FilterMembers(NotIn(gone), files);
    forall j | 0 <= j < |gone|
      ensures usable[j] in gone
    {
      assert usable[j] == gone[j];
    }
    forall f, g | f in gone && g in usable && g !in gone
      ensures f.atime <= g.atime
    {
      var i :| 0 <= i < |gone| && gone[i] == f;
      var j :| 0 <= j < |usable| && usable[j] == g;
      assert ByAccess()(usable[i], usable[j]);
    }
  }

  /** After a quota round the store is below nine tenths of the quota, up to a byte, if and
      only if the removable chunk files hold the bytes the round set out to free. */
  lemma QuotaIsRestored(files: seq<File>, locked: FileName -> bool, max: nat)
    requires DistinctNames(files) && TotalSize(files) > max
    ensures var target := EvictionTarget(TotalSize(files), max);
            TotalSize(Remaining(files, locked, target)) as real < max as real * 0.9 + 1.0
            <==> TotalSize(Candidates(files, locked)) >= target
  {
    var target := EvictionTarget(TotalSize(files), max);
    var gone := Evicted(AccessOrder(files), locked, target);
    var usable := Candidates(files, locked);
    EvictionConserves(files, locked, target);
    EvictsShortestPrefix(AccessOrder(files), locked, target, |gone|);
    assert usable[..|usable|] == usable;
    PrefixIsSmaller(usable, |gone|);
  }

  /** A round ends within the quota if and only if the removable chunk files hold the bytes by
      which the quota was exceeded. */
  lemma RoundEndsWithinQuota(files: seq<File>, locked: FileName -> bool, max: nat)
    requires DistinctNames(files) && TotalSize(files) > max
    ensures var used := TotalSize(files);
            TotalSize(Remaining(files, locked, EvictionTarget(used, max))) <= max
            <==> TotalSize(Candidates(files, locked)) >= used - max
  {
    var target := EvictionTarget(TotalSize(files), max);
    var gone := Evicted(AccessOrder(files), locked, target);
    var usable := Candidates(files, locked);
    assert target >= TotalSize(files) - max;
    EvictionConserves(files, locked, target);
    EvictsShortestPrefix(AccessOrder(files), locked, target, |gone|);
    assert usable[..|usable|] == usable;
    PrefixIsSmaller(usable, |gone|);
  }

  /** A database that has outgrown the quota: no round frees anything. */
  lemma OtherFilesKeepQuotaExceeded(max: nat) returns (files: seq<File>)
    ensures DistinctNames(files) && TotalSize(files) > max
    ensures forall locked :: Remaining(files, locked, EvictionTarget(TotalSize(files), max)) == files
  {
    files := [File(OtherFile("node.db"), Fill(max + 1, 0), 0)];
    forall locked: FileName -> bool
      ensures Remaining(files, locked, EvictionTarget(TotalSize(files), max)) == files
    {
      assert files[1..] == [] && !IsChunk()(files[0]);
      assert Filter(IsChunk(), files) == Filter(IsChunk(), files[1..]) == [];
      FilterKeepsAll(NotIn([]), files);
    }
  }

  lemma PrefixIsSmaller(files: seq<File>, k: nat)
    requires k <= |files|
    ensures TotalSize(files[..k]) <= TotalSize(files)
  {
    assert files == files[..k] + files[k..];
    SizeOfConcat(files[..k], files[k..]);
  }
}
