/** A local repository of task configuration entries that is updated from a remote one. */
module TaskConfigurationPull {
  import opened Outcomes
  import opened Paths
  import opened TaskConfiguration
  import opened TaskConfigurationFiles

  // ----- merging -----

  datatype Manifest = Manifest(workspace: string, collectionId: int, collectionName: string, data: nat)

  datatype Error = WrongCollection | SeveralNewItemsInOneFile

  datatype Stats = Stats(added: nat, updated: nat, deleted: nat, kept: nat)

  predicate SameCollection(a: Manifest, b: Manifest) {
    a.workspace == b.workspace && a.collectionId == b.collectionId && a.collectionName == b.collectionName
  }

  /** An updated item stays in its file, at the front. */
  function UpdatedEntry(former: ItemInFile, item: Item): ItemInFile {
    if former.item == item then former else ItemInFile(item, former.path, 0)
  }

  function NewEntry(item: Item): ItemInFile
    requires TaskConfiguration.Valid(item.entry)
  {
    ItemInFile(item, DefaultPath(item.entry), 0)
  }

  /** The remote items over the local ones; the other local ones go unless they are to be preserved. */
  ghost function Merged(local: Entries, remote: Remote, preserve: bool): Entries
    requires RemoteOk(remote)
  {
    map k | k in remote.Keys + (if preserve then local.Keys else {}) ::
      if k !in remote then local[k] else if k in local then UpdatedEntry(local[k], remote[k]) else NewEntry(remote[k])
  }

  ghost function Differing(local: Entries, remote: Remote): set<Entry> {
    set k | k in local && k in remote && local[k].item != remote[k]
  }

  ghost function Agreeing(local: Entries, remote: Remote): set<Entry> {
    set k | k in local && k in remote && local[k].item == remote[k]
  }

  ghost predicate StatsOf(local: Entries, remote: Remote, preserve: bool, stats: Stats) {
    && stats.added == |remote.Keys - local.Keys|
    && stats.updated == |Differing(local, remote)|
    && stats.kept == |Agreeing(local, remote)|
    && stats.deleted == if preserve then 0 else |local.Keys - remote.Keys|
  }

  lemma {:induction false} DisjointSizes<T>(a: set<T>, b: set<T>, c: set<T>, all: set<T>)
    requires a !! b && a + b !! c && all == a + b + c
    ensures |a| + |b| + |c| == |all|
  {
    assert |a + b| == |a| + |b|;
    assert |a + b + c| == |a + b| + |c|;
  }

  /** Every remote item is added, updated or left alone. */
  lemma {:induction false} StatsAddUp(local: Entries, remote: Remote, preserve: bool, stats: Stats)
    requires StatsOf(local, remote, preserve, stats)
    ensures stats.added + stats.updated + stats.kept == |remote|
  {
    EveryItemCounted(local, remote);
    hide Differing, Agreeing;
    DisjointSizes(remote.Keys - local.Keys, Differing(local, remote), Agreeing(local, remote), remote.Keys);
  }

  lemma EveryItemCounted(local: Entries, remote: Remote)
    ensures remote.Keys - local.Keys !! Differing(local, remote)
    ensures remote.Keys - local.Keys + Differing(local, remote) !! Agreeing(local, remote)
    ensures remote.Keys == remote.Keys - local.Keys + Differing(local, remote) + Agreeing(local, remote)
  {
  }

  /** Two entries are meant for the same new file. */
  ghost predicate Collision(disk: Disk, entries: Entries) {
    exists k, l :: k in entries && l in entries && k != l && entries[k].path == entries[l].path &&
      entries[k].path !in disk
  }

  ghost predicate PlainNames(disk: Disk) {
    forall q :: q in disk ==> Plain(q)
  }

  /** New files are being written; `done` are the paths of files that were there before. */
  ghost predicate WritingInv(top: seq<string>, groups: Groups, done: set<Path>, taken: set<Path>, disk: Disk,
                             elsewhere: map<seq<string>, File>)
  {
    && PlainNames(disk) && Stored(top, disk, groups, taken) && done <= taken
    && (forall p :: p in taken && p in groups && p !in done ==> |groups[p]| == 1)
    && (forall p :: p in taken && p !in done && !Below(top, p) ==> Place(top, p) in elsewhere)
  }

  class LocalRepository {
    /** The directory of the repository. */
    const top: seq<string>
    var manifest: Option<Manifest>
    var entries: Entries

    // the file system
    var disk: Disk
    var diskManifest: Option<Manifest>
    /** What was written to places that are not below the directory. */
    var elsewhere: map<seq<string>, File>
    /** Files below the directory that were written or removed since the start of the last write. */
    var touched: set<Path>

    ghost predicate Valid()
      reads this
    {
      ".." !in top && Keyed(entries) && PlainNames(disk)
    }

    constructor (top: seq<string>, disk: Disk, diskManifest: Option<Manifest>)
      requires ".." !in top && PlainNames(disk)
      ensures Valid() && this.top == top && this.disk == disk && this.diskManifest == diskManifest
      ensures manifest == diskManifest && Loaded(disk, disk.Keys, entries)
    {
      this.top := top;
      this.manifest := None;
      this.entries := map[];
      this.disk := disk;
      this.diskManifest := diskManifest;
      this.elsewhere := map[];
      this.touched := {};
      new;
      Reload();
    }

    method Track(item: ItemInFile)
      modifies this`entries
      ensures entries == old(entries)[KeyOf(item.item) := item]
    {
      entries := entries[KeyOf(item.item) := item];
    }

    /** Reads the items of one file. */
    method LoadFile(p: Path, ghost done: set<Path>)
      requires p in disk && p !in done && Loaded(disk, done, entries)
      modifies this`entries
      ensures Loaded(disk, done + {p}, entries)
    {
      var raws := Raws(disk[p]);
      for i := 0 to |raws|
        invariant PartlyLoaded(disk, done, p, i, entries)
      {
        LoadStep(disk, done, p, i, entries);
        Track(ItemInFile(raws[i].item, p, i));
      }
      AllLoaded(disk, done, p, entries);
    }

    /** Reads the files in any order. */
    method Reload()
      modifies this`manifest, this`entries
      ensures manifest == diskManifest && Loaded(disk, disk.Keys, entries)
    {
      manifest := diskManifest;
      entries := map[];
      var todo := disk.Keys;
      while todo != {}
        invariant manifest == diskManifest
        invariant todo <= disk.Keys && Loaded(disk, disk.Keys - todo, entries)
        decreases todo
      {
        var p :| p in todo;
        LoadFile(p, disk.Keys - todo);
        assert disk.Keys - (todo - {p}) == disk.Keys - todo + {p};
        todo := todo - {p};
      }
      assert disk.Keys - {} == disk.Keys;
    }

    // ----- merging -----

    method MergeManifest(m: Manifest) returns (ok: bool)
      modifies this`manifest
      ensures ok <==> old(manifest).None? || SameCollection(old(manifest).value, m)
      ensures manifest == if ok then Some(m) else old(manifest)
    {
      if manifest.None? {
        manifest := Some(m);
      } else if manifest.value.workspace != m.workspace
        || manifest.value.collectionId != m.collectionId
        || manifest.value.collectionName != m.collectionName
      {
        return false;
      } else {
        manifest := Some(manifest.value.(data := m.data));
      }
      ok := true;
    }

    method UpdateEntries(remote: Remote) returns (updated: nat, kept: nat)
      modifies this`entries
      ensures entries == WithUpdates(old(entries), remote, old(entries).Keys)
      ensures updated == |Differing(old(entries), remote)| && kept == |Agreeing(old(entries), remote)|
    {
      updated, kept := 0, 0;
      ghost var before := entries;
      ghost var all := remote.Keys * entries.Keys;
      var todo := remote.Keys * entries.Keys;
      NoUpdates(before, remote);
      assert all - todo == {};
      while todo != {}
        invariant todo <= all && UpdateInv(before, remote, all - todo, entries, updated, kept)
        decreases todo
      {
        var key :| key in todo;
        TakeOne(all, todo, key);
        UpdateStep(before, remote, all - todo, key, entries, updated, kept);
        var former, item := entries[key], remote[key];
        if former.item == item {
          kept := kept + 1;
        } else {
          entries := entries[key := ItemInFile(item, former.path, 0)];
          updated := updated + 1;
        }
        todo := todo - {key};
      }
      AllUpdates(before, remote, all - todo, entries, updated, kept);
    }

    method AddEntries(remote: Remote) returns (added: nat)
      requires RemoteOk(remote)
      modifies this`entries
      ensures entries == WithAdditions(old(entries), remote, remote.Keys - old(entries).Keys)
      ensures added == |remote.Keys - old(entries).Keys|
    {
      added := 0;
      ghost var before := entries;
      ghost var all := remote.Keys - entries.Keys;
      var todo := remote.Keys - entries.Keys;
      NoAdditions(before, remote);
      assert all - todo == {};
      while todo != {}
        invariant todo <= all && added == |all| - |todo|
        invariant entries == WithAdditions(before, remote, all - todo)
        decreases todo
      {
        var key :| key in todo;
        TakeOne(all, todo, key);
        AddStep(before, remote, all - todo, key);
        entries := entries[key := ItemInFile(remote[key], DefaultPath(remote[key].entry), 0)];
        added := added + 1;
        todo := todo - {key};
      }
      assert all - {} == all;
    }

    method DeleteEntries(remote: Remote) returns (deleted: nat)
      modifies this`entries
      ensures entries == old(entries) - (old(entries).Keys - remote.Keys)
      ensures deleted == |old(entries).Keys - remote.Keys|
    {
      deleted := 0;
      ghost var before := entries;
      ghost var all := entries.Keys - remote.Keys;
      var todo := entries.Keys - remote.Keys;
      NoDeletions(before, all, todo);
      while todo != {}
        invariant todo <= all && deleted == |all| - |todo|
        invariant entries == before - (all - todo)
        decreases todo
      {
        var key :| key in todo;
        TakeOne(all, todo, key);
        DeleteStep(before, all - todo, key);
        entries := entries - {key};
        deleted := deleted + 1;
        todo := todo - {key};
      }
      assert all - {} == all;
    }

    // ----- writing -----

    /** Brings the existing files up to date; returns what is not in any of them. */
    method UpdateFiles(groups: Groups) returns (left: Groups)
      modifies this`disk, this`touched
      ensures disk == UpdatedFiles(old(disk), groups, old(disk).Keys)
      ensures touched == old(touched) + ChangedFiles(old(disk), groups, old(disk).Keys)
      ensures left == groups - old(disk).Keys
    {
      ghost var before := disk;
      left := groups;
      var existing := disk.Keys;
      ghost var done: set<Path> := {};
      while existing != {}
        invariant existing <= before.Keys && done == before.Keys - existing
        invariant disk == UpdatedFiles(before, groups, done) && left == groups - done
        invariant touched == old(touched) + ChangedFiles(before, groups, done)
        decreases existing
      {
        var p :| p in existing;
        FilesStep(before, groups, done, p);
        if p in left {
          var newData := FileOf(left[p]);
          if disk[p] != newData {
            disk := disk[p := newData];
            touched := touched + {p};
          }
          left := left - {p};
        } else {
          disk := disk - {p};
          touched := touched + {p};
        }
        existing, done := existing - {p}, done + {p};
      }
    }

    /** Writes new files, in any order, unless one would hold several items. */
    method WriteNewFiles(left: Groups, ghost groups: Groups, ghost done: set<Path>) returns (ok: bool)
      requires ".." !in top && left == groups - done && done <= groups.Keys
      requires WritingInv(top, groups, done, done, disk, elsewhere)
      modifies this`disk, this`touched, this`elsewhere
      ensures PlainNames(disk)
      ensures ok <==> forall p :: p in left ==> |left[p]| == 1
      ensures ok ==> Stored(top, disk, groups, groups.Keys)
      ensures ok ==> touched == old(touched) + Targets(top, left.Keys)
      ensures left.Keys == {} ==> ok && disk == old(disk)
    {
      hide WritingInv, PlainNames, Stored, Targets;
      NoTargets(top, left.Keys);
      var todo := left.Keys;
      ghost var taken := done;
      while todo != {}
        invariant todo <= left.Keys && taken + todo == groups.Keys && taken !! todo
        invariant WritingInv(top, groups, done, taken, disk, elsewhere)
        invariant touched == old(touched) + Targets(top, left.Keys - todo)
        invariant left.Keys == {} ==> disk == old(disk)
        decreases todo
      {
        var p :| p in todo;
        InvMeans(top, groups, done, taken, disk, elsewhere);
        if |left[p]| != 1 {
          return false;
        }
        TargetsGrow(top, left.Keys, todo, p);
        WriteNewFile(p, left[p][0].item, groups, done, taken);
        todo, taken := todo - {p}, taken + {p};
      }
      assert taken == groups.Keys && left.Keys - {} == left.Keys;
      InvMeans(top, groups, done, taken, disk, elsewhere);
      ok := true;
    }

    /** Writes an item to where its path leads. */
    method WriteNewFile(p: Path, item: Item, ghost groups: Groups, ghost done: set<Path>, ghost taken: set<Path>)
      requires ".." !in top && WritingInv(top, groups, done, taken, disk, elsewhere)
      requires p in groups && p !in done && |groups[p]| == 1 && groups[p][0].item == item
      modifies this`disk, this`touched, this`elsewhere
      ensures WritingInv(top, groups, done, taken + {p}, disk, elsewhere)
      ensures touched == old(touched) + if Below(top, p) then {Walked(top, p)} else {}
      ensures disk == if Below(top, p) then old(disk)[Walked(top, p) := Single(Raw(item, 0))] else old(disk)
    {
      StoreOneMore(top, disk, groups, taken, p);
      if Below(top, p) {
        WalkedIsPlain(top, p);
        disk := disk[Walked(top, p) := Single(Raw(item, 0))];
        touched := touched + {Walked(top, p)};
      } else {
        elsewhere := elsewhere[Place(top, p) := Single(Raw(item, 0))];
      }
    }

    /** Writes the entries to their files. It fails exactly when several entries have one path that is not that of a
        file. Otherwise what is read back agrees with the files, it is a part of what was to be written, and it is
        all of that exactly when all paths lead below the directory and apart. */
    method WriteEntries() returns (ok: bool)
      requires Valid()
      modifies this`manifest, this`entries, this`disk, this`touched, this`elsewhere
      ensures Valid()
      ensures ok <==> !Collision(old(disk), old(entries))
      ensures ok ==> Tidy(disk, entries) && manifest == diskManifest && Outcome(top, old(entries), entries)
      ensures ok && AllPlain(old(entries)) ==>
        SamePlaces(old(entries), entries) && touched == ChangedPaths(old(disk), disk)
      ensures old(Tidy(disk, entries)) ==> ok && disk == old(disk) && touched == {}
    {
      var groups := GroupByPath(entries);
      ok := WriteGroups(groups);
      CollisionInGroups(old(disk), entries, groups);
      TidyStays(old(disk), entries, groups);
      if ok {
        ghost var written := entries;
        Reload();
        WrittenAndRead(top, written, groups, disk, entries);
        if AllPlain(written) {
          PlainReadBack(top, written, groups, disk, entries);
        }
      }
    }

    method WriteGroups(groups: Groups) returns (ok: bool)
      requires Valid() && Grouped(entries, entries.Keys, groups)
      modifies this`disk, this`touched, this`elsewhere
      ensures PlainNames(disk)
      ensures ok <==> forall p :: p in groups - old(disk).Keys ==> |groups[p]| == 1
      ensures ok ==> Stored(top, disk, groups, groups.Keys)
      ensures ok && AllPlain(entries) ==> touched == ChangedPaths(old(disk), Written(groups))
      ensures old(Tidy(disk, entries)) ==> ok && disk == old(disk) && touched == {}
    {
      hide Tidy, AllPlain, Keyed, Grouped, PlainNames, WritingInv, Stored, UpdatedFiles, ChangedFiles, ChangedPaths,
        Written, Targets;
      ghost var before := disk;
      touched := {};
      BeforeNewFiles(top, before, entries, groups, elsewhere);
      var left := UpdateFiles(groups);
      ok := WriteNewFiles(left, groups, before.Keys * groups.Keys);
    }

    // ----- pulling -----

    /** What a pull of this remote repository would leave behind. */
    ghost predicate Settled(remote: Remote, remoteManifest: Manifest, preserve: bool)
      reads this
    {
      Tidy(disk, entries) && Reflects(entries, remote, preserve) && manifest == Some(remoteManifest)
    }

    method MergeEntries(remote: Remote, preserve: bool) returns (stats: Stats)
      requires Keyed(entries) && RemoteOk(remote)
      modifies this`entries
      ensures entries == Merged(old(entries), remote, preserve) && StatsOf(old(entries), remote, preserve, stats)
    {
      ghost var local := entries;
      MergedByLoops(local, remote);
      KeysOfLoops(local, remote);
      var updated, kept := UpdateEntries(remote);
      var added := AddEntries(remote);
      var deleted := 0;
      if !preserve {
        deleted := DeleteEntries(remote);
      }
      stats := Stats(added, updated, deleted, kept);
    }

    /** A pull fails for another collection, or when new items need one path that is not that of a file. Otherwise
        entries and files agree; the entries are the merged ones whose paths lead below the directory, as long as
        the paths lead apart; all of them, each in the file it was in, if the paths are plain. */
    method Pull(remote: Remote, remoteManifest: Manifest, preserve: bool) returns (r: Result<Stats, Error>)
      requires Valid() && RemoteOk(remote)
      modifies this
      ensures Valid()
      ensures r == Err(WrongCollection) <==> old(manifest).Some? && !SameCollection(old(manifest).value, remoteManifest)
      ensures r == Err(WrongCollection) ==> manifest == old(manifest) && entries == old(entries) && disk == old(disk)
      ensures r == Err(SeveralNewItemsInOneFile) <==>
        (old(manifest).Some? ==> SameCollection(old(manifest).value, remoteManifest))
        && Collision(old(disk), Merged(old(entries), remote, preserve))
      ensures r.Ok? ==> Tidy(disk, entries) && diskManifest == manifest == Some(remoteManifest)
      ensures r.Ok? ==> StatsOf(old(entries), remote, preserve, r.value)
      ensures r.Ok? ==> Outcome(top, Merged(old(entries), remote, preserve), entries)
      ensures r.Ok? && AllPlain(Merged(old(entries), remote, preserve)) ==>
        SamePlaces(Merged(old(entries), remote, preserve), entries) && touched == ChangedPaths(old(disk), disk)
      ensures old(Settled(remote, remoteManifest, preserve)) ==>
        r == Ok(Stats(0, 0, 0, |remote|)) && disk == old(disk) && touched == {}
    {
      hide Tidy, Keyed, PlainNames, Collision, Outcome, SamePlaces, AllPlain, Merged, StatsOf, Reflects, RemoteOk,
        ChangedPaths;
      var ok := MergeManifest(remoteManifest);
      if !ok {
        return Err(WrongCollection);
      }
      ghost var local := entries;
      MergedReflects(local, remote, preserve);
      var stats := MergeEntries(remote, preserve);
      if Reflects(local, remote, preserve) {
        NothingToMerge(local, remote, preserve, stats);
      }
      diskManifest := manifest;
      ok := WriteEntries();
      if !ok {
        return Err(SeveralNewItemsInOneFile);
      }
      r := Ok(stats);
    }

    /** The second of two pulls of the same repository has nothing to do exactly when every remote item was read back
        after the first; if the paths lead apart, that is exactly when they all lead below the directory. */
    method PullTwice(remote: Remote, remoteManifest: Manifest, preserve: bool)
      returns (first: Result<Stats, Error>, second: Result<Stats, Error>, ghost read: Entries)
      requires Valid() && RemoteOk(remote)
      modifies this
      ensures first.Ok? ==> Outcome(top, Merged(old(entries), remote, preserve), read)
      ensures first.Ok? ==> (second == Ok(Stats(0, 0, 0, |remote|)) <==> remote.Keys <= read.Keys)
      ensures first.Ok? && remote.Keys <= read.Keys ==> touched == {} && Tidy(disk, entries)
      ensures first.Ok? && Apart(top, Merged(old(entries), remote, preserve)) ==>
        (remote.Keys <= read.Keys <==> RemoteBelow(top, remote, Merged(old(entries), remote, preserve)))
    {
      ghost var merged := Merged(entries, remote, preserve);
      MergedReflects(entries, remote, preserve);
      first := Pull(remote, remoteManifest, preserve);
      second, read := first, entries;
      if first.Ok? {
        ReadBackReflects(top, remote, preserve, merged, read);
        second := Pull(remote, remoteManifest, preserve);
        if second.Ok? && !(remote.Keys <= read.Keys) {
          ItemIsAdded(remote, preserve, read, second.value);
        }
      }
    }
  }

  /** The entries that a pull leaves behind, against those that it wrote. */
  ghost predicate Outcome(top: seq<string>, merged: Entries, entries: Entries) {
    && IsPart(top, merged, entries)
    && (SameItems(merged, entries) <==> AllBelow(top, merged) && Apart(top, merged))
    && (Apart(top, merged) ==> forall k :: k in merged ==> (k in entries <==> Below(top, merged[k].path)))
  }

  ghost predicate RemoteBelow(top: seq<string>, remote: Remote, merged: Entries)
    requires remote.Keys <= merged.Keys
  {
    forall k :: k in remote ==> Below(top, merged[k].path)
  }

  /** Of the entries `merged` that a pull wrote, `read` were read back. */
  lemma {:induction false} ReadBackReflects(top: seq<string>, remote: Remote, preserve: bool, merged: Entries,
                                            read: Entries)
    requires RemoteOk(remote) && Reflects(merged, remote, preserve) && Outcome(top, merged, read)
    ensures Reflects(read, remote, preserve) <==> remote.Keys <= read.Keys
    ensures Apart(top, merged) ==> (remote.Keys <= read.Keys <==> RemoteBelow(top, remote, merged))
  {
    if !(remote.Keys <= read.Keys) {
      var k :| k in remote.Keys && k !in read.Keys;
      assert k in merged;
    }
  }

  lemma {:induction false} ItemIsAdded(remote: Remote, preserve: bool, read: Entries, stats: Stats)
    requires StatsOf(read, remote, preserve, stats) && !(remote.Keys <= read.Keys)
    ensures stats.added > 0
  {
    var k :| k in remote.Keys && k !in read.Keys;
    assert k in remote.Keys - read.Keys;
  }

  // ----- what writing does to the files -----

  /** Where paths lead below the directory. */
  ghost function Targets(top: seq<string>, paths: set<Path>): set<Path> {
    set p | p in paths && Below(top, p) :: Walked(top, p)
  }

  lemma {:induction false} NoTargets(top: seq<string>, all: set<Path>)
    ensures Targets(top, all - all) == {}
  {
    assert all - all == {};
  }

  lemma InvMeans(top: seq<string>, groups: Groups, done: set<Path>, taken: set<Path>, disk: Disk,
                 elsewhere: map<seq<string>, File>)
    requires WritingInv(top, groups, done, taken, disk, elsewhere)
    ensures PlainNames(disk) && Stored(top, disk, groups, taken)
    ensures taken == groups.Keys ==> forall p :: p in groups - done ==> |groups[p]| == 1
  {
  }

  lemma {:induction false} TargetsGrow(top: seq<string>, all: set<Path>, todo: set<Path>, p: Path)
    requires todo <= all && p in todo
    ensures Targets(top, all - (todo - {p})) ==
      Targets(top, all - todo) + if Below(top, p) then {Walked(top, p)} else {}
  {
    assert all - (todo - {p}) == (all - todo) + {p};
  }

  lemma {:induction false} StoreOneMore(top: seq<string>, disk: Disk, groups: Groups, done: set<Path>, p: Path)
    requires Stored(top, disk, groups, done) && p in groups && |groups[p]| == 1
    ensures
      var file := Single(Raw(groups[p][0].item, 0));
      Stored(top, if Below(top, p) then disk[Walked(top, p) := file] else disk, groups, done + {p})
  {
    var file := Single(Raw(groups[p][0].item, 0));
    var disk' := if Below(top, p) then disk[Walked(top, p) := file] else disk;
    forall q | q in disk'
      ensures exists r :: r in done + {p} && Leads(top, r, q) && r in groups && disk'[q] == FileOf(groups[r])
    {
      if Leads(top, p, q) {
        assert disk'[q] == FileOf(groups[p]);
      } else {
        var r :| r in done && Leads(top, r, q) && r in groups && disk[q] == FileOf(groups[r]);
        assert r in done + {p};
      }
    }
  }

  lemma {:induction false} UpdatedAreStored(top: seq<string>, disk: Disk, groups: Groups)
    requires ".." !in top && PlainNames(disk)
    ensures Stored(top, UpdatedFiles(disk, groups, disk.Keys), groups, disk.Keys * groups.Keys)
    ensures groups - disk.Keys == groups - (disk.Keys * groups.Keys)
  {
    forall q | q in disk
      ensures Leads(top, q, q)
    {
      WalkedIsItself(top, q);
    }
  }

  lemma {:induction false} BeforeNewFiles(top: seq<string>, before: Disk, entries: Entries, groups: Groups,
                                          elsewhere: map<seq<string>, File>)
    requires ".." !in top && Keyed(entries) && PlainNames(before) && Grouped(entries, entries.Keys, groups)
    ensures
      var done := before.Keys * groups.Keys;
      WritingInv(top, groups, done, done, UpdatedFiles(before, groups, before.Keys), elsewhere) &&
        groups - before.Keys == groups - done
    ensures Tidy(before, entries) ==>
      (groups - before.Keys).Keys == {} && UpdatedFiles(before, groups, before.Keys) == before
      && ChangedFiles(before, groups, before.Keys) == {} && Targets(top, {}) == {}
    ensures AllPlain(entries) ==>
      ChangedFiles(before, groups, before.Keys) + Targets(top, (groups - before.Keys).Keys) ==
        ChangedPaths(before, Written(groups))
  {
    UpdatedAreStored(top, before, groups);
    if Tidy(before, entries) {
      TidyLeavesNothing(before, entries, groups);
    }
    if AllPlain(entries) {
      PlainTouched(top, before, entries, groups);
    }
  }

  ghost predicate IsPart(top: seq<string>, entries: Entries, read: Entries) {
    forall k :: k in read ==>
      k in entries && read[k].item == entries[k].item && Leads(top, entries[k].path, read[k].path)
  }

  /** What reading back after a write gives. */
  lemma {:induction false} WrittenAndRead(top: seq<string>, entries: Entries, groups: Groups, disk: Disk, read: Entries)
    requires ReadBack(top, entries, groups, disk, read)
    ensures Tidy(disk, read) && Outcome(top, entries, read)
  {
    forall k | k in read
      ensures k in entries && read[k].item == entries[k].item && Leads(top, entries[k].path, read[k].path)
    {
      ReadWasWritten(top, entries, groups, disk, read, k);
    }
    AllReadBack(top, entries, groups, disk, read);
    ReadBackIsTidy(top, entries, groups, disk, read);
    if Apart(top, entries) {
      forall k | k in entries
        ensures k in read <==> Below(top, entries[k].path)
      {
        ReadWhenApart(top, entries, groups, disk, read, k);
      }
    }
  }

  /** With plain paths the files that were touched are those that are different now. */
  lemma {:induction false} PlainTouched(top: seq<string>, before: Disk, entries: Entries, groups: Groups)
    requires Keyed(entries) && Grouped(entries, entries.Keys, groups) && ".." !in top && AllPlain(entries)
    ensures ChangedFiles(before, groups, before.Keys) + Targets(top, (groups - before.Keys).Keys) ==
      ChangedPaths(before, Written(groups))
  {
    var left := (groups - before.Keys).Keys;
    forall p | p in groups
      ensures Leads(top, p, p)
    {
      assert GroupOk(entries, entries.Keys, p, groups[p]);
      assert groups[p][0] in groups[p];
      assert Plain(entries[KeyOf(groups[p][0].item)].path);
      WalkedIsItself(top, p);
    }
    assert Targets(top, left) == left;
    AllFilesWritten(before, groups);
  }

  /** Entries that agree with the files have plain paths, and leave nothing to be written. */
  lemma {:induction false} TidyLeavesNothing(before: Disk, entries: Entries, groups: Groups)
    requires Tidy(before, entries) && Grouped(entries, entries.Keys, groups) && PlainNames(before)
    ensures AllPlain(entries) && (groups - before.Keys).Keys == {}
    ensures UpdatedFiles(before, groups, before.Keys) == before && ChangedFiles(before, groups, before.Keys) == {}
  {
    TidyIsWritten(before, entries, groups);
    WrittenAlready(before, groups);
    hide Written, UpdatedFiles, ChangedFiles, Grouped, Plain;
    forall k | k in entries
      ensures Plain(entries[k].path)
    {
      assert At(before, entries[k]);
    }
  }

  lemma {:induction false} WrittenAlready(before: Disk, groups: Groups)
    requires Written(groups) == before
    ensures (groups - before.Keys).Keys == {}
    ensures UpdatedFiles(before, groups, before.Keys) == before && ChangedFiles(before, groups, before.Keys) == {}
  {
    hide FileOf;
    assert groups.Keys == before.Keys;
  }

  // ----- what a pull promises -----

  /** The entries are those of the remote repository, with further local ones only if they are preserved. */
  ghost predicate Reflects(entries: Entries, remote: Remote, preserve: bool) {
    && (forall k :: k in remote ==> k in entries && entries[k].item == remote[k])
    && (preserve || entries.Keys <= remote.Keys)
  }

  lemma MergedReflects(local: Entries, remote: Remote, preserve: bool)
    requires Keyed(local) && RemoteOk(remote)
    ensures Keyed(Merged(local, remote, preserve)) && Reflects(Merged(local, remote, preserve), remote, preserve)
    ensures forall k :: k in local && k in Merged(local, remote, preserve) ==>
      Merged(local, remote, preserve)[k].path == local[k].path
  {
  }

  /** Where the merged items are put: local ones stay in their files, at the front if they are updated; new ones come
      to their default paths. */
  lemma MergedPlaces(local: Entries, remote: Remote, preserve: bool, k: Entry)
    requires RemoteOk(remote) && k in Merged(local, remote, preserve)
    ensures var m := Merged(local, remote, preserve)[k];
      if k !in remote then k in local && preserve && m == local[k]
      else
        && m.item == remote[k]
        && m.path == (if k in local then local[k].path else DefaultPath(remote[k].entry))
        && m.position == if k in local && local[k].item == remote[k] then local[k].position else 0
  {
  }

  lemma {:induction false} NothingToMerge(local: Entries, remote: Remote, preserve: bool, stats: Stats)
    requires RemoteOk(remote) && Reflects(local, remote, preserve)
    ensures Merged(local, remote, preserve) == local
    ensures StatsOf(local, remote, preserve, stats) ==> stats == Stats(0, 0, 0, |remote|)
  {
    assert remote.Keys - local.Keys == {} && Differing(local, remote) == {} && Agreeing(local, remote) == remote.Keys;
    if !preserve {
      assert local.Keys - remote.Keys == {};
    }
  }

  /** As long as local items are in files, a pull fails only over two new items with one default path that is not
      taken yet. */
  lemma {:induction false} CollisionOfNewItems(disk: Disk, local: Entries, remote: Remote, preserve: bool)
    requires RemoteOk(remote) && forall k :: k in local ==> local[k].path in disk
    ensures Collision(disk, Merged(local, remote, preserve)) <==> SharedDefaultPath(disk, local, remote)
  {
    var merged := Merged(local, remote, preserve);
    NewPaths(disk, local, remote, preserve);
    if SharedDefaultPath(disk, local, remote) {
      var k, l :| k in remote && l in remote && k !in local && l !in local && k != l
        && DefaultPath(remote[k].entry) == DefaultPath(remote[l].entry) && DefaultPath(remote[k].entry) !in disk;
      assert k in merged && l in merged;
    }
    if Collision(disk, merged) {
      var k, l :| k in merged && l in merged && k != l && merged[k].path == merged[l].path && merged[k].path !in disk;
      assert k in remote && l in remote;
    }
  }

  lemma NewPaths(disk: Disk, local: Entries, remote: Remote, preserve: bool)
    requires RemoteOk(remote) && forall k :: k in local ==> local[k].path in disk
    ensures forall k :: k in remote && k !in local ==>
      k in Merged(local, remote, preserve) && Merged(local, remote, preserve)[k].path == DefaultPath(remote[k].entry)
    ensures forall k :: k in Merged(local, remote, preserve) && Merged(local, remote, preserve)[k].path !in disk ==>
      k in remote && k !in local
  {
  }

  ghost predicate SharedDefaultPath(disk: Disk, local: Entries, remote: Remote)
    requires RemoteOk(remote)
  {
    exists k, l :: k in remote && l in remote && k !in local && l !in local && k != l
      && DefaultPath(remote[k].entry) == DefaultPath(remote[l].entry) && DefaultPath(remote[k].entry) !in disk
  }

  // ----- what merging does to the entries -----

  function WithUpdates(local: Entries, remote: Remote, done: set<Entry>): Entries {
    map k | k in local :: if k in done && k in remote then UpdatedEntry(local[k], remote[k]) else local[k]
  }

  function WithAdditions(local: Entries, remote: Remote, done: set<Entry>): Entries
    requires RemoteOk(remote) && done <= remote.Keys
  {
    map k | k in local.Keys + done :: if k in done then NewEntry(remote[k]) else local[k]
  }

  lemma {:induction false} TakeOne(all: set<Entry>, todo: set<Entry>, k: Entry)
    requires todo <= all && k in todo
    ensures all - (todo - {k}) == (all - todo) + {k} && k !in all - todo
    ensures |todo - {k}| == |todo| - 1 && |todo| <= |all|
  {
    assert all == todo + (all - todo);
  }

  ghost predicate UpdateInv(local: Entries, remote: Remote, done: set<Entry>, entries: Entries, updated: nat, kept: nat)
  {
    && entries == WithUpdates(local, remote, done)
    && updated == |Differing(local, remote) * done| && kept == |Agreeing(local, remote) * done|
  }

  lemma {:induction false} NoUpdates(local: Entries, remote: Remote)
    ensures UpdateInv(local, remote, {}, local, 0, 0)
  {
    assert Differing(local, remote) * {} == {} && Agreeing(local, remote) * {} == {};
  }

  lemma {:induction false} UpdateStep(local: Entries, remote: Remote, done: set<Entry>, k: Entry, entries: Entries,
                                      updated: nat, kept: nat)
    requires k in local && k in remote && k !in done && UpdateInv(local, remote, done, entries, updated, kept)
    ensures k in entries && entries[k] == local[k]
    ensures local[k].item == remote[k] ==> UpdateInv(local, remote, done + {k}, entries, updated, kept + 1)
    ensures local[k].item != remote[k] ==>
      UpdateInv(local, remote, done + {k}, entries[k := ItemInFile(remote[k], local[k].path, 0)], updated + 1, kept)
  {
    var d, a := Differing(local, remote), Agreeing(local, remote);
    if local[k].item == remote[k] {
      assert d * (done + {k}) == d * done && a * (done + {k}) == a * done + {k};
    } else {
      assert d * (done + {k}) == d * done + {k} && a * (done + {k}) == a * done;
    }
  }

  lemma {:induction false} AllUpdates(local: Entries, remote: Remote, done: set<Entry>, entries: Entries, updated: nat,
                                      kept: nat)
    requires UpdateInv(local, remote, done, entries, updated, kept) && done == remote.Keys * local.Keys
    ensures entries == WithUpdates(local, remote, local.Keys)
    ensures updated == |Differing(local, remote)| && kept == |Agreeing(local, remote)|
  {
    assert Differing(local, remote) * done == Differing(local, remote);
    assert Agreeing(local, remote) * done == Agreeing(local, remote);
  }

  lemma NoAdditions(local: Entries, remote: Remote)
    requires RemoteOk(remote)
    ensures WithAdditions(local, remote, {}) == local
  {
  }

  lemma AddStep(local: Entries, remote: Remote, done: set<Entry>, k: Entry)
    requires RemoteOk(remote) && done <= remote.Keys && k in remote && k !in done
    ensures WithAdditions(local, remote, done + {k}) == WithAdditions(local, remote, done)[k := NewEntry(remote[k])]
  {
  }

  lemma NoDeletions(local: Entries, all: set<Entry>, todo: set<Entry>)
    requires all == todo
    ensures local - (all - todo) == local
  {
  }

  lemma DeleteStep(local: Entries, done: set<Entry>, k: Entry)
    ensures local - (done + {k}) == local - done - {k}
  {
  }

  lemma KeysOfLoops(local: Entries, remote: Remote)
    requires RemoteOk(remote)
    ensures WithUpdates(local, remote, local.Keys).Keys == local.Keys
    ensures
      var both := WithAdditions(WithUpdates(local, remote, local.Keys), remote, remote.Keys - local.Keys);
      both.Keys - remote.Keys == local.Keys - remote.Keys
  {
  }

  /** The three loops together. */
  lemma MergedByLoops(local: Entries, remote: Remote)
    requires RemoteOk(remote)
    ensures
      var both := WithAdditions(WithUpdates(local, remote, local.Keys), remote, remote.Keys - local.Keys);
      both == Merged(local, remote, true) && both - (both.Keys - remote.Keys) == Merged(local, remote, false)
  {
  }

  // ----- what writing does to the files -----

  function UpdatedFiles(disk: Disk, groups: Groups, done: set<Path>): Disk {
    map p | p in disk && (p in done ==> p in groups) :: if p in done then FileOf(groups[p]) else disk[p]
  }

  function ChangedFiles(disk: Disk, groups: Groups, done: set<Path>): set<Path> {
    set p | p in done && p in disk && (p in groups ==> FileOf(groups[p]) != disk[p])
  }

  lemma FilesStep(disk: Disk, groups: Groups, done: set<Path>, p: Path)
    requires p in disk && p !in done
    ensures p in UpdatedFiles(disk, groups, done) && UpdatedFiles(disk, groups, done)[p] == disk[p]
    ensures p in groups ==>
      UpdatedFiles(disk, groups, done + {p}) == UpdatedFiles(disk, groups, done)[p := FileOf(groups[p])]
    ensures p !in groups ==> UpdatedFiles(disk, groups, done + {p}) == UpdatedFiles(disk, groups, done) - {p}
    ensures ChangedFiles(disk, groups, done + {p}) ==
      ChangedFiles(disk, groups, done) + if p in groups && FileOf(groups[p]) == disk[p] then {} else {p}
    ensures groups - (done + {p}) == groups - done - {p}
  {
  }

  ghost function ChangedPaths(before: Disk, after: Disk): set<Path> {
    set p | p in before.Keys + after.Keys && !(p in before && p in after && before[p] == after[p])
  }

  lemma AllFilesWritten(disk: Disk, groups: Groups)
    ensures UpdatedFiles(disk, groups, disk.Keys) + Written(groups - disk.Keys) == Written(groups)
    ensures ChangedFiles(disk, groups, disk.Keys) + (groups - disk.Keys).Keys == ChangedPaths(disk, Written(groups))
  {
  }

  lemma {:induction false} CollisionInGroups(disk: Disk, entries: Entries, groups: Groups)
    requires Keyed(entries) && Grouped(entries, entries.Keys, groups)
    ensures Collision(disk, entries) <==> exists p :: p in groups - disk.Keys && |groups[p]| != 1
  {
    if Collision(disk, entries) {
      var k, l :| k in entries && l in entries && k != l && entries[k].path == entries[l].path &&
        entries[k].path !in disk;
      var p := entries[k].path;
      assert entries[k] in groups[p] && entries[l] in groups[p];
      assert p in groups - disk.Keys;
    }
    if p :| p in groups - disk.Keys && |groups[p]| != 1 {
      assert GroupOk(entries, entries.Keys, p, groups[p]);
      var x, y := groups[p][0], groups[p][1];
      assert x in groups[p] && y in groups[p];
      assert entries[KeyOf(x.item)] == x && entries[KeyOf(y.item)] == y;
    }
  }

  lemma {:induction false} TidyStays(disk: Disk, entries: Entries, groups: Groups)
    requires Grouped(entries, entries.Keys, groups)
    ensures Tidy(disk, entries) ==> Written(groups) == disk && !Collision(disk, entries)
  {
    if Tidy(disk, entries) {
      TidyIsWritten(disk, entries, groups);
      forall k | k in entries
        ensures entries[k].path in disk
      {
        assert At(disk, entries[k]);
      }
    }
  }

  /** The first `n` items of the file at `p` were read as well. */
  ghost predicate PartlyLoaded(disk: Disk, done: set<Path>, p: Path, n: nat, entries: Entries) {
    && p in disk && n <= |Raws(disk[p])|
    && ComesFrom(disk, done + {p}, entries)
    && (forall q :: q in done && q in disk ==> HasKeys(entries, Raws(disk[q])))
    && HasKeys(entries, Raws(disk[p])[..n])
  }

  lemma KeysGrow(entries: Entries, raws: seq<Raw>, k: Entry, x: ItemInFile)
    requires HasKeys(entries, raws)
    ensures HasKeys(entries[k := x], raws)
  {
  }

  lemma {:induction false} LoadStep(disk: Disk, done: set<Path>, p: Path, i: nat, entries: Entries)
    requires PartlyLoaded(disk, done, p, i, entries) && i < |Raws(disk[p])|
    ensures
      var item := Raws(disk[p])[i].item;
      PartlyLoaded(disk, done, p, i + 1, entries[KeyOf(item) := ItemInFile(item, p, i)])
  {
    var raws := Raws(disk[p]);
    var k, x := KeyOf(raws[i].item), ItemInFile(raws[i].item, p, i);
    assert At(disk, x);
    forall q | q in done && q in disk
      ensures HasKeys(entries[k := x], Raws(disk[q]))
    {
      KeysGrow(entries, Raws(disk[q]), k, x);
    }
    KeysGrow(entries, raws[..i], k, x);
    assert raws[..i + 1] == raws[..i] + [raws[i]];
  }

  lemma {:induction false} AllLoaded(disk: Disk, done: set<Path>, p: Path, entries: Entries)
    requires p in disk && PartlyLoaded(disk, done, p, |Raws(disk[p])|, entries)
    ensures Loaded(disk, done + {p}, entries)
  {
    assert Raws(disk[p])[..|Raws(disk[p])|] == Raws(disk[p]);
  }
}
