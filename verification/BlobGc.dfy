/** Garbage collection of blobs (server/internal/blob/gc.go) and the housekeeping pass
    that feeds it (server/cmd/copysyncd/main.go). */
module BlobGc {
  import opened Model
  import opened Disks
  import opened BlobStore
  import Gather
  import Fifo
  import QueueStore
  import Registry

  /** An unpinned entry whose file was last accessed too long ago. */
  predicate Overdue(meta: Meta, id: BlobId, now: int, ttl: int)
    requires id in meta
  {
    ttl > 0 && now - meta[id].lastAccess > ttl
  }

  /** An entry the first pass lets live. */
  predicate Survives(files: Files, meta: Meta, pins: set<BlobId>, now: int, ttl: int, id: BlobId)
    requires id in meta
  {
    id in pins || (id in files && !Overdue(meta, id, now, ttl))
  }

  /** The files the first pass deletes. */
  ghost function Aged(files: Files, meta: Meta, pins: set<BlobId>, now: int, ttl: int): set<BlobId> {
    set id | id in meta && id in files && !Survives(files, meta, pins, now, ttl, id)
  }

  ghost predicate Lists(order: seq<BlobId>, ids: set<BlobId>) {
    && (forall id :: id in order <==> id in ids)
    && (forall i, j :: 0 <= i < j < |order| ==> order[i] != order[j])
  }

  ghost predicate ByAccess(order: seq<BlobId>, meta: Meta)
    requires forall id :: id in order ==> id in meta
  {
    forall i, j :: 0 <= i < j < |order| ==> meta[order[i]].lastAccess <= meta[order[j]].lastAccess
  }

  /** The first `n` of `order`, as a set. */
  ghost function Ids(order: seq<BlobId>, n: nat): set<BlobId>
    requires n <= |order|
  {
    if n == 0 then {} else Ids(order, n - 1) + {order[n - 1]}
  }

  lemma {:induction false} IdsAre(order: seq<BlobId>, n: nat, id: BlobId)
    requires n <= |order|
    ensures id in Ids(order, n) <==> exists i :: 0 <= i < n && order[i] == id
  {
    if n > 0 {
      IdsAre(order, n - 1, id);
      if id == order[n - 1] {
        assert 0 <= n - 1 < n && order[n - 1] == id;
      }
    }
  }

  // ---- listing and sorting ----

  /** Least recently accessed first; ties in any order. */
  method SortByAccess(ids: set<BlobId>, meta: Meta) returns (order: seq<BlobId>)
    requires ids <= meta.Keys
    ensures Lists(order, ids) && ByAccess(order, meta)
  {
    order := [];
    var left := ids;
    while left != {}
      invariant left <= ids && Lists(order, ids - left)
      invariant forall id :: id in order ==> id in meta
      invariant ByAccess(order, meta)
      invariant forall i, id :: 0 <= i < |order| && id in left ==> meta[order[i]].lastAccess <= meta[id].lastAccess
      decreases |left|
    {
      var id := Oldest(left, meta);
      order := order + [id];
      left := left - {id};
    }
  }

  method Oldest(ids: set<BlobId>, meta: Meta) returns (id: BlobId)
    requires ids != {} && ids <= meta.Keys
    ensures id in ids && forall x :: x in ids ==> meta[id].lastAccess <= meta[x].lastAccess
  {
    id :| id in ids;
    var left := ids - {id};
    while left != {}
      invariant left <= ids && id in ids
      invariant forall x :: x in ids - left ==> meta[id].lastAccess <= meta[x].lastAccess
      decreases |left|
    {
      var x :| x in left;
      if meta[x].lastAccess < meta[id].lastAccess {
        id := x;
      }
      left := left - {x};
    }
  }

  // ---- the two passes ----

  /** `m'` is `m` without the keys in `gone`. */
  ghost predicate Lacks<V>(m': map<BlobId, V>, m: map<BlobId, V>, gone: set<BlobId>) {
    m' == m - gone
  }

  lemma LacksOneMore<V>(m': map<BlobId, V>, m: map<BlobId, V>, gone: set<BlobId>, id: BlobId)
    requires Lacks(m', m, gone)
    ensures Lacks(m' - {id}, m, gone + {id})
  {
  }

  lemma FewerFiles(files: Files, id: BlobId)
    requires id in files
    ensures |files - {id}| == |files| - 1
    ensures Usage(files) == |files[id]| + Usage(files - {id})
  {
    Gather.Shrinks(files, id);
    UsageSplit(files, id);
  }

  /** The records the first pass deletes. */
  ghost function Dead(files: Files, meta: Meta, pins: set<BlobId>, now: int, ttl: int): set<BlobId> {
    set id | id in meta && !Survives(files, meta, pins, now, ttl, id)
  }

  lemma WithoutOneLeft(a: set<BlobId>, left: set<BlobId>, id: BlobId)
    requires id in left
    ensures a - (left - {id}) == if id in a then (a - left) + {id} else a - left
  {
  }

  /** First pass, part way: the entries in `left` are still to come. */
  ghost predicate Expiring(files: Files, meta: Meta, aged: set<BlobId>, dead: set<BlobId>, left: set<BlobId>,
                           files': Files, meta': Meta, deleted: int) {
    Lacks(files', files, aged - left) && Lacks(meta', meta, dead - left) && deleted == |files| - |files'|
  }

  lemma ExpireOne(files: Files, meta: Meta, aged: set<BlobId>, dead: set<BlobId>, left: set<BlobId>,
                  files': Files, meta': Meta, deleted: int, id: BlobId)
    requires Expiring(files, meta, aged, dead, left, files', meta', deleted)
    requires id in left && aged <= files.Keys && aged <= dead
    ensures id !in dead ==> Expiring(files, meta, aged, dead, left - {id}, files', meta', deleted)
    ensures id in dead && id !in aged ==>
      Expiring(files, meta, aged, dead, left - {id}, files', meta' - {id}, deleted)
    ensures id in aged ==>
      Expiring(files, meta, aged, dead, left - {id}, files' - {id}, meta' - {id}, deleted + 1)
  {
    WithoutOneLeft(aged, left, id);
    WithoutOneLeft(dead, left, id);
    LacksOneMore(files', files, aged - left, id);
    LacksOneMore(meta', meta, dead - left, id);
    if id in aged {
      FewerFiles(files', id);
    }
  }

  lemma WhichFate(files: Files, meta: Meta, pins: set<BlobId>, now: int, ttl: int, id: BlobId)
    requires id in meta
    ensures id in Dead(files, meta, pins, now, ttl) <==> id !in pins && (id !in files || Overdue(meta, id, now, ttl))
    ensures id in Aged(files, meta, pins, now, ttl) <==> id !in pins && id in files && Overdue(meta, id, now, ttl)
    ensures Aged(files, meta, pins, now, ttl) <= Dead(files, meta, pins, now, ttl)
    ensures Aged(files, meta, pins, now, ttl) <= files.Keys
  {
  }

  datatype Fate = Keep | Forget | Expire

  function FateOf(files: Files, meta: Meta, pins: set<BlobId>, now: int, ttl: int, id: BlobId): Fate
    requires id in meta
  {
    if id in pins then Keep else if id !in files then Forget
    else if Overdue(meta, id, now, ttl) then Expire else Keep
  }

  lemma ExpireNext(files: Files, meta: Meta, pins: set<BlobId>, now: int, ttl: int, left: set<BlobId>,
                   files': Files, meta': Meta, deleted: int, id: BlobId)
    requires ExpirePassAt(files, meta, pins, now, ttl, left, files', meta', deleted)
    requires id in left && left <= meta.Keys
    ensures id in files' <==> id in files
    ensures var fate := FateOf(files, meta, pins, now, ttl, id);
      ExpirePassAt(files, meta, pins, now, ttl, left - {id},
                   if fate == Expire then files' - {id} else files',
                   if fate == Keep then meta' else meta' - {id},
                   if fate == Expire then deleted + 1 else deleted)
  {
    WhichFate(files, meta, pins, now, ttl, id);
    ExpireOne(files, meta, Aged(files, meta, pins, now, ttl), Dead(files, meta, pins, now, ttl), left,
              files', meta', deleted, id);
  }

  ghost predicate ExpirePassAt(files: Files, meta: Meta, pins: set<BlobId>, now: int, ttl: int, left: set<BlobId>,
                               files': Files, meta': Meta, deleted: int) {
    Expiring(files, meta, Aged(files, meta, pins, now, ttl), Dead(files, meta, pins, now, ttl), left,
             files', meta', deleted)
  }

  lemma ExpireBegins(files: Files, meta: Meta, pins: set<BlobId>, now: int, ttl: int)
    ensures ExpirePassAt(files, meta, pins, now, ttl, meta.Keys, files, meta, 0)
  {
    assert Aged(files, meta, pins, now, ttl) - meta.Keys == {};
    assert Dead(files, meta, pins, now, ttl) - meta.Keys == {};
  }

  lemma ExpireEnds(files: Files, meta: Meta, pins: set<BlobId>, now: int, ttl: int,
                   files': Files, meta': Meta, deleted: int)
    requires ExpirePassAt(files, meta, pins, now, ttl, {}, files', meta', deleted)
    ensures files' == files - Aged(files, meta, pins, now, ttl)
    ensures meta' == meta - Dead(files, meta, pins, now, ttl)
    ensures deleted == |files| - |files'|
  {
    assert Aged(files, meta, pins, now, ttl) - {} == Aged(files, meta, pins, now, ttl);
    assert Dead(files, meta, pins, now, ttl) - {} == Dead(files, meta, pins, now, ttl);
  }

  // ---- what a pass does to disk and records, whatever the ids look like ----

  ghost predicate SubMeta(m: Meta, meta: Meta) {
    forall id :: id in m ==> id in meta && m[id] == meta[id]
  }

  /** Blobs match their ids and lie where their ids lead, and nothing else does. */
  ghost predicate InPlace(at: Locate, disk: Disk) {
    ContentAddressed(disk.blobs) && Laid(at) && Separate(at, disk.others)
  }

  /** Some records are gone, none of them pinned, and the disk is as the deletions for
      `gone`, which are among them, leave it. */
  ghost predicate Swept(at: Locate, disk: Disk, meta: Meta, pins: set<BlobId>, gone: seq<BlobId>,
                        disk': Disk, meta': Meta) {
    && SubMeta(meta', meta)
    && (forall id :: id in pins && id in meta ==> id in meta')
    && disk' == AfterDeletes(at, disk, gone)
    && (forall id :: id in gone ==> id in meta && id !in pins && id !in meta' && at(id).Some?)
  }

  lemma SweepOne(at: Locate, disk: Disk, meta: Meta, pins: set<BlobId>, gone: seq<BlobId>, disk': Disk, meta': Meta,
                 id: BlobId)
    requires Swept(at, disk, meta, pins, gone, disk', meta') && id in meta' && id !in pins && at(id).Some?
    ensures Swept(at, disk, meta, pins, gone, disk', meta' - {id})
    ensures Swept(at, disk, meta, pins, gone + [id], Removed(at, disk', id), meta' - {id})
    ensures !Exists(at, disk', at(id).value) ==> Removed(at, disk', id) == disk'
  {
    DeleteOneMore(at, disk, gone, id);
    if !Exists(at, disk', at(id).value) {
      NothingToRemove(at, disk', id);
    }
  }

  /** Every unpinned id can be looked up, and nothing is found at those that are malformed. */
  ghost predicate Benign(at: Locate, disk: Disk, meta: Meta, pins: set<BlobId>) {
    forall id :: id in meta && id !in pins ==>
      at(id).Some? && (id.Malformed? ==> !Exists(at, disk, at(id).value))
  }

  /** Some unpinned id is too short to be looked up. */
  ghost predicate Unreadable(at: Locate, meta: Meta, pins: set<BlobId>) {
    exists id :: id in meta && id !in pins && at(id) == None
  }

  /** With benign ids, every lookup is about the blob itself. */
  lemma BenignLookup(at: Locate, disk: Disk, meta: Meta, pins: set<BlobId>, gone: seq<BlobId>, disk': Disk, meta': Meta,
                     id: BlobId)
    requires Swept(at, disk, meta, pins, gone, disk', meta') && Benign(at, disk, meta, pins) && InPlace(at, disk)
    requires id in meta && id !in pins
    ensures Exists(at, disk', at(id).value) <==> id in disk'.blobs
    ensures id in disk'.blobs ==>
      && Removed(at, disk', id).blobs == disk'.blobs - {id}
      && SizeAt(at, disk', at(id).value) == |disk'.blobs[id]|
  {
    DiskShrinks(at, disk, gone);
    SweptInPlace(at, disk, meta, pins, gone, disk', meta');
    if id.Sha256? {
      OwnLookup(at, disk', id);
    }
  }

  lemma OwnLookup(at: Locate, disk: Disk, id: BlobId)
    requires InPlace(at, disk) && id.Sha256?
    ensures Exists(at, disk, at(id).value) <==> id in disk.blobs
    ensures id in disk.blobs ==>
      && Removed(at, disk, id).blobs == disk.blobs - {id}
      && SizeAt(at, disk, at(id).value) == |disk.blobs[id]|
  {
  }

  lemma BenignSparesOthers(at: Locate, disk: Disk, meta: Meta, pins: set<BlobId>, gone: seq<BlobId>,
                           disk': Disk, meta': Meta)
    requires Swept(at, disk, meta, pins, gone, disk', meta') && Benign(at, disk, meta, pins) && InPlace(at, disk)
    ensures disk'.others == disk.others
  {
    forall k | 0 <= k < |gone| ensures HarmlessAt(at, disk, {}, gone, k) {
      assert gone[k] in gone;
    }
    HarmlessSpares(at, disk, {}, gone);
  }

  // ---- the first pass ----

  /** The entries of a listing for which the first pass deletes: unpinned and overdue. */
  function Doomed(meta: Meta, pins: set<BlobId>, now: int, ttl: int, listing: seq<BlobId>): seq<BlobId> {
    if listing == [] then [] else
      var last := listing[|listing| - 1];
      Doomed(meta, pins, now, ttl, listing[..|listing| - 1])
      + if last in meta && last !in pins && Overdue(meta, last, now, ttl) then [last] else []
  }

  /** The doomed entries of a listing, told by their access time. */
  lemma {:induction false} DoomedIff(meta: Meta, pins: set<BlobId>, now: int, ttl: int, listing: seq<BlobId>,
                                     id: BlobId)
    ensures id in Doomed(meta, pins, now, ttl, listing) <==>
      && id in listing && id in meta && id !in pins && ttl > 0 && now - meta[id].lastAccess > ttl
  {
    if listing != [] {
      var n := |listing| - 1;
      DoomedIff(meta, pins, now, ttl, listing[..n], id);
      assert listing == listing[..n] + [listing[n]];
    }
  }

  lemma DoomedOneMore(meta: Meta, pins: set<BlobId>, now: int, ttl: int, listing: seq<BlobId>, i: nat)
    requires i < |listing|
    ensures Doomed(meta, pins, now, ttl, listing[..i + 1]) == Doomed(meta, pins, now, ttl, listing[..i])
      + if listing[i] in meta && listing[i] !in pins && Overdue(meta, listing[i], now, ttl) then [listing[i]] else []
  {
    assert listing[..i + 1][..i] == listing[..i];
  }

  datatype Verdict = Spare | Unlist | Drop | Fail

  /** What the first pass does with one entry. */
  function VerdictOn(at: Locate, disk: Disk, pins: set<BlobId>, id: BlobId, overdue: bool): Verdict {
    if id in pins then Spare
    else if at(id) == None then Fail
    else if !Exists(at, disk, at(id).value) then Unlist
    else if overdue then Drop else Spare
  }

  method VisitEntry(fs: FsBlobStore, index: BlobIndex, pins: set<BlobId>, id: BlobId, overdue: bool)
    returns (v: Verdict)
    requires fs.Valid()
    modifies fs`files, fs`others, index
    ensures fs.Valid() && v == VerdictOn(fs.at, old(fs.View()), pins, id, overdue)
    ensures fs.View() == if v == Drop then Removed(fs.at, old(fs.View()), id) else old(fs.View())
    ensures index.entries == if v == Drop || v == Unlist then old(index.entries) - {id} else old(index.entries)
  {
    if id in pins {
      return Spare;
    }
    var found := fs.Has(id);
    if found == Crash {
      return Fail;
    }
    if found == Absent {
      index.entries := index.entries - {id};
      return Unlist;
    }
    if overdue {
      fs.Delete(id);
      index.entries := index.entries - {id};
      return Drop;
    }
    v := Spare;
  }

  /** First pass, part way: what holds for the entries already visited. */
  ghost predicate Visited(at: Locate, meta: Meta, pins: set<BlobId>, now: int, ttl: int, left: set<BlobId>,
                          meta': Meta) {
    forall id :: id in meta && id !in left && id !in pins ==>
      at(id).Some? && (id in meta' ==> !Overdue(meta, id, now, ttl))
  }

  /** First pass, part way. */
  ghost predicate Sweeping(at: Locate, disk: Disk, meta: Meta, pins: set<BlobId>, now: int, ttl: int, left: set<BlobId>,
                           gone: seq<BlobId>, disk': Disk, meta': Meta, deleted: int) {
    && left <= meta.Keys && left <= meta'.Keys
    && Swept(at, disk, meta, pins, gone, disk', meta')
    && Visited(at, meta, pins, now, ttl, left, meta')
    && (Benign(at, disk, meta, pins) ==>
         ExpirePassAt(disk.blobs, meta, pins, now, ttl, left, disk'.blobs, meta', deleted))
  }

  lemma SweepBegins(at: Locate, disk: Disk, meta: Meta, pins: set<BlobId>, now: int, ttl: int)
    ensures Sweeping(at, disk, meta, pins, now, ttl, meta.Keys, [], disk, meta, 0)
  {
    ExpireBegins(disk.blobs, meta, pins, now, ttl);
  }

  lemma VisitedOneMore(at: Locate, meta: Meta, pins: set<BlobId>, now: int, ttl: int, left: set<BlobId>, meta': Meta,
                       meta'': Meta, id: BlobId)
    requires Visited(at, meta, pins, now, ttl, left, meta') && meta''.Keys <= meta'.Keys
    requires id in meta && id !in pins ==> at(id).Some? && (id in meta'' ==> !Overdue(meta, id, now, ttl))
    ensures Visited(at, meta, pins, now, ttl, left - {id}, meta'')
  {
  }

  /** The verdict agrees with what the first pass is to do with a benign entry. */
  lemma VerdictIsFate(at: Locate, disk: Disk, meta: Meta, pins: set<BlobId>, now: int, ttl: int, left: set<BlobId>,
                      gone: seq<BlobId>, disk': Disk, meta': Meta, deleted: int, id: BlobId)
    requires InPlace(at, disk) && Benign(at, disk, meta, pins)
    requires Sweeping(at, disk, meta, pins, now, ttl, left, gone, disk', meta', deleted) && id in left
    ensures var v, fate := VerdictOn(at, disk', pins, id, Overdue(meta, id, now, ttl)),
                           FateOf(disk.blobs, meta, pins, now, ttl, id);
      && (v == Drop <==> fate == Expire) && (v == Unlist <==> fate == Forget)
      && (v == Drop ==> Removed(at, disk', id).blobs == disk'.blobs - {id})
  {
    StillStored(at, disk, meta, pins, now, ttl, left, gone, disk', meta', deleted, id);
    if id !in pins {
      assert at(id).Some?;
      BenignVerdict(at, disk, meta, pins, gone, disk', meta', now, ttl, id);
    }
  }

  lemma StillStored(at: Locate, disk: Disk, meta: Meta, pins: set<BlobId>, now: int, ttl: int, left: set<BlobId>,
                    gone: seq<BlobId>, disk': Disk, meta': Meta, deleted: int, id: BlobId)
    requires Benign(at, disk, meta, pins) && id in left
    requires Sweeping(at, disk, meta, pins, now, ttl, left, gone, disk', meta', deleted)
    ensures id in disk'.blobs <==> id in disk.blobs
  {
    ExpireNext(disk.blobs, meta, pins, now, ttl, left, disk'.blobs, meta', deleted, id);
  }

  lemma BenignVerdict(at: Locate, disk: Disk, meta: Meta, pins: set<BlobId>, gone: seq<BlobId>,
                      disk': Disk, meta': Meta, now: int, ttl: int, id: BlobId)
    requires Swept(at, disk, meta, pins, gone, disk', meta') && Benign(at, disk, meta, pins) && InPlace(at, disk)
    requires id in meta && id !in pins && at(id).Some? && (id in disk'.blobs <==> id in disk.blobs)
    ensures var v, fate := VerdictOn(at, disk', pins, id, Overdue(meta, id, now, ttl)),
                           FateOf(disk.blobs, meta, pins, now, ttl, id);
      && (v == Drop <==> fate == Expire) && (v == Unlist <==> fate == Forget)
      && (v == Drop ==> Removed(at, disk', id).blobs == disk'.blobs - {id})
  {
    BenignLookup(at, disk, meta, pins, gone, disk', meta', id);
  }

  /** Disk and records after one entry, and the deletions so far. */
  lemma VerdictSweeps(at: Locate, disk: Disk, meta: Meta, pins: set<BlobId>, gone: seq<BlobId>,
                      disk': Disk, meta': Meta, id: BlobId, overdue: bool)
    requires Swept(at, disk, meta, pins, gone, disk', meta') && id in meta'
    ensures var v := VerdictOn(at, disk', pins, id, overdue);
      v != Fail ==> Swept(at, disk, meta, pins, if id !in pins && overdue then gone + [id] else gone,
                          if v == Drop then Removed(at, disk', id) else disk',
                          if v == Drop || v == Unlist then meta' - {id} else meta')
  {
    if VerdictOn(at, disk', pins, id, overdue) != Fail && id !in pins {
      SweepOne(at, disk, meta, pins, gone, disk', meta', id);
    }
  }

  lemma SweepNext(at: Locate, disk: Disk, meta: Meta, pins: set<BlobId>, now: int, ttl: int, left: set<BlobId>,
                  gone: seq<BlobId>, disk': Disk, meta': Meta, deleted: int, id: BlobId)
    requires InPlace(at, disk)
    requires Sweeping(at, disk, meta, pins, now, ttl, left, gone, disk', meta', deleted) && id in left
    ensures var v := VerdictOn(at, disk', pins, id, Overdue(meta, id, now, ttl));
      v != Fail ==> Sweeping(at, disk, meta, pins, now, ttl, left - {id},
                             if id !in pins && Overdue(meta, id, now, ttl) then gone + [id] else gone,
                             if v == Drop then Removed(at, disk', id) else disk',
                             if v == Drop || v == Unlist then meta' - {id} else meta',
                             if v == Drop then deleted + 1 else deleted)
  {
    var v := VerdictOn(at, disk', pins, id, Overdue(meta, id, now, ttl));
    if v != Fail {
      VerdictSweeps(at, disk, meta, pins, gone, disk', meta', id, Overdue(meta, id, now, ttl));
      var meta'' := if v == Drop || v == Unlist then meta' - {id} else meta';
      VisitedOneMore(at, meta, pins, now, ttl, left, meta', meta'', id);
      if Benign(at, disk, meta, pins) {
        VerdictIsFate(at, disk, meta, pins, now, ttl, left, gone, disk', meta', deleted, id);
        ExpireNext(disk.blobs, meta, pins, now, ttl, left, disk'.blobs, meta', deleted, id);
      }
    }
  }

  /** What the listing has from position `i` on. */
  function Rest(listing: seq<BlobId>, i: int): set<BlobId> {
    set k | 0 <= k < |listing| && i <= k :: listing[k]
  }

  lemma RestNext(listing: seq<BlobId>, ids: set<BlobId>, i: nat)
    requires Lists(listing, ids) && i < |listing|
    ensures listing[i] in Rest(listing, i) && Rest(listing, i + 1) == Rest(listing, i) - {listing[i]}
  {
  }

  lemma RestAll(listing: seq<BlobId>, ids: set<BlobId>)
    requires Lists(listing, ids)
    ensures Rest(listing, 0) == ids && Rest(listing, |listing|) == {}
  {
    forall id ensures id in Rest(listing, 0) <==> id in ids {
      assert id in listing <==> id in ids;
    }
  }

  /** First pass, over the entries in the order in which they are listed: drop overdue
      blobs, and records whose file has vanished. An id too short to be looked up ends
      the process. */
  method ExpirePass(fs: FsBlobStore, index: BlobIndex, listing: seq<BlobId>, pins: set<BlobId>, now: int, ttl: int)
    returns (crashed: bool, deleted: nat, ghost gone: seq<BlobId>)
    requires fs.Valid() && Lists(listing, index.entries.Keys)
    modifies fs`files, fs`others, index
    ensures crashed <==> Unreadable(fs.at, old(index.entries), pins)
    ensures Swept(fs.at, old(fs.View()), old(index.entries), pins, gone, fs.View(), index.entries)
    ensures !crashed ==>
      && Visited(fs.at, old(index.entries), pins, now, ttl, {}, index.entries)
      && gone == Doomed(old(index.entries), pins, now, ttl, listing)
    ensures Benign(fs.at, old(fs.View()), old(index.entries), pins) ==>
      && Expired(old(fs.files), old(index.entries), pins, now, ttl, fs.files, index.entries)
      && deleted == |old(fs.files)| - |fs.files|
  {
    var entries := index.entries;
    ghost var disk := fs.View();
    ghost var holds := SweepHolds(fs.at, disk, entries, pins, now, ttl, listing);
    FirstPassBegins(fs.at, disk, entries, pins, now, ttl, listing);
    forall k, d, r, u ensures Turns(holds, fs.at, entries, listing, pins, now, ttl, k, d, r, u) {
      SweepTurns(fs.at, disk, entries, pins, now, ttl, listing, k, d, r, u);
    }
    var i;
    crashed, deleted, i := VisitAll(holds, fs, index, entries, listing, pins, now, ttl);
    gone := Doomed(entries, pins, now, ttl, listing[..i]);
    FirstPassEnds(fs.at, disk, entries, pins, now, ttl, listing, i, fs.View(), index.entries, deleted, crashed);
  }

  /** What holds throughout a pass: of its position, the disk, the records, and a count. */
  type Invariant = (int, Disk, Meta, int) -> bool

  /** If the invariant holds before a turn of the first pass that does not crash, it holds
      after it. */
  ghost predicate Turns(holds: Invariant, at: Locate, meta: Meta, listing: seq<BlobId>, pins: set<BlobId>, now: int,
                        ttl: int, i: int, d: Disk, r: Meta, deleted: int) {
    0 <= i < |listing| && listing[i] in meta && holds(i, d, r, deleted) ==>
      var id := listing[i];
      var v := VerdictOn(at, d, pins, id, Overdue(meta, id, now, ttl));
      v != Fail ==> holds(i + 1, if v == Drop then Removed(at, d, id) else d,
                          if v == Drop || v == Unlist then r - {id} else r,
                          if v == Drop then deleted + 1 else deleted)
  }

  ghost function SweepHolds(at: Locate, disk: Disk, meta: Meta, pins: set<BlobId>, now: int, ttl: int,
                            listing: seq<BlobId>): Invariant {
    (i, d, r, deleted) => 0 <= i <= |listing|
      && Sweeping(at, disk, meta, pins, now, ttl, Rest(listing, i), Doomed(meta, pins, now, ttl, listing[..i]),
                  d, r, deleted)
  }

  lemma SweepTurn(at: Locate, disk: Disk, meta: Meta, pins: set<BlobId>, now: int, ttl: int, listing: seq<BlobId>,
                  i: nat, d: Disk, r: Meta, deleted: int)
    requires InPlace(at, disk) && Lists(listing, meta.Keys) && i < |listing| && listing[i] in meta
    requires Sweeping(at, disk, meta, pins, now, ttl, Rest(listing, i), Doomed(meta, pins, now, ttl, listing[..i]),
                      d, r, deleted)
    ensures var id := listing[i]; var v := VerdictOn(at, d, pins, id, Overdue(meta, id, now, ttl));
      v != Fail ==>
        Sweeping(at, disk, meta, pins, now, ttl, Rest(listing, i + 1), Doomed(meta, pins, now, ttl, listing[..i + 1]),
                 if v == Drop then Removed(at, d, id) else d,
                 if v == Drop || v == Unlist then r - {id} else r,
                 if v == Drop then deleted + 1 else deleted)
  {
    RestNext(listing, meta.Keys, i);
    DoomedOneMore(meta, pins, now, ttl, listing, i);
    var gone := Doomed(meta, pins, now, ttl, listing[..i]);
    assert gone + [] == gone;
    SweepNext(at, disk, meta, pins, now, ttl, Rest(listing, i), gone, d, r, deleted, listing[i]);
  }

  lemma SweepTurns(at: Locate, disk: Disk, meta: Meta, pins: set<BlobId>, now: int, ttl: int, listing: seq<BlobId>,
                   i: int, d: Disk, r: Meta, deleted: int)
    requires InPlace(at, disk) && Lists(listing, meta.Keys)
    ensures Turns(SweepHolds(at, disk, meta, pins, now, ttl, listing), at, meta, listing, pins, now, ttl,
                  i, d, r, deleted)
  {
    var holds := SweepHolds(at, disk, meta, pins, now, ttl, listing);
    if 0 <= i < |listing| && listing[i] in meta && holds(i, d, r, deleted) {
      SweepTurn(at, disk, meta, pins, now, ttl, listing, i, d, r, deleted);
    }
  }

  lemma FirstPassBegins(at: Locate, disk: Disk, meta: Meta, pins: set<BlobId>, now: int, ttl: int,
                        listing: seq<BlobId>)
    requires Lists(listing, meta.Keys)
    ensures SweepHolds(at, disk, meta, pins, now, ttl, listing)(0, disk, meta, 0)
  {
    RestAll(listing, meta.Keys);
    SweepBegins(at, disk, meta, pins, now, ttl);
    assert listing[..0] == [];
  }

  /** Look at the listed entries one by one, until the end or a crash. */
  method VisitAll(ghost holds: Invariant, fs: FsBlobStore, index: BlobIndex, entries: Meta, listing: seq<BlobId>,
                  pins: set<BlobId>, now: int, ttl: int) returns (crashed: bool, deleted: nat, i: nat)
    requires fs.Valid() && Lists(listing, entries.Keys) && holds(0, fs.View(), index.entries, 0)
    requires forall k, d, r, u :: Turns(holds, fs.at, entries, listing, pins, now, ttl, k, d, r, u)
    modifies fs`files, fs`others, index
    ensures fs.Valid() && i <= |listing| && holds(i, fs.View(), index.entries, deleted)
    ensures crashed ==> i < |listing| && listing[i] !in pins && fs.at(listing[i]) == None
    ensures !crashed ==> i == |listing|
  {
    crashed, deleted, i := false, 0, 0;
    while i < |listing|
      invariant i <= |listing| && fs.Valid() && holds(i, fs.View(), index.entries, deleted)
    {
      var id := listing[i];
      assert id in listing;
      assert Turns(holds, fs.at, entries, listing, pins, now, ttl, i, fs.View(), index.entries, deleted);
      var v := VisitEntry(fs, index, pins, id, ttl > 0 && now - entries[id].lastAccess > ttl);
      if v == Fail {
        return true, deleted, i;
      }
      if v == Drop {
        deleted := deleted + 1;
      }
      i := i + 1;
    }
  }

  lemma FirstPassEnds(at: Locate, disk: Disk, meta: Meta, pins: set<BlobId>, now: int, ttl: int, listing: seq<BlobId>,
                      i: nat, disk': Disk, meta': Meta, deleted: int, crashed: bool)
    requires Lists(listing, meta.Keys) && i <= |listing|
    requires SweepHolds(at, disk, meta, pins, now, ttl, listing)(i, disk', meta', deleted)
    requires crashed ==> i < |listing| && listing[i] !in pins && at(listing[i]) == None
    requires !crashed ==> i == |listing|
    ensures var gone := Doomed(meta, pins, now, ttl, listing[..i]);
      && (crashed <==> Unreadable(at, meta, pins))
      && Swept(at, disk, meta, pins, gone, disk', meta')
      && (!crashed ==> Visited(at, meta, pins, now, ttl, {}, meta') && gone == Doomed(meta, pins, now, ttl, listing))
      && (Benign(at, disk, meta, pins) ==>
           Expired(disk.blobs, meta, pins, now, ttl, disk'.blobs, meta') && deleted == |disk.blobs| - |disk'.blobs|)
  {
    if crashed {
      assert listing[i] in listing;
      assert listing[i] in meta && Unreadable(at, meta, pins);
    } else {
      RestAll(listing, meta.Keys);
      assert listing[..i] == listing;
      SweepEnds(at, disk, meta, pins, now, ttl, Doomed(meta, pins, now, ttl, listing), disk', meta', deleted);
    }
  }

  lemma SweptInPlace(at: Locate, disk: Disk, meta: Meta, pins: set<BlobId>, gone: seq<BlobId>, disk': Disk, meta': Meta)
    requires InPlace(at, disk) && Swept(at, disk, meta, pins, gone, disk', meta')
    ensures InPlace(at, disk')
  {
    DiskShrinks(at, disk, gone);
  }

  lemma SweepEnds(at: Locate, disk: Disk, meta: Meta, pins: set<BlobId>, now: int, ttl: int, gone: seq<BlobId>,
                  disk': Disk, meta': Meta, deleted: int)
    requires Sweeping(at, disk, meta, pins, now, ttl, {}, gone, disk', meta', deleted)
    ensures Swept(at, disk, meta, pins, gone, disk', meta') && Visited(at, meta, pins, now, ttl, {}, meta')
    ensures !Unreadable(at, meta, pins)
    ensures Benign(at, disk, meta, pins) ==>
      Expired(disk.blobs, meta, pins, now, ttl, disk'.blobs, meta') && deleted == |disk.blobs| - |disk'.blobs|
  {
    if Benign(at, disk, meta, pins) {
      ExpireEnds(disk.blobs, meta, pins, now, ttl, disk'.blobs, meta', deleted);
    }
  }

  // ---- the second pass ----

  lemma NotYet(order: seq<BlobId>, ids: set<BlobId>, n: nat)
    requires Lists(order, ids) && n < |order|
    ensures order[n] in ids && order[n] !in Ids(order, n)
  {
    IdsAre(order, n, order[n]);
  }

  /** Second pass, part way: the first `n` of `order` are gone, the last of them while
      usage was still over the cap. */
  ghost predicate Evicted(files: Files, meta: Meta, order: seq<BlobId>, cap: int, n: nat, files': Files, meta': Meta) {
    && n <= |order|
    && Lacks(files', files, Ids(order, n)) && Lacks(meta', meta, Ids(order, n))
    && |files'| == |files| - n
    && (n > 0 ==> order[n - 1] in files && Usage(files') + |files[order[n - 1]]| > cap)
  }

  lemma EvictOne(files: Files, meta: Meta, order: seq<BlobId>, ids: set<BlobId>, cap: int, n: nat,
                 files': Files, meta': Meta)
    requires Evicted(files, meta, order, cap, n, files', meta') && n < |order|
    requires Lists(order, ids) && ids <= files.Keys && ids <= meta.Keys && Usage(files') > cap
    ensures order[n] in files' && files'[order[n]] == files[order[n]] && order[n] in meta
    ensures Evicted(files, meta, order, cap, n + 1, files' - {order[n]}, meta' - {order[n]})
    ensures Usage(files') == |files[order[n]]| + Usage(files' - {order[n]})
  {
    NotYet(order, ids, n);
    FewerFiles(files', order[n]);
    LacksOneMore(files', files, Ids(order, n), order[n]);
    LacksOneMore(meta', meta, Ids(order, n), order[n]);
  }

  /** `order` lists the unpinned entries, all of which have files and true sizes. */
  ghost predicate Evictable(files: Files, meta: Meta, pins: set<BlobId>, order: seq<BlobId>) {
    && ContentAddressed(files) && SizesTrue(meta) && meta.Keys - pins <= files.Keys
    && Lists(order, meta.Keys - pins)
  }

  lemma CapNext(files: Files, meta: Meta, pins: set<BlobId>, order: seq<BlobId>, cap: int, n: nat,
                files': Files, meta': Meta)
    requires Evictable(files, meta, pins, order)
    requires Evicted(files, meta, order, cap, n, files', meta') && n < |order| && Usage(files') > cap
    ensures order[n] in meta && order[n] in files'
    ensures Evicted(files, meta, order, cap, n + 1, files' - {order[n]}, meta' - {order[n]})
    ensures Usage(files' - {order[n]}) ==
      Usage(files') - if meta[order[n]].size == 0 then |files'[order[n]]| else meta[order[n]].size
  {
    EvictOne(files, meta, order, meta.Keys - pins, cap, n, files', meta');
  }

  /** The second pass may begin: `order` lists the unpinned entries, all of which can be
      looked up and, if benign, have files and true sizes. */
  ghost predicate CapReady(at: Locate, disk: Disk, meta: Meta, pins: set<BlobId>, f: Files, m: Meta,
                           order: seq<BlobId>) {
    && InPlace(at, disk) && SubMeta(m, meta) && Lists(order, m.Keys - pins)
    && (forall i :: 0 <= i < |order| ==> at(order[i]).Some?)
    && (Benign(at, disk, meta, pins) ==> Evictable(f, m, pins, order))
  }

  /** Second pass, part way. `gone0`, `f` and `m` are deletions, blobs and records before it. */
  ghost predicate Squeezing(at: Locate, disk: Disk, meta: Meta, pins: set<BlobId>, gone0: seq<BlobId>, f: Files,
                            m: Meta, order: seq<BlobId>, cap: int, n: nat, disk': Disk, meta': Meta, usage: int) {
    && n <= |order| && Lacks(meta', m, Ids(order, n))
    && Swept(at, disk, meta, pins, gone0 + order[..n], disk', meta')
    && (Benign(at, disk, meta, pins) ==>
         Evicted(f, m, order, cap, n, disk'.blobs, meta') && usage == Usage(disk'.blobs))
  }

  lemma SqueezeEnds(at: Locate, disk: Disk, meta: Meta, pins: set<BlobId>, gone0: seq<BlobId>, f: Files, m: Meta,
                    order: seq<BlobId>, cap: int, n: nat, disk': Disk, meta': Meta, usage: int)
    requires Squeezing(at, disk, meta, pins, gone0, f, m, order, cap, n, disk', meta', usage)
    requires n == |order| || usage <= cap
    ensures meta' == m - Ids(order, n) && Swept(at, disk, meta, pins, gone0 + order[..n], disk', meta')
    ensures Benign(at, disk, meta, pins) ==>
      Evicted(f, m, order, cap, n, disk'.blobs, meta') && (Usage(disk'.blobs) <= cap || n == |order|)
  {
  }

  /** The size the second pass subtracts for an entry. */
  ghost function Charge(at: Locate, disk: Disk, e: Entry, id: BlobId): nat {
    if e.size == 0 && at(id).Some? && Exists(at, disk, at(id).value) then SizeAt(at, disk, at(id).value) else e.size
  }

  lemma SqueezeSwept(at: Locate, disk: Disk, meta: Meta, pins: set<BlobId>, gone0: seq<BlobId>, order: seq<BlobId>,
                     n: nat, disk': Disk, meta': Meta)
    requires n < |order| && Swept(at, disk, meta, pins, gone0 + order[..n], disk', meta')
    requires order[n] in meta' && order[n] !in pins && at(order[n]).Some?
    ensures Swept(at, disk, meta, pins, gone0 + order[..n + 1], Removed(at, disk', order[n]), meta' - {order[n]})
  {
    SweepOne(at, disk, meta, pins, gone0 + order[..n], disk', meta', order[n]);
    assert gone0 + order[..n] + [order[n]] == gone0 + order[..n + 1];
  }

  lemma SqueezeNext(at: Locate, disk: Disk, meta: Meta, pins: set<BlobId>, gone0: seq<BlobId>, f: Files, m: Meta,
                    order: seq<BlobId>, cap: int, n: nat, disk': Disk, meta': Meta, usage: int)
    requires Squeezing(at, disk, meta, pins, gone0, f, m, order, cap, n, disk', meta', usage)
    requires n < |order| && usage > cap && CapReady(at, disk, meta, pins, f, m, order)
    ensures order[n] in m && order[n] !in pins
    ensures Squeezing(at, disk, meta, pins, gone0, f, m, order, cap, n + 1, Removed(at, disk', order[n]),
                      meta' - {order[n]}, usage - Charge(at, disk', m[order[n]], order[n]))
  {
    var id := order[n];
    NotYet(order, m.Keys - pins, n);
    LacksOneMore(meta', m, Ids(order, n), id);
    SqueezeSwept(at, disk, meta, pins, gone0, order, n, disk', meta');
    if Benign(at, disk, meta, pins) {
      CapNext(f, m, pins, order, cap, n, disk'.blobs, meta');
      BenignLookup(at, disk, meta, pins, gone0 + order[..n], disk', meta', id);
    }
  }

  method EvictEntry(fs: FsBlobStore, index: BlobIndex, id: BlobId, e: Entry) returns (size: nat)
    requires fs.Valid() && fs.at(id).Some?
    modifies fs`files, fs`others, index
    ensures fs.Valid() && size == Charge(fs.at, old(fs.View()), e, id)
    ensures fs.View() == Removed(fs.at, old(fs.View()), id)
    ensures index.entries == old(index.entries) - {id}
  {
    size := e.size;
    if size == 0 {
      var found := fs.Has(id);
      if found.Present? {
        size := found.size;
      }
    }
    fs.Delete(id);
    index.entries := index.entries - {id};
  }

  /** Second pass: while over the cap, evict in the given order; `n` says how many went. */
  method CapPass(fs: FsBlobStore, index: BlobIndex, ghost disk: Disk, ghost meta: Meta, ghost pins: set<BlobId>,
                 ghost gone0: seq<BlobId>, order: seq<BlobId>, cap: int, usage0: int) returns (n: nat)
    requires fs.Valid() && usage0 == Usage(fs.files)
    requires Swept(fs.at, disk, meta, pins, gone0, fs.View(), index.entries)
    requires CapReady(fs.at, disk, meta, pins, fs.files, index.entries, order)
    modifies fs`files, fs`others, index
    ensures n <= |order| && index.entries == old(index.entries) - Ids(order, n)
    ensures Swept(fs.at, disk, meta, pins, gone0 + order[..n], fs.View(), index.entries)
    ensures Benign(fs.at, disk, meta, pins) ==>
      && Evicted(old(fs.files), old(index.entries), order, cap, n, fs.files, index.entries)
      && (Usage(fs.files) <= cap || n == |order|)
  {
    var m := index.entries;
    ghost var f := fs.files;
    ghost var holds := SqueezeHolds(fs.at, disk, meta, pins, gone0, f, m, order, cap);
    SqueezeBegins(fs.at, disk, meta, pins, gone0, m, order, cap, fs.View(), usage0);
    forall k, d, r, u ensures Advances(holds, fs.at, m, order, cap, k, d, r, u) {
      SqueezeAdvances(fs.at, disk, meta, pins, gone0, f, m, order, cap, k, d, r, u);
    }
    var usage;
    n, usage := SqueezeAll(holds, fs, index, m, order, cap, usage0);
    SqueezeEnds(fs.at, disk, meta, pins, gone0, f, m, order, cap, n, fs.View(), index.entries, usage);
  }

  /** If the invariant holds before a turn of the second pass, it holds after it. */
  ghost predicate Advances(holds: Invariant, at: Locate, m: Meta, order: seq<BlobId>, cap: int,
                           n: int, d: Disk, r: Meta, usage: int) {
    0 <= n < |order| && usage > cap && holds(n, d, r, usage) ==>
      && order[n] in m && at(order[n]).Some?
      && holds(n + 1, Removed(at, d, order[n]), r - {order[n]}, usage - Charge(at, d, m[order[n]], order[n]))
  }

  ghost function SqueezeHolds(at: Locate, disk: Disk, meta: Meta, pins: set<BlobId>, gone0: seq<BlobId>, f: Files,
                              m: Meta, order: seq<BlobId>, cap: int): Invariant {
    (n, d, r, usage) => n >= 0 && Squeezing(at, disk, meta, pins, gone0, f, m, order, cap, n, d, r, usage)
  }

  lemma SqueezeAdvances(at: Locate, disk: Disk, meta: Meta, pins: set<BlobId>, gone0: seq<BlobId>, f: Files, m: Meta,
                        order: seq<BlobId>, cap: int, n: int, d: Disk, r: Meta, usage: int)
    requires CapReady(at, disk, meta, pins, f, m, order)
    ensures Advances(SqueezeHolds(at, disk, meta, pins, gone0, f, m, order, cap), at, m, order, cap, n, d, r, usage)
  {
    if 0 <= n < |order| {
      InOrder(at, disk, meta, pins, f, m, order, n);
      SqueezeStep(at, disk, meta, pins, gone0, f, m, order, cap, n, d, r, usage);
    }
  }

  lemma InOrder(at: Locate, disk: Disk, meta: Meta, pins: set<BlobId>, f: Files, m: Meta, order: seq<BlobId>, n: nat)
    requires CapReady(at, disk, meta, pins, f, m, order) && n < |order|
    ensures order[n] in m && order[n] !in pins && at(order[n]).Some?
  {
    assert order[n] in order;
  }

  lemma SqueezeStep(at: Locate, disk: Disk, meta: Meta, pins: set<BlobId>, gone0: seq<BlobId>, f: Files, m: Meta,
                    order: seq<BlobId>, cap: int, n: nat, d: Disk, r: Meta, usage: int)
    requires CapReady(at, disk, meta, pins, f, m, order) && n < |order| && order[n] in m
    ensures usage > cap && Squeezing(at, disk, meta, pins, gone0, f, m, order, cap, n, d, r, usage) ==>
      Squeezing(at, disk, meta, pins, gone0, f, m, order, cap, n + 1, Removed(at, d, order[n]),
                r - {order[n]}, usage - Charge(at, d, m[order[n]], order[n]))
  {
    if usage > cap && Squeezing(at, disk, meta, pins, gone0, f, m, order, cap, n, d, r, usage) {
      SqueezeNext(at, disk, meta, pins, gone0, f, m, order, cap, n, d, r, usage);
    }
  }

  method SqueezeAll(ghost holds: Invariant, fs: FsBlobStore, index: BlobIndex, m: Meta, order: seq<BlobId>, cap: int,
                    usage0: int) returns (n: nat, usage: int)
    requires fs.Valid() && holds(0, fs.View(), index.entries, usage0)
    requires forall k, d, r, u :: Advances(holds, fs.at, m, order, cap, k, d, r, u)
    modifies fs`files, fs`others, index
    ensures n <= |order| && (n == |order| || usage <= cap) && holds(n, fs.View(), index.entries, usage)
  {
    n, usage := 0, usage0;
    while n < |order| && usage > cap
      invariant n <= |order| && fs.Valid() && holds(n, fs.View(), index.entries, usage)
    {
      assert Advances(holds, fs.at, m, order, cap, n, fs.View(), index.entries, usage);
      var size := EvictEntry(fs, index, order[n], m[order[n]]);
      usage := usage - size;
      n := n + 1;
    }
  }

  lemma NoneEvicted(f: Files, m: Meta, order: seq<BlobId>, cap: int)
    ensures Lacks(m, m, Ids(order, 0)) && Evicted(f, m, order, cap, 0, f, m)
  {
    assert m - {} == m && f - {} == f;
  }

  lemma SqueezeBegins(at: Locate, disk: Disk, meta: Meta, pins: set<BlobId>, gone0: seq<BlobId>, m: Meta,
                      order: seq<BlobId>, cap: int, disk': Disk, usage: int)
    requires Swept(at, disk, meta, pins, gone0, disk', m) && usage == Usage(disk'.blobs)
    ensures Squeezing(at, disk, meta, pins, gone0, disk'.blobs, m, order, cap, 0, disk', m, usage)
  {
    assert gone0 + order[..0] == gone0;
    NoneEvicted(disk'.blobs, m, order, cap);
  }

  // ---- what a collection does ----

  /** Entries that met every condition of the first pass and still had to go. */
  ghost function Squeezed(files: Files, meta: Meta, pins: set<BlobId>, now: int, ttl: int, meta': Meta): set<BlobId> {
    set id | id in meta && id !in pins && id in files && !Overdue(meta, id, now, ttl) && id !in meta'
  }

  /** Only listed, unpinned blobs are ever removed, bytes and record together. */
  ghost predicate OnlyRemoves(files: Files, meta: Meta, pins: set<BlobId>, files': Files, meta': Meta) {
    && (forall id :: id in files' ==> id in files && files'[id] == files[id])
    && (forall id :: id in meta' ==> id in meta && meta'[id] == meta[id])
    && (forall id :: id in pins && id in meta ==> id in meta')
    && (forall id :: id in files && (id in pins || id !in meta) ==> id in files')
    && (forall id :: id in files && id in meta ==> (id in files' <==> id in meta'))
  }

  /** What is left over is pinned, or has a file that was accessed recently enough. */
  ghost predicate NoneOverdue(meta: Meta, pins: set<BlobId>, now: int, ttl: int, files': Files, meta': Meta) {
    forall id :: id in meta' && id !in pins ==> id in meta && id in files' && !Overdue(meta, id, now, ttl)
  }

  ghost predicate MostRecent(ids: set<BlobId>, meta: Meta, x: BlobId) {
    forall y :: y in ids ==> x in meta && y in meta && meta[y].lastAccess <= meta[x].lastAccess
  }

  /** Nothing that stayed unpinned was accessed before anything that went. */
  ghost predicate LeastRecent(meta: Meta, out: set<BlobId>, pins: set<BlobId>, meta': Meta) {
    forall x, y :: x in out && y in meta' && y !in pins ==>
      x in meta && y in meta && meta[x].lastAccess <= meta[y].lastAccess
  }

  /** Giving the last one back would have exceeded the cap. */
  ghost predicate Minimal(files: Files, meta: Meta, out: set<BlobId>, cap: int, files': Files) {
    out != {} ==> cap > 0 && exists x ::
      (x in out && MostRecent(out, meta, x) && x in files && Usage(files') + |files[x]| > cap)
  }

  /** The squeezed entries are the least recently accessed ones, and one fewer would not
      have done. */
  ghost predicate LeastRecentAndMinimal(files: Files, meta: Meta, pins: set<BlobId>, now: int, ttl: int, cap: int,
                                        files': Files, meta': Meta) {
    && LeastRecent(meta, Squeezed(files, meta, pins, now, ttl, meta'), pins, meta')
    && Minimal(files, meta, Squeezed(files, meta, pins, now, ttl, meta'), cap, files')
  }

  lemma ExpiredOnly(files: Files, meta: Meta, pins: set<BlobId>, now: int, ttl: int)
    ensures var f, m := files - Aged(files, meta, pins, now, ttl), meta - Dead(files, meta, pins, now, ttl);
      && OnlyRemoves(files, meta, pins, f, m)
      && NoneOverdue(meta, pins, now, ttl, f, m)
      && Squeezed(files, meta, pins, now, ttl, m) == {}
      && m.Keys - pins <= f.Keys
  {
  }

  lemma ThenRemoved(files: Files, meta: Meta, pins: set<BlobId>, f: Files, m: Meta, gone: set<BlobId>)
    requires OnlyRemoves(files, meta, pins, f, m) && gone <= m.Keys - pins
    ensures OnlyRemoves(files, meta, pins, f - gone, m - gone)
  {
  }

  lemma StillNoneOverdue(meta: Meta, pins: set<BlobId>, now: int, ttl: int, f: Files, m: Meta, gone: set<BlobId>)
    requires NoneOverdue(meta, pins, now, ttl, f, m)
    ensures NoneOverdue(meta, pins, now, ttl, f - gone, m - gone)
  {
  }

  /** What the second pass evicts is what is squeezed out. */
  lemma SqueezedAre(files: Files, meta: Meta, pins: set<BlobId>, now: int, ttl: int, f: Files, m: Meta,
                    gone: set<BlobId>)
    requires OnlyRemoves(files, meta, pins, f, m) && NoneOverdue(meta, pins, now, ttl, f, m)
    requires Squeezed(files, meta, pins, now, ttl, m) == {} && gone <= m.Keys - pins
    ensures Squeezed(files, meta, pins, now, ttl, m - gone) == gone
  {
    forall id | id in Squeezed(files, meta, pins, now, ttl, m - gone) ensures id in gone {
      assert id !in Squeezed(files, meta, pins, now, ttl, m);
    }
  }

  /** A prefix of a list sorted by access is least recently accessed. */
  lemma PrefixIsLeastRecent(meta: Meta, order: seq<BlobId>, ids: set<BlobId>, n: nat, x: BlobId, y: BlobId)
    requires Lists(order, ids) && ids <= meta.Keys && ByAccess(order, meta) && n <= |order|
    requires x in Ids(order, n) && y in ids && y !in Ids(order, n)
    ensures x in meta && meta[x].lastAccess <= meta[y].lastAccess
  {
    IdsAre(order, n, x);
    var i :| 0 <= i < n && order[i] == x;
    var j :| 0 <= j < |order| && order[j] == y;
    IdsAre(order, n, y);
    assert j >= n;
  }

  lemma PrefixLast(meta: Meta, order: seq<BlobId>, ids: set<BlobId>, n: nat, y: BlobId)
    requires Lists(order, ids) && ids <= meta.Keys && ByAccess(order, meta) && 0 < n <= |order| && y in Ids(order, n)
    ensures order[n - 1] in ids && y in meta && meta[y].lastAccess <= meta[order[n - 1]].lastAccess
  {
    IdsAre(order, n, y);
    var i :| 0 <= i < n && order[i] == y;
    assert y in order && order[n - 1] in order;
  }

  lemma PrefixWithin(order: seq<BlobId>, ids: set<BlobId>, n: nat)
    requires Lists(order, ids) && n <= |order|
    ensures Ids(order, n) <= ids
    ensures n == |order| ==> Ids(order, n) == ids
    ensures n == 0 <==> Ids(order, n) == {}
  {
    forall id ensures id in Ids(order, n) <==> exists i :: 0 <= i < n && order[i] == id {
      IdsAre(order, n, id);
    }
    if n > 0 {
      assert order[n - 1] in Ids(order, n);
    }
  }

  lemma PrefixLeastRecent(meta: Meta, m: Meta, pins: set<BlobId>, order: seq<BlobId>, n: nat)
    requires SubMeta(m, meta) && n <= |order|
    requires Lists(order, m.Keys - pins) && ByAccess(order, m)
    ensures LeastRecent(meta, Ids(order, n), pins, m - Ids(order, n))
  {
    var gone := Ids(order, n);
    forall x, y | x in gone && y in m - gone && y !in pins
      ensures x in meta && y in meta && meta[x].lastAccess <= meta[y].lastAccess
    {
      PrefixIsLeastRecent(m, order, m.Keys - pins, n, x, y);
    }
  }

  lemma PrefixMinimal(files: Files, meta: Meta, f: Files, m: Meta, pins: set<BlobId>, cap: int,
                      order: seq<BlobId>, n: nat, files': Files, meta': Meta)
    requires SubMeta(m, meta) && (forall id :: id in f ==> id in files && f[id] == files[id])
    requires Lists(order, m.Keys - pins) && ByAccess(order, m) && cap > 0
    requires Evicted(f, m, order, cap, n, files', meta')
    ensures Minimal(files, meta, Ids(order, n), cap, files')
  {
    PrefixWithin(order, m.Keys - pins, n);
    if n > 0 {
      var gone, x := Ids(order, n), order[n - 1];
      assert x in gone;
      assert MostRecent(gone, meta, x) by {
        forall y | y in gone ensures x in meta && y in meta && meta[y].lastAccess <= meta[x].lastAccess {
          PrefixLast(m, order, m.Keys - pins, n, y);
        }
      }
    }
  }

  lemma CapResult(files: Files, meta: Meta, pins: set<BlobId>, now: int, ttl: int, cap: int,
                  f: Files, m: Meta, order: seq<BlobId>, n: nat, files': Files, meta': Meta)
    requires OnlyRemoves(files, meta, pins, f, m) && NoneOverdue(meta, pins, now, ttl, f, m)
    requires Squeezed(files, meta, pins, now, ttl, m) == {}
    requires Lists(order, m.Keys - pins) && ByAccess(order, m) && cap > 0
    requires Evicted(f, m, order, cap, n, files', meta')
    ensures LeastRecentAndMinimal(files, meta, pins, now, ttl, cap, files', meta')
  {
    PrefixLeastRecent(meta, m, pins, order, n);
    PrefixMinimal(files, meta, f, m, pins, cap, order, n, files', meta');
    assert Squeezed(files, meta, pins, now, ttl, meta') == Ids(order, n) by {
      PrefixWithin(order, m.Keys - pins, n);
      SqueezedAre(files, meta, pins, now, ttl, f, m, Ids(order, n));
    }
  }

  /** The whole effect of one collection. */
  ghost predicate Collected(files: Files, meta: Meta, pins: set<BlobId>, now: int, ttl: int, cap: int,
                            files': Files, meta': Meta, deleted: int) {
    && OnlyRemoves(files, meta, pins, files', meta')
    && NoneOverdue(meta, pins, now, ttl, files', meta')
    && LeastRecentAndMinimal(files, meta, pins, now, ttl, cap, files', meta')
    && (cap > 0 ==> Usage(files') <= cap || meta'.Keys <= pins)
    && deleted == |files| - |files'|
  }

  lemma WithinCap(m: Meta, pins: set<BlobId>, order: seq<BlobId>, cap: int, n: nat, f: Files,
                  files': Files, meta': Meta)
    requires Lists(order, m.Keys - pins) && Evicted(f, m, order, cap, n, files', meta')
    requires Usage(files') <= cap || n == |order|
    ensures Usage(files') <= cap || meta'.Keys <= pins
  {
    PrefixWithin(order, m.Keys - pins, n);
  }

  lemma AfterBoth(files: Files, meta: Meta, pins: set<BlobId>, now: int, ttl: int, cap: int,
                  f: Files, m: Meta, order: seq<BlobId>, n: nat, files': Files, meta': Meta)
    requires OnlyRemoves(files, meta, pins, f, m) && NoneOverdue(meta, pins, now, ttl, f, m)
    requires Squeezed(files, meta, pins, now, ttl, m) == {} && cap > 0
    requires Lists(order, m.Keys - pins) && ByAccess(order, m)
    requires Evicted(f, m, order, cap, n, files', meta')
    requires Usage(files') <= cap || n == |order|
    ensures Collected(files, meta, pins, now, ttl, cap, files', meta', |files| - |files'|)
  {
    PrefixWithin(order, m.Keys - pins, n);
    ThenRemoved(files, meta, pins, f, m, Ids(order, n));
    StillNoneOverdue(meta, pins, now, ttl, f, m, Ids(order, n));
    CapResult(files, meta, pins, now, ttl, cap, f, m, order, n, files', meta');
    WithinCap(m, pins, order, cap, n, f, files', meta');
  }

  lemma AfterOne(files: Files, meta: Meta, pins: set<BlobId>, now: int, ttl: int, cap: int, f: Files, m: Meta)
    requires OnlyRemoves(files, meta, pins, f, m) && NoneOverdue(meta, pins, now, ttl, f, m)
    requires Squeezed(files, meta, pins, now, ttl, m) == {} && (cap > 0 ==> Usage(f) <= cap)
    ensures Collected(files, meta, pins, now, ttl, cap, f, m, |files| - |f|)
  {
  }

  /** What one pass does, whatever ids are recorded: `gone` are its deletions in turn,
      first the doomed entries as listed, then the evicted ones, none of them overdue. */
  ghost predicate Passed(at: Locate, disk: Disk, meta: Meta, pins: set<BlobId>, now: int, ttl: int,
                         listing: seq<BlobId>, gone: seq<BlobId>, disk': Disk, meta': Meta, crashed: bool) {
    && (crashed <==> Unreadable(at, meta, pins))
    && Swept(at, disk, meta, pins, gone, disk', meta')
    && (!crashed ==>
         && (forall id :: id in meta' && id !in pins ==> id in meta && !Overdue(meta, id, now, ttl))
         && DoomedFirst(meta, pins, now, ttl, listing, gone))
  }

  ghost predicate DoomedFirst(meta: Meta, pins: set<BlobId>, now: int, ttl: int, listing: seq<BlobId>,
                              gone: seq<BlobId>) {
    var doomed := Doomed(meta, pins, now, ttl, listing);
    && |doomed| <= |gone| && gone[..|doomed|] == doomed
    && forall k :: |doomed| <= k < |gone| ==> gone[k] in meta && !Overdue(meta, gone[k], now, ttl)
  }

  /** One garbage-collection pass over the store. */
  method RunGc(fs: FsBlobStore, index: BlobIndex, listing: seq<BlobId>, pins: set<BlobId>, now: int, ttl: int, cap: int)
    returns (crashed: bool, deleted: nat, ghost gone: seq<BlobId>)
    requires fs.Valid() && SizesTrue(index.entries) && Lists(listing, index.entries.Keys)
    modifies fs`files, fs`others, index
    ensures fs.Valid() && SizesTrue(index.entries)
    ensures Passed(fs.at, old(fs.View()), old(index.entries), pins, now, ttl, listing, gone,
                   fs.View(), index.entries, crashed)
    ensures !crashed && cap <= 0 ==> gone == Doomed(old(index.entries), pins, now, ttl, listing)
    ensures Benign(fs.at, old(fs.View()), old(index.entries), pins) ==>
      && !crashed && fs.others == old(fs.others)
      && Collected(old(fs.files), old(index.entries), pins, now, ttl, cap, fs.files, index.entries, deleted)
    ensures Benign(fs.at, old(fs.View()), old(index.entries), pins) ==>
      ByAge(old(fs.files), old(index.entries), pins, now, ttl, cap, fs.files, index.entries)
  {
    ghost var disk, meta := fs.View(), index.entries;
    crashed, deleted, gone := ExpirePass(fs, index, listing, pins, now, ttl);
    SweptKeepsStore(fs.at, disk, meta, pins, gone, fs.View(), index.entries);
    if crashed {
      return;
    }
    ghost var f := fs.files;
    var evicted;
    evicted, gone := EnforceCap(fs, index, disk, meta, listing, pins, now, ttl, cap, gone);
    deleted := deleted + evicted;
    if Benign(fs.at, disk, meta, pins) {
      CollectedByAge(disk.blobs, meta, pins, now, ttl, cap, fs.files, index.entries, deleted);
    }
  }

  /** What is left of a pass when its first half is over: with a cap, evict. */
  method EnforceCap(fs: FsBlobStore, index: BlobIndex, ghost disk: Disk, ghost meta: Meta, ghost listing: seq<BlobId>,
                    pins: set<BlobId>, ghost now: int, ghost ttl: int, cap: int, ghost gone0: seq<BlobId>)
    returns (evicted: nat, ghost gone: seq<BlobId>)
    requires InPlace(fs.at, disk) && fs.Valid() && SizesTrue(meta) && SizesTrue(index.entries)
    requires Swept(fs.at, disk, meta, pins, gone0, fs.View(), index.entries)
    requires Visited(fs.at, meta, pins, now, ttl, {}, index.entries) && gone0 == Doomed(meta, pins, now, ttl, listing)
    requires Benign(fs.at, disk, meta, pins) ==> Expired(disk.blobs, meta, pins, now, ttl, fs.files, index.entries)
    modifies fs`files, fs`others, index
    ensures fs.Valid() && SizesTrue(index.entries)
    ensures Swept(fs.at, disk, meta, pins, gone, fs.View(), index.entries)
    ensures SubMeta(index.entries, old(index.entries)) && DoomedFirst(meta, pins, now, ttl, listing, gone)
    ensures cap <= 0 ==> gone == gone0
    ensures Benign(fs.at, disk, meta, pins) ==>
      && |fs.files| == |old(fs.files)| - evicted && fs.others == disk.others
      && Collected(disk.blobs, meta, pins, now, ttl, cap, fs.files, index.entries, |disk.blobs| - |fs.files|)
  {
    ghost var f, m := fs.files, index.entries;
    evicted, gone := 0, gone0;
    assert DoomedFirst(meta, pins, now, ttl, listing, gone) by {
      assert gone[..|gone|] == gone;
    }
    if cap > 0 {
      var usage := fs.DiskUsage();
      if usage > cap {
        var order := SortByAccess(index.entries.Keys - pins, index.entries);
        CapBegins(fs.at, disk, meta, pins, now, ttl, f, m, order);
        evicted := CapPass(fs, index, disk, meta, pins, gone, order, cap, usage);
        gone := gone + order[..evicted];
        if Benign(fs.at, disk, meta, pins) {
          CapEnds(fs.at, disk, meta, pins, now, ttl, cap, f, m, order, evicted, gone, fs.View(), index.entries);
        }
        ThenEvicted(fs.at, meta, pins, now, ttl, listing, gone0, m, order, evicted);
        SweptKeepsStore(fs.at, disk, meta, pins, gone, fs.View(), index.entries);
        return;
      }
    }
    if Benign(fs.at, disk, meta, pins) {
      NoCapEnds(fs.at, disk, meta, pins, now, ttl, cap, gone, fs.View(), m);
    }
  }

  /** A stored blob that is recorded and not pinned goes, bytes and record, if it was last
      accessed more than `ttl` ago; it stays otherwise, unless there is a cap; and its
      record goes if it is not stored. */
  ghost predicate ByAge(files: Files, meta: Meta, pins: set<BlobId>, now: int, ttl: int, cap: int,
                        files': Files, meta': Meta) {
    && (forall id :: id in meta && id !in pins && id in files && ttl > 0 && now - meta[id].lastAccess > ttl ==>
         id !in files' && id !in meta')
    && (cap <= 0 ==>
         forall id :: id in meta && id !in pins && id in files && (ttl <= 0 || now - meta[id].lastAccess <= ttl) ==>
           id in files' && files'[id] == files[id] && id in meta' && meta'[id] == meta[id])
    && (forall id :: id in meta && id !in pins && id !in files ==> id !in meta')
    && (forall id :: id in meta && id in pins ==> id in meta' && meta'[id] == meta[id])
    && (forall id :: id in files && (id in pins || id !in meta) ==> id in files' && files'[id] == files[id])
  }

  lemma CollectedByAge(files: Files, meta: Meta, pins: set<BlobId>, now: int, ttl: int, cap: int,
                       files': Files, meta': Meta, deleted: int)
    requires Collected(files, meta, pins, now, ttl, cap, files', meta', deleted)
    ensures ByAge(files, meta, pins, now, ttl, cap, files', meta')
  {
    forall id | id in meta && id !in pins && id in files && (ttl <= 0 || now - meta[id].lastAccess <= ttl) && cap <= 0
      ensures id in files' && id in meta'
    {
      assert id !in Squeezed(files, meta, pins, now, ttl, meta');
    }
  }

  lemma ThenEvicted(at: Locate, meta: Meta, pins: set<BlobId>, now: int, ttl: int, listing: seq<BlobId>,
                    gone: seq<BlobId>, m: Meta, order: seq<BlobId>, n: nat)
    requires gone == Doomed(meta, pins, now, ttl, listing) && n <= |order|
    requires SubMeta(m, meta) && Visited(at, meta, pins, now, ttl, {}, m) && Lists(order, m.Keys - pins)
    ensures DoomedFirst(meta, pins, now, ttl, listing, gone + order[..n])
  {
    var all := gone + order[..n];
    assert all[..|gone|] == gone;
    forall k | |gone| <= k < |all| ensures all[k] in meta && !Overdue(meta, all[k], now, ttl) {
      assert all[k] == order[k - |gone|] && order[k - |gone|] in order;
    }
  }

  /** Blobs and records as the first pass leaves them if the ids are benign. */
  ghost predicate Expired(files: Files, meta: Meta, pins: set<BlobId>, now: int, ttl: int, f: Files, m: Meta) {
    f == files - Aged(files, meta, pins, now, ttl) && m == meta - Dead(files, meta, pins, now, ttl)
  }

  lemma CapBegins(at: Locate, disk: Disk, meta: Meta, pins: set<BlobId>, now: int, ttl: int, f: Files, m: Meta,
                  order: seq<BlobId>)
    requires InPlace(at, disk) && SizesTrue(meta) && SubMeta(m, meta)
    requires Visited(at, meta, pins, now, ttl, {}, m) && Lists(order, m.Keys - pins)
    requires Benign(at, disk, meta, pins) ==> Expired(disk.blobs, meta, pins, now, ttl, f, m)
    ensures CapReady(at, disk, meta, pins, f, m, order)
  {
    ExpiredOnly(disk.blobs, meta, pins, now, ttl);
    forall i | 0 <= i < |order| ensures at(order[i]).Some? {
      assert order[i] in order;
    }
  }

  lemma CapEnds(at: Locate, disk: Disk, meta: Meta, pins: set<BlobId>, now: int, ttl: int, cap: int, f: Files, m: Meta,
                order: seq<BlobId>, n: nat, gone: seq<BlobId>, disk': Disk, meta': Meta)
    requires InPlace(at, disk) && Benign(at, disk, meta, pins) && cap > 0
    requires Swept(at, disk, meta, pins, gone, disk', meta') && Expired(disk.blobs, meta, pins, now, ttl, f, m)
    requires Lists(order, m.Keys - pins) && ByAccess(order, m) && Evicted(f, m, order, cap, n, disk'.blobs, meta')
    requires Usage(disk'.blobs) <= cap || n == |order|
    ensures Collected(disk.blobs, meta, pins, now, ttl, cap, disk'.blobs, meta', |disk.blobs| - |disk'.blobs|)
    ensures |disk'.blobs| == |f| - n && disk'.others == disk.others
  {
    ExpiredOnly(disk.blobs, meta, pins, now, ttl);
    AfterBoth(disk.blobs, meta, pins, now, ttl, cap, f, m, order, n, disk'.blobs, meta');
    BenignSparesOthers(at, disk, meta, pins, gone, disk', meta');
  }

  lemma NoCapEnds(at: Locate, disk: Disk, meta: Meta, pins: set<BlobId>, now: int, ttl: int, cap: int,
                  gone: seq<BlobId>, disk': Disk, meta': Meta)
    requires InPlace(at, disk) && Benign(at, disk, meta, pins) && Swept(at, disk, meta, pins, gone, disk', meta')
    requires Expired(disk.blobs, meta, pins, now, ttl, disk'.blobs, meta') && (cap > 0 ==> Usage(disk'.blobs) <= cap)
    ensures Collected(disk.blobs, meta, pins, now, ttl, cap, disk'.blobs, meta', |disk.blobs| - |disk'.blobs|)
    ensures disk'.others == disk.others
  {
    ExpiredOnly(disk.blobs, meta, pins, now, ttl);
    AfterOne(disk.blobs, meta, pins, now, ttl, cap, disk'.blobs, meta');
    BenignSparesOthers(at, disk, meta, pins, gone, disk', meta');
  }

  /** Whatever ids are recorded, a pass keeps blobs in place and sizes true. */
  lemma SweptKeepsStore(at: Locate, disk: Disk, meta: Meta, pins: set<BlobId>, gone: seq<BlobId>,
                        disk': Disk, meta': Meta)
    requires InPlace(at, disk) && SizesTrue(meta) && Swept(at, disk, meta, pins, gone, disk', meta')
    ensures InPlace(at, disk') && SizesTrue(meta')
  {
    SweptInPlace(at, disk, meta, pins, gone, disk', meta');
  }

  // ---- when a pass is safe ----

  /** A pinned blob loses its bytes exactly if some deletion led to its file. */
  lemma PinLostIff(at: Locate, disk: Disk, meta: Meta, pins: set<BlobId>, gone: seq<BlobId>, disk': Disk, meta': Meta,
                   b: BlobId)
    requires Swept(at, disk, meta, pins, gone, disk', meta') && at(b).Some? && b in pins && b in disk.blobs
    ensures b !in disk'.blobs <==> exists k :: 0 <= k < |gone| && at(gone[k]) == at(b)
    ensures b in disk'.blobs ==> disk'.blobs[b] == disk.blobs[b]
  {
    BlobsAfterDeletes(at, disk, gone, b);
  }

  /** Every unpinned recorded id can be looked up, and every malformed one that is overdue
      is harmless in its turn. */
  ghost predicate AllHarmless(at: Locate, disk: Disk, meta: Meta, pins: set<BlobId>, now: int, ttl: int,
                              listing: seq<BlobId>) {
    !Unreadable(at, meta, pins) && MalformedHarmless(at, disk, pins, Doomed(meta, pins, now, ttl, listing))
  }

  lemma HarmlessAsListed(at: Locate, disk: Disk, pins: set<BlobId>, doomed: seq<BlobId>, gone: seq<BlobId>, k: nat)
    requires k < |doomed| <= |gone| && gone[..|doomed|] == doomed
    ensures gone[k] == doomed[k] && (HarmlessAt(at, disk, pins, gone, k) <==> HarmlessAt(at, disk, pins, doomed, k))
  {
    assert gone[..|doomed|][k] == gone[k];
    assert gone[..k] == gone[..|doomed|][..k];
  }

  /** Every malformed id of the list is harmless in its turn. */
  ghost predicate MalformedHarmless(at: Locate, disk: Disk, pins: set<BlobId>, ids: seq<BlobId>) {
    forall k :: 0 <= k < |ids| && ids[k].Malformed? ==> HarmlessAt(at, disk, pins, ids, k)
  }

  lemma HarmlessAlsoListed(at: Locate, disk: Disk, pins: set<BlobId>, doomed: seq<BlobId>, gone: seq<BlobId>)
    requires |doomed| <= |gone| && gone[..|doomed|] == doomed && AllHarmlessIn(at, disk, pins, gone)
    ensures MalformedHarmless(at, disk, pins, doomed)
  {
    forall k | 0 <= k < |doomed| && doomed[k].Malformed? ensures HarmlessAt(at, disk, pins, doomed, k) {
      assert HarmlessAt(at, disk, pins, gone, k);
      HarmlessAsListed(at, disk, pins, doomed, gone, k);
    }
  }

  lemma ListedHarmlessEnough(at: Locate, disk: Disk, pins: set<BlobId>, doomed: seq<BlobId>, gone: seq<BlobId>)
    requires InPlace(at, disk) && |doomed| <= |gone| && gone[..|doomed|] == doomed
    requires MalformedHarmless(at, disk, pins, doomed)
    requires forall k :: 0 <= k < |gone| ==> gone[k] !in pins && (k >= |doomed| ==> gone[k].Sha256?)
    ensures AllHarmlessIn(at, disk, pins, gone)
  {
    forall k | 0 <= k < |gone| ensures HarmlessAt(at, disk, pins, gone, k) {
      if gone[k].Sha256? {
        OwnIdHarmless(at, disk, pins, gone, k);
      } else {
        HarmlessAsListed(at, disk, pins, doomed, gone, k);
        assert HarmlessAt(at, disk, pins, doomed, k);
      }
    }
  }

  lemma HarmlessIff(at: Locate, disk: Disk, meta: Meta, pins: set<BlobId>, now: int, ttl: int, listing: seq<BlobId>,
                    gone: seq<BlobId>)
    requires InPlace(at, disk) && DoomedFirst(meta, pins, now, ttl, listing, gone)
    requires forall id :: id in gone ==> id !in pins
    requires forall k :: |Doomed(meta, pins, now, ttl, listing)| <= k < |gone| ==> gone[k].Sha256?
    ensures AllHarmlessIn(at, disk, pins, gone) <==>
      MalformedHarmless(at, disk, pins, Doomed(meta, pins, now, ttl, listing))
  {
    var doomed := Doomed(meta, pins, now, ttl, listing);
    if AllHarmlessIn(at, disk, pins, gone) {
      HarmlessAlsoListed(at, disk, pins, doomed, gone);
    } else if MalformedHarmless(at, disk, pins, doomed) {
      forall k | 0 <= k < |gone| ensures gone[k] !in pins {
        assert gone[k] in gone;
      }
      ListedHarmlessEnough(at, disk, pins, doomed, gone);
    }
  }

  /** This can be told from pins, records, their order and the disk before the pass, if
      there is no cap or blobs expire at all: it completes, keeps the bytes of every pinned
      blob and removes nothing but blobs if and only if every unpinned recorded id can be
      looked up and every malformed one that is overdue is harmless in its turn. */
  lemma SafeIff(at: Locate, disk: Disk, meta: Meta, pins: set<BlobId>, now: int, ttl: int, listing: seq<BlobId>,
                gone: seq<BlobId>, disk': Disk, meta': Meta, crashed: bool)
    requires InPlace(at, disk)
    requires Passed(at, disk, meta, pins, now, ttl, listing, gone, disk', meta', crashed)
    requires (!crashed ==> gone == Doomed(meta, pins, now, ttl, listing))
      || (MalformedUntouched(meta) && ttl > 0 && now - ZERO_TIME > ttl)
    ensures (!crashed && PinsKept(pins, disk, disk') && disk'.others == disk.others) <==>
      AllHarmless(at, disk, meta, pins, now, ttl, listing)
  {
    SparesIff(at, disk, pins, gone);
    if !crashed {
      HarmlessIff(at, disk, meta, pins, now, ttl, listing, gone);
    }
  }

  /** One housekeeping pass: purge stale pairing codes and old queue items, then collect
      with the pins that are left. Records that a clip still queued refers to stay; when
      the bytes do, SafeIff says. */
  method Housekeeping(store: Registry.Store, queues: QueueStore.Queues, fs: FsBlobStore, index: BlobIndex,
                      listing: seq<BlobId>, now: int, queueTtl: int, blobTtl: int, cap: int)
    returns (crashed: bool, ghost gone: seq<BlobId>)
    requires queues.Valid() && fs.Valid() && SizesTrue(index.entries) && Lists(listing, index.entries.Keys)
    modifies store`pairing, queues, fs`files, fs`others, index
    ensures store.View() == Registry.PurgePairing(old(store.View()), now)
    ensures queues.Valid() && fs.Valid() && SizesTrue(index.entries)
    ensures queueTtl > 0 ==> queues.View() == Fifo.Purged(old(queues.View()), now, queueTtl)
    ensures queueTtl <= 0 ==> queues.View() == old(queues.View())
    ensures var pins := Fifo.Pinned(queues.View());
      && Passed(fs.at, old(fs.View()), old(index.entries), pins, now, blobTtl, listing, gone,
                fs.View(), index.entries, crashed)
      && (forall b :: b in pins && b in old(index.entries) ==>
           b in index.entries && index.entries[b] == old(index.entries)[b])
      && ((forall id :: id in old(index.entries) && id !in pins ==> id.Sha256?) ==>
           !crashed && PinsKept(pins, old(fs.View()), fs.View()) && fs.others == old(fs.others))
  {
    ghost var disk, meta := fs.View(), index.entries;
    store.PurgeStaleCodes(now);
    var removed := queues.PurgeExpired(now, queueTtl);
    var pins := queues.AllQueuedBlobIds();
    var deleted;
    crashed, deleted, gone := RunGc(fs, index, listing, pins, now, blobTtl, cap);
    if forall id :: id in meta && id !in pins ==> id.Sha256? {
      OwnIdsSafe(fs.at, disk, meta, pins, gone, fs.View(), index.entries);
    }
  }

  /** With well-formed ids only, nothing pinned and nothing but blobs is lost. */
  lemma OwnIdsSafe(at: Locate, disk: Disk, meta: Meta, pins: set<BlobId>, gone: seq<BlobId>, disk': Disk, meta': Meta)
    requires InPlace(at, disk) && Swept(at, disk, meta, pins, gone, disk', meta')
    requires forall id :: id in meta && id !in pins ==> id.Sha256?
    ensures PinsKept(pins, disk, disk') && disk'.others == disk.others && !Unreadable(at, meta, pins)
  {
    SparesIff(at, disk, pins, gone);
    forall k | 0 <= k < |gone| ensures HarmlessAt(at, disk, pins, gone, k) {
      assert gone[k] in gone;
      OwnIdHarmless(at, disk, pins, gone, k);
    }
  }
}
