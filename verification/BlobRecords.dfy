/** The ACLs that blob records carry, as the relay sees them, and what becomes of a record
    between the route that writes it and the pass that collects it. */
module BlobRecords {
  import opened Model
  import Disks
  import opened BlobStore
  import opened RelayCore
  import opened RelayMachine
  import RelayClaims
  import RelayRuns
  import BlobGc
  import Fifo

  function AclOf(e: Entry): Acl
    requires e.origin.Some?
  {
    Acl(e.origin.value, set d | d in e.allowed)
  }

  /** The records that carry an ACL: what the relay's state calls `persisted`. */
  function AclView(meta: Meta): map<BlobId, Acl> {
    map id | id in meta && meta[id].origin.Some? :: AclOf(meta[id])
  }

  /** Storing or serving a blob leaves every ACL alone, and adds none to a record that
      was dropped meanwhile. */
  lemma TouchKeepsAcls(meta: Meta, id: BlobId, now: int, size: int, mime: string)
    ensures AclView(Touched(meta, id, now, size, mime)) == AclView(meta)
  {
  }

  /** Writing the list that a claim stands for updates the record as the claim says. */
  lemma ClaimWritesRecord(k: Core, clip: Clip, targets: seq<DeviceId>, meta: Meta, list: seq<DeviceId>)
    requires AclView(meta) == k.persisted && ClaimAllowed(k, clip)
    requires (set d | d in list) == ClaimOf(clip, targets).allowed
    ensures AclView(WithAcl(meta, clip.blob.value, clip.origin, list)) == Claim(k, clip, targets).persisted
  {
    AclWritten(meta, clip.blob.value, clip.origin, list);
  }

  lemma AclWritten(meta: Meta, id: BlobId, origin: DeviceId, list: seq<DeviceId>)
    ensures AclView(WithAcl(meta, id, origin, list)) == AclView(meta)[id := Acl(origin, set d | d in list)]
  {
  }

  /** A collection drops the ACLs of the records that go, and no others: to the relay it
      is a number of dropped records. */
  lemma CollectionDropsAcls(at: Disks.Locate, disk: Disks.Disk, meta: Meta, pins: set<BlobId>, gone: seq<BlobId>,
                            disk': Disks.Disk, meta': Meta)
    requires BlobGc.Swept(at, disk, meta, pins, gone, disk', meta')
    ensures AclView(meta') == AclView(meta) - (meta.Keys - meta'.Keys)
    ensures forall id :: id in pins && id in AclView(meta) ==> id in AclView(meta')
  {
  }

  /** An id that is too short to be looked up is routed like any other, and nothing pins
      it: the next pass over the records crashes. */
  lemma RoutedShortIdCrashesPass(c: ConnId, clip: Clip, l: Disks.Layout) returns (run: seq<State>, steps: seq<Step>)
    requires clip.blob == Some(Malformed("x"))
    ensures RelayClaims.OwnedRun(run, steps)
    ensures steps == [Connect(c, clip.origin, 1), Drain(c), RegisterBegin(c), RegisterNext,
                      RouteBegin(clip, [], false), RouteNext(0, 0)]
    ensures forall meta :: AclView(meta) == run[6].core.persisted ==>
      BlobGc.Unreadable(Disks.At(l), meta, Fifo.Pinned(run[6].core.queues))
  {
    run, steps := RelayRuns.Routes(c, clip);
    var id, pins := Malformed("x"), Fifo.Pinned(run[6].core.queues);
    assert pins == {};
    forall meta | AclView(meta) == run[6].core.persisted ensures BlobGc.Unreadable(Disks.At(l), meta, pins) {
      assert id in AclView(meta) && id !in pins && Disks.At(l)(id) == None;
    }
  }

  /** A pass, from what was read to what is left. */
  datatype Pass = Pass(
    disk: Disks.Disk, meta: Meta, pins: set<BlobId>, now: int, ttl: int, listing: seq<BlobId>,
    gone: seq<BlobId>, disk': Disks.Disk, meta': Meta)

  ghost predicate Completed(at: Disks.Locate, x: Pass) {
    && MalformedUntouched(x.meta) && x.ttl > 0 && x.now - ZERO_TIME > x.ttl
    && BlobGc.Lists(x.listing, x.meta.Keys)
    && BlobGc.Passed(at, x.disk, x.meta, x.pins, x.now, x.ttl, x.listing, x.gone, x.disk', x.meta', false)
  }

  lemma {:induction false} OverdueIsDoomed(meta: Meta, pins: set<BlobId>, now: int, ttl: int, listing: seq<BlobId>,
                                           id: BlobId)
    requires id in listing && id in meta && id !in pins && BlobGc.Overdue(meta, id, now, ttl)
    ensures id in BlobGc.Doomed(meta, pins, now, ttl, listing)
  {
    var n := |listing| - 1;
    if listing[n] != id {
      assert id in listing[..n];
      OverdueIsDoomed(meta, pins, now, ttl, listing[..n], id);
    }
  }

  /** A completed pass over the record of a bare digest deletes the blob of that digest,
      pinned or not. */
  lemma BareDigestLosesBlob(l: Disks.Layout, x: Pass, content: seq<Byte>)
    requires Disks.Digests(l) && Completed(Disks.At(l), x)
    requires Malformed(l.digest(content)) in x.meta && Malformed(l.digest(content)) !in x.pins
    ensures Sha256(content) !in x.disk'.blobs
  {
    var bare, b := Malformed(l.digest(content)), Sha256(content);
    Disks.BareDigestLeadsToBlob(l, content);
    LeadsToLoss(Disks.At(l), x, bare, b);
  }

  lemma OverdueIsGone(at: Disks.Locate, x: Pass, id: BlobId) returns (k: nat)
    requires Completed(at, x) && id in x.meta && id !in x.pins && id.Malformed?
    ensures k < |x.gone| && x.gone[k] == id
  {
    OverdueIsDoomed(x.meta, x.pins, x.now, x.ttl, x.listing, id);
    var doomed := BlobGc.Doomed(x.meta, x.pins, x.now, x.ttl, x.listing);
    k :| 0 <= k < |doomed| && doomed[k] == id;
    assert x.gone[..|doomed|][k] == x.gone[k];
  }

  lemma LeadsToLoss(at: Disks.Locate, x: Pass, id: BlobId, b: BlobId)
    requires Completed(at, x) && id in x.meta && id !in x.pins && id.Malformed?
    requires at(b).Some? && at(id) == at(b)
    ensures b !in x.disk'.blobs
  {
    var k := OverdueIsGone(at, x, id);
    assert Disks.Reached(at, x.gone, at(b).value);
    Disks.BlobsAfterDeletes(at, x.disk, x.gone, b);
  }

  /** And there is such a pass: the blob is stored and pinned, and its bytes are gone after. */
  lemma PinnedBlobLost(l: Disks.Layout, content: seq<Byte>, dev: DeviceId, ttl: int) returns (x: Pass)
    requires Disks.Digests(l) && ttl > 0
    ensures Completed(Disks.At(l), x) && x.pins == {Sha256(content)}
    ensures AclView(x.meta) == map[Malformed(l.digest(content)) := Acl(dev, {dev})]
    ensures Sha256(content) in x.disk.blobs && Sha256(content) !in x.disk'.blobs
  {
    var bare, b, at := Malformed(l.digest(content)), Sha256(content), Disks.At(l);
    var meta := WithAcl(map[], bare, dev, [dev]);
    var disk := Disks.Disk(map[b := content], map[]);
    x := Pass(disk, meta, {b}, ttl + 1, ttl, [bare], [bare], Disks.AfterDeletes(at, disk, [bare]), map[]);
    Disks.BareDigestLeadsToBlob(l, content);
    AclWritten(map[], bare, dev, [dev]);
    assert AclView(map[]) == map[] && (set d | d in [dev]) == {dev};
    assert [bare][..0] == [] && [bare][0] == bare;
    assert BlobGc.Doomed(meta, {b}, ttl + 1, ttl, [bare]) == [] + [bare];
    assert [bare][..1] == [bare];
    assert BlobGc.Swept(at, disk, meta, {b}, [bare], x.disk', map[]);
    BareDigestLosesBlob(l, x, content);
  }

  /** Such a record is one routed clip away: after this run every completed pass, whatever
      it has pinned but the bare digest itself, deletes the blob's bytes. */
  lemma RoutedBareDigestLosesBlob(c: ConnId, clip: Clip, l: Disks.Layout, content: seq<Byte>)
    returns (run: seq<State>, steps: seq<Step>)
    requires Disks.Digests(l) && clip.blob == Some(Malformed(l.digest(content)))
    ensures RelayClaims.OwnedRun(run, steps)
    ensures steps == [Connect(c, clip.origin, 1), Drain(c), RegisterBegin(c), RegisterNext,
                      RouteBegin(clip, [], false), RouteNext(0, 0)]
    ensures forall x: Pass | AclView(x.meta) == run[6].core.persisted && Completed(Disks.At(l), x) ::
      clip.blob.value !in x.pins ==> Sha256(content) !in x.disk'.blobs
  {
    run, steps := RelayRuns.Routes(c, clip);
    forall x: Pass | AclView(x.meta) == run[6].core.persisted && clip.blob.value !in x.pins && Completed(Disks.At(l), x)
      ensures Sha256(content) !in x.disk'.blobs
    {
      assert clip.blob.value in AclView(x.meta);
      BareDigestLosesBlob(l, x, content);
    }
  }
}
