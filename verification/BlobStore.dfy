/** Blob bytes on disk (server/internal/blob/store.go) and blob metadata
    (server/internal/store/blobs.go). */
module BlobStore {
  import opened Model
  import opened Disks
  import Gather

  datatype PutResult = Stored(size: nat) | HashMismatch | TooLarge

  function PutOutcome(files: Files, id: BlobId, body: seq<Byte>, maxBytes: int): PutResult {
    if id.Malformed? then HashMismatch
    else if id in files then Stored(|files[id]|)
    else if |body| > maxBytes then TooLarge
    else if Sha256(body) != id then HashMismatch
    else Stored(|body|)
  }

  function AfterPut(files: Files, id: BlobId, body: seq<Byte>, maxBytes: int): Files {
    if id !in files && PutOutcome(files, id, body, maxBytes).Stored? then files[id := body] else files
  }

  /** A put never breaks content addressing, never changes a stored blob, and whenever it
      reports success the blob is there with the reported size and the id's content. */
  lemma PutKeepsContent(files: Files, id: BlobId, body: seq<Byte>, maxBytes: int)
    requires ContentAddressed(files)
    ensures var after, out := AfterPut(files, id, body, maxBytes), PutOutcome(files, id, body, maxBytes);
      && ContentAddressed(after)
      && (forall x :: x in files ==> x in after && after[x] == files[x])
      && (forall x :: x in after && x !in files ==> x == id && out.Stored?)
      && (out.Stored? ==> id in after && id.Sha256? && after[id] == id.content && out.size == |id.content|)
  {
  }

  /** Total bytes stored. */
  ghost function Usage(files: Files): nat
    decreases |files|
  {
    if |files| == 0 then 0 else
      var id := Gather.Pick(files);
      assert |files - {id}| < |files| by { Gather.Shrinks(files, id); }
      |files[id]| + Usage(files - {id})
  }

  lemma {:induction false} UsageSplit(files: Files, id: BlobId)
    requires id in files
    ensures Usage(files) == |files[id]| + Usage(files - {id})
    decreases |files|
  {
    var p := Gather.Pick(files);
    if p != id {
      Gather.Shrinks(files, p);
      Gather.Shrinks(files, id);
      UsageSplit(files - {p}, id);
      UsageSplit(files - {id}, p);
      assert files - {p} - {id} == files - {id} - {p};
    }
  }

  /** Every directory on the way to `p` that was not there. */
  function WithDirs(others: map<Path, Thing>, p: Path): map<Path, Thing>
    decreases |p|
  {
    if p == [] then others else
      var up := p[..|p| - 1];
      WithDirs(if up in others then others else others[up := Dir(0)], up)
  }

  lemma {:induction false} DirsSeparate(at: Locate, others: map<Path, Thing>, p: Path, depth: nat)
    requires Separate(at, others) && |p| <= depth
    requires forall b: BlobId :: b.Sha256? && at(b).Some? ==> |at(b).value| == depth
    ensures Separate(at, WithDirs(others, p))
    decreases |p|
  {
    if p != [] {
      var up := p[..|p| - 1];
      DirsSeparate(at, if up in others then others else others[up := Dir(0)], up, depth);
    }
  }

  // ---- metadata ----

  const ZERO_TIME := 0

  /** `origin` None and `allowed` empty: the record carries no ACL. */
  datatype Entry = Entry(
    size: nat,
    mime: string,
    createdAt: int,
    lastAccess: int,
    origin: Option<DeviceId>,
    allowed: seq<DeviceId>)

  type Meta = map<BlobId, Entry>

  const BLANK := Entry(0, "", ZERO_TIME, ZERO_TIME, None, [])

  function EntryOf(meta: Meta, id: BlobId): Entry {
    if id in meta then meta[id] else BLANK
  }

  function WithAcl(meta: Meta, id: BlobId, origin: DeviceId, allowed: seq<DeviceId>): Meta {
    meta[id := EntryOf(meta, id).(origin := Some(origin), allowed := allowed)]
  }

  function Touched(meta: Meta, id: BlobId, now: int, size: int, mime: string): Meta {
    var e := EntryOf(meta, id);
    meta[id := e.(
      createdAt := if e.createdAt == ZERO_TIME then now else e.createdAt,
      lastAccess := now,
      size := if size > 0 then size else e.size,
      mime := if mime != "" then mime else e.mime)]
  }

  /** Recorded sizes are zero or the size of the content the id stands for. */
  ghost predicate SizesTrue(meta: Meta) {
    forall id :: id in meta ==> meta[id].size == 0 || (id.Sha256? && meta[id].size == |id.content|)
  }

  /** Sizes stay true whenever a touch records no size or the one a put reported for the
      blob (which PutKeepsContent says is the size of the id's content). */
  lemma TouchKeepsSizes(meta: Meta, id: BlobId, now: int, size: int, mime: string)
    requires SizesTrue(meta) && (size <= 0 || (id.Sha256? && size == |id.content|))
    ensures SizesTrue(Touched(meta, id, now, size, mime))
  {
  }

  /** Routing a clip only writes the ACL of a record. */
  lemma AclKeepsSizes(meta: Meta, id: BlobId, origin: DeviceId, allowed: seq<DeviceId>)
    requires SizesTrue(meta)
    ensures SizesTrue(WithAcl(meta, id, origin, allowed))
  {
  }

  /** Records of malformed ids carry an ACL and nothing else: only well-formed ids are
      ever touched. */
  ghost predicate MalformedUntouched(meta: Meta) {
    forall id :: id in meta && id.Malformed? ==> meta[id].lastAccess == ZERO_TIME && meta[id].size == 0
  }

  lemma TouchKeepsUntouched(meta: Meta, id: BlobId, now: int, size: int, mime: string)
    requires MalformedUntouched(meta) && id.Sha256?
    ensures MalformedUntouched(Touched(meta, id, now, size, mime))
  {
  }

  lemma AclKeepsUntouched(meta: Meta, id: BlobId, origin: DeviceId, allowed: seq<DeviceId>)
    requires MalformedUntouched(meta)
    ensures MalformedUntouched(WithAcl(meta, id, origin, allowed))
  {
  }

  datatype Found = Crash | Absent | Present(size: nat)

  class FsBlobStore {
    const at: Locate
    var files: Files
    var others: map<Path, Thing>

    ghost function View(): Disk
      reads this
    {
      Disk(files, others)
    }

    ghost predicate Valid()
      reads this
    {
      ContentAddressed(files) && Laid(at) && Separate(at, others)
    }

    /** An empty store: the blob directory and its temp area. */
    constructor (l: Layout)
      requires Digests(l)
      ensures at == At(l) && Valid()
      ensures View() == Disk(map[], map[l.root := Dir(0), l.root + ["tmp"] := Dir(0)])
    {
      at := At(l);
      files, others := map[], map[l.root := Dir(0), l.root + ["tmp"] := Dir(0)];
      LayoutIsLaid(l);
      forall b: BlobId | b.Sha256? ensures |At(l)(b).value| == |l.root| + 2 {
        OwnPath(l, b.content);
      }
    }

    /** Stream a body in, verify it, then move it into place. */
    method Put(id: BlobId, body: seq<Byte>, maxBytes: int) returns (out: PutResult)
      requires Valid()
      modifies this`files, this`others
      ensures Valid()
      ensures out == PutOutcome(old(files), id, body, maxBytes)
      ensures files == AfterPut(old(files), id, body, maxBytes)
      ensures others == if files == old(files) then old(others) else WithDirs(old(others), at(id).value)
      ensures out == TooLarge <==> id.Sha256? && id !in old(files) && |body| > maxBytes
      ensures out.Stored? <==> id.Sha256? && (id in old(files) || (|body| <= maxBytes && Sha256(body) == id))
      ensures out.Stored? ==> id in files && files[id] == id.content && out.size == |id.content|
      ensures forall x :: x != id || !out.Stored? ==> (x in files <==> x in old(files))
      ensures forall x :: x in old(files) ==> x in files && files[x] == old(files)[x]
    {
      if id.Malformed? {
        return HashMismatch;
      }
      if id in files {
        return Stored(|files[id]|);
      }
      var limit := if maxBytes < -1 then 0 else maxBytes + 1;
      var tmp := if |body| <= limit then body else body[..limit];
      if |tmp| > maxBytes {
        return TooLarge;
      }
      if Sha256(tmp) != id {
        return HashMismatch;
      }
      assert id !in files && id in files[id := tmp];
      DirsSeparate(at, others, at(id).value, |at(id).value|);
      others := WithDirs(others, at(id).value);
      files := files[id := tmp];
      out := Stored(|tmp|);
    }

    /** Whether there is anything at the id's path, and how large it is. */
    method Has(id: BlobId) returns (found: Found)
      requires Valid()
      ensures found == Crash <==> at(id) == None
      ensures found.Present? <==> at(id).Some? && Exists(at, View(), at(id).value)
      ensures found.Present? ==> found.size == SizeAt(at, View(), at(id).value)
    {
      if at(id) == None {
        return Crash;
      }
      var p := at(id).value;
      if p in others {
        return Present(others[p].size);
      }
      if b :| b in files && at(b) == Some(p) {
        return Present(|files[b]|);
      }
      found := Absent;
    }

    /** Best effort: what is missing or cannot be removed is no error. */
    method Delete(id: BlobId)
      requires at(id).Some?
      modifies this`files, this`others
      ensures View() == Removed(at, old(View()), id)
      ensures forall b :: b in files <==> b in old(files) && at(b) != at(id)
      ensures forall b :: b in files ==> files[b] == old(files)[b]
      ensures forall q :: q in others && q in old(others) ==> others[q] == old(others)[q]
      ensures forall q :: q != at(id).value ==> (q in others <==> q in old(others))
      ensures at(id).value in others <==>
        at(id).value in old(others) && old(others)[at(id).value].Dir? && Occupied(at, old(View()), at(id).value)
    {
      var p := at(id).value;
      if p in others && (others[p].File? || !Occupied(at, Disk(files, others), p)) {
        files, others := map b | b in files && at(b) != Some(p) :: files[b], others - {p};
      } else {
        files := map b | b in files && at(b) != Some(p) :: files[b];
      }
    }

    method DiskUsage() returns (total: nat)
      ensures total == Usage(files) && (files == map[] ==> total == 0)
    {
      total := 0;
      var left := files;
      while left != map[]
        invariant total + Usage(left) == Usage(files)
        decreases |left|
      {
        assert left.Keys != {};
        var id :| id in left;
        UsageSplit(left, id);
        Gather.Shrinks(left, id);
        total := total + |left[id]|;
        left := left - {id};
      }
    }
  }

  class BlobIndex {
    var entries: Meta

    method SetBlobAcl(id: BlobId, origin: DeviceId, allowed: seq<DeviceId>)
      modifies this
      ensures entries == WithAcl(old(entries), id, origin, allowed)
      ensures id in entries && entries[id].origin == Some(origin) && entries[id].allowed == allowed
      ensures id in old(entries) ==> entries[id] == old(entries)[id].(origin := Some(origin), allowed := allowed)
      ensures id !in old(entries) ==> entries[id].lastAccess == ZERO_TIME && entries[id].size == 0
      ensures forall x :: x != id ==> (x in entries <==> x in old(entries))
      ensures forall x :: x != id && x in entries ==> entries[x] == old(entries)[x]
    {
      var e := if id in entries then entries[id] else BLANK;
      e := e.(origin := Some(origin));
      e := e.(allowed := allowed);
      entries := entries[id := e];
    }

    method TouchBlob(id: BlobId, now: int, size: int, mime: string)
      modifies this
      ensures entries == Touched(old(entries), id, now, size, mime)
      ensures id in entries && entries[id].lastAccess == now
      ensures id in old(entries) ==>
        && entries[id].origin == old(entries)[id].origin && entries[id].allowed == old(entries)[id].allowed
        && (old(entries)[id].createdAt != ZERO_TIME ==> entries[id].createdAt == old(entries)[id].createdAt)
        && (size <= 0 ==> entries[id].size == old(entries)[id].size)
        && (mime == "" ==> entries[id].mime == old(entries)[id].mime)
      ensures id !in old(entries) ==> entries[id].origin == None && entries[id].allowed == []
      ensures id !in old(entries) || old(entries)[id].createdAt == ZERO_TIME ==> entries[id].createdAt == now
      ensures size > 0 ==> entries[id].size == size
      ensures mime != "" ==> entries[id].mime == mime
      ensures forall x :: x != id ==> (x in entries <==> x in old(entries))
      ensures forall x :: x != id && x in entries ==> entries[x] == old(entries)[x]
    {
      var e := if id in entries then entries[id] else BLANK.(createdAt := now);
      if e.createdAt == ZERO_TIME {
        e := e.(createdAt := now);
      }
      e := e.(lastAccess := now);
      if size > 0 {
        e := e.(size := size);
      }
      if mime != "" {
        e := e.(mime := mime);
      }
      entries := entries[id := e];
    }
  }
}
