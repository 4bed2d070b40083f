/** Offline queues as bbolt keeps them (server/internal/store/queue.go): per device, a
    sub-bucket of byte keys with its own sequence counter. */
module QueueStore {
  import opened Model
  import opened Keys
  import Fifo

  datatype Bucket = Bucket(sequence: nat, entries: map<Key, Item>)

  const EMPTY := Bucket(0, map[])

  // ---- iteration order ----

  predicate IsFirst(k: Key, entries: map<Key, Item>) {
    k in entries && forall j :: j in entries ==> j == k || Below(k, j)
  }

  /** A nonempty bucket has a first key. */
  lemma {:induction false} FirstExists(entries: map<Key, Item>) returns (k: Key)
    requires |entries| > 0
    ensures IsFirst(k, entries)
    decreases |entries|
  {
    assert entries.Keys != {};
    k :| k in entries.Keys;
    var rest := entries - {k};
    assert rest.Keys == entries.Keys - {k};
    if |rest| > 0 {
      var j := FirstExists(rest);
      BelowTotal(j, k);
      if Below(j, k) {
        k := j;
      } else {
        forall x | x in entries ensures x == k || Below(k, x) {
          if x != k && x != j {
            BelowTransitive(k, j, x);
          }
        }
      }
    } else {
      assert rest.Keys == {};
    }
  }

  ghost function First(entries: map<Key, Item>): (k: Key)
    requires |entries| > 0
    ensures IsFirst(k, entries)
  {
    assert exists k :: IsFirst(k, entries) by { var k := FirstExists(entries); }
    var k :| IsFirst(k, entries); k
  }

  lemma FirstUnique(k: Key, entries: map<Key, Item>)
    requires |entries| > 0 && IsFirst(k, entries)
    ensures k == First(entries)
  {
    BelowTotal(k, First(entries));
  }

  lemma FewerEntries(entries: map<Key, Item>, k: Key)
    requires k in entries
    ensures |entries - {k}| == |entries| - 1
  {
    assert (entries - {k}).Keys == entries.Keys - {k};
  }

  /** The values of a bucket in key order: what ForEach visits. */
  ghost function InOrder(entries: map<Key, Item>): seq<Item>
    decreases |entries|
  {
    if |entries| == 0 then [] else
      var k := First(entries);
      assert (entries - {k}).Keys == entries.Keys - {k};
      [entries[k]] + InOrder(entries - {k})
  }

  ghost function Contents(b: Bucket): seq<Item> {
    InOrder(b.entries)
  }

  /** Every key was handed out by the bucket's own counter. */
  ghost predicate Sound(b: Bucket) {
    && b.sequence <= MAX_SEQUENCE
    && forall k :: k in b.entries ==> Issued(k, b.sequence)
  }

  lemma {:induction false} InOrderLength(entries: map<Key, Item>)
    ensures |InOrder(entries)| == |entries|
    decreases |entries|
  {
    if |entries| > 0 {
      var k := First(entries);
      assert (entries - {k}).Keys == entries.Keys - {k};
      InOrderLength(entries - {k});
    }
  }

  lemma RemoveFirst(entries: map<Key, Item>, k: Key)
    requires |entries| > 0 && IsFirst(k, entries)
    ensures InOrder(entries) == [entries[k]] + InOrder(entries - {k})
    ensures InOrder(entries)[1..] == InOrder(entries - {k})
  {
    FirstUnique(k, entries);
  }

  /** A key above all others does not change which one is first. */
  lemma StillFirst(entries: map<Key, Item>, f: Key, k: Key, v: Item)
    requires IsFirst(f, entries) && k !in entries && Below(f, k)
    ensures IsFirst(f, entries[k := v]) && entries[k := v] - {f} == (entries - {f})[k := v]
    ensures |entries[k := v]| > 0
  {
    BelowTotal(k, k);
    assert f in entries[k := v].Keys;
  }

  lemma OnlyEntry(k: Key, v: Item)
    ensures InOrder(map[k := v]) == [v]
  {
    RemoveFirst(map[k := v], k);
    assert map[k := v] - {k} == map[];
  }

  lemma Regroup(a: seq<Item>, b: seq<Item>, c: seq<Item>)
    ensures a + (b + c) == (a + b) + c
  {
  }

  /** A key above all others comes last. */
  lemma {:induction false} InsertLast(entries: map<Key, Item>, k: Key, v: Item)
    requires forall j :: j in entries ==> Below(j, k)
    ensures InOrder(entries[k := v]) == InOrder(entries) + [v]
    decreases |entries|
  {
    if |entries| == 0 {
      assert entries == map[];
      OnlyEntry(k, v);
    } else {
      var f := First(entries);
      FewerEntries(entries, f);
      BelowTotal(k, k);
      StillFirst(entries, f, k, v);
      RemoveFirst(entries, f);
      RemoveFirst(entries[k := v], f);
      assert InOrder(entries[k := v]) == [entries[f]] + InOrder((entries - {f})[k := v]);
      InsertLast(entries - {f}, k, v);
      Regroup([entries[f]], InOrder(entries - {f}), [v]);
    }
  }

  /** A key below all others comes first. */
  lemma InsertFirst(entries: map<Key, Item>, k: Key, v: Item)
    requires forall j :: j in entries ==> Below(k, j)
    ensures InOrder(entries[k := v]) == [v] + InOrder(entries)
  {
    assert k !in entries by { BelowTotal(k, k); }
    var more := entries[k := v];
    assert IsFirst(k, more) && k in more.Keys;
    RemoveFirst(more, k);
    assert more - {k} == entries;
  }

  function Unexpired(entries: map<Key, Item>, now: int, ttl: int): map<Key, Item> {
    map k | k in entries && !Fifo.Expired(entries[k], now, ttl) :: entries[k]
  }

  lemma FreshCons(x: Item, r: seq<Item>, now: int, ttl: int)
    ensures Fifo.Fresh([x] + r, now, ttl) == (if Fifo.Expired(x, now, ttl) then [] else [x]) + Fifo.Fresh(r, now, ttl)
  {
    assert ([x] + r)[1..] == r;
  }

  /** Removing the first entry and dropping expired ones commute. */
  lemma UnexpiredRest(entries: map<Key, Item>, f: Key, now: int, ttl: int)
    requires IsFirst(f, entries)
    ensures Unexpired(entries - {f}, now, ttl) == Unexpired(entries, now, ttl) - {f}
    ensures Fifo.Expired(entries[f], now, ttl) ==>
      Unexpired(entries, now, ttl) - {f} == Unexpired(entries, now, ttl)
    ensures !Fifo.Expired(entries[f], now, ttl) ==>
      IsFirst(f, Unexpired(entries, now, ttl)) && |Unexpired(entries, now, ttl)| > 0
  {
    if !Fifo.Expired(entries[f], now, ttl) {
      assert f in Unexpired(entries, now, ttl).Keys;
    }
  }

  /** Dropping expired entries filters the queue without reordering it. */
  lemma {:induction false} FilterInOrder(entries: map<Key, Item>, now: int, ttl: int)
    ensures InOrder(Unexpired(entries, now, ttl)) == Fifo.Fresh(InOrder(entries), now, ttl)
    decreases |entries|
  {
    var left := Unexpired(entries, now, ttl);
    if |entries| == 0 {
      assert |left.Keys| == 0;
    } else {
      var f := First(entries);
      FewerEntries(entries, f);
      RemoveFirst(entries, f);
      UnexpiredRest(entries, f, now, ttl);
      FilterInOrder(entries - {f}, now, ttl);
      FreshCons(entries[f], InOrder(entries - {f}), now, ttl);
      if !Fifo.Expired(entries[f], now, ttl) {
        RemoveFirst(left, f);
      }
    }
  }

  // ---- enqueue ----

  /** bbolt's NextSequence is an unsigned 64-bit increment: it wraps. */
  function NextSequence(sequence: nat): nat {
    if sequence >= MAX_SEQUENCE then 0 else sequence + 1
  }

  /** The bucket right after the put, before trimming. */
  function Stored(b: Bucket, item: Item): Bucket {
    var n := NextSequence(b.sequence);
    Bucket(n, b.entries[Itob(n) := item])
  }

  lemma StoredSound(b: Bucket, item: Item)
    requires Sound(b) && b.sequence < MAX_SEQUENCE
    ensures Sound(Stored(b, item))
  {
    ItobIssued(b.sequence + 1);
  }

  /** As long as the counter does not wrap, the new item comes last. */
  lemma StoredLast(b: Bucket, item: Item)
    requires Sound(b) && b.sequence < MAX_SEQUENCE
    ensures Contents(Stored(b, item)) == Contents(b) + [item]
  {
    var n := b.sequence + 1;
    forall j | j in b.entries ensures Below(j, Itob(n)) {
      IssuedBelow(j, b.sequence, n);
    }
    InsertLast(b.entries, Itob(n), item);
  }

  /** When the counter wraps, the new item comes first. */
  lemma StoredFirst(b: Bucket, item: Item)
    requires Sound(b) && b.sequence == MAX_SEQUENCE
    ensures Contents(Stored(b, item)) == [item] + Contents(b)
  {
    forall j | j in b.entries ensures Below(Itob(0), j) {
      ZeroBelow(j, b.sequence);
    }
    InsertFirst(b.entries, Itob(0), item);
  }

  /** Storing and trimming leaves the newest `depth` of the old items and the new one. */
  ghost predicate Appends(b: Bucket, item: Item, depth: int) {
    var left := Fifo.Kept(Contents(Stored(b, item)), depth);
    Fifo.Bounded(Contents(b) + [item], depth, left, |Contents(b)| + 1 - |left|)
  }

  /** An enqueue appends and trims as it should, for every item, if and only if the 64-bit
      counter has not run out or the queue is empty. */
  lemma FifoIff(b: Bucket, depth: int)
    requires Sound(b) && depth >= 1
    ensures (forall item :: Appends(b, item, depth)) <==> b.sequence < 0xFFFF_FFFF_FFFF_FFFF || Contents(b) == []
  {
    if b.sequence < MAX_SEQUENCE || Contents(b) == [] {
      forall item ensures Appends(b, item, depth) {
        AppendsWell(b, item, depth);
      }
    } else {
      var last := Contents(b)[|Contents(b)| - 1];
      AppendsWrongly(b, last.(enqueuedAt := last.enqueuedAt + 1), depth);
    }
  }

  lemma AppendsWell(b: Bucket, item: Item, depth: int)
    requires Sound(b) && (b.sequence < MAX_SEQUENCE || Contents(b) == [])
    ensures Appends(b, item, depth)
  {
    Fifo.EnqueuedIs(Contents(b), item, depth);
    if b.sequence < MAX_SEQUENCE {
      StoredLast(b, item);
    } else {
      StoredFirst(b, item);
      assert [item] + Contents(b) == Contents(b) + [item];
    }
  }

  lemma AppendsWrongly(b: Bucket, item: Item, depth: int)
    requires Sound(b) && b.sequence == MAX_SEQUENCE && depth >= 1
    requires Contents(b) != [] && Contents(b)[|Contents(b)| - 1] != item
    ensures !Appends(b, item, depth)
  {
    StoredFirst(b, item);
    WrongEnd(Contents(b), item, depth);
  }

  /** Putting the item in front leaves another one last. */
  lemma WrongEnd(q: seq<Item>, item: Item, depth: int)
    requires q != [] && q[|q| - 1] != item && depth >= 1
    ensures var left := Fifo.Kept([item] + q, depth); !Fifo.Bounded(q + [item], depth, left, |q| + 1 - |left|)
  {
    var left := Fifo.Kept([item] + q, depth);
    Fifo.KeptIs([item] + q, depth);
    assert left[|left| - 1] == ([item] + q)[|q|] == q[|q| - 1];
    assert (q + [item])[|q|] == item;
  }

  lemma {:induction false} ValuesInOrder(entries: map<Key, Item>, it: Item)
    ensures it in InOrder(entries) <==> exists k :: k in entries && entries[k] == it
    decreases |entries|
  {
    if |entries| == 0 {
      assert entries.Keys == {};
    } else {
      var f := First(entries);
      assert (entries - {f}).Keys == entries.Keys - {f};
      ValuesInOrder(entries - {f}, it);
      RemoveFirst(entries, f);
      if it in InOrder(entries) && it != entries[f] {
        var k :| k in entries - {f} && (entries - {f})[k] == it;
        assert k in entries && entries[k] == it;
      }
      if k :| k in entries && entries[k] == it && k != f {
        assert k in entries - {f} && (entries - {f})[k] == it;
      }
    }
  }

  ghost function QueueOf(buckets: map<DeviceId, Bucket>, d: DeviceId): seq<Item> {
    if d in buckets then Contents(buckets[d]) else []
  }

  ghost function QueuesOf(buckets: map<DeviceId, Bucket>): map<DeviceId, seq<Item>> {
    map d | d in buckets :: Contents(buckets[d])
  }

  lemma QueuesPut(buckets: map<DeviceId, Bucket>, d: DeviceId, b: Bucket)
    ensures QueuesOf(buckets[d := b]) == QueuesOf(buckets)[d := Contents(b)]
  {
  }

  lemma QueuesTake(buckets: map<DeviceId, Bucket>, d: DeviceId)
    ensures QueuesOf(buckets - {d}) == QueuesOf(buckets) - {d}
  {
  }

  lemma QueuesPurged(buckets: map<DeviceId, Bucket>, r: map<DeviceId, Bucket>, now: int, ttl: int)
    requires r.Keys == buckets.Keys
    requires forall d :: d in buckets ==> Contents(r[d]) == Fifo.Fresh(Contents(buckets[d]), now, ttl)
    requires forall d :: d in buckets ==> (Contents(r[d]) == [] <==> |r[d].entries| == 0)
    ensures QueuesOf(NonEmpty(r)) == Fifo.Purged(QueuesOf(buckets), now, ttl)
  {
  }

  function NonEmpty(r: map<DeviceId, Bucket>): map<DeviceId, Bucket> {
    map d | d in r && |r[d].entries| != 0 :: r[d]
  }

  function BucketOf(buckets: map<DeviceId, Bucket>, d: DeviceId): Bucket {
    if d in buckets then buckets[d] else EMPTY
  }

  /** The (device, key) pairs a purge collects in its read phase. */
  function ExpiredKeys(buckets: map<DeviceId, Bucket>, now: int, ttl: int): set<(DeviceId, Key)> {
    set d, k | d in buckets && k in buckets[d].entries && Fifo.Expired(buckets[d].entries[k], now, ttl) :: (d, k)
  }

  /** A device's entries after the expired ones outside `pending` are deleted. */
  function Without(buckets: map<DeviceId, Bucket>, d: DeviceId, now: int, ttl: int,
                   pending: set<(DeviceId, Key)>): map<Key, Item>
    requires d in buckets
  {
    map k | k in buckets[d].entries && (!Fifo.Expired(buckets[d].entries[k], now, ttl) || (d, k) in pending)
      :: buckets[d].entries[k]
  }

  /** Deleting one more pair. */
  lemma WithoutOneMore(buckets: map<DeviceId, Bucket>, d: DeviceId, now: int, ttl: int,
                       pending: set<(DeviceId, Key)>, t: (DeviceId, Key))
    requires d in buckets && t in pending && pending <= ExpiredKeys(buckets, now, ttl)
    ensures Without(buckets, d, now, ttl, pending - {t}) ==
      if d == t.0 then Without(buckets, d, now, ttl, pending) - {t.1} else Without(buckets, d, now, ttl, pending)
  {
  }

  lemma WithoutAll(buckets: map<DeviceId, Bucket>, d: DeviceId, now: int, ttl: int)
    requires d in buckets
    ensures Without(buckets, d, now, ttl, {}) == Unexpired(buckets[d].entries, now, ttl)
  {
  }

  lemma SoundWithout(b: Bucket, entries: map<Key, Item>)
    requires Sound(b) && entries.Keys <= b.entries.Keys
    ensures Sound(b.(entries := entries))
  {
  }

  /** Delete oldest entries until at most `maxDepth` are left. */
  method Trim(b: Bucket, maxDepth: int) returns (r: Bucket, trimmed: nat)
    ensures r.sequence == b.sequence && r.entries.Keys <= b.entries.Keys
    ensures Contents(r) == Fifo.Kept(Contents(b), maxDepth)
    ensures trimmed == |Fifo.Dropped(Contents(b), maxDepth)|
    ensures Fifo.Bounded(Contents(b), maxDepth, Contents(r), trimmed)
  {
    InOrderLength(b.entries);
    r, trimmed := b, 0;
    var count := |b.entries|;
    while count > maxDepth && count > 0
      invariant Trimming(b, r, trimmed, count) && (trimmed > 0 ==> maxDepth <= count)
      decreases count
    {
      ghost var f := FirstExists(r.entries);
      var k :| k in r.entries && IsFirst(k, r.entries);
      TrimFirst(b, r, trimmed, count, k);
      r := r.(entries := r.entries - {k});
      count := count - 1;
      trimmed := trimmed + 1;
    }
  }

  /** The first `trimmed` items are gone and `count` are left. */
  ghost predicate Trimming(b: Bucket, r: Bucket, trimmed: nat, count: int) {
    && r.sequence == b.sequence && r.entries.Keys <= b.entries.Keys
    && count == |r.entries| && trimmed + count == |Contents(b)|
    && Contents(r) == Contents(b)[trimmed..]
  }

  lemma TrimFirst(b: Bucket, r: Bucket, trimmed: nat, count: int, k: Key)
    requires Trimming(b, r, trimmed, count) && count > 0 && IsFirst(k, r.entries)
    ensures Trimming(b, r.(entries := r.entries - {k}), trimmed + 1, count - 1)
  {
    RemoveFirst(r.entries, k);
    FewerEntries(r.entries, k);
    assert Contents(b)[trimmed..][1..] == Contents(b)[trimmed + 1..];
  }

  lemma VisitOne(items: seq<Item>, left: map<Key, Item>, k: Key)
    requires |left| > 0 && IsFirst(k, left)
    ensures items + InOrder(left) == (items + [left[k]]) + InOrder(left - {k})
  {
    RemoveFirst(left, k);
  }

  /** Visit a bucket's entries in key order. */
  method ReadAll(entries: map<Key, Item>) returns (items: seq<Item>)
    ensures items == InOrder(entries)
  {
    items := [];
    var left := entries;
    while |left| > 0
      invariant items + InOrder(left) == InOrder(entries)
      decreases |left|
    {
      ghost var f := FirstExists(left);
      var k :| k in left && IsFirst(k, left);
      VisitOne(items, left, k);
      FewerEntries(left, k);
      items := items + [left[k]];
      left := left - {k};
    }
  }

  /** The read phase's pairs are deleted one by one; the counters stay. */
  method DeleteExpired(buckets: map<DeviceId, Bucket>, now: int, ttl: int)
    returns (r: map<DeviceId, Bucket>, removed: nat)
    ensures r.Keys == buckets.Keys
    ensures forall d :: d in buckets ==> r[d] == buckets[d].(entries := Unexpired(buckets[d].entries, now, ttl))
    ensures removed == |ExpiredKeys(buckets, now, ttl)|
  {
    r, removed := buckets, 0;
    var toDelete := ExpiredKeys(buckets, now, ttl);
    while toDelete != {}
      invariant r.Keys == buckets.Keys
      invariant toDelete <= ExpiredKeys(buckets, now, ttl)
      invariant removed + |toDelete| == |ExpiredKeys(buckets, now, ttl)|
      invariant forall d :: d in buckets ==> r[d] == buckets[d].(entries := Without(buckets, d, now, ttl, toDelete))
      decreases |toDelete|
    {
      var t :| t in toDelete;
      var b := r[t.0];
      forall d | d in buckets { WithoutOneMore(buckets, d, now, ttl, toDelete, t); }
      r := r[t.0 := b.(entries := b.entries - {t.1})];
      toDelete := toDelete - {t};
      removed := removed + 1;
    }
    forall d | d in buckets { WithoutAll(buckets, d, now, ttl); }
  }

  /** The queues root bucket. */
  class Queues {
    var buckets: map<DeviceId, Bucket>

    ghost predicate Valid()
      reads this
    {
      forall d :: d in buckets ==> Sound(buckets[d])
    }

    /** What the buckets mean: one FIFO per device. */
    ghost function View(): map<DeviceId, seq<Item>>
      reads this
    {
      QueuesOf(buckets)
    }

    constructor ()
      ensures Valid() && View() == map[]
    {
      buckets := map[];
    }

    /** Append an item and drop the oldest beyond `maxDepth`. When the counter wraps, the
        item goes in front instead, and is the first to be dropped. */
    method Enqueue(id: DeviceId, item: Item, maxDepth: int) returns (trimmed: nat)
      requires Valid()
      modifies this
      ensures old(BucketOf(buckets, id)).sequence < MAX_SEQUENCE ==>
        && Valid()
        && View() == old(View())[id := Fifo.Enqueued(old(QueueOf(buckets, id)), item, maxDepth)]
        && trimmed == |Fifo.Trimmed(old(QueueOf(buckets, id)), item, maxDepth)|
      ensures old(BucketOf(buckets, id)).sequence == MAX_SEQUENCE ==>
        && View() == old(View())[id := Fifo.Kept([item] + old(QueueOf(buckets, id)), maxDepth)]
        && trimmed == |Fifo.Dropped([item] + old(QueueOf(buckets, id)), maxDepth)|
      ensures old(BucketOf(buckets, id)).sequence < 0xFFFF_FFFF_FFFF_FFFF ==>
        Fifo.Bounded(old(QueueOf(buckets, id)) + [item], maxDepth, QueueOf(buckets, id), trimmed)
    {
      Fifo.EnqueuedIs(QueueOf(buckets, id), item, maxDepth);
      var b := BucketOf(buckets, id);
      var stored := Stored(b, item);
      var r;
      r, trimmed := Trim(stored, maxDepth);
      QueuesPut(buckets, id, r);
      if b.sequence < MAX_SEQUENCE {
        StoredSound(b, item);
        StoredLast(b, item);
        SoundWithout(stored, r.entries);
      } else {
        StoredFirst(b, item);
      }
      buckets := buckets[id := r];
    }

    /** Return everything in key order and delete the device's bucket. */
    method DrainQueue(id: DeviceId) returns (items: seq<Item>)
      requires Valid()
      modifies this
      ensures Valid()
      ensures items == old(QueueOf(buckets, id))
      ensures View() == old(View()) - {id}
    {
      items := ReadAll(BucketOf(buckets, id).entries);
      QueuesTake(buckets, id);
      buckets := buckets - {id};
    }

    /** Drop every item older than `ttl`, and queues left empty. */
    method PurgeExpired(now: int, ttl: int) returns (removed: nat)
      requires Valid()
      modifies this
      ensures Valid()
      ensures ttl <= 0 ==> removed == 0 && buckets == old(buckets)
      ensures ttl > 0 ==> removed == |ExpiredKeys(old(buckets), now, ttl)|
      ensures ttl > 0 ==> View() == Fifo.Purged(old(View()), now, ttl)
      ensures ttl > 0 ==> Fifo.OnlyFresh(old(View()), View(), now, ttl)
    {
      removed := 0;
      if ttl <= 0 {
        return;
      }
      var r;
      r, removed := DeleteExpired(buckets, now, ttl);
      forall d | d in buckets
        ensures Sound(r[d]) && Contents(r[d]) == Fifo.Fresh(Contents(buckets[d]), now, ttl)
        ensures Contents(r[d]) == [] <==> |r[d].entries| == 0
      {
        SoundWithout(buckets[d], r[d].entries);
        FilterInOrder(buckets[d].entries, now, ttl);
        InOrderLength(r[d].entries);
      }
      QueuesPurged(buckets, r, now, ttl);
      Fifo.PurgedIs(View(), now, ttl);
      buckets := NonEmpty(r);
    }

    /** The pin set of the blob collector. */
    method AllQueuedBlobIds() returns (ids: set<BlobId>)
      requires Valid()
      ensures ids == Fifo.Pinned(View())
    {
      ids := set d, k | d in buckets && k in buckets[d].entries && buckets[d].entries[k].clip.blob.Some?
        :: buckets[d].entries[k].clip.blob.value;
      forall b ensures b in ids <==> b in Fifo.Pinned(View()) {
        PinnedIff(buckets, b);
      }
    }
  }

  lemma PinnedIff(buckets: map<DeviceId, Bucket>, b: BlobId)
    ensures b in Fifo.Pinned(QueuesOf(buckets)) <==>
      exists d, k :: d in buckets && k in buckets[d].entries && buckets[d].entries[k].clip.blob == Some(b)
  {
    if b in Fifo.Pinned(QueuesOf(buckets)) {
      var d, it :| d in QueuesOf(buckets) && it in QueuesOf(buckets)[d] && it.clip.blob == Some(b);
      ValuesInOrder(buckets[d].entries, it);
    }
    if d, k :| d in buckets && k in buckets[d].entries && buckets[d].entries[k].clip.blob == Some(b) {
      ValuesInOrder(buckets[d].entries, buckets[d].entries[k]);
      assert d in QueuesOf(buckets) && buckets[d].entries[k] in QueuesOf(buckets)[d];
    }
  }
}
