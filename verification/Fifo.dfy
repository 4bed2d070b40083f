/** The bounded FIFO that a device's offline queue stands for. */
module Fifo {
  import opened Model

  /** How many of `n` items fit a queue bounded by `depth`. A bound below zero keeps nothing. */
  function Fits(n: nat, depth: int): (k: nat)
    ensures k <= n
  {
    if depth <= 0 then 0 else if n <= depth then n else depth
  }

  /** The newest items that survive trimming: all of them, or exactly `depth`. */
  function Kept(q: seq<Item>, depth: int): seq<Item> {
    q[|q| - Fits(|q|, depth)..]
  }

  /** The oldest items that trimming drops: as many as there are too many. */
  function Dropped(q: seq<Item>, depth: int): seq<Item> {
    q[..|q| - Fits(|q|, depth)]
  }

  function Enqueued(q: seq<Item>, item: Item, depth: int): seq<Item> {
    Kept(q + [item], depth)
  }

  function Trimmed(q: seq<Item>, item: Item, depth: int): seq<Item> {
    Dropped(q + [item], depth)
  }

  /** Of `q`, the newest `depth` items are left, all if there are no more, and `dropped`
      went; a bound below one leaves nothing. */
  ghost predicate Bounded(q: seq<Item>, depth: int, left: seq<Item>, dropped: int) {
    && |left| == (if depth <= 0 then 0 else if |q| <= depth then |q| else depth)
    && left == q[|q| - |left|..] && dropped == |q| - |left|
  }

  lemma KeptIs(q: seq<Item>, depth: int)
    ensures Bounded(q, depth, Kept(q, depth), |Dropped(q, depth)|)
    ensures Dropped(q, depth) + Kept(q, depth) == q
  {
  }

  /** The new item is among those left whenever anything is. */
  lemma EnqueuedIs(q: seq<Item>, item: Item, depth: int)
    ensures Bounded(q + [item], depth, Enqueued(q, item, depth), |Trimmed(q, item, depth)|)
    ensures Trimmed(q, item, depth) + Enqueued(q, item, depth) == q + [item]
    ensures depth >= 1 ==> var r := Enqueued(q, item, depth); r != [] && r[|r| - 1] == item
  {
    KeptIs(q + [item], depth);
  }

  predicate Expired(item: Item, now: int, ttl: int) {
    now - item.enqueuedAt > ttl
  }

  /** The items purging leaves behind, in their old order. */
  function Fresh(q: seq<Item>, now: int, ttl: int): seq<Item> {
    if q == [] then [] else
      (if Expired(q[0], now, ttl) then [] else [q[0]]) + Fresh(q[1..], now, ttl)
  }

  /** The items purging removes. */
  function Stale(q: seq<Item>, now: int, ttl: int): seq<Item> {
    if q == [] then [] else
      (if Expired(q[0], now, ttl) then [q[0]] else []) + Stale(q[1..], now, ttl)
  }

  /** Purging goes item by item: one that is older than `ttl` goes, any other stays. */
  lemma FreshOne(item: Item, now: int, ttl: int)
    ensures Fresh([item], now, ttl) == if now - item.enqueuedAt > ttl then [] else [item]
  {
    assert [item][1..] == [];
  }

  lemma {:induction false} FreshConcat(a: seq<Item>, b: seq<Item>, now: int, ttl: int)
    ensures Fresh(a + b, now, ttl) == Fresh(a, now, ttl) + Fresh(b, now, ttl)
  {
    if a == [] {
      assert a + b == b;
    } else {
      assert (a + b)[1..] == a[1..] + b;
      FreshConcat(a[1..], b, now, ttl);
    }
  }

  lemma {:induction false} FreshIff(q: seq<Item>, now: int, ttl: int, item: Item)
    ensures item in Fresh(q, now, ttl) <==> item in q && now - item.enqueuedAt <= ttl
  {
    if q != [] {
      FreshIff(q[1..], now, ttl, item);
      assert q == [q[0]] + q[1..];
    }
  }

  /** All queues after a purge; a device left with nothing has no queue. */
  function Purged(queues: map<DeviceId, seq<Item>>, now: int, ttl: int): map<DeviceId, seq<Item>> {
    map d | d in queues && Fresh(queues[d], now, ttl) != [] :: Fresh(queues[d], now, ttl)
  }

  /** Some queue of the device holds the item. */
  predicate Holds(queues: map<DeviceId, seq<Item>>, d: DeviceId, item: Item) {
    d in queues && item in queues[d]
  }

  /** Exactly the items that are not older than `ttl` are left. */
  ghost predicate OnlyFresh(queues: map<DeviceId, seq<Item>>, left: map<DeviceId, seq<Item>>, now: int, ttl: int) {
    forall d, item :: Holds(left, d, item) <==> Holds(queues, d, item) && now - item.enqueuedAt <= ttl
  }

  lemma PurgedIs(queues: map<DeviceId, seq<Item>>, now: int, ttl: int)
    ensures OnlyFresh(queues, Purged(queues, now, ttl), now, ttl)
  {
    forall d, item
      ensures Holds(Purged(queues, now, ttl), d, item) <==> Holds(queues, d, item) && now - item.enqueuedAt <= ttl
    {
      if d in queues {
        FreshIff(queues[d], now, ttl, item);
      }
    }
  }

  /** What the purge takes from each queue. */
  function Expiring(queues: map<DeviceId, seq<Item>>, now: int, ttl: int): map<DeviceId, seq<Item>> {
    map d | d in queues :: Stale(queues[d], now, ttl)
  }

  /** The blobs some queued clip refers to. */
  function Pinned(queues: map<DeviceId, seq<Item>>): set<BlobId> {
    set d, it | d in queues && it in queues[d] && it.clip.blob.Some? :: it.clip.blob.value
  }
}
