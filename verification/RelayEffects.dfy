/** What the pieces of the hub's handlers come to, told in the fields they read and write:
    registry, channels, holdings, ACLs and queues. */
module RelayEffects {
  import opened Model
  import Fifo
  import opened RelayCore
  import opened RelayMachine
  import opened RelaySafety
  import opened RelayClaims
  import opened RelayHub

  /** How many more frames the connection's channel takes. */
  function Free(c: Conn): int {
    c.cap - (|c.log| - c.taken)
  }

  /** Connection `c` accepted the frames, and nothing else changed. */
  predicate Accepts(k: Core, k': Core, c: ConnId, frames: seq<Frame>) {
    c in k.conns && k' == k.(conns := k.conns[c := k.conns[c].(log := k.conns[c].log + frames)])
  }

  /** Connection `c` was asked to close, and no other connection changed. */
  predicate Closes(conns: map<ConnId, Conn>, conns': map<ConnId, Conn>, c: ConnId) {
    c in conns && conns' == conns[c := conns[c].(closed := true)]
  }

  /** What `d` held and what it claimed is forgotten, and nothing else. */
  ghost predicate Stripped(k: Core, k': Core, d: DeviceId) {
    && (forall b :: b in k'.onDemand <==> b in k.onDemand && k.onDemand[b] != d)
    && (forall b :: b in k'.onDemand ==> k'.onDemand[b] == k.onDemand[b])
    && (forall b :: b in k'.acl <==>
         b in k.acl && k.acl[b].origin != d && !(b in k.onDemand && k.onDemand[b] == d))
    && (forall b :: b in k'.acl ==> k'.acl[b] == k.acl[b])
  }

  predicate SameStore(k: Core, k': Core) {
    k'.persisted == k.persisted && k'.queues == k.queues && k'.pools == k.pools
  }

  lemma PruneIs(k: Core, d: DeviceId)
    ensures Stripped(k, Prune(k, d), d)
    ensures SameStore(k, Prune(k, d)) && Prune(k, d).clients == k.clients && Prune(k, d).conns == k.conns
  {
  }

  /** Eviction of a device that is connected. */
  lemma ExpelIs(k: Core, d: DeviceId)
    requires k.WellFormed()
    ensures Expelled(k, Expel(k, d), d)
  {
    if d in k.clients {
      PruneIs(Dislodge(k, d), d);
    }
  }

  /** Only the registered connection of its device leaves, and takes its holdings along. */
  lemma LeaveIs(k: Core, c: ConnId)
    requires c in k.conns
    ensures var k', d := Leave(k, c), k.conns[c].dev;
      if d in k.clients && k.clients[d] == c then
        k'.clients == k.clients - {d} && k'.conns == k.conns && Stripped(k, k', d) && SameStore(k, k')
      else k' == k
  {
    var d := k.conns[c].dev;
    if d in k.clients && k.clients[d] == c {
      PruneIs(k.(clients := k.clients - {d}), d);
    }
  }

  /** A fresh connection takes its device's place; the older one is closed, its holdings stay. */
  lemma AdmitIs(k: Core, c: ConnId)
    requires k.WellFormed() && c in k.conns && k.conns[c].log == [] && k.conns[c].cap >= 1 && !Current(k, c)
    ensures var k', d := Admit(k, c), k.conns[c].dev;
      && k'.clients == k.clients[d := c] && c in k'.conns && k'.conns[c] == k.conns[c].(log := [Hello])
      && (forall x :: x in k'.conns <==> x in k.conns)
      && (forall x :: x in k.conns && x != c ==>
           (k'.conns[x] == if d in k.clients && x == k.clients[d] then k.conns[x].(closed := true) else k.conns[x]))
      && k'.onDemand == k.onDemand && k'.acl == k.acl && SameStore(k, k')
  {
    var d := k.conns[c].dev;
    var k1 := Dislodge(k, d);
    AdmitShape(k, c);
    DislodgeIs(k, d);
    assert Admit(k, c).clients == k1.clients[d := c] == k.clients[d := c];
    AdmitKeeps(k, c);
  }

  lemma DislodgeIs(k: Core, d: DeviceId)
    requires k.WellFormed()
    ensures var k1 := Dislodge(k, d);
      && k1.clients == k.clients - {d} && k1.conns.Keys == k.conns.Keys
      && forall x :: x in k.conns ==>
           (k1.conns[x] == if d in k.clients && x == k.clients[d] then k.conns[x].(closed := true) else k.conns[x])
  {
  }

  lemma AdmitKeeps(k: Core, c: ConnId)
    requires k.WellFormed() && c in k.conns
    ensures Admit(k, c).onDemand == k.onDemand && Admit(k, c).acl == k.acl && SameStore(k, Admit(k, c))
  {
    var d := k.conns[c].dev;
    var k1 := Dislodge(k, d);
    assert k1 == k.(clients := k1.clients, conns := k1.conns);
    assert Admit(k, c) == k1.(clients := Admit(k, c).clients, conns := Admit(k, c).conns);
  }

  function Frames(items: seq<Item>): seq<Frame> {
    seq(|items|, i requires 0 <= i < |items| => Queued(items[i]))
  }

  /** How many of `n` frames the channel takes. */
  function Fitting(c: Conn, n: nat): nat {
    if Free(c) <= 0 then 0 else if n <= Free(c) then n else Free(c)
  }

  /** As many drained clips are handed over, oldest first, as the channel takes. */
  lemma {:induction false} OfferAllIs(k: Core, c: ConnId, items: seq<Item>)
    requires c in k.conns
    ensures var n := Fitting(k.conns[c], |items|);
      Accepts(k, OfferAll(k, c, items).0, c, Frames(items[..n])) && OfferAll(k, c, items).1 == items[n..]
    decreases |items|
  {
    var conn := k.conns[c];
    if items == [] || !HasRoom(conn) {
      assert Frames(items[..0]) == [] && conn.log + [] == conn.log;
      assert k.conns[c := conn] == k.conns;
    } else {
      var k1, rest := OfferTo(k, c, Queued(items[0])), items[1..];
      OfferAllIs(k1, c, rest);
      var m := Fitting(k1.conns[c], |rest|);
      assert Fitting(conn, |items|) == m + 1;
      OneMore(k, k1, OfferAll(k1, c, rest).0, c, items, m);
    }
  }

  lemma OneMore(k: Core, k1: Core, k2: Core, c: ConnId, items: seq<Item>, m: nat)
    requires m < |items| && Accepts(k, k1, c, [Queued(items[0])]) && Accepts(k1, k2, c, Frames(items[1..][..m]))
    ensures Accepts(k, k2, c, Frames(items[..m + 1])) && items[1..][m..] == items[m + 1..]
  {
    var log := k.conns[c].log;
    assert Frames(items[..m + 1]) == [Queued(items[0])] + Frames(items[1..][..m]);
    assert log + Frames(items[..m + 1]) == (log + [Queued(items[0])]) + Frames(items[1..][..m]);
  }

  // ---- routing ----

  /** What a device without a bucket has queued is nothing. */
  function QueueIn(queues: map<DeviceId, seq<Item>>, d: DeviceId): seq<Item> {
    if d in queues then queues[d] else []
  }

  /** The device's queue got the item, within the bound; no other queue changed. */
  ghost predicate QueuesFor(q: map<DeviceId, seq<Item>>, q': map<DeviceId, seq<Item>>, d: DeviceId, item: Item,
                            depth: int) {
    && d in q' && q'.Keys == q.Keys + {d}
    && (forall e :: e in q && e != d ==> q'[e] == q[e])
    && Fifo.Bounded(QueueIn(q, d) + [item], depth, q'[d], |QueueIn(q, d)| + 1 - |q'[d]|)
  }

  lemma EnqueueIs(k: Core, d: DeviceId, item: Item, depth: int)
    ensures QueuesFor(k.queues, Enqueue(k, d, item, depth).queues, d, item, depth)
  {
    assert k.Queue(d) == QueueIn(k.queues, d);
    Fifo.EnqueuedIs(k.Queue(d), item, depth);
  }

  /** What ExpelIs says. */
  ghost predicate Expelled(k: Core, k': Core, d: DeviceId) {
    if d in k.clients then
      && k'.clients == k.clients - {d} && Closes(k.conns, k'.conns, k.clients[d])
      && Stripped(k, k', d) && SameStore(k, k')
    else k' == k
  }

  lemma TakenIs(k: Core, clip: Clip, d: DeviceId, depth: int, now: int)
    requires k.WellFormed() && Takes(k, d)
    ensures Accepts(k, Deliver(k, clip, d, depth, now), k.clients[d], [Live(clip)])
  {
  }

  /** The device has a connection whose channel takes another frame. */
  predicate CanTake(k: Core, d: DeviceId)
    requires k.WellFormed()
  {
    d in k.clients && |k.conns[k.clients[d]].log| - k.conns[k.clients[d]].taken < k.conns[k.clients[d]].cap
  }

  /** One turn of the routing loop. A registered device whose channel takes another frame
      gets the clip on it, and nothing else changes; any other device is expelled, if it is
      connected, and its queue gets the clip. */
  lemma DeliverIs(k: Core, clip: Clip, d: DeviceId, depth: int, now: int)
    requires k.WellFormed()
    ensures CanTake(k, d) ==> Accepts(k, Deliver(k, clip, d, depth, now), k.clients[d], [Live(clip)])
    ensures !CanTake(k, d) ==>
      exists k1 :: Expelled(k, k1, d)
        && Deliver(k, clip, d, depth, now) == k1.(queues := Deliver(k, clip, d, depth, now).queues)
    ensures !CanTake(k, d) ==>
      QueuesFor(k.queues, Deliver(k, clip, d, depth, now).queues, d, Item(clip, now), depth)
  {
    if Takes(k, d) {
      TakenIs(k, clip, d, depth, now);
    } else {
      ExpelIs(k, d);
      var k1 := Expel(k, d);
      var k2 := Enqueue(k1, d, Item(clip, now), depth);
      assert k2 == k1.(queues := k2.queues);
      EnqueueIs(k1, d, Item(clip, now), depth);
      assert k1.queues == k.queues;
    }
  }

  /** How many targets there are besides the origin. */
  lemma {:induction false} RecipientsAre(clip: Clip, targets: seq<DeviceId>)
    ensures Recipients(clip, targets) == |targets| - multiset(targets)[clip.origin]
  {
    if targets != [] {
      RecipientsAre(clip, targets[1..]);
      assert targets == [targets[0]] + targets[1..];
    }
  }

  lemma DeliverKeeps(k: Core, clip: Clip, d: DeviceId, depth: int, now: int, e: DeviceId)
    requires k.WellFormed()
    ensures var k' := Deliver(k, clip, d, depth, now);
      && (e != d ==> (e in k'.clients <==> e in k.clients))
      && (e == d ==> (e in k'.clients <==> Takes(k, d)))
  {
    if Takes(k, d) {
      TakenIs(k, clip, d, depth, now);
    } else {
      ExpelIs(k, d);
    }
  }

  lemma {:induction false} OnceOut(k: Core, clip: Clip, targets: seq<DeviceId>, depth: int, now: int, d: DeviceId)
    requires k.WellFormed() && d !in k.clients
    ensures d !in DeliverAll(k, clip, targets, depth, now).clients
    decreases |targets|
  {
    if targets != [] {
      if targets[0] != clip.origin {
        DeliverWellFormed(k, clip, targets[0], depth, now);
        DeliverKeeps(k, clip, targets[0], depth, now, d);
        OnceOut(Deliver(k, clip, targets[0], depth, now), clip, targets[1..], depth, now, d);
      } else {
        OnceOut(k, clip, targets[1..], depth, now, d);
      }
    }
  }

  /** The reported devices are exactly the recipients that are not registered once the
      clip has been routed. */
  lemma {:induction false} QueuedForIff(k: Core, clip: Clip, targets: seq<DeviceId>, depth: int, now: int, d: DeviceId)
    requires k.WellFormed()
    ensures d in QueuedFor(k, clip, targets, depth, now) <==>
      d in targets && d != clip.origin && d !in DeliverAll(k, clip, targets, depth, now).clients
    ensures d !in targets ==> (d in DeliverAll(k, clip, targets, depth, now).clients <==> d in k.clients)
    decreases |targets|
  {
    if targets != [] {
      assert targets == [targets[0]] + targets[1..];
      if targets[0] == clip.origin {
        QueuedForIff(k, clip, targets[1..], depth, now, d);
      } else {
        QueuedForFirst(k, clip, targets, depth, now, d);
      }
    }
  }

  lemma {:induction false} QueuedForFirst(k: Core, clip: Clip, targets: seq<DeviceId>, depth: int, now: int,
                                          d: DeviceId)
    requires k.WellFormed() && targets != [] && targets[0] != clip.origin
    ensures d in QueuedFor(k, clip, targets, depth, now) <==>
      d in targets && d != clip.origin && d !in DeliverAll(k, clip, targets, depth, now).clients
    ensures d !in targets ==> (d in DeliverAll(k, clip, targets, depth, now).clients <==> d in k.clients)
    decreases |targets|, 0
  {
    var first, rest := targets[0], targets[1..];
    assert targets == [first] + rest;
    var k1 := Deliver(k, clip, first, depth, now);
    DeliverFirst(k, clip, targets, depth, now);
    DeliverKeeps(k, clip, first, depth, now, d);
    QueuedForIff(k1, clip, rest, depth, now, d);
    if d == first && !Takes(k, first) {
      OnceOut(k1, clip, rest, depth, now, d);
    }
  }

  // ---- claims and access ----

  /** Nobody else who is online has claimed the blob. */
  predicate Unclaimed(k: Core, b: BlobId, origin: DeviceId) {
    b !in k.acl || k.acl[b].origin == origin || k.acl[b].origin !in k.clients
  }

  /** Routing a clip that refers to a blob: unless somebody else who is online has claimed
      it, memory and record name the origin and every target, and the origin is the holder
      if it keeps the bytes; otherwise nothing changes. */
  lemma ClaimIs(k: Core, clip: Clip, targets: seq<DeviceId>, b: BlobId)
    requires clip.blob == Some(b)
    ensures var k' := Claim(k, clip, targets);
      if Unclaimed(k, b, clip.origin) then
        && b in k'.acl && k'.acl[b].origin == clip.origin && k'.acl == k.acl[b := k'.acl[b]]
        && (forall d :: d in k'.acl[b].allowed <==> d == clip.origin || d in targets)
        && k'.persisted == k.persisted[b := k'.acl[b]]
        && k'.onDemand == (if clip.onDemand then k.onDemand[b := clip.origin] else k.onDemand)
        && k'.clients == k.clients && k'.conns == k.conns && k'.queues == k.queues && k'.pools == k.pools
      else k' == k
  {
  }

  /** What GET /blob/<id> comes to. */
  lemma FetchIff(k: Core, b: BlobId, d: DeviceId)
    ensures MayFetch(k, b, d) <==>
      || (b in k.acl && d in k.acl[b].allowed)
      || (b !in k.acl && b in k.onDemand && k.PoolOf(k.onDemand[b]) == k.PoolOf(d))
      || (b in k.persisted && (d == k.persisted[b].origin || d in k.persisted[b].allowed))
  {
  }

  /** Right after the route exactly the origin and the targets may fetch the blob. */
  lemma RouteGrants(k: Core, clip: Clip, targets: seq<DeviceId>, b: BlobId, d: DeviceId)
    requires clip.blob == Some(b) && Unclaimed(k, b, clip.origin)
    ensures MayFetch(Claim(k, clip, targets), b, d) <==> d == clip.origin || d in targets
  {
    ClaimIs(k, clip, targets, b);
  }

  /** Plain content under enforced end-to-end encryption. */
  predicate Readable(clip: Clip) {
    !clip.encrypted && (clip.text != "" || clip.html != "" || clip.blob.Some?)
  }

  lemma RouteRecorded(s: State, clip: Clip, targets: seq<DeviceId>, e2e: bool, b: BlobId, d: DeviceId)
    requires Enabled(s, RouteBegin(clip, targets, e2e)) && !(e2e && Readable(clip))
    requires clip.blob == Some(b) && Unclaimed(s.core, b, clip.origin)
    ensures var t := Next(s, RouteBegin(clip, targets, e2e));
      && t.core == Claim(s.core, clip, targets) && t.handler == Routing(clip, targets)
      && b in t.claims && (d in t.claims[b].allowed <==> d == clip.origin || d in targets)
  {
  }

  /** And so it stays, over every run, whoever disconnects, is evicted or replaced, changes
      pools or claims other blobs, for as long as the blob is not routed again and its
      record carries the ACL. */
  lemma RoutedAccess(run: seq<State>, steps: seq<Step>, i: nat, j: nat, clip: Clip, targets: seq<DeviceId>, e2e: bool,
                     b: BlobId, d: DeviceId)
    requires OwnedRun(run, steps) && i < j < |run| && steps[i] == RouteBegin(clip, targets, e2e)
    requires !(e2e && Readable(clip)) && clip.blob == Some(b) && Unclaimed(run[i].core, b, clip.origin)
    requires forall x :: i < x < j ==> !(steps[x].RouteBegin? && steps[x].clip.blob == Some(b))
    requires b in run[j].core.persisted
    ensures MayFetch(run[j].core, b, d) <==> d == clip.origin || d in targets
  {
    RouteRecordedAt(run, steps, i, clip, targets, e2e, b, d);
    var routed := run[i + 1].claims[b];
    assert b in run[j].claims && run[j].claims[b] == routed by {
      ClaimsUnchanged(run, steps, i + 1, j, b);
    }
    FetchAuthorization(run, steps, j, b, d);
  }

  lemma RouteRecordedAt(run: seq<State>, steps: seq<Step>, i: nat, clip: Clip, targets: seq<DeviceId>, e2e: bool,
                        b: BlobId, d: DeviceId)
    requires IsRun(run, steps) && i < |steps| && steps[i] == RouteBegin(clip, targets, e2e)
    requires !(e2e && Readable(clip)) && clip.blob == Some(b) && Unclaimed(run[i].core, b, clip.origin)
    ensures b in run[i + 1].claims
    ensures d in run[i + 1].claims[b].allowed <==> d == clip.origin || d in targets
  {
    LastStep(run, steps, i + 1);
    RouteRecorded(run[i], clip, targets, e2e, b, d);
  }

  /** Anybody may supply a blob nobody is known to hold; a known holder alone may otherwise. */
  lemma SupplyIff(k: Core, b: BlobId, d: DeviceId)
    ensures MaySupply(k, b, d) <==> b !in k.onDemand || k.onDemand[b] == d
  {
  }

  /** Routing is refused for readable content under enforced encryption, and only then:
      any other clip is owed to every target but the origin. */
  lemma RefusedIff(s: State, clip: Clip, targets: seq<DeviceId>, e2e: bool)
    requires Enabled(s, RouteBegin(clip, targets, e2e))
    ensures var t := Next(s, RouteBegin(clip, targets, e2e));
      if e2e && Readable(clip) then t == s
      else t.handler == Routing(clip, targets) && t.ledger.placed == s.ledger.placed + Owed(clip, targets)
  {
  }

  // ---- registration, turn by turn ----

  /** While the hub registers a connection, whatever happens in between, the oldest clip in
      hand is handed over as long as the channel takes another frame; only then, or when
      none is left, does the hub hand the rest back. */
  lemma HandsOverWhileFree(run: seq<State>, steps: seq<Step>, i: nat, c: ConnId)
    requires IsRun(run, steps) && i < |steps| && steps[i] == RegisterNext && run[i].handler == Registering(c)
    ensures c in run[i].core.conns && c in run[i].sessions && c in run[i + 1].sessions
    ensures var conn, ses, t := run[i].core.conns[c], run[i].sessions[c], run[i + 1];
      if ses.inHand != [] && |conn.log| - conn.taken < conn.cap then
        && Accepts(run[i].core, t.core, c, [Queued(ses.inHand[0])])
        && t.sessions[c].inHand == ses.inHand[1..] && t.handler == Registering(c)
      else
        && t.core == run[i].core && t.sessions[c].inHand == ses.inHand
        && t.handler == Idle && t.sessions[c].phase == Serving
  {
    LastStep(run, steps, i + 1);
  }
}
