/** The relay hub's own state and the effect of each piece of its handlers on it
    (server/internal/hub/hub.go, server/internal/hub/client.go). */
module RelayCore {
  import opened Model
  import opened Fifo

  /** Connections are named by number; a number stands for one *Client pointer. */
  type ConnId = nat

  /** What a connection's send channel carries. Queued and Live are both clip
      frames on the wire; the tag records which code path produced them. */
  datatype Frame = Hello | Queued(item: Item) | Live(clip: Clip) | Control

  /** A connection: every frame its channel ever accepted, how many of them the
      write pump has taken, and whether the hub asked it to close. */
  datatype Conn = Conn(dev: DeviceId, cap: nat, log: seq<Frame>, taken: nat, closed: bool)

  predicate HasRoom(c: Conn) {
    |c.log| - c.taken < c.cap
  }

  function Offer(c: Conn, f: Frame): Conn {
    if HasRoom(c) then c.(log := c.log + [f]) else c
  }

  /** Who may fetch a blob, and who advertised it. */
  datatype Acl = Acl(origin: DeviceId, allowed: set<DeviceId>)

  datatype Core = Core(
    clients: map<DeviceId, ConnId>,
    conns: map<ConnId, Conn>,
    onDemand: map<BlobId, DeviceId>,
    acl: map<BlobId, Acl>,
    persisted: map<BlobId, Acl>,
    queues: map<DeviceId, seq<Item>>,
    pools: map<DeviceId, string>)
  {
    /** A device without a bucket has an empty queue. */
    function Queue(d: DeviceId): seq<Item> {
      if d in queues then queues[d] else []
    }

    function PoolOf(d: DeviceId): string {
      if d in pools && pools[d] != "" then pools[d] else "default"
    }

    /** The registry only names connections that exist, each under its own device. */
    predicate WellFormed() {
      && (forall d :: d in clients ==> clients[d] in conns && conns[clients[d]].dev == d)
      && (forall c :: c in conns ==> conns[c].taken <= |conns[c].log|)
    }
  }

  predicate Unpooled(k: Core, d: DeviceId) {
    d !in k.pools || k.pools[d] == "" || k.pools[d] == "default"
  }

  /** Two devices share a pool if and only if both were put in the same one, or neither
      was put in any but the default: unknown devices and unnamed pools all meet there. */
  lemma SamePoolIff(k: Core, d: DeviceId, e: DeviceId)
    ensures k.PoolOf(d) == k.PoolOf(e) <==>
      (Unpooled(k, d) && Unpooled(k, e)) || (d in k.pools && e in k.pools && k.pools[d] == k.pools[e])
  {
  }

  function OfferTo(k: Core, c: ConnId, f: Frame): Core
    requires c in k.conns
  {
    k.(conns := k.conns[c := Offer(k.conns[c], f)])
  }

  function CloseConn(k: Core, c: ConnId): Core
    requires c in k.conns
  {
    k.(conns := k.conns[c := k.conns[c].(closed := true)])
  }

  function Enqueue(k: Core, d: DeviceId, item: Item, depth: int): Core {
    k.(queues := k.queues[d := Enqueued(k.Queue(d), item, depth)])
  }

  /** Forget every blob holding and every ACL that belongs to `d`. */
  function Prune(k: Core, d: DeviceId): Core {
    k.(onDemand := map b | b in k.onDemand && k.onDemand[b] != d :: k.onDemand[b],
       acl := map b | b in k.acl && !(b in k.onDemand && k.onDemand[b] == d) && k.acl[b].origin != d :: k.acl[b])
  }

  /** Close the device's connection, if it has one, and drop it from the registry. */
  function Dislodge(k: Core, d: DeviceId): Core
    requires k.WellFormed()
  {
    if d !in k.clients then k else
      var k1 := CloseConn(k, k.clients[d]);
      k1.(clients := k1.clients - {d})
  }

  /** Dislodge a device for good: its blob holdings go too. */
  function Expel(k: Core, d: DeviceId): Core
    requires k.WellFormed()
  {
    if d !in k.clients then k else Prune(Dislodge(k, d), d)
  }

  /** The first half of registration: replace any older connection (whose holdings
      stay), enter the registry, queue hello_ok. */
  function Admit(k: Core, c: ConnId): Core
    requires c in k.conns && k.WellFormed()
  {
    var d := k.conns[c].dev;
    var k1 := Dislodge(k, d);
    OfferTo(k1.(clients := k1.clients[d := c]), c, Hello)
  }

  /** A stale unregister, for a connection that is not the registered one, does nothing. */
  function Leave(k: Core, c: ConnId): Core
    requires c in k.conns
  {
    var d := k.conns[c].dev;
    if d in k.clients && k.clients[d] == c then Prune(k.(clients := k.clients - {d}), d) else k
  }

  /** Under enforced end-to-end encryption, anything readable is refused. */
  predicate Refused(e2e: bool, clip: Clip) {
    e2e && !clip.encrypted && (clip.text != "" || clip.html != "" || clip.blob.Some?)
  }

  /** Whether a blob-bearing clip may (re)write the blob's claim. */
  predicate ClaimAllowed(k: Core, clip: Clip) {
    clip.blob.Some? &&
    !(clip.blob.value in k.acl
      && k.acl[clip.blob.value].origin != clip.origin
      && k.acl[clip.blob.value].origin in k.clients)
  }

  function ClaimOf(clip: Clip, targets: seq<DeviceId>): Acl {
    Acl(clip.origin, {clip.origin} + set d | d in targets)
  }

  function Claim(k: Core, clip: Clip, targets: seq<DeviceId>): Core {
    if !ClaimAllowed(k, clip) then k else
      var b := clip.blob.value;
      k.(acl := k.acl[b := ClaimOf(clip, targets)],
         persisted := k.persisted[b := ClaimOf(clip, targets)],
         onDemand := if clip.onDemand then k.onDemand[b := clip.origin] else k.onDemand)
  }

  /** Whether a routed clip is taken by the device's live connection. */
  predicate Takes(k: Core, d: DeviceId)
    requires k.WellFormed()
  {
    d in k.clients && HasRoom(k.conns[k.clients[d]])
  }

  /** One turn of the routing loop, for a target other than the origin. */
  function Deliver(k: Core, clip: Clip, d: DeviceId, depth: int, now: int): Core
    requires k.WellFormed()
  {
    if Takes(k, d) then OfferTo(k, k.clients[d], Live(clip))
    else Enqueue(Expel(k, d), d, Item(clip, now), depth)
  }

  /** The hub's answer to a fetch: the in-memory ACL, else the pool of a known holder. */
  predicate HubMayFetch(k: Core, b: BlobId, d: DeviceId) {
    if b in k.acl then d in k.acl[b].allowed
    else b in k.onDemand && k.PoolOf(k.onDemand[b]) == k.PoolOf(d)
  }

  /** What GET /blob/<id> authorizes: the hub's answer, else the persisted ACL. */
  predicate MayFetch(k: Core, b: BlobId, d: DeviceId) {
    || HubMayFetch(k, b, d)
    || (b in k.persisted && (d == k.persisted[b].origin || d in k.persisted[b].allowed))
  }

  /** What PUT /blob/<id> authorizes: a known holder only, else anybody. */
  predicate MaySupply(k: Core, b: BlobId, d: DeviceId) {
    b in k.onDemand ==> k.onDemand[b] == d
  }

  /** Whether a pull request for a blob reaches its holder's send channel. */
  predicate CanPull(k: Core, b: BlobId)
    requires k.WellFormed()
  {
    b in k.onDemand && Takes(k, k.onDemand[b])
  }
}
