/** The hub's handlers as the program runs them: one goroutine that updates the registry,
    the holder map and the ACL map in place (server/internal/hub/hub.go), and the bounded
    send channel of a client (server/internal/hub/client.go). */
module RelayHub {
  import opened Model
  import opened Fifo
  import opened RelayCore
  import opened RelayMachine
  import opened RelaySafety

  // ---- handlers without interruption ----

  /** Offer drained clips until one does not fit; what is left over is handed back. */
  function OfferAll(k: Core, c: ConnId, items: seq<Item>): (Core, seq<Item>)
    requires c in k.conns
    decreases |items|
  {
    if items == [] || !HasRoom(k.conns[c]) then (k, items)
    else OfferAll(OfferTo(k, c, Queued(items[0])), c, items[1..])
  }

  lemma DeliverWellFormed(k: Core, clip: Clip, d: DeviceId, depth: int, now: int)
    requires k.WellFormed()
    ensures Deliver(k, clip, d, depth, now).WellFormed()
  {
    if Takes(k, d) {
      OfferWellFormed(k, k.clients[d], Live(clip));
    } else {
      DislodgeShape(k, d);
    }
  }

  lemma OfferWellFormed(k: Core, c: ConnId, f: Frame)
    requires k.WellFormed() && c in k.conns
    ensures OfferTo(k, c, f).WellFormed()
  {
  }

  /** The routing loop over all targets. */
  function DeliverAll(k: Core, clip: Clip, targets: seq<DeviceId>, depth: int, now: int): Core
    requires k.WellFormed()
    decreases |targets|
  {
    if targets == [] then k
    else if targets[0] == clip.origin then DeliverAll(k, clip, targets[1..], depth, now)
    else
      DeliverWellFormed(k, clip, targets[0], depth, now);
      DeliverAll(Deliver(k, clip, targets[0], depth, now), clip, targets[1..], depth, now)
  }

  /** The targets for which the clip was queued rather than relayed. */
  function QueuedFor(k: Core, clip: Clip, targets: seq<DeviceId>, depth: int, now: int): seq<DeviceId>
    requires k.WellFormed()
    decreases |targets|
  {
    if targets == [] then []
    else if targets[0] == clip.origin then QueuedFor(k, clip, targets[1..], depth, now)
    else
      DeliverWellFormed(k, clip, targets[0], depth, now);
      (if Takes(k, targets[0]) then [] else [targets[0]])
      + QueuedFor(Deliver(k, clip, targets[0], depth, now), clip, targets[1..], depth, now)
  }

  /** After `i` turns that began in `start`, what remains leads to the same outcome. */
  ghost predicate Delivered(start: Core, k: Core, clip: Clip, targets: seq<DeviceId>, i: nat, depth: int, now: int,
                            queuedFor: seq<DeviceId>, relayed: int)
    requires start.WellFormed()
  {
    && i <= |targets| && k.WellFormed()
    && DeliverAll(k, clip, targets[i..], depth, now) == DeliverAll(start, clip, targets, depth, now)
    && queuedFor + QueuedFor(k, clip, targets[i..], depth, now) == QueuedFor(start, clip, targets, depth, now)
    && relayed + |queuedFor| + Recipients(clip, targets[i..]) == Recipients(clip, targets)
  }

  /** Something to be reached: a state of the hub, the devices queued for, how many relayed. */
  type Progress = (Core, seq<DeviceId>, int) -> bool

  ghost function DoneAfter(start: Core, clip: Clip, targets: seq<DeviceId>, i: nat, depth: int, now: int): Progress {
    (k, queuedFor, relayed) =>
      start.WellFormed() && Delivered(start, k, clip, targets, i, depth, now, queuedFor, relayed)
  }

  /** Every way one turn of the loop can go leads to `done`. */
  ghost predicate LeadsTo(done: Progress, k: Core, clip: Clip, d: DeviceId, depth: int, now: int,
                          queuedFor: seq<DeviceId>, relayed: int)
    requires k.WellFormed()
  {
    if d == clip.origin then done(k, queuedFor, relayed)
    else if Takes(k, d) then done(Deliver(k, clip, d, depth, now), queuedFor, relayed + 1)
    else done(Deliver(k, clip, d, depth, now), queuedFor + [d], relayed)
  }

  lemma SkipOrigin(k: Core, clip: Clip, targets: seq<DeviceId>, depth: int, now: int)
    requires k.WellFormed() && targets != [] && targets[0] == clip.origin
    ensures DeliverAll(k, clip, targets, depth, now) == DeliverAll(k, clip, targets[1..], depth, now)
    ensures QueuedFor(k, clip, targets, depth, now) == QueuedFor(k, clip, targets[1..], depth, now)
    ensures Recipients(clip, targets) == Recipients(clip, targets[1..])
  {
  }

  lemma DeliverFirst(k: Core, clip: Clip, targets: seq<DeviceId>, depth: int, now: int)
    requires k.WellFormed() && targets != [] && targets[0] != clip.origin
    ensures var k' := Deliver(k, clip, targets[0], depth, now);
      && k'.WellFormed()
      && DeliverAll(k, clip, targets, depth, now) == DeliverAll(k', clip, targets[1..], depth, now)
      && QueuedFor(k, clip, targets, depth, now)
         == (if Takes(k, targets[0]) then [] else [targets[0]]) + QueuedFor(k', clip, targets[1..], depth, now)
    ensures Recipients(clip, targets) == 1 + Recipients(clip, targets[1..])
  {
    DeliverWellFormed(k, clip, targets[0], depth, now);
  }

  lemma Regroup(a: seq<DeviceId>, b: seq<DeviceId>, c: seq<DeviceId>)
    ensures (a + b) + c == a + (b + c)
    ensures [] + c == c
  {
  }

  lemma TurnLeadsTo(start: Core, k: Core, clip: Clip, targets: seq<DeviceId>, i: nat, depth: int, now: int,
                    queuedFor: seq<DeviceId>, relayed: int)
    requires start.WellFormed() && i < |targets|
    requires Delivered(start, k, clip, targets, i, depth, now, queuedFor, relayed)
    ensures LeadsTo(DoneAfter(start, clip, targets, i + 1, depth, now), k, clip, targets[i], depth, now,
                    queuedFor, relayed)
  {
    DeliverTurn(start, k, clip, targets, i, depth, now, queuedFor, relayed);
  }

  lemma DeliverTurn(start: Core, k: Core, clip: Clip, targets: seq<DeviceId>, i: nat, depth: int, now: int,
                    queuedFor: seq<DeviceId>, relayed: int)
    requires start.WellFormed() && i < |targets|
    requires Delivered(start, k, clip, targets, i, depth, now, queuedFor, relayed)
    ensures targets[i] == clip.origin ==> Delivered(start, k, clip, targets, i + 1, depth, now, queuedFor, relayed)
    ensures targets[i] != clip.origin ==>
      var k' := Deliver(k, clip, targets[i], depth, now);
      if Takes(k, targets[i]) then Delivered(start, k', clip, targets, i + 1, depth, now, queuedFor, relayed + 1)
      else Delivered(start, k', clip, targets, i + 1, depth, now, queuedFor + [targets[i]], relayed)
  {
    var d, rest := targets[i], targets[i..];
    assert rest[0] == d && rest[1..] == targets[i + 1..];
    if d == clip.origin {
      SkipOrigin(k, clip, rest, depth, now);
    } else {
      DeliverFirst(k, clip, rest, depth, now);
      Regroup(queuedFor, [d], QueuedFor(Deliver(k, clip, d, depth, now), clip, rest[1..], depth, now));
    }
  }

  /** How many targets there are besides the origin. */
  function Recipients(clip: Clip, targets: seq<DeviceId>): nat {
    if targets == [] then 0 else (if targets[0] == clip.origin then 0 else 1) + Recipients(clip, targets[1..])
  }

  /** The machine, left to finish a route without interruption. */
  function RouteToEnd(s: State, depth: int, now: int): State
    requires s.handler.Routing? && s.core.WellFormed()
    decreases |s.handler.rest|
  {
    var clip, rest := s.handler.clip, s.handler.rest;
    var t := RouteTurn(s, clip, rest, depth, now);
    if rest == [] then t else
      assert t.core.WellFormed() by {
        if rest[0] != clip.origin { DeliverWellFormed(s.core, clip, rest[0], depth, now); }
      }
      RouteToEnd(t, depth, now)
  }

  /** The handler's loop and the machine's turns come to the same. */
  lemma {:induction false} RouteIsDeliverAll(s: State, depth: int, now: int)
    requires s.handler.Routing? && s.core.WellFormed()
    ensures RouteToEnd(s, depth, now).core == DeliverAll(s.core, s.handler.clip, s.handler.rest, depth, now)
    ensures RouteToEnd(s, depth, now).handler == Idle
    decreases |s.handler.rest|
  {
    var clip, rest := s.handler.clip, s.handler.rest;
    if rest != [] {
      var t := RouteTurn(s, clip, rest, depth, now);
      if rest[0] != clip.origin {
        DeliverWellFormed(s.core, clip, rest[0], depth, now);
      }
      RouteIsDeliverAll(t, depth, now);
    }
  }

  /** The machine, left to finish a registration without interruption. */
  function RegisterToEnd(s: State, c: ConnId): State
    requires InPhase(s, c, Waiting)
    decreases |s.sessions[c].inHand|
  {
    var t := RegisterTurn(s, c);
    if s.sessions[c].inHand != [] && HasRoom(s.core.conns[c]) then RegisterToEnd(t, c) else t
  }

  lemma {:induction false} RegisterIsOfferAll(s: State, c: ConnId)
    requires InPhase(s, c, Waiting)
    ensures var t := RegisterToEnd(s, c);
      && c in t.sessions
      && (t.core, t.sessions[c].inHand) == OfferAll(s.core, c, s.sessions[c].inHand)
      && t.handler == Idle && t.sessions[c].phase == Serving
    decreases |s.sessions[c].inHand|
  {
    if s.sessions[c].inHand != [] && HasRoom(s.core.conns[c]) {
      RegisterIsOfferAll(RegisterTurn(s, c), c);
    }
  }

  function HeldBy(onDemand: map<BlobId, DeviceId>, id: DeviceId): set<BlobId> {
    set b | b in onDemand && onDemand[b] == id
  }

  function OwnedBy(acl: map<BlobId, Acl>, id: DeviceId): set<BlobId> {
    set b | b in acl && acl[b].origin == id
  }

  /** Pruning is dropping what the device holds, then what it still owns. */
  lemma PruneInTwo(k: Core, id: DeviceId)
    ensures Prune(k, id).onDemand == k.onDemand - HeldBy(k.onDemand, id)
    ensures var acl := k.acl - HeldBy(k.onDemand, id); Prune(k, id).acl == acl - OwnedBy(acl, id)
  {
  }

  lemma {:induction false} OfferAllWellFormed(k: Core, c: ConnId, items: seq<Item>)
    requires k.WellFormed() && c in k.conns
    ensures OfferAll(k, c, items).0.WellFormed()
    decreases |items|
  {
    if items != [] && HasRoom(k.conns[c]) {
      OfferWellFormed(k, c, Queued(items[0]));
      OfferAllWellFormed(OfferTo(k, c, Queued(items[0])), c, items[1..]);
    }
  }

  lemma AdmitWellFormed(k: Core, c: ConnId)
    requires k.WellFormed() && c in k.conns
    ensures Admit(k, c).WellFormed()
  {
    var d := k.conns[c].dev;
    var k1 := Dislodge(k, d);
    EnteredWellFormed(k1, d, c) by { DislodgeShape(k, d); }
    OfferWellFormed(k1.(clients := k1.clients[d := c]), c, Hello);
  }

  lemma EnteredWellFormed(k: Core, d: DeviceId, c: ConnId)
    requires k.WellFormed() && c in k.conns && k.conns[c].dev == d
    ensures k.(clients := k.clients[d := c]).WellFormed()
  {
  }

  lemma RegisteredWellFormed(k: Core, c: ConnId, items: seq<Item>)
    requires k.WellFormed() && c in k.conns
    ensures OfferAll(Admit(k, c), c, items).0.WellFormed()
  {
    AdmitWellFormed(k, c);
    OfferAllWellFormed(Admit(k, c), c, items);
  }

  /** A presence notice goes to every registered connection but those of `except`; to a
      full channel it is lost. */
  function Announced(k: Core, except: set<DeviceId>): Core {
    k.(conns := map c | c in k.conns :: Told(k, c, except))
  }

  function Told(k: Core, c: ConnId, except: set<DeviceId>): Conn
    requires c in k.conns
  {
    if Current(k, c) && k.conns[c].dev !in except then Offer(k.conns[c], Control) else k.conns[c]
  }

  lemma AnnouncedToNone(k: Core, except: set<DeviceId>)
    requires k.clients.Keys <= except
    ensures Announced(k, except) == k
  {
    assert Announced(k, except).conns == k.conns;
  }

  /** One turn of a broadcast is one control frame, as the machine offers it. */
  lemma AnnounceOne(k: Core, except: set<DeviceId>, d: DeviceId)
    requires k.WellFormed() && d in k.clients && d in except
    ensures k.clients[d] in Announced(k, except).conns
    ensures OfferTo(Announced(k, except), k.clients[d], Control) == Announced(k, except - {d})
  {
    assert OfferTo(Announced(k, except), k.clients[d], Control).conns == Announced(k, except - {d}).conns;
  }

  datatype Status = Relayed | Deferred | Rejected

  datatype Mode = Fetch | Supply

  // ---- a client's send channel ----

  class Client {
    const dev: DeviceId
    const cap: nat
    ghost var log: seq<Frame>
    var send: seq<Frame>
    var closed: bool
    var reason: string

    ghost predicate Valid()
      reads this
    {
      |send| <= |log| && send == log[|log| - |send|..] && |send| <= cap
    }

    ghost function View(): Conn
      requires Valid()
      reads this
    {
      Conn(dev, cap, log, |log| - |send|, closed)
    }

    constructor (dev: DeviceId, cap: nat)
      ensures Valid() && View() == Conn(dev, cap, [], 0, false)
    {
      this.dev, this.cap := dev, cap;
      log, send, closed, reason := [], [], false, "";
    }

    /** Queue a frame, or report that the buffer is full. */
    method Enqueue(f: Frame) returns (ok: bool)
      requires Valid()
      modifies this`send, this`log
      ensures Valid()
      ensures ok <==> HasRoom(old(View()))
      ensures View() == Offer(old(View()), f)
      ensures ok <==> |old(send)| < cap
      ensures send == if ok then old(send) + [f] else old(send)
    {
      ok := |send| < cap;
      if ok {
        send := send + [f];
        log := log + [f];
      }
    }

    /** Only the first close counts, and only its reason is kept. */
    method Close(why: string)
      requires Valid()
      modifies this`closed, this`reason
      ensures Valid() && View() == old(View()).(closed := true)
      ensures reason == if old(closed) then old(reason) else why
    {
      if !closed {
        closed, reason := true, why;
      }
    }

    /** The write pump takes the oldest frame. */
    method Take() returns (f: Frame)
      requires Valid() && send != []
      modifies this`send
      ensures Valid() && View() == old(View()).(taken := old(View()).taken + 1)
      ensures f == log[old(View()).taken]
    {
      f := send[0];
      send := send[1..];
    }
  }

  // ---- the hub ----

  class Hub {
    var clients: map<DeviceId, ConnId>
    var conns: map<ConnId, Client>
    ghost var table: map<ConnId, Conn>
    ghost var objects: set<Client>
    var onDemand: map<BlobId, DeviceId>
    var acl: map<BlobId, Acl>
    var persisted: map<BlobId, Acl>
    var queues: map<DeviceId, seq<Item>>
    var pools: map<DeviceId, string>

    /** The table shows every client object, and no two names share one. */
    ghost predicate Valid()
      reads this`conns, this`table, this`objects, objects
    {
      && table.Keys == conns.Keys
      && (forall c :: c in conns ==> conns[c] in objects && conns[c].Valid() && table[c] == conns[c].View())
      && (forall c, d :: c in conns && d in conns && c != d ==> conns[c] != conns[d])
    }

    ghost function View(): Core
      reads this
    {
      Core(clients, table, onDemand, acl, persisted, queues, pools)
    }

    /** Offer a frame to a client's channel. */
    method SendTo(c: ConnId, f: Frame) returns (ok: bool)
      requires Valid() && c in conns
      modifies this`table, conns[c]
      ensures Valid() && (ok <==> HasRoom(old(View()).conns[c]))
      ensures View() == if ok then OfferTo(old(View()), c, f) else old(View())
    {
      ok := conns[c].Enqueue(f);
      if ok {
        table := table[c := Offer(table[c], f)];
      }
    }

    method Enter(d: DeviceId, c: ConnId)
      requires Valid()
      modifies this`clients
      ensures Valid() && View() == old(View()).(clients := old(clients)[d := c])
    {
      clients := clients[d := c];
    }

    method Remove(d: DeviceId)
      requires Valid()
      modifies this`clients
      ensures Valid() && View() == old(View()).(clients := old(clients) - {d})
    {
      clients := clients - {d};
    }

    /** Store a clip for a device that cannot take it. */
    method Queue(d: DeviceId, item: Item, depth: int)
      requires Valid()
      modifies this`queues
      ensures Valid() && View() == RelayCore.Enqueue(old(View()), d, item, depth)
    {
      var q := if d in queues then queues[d] else [];
      queues := queues[d := Enqueued(q, item, depth)];
    }

    /** Ask a client to disconnect. */
    method CloseClient(c: ConnId, why: string)
      requires Valid() && c in conns
      modifies this`table, conns[c]
      ensures Valid() && View() == CloseConn(old(View()), c)
    {
      conns[c].Close(why);
      table := table[c := table[c].(closed := true)];
    }

    /** Drop every holding of `id` with its ACL, then every remaining ACL it originated. */
    method PruneOnDemand(id: DeviceId) returns (pruned: nat)
      requires Valid()
      modifies this`onDemand, this`acl
      ensures Valid() && View() == Prune(old(View()), id)
      ensures pruned == |HeldBy(old(onDemand), id)|
    {
      pruned := DropHoldings(id);
      DropOwned(id);
      PruneInTwo(old(View()), id);
    }

    method DropHoldings(id: DeviceId) returns (pruned: nat)
      modifies this`onDemand, this`acl
      ensures pruned == |HeldBy(old(onDemand), id)|
      ensures onDemand == old(onDemand) - HeldBy(old(onDemand), id) && acl == old(acl) - HeldBy(old(onDemand), id)
    {
      pruned := 0;
      ghost var held := HeldBy(onDemand, id);
      var left := HeldBy(onDemand, id);
      while left != {}
        invariant left <= held && pruned == |held| - |left|
        invariant onDemand == old(onDemand) - (held - left) && acl == old(acl) - (held - left)
        decreases |left|
      {
        var b :| b in left;
        assert held - (left - {b}) == (held - left) + {b};
        onDemand := onDemand - {b};
        acl := acl - {b};
        left := left - {b};
        pruned := pruned + 1;
      }
      assert held - left == held;
    }

    method DropOwned(id: DeviceId)
      modifies this`acl
      ensures acl == old(acl) - OwnedBy(old(acl), id)
    {
      ghost var owned := OwnedBy(acl, id);
      var left := OwnedBy(acl, id);
      while left != {}
        invariant left <= owned && acl == old(acl) - (owned - left)
        decreases |left|
      {
        var b :| b in left;
        assert owned - (left - {b}) == (owned - left) + {b};
        acl := acl - {b};
        left := left - {b};
      }
      assert owned - left == owned;
    }

    /** Tell every registered client but those of `except`. */
    method Broadcast(except: set<DeviceId>)
      requires Valid() && View().WellFormed()
      modifies this`table, objects
      ensures Valid() && View() == Announced(old(View()), except)
    {
      ghost var k := View();
      TellingBegins(except);
      TellAll(k, except, clients.Keys - except);
      TellingEnds(k, except);
    }

    method TellAll(ghost k: Core, ghost except: set<DeviceId>, all: set<DeviceId>)
      requires Telling(k, except, all)
      modifies this`table, objects
      ensures Telling(k, except, {})
    {
      var left := all;
      while left != {}
        invariant Telling(k, except, left)
        decreases |left|
      {
        var d :| d in left;
        Notify(k, except, left, d);
        left := left - {d};
      }
    }

    lemma TellingBegins(except: set<DeviceId>)
      requires Valid() && View().WellFormed()
      ensures Telling(View(), except, clients.Keys - except)
    {
      AnnouncedToNone(View(), except + (clients.Keys - except));
    }

    lemma TellingEnds(k: Core, except: set<DeviceId>)
      requires Telling(k, except, {})
      ensures View() == Announced(k, except)
    {
      assert except + {} == except;
    }

    /** A broadcast that began in `k` has yet to reach the devices in `left`. */
    ghost predicate Telling(k: Core, except: set<DeviceId>, left: set<DeviceId>)
      reads this, objects
    {
      && Valid() && k.WellFormed() && left <= clients.Keys && left !! except
      && View() == Announced(k, except + left)
    }

    method Notify(ghost k: Core, ghost except: set<DeviceId>, ghost left: set<DeviceId>, d: DeviceId)
      requires Telling(k, except, left) && d in left
      modifies this`table, objects
      ensures Telling(k, except, left - {d})
    {
      AnnounceOne(k, except + left, d);
      assert except + left - {d} == except + (left - {d});
      SendMaybe(clients[d], Control);
    }

    /** Offer a frame and do not mind if it is refused. */
    method SendMaybe(c: ConnId, f: Frame)
      requires Valid() && c in conns
      modifies this`table, conns[c]
      ensures Valid() && View() == OfferTo(old(View()), c, f)
    {
      var ok := SendTo(c, f);
      if !ok {
        assert old(View()).conns[c := old(View()).conns[c]] == old(View()).conns;
      }
    }

    /** Replace an older connection, queue hello_ok and as much of the drained queue as
        fits, then tell the others. */
    method HandleRegister(c: ConnId, drained: seq<Item>) returns (undelivered: seq<Item>)
      requires Valid() && View().WellFormed() && c in conns
      modifies this`clients, this`table, objects
      ensures Valid()
      ensures var (k, rest) := OfferAll(Admit(old(View()), c), c, drained);
        View() == Announced(k, {old(View()).conns[c].dev}) && undelivered == rest
    {
      undelivered := Register(c, drained);
      RegisteredWellFormed(old(View()), c, drained);
      Broadcast({conns[c].dev});
    }

    method Register(c: ConnId, drained: seq<Item>) returns (undelivered: seq<Item>)
      requires Valid() && View().WellFormed() && c in conns
      modifies this`clients, this`table, objects
      ensures Valid() && (View(), undelivered) == OfferAll(Admit(old(View()), c), c, drained)
    {
      var d := conns[c].dev;
      if d in clients {
        CloseClient(clients[d], "replaced by a newer connection");
        Remove(d);
      }
      Enter(d, c);
      SendMaybe(c, Hello);
      undelivered := OfferDrained(c, drained);
    }

    /** Offer drained clips, oldest first, until one does not fit. */
    method OfferDrained(c: ConnId, drained: seq<Item>) returns (undelivered: seq<Item>)
      requires Valid() && c in conns
      modifies this`table, conns[c]
      ensures Valid() && (View(), undelivered) == OfferAll(old(View()), c, drained)
    {
      undelivered := drained;
      while undelivered != []
        invariant Valid() && OfferAll(View(), c, undelivered) == OfferAll(old(View()), c, drained)
        decreases |undelivered|
      {
        var ok := SendTo(c, Queued(undelivered[0]));
        if !ok {
          break;
        }
        undelivered := undelivered[1..];
      }
    }

    /** Leave the registry and tell the others, unless a newer connection has taken the place. */
    method HandleUnregister(c: ConnId)
      requires Valid() && View().WellFormed() && c in conns
      modifies this`clients, this`onDemand, this`acl, this`table, objects
      ensures Valid()
      ensures View() == if Current(old(View()), c) then Announced(Leave(old(View()), c), {}) else old(View())
    {
      var left := Depart(c);
      if left {
        LeaveShape(old(View()), c);
        Broadcast({});
      }
    }

    method Depart(c: ConnId) returns (left: bool)
      requires Valid() && c in conns
      modifies this`clients, this`onDemand, this`acl
      ensures Valid() && View() == Leave(old(View()), c) && (left <==> Current(old(View()), c))
    {
      var d := conns[c].dev;
      left := d in clients && clients[d] == c;
      if left {
        Remove(d);
        var pruned := PruneOnDemand(d);
      }
    }

    /** Cut a deleted device off and tell the others, if it is connected. */
    method HandleEvict(d: DeviceId)
      requires Valid() && View().WellFormed()
      modifies this`clients, this`onDemand, this`acl, this`table, objects
      ensures Valid()
      ensures View() == if d in old(clients) then Announced(Expel(old(View()), d), {}) else old(View())
    {
      if d in clients {
        TearDown(d, "device deleted");
        DislodgeShape(old(View()), d);
        Broadcast({});
      }
    }

    /** Close the device's connection and forget it with its holdings. */
    method TearDown(d: DeviceId, why: string)
      requires Valid() && View().WellFormed() && d in clients
      modifies this`clients, this`onDemand, this`acl, this`table, conns[clients[d]]
      ensures Valid() && View() == Expel(old(View()), d)
    {
      CloseClient(clients[d], why);
      Remove(d);
      var pruned := PruneOnDemand(d);
    }

    /** Relay a clip to its targets, queueing for whoever is offline or too slow. */
    method HandleRoute(clip: Clip, targets: seq<DeviceId>, e2e: bool, depth: int, now: int)
      returns (status: Status, queuedFor: seq<DeviceId>)
      requires Valid() && View().WellFormed()
      modifies this, objects
      ensures Valid() && conns == old(conns) && objects == old(objects)
      ensures status == Rejected <==>
        e2e && !clip.encrypted && (clip.text != "" || clip.html != "" || clip.blob.Some?)
      ensures Refused(e2e, clip) ==> status == Rejected && queuedFor == [] && View() == old(View())
      ensures !Refused(e2e, clip) ==>
        && Claim(old(View()), clip, targets).WellFormed()
        && View() == DeliverAll(Claim(old(View()), clip, targets), clip, targets, depth, now)
        && queuedFor == QueuedFor(Claim(old(View()), clip, targets), clip, targets, depth, now)
        && (status == Deferred <==> queuedFor != [] && |queuedFor| == Recipients(clip, targets))
        && (status == Relayed <==> status != Deferred)
    {
      if e2e && !clip.encrypted && (clip.text != "" || clip.html != "" || clip.blob.Some?) {
        return Rejected, [];
      }
      if clip.blob.Some? {
        TakeClaim(clip, clip.blob.value, targets);
      }
      assert View() == Claim(old(View()), clip, targets);
      var relayed;
      queuedFor, relayed := DeliverToAll(clip, targets, depth, now);
      status := if relayed == 0 && |queuedFor| > 0 then Deferred else Relayed;
    }

    /** The routing loop. */
    method DeliverToAll(clip: Clip, targets: seq<DeviceId>, depth: int, now: int)
      returns (queuedFor: seq<DeviceId>, relayed: nat)
      requires Valid() && View().WellFormed()
      modifies this, objects
      ensures Valid() && conns == old(conns) && objects == old(objects)
      ensures View() == DeliverAll(old(View()), clip, targets, depth, now)
      ensures queuedFor == QueuedFor(old(View()), clip, targets, depth, now)
      ensures relayed + |queuedFor| == Recipients(clip, targets)
    {
      queuedFor, relayed := [], 0;
      var i := 0;
      assert targets[0..] == targets;
      while i < |targets|
        invariant Valid() && conns == old(conns) && objects == old(objects)
        invariant Delivered(old(View()), View(), clip, targets, i, depth, now, queuedFor, relayed)
      {
        ghost var done := DoneAfter(old(View()), clip, targets, i + 1, depth, now);
        TurnLeadsTo(old(View()), View(), clip, targets, i, depth, now, queuedFor, relayed);
        queuedFor, relayed := DeliverNext(done, clip, targets[i], depth, now, queuedFor, relayed);
        i := i + 1;
      }
    }

    /** One turn of the routing loop; whatever holds of each way it can go holds after it. */
    method DeliverNext(ghost done: Progress, clip: Clip, d: DeviceId, depth: int, now: int,
                       queuedBefore: seq<DeviceId>, relayedBefore: nat) returns (queuedFor: seq<DeviceId>, relayed: nat)
      requires Valid() && View().WellFormed()
      requires LeadsTo(done, View(), clip, d, depth, now, queuedBefore, relayedBefore)
      modifies this`clients, this`onDemand, this`acl, this`table, this`queues, objects
      ensures Valid() && done(View(), queuedFor, relayed)
    {
      queuedFor, relayed := queuedBefore, relayedBefore;
      if d != clip.origin {
        var queued := DeliverOne(clip, d, depth, now);
        if queued {
          queuedFor := queuedFor + [d];
        } else {
          relayed := relayed + 1;
        }
      }
    }

    /** Record who may fetch the blob, unless another online device holds the claim. */
    method TakeClaim(clip: Clip, b: BlobId, targets: seq<DeviceId>)
      requires Valid() && clip.blob == Some(b)
      modifies this`acl, this`persisted, this`onDemand
      ensures Valid() && View() == Claim(old(View()), clip, targets)
    {
      if b in acl && acl[b].origin != clip.origin && acl[b].origin in clients {
        return;
      }
      var allowed := AllowedFor(clip, targets);
      RecordClaim(b, Acl(clip.origin, allowed), clip.onDemand);
    }

    method RecordClaim(b: BlobId, a: Acl, held: bool)
      requires Valid()
      modifies this`acl, this`persisted, this`onDemand
      ensures Valid()
      ensures View() == old(View()).(acl := old(acl)[b := a], persisted := old(persisted)[b := a],
                                     onDemand := if held then old(onDemand)[b := a.origin] else old(onDemand))
    {
      acl, persisted, onDemand :=
        acl[b := a], persisted[b := a], if held then onDemand[b := a.origin] else onDemand;
    }

    method AllowedFor(clip: Clip, targets: seq<DeviceId>) returns (allowed: set<DeviceId>)
      ensures allowed == ClaimOf(clip, targets).allowed
    {
      allowed := {clip.origin};
      for i := 0 to |targets|
        invariant allowed == {clip.origin} + set d | d in targets[..i]
      {
        assert targets[..i + 1] == targets[..i] + [targets[i]];
        allowed := allowed + {targets[i]};
      }
      assert targets[..|targets|] == targets;
    }

    /** Offer the clip to the device's connection; a full buffer gets it evicted. */
    method DeliverOne(clip: Clip, d: DeviceId, depth: int, now: int) returns (queued: bool)
      requires Valid() && View().WellFormed()
      modifies this`clients, this`onDemand, this`acl, this`table, this`queues, objects
      ensures Valid()
      ensures View() == Deliver(old(View()), clip, d, depth, now)
      ensures queued <==> !Takes(old(View()), d)
    {
      var sent := RelayOrExpel(clip, d);
      if !sent {
        Queue(d, Item(clip, now), depth);
      }
      queued := !sent;
    }

    /** Relay to a connection with room; any other is closed and forgotten. */
    method RelayOrExpel(clip: Clip, d: DeviceId) returns (sent: bool)
      requires Valid() && View().WellFormed()
      modifies this`clients, this`onDemand, this`acl, this`table, objects
      ensures Valid() && (sent <==> Takes(old(View()), d))
      ensures View() == if sent then OfferTo(old(View()), old(clients)[d], Live(clip)) else Expel(old(View()), d)
    {
      if d !in clients {
        return false;
      }
      sent := SendTo(clients[d], Live(clip));
      if !sent {
        TearDown(d, "send buffer full");
      }
    }

    method PoolOf(d: DeviceId) returns (pool: string)
      requires Valid()
      ensures pool == View().PoolOf(d)
    {
      pool := "default";
      if d in pools && pools[d] != "" {
        pool := pools[d];
      }
    }

    /** Blob-channel authorization. */
    method HandleBlobAuth(b: BlobId, dev: DeviceId, mode: Mode) returns (ok: bool)
      requires Valid()
      ensures ok <==> if mode == Supply then MaySupply(View(), b, dev) else HubMayFetch(View(), b, dev)
      ensures mode == Supply ==> (ok <==> b !in onDemand || onDemand[b] == dev)
      ensures mode == Fetch && b in acl ==> (ok <==> dev in acl[b].allowed)
      ensures mode == Fetch && b !in acl ==> (ok <==> b in onDemand && View().PoolOf(onDemand[b]) == View().PoolOf(dev))
    {
      if mode == Supply {
        if b in onDemand {
          return onDemand[b] == dev;
        }
        return true;
      }
      if b in acl {
        return dev in acl[b].allowed;
      }
      if b !in onDemand {
        return false;
      }
      var holderPool := PoolOf(onDemand[b]);
      var pool := PoolOf(dev);
      ok := holderPool == pool;
    }

    /** GET /blob/<id>: ask the hub, then fall back to the ACL on the record. */
    method AuthorizeGet(b: BlobId, dev: DeviceId) returns (ok: bool)
      requires Valid()
      ensures ok <==> MayFetch(View(), b, dev)
    {
      ok := HandleBlobAuth(b, dev, Fetch);
      if !ok && b in persisted {
        ok := dev == persisted[b].origin || dev in persisted[b].allowed;
      }
    }

    /** Ask the holder of an on-demand blob to upload it. */
    method HandleBlobRequest(b: BlobId) returns (sent: bool)
      requires Valid() && View().WellFormed()
      modifies this`table, objects
      ensures Valid() && (sent <==> CanPull(old(View()), b))
      ensures sent <==>
        b in old(onDemand) && old(onDemand)[b] in old(clients)
        && var conn := old(table)[old(clients)[old(onDemand)[b]]]; |conn.log| - conn.taken < conn.cap
      ensures View() == if sent then OfferTo(old(View()), old(clients)[old(onDemand)[b]], Control) else old(View())
    {
      if b !in onDemand || onDemand[b] !in clients {
        return false;
      }
      sent := SendTo(clients[onDemand[b]], Control);
    }
  }
}
