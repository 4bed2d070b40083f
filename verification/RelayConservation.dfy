/** Every recipient occurrence of every routed clip is accounted for, in every
    interleaving: nothing is duplicated and nothing vanishes. */
module RelayConservation {
  import opened Model
  import opened Fifo
  import opened RelayCore
  import opened RelayMachine
  import opened RelaySafety
  import Gather

  /** Every occurrence that was ever placed is somewhere, or was given up by rule. */
  ghost predicate BalancedFor(s: State, p: Placement)
    requires s.sessions.Keys <= s.core.conns.Keys
  {
    Gather.Occ(s.ledger.placed, p) ==
      Sent(s, p) + Stored(s, p) + InHand(s, p) + Unrouted(s, p)
      + Gather.Occ(s.ledger.trimmed, p) + Gather.Occ(s.ledger.purged, p) + Gather.Occ(s.ledger.deleted, p)
  }

  // ---- occurrence algebra ----

  lemma TagsConcat(d: DeviceId, a: seq<Item>, b: seq<Item>, p: Placement)
    ensures Gather.Occ(Tags(d, a + b), p) == Gather.Occ(Tags(d, a), p) + Gather.Occ(Tags(d, b), p)
  {
    assert Tags(d, a + b) == Tags(d, a) + Tags(d, b);
    Gather.OccConcat(Tags(d, a), Tags(d, b), p);
  }

  /** Trimming splits the longer queue in two. */
  lemma EnqueueTags(d: DeviceId, q: seq<Item>, item: Item, depth: int, p: Placement)
    ensures Gather.Occ(Tags(d, q), p) + Gather.Occ([Placement(item.clip, d)], p) ==
            Gather.Occ(Tags(d, Enqueued(q, item, depth)), p) + Gather.Occ(Tags(d, Trimmed(q, item, depth)), p)
  {
    TagsConcat(d, q, [item], p);
    assert Tags(d, [item]) == [Placement(item.clip, d)];
    assert q + [item] == Trimmed(q, item, depth) + Enqueued(q, item, depth);
    TagsConcat(d, Trimmed(q, item, depth), Enqueued(q, item, depth), p);
  }

  lemma {:induction false} PurgeTags(d: DeviceId, q: seq<Item>, now: int, ttl: int, p: Placement)
    ensures Gather.Occ(Tags(d, q), p) ==
            Gather.Occ(Tags(d, Fifo.Fresh(q, now, ttl)), p) + Gather.Occ(Tags(d, Stale(q, now, ttl)), p)
  {
    if q != [] {
      PurgeTags(d, q[1..], now, ttl, p);
      assert q == [q[0]] + q[1..];
      TagsConcat(d, [q[0]], q[1..], p);
      TagsConcat(d, if Expired(q[0], now, ttl) then [] else [q[0]], Fifo.Fresh(q[1..], now, ttl), p);
      TagsConcat(d, if Expired(q[0], now, ttl) then [q[0]] else [], Stale(q[1..], now, ttl), p);
    }
  }

  lemma LogAppend(d: DeviceId, log: seq<Frame>, f: Frame, p: Placement)
    ensures Gather.Occ(LogTags(d, log + [f]), p) == Gather.Occ(LogTags(d, log), p) + Gather.Occ(FrameTag(d, f), p)
  {
    assert (log + [f])[..|log|] == log;
    Gather.OccConcat(LogTags(d, log), FrameTag(d, f), p);
  }

  // ---- how each part of the balance moves ----

  lemma LogMapPut(conns: map<ConnId, Conn>, c: ConnId, x: Conn)
    ensures LogMap(conns[c := x]) == LogMap(conns)[c := LogTags(x.dev, x.log)]
  {
  }

  lemma HandMapPut(conns: map<ConnId, Conn>, ses: map<ConnId, Session>, c: ConnId, x: Session)
    requires ses.Keys <= conns.Keys && c in ses
    ensures HandMap(conns, ses[c := x]) == HandMap(conns, ses)[c := Tags(conns[c].dev, x.inHand)]
  {
  }

  /** Offering a frame adds its occurrence to the logs exactly if there is room. */
  lemma OfferTotal(conns: map<ConnId, Conn>, c: ConnId, f: Frame, p: Placement)
    requires c in conns
    ensures Gather.Total(LogMap(conns[c := Offer(conns[c], f)]), p) ==
            Gather.Total(LogMap(conns), p) + (if HasRoom(conns[c]) then Gather.Occ(FrameTag(conns[c].dev, f), p) else 0)
  {
    var x := Offer(conns[c], f);
    LogAppend(conns[c].dev, conns[c].log, f, p);
    Gather.Put(LogMap(conns), c, LogTags(x.dev, x.log), p);
    LogMapPut(conns, c, x);
  }

  /** Closing a connection or taking from it leaves the logs alone. */
  lemma SameLogs(a: map<ConnId, Conn>, b: map<ConnId, Conn>)
    requires a.Keys == b.Keys && forall c :: c in a ==> a[c].dev == b[c].dev && a[c].log == b[c].log
    ensures LogMap(a) == LogMap(b)
  {
  }

  lemma SameHands(a: map<ConnId, Conn>, b: map<ConnId, Conn>, ses: map<ConnId, Session>)
    requires a.Keys == b.Keys && ses.Keys <= a.Keys && forall c :: c in a ==> a[c].dev == b[c].dev
    ensures HandMap(a, ses) == HandMap(b, ses)
  {
  }

  lemma HandTotal(conns: map<ConnId, Conn>, ses: map<ConnId, Session>, c: ConnId, x: Session, p: Placement)
    requires ses.Keys <= conns.Keys && c in ses
    ensures Gather.Total(HandMap(conns, ses[c := x]), p) + Gather.Occ(Tags(conns[c].dev, ses[c].inHand), p) ==
            Gather.Total(HandMap(conns, ses), p) + Gather.Occ(Tags(conns[c].dev, x.inHand), p)
  {
    Gather.Put(HandMap(conns, ses), c, Tags(conns[c].dev, x.inHand), p);
    HandMapPut(conns, ses, c, x);
  }

  lemma QueueMapPut(queues: map<DeviceId, seq<Item>>, d: DeviceId, q: seq<Item>)
    ensures QueueMap(queues[d := q]) == QueueMap(queues)[d := Tags(d, q)]
  {
  }

  lemma QueueMapTake(queues: map<DeviceId, seq<Item>>, d: DeviceId)
    ensures QueueMap(queues - {d}) == QueueMap(queues) - {d}
  {
  }

  lemma QueueAt(k: Core, d: DeviceId)
    ensures Gather.At(QueueMap(k.queues), d) == Tags(d, k.Queue(d))
  {
  }

  lemma QueueRemoved(k: Core, d: DeviceId, p: Placement)
    ensures Gather.Total(QueueMap(k.queues), p) ==
            Gather.Total(QueueMap(k.queues - {d}), p) + Gather.Occ(Tags(d, k.Queue(d)), p)
  {
    var m := QueueMap(k.queues);
    QueueAt(k, d);
    QueueMapTake(k.queues, d);
    Gather.Take(m, d, p);
  }

  lemma QueueAdded(k: Core, d: DeviceId, item: Item, depth: int, p: Placement)
    ensures Gather.Total(QueueMap(k.queues), p) + Gather.Occ([Placement(item.clip, d)], p) ==
            Gather.Total(QueueMap(Enqueue(k, d, item, depth).queues), p)
            + Gather.Occ(Tags(d, Trimmed(k.Queue(d), item, depth)), p)
  {
    var q := Enqueued(k.Queue(d), item, depth);
    QueueAt(k, d);
    QueueMapPut(k.queues, d, q);
    EnqueueTags(d, k.Queue(d), item, depth, p);
    Gather.Put(QueueMap(k.queues), d, Tags(d, q), p);
  }

  lemma PurgedAt(queues: map<DeviceId, seq<Item>>, d: DeviceId, now: int, ttl: int)
    requires d in queues
    ensures Gather.At(QueueMap(Purged(queues, now, ttl)), d) == Tags(d, Fifo.Fresh(queues[d], now, ttl))
    ensures Gather.At(QueueMap(Expiring(queues, now, ttl)), d) == Tags(d, Stale(queues[d], now, ttl))
  {
  }

  lemma PurgeOne(queues: map<DeviceId, seq<Item>>, d: DeviceId, now: int, ttl: int, p: Placement)
    requires d in queues
    ensures Gather.Occ(QueueMap(queues)[d], p) ==
            Gather.Occ(Gather.At(QueueMap(Purged(queues, now, ttl)), d), p)
            + Gather.Occ(Gather.At(QueueMap(Expiring(queues, now, ttl)), d), p)
  {
    PurgedAt(queues, d, now, ttl);
    PurgeTags(d, queues[d], now, ttl, p);
  }

  lemma QueuesPurged(queues: map<DeviceId, seq<Item>>, now: int, ttl: int, p: Placement)
    ensures Gather.Total(QueueMap(queues), p) ==
            Gather.Total(QueueMap(Purged(queues, now, ttl)), p)
            + Gather.Occ(Gather.Flatten(QueueMap(Expiring(queues, now, ttl))), p)
  {
    var m, n, x := QueueMap(queues), QueueMap(Purged(queues, now, ttl)), QueueMap(Expiring(queues, now, ttl));
    forall d | d in m
      ensures Gather.Occ(m[d], p) == Gather.Occ(Gather.At(n, d), p) + Gather.Occ(Gather.At(x, d), p)
    {
      PurgeOne(queues, d, now, ttl, p);
    }
    Gather.Zip(m, n, x, p);
    Gather.FlattenOcc(x, p);
  }

  /** Everything offering a frame does to the balance. */
  lemma OfferCore(k: Core, ses: map<ConnId, Session>, c: ConnId, f: Frame, p: Placement)
    requires c in k.conns && ses.Keys == k.conns.Keys
    ensures var k' := OfferTo(k, c, f);
      && k'.queues == k.queues && k'.conns.Keys == k.conns.Keys && k'.conns[c].dev == k.conns[c].dev
      && HandMap(k'.conns, ses) == HandMap(k.conns, ses)
      && Gather.Total(LogMap(k'.conns), p) ==
         Gather.Total(LogMap(k.conns), p)
         + (if HasRoom(k.conns[c]) then Gather.Occ(FrameTag(k.conns[c].dev, f), p) else 0)
  {
    OfferTotal(k.conns, c, f, p);
    SameHands(k.conns, OfferTo(k, c, f).conns, ses);
  }

  lemma CloseCore(k: Core, ses: map<ConnId, Session>, c: ConnId)
    requires c in k.conns && ses.Keys == k.conns.Keys
    ensures var k' := CloseConn(k, c);
      && k'.queues == k.queues && k'.conns.Keys == k.conns.Keys
      && (forall x :: x in k.conns ==> k'.conns[x].dev == k.conns[x].dev)
      && HandMap(k'.conns, ses) == HandMap(k.conns, ses) && LogMap(k'.conns) == LogMap(k.conns)
  {
    SameLogs(k.conns, CloseConn(k, c).conns);
    SameHands(k.conns, CloseConn(k, c).conns, ses);
  }

  lemma DislodgeCore(k: Core, ses: map<ConnId, Session>, d: DeviceId)
    requires ses.Keys == k.conns.Keys && k.WellFormed()
    ensures var k' := Dislodge(k, d);
      && k'.queues == k.queues && k'.conns.Keys == k.conns.Keys
      && (forall x :: x in k.conns ==> k'.conns[x].dev == k.conns[x].dev)
      && HandMap(k'.conns, ses) == HandMap(k.conns, ses) && LogMap(k'.conns) == LogMap(k.conns)
  {
    if d in k.clients {
      CloseCore(k, ses, k.clients[d]);
    }
  }

  lemma AdmitCore(k: Core, ses: map<ConnId, Session>, c: ConnId, p: Placement)
    requires c in k.conns && ses.Keys == k.conns.Keys && k.WellFormed()
    ensures var k' := Admit(k, c);
      && k'.queues == k.queues && k'.conns.Keys == k.conns.Keys && k'.conns[c].dev == k.conns[c].dev
      && HandMap(k'.conns, ses) == HandMap(k.conns, ses)
      && Gather.Total(LogMap(k'.conns), p) == Gather.Total(LogMap(k.conns), p)
  {
    var d := k.conns[c].dev;
    DislodgeCore(k, ses, d);
    var k1 := Dislodge(k, d);
    OfferCore(k1.(clients := k1.clients[d := c]), ses, c, Hello, p);
  }

  lemma ExpelCore(k: Core, ses: map<ConnId, Session>, d: DeviceId)
    requires ses.Keys == k.conns.Keys && k.WellFormed()
    ensures var k' := Expel(k, d);
      && k'.queues == k.queues && k'.conns.Keys == k.conns.Keys
      && HandMap(k'.conns, ses) == HandMap(k.conns, ses) && LogMap(k'.conns) == LogMap(k.conns)
  {
    DislodgeCore(k, ses, d);
  }

  /** A delivered clip adds one occurrence to the logs ... */
  lemma TakenCore(k: Core, ses: map<ConnId, Session>, clip: Clip, d: DeviceId, depth: int, now: int, p: Placement)
    requires ses.Keys == k.conns.Keys && k.WellFormed() && Takes(k, d)
    ensures var k' := Deliver(k, clip, d, depth, now);
      && k'.conns.Keys == k.conns.Keys && k'.queues == k.queues
      && HandMap(k'.conns, ses) == HandMap(k.conns, ses)
      && Gather.Total(LogMap(k'.conns), p) == Gather.Total(LogMap(k.conns), p) + Gather.Occ([Placement(clip, d)], p)
  {
    var c := k.clients[d];
    assert Deliver(k, clip, d, depth, now) == OfferTo(k, c, Live(clip));
    assert k.conns[c].dev == d && FrameTag(d, Live(clip)) == [Placement(clip, d)];
    OfferCore(k, ses, c, Live(clip), p);
  }

  /** ... or to the queues, less what it pushes out. */
  lemma QueuedCore(k: Core, ses: map<ConnId, Session>, clip: Clip, d: DeviceId, depth: int, now: int, p: Placement)
    requires ses.Keys == k.conns.Keys && k.WellFormed() && !Takes(k, d)
    ensures var k' := Deliver(k, clip, d, depth, now);
      && k'.conns.Keys == k.conns.Keys
      && HandMap(k'.conns, ses) == HandMap(k.conns, ses) && LogMap(k'.conns) == LogMap(k.conns)
      && Gather.Total(QueueMap(k'.queues), p) + Gather.Occ(Tags(d, Trimmed(k.Queue(d), Item(clip, now), depth)), p)
         == Gather.Total(QueueMap(k.queues), p) + Gather.Occ([Placement(clip, d)], p)
  {
    ExpelCore(k, ses, d);
    assert Expel(k, d).Queue(d) == k.Queue(d);
    QueueAdded(Expel(k, d), d, Item(clip, now), depth, p);
  }

  // ---- one lemma per kind of step ----

  lemma InitBalanced(s: State, p: Placement)
    requires Init(s)
    ensures BalancedFor(s, p)
  {
    Gather.FlattenOcc(QueueMap(s.core.queues), p);
  }

  lemma NewLog(conns: map<ConnId, Conn>, c: ConnId, x: Conn, p: Placement)
    requires c !in conns && x.log == []
    ensures Gather.Total(LogMap(conns[c := x]), p) == Gather.Total(LogMap(conns), p)
  {
    LogMapPut(conns, c, x);
    Gather.Put(LogMap(conns), c, [], p);
  }

  lemma NewHand(conns: map<ConnId, Conn>, ses: map<ConnId, Session>, c: ConnId, x: Conn, y: Session, p: Placement)
    requires c !in conns && ses.Keys == conns.Keys && y.inHand == []
    ensures Gather.Total(HandMap(conns[c := x], ses[c := y]), p) == Gather.Total(HandMap(conns, ses), p)
  {
    assert Tags(x.dev, y.inHand) == [];
    assert HandMap(conns[c := x], ses[c := y]) == HandMap(conns, ses)[c := []];
    Gather.Put(HandMap(conns, ses), c, [], p);
  }

  lemma ConnectBalanced(s: State, c: ConnId, dev: DeviceId, cap: nat, p: Placement)
    requires s.sessions.Keys == s.core.conns.Keys && Enabled(s, Connect(c, dev, cap)) && BalancedFor(s, p)
    ensures BalancedFor(OpenConn(s, c, dev, cap), p)
  {
    NewLog(s.core.conns, c, Conn(dev, cap, [], 0, false), p);
    NewHand(s.core.conns, s.sessions, c, Conn(dev, cap, [], 0, false), Session(Phase.Fresh, [], [], []), p);
  }

  lemma DrainBalanced(s: State, c: ConnId, p: Placement)
    requires s.sessions.Keys == s.core.conns.Keys && Enabled(s, Drain(c)) && BalancedFor(s, p)
    requires s.sessions[c].inHand == []
    ensures BalancedFor(DrainQueue(s, c), p)
  {
    var d := s.core.conns[c].dev;
    var batch := s.core.Queue(d);
    QueueRemoved(s.core, d, p);
    HandTotal(s.core.conns, s.sessions, c, Session(Drained, batch, batch, []), p);
  }

  lemma RegisterBeginBalanced(s: State, c: ConnId, p: Placement)
    requires s.sessions.Keys == s.core.conns.Keys && Enabled(s, RegisterBegin(c)) && BalancedFor(s, p)
    ensures BalancedFor(BeginRegister(s, c), p)
  {
    AdmitCore(s.core, s.sessions, c, p);
    HandTotal(Admit(s.core, c).conns, s.sessions, c, s.sessions[c].(phase := Waiting), p);
  }

  lemma RegisterNextBalanced(s: State, p: Placement)
    requires s.sessions.Keys == s.core.conns.Keys && Enabled(s, RegisterNext) && BalancedFor(s, p)
    ensures BalancedFor(RegisterTurn(s, s.handler.c), p)
  {
    var c := s.handler.c;
    var ses := s.sessions[c];
    if ses.inHand != [] && HasRoom(s.core.conns[c]) {
      var ses' := ses.(inHand := ses.inHand[1..]);
      OfferCore(s.core, s.sessions, c, Queued(ses.inHand[0]), p);
      HeadTag(s.core.conns[c].dev, ses.inHand, p);
      HandTotal(OfferTo(s.core, c, Queued(ses.inHand[0])).conns, s.sessions, c, ses', p);
    } else {
      HandTotal(s.core.conns, s.sessions, c, ses.(phase := Serving), p);
    }
  }

  lemma HeadTag(d: DeviceId, items: seq<Item>, p: Placement)
    requires items != []
    ensures Gather.Occ(Tags(d, items), p) ==
            Gather.Occ([Placement(items[0].clip, d)], p) + Gather.Occ(Tags(d, items[1..]), p)
  {
    assert items == [items[0]] + items[1..];
    assert Tags(d, [items[0]]) == [Placement(items[0].clip, d)];
    TagsConcat(d, [items[0]], items[1..], p);
  }

  lemma RequeueBalanced(s: State, c: ConnId, depth: int, p: Placement)
    requires s.sessions.Keys == s.core.conns.Keys && Enabled(s, Requeue(c, depth)) && BalancedFor(s, p)
    ensures BalancedFor(RequeueOne(s, c, depth), p)
  {
    var ses := s.sessions[c];
    var d := s.core.conns[c].dev;
    var t := RequeueOne(s, c, depth);
    HandTotal(s.core.conns, s.sessions, c, t.sessions[c], p);
    HeadTag(d, ses.inHand, p);
    QueueAdded(s.core, d, ses.inHand[0], depth, p);
    Gather.OccConcat(s.ledger.trimmed, Tags(d, Trimmed(s.core.Queue(d), ses.inHand[0], depth)), p);
  }

  lemma UnregisterBalanced(s: State, c: ConnId, p: Placement)
    requires s.sessions.Keys == s.core.conns.Keys && Enabled(s, Unregister(c)) && BalancedFor(s, p)
    ensures BalancedFor(Depart(s, c), p)
  {
    LeaveKeeps(s.core, c);
    HandTotal(s.core.conns, s.sessions, c, s.sessions[c].(phase := Gone), p);
  }

  lemma LeaveKeeps(k: Core, c: ConnId)
    requires c in k.conns
    ensures Leave(k, c).conns == k.conns && Leave(k, c).queues == k.queues
  {
  }

  lemma EvictBalanced(s: State, d: DeviceId, p: Placement)
    requires s.sessions.Keys == s.core.conns.Keys && Enabled(s, Evict(d)) && BalancedFor(s, p)
    ensures BalancedFor(s.(core := Expel(s.core, d)), p)
  {
    ExpelCore(s.core, s.sessions, d);
  }

  lemma RouteBeginBalanced(s: State, clip: Clip, targets: seq<DeviceId>, p: Placement)
    requires s.sessions.Keys == s.core.conns.Keys && s.handler == Idle && BalancedFor(s, p)
    ensures BalancedFor(BeginRoute(s, clip, targets), p)
  {
    ClaimKeeps(s.core, clip, targets);
    Gather.OccConcat(s.ledger.placed, Owed(clip, targets), p);
  }

  lemma ClaimKeeps(k: Core, clip: Clip, targets: seq<DeviceId>)
    ensures Claim(k, clip, targets).conns == k.conns && Claim(k, clip, targets).queues == k.queues
  {
  }

  lemma HeadOwed(clip: Clip, rest: seq<DeviceId>, p: Placement)
    requires rest != []
    ensures Gather.Occ(Owed(clip, rest), p) == Gather.Occ(Owed(clip, rest[1..]), p)
      + if rest[0] == clip.origin then 0 else Gather.Occ([Placement(clip, rest[0])], p)
  {
    Gather.OccConcat(if rest[0] == clip.origin then [] else [Placement(clip, rest[0])], Owed(clip, rest[1..]), p);
  }

  lemma RouteTakenBalanced(s: State, clip: Clip, rest: seq<DeviceId>, depth: int, now: int, p: Placement)
    requires s.sessions.Keys == s.core.conns.Keys && s.core.WellFormed() && s.handler == Routing(clip, rest)
    requires rest != [] && rest[0] != clip.origin && Takes(s.core, rest[0]) && BalancedFor(s, p)
    ensures RouteTurn(s, clip, rest, depth, now).core.conns.Keys == s.core.conns.Keys
    ensures BalancedFor(RouteTurn(s, clip, rest, depth, now), p)
  {
    HeadOwed(clip, rest, p);
    TakenCore(s.core, s.sessions, clip, rest[0], depth, now, p);
  }

  lemma RouteQueuedBalanced(s: State, clip: Clip, rest: seq<DeviceId>, depth: int, now: int, p: Placement)
    requires s.sessions.Keys == s.core.conns.Keys && s.core.WellFormed() && s.handler == Routing(clip, rest)
    requires rest != [] && rest[0] != clip.origin && !Takes(s.core, rest[0]) && BalancedFor(s, p)
    ensures RouteTurn(s, clip, rest, depth, now).core.conns.Keys == s.core.conns.Keys
    ensures BalancedFor(RouteTurn(s, clip, rest, depth, now), p)
  {
    HeadOwed(clip, rest, p);
    QueuedCore(s.core, s.sessions, clip, rest[0], depth, now, p);
    Gather.OccConcat(s.ledger.trimmed, Tags(rest[0], Trimmed(s.core.Queue(rest[0]), Item(clip, now), depth)), p);
  }

  lemma RouteSkipBalanced(s: State, clip: Clip, rest: seq<DeviceId>, depth: int, now: int, p: Placement)
    requires s.sessions.Keys == s.core.conns.Keys && s.core.WellFormed() && s.handler == Routing(clip, rest)
    requires (rest == [] || rest[0] == clip.origin) && BalancedFor(s, p)
    ensures RouteTurn(s, clip, rest, depth, now).core.conns.Keys == s.core.conns.Keys
    ensures BalancedFor(RouteTurn(s, clip, rest, depth, now), p)
  {
    if rest != [] {
      HeadOwed(clip, rest, p);
    }
  }

  lemma RouteNextBalanced(s: State, depth: int, now: int, p: Placement)
    requires s.sessions.Keys == s.core.conns.Keys && Enabled(s, RouteNext(depth, now)) && BalancedFor(s, p)
    ensures RouteTurn(s, s.handler.clip, s.handler.rest, depth, now).core.conns.Keys == s.core.conns.Keys
    ensures BalancedFor(RouteTurn(s, s.handler.clip, s.handler.rest, depth, now), p)
  {
    var clip, rest := s.handler.clip, s.handler.rest;
    if rest == [] || rest[0] == clip.origin {
      RouteSkipBalanced(s, clip, rest, depth, now, p);
    } else if Takes(s.core, rest[0]) {
      RouteTakenBalanced(s, clip, rest, depth, now, p);
    } else {
      RouteQueuedBalanced(s, clip, rest, depth, now, p);
    }
  }

  lemma WriterBalanced(s: State, c: ConnId, p: Placement)
    requires s.sessions.Keys == s.core.conns.Keys && Enabled(s, WriterTake(c)) && BalancedFor(s, p)
    ensures BalancedFor(TakeFrame(s, c), p)
  {
    var t := TakeFrame(s, c);
    SameLogs(s.core.conns, t.core.conns);
    SameHands(s.core.conns, t.core.conns, s.sessions);
  }

  lemma ControlBalanced(s: State, c: ConnId, p: Placement)
    requires s.sessions.Keys == s.core.conns.Keys && Enabled(s, ControlFrame(c)) && BalancedFor(s, p)
    ensures BalancedFor(s.(core := OfferTo(s.core, c, Control)), p)
  {
    OfferCore(s.core, s.sessions, c, Control, p);
    assert FrameTag(s.core.conns[c].dev, Control) == [];
  }

  lemma PurgeBalanced(s: State, now: int, ttl: int, p: Placement)
    requires s.sessions.Keys == s.core.conns.Keys && BalancedFor(s, p)
    ensures BalancedFor(PurgeAll(s, now, ttl), p)
  {
    QueuesPurged(s.core.queues, now, ttl, p);
    Gather.OccConcat(s.ledger.purged, Gather.Flatten(QueueMap(Expiring(s.core.queues, now, ttl))), p);
  }

  lemma DeleteBalanced(s: State, d: DeviceId, p: Placement)
    requires s.sessions.Keys == s.core.conns.Keys && BalancedFor(s, p)
    ensures BalancedFor(ForgetDevice(s, d), p)
  {
    QueueRemoved(s.core, d, p);
    Gather.OccConcat(s.ledger.deleted, Tags(d, s.core.Queue(d)), p);
  }

  lemma StepBalanced(s: State, step: Step, p: Placement)
    requires Inv(s) && Enabled(s, step) && BalancedFor(s, p)
    requires Next(s, step).sessions.Keys == Next(s, step).core.conns.Keys
    ensures BalancedFor(Next(s, step), p)
  {
    if OfConnection(step) {
      ConnectionBalanced(s, step, p);
    } else if OfStore(step) {
      StoreBalanced(s, step, p);
    } else {
      RelayBalanced(s, step, p);
    }
  }

  lemma ConnectionBalanced(s: State, step: Step, p: Placement)
    requires Inv(s) && Enabled(s, step) && OfConnection(step) && BalancedFor(s, p)
    requires Next(s, step).sessions.Keys == Next(s, step).core.conns.Keys
    ensures BalancedFor(Next(s, step), p)
  {
    if step.Connect? {
      ConnectBalanced(s, step.c, step.dev, step.cap, p);
    } else if step.Drain? {
      DrainBalanced(s, step.c, p) by { assert GoodAt(s, step.c); }
    } else {
      RegistrationBalanced(s, step, p);
    }
  }

  lemma RegistrationBalanced(s: State, step: Step, p: Placement)
    requires Inv(s) && Enabled(s, step) && OfConnection(step) && !step.Connect? && !step.Drain? && BalancedFor(s, p)
    requires Next(s, step).sessions.Keys == Next(s, step).core.conns.Keys
    ensures BalancedFor(Next(s, step), p)
  {
    match step
    case RegisterBegin(c) => RegisterBeginBalanced(s, c, p);
    case RegisterNext => RegisterNextBalanced(s, p);
    case Requeue(c, depth) => RequeueBalanced(s, c, depth, p);
    case Unregister(c) => UnregisterBalanced(s, c, p);
  }

  lemma RelayBalanced(s: State, step: Step, p: Placement)
    requires Inv(s) && Enabled(s, step) && !OfConnection(step) && !OfStore(step) && BalancedFor(s, p)
    requires Next(s, step).sessions.Keys == Next(s, step).core.conns.Keys
    ensures BalancedFor(Next(s, step), p)
  {
    match step
    case Evict(dev) => EvictBalanced(s, dev, p);
    case RouteBegin(clip, targets, e2e) => if !Refused(e2e, clip) { RouteBeginBalanced(s, clip, targets, p); }
    case RouteNext(depth, now) => RouteNextBalanced(s, depth, now, p);
    case WriterTake(c) => WriterBalanced(s, c, p);
    case ControlFrame(c) => ControlBalanced(s, c, p);
  }

  lemma StoreBalanced(s: State, step: Step, p: Placement)
    requires Inv(s) && Enabled(s, step) && OfStore(step) && BalancedFor(s, p)
    requires Next(s, step).sessions.Keys == Next(s, step).core.conns.Keys
    ensures BalancedFor(Next(s, step), p)
  {
    match step
    case SetPool(dev, pool) =>
    case Purge(now, ttl) => if ttl > 0 { PurgeBalanced(s, now, ttl, p); }
    case DeleteDevice(dev) => DeleteBalanced(s, dev, p);
    case DropBlobRecord(b) =>
  }

  // ---- the theorems ----

  /** Clip conservation. In every state of every run, each recipient occurrence that
      was placed (by routing, or by being stored when the process started) is counted
      exactly once: in some connection's accepted frames, in a queue, in the hands of
      a connection goroutine or of the routing loop, or among those dropped by the
      depth bound, the age limit or the deletion of the device. */
  lemma {:induction false} Conservation(run: seq<State>, steps: seq<Step>, i: nat, p: Placement)
    requires IsRun(run, steps) && i < |run|
    ensures run[i].sessions.Keys == run[i].core.conns.Keys
    ensures BalancedFor(run[i], p)
  {
    RunKeys(run, steps, i);
    if i == 0 {
      InitBalanced(run[0], p);
    } else {
      Conservation(run, steps, i - 1, p);
      BalancedNext(run, steps, i, p);
    }
  }

  lemma RunKeys(run: seq<State>, steps: seq<Step>, i: nat)
    requires IsRun(run, steps) && i < |run|
    ensures run[i].sessions.Keys == run[i].core.conns.Keys
  {
    RunInv(run, steps, i);
  }

  lemma BalancedNext(run: seq<State>, steps: seq<Step>, i: nat, p: Placement)
    requires IsRun(run, steps) && 0 < i < |run|
    requires run[i - 1].sessions.Keys == run[i - 1].core.conns.Keys && BalancedFor(run[i - 1], p)
    requires run[i].sessions.Keys == run[i].core.conns.Keys
    ensures BalancedFor(run[i], p)
  {
    RunInv(run, steps, i - 1);
    BalancedAt(run, steps, i, p);
  }

  lemma BalancedAt(run: seq<State>, steps: seq<Step>, i: nat, p: Placement)
    requires IsRun(run, steps) && 0 < i < |run| && Inv(run[i - 1]) && BalancedFor(run[i - 1], p)
    requires run[i].sessions.Keys == run[i].core.conns.Keys
    ensures BalancedFor(run[i], p)
  {
    LastStep(run, steps, i);
    StepBalanced(run[i - 1], steps[i - 1], p);
  }

  lemma {:induction false} PlacedOnlyAllowed(run: seq<State>, steps: seq<Step>, i: nat, p: Placement)
    requires IsRun(run, steps) && i < |run|
    requires forall j :: 0 <= j < |steps| && steps[j].RouteBegin? ==> steps[j].e2e
    requires Refused(true, p.clip) && Gather.Occ(run[0].ledger.placed, p) == 0
    ensures Gather.Occ(run[i].ledger.placed, p) == 0
  {
    if i > 0 {
      PlacedOnlyAllowed(run, steps, i - 1, p);
      PlacedAt(run, steps, i, p);
    }
  }

  lemma PlacedAt(run: seq<State>, steps: seq<Step>, i: nat, p: Placement)
    requires IsRun(run, steps) && 0 < i < |run| && Refused(true, p.clip)
    requires steps[i - 1].RouteBegin? ==> steps[i - 1].e2e
    ensures Gather.Occ(run[i].ledger.placed, p) == Gather.Occ(run[i - 1].ledger.placed, p)
  {
    LastStep(run, steps, i);
    PlacedByStep(run[i - 1], steps[i - 1], p);
  }

  lemma PlacedByStep(s: State, step: Step, p: Placement)
    requires Enabled(s, step) && (step.RouteBegin? ==> step.e2e) && Refused(true, p.clip)
    ensures Gather.Occ(Next(s, step).ledger.placed, p) == Gather.Occ(s.ledger.placed, p)
  {
    if step.RouteBegin? && !Refused(step.e2e, step.clip) {
      Gather.OccConcat(s.ledger.placed, Owed(step.clip, step.targets), p);
      NotOwed(step.clip, step.targets, p);
    } else {
      assert Next(s, step).ledger.placed == s.ledger.placed;
    }
  }

  lemma {:induction false} NotOwed(clip: Clip, targets: seq<DeviceId>, p: Placement)
    requires p.clip != clip
    ensures Gather.Occ(Owed(clip, targets), p) == 0
  {
    if targets != [] {
      NotOwed(clip, targets[1..], p);
      HeadOwed(clip, targets, p);
    }
  }

  /** While end-to-end encryption is enforced, no readable clip ever reaches a send
      channel, a queue or anybody's hands, unless the store already held it. */
  lemma NoReadableClipMoves(run: seq<State>, steps: seq<Step>, i: nat, p: Placement)
    requires IsRun(run, steps) && i < |run|
    requires forall j :: 0 <= j < |steps| && steps[j].RouteBegin? ==> steps[j].e2e
    requires Refused(true, p.clip) && Stored(run[0], p) == 0
    ensures run[i].sessions.Keys == run[i].core.conns.Keys
    ensures Sent(run[i], p) == 0 && Stored(run[i], p) == 0 && InHand(run[i], p) == 0 && Unrouted(run[i], p) == 0
  {
    Gather.FlattenOcc(QueueMap(run[0].core.queues), p);
    PlacedOnlyAllowed(run, steps, i, p);
    Conservation(run, steps, i, p);
  }
}
