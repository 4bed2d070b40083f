/** Registry safety and the shape of every connection's frame log. */
module RelaySafety {
  import opened Model
  import opened RelayCore
  import opened RelayMachine

  predicate Registered(p: Phase) {
    p == Waiting || p == Serving || p == Gone
  }

  /** How many of the drained clips the connection accepted. */
  function Accepted(ses: Session): int {
    |ses.batch| - |ses.requeued| - |ses.inHand|
  }

  /** The frame log of a registered connection: hello_ok, then the first `n` drained
      clips in order, then only live traffic; and those `n` clips followed by the
      re-persisted ones and the ones still in hand are the drained batch. */
  ghost predicate Framed(log: seq<Frame>, ses: Session) {
    var n := Accepted(ses);
    && 0 <= n < |log|
    && log[0] == Hello
    && (forall i :: 0 <= i < |ses.requeued| ==> ses.requeued[i] == ses.batch[n + i])
    && (forall i :: 0 <= i < |ses.inHand| ==> ses.inHand[i] == ses.batch[n + |ses.requeued| + i])
    && (forall i :: 0 < i <= n ==> log[i] == Queued(ses.batch[i - 1]))
    && (forall i :: n < i < |log| ==> log[i].Live? || log[i].Control?)
  }

  /** The registry names `c` for its device. */
  predicate Current(k: Core, c: ConnId)
    requires c in k.conns
  {
    k.conns[c].dev in k.clients && k.clients[k.conns[c].dev] == c
  }

  /** What holds of one connection; `waiting` says the hub is registering it now,
      `current` that the registry names it. */
  ghost predicate Good(conn: Conn, ses: Session, waiting: bool, current: bool) {
    && conn.cap >= 1
    && (ses.phase == Waiting <==> waiting)
    && (!Registered(ses.phase) ==> conn.log == [] && ses.requeued == [] && ses.inHand == ses.batch && !conn.closed)
    && (Registered(ses.phase) ==> Framed(conn.log, ses))
    && (ses.phase == Waiting ==> ses.requeued == [] && |conn.log| == 1 + Accepted(ses))
    && (ses.phase == Fresh ==> ses.batch == [])
    && (ses.phase == Gone ==> ses.inHand == [])
    && (Registered(ses.phase) ==> ses.phase == Gone || conn.closed || current)
    && (current ==> (ses.phase == Waiting || ses.phase == Serving) && !conn.closed)
  }

  ghost predicate GoodAt(s: State, c: ConnId)
    requires c in s.core.conns && c in s.sessions
  {
    Good(s.core.conns[c], s.sessions[c], s.handler == Registering(c), Current(s.core, c))
  }

  /** What may be required of a connection, its session, being registered now, and being
      in the registry. */
  type Judge = (Conn, Session, bool, bool) -> bool

  /** State and registry are well formed, and every connection passes. */
  ghost predicate AllPass(good: Judge, s: State) {
    && s.core.conns.Keys == s.sessions.Keys
    && s.core.WellFormed()
    && (s.handler.Registering? ==> s.handler.c in s.sessions)
    && (forall c :: c in s.core.conns ==> Passes(good, s, c))
  }

  ghost predicate Passes(good: Judge, s: State, c: ConnId)
    requires c in s.core.conns && c in s.sessions
  {
    good(s.core.conns[c], s.sessions[c], s.handler == Registering(c), Current(s.core, c))
  }

  ghost predicate Inv(s: State) {
    AllPass(Good, s)
  }

  // ---- frame logs ----

  /** Live traffic may follow once the drained clips are in. */
  lemma FramedAppend(log: seq<Frame>, ses: Session, f: Frame)
    requires Framed(log, ses) && (f.Live? || f.Control?)
    ensures Framed(log + [f], ses)
  {
  }

  /** The hub hands over one more drained clip. */
  lemma FramedNext(log: seq<Frame>, ses: Session)
    requires Framed(log, ses) && ses.requeued == [] && ses.inHand != [] && |log| == 1 + Accepted(ses)
    ensures Framed(log + [Queued(ses.inHand[0])], ses.(inHand := ses.inHand[1..]))
  {
  }

  /** The connection goroutine re-persists one clip. */
  lemma FramedRequeue(log: seq<Frame>, ses: Session)
    requires Framed(log, ses) && ses.inHand != []
    ensures Framed(log, ses.(inHand := ses.inHand[1..], requeued := ses.requeued + [ses.inHand[0]]))
  {
  }

  lemma GoodOffer(conn: Conn, ses: Session, current: bool, f: Frame)
    requires Good(conn, ses, false, current) && Registered(ses.phase) && (f.Live? || f.Control?)
    ensures Good(Offer(conn, f), ses, false, current)
  {
    FramedAppend(conn.log, ses, f);
  }

  // ---- one lemma per kind of step ----

  /** Nothing the invariant says about connection `x` differs between `s` and `t`. */
  ghost predicate Same(s: State, t: State, x: ConnId)
    requires s.core.conns.Keys == s.sessions.Keys && t.core.conns.Keys == t.sessions.Keys
    requires x in t.core.conns
  {
    && x in s.core.conns
    && t.core.conns[x] == s.core.conns[x] && t.sessions[x] == s.sessions[x]
    && (t.handler == Registering(x) <==> s.handler == Registering(x))
    && Current(t.core, x) == Current(s.core, x)
  }

  /** A step that only concerns connection `c` keeps the invariant if it keeps it for `c`. */
  lemma OneChanged(good: Judge, s: State, t: State, c: ConnId)
    requires AllPass(good, s) && t.core.conns.Keys == t.sessions.Keys && t.core.WellFormed()
    requires t.handler.Registering? ==> t.handler.c in t.sessions
    requires c in t.core.conns && Passes(good, t, c)
    requires forall x :: x in t.core.conns && x != c ==> Same(s, t, x)
    ensures AllPass(good, t)
  {
    forall x | x in t.core.conns ensures Passes(good, t, x) {
      if x != c {
        assert Same(s, t, x);
        assert Passes(good, s, x);
      }
    }
  }

  /** The state with another record and session for connection `c`. */
  function Replaced(s: State, c: ConnId, conn: Conn, ses: Session): State {
    s.(core := s.core.(conns := s.core.conns[c := conn]), sessions := s.sessions[c := ses])
  }

  lemma ReplacedPass(good: Judge, s: State, c: ConnId, conn: Conn, ses: Session)
    requires AllPass(good, s) && c in s.core.conns && conn.dev == s.core.conns[c].dev && conn.taken <= |conn.log|
    requires good(conn, ses, s.handler == Registering(c), Current(s.core, c))
    ensures AllPass(good, Replaced(s, c, conn, ses))
  {
    OneChanged(good, s, Replaced(s, c, conn, ses), c);
  }

  /** A step that replaces one connection and touches nothing else the invariant is about. */
  lemma ReplacesPass(good: Judge, s: State, c: ConnId, conn: Conn, ses: Session, t: State)
    requires AllPass(good, s) && c in s.core.conns && conn.dev == s.core.conns[c].dev && conn.taken <= |conn.log|
    requires good(conn, ses, s.handler == Registering(c), Current(s.core, c))
    requires t.core.conns == s.core.conns[c := conn] && t.sessions == s.sessions[c := ses]
    requires t.core.clients == s.core.clients && t.handler == s.handler
    ensures AllPass(good, t)
  {
    ReplacedPass(good, s, c, conn, ses);
    SamePass(good, Replaced(s, c, conn, ses), t);
  }

  /** Only connections, sessions, registry and handler matter. */
  lemma SamePass(good: Judge, s: State, t: State)
    requires AllPass(good, s)
    requires t.core.conns == s.core.conns && t.core.clients == s.core.clients && t.sessions == s.sessions
    requires t.handler == s.handler || (!t.handler.Registering? && !s.handler.Registering?)
    ensures AllPass(good, t)
  {
    forall x | x in t.core.conns ensures Passes(good, t, x) {
      assert Passes(good, s, x);
    }
  }

  lemma InitInv(s: State)
    requires Init(s)
    ensures Inv(s)
  {
  }

  lemma ConnectInv(s: State, c: ConnId, dev: DeviceId, cap: nat)
    requires Inv(s) && Enabled(s, Connect(c, dev, cap))
    ensures Inv(OpenConn(s, c, dev, cap))
  {
    OneChanged(Good, s, OpenConn(s, c, dev, cap), c);
  }

  lemma DrainInv(s: State, c: ConnId)
    requires Inv(s) && Enabled(s, Drain(c))
    ensures Inv(DrainQueue(s, c))
  {
    assert GoodAt(s, c);
    DrainPass(Good, s, c, s.core.Queue(s.core.conns[c].dev));
  }

  lemma DrainPass(good: Judge, s: State, c: ConnId, batch: seq<Item>)
    requires AllPass(good, s) && c in s.core.conns && batch == s.core.Queue(s.core.conns[c].dev)
    requires good(s.core.conns[c], Session(Drained, batch, batch, []), s.handler == Registering(c), Current(s.core, c))
    ensures AllPass(good, DrainQueue(s, c))
  {
    assert s.core.conns[c := s.core.conns[c]] == s.core.conns;
    ReplacesPass(good, s, c, s.core.conns[c], Session(Drained, batch, batch, []), DrainQueue(s, c));
  }

  /** What dislodging does to the registered connection, and to the rest. */
  lemma DislodgeShape(k: Core, d: DeviceId)
    requires k.WellFormed()
    ensures Dislodge(k, d).WellFormed() && Dislodge(k, d).conns.Keys == k.conns.Keys
    ensures Dislodge(k, d).clients == k.clients - {d}
    ensures d in k.clients ==>
      Dislodge(k, d).conns == k.conns[k.clients[d] := k.conns[k.clients[d]].(closed := true)]
    ensures d !in k.clients ==> Dislodge(k, d) == k
  {
  }

  /** Closing a connection and dropping it from the registry is safe while the hub is
      not registering anything. */
  lemma DislodgeInv(s: State, d: DeviceId)
    requires Inv(s) && !s.handler.Registering?
    ensures Inv(s.(core := Dislodge(s.core, d)))
  {
    DislodgeShape(s.core, d);
    if d in s.core.clients {
      assert GoodAt(s, s.core.clients[d]);
      OneChanged(Good, s, s.(core := Dislodge(s.core, d)), s.core.clients[d]);
    }
  }

  lemma ExpelInv(s: State, d: DeviceId)
    requires Inv(s) && !s.handler.Registering?
    ensures Inv(s.(core := Expel(s.core, d)))
  {
    DislodgeInv(s, d);
    ExpelPass(Good, s, d);
  }

  lemma ExpelPass(good: Judge, s: State, d: DeviceId)
    requires s.core.WellFormed() && AllPass(good, s.(core := Dislodge(s.core, d)))
    ensures AllPass(good, s.(core := Expel(s.core, d)))
  {
    assert d !in s.core.clients ==> Dislodge(s.core, d) == s.core;
    SamePass(good, s.(core := Dislodge(s.core, d)), s.(core := Expel(s.core, d)));
  }

  lemma GoodHello(conn: Conn, ses: Session)
    requires Good(conn, ses, false, false) && ses.phase == Drained
    ensures Good(conn.(log := [Hello]), ses.(phase := Waiting), true, true)
  {
  }

  /** Entering a vacated place in the registry. */
  lemma EnterInv(s: State, c: ConnId, t: State)
    requires Inv(s) && s.handler == Idle && InPhase(s, c, Drained) && s.core.conns[c].dev !in s.core.clients
    requires t.core.conns == s.core.conns[c := s.core.conns[c].(log := [Hello])]
    requires t.core.clients == s.core.clients[s.core.conns[c].dev := c]
    requires t.sessions == s.sessions[c := s.sessions[c].(phase := Waiting)] && t.handler == Registering(c)
    ensures Inv(t)
  {
    EnterShape(s.core, c, t.core) by { assert GoodAt(s, c); }
    assert GoodAt(t, c) by {
      assert GoodAt(s, c);
      GoodHello(s.core.conns[c], s.sessions[c]);
    }
    forall x | x in t.core.conns && x != c ensures Same(s, t, x) {
      assert Current(t.core, x) == Current(s.core, x);
    }
    OneChanged(Good, s, t, c);
  }

  lemma EnterShape(k: Core, c: ConnId, k': Core)
    requires k.WellFormed() && c in k.conns && k.conns[c].taken <= 1 && k.conns[c].dev !in k.clients
    requires k'.conns == k.conns[c := k.conns[c].(log := [Hello])] && k'.clients == k.clients[k.conns[c].dev := c]
    ensures k'.WellFormed() && Current(k', c)
    ensures forall x :: x in k.conns && x != c ==> Current(k', x) == Current(k, x)
  {
  }

  lemma DislodgeSpares(k: Core, c: ConnId)
    requires k.WellFormed() && c in k.conns && !Current(k, c)
    ensures var k1 := Dislodge(k, k.conns[c].dev);
      c in k1.conns && k1.conns[c] == k.conns[c] && k.conns[c].dev !in k1.clients
  {
  }

  lemma AdmitShape(k: Core, c: ConnId)
    requires k.WellFormed() && c in k.conns && k.conns[c].log == [] && k.conns[c].cap >= 1 && !Current(k, c)
    ensures var k1, d := Dislodge(k, k.conns[c].dev), k.conns[c].dev;
      && c in k1.conns && k1.conns[c] == k.conns[c]
      && Admit(k, c).conns == k1.conns[c := k1.conns[c].(log := [Hello])]
      && Admit(k, c).clients == k1.clients[d := c]
      && d !in k1.clients
  {
    DislodgeSpares(k, c);
    assert [] + [Hello] == [Hello];
  }

  lemma AdmitInv(s: State, c: ConnId)
    requires Inv(s) && Enabled(s, RegisterBegin(c))
    ensures Inv(BeginRegister(s, c))
  {
    var s1 := s.(core := Dislodge(s.core, s.core.conns[c].dev));
    assert GoodAt(s, c);
    AdmitShape(s.core, c);
    assert Inv(s1) by { DislodgeInv(s, s.core.conns[c].dev); }
    EnterInv(s1, c, BeginRegister(s, c));
  }

  lemma GoodNext(conn: Conn, ses: Session, current: bool)
    requires Good(conn, ses, true, current)
    ensures Good(conn, ses.(phase := Serving), false, current)
    ensures ses.inHand != [] ==>
      Good(conn.(log := conn.log + [Queued(ses.inHand[0])]), ses.(inHand := ses.inHand[1..]), true, current)
  {
    if ses.inHand != [] {
      FramedNext(conn.log, ses);
    }
  }

  lemma RegisterNextInv(s: State)
    requires Inv(s) && Enabled(s, RegisterNext)
    ensures Inv(RegisterTurn(s, s.handler.c))
  {
    var c := s.handler.c;
    assert GoodAt(s, c);
    GoodNext(s.core.conns[c], s.sessions[c], Current(s.core, c));
    if s.sessions[c].inHand != [] && HasRoom(s.core.conns[c]) {
      ReplacedPass(Good, s, c, s.core.conns[c].(log := s.core.conns[c].log + [Queued(s.sessions[c].inHand[0])]),
                   s.sessions[c].(inHand := s.sessions[c].inHand[1..]));
    } else {
      FinishPass(Good, s, c, s.sessions[c].(phase := Serving));
    }
  }

  lemma FinishPass(good: Judge, s: State, c: ConnId, ses: Session)
    requires AllPass(good, s) && s.handler == Registering(c) && c in s.core.conns
    requires good(s.core.conns[c], ses, false, Current(s.core, c))
    ensures AllPass(good, s.(handler := Idle, sessions := s.sessions[c := ses]))
  {
    OneChanged(good, s, s.(handler := Idle, sessions := s.sessions[c := ses]), c);
  }

  lemma GoodRequeue(conn: Conn, ses: Session, current: bool)
    requires Good(conn, ses, false, current) && ses.phase == Serving && ses.inHand != []
    ensures Good(conn, AfterRequeue(ses), false, current)
  {
    FramedRequeue(conn.log, ses);
  }

  function AfterRequeue(ses: Session): Session
    requires ses.inHand != []
  {
    ses.(inHand := ses.inHand[1..], requeued := ses.requeued + [ses.inHand[0]])
  }

  lemma RequeuePass(good: Judge, s: State, c: ConnId, depth: int)
    requires AllPass(good, s) && Enabled(s, Requeue(c, depth))
    requires good(s.core.conns[c], AfterRequeue(s.sessions[c]), s.handler == Registering(c), Current(s.core, c))
    ensures AllPass(good, RequeueOne(s, c, depth))
  {
    assert s.core.conns[c := s.core.conns[c]] == s.core.conns;
    ReplacesPass(good, s, c, s.core.conns[c], AfterRequeue(s.sessions[c]), RequeueOne(s, c, depth));
  }

  lemma RequeueInv(s: State, c: ConnId, depth: int)
    requires Inv(s) && Enabled(s, Requeue(c, depth))
    ensures Inv(RequeueOne(s, c, depth))
  {
    assert GoodAt(s, c);
    GoodRequeue(s.core.conns[c], s.sessions[c], Current(s.core, c));
    RequeuePass(Good, s, c, depth);
  }

  lemma LeaveShape(k: Core, c: ConnId)
    requires k.WellFormed() && c in k.conns
    ensures Leave(k, c).WellFormed() && Leave(k, c).conns == k.conns && !Current(Leave(k, c), c)
    ensures forall x :: x in k.conns && x != c ==> Current(Leave(k, c), x) == Current(k, x)
  {
    assert Leave(k, c).conns == k.conns;
    assert Leave(k, c).clients == if Current(k, c) then k.clients - {k.conns[c].dev} else k.clients;
  }

  lemma LeftPass(good: Judge, s: State, c: ConnId, k: Core, ses: Session)
    requires AllPass(good, s) && c in s.sessions && s.handler == Idle && k.WellFormed() && k.conns == s.core.conns
    requires c in k.conns && good(k.conns[c], ses, false, Current(k, c))
    requires forall x :: x in k.conns && x != c ==> Current(k, x) == Current(s.core, x)
    ensures AllPass(good, s.(core := k, sessions := s.sessions[c := ses]))
  {
    OneChanged(good, s, s.(core := k, sessions := s.sessions[c := ses]), c);
  }

  lemma UnregisterInv(s: State, c: ConnId)
    requires Inv(s) && Enabled(s, Unregister(c))
    ensures Inv(Depart(s, c))
  {
    LeaveShape(s.core, c);
    assert GoodAt(s, c);
    LeftPass(Good, s, c, Leave(s.core, c), s.sessions[c].(phase := Gone));
  }

  /** Offering a frame to a registered connection is safe. */
  lemma OfferInv(s: State, c: ConnId, f: Frame)
    requires Inv(s) && c in s.core.conns && (s.sessions[c].phase == Serving || s.sessions[c].phase == Gone)
    requires f.Live? || f.Control?
    ensures Inv(s.(core := OfferTo(s.core, c, f)))
  {
    assert GoodAt(s, c);
    GoodOffer(s.core.conns[c], s.sessions[c], Current(s.core, c), f);
    SameSessionPass(Good, s, c, Offer(s.core.conns[c], f), s.(core := OfferTo(s.core, c, f)));
  }

  lemma SameSessionPass(good: Judge, s: State, c: ConnId, conn: Conn, t: State)
    requires AllPass(good, s) && c in s.core.conns && conn.dev == s.core.conns[c].dev && conn.taken <= |conn.log|
    requires good(conn, s.sessions[c], s.handler == Registering(c), Current(s.core, c))
    requires t == s.(core := s.core.(conns := s.core.conns[c := conn]))
    ensures AllPass(good, t)
  {
    assert s.sessions[c := s.sessions[c]] == s.sessions;
    ReplacesPass(good, s, c, conn, s.sessions[c], t);
  }

  lemma RouteBeginInv(s: State, clip: Clip, targets: seq<DeviceId>)
    requires Inv(s) && s.handler == Idle
    ensures Inv(BeginRoute(s, clip, targets))
  {
    SamePass(Good, s, BeginRoute(s, clip, targets));
  }

  lemma RouteNextInv(s: State, depth: int, now: int)
    requires Inv(s) && Enabled(s, RouteNext(depth, now))
    ensures Inv(RouteTurn(s, s.handler.clip, s.handler.rest, depth, now))
  {
    var clip, rest := s.handler.clip, s.handler.rest;
    var t := RouteTurn(s, clip, rest, depth, now);
    if rest == [] || rest[0] == clip.origin {
      SamePass(Good, s, t);
    } else if Takes(s.core, rest[0]) {
      var c := s.core.clients[rest[0]];
      assert GoodAt(s, c);
      OfferInv(s, c, Live(clip));
      SamePass(Good, s.(core := OfferTo(s.core, c, Live(clip))), t);
    } else {
      ExpelInv(s, rest[0]);
      SamePass(Good, s.(core := Expel(s.core, rest[0])), t);
    }
  }

  lemma GoodTaken(conn: Conn, ses: Session, waiting: bool, current: bool)
    requires Good(conn, ses, waiting, current)
    ensures Good(conn.(taken := conn.taken + 1), ses, waiting, current)
  {
  }

  lemma TakePass(good: Judge, s: State, c: ConnId)
    requires AllPass(good, s) && Enabled(s, WriterTake(c))
    requires good(s.core.conns[c].(taken := s.core.conns[c].taken + 1), s.sessions[c], s.handler == Registering(c),
                  Current(s.core, c))
    ensures AllPass(good, TakeFrame(s, c))
  {
    SameSessionPass(good, s, c, s.core.conns[c].(taken := s.core.conns[c].taken + 1), TakeFrame(s, c));
  }

  lemma WriterInv(s: State, c: ConnId)
    requires Inv(s) && Enabled(s, WriterTake(c))
    ensures Inv(TakeFrame(s, c))
  {
    assert GoodAt(s, c);
    GoodTaken(s.core.conns[c], s.sessions[c], s.handler == Registering(c), Current(s.core, c));
    TakePass(Good, s, c);
  }

  predicate OfConnection(step: Step) {
    step.Connect? || step.Drain? || step.RegisterBegin? || step.RegisterNext? || step.Requeue? || step.Unregister?
  }

  lemma ConnectionInv(s: State, step: Step)
    requires Inv(s) && Enabled(s, step) && OfConnection(step)
    ensures Inv(Next(s, step))
  {
    match step
    case Connect(c, dev, cap) => ConnectInv(s, c, dev, cap);
    case Drain(c) => DrainInv(s, c);
    case RegisterBegin(c) => AdmitInv(s, c);
    case RegisterNext => RegisterNextInv(s);
    case Requeue(c, depth) => RequeueInv(s, c, depth);
    case Unregister(c) => UnregisterInv(s, c);
  }

  predicate OfStore(step: Step) {
    step.SetPool? || step.Purge? || step.DeleteDevice? || step.DropBlobRecord?
  }

  lemma StoreFrame(s: State, step: Step)
    requires Enabled(s, step) && OfStore(step)
    ensures var t := Next(s, step);
      && t.core.conns == s.core.conns && t.core.clients == s.core.clients
      && t.sessions == s.sessions && t.handler == s.handler
  {
  }

  lemma StoreInv(s: State, step: Step)
    requires Inv(s) && Enabled(s, step) && OfStore(step)
    ensures Inv(Next(s, step))
  {
    StoreFrame(s, step);
    SamePass(Good, s, Next(s, step));
  }

  lemma StepInv(s: State, step: Step)
    requires Inv(s) && Enabled(s, step)
    ensures Inv(Next(s, step))
  {
    if OfConnection(step) {
      ConnectionInv(s, step);
    } else if OfStore(step) {
      StoreInv(s, step);
    } else if step.Evict? {
      ExpelInv(s, step.dev);
    } else if step.RouteBegin? {
      RouteBeginInv(s, step.clip, step.targets);
    } else if step.RouteNext? {
      RouteNextInv(s, step.depth, step.now);
    } else if step.WriterTake? {
      WriterInv(s, step.c);
    } else {
      OfferInv(s, step.c, Control);
    }
  }

  lemma {:induction false} RunInv(run: seq<State>, steps: seq<Step>, i: nat)
    requires IsRun(run, steps) && i < |run|
    ensures Inv(run[i])
  {
    if i == 0 {
      InitInv(run[0]);
    } else {
      RunInv(run, steps, i - 1);
      LastStep(run, steps, i);
      StepInv(run[i - 1], steps[i - 1]);
    }
  }

  // ---- the theorems ----

  function AsFrames(items: seq<Item>): seq<Frame> {
    seq(|items|, i requires 0 <= i < |items| => Queued(items[i]))
  }

  /** In every reachable state, the log of a connection that has registered is
      hello_ok, a prefix of the batch it drained, and then live traffic; that prefix,
      what it re-persisted and what it still holds make up the batch. Once nothing
      is in hand, accepted and re-persisted clips are exactly the drained batch. */
  lemma FrameLogs(run: seq<State>, steps: seq<Step>, i: nat, c: ConnId)
    requires IsRun(run, steps) && i < |run|
    requires c in run[i].sessions && Registered(run[i].sessions[c].phase)
    ensures c in run[i].core.conns
    ensures var log, ses := run[i].core.conns[c].log, run[i].sessions[c];
            var n := Accepted(ses);
            && 0 <= n <= |ses.batch| && n < |log|
            && log == [Hello] + AsFrames(ses.batch[..n]) + log[n + 1..]
            && (forall j :: n < j < |log| ==> log[j].Live? || log[j].Control?)
            && ses.batch == ses.batch[..n] + ses.requeued + ses.inHand
            && (ses.inHand == [] ==> ses.batch == ses.batch[..n] + ses.requeued)
  {
    RunInv(run, steps, i);
    assert GoodAt(run[i], c);
    FramedParts(run[i].core.conns[c].log, run[i].sessions[c]);
  }

  lemma FramedParts(log: seq<Frame>, ses: Session)
    requires Framed(log, ses)
    ensures var n := Accepted(ses);
            && log == [Hello] + AsFrames(ses.batch[..n]) + log[n + 1..]
            && ses.batch == ses.batch[..n] + ses.requeued + ses.inHand
            && (ses.inHand == [] ==> ses.batch == ses.batch[..n] + ses.requeued)
  {
  }

  /** In every reachable state, a connection that has registered is in the registry
      if and only if the hub has not closed it and it has not unregistered itself;
      and a device's registered connection is one of its own. */
  lemma RegistryIsExact(run: seq<State>, steps: seq<Step>, i: nat, c: ConnId)
    requires IsRun(run, steps) && i < |run| && c in run[i].sessions
    ensures c in run[i].core.conns
    ensures Registered(run[i].sessions[c].phase) ==>
      (Current(run[i].core, c) <==> !run[i].core.conns[c].closed && run[i].sessions[c].phase != Gone)
    ensures forall d :: d in run[i].core.clients ==>
      run[i].core.clients[d] in run[i].core.conns && run[i].core.conns[run[i].core.clients[d]].dev == d
  {
    RunInv(run, steps, i);
    assert GoodAt(run[i], c);
  }

  /** An unregister never takes another connection out of the registry. */
  lemma UnregisterSparesOthers(run: seq<State>, steps: seq<Step>, i: nat, c: ConnId, other: ConnId)
    requires IsRun(run, steps) && i < |steps| && steps[i] == Unregister(c) && other != c
    requires other in run[i].core.conns && Current(run[i].core, other)
    ensures other in run[i + 1].core.conns && Current(run[i + 1].core, other)
    ensures run[i + 1].core.conns == run[i].core.conns
  {
    RunInv(run, steps, i);
    assert StepAt(run, steps, i);
    LeaveShape(run[i].core, c);
  }
}
