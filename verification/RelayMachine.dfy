/** The relay as a transition system. The hub goroutine works through its handlers
    one loop turn at a time; connection goroutines drain and re-persist the offline
    queue, write pumps take frames, and housekeeping and the admin change the store,
    all in between those turns. */
module RelayMachine {
  import opened Model
  import opened Fifo
  import opened RelayCore
  import Gather

  /** One recipient occurrence of one routed clip. */
  datatype Placement = Placement(clip: Clip, device: DeviceId)

  /** What the hub goroutine is in the middle of. */
  datatype Handler = Idle | Registering(c: ConnId) | Routing(clip: Clip, rest: seq<DeviceId>)

  /** How far a connection goroutine has come:
      Fresh (authenticated), Drained (holds its batch), Waiting (for the hub),
      Serving (re-persists what did not fit, then reads), Gone (unregistered). */
  datatype Phase = Fresh | Drained | Waiting | Serving | Gone

  /** `batch` is what the connection drained, `inHand` what it still owes somebody,
      `requeued` what it has re-persisted so far. */
  datatype Session = Session(phase: Phase, batch: seq<Item>, inHand: seq<Item>, requeued: seq<Item>)

  /** Where recipient occurrences came from, and which were given up on purpose. */
  datatype Ledger = Ledger(
    placed: seq<Placement>,
    trimmed: seq<Placement>,
    purged: seq<Placement>,
    deleted: seq<Placement>)

  /** `claims` remembers, per blob, the last claim that was accepted. */
  datatype State = State(
    core: Core,
    handler: Handler,
    sessions: map<ConnId, Session>,
    ledger: Ledger,
    claims: map<BlobId, Acl>)

  datatype Step =
    | Connect(c: ConnId, dev: DeviceId, cap: nat)
    | Drain(c: ConnId)
    | RegisterBegin(c: ConnId)
    | RegisterNext
    | Requeue(c: ConnId, depth: int)
    | Unregister(c: ConnId)
    | Evict(dev: DeviceId)
    | RouteBegin(clip: Clip, targets: seq<DeviceId>, e2e: bool)
    | RouteNext(depth: int, now: int)
    | WriterTake(c: ConnId)
    | ControlFrame(c: ConnId)
    | SetPool(dev: DeviceId, pool: string)
    | Purge(now: int, ttl: int)
    | DeleteDevice(dev: DeviceId)
    | DropBlobRecord(b: BlobId)

  // ---- occurrences ----

  /** The occurrences a device's queued items stand for. */
  function Tags(d: DeviceId, items: seq<Item>): seq<Placement> {
    seq(|items|, i requires 0 <= i < |items| => Placement(items[i].clip, d))
  }

  function FrameTag(d: DeviceId, f: Frame): seq<Placement> {
    match f
    case Queued(item) => [Placement(item.clip, d)]
    case Live(clip) => [Placement(clip, d)]
    case _ => []
  }

  function LogTags(d: DeviceId, log: seq<Frame>): seq<Placement> {
    if log == [] then [] else LogTags(d, log[..|log| - 1]) + FrameTag(d, log[|log| - 1])
  }

  /** The recipient occurrences a clip owes to a list of targets; the origin gets none. */
  function Owed(clip: Clip, targets: seq<DeviceId>): seq<Placement> {
    if targets == [] then [] else
      (if targets[0] == clip.origin then [] else [Placement(clip, targets[0])]) + Owed(clip, targets[1..])
  }

  ghost function LogMap(conns: map<ConnId, Conn>): map<ConnId, seq<Placement>> {
    map c | c in conns :: LogTags(conns[c].dev, conns[c].log)
  }

  ghost function QueueMap(queues: map<DeviceId, seq<Item>>): map<DeviceId, seq<Placement>> {
    map d | d in queues :: Tags(d, queues[d])
  }

  ghost function HandMap(conns: map<ConnId, Conn>, sessions: map<ConnId, Session>): map<ConnId, seq<Placement>>
    requires sessions.Keys <= conns.Keys
  {
    map c | c in sessions :: Tags(conns[c].dev, sessions[c].inHand)
  }

  /** How often an occurrence reached some connection's send channel. */
  ghost function Sent(s: State, p: Placement): nat {
    Gather.Total(LogMap(s.core.conns), p)
  }

  /** How often it is stored in the offline queues. */
  ghost function Stored(s: State, p: Placement): nat {
    Gather.Total(QueueMap(s.core.queues), p)
  }

  /** How often connection goroutines hold it between their drain and their last requeue. */
  ghost function InHand(s: State, p: Placement): nat
    requires s.sessions.Keys <= s.core.conns.Keys
  {
    Gather.Total(HandMap(s.core.conns, s.sessions), p)
  }

  /** How often the routing loop has yet to come to it. */
  ghost function Unrouted(s: State, p: Placement): nat {
    match s.handler
    case Routing(clip, rest) => Gather.Occ(Owed(clip, rest), p)
    case _ => 0
  }

  // ---- transitions ----

  /** A process start: no connections, whatever the store held before. */
  ghost predicate Init(s: State) {
    && s.core.clients == map[] && s.core.conns == map[] && s.core.onDemand == map[] && s.core.acl == map[]
    && s.handler == Idle && s.sessions == map[]
    && s.ledger == Ledger(Gather.Flatten(QueueMap(s.core.queues)), [], [], [])
    && s.claims == s.core.persisted
    && (forall b :: b in s.core.persisted ==> s.core.persisted[b].origin in s.core.persisted[b].allowed)
  }

  predicate InPhase(s: State, c: ConnId, p: Phase) {
    c in s.sessions && c in s.core.conns && s.sessions[c].phase == p
  }

  predicate Enabled(s: State, step: Step) {
    match step
    case Connect(c, dev, cap) => c !in s.core.conns && c !in s.sessions && cap >= 1
    case Drain(c) => InPhase(s, c, Fresh)
    case RegisterBegin(c) => s.handler == Idle && InPhase(s, c, Drained) && s.core.WellFormed()
    case RegisterNext => s.handler.Registering? && InPhase(s, s.handler.c, Waiting)
    case Requeue(c, depth) => InPhase(s, c, Serving) && s.sessions[c].inHand != []
    case Unregister(c) => s.handler == Idle && InPhase(s, c, Serving) && s.sessions[c].inHand == []
    case Evict(dev) => s.handler == Idle && s.core.WellFormed()
    case RouteBegin(clip, targets, e2e) => s.handler == Idle
    case RouteNext(depth, now) => s.handler.Routing? && s.core.WellFormed()
    case WriterTake(c) => c in s.core.conns && s.core.conns[c].taken < |s.core.conns[c].log|
    case ControlFrame(c) => InPhase(s, c, Serving) || InPhase(s, c, Gone)
    case SetPool(dev, pool) => true
    case Purge(now, ttl) => true
    case DeleteDevice(dev) => true
    case DropBlobRecord(b) => true
  }

  ghost function Next(s: State, step: Step): State
    requires Enabled(s, step)
  {
    match step
    case Connect(c, dev, cap) => OpenConn(s, c, dev, cap)
    case Drain(c) => DrainQueue(s, c)
    case RegisterBegin(c) => BeginRegister(s, c)
    case RegisterNext => RegisterTurn(s, s.handler.c)
    case Requeue(c, depth) => RequeueOne(s, c, depth)
    case Unregister(c) => Depart(s, c)
    case Evict(dev) => s.(core := Expel(s.core, dev))
    case RouteBegin(clip, targets, e2e) => if Refused(e2e, clip) then s else BeginRoute(s, clip, targets)
    case RouteNext(depth, now) => RouteTurn(s, s.handler.clip, s.handler.rest, depth, now)
    case WriterTake(c) => TakeFrame(s, c)
    case ControlFrame(c) => s.(core := OfferTo(s.core, c, Control))
    case SetPool(dev, pool) => s.(core := s.core.(pools := s.core.pools[dev := pool]))
    case Purge(now, ttl) => if ttl <= 0 then s else PurgeAll(s, now, ttl)
    case DeleteDevice(dev) => ForgetDevice(s, dev)
    case DropBlobRecord(b) => s.(core := s.core.(persisted := s.core.persisted - {b}))
  }

  function OpenConn(s: State, c: ConnId, dev: DeviceId, cap: nat): State {
    s.(core := s.core.(conns := s.core.conns[c := Conn(dev, cap, [], 0, false)]),
       sessions := s.sessions[c := Session(Fresh, [], [], [])])
  }

  /** Take the whole stored queue of the connection's device. */
  function DrainQueue(s: State, c: ConnId): State
    requires c in s.core.conns
  {
    var d := s.core.conns[c].dev;
    var batch := s.core.Queue(d);
    s.(core := s.core.(queues := s.core.queues - {d}),
       sessions := s.sessions[c := Session(Drained, batch, batch, [])])
  }

  function BeginRegister(s: State, c: ConnId): State
    requires c in s.core.conns && c in s.sessions && s.core.WellFormed()
  {
    s.(core := Admit(s.core, c), handler := Registering(c),
       sessions := s.sessions[c := s.sessions[c].(phase := Waiting)])
  }

  function Depart(s: State, c: ConnId): State
    requires c in s.core.conns && c in s.sessions
  {
    s.(core := Leave(s.core, c), sessions := s.sessions[c := s.sessions[c].(phase := Gone)])
  }

  function BeginRoute(s: State, clip: Clip, targets: seq<DeviceId>): State {
    s.(core := Claim(s.core, clip, targets),
       handler := Routing(clip, targets),
       ledger := s.ledger.(placed := s.ledger.placed + Owed(clip, targets)),
       claims := if ClaimAllowed(s.core, clip) then s.claims[clip.blob.value := ClaimOf(clip, targets)] else s.claims)
  }

  function TakeFrame(s: State, c: ConnId): State
    requires c in s.core.conns
  {
    s.(core := s.core.(conns := s.core.conns[c := s.core.conns[c].(taken := s.core.conns[c].taken + 1)]))
  }

  function ForgetDevice(s: State, dev: DeviceId): State {
    s.(core := s.core.(queues := s.core.queues - {dev}, pools := s.core.pools - {dev}),
       ledger := s.ledger.(deleted := s.ledger.deleted + Tags(dev, s.core.Queue(dev))))
  }

  /** Offer the next drained clip; on the first one that does not fit, hand the rest back. */
  function RegisterTurn(s: State, c: ConnId): State
    requires InPhase(s, c, Waiting)
  {
    var ses := s.sessions[c];
    if ses.inHand != [] && HasRoom(s.core.conns[c]) then
      s.(core := OfferTo(s.core, c, Queued(ses.inHand[0])),
         sessions := s.sessions[c := ses.(inHand := ses.inHand[1..])])
    else
      s.(handler := Idle, sessions := s.sessions[c := ses.(phase := Serving)])
  }

  function RequeueOne(s: State, c: ConnId, depth: int): State
    requires InPhase(s, c, Serving) && s.sessions[c].inHand != []
  {
    var ses := s.sessions[c];
    var d := s.core.conns[c].dev;
    var it := ses.inHand[0];
    s.(core := Enqueue(s.core, d, it, depth),
       sessions := s.sessions[c := ses.(inHand := ses.inHand[1..], requeued := ses.requeued + [it])],
       ledger := s.ledger.(trimmed := s.ledger.trimmed + Tags(d, Trimmed(s.core.Queue(d), it, depth))))
  }

  /** One turn of the routing loop; a queued clip may push older ones out. */
  function RouteTurn(s: State, clip: Clip, rest: seq<DeviceId>, depth: int, now: int): State
    requires s.core.WellFormed()
  {
    if rest == [] then s.(handler := Idle)
    else if rest[0] == clip.origin then s.(handler := Routing(clip, rest[1..]))
    else
      var d := rest[0];
      s.(core := Deliver(s.core, clip, d, depth, now),
         handler := Routing(clip, rest[1..]),
         ledger := if Takes(s.core, d) then s.ledger else
           s.ledger.(trimmed := s.ledger.trimmed + Tags(d, Trimmed(s.core.Queue(d), Item(clip, now), depth))))
  }

  ghost function PurgeAll(s: State, now: int, ttl: int): State {
    s.(core := s.core.(queues := Purged(s.core.queues, now, ttl)),
       ledger := s.ledger.(purged := s.ledger.purged + Gather.Flatten(QueueMap(Expiring(s.core.queues, now, ttl)))))
  }

  // ---- runs ----

  /** Step `i` of the run. */
  ghost predicate StepAt(run: seq<State>, steps: seq<Step>, i: int)
    requires |run| == |steps| + 1 && 0 <= i < |steps|
  {
    Enabled(run[i], steps[i]) && run[i + 1] == Next(run[i], steps[i])
  }

  ghost predicate IsRun(run: seq<State>, steps: seq<Step>) {
    && |run| == |steps| + 1
    && Init(run[0])
    && (forall i :: 0 <= i < |steps| ==> StepAt(run, steps, i))
  }

  lemma LastStep(run: seq<State>, steps: seq<Step>, i: nat)
    requires IsRun(run, steps) && 0 < i < |run|
    ensures Enabled(run[i - 1], steps[i - 1]) && run[i] == Next(run[i - 1], steps[i - 1])
  {
    assert StepAt(run, steps, i - 1);
  }

  lemma Extend(run: seq<State>, steps: seq<Step>, step: Step) returns (run': seq<State>, steps': seq<Step>)
    requires IsRun(run, steps) && Enabled(run[|steps|], step)
    ensures IsRun(run', steps') && steps' == steps + [step] && run' == run + [Next(run[|steps|], step)]
  {
    run', steps' := run + [Next(run[|steps|], step)], steps + [step];
    forall i | 0 <= i < |steps'| ensures StepAt(run', steps', i) {
      StepKept(run, steps, run[|steps|], step, Next(run[|steps|], step), i);
    }
  }

  lemma StepKept(run: seq<State>, steps: seq<Step>, last: State, step: Step, next: State, i: nat)
    requires IsRun(run, steps) && i <= |steps| && last == run[|steps|]
    requires Enabled(last, step) && next == Next(last, step)
    ensures StepAt(run + [next], steps + [step], i)
  {
    if i < |steps| {
      assert StepAt(run, steps, i);
      assert (run + [next])[i + 1] == run[i + 1] && (run + [next])[i] == run[i] && (steps + [step])[i] == steps[i];
    } else {
      assert (run + [next])[i + 1] == next && (run + [next])[i] == last && (steps + [step])[i] == step;
    }
  }
}
