/** Runs that reach the states in which the claim and access theorems fail. */
module RelayRuns {
  import opened Model
  import opened RelayCore
  import opened RelayMachine
  import opened RelaySafety
  import opened RelayClaims
  import Gather

  /** A process start with an empty store. */
  ghost function Fresh(): (s: State)
    ensures Init(s)
  {
    State(Core(map[], map[], map[], map[], map[], map[], map[]), Idle, map[],
          Ledger(Gather.Flatten(QueueMap(map[])), [], [], []), map[])
  }

  /** The store and the claims are empty, and `c` is registered for `dev` and being served. */
  ghost predicate Serves(s: State, c: ConnId, dev: DeviceId) {
    && s.handler == Idle && s.core.WellFormed()
    && s.core.clients == map[dev := c] && c in s.core.conns && s.core.conns[c].dev == dev
    && c in s.sessions && s.sessions[c].phase == Serving && s.sessions[c].inHand == []
    && s.core.onDemand == map[] && s.core.acl == map[] && s.core.persisted == map[] && s.core.queues == map[]
  }

  lemma Extends(run: seq<State>, steps: seq<Step>, step: Step) returns (run': seq<State>, steps': seq<Step>)
    requires OwnedRun(run, steps) && Enabled(run[|steps|], step) && Owned(run[|steps|], step)
    ensures OwnedRun(run', steps') && steps' == steps + [step] && run' == run + [Next(run[|steps|], step)]
  {
    run', steps' := Extend(run, steps, step);
    forall i | 0 <= i < |steps'| ensures Owned(run'[i], steps'[i]) {
      if i < |steps| {
        assert Owned(run[i], steps[i]);
      }
    }
  }

  lemma Connects(c: ConnId, dev: DeviceId) returns (run: seq<State>, steps: seq<Step>)
    ensures OwnedRun(run, steps) && steps == [Connect(c, dev, 1), Drain(c)] && |run| == 3
    ensures run[2] == Fresh().(core := Fresh().core.(conns := map[c := Conn(dev, 1, [], 0, false)]),
                               sessions := map[c := Session(Drained, [], [], [])])
  {
    run, steps := Extends([Fresh()], [], Connect(c, dev, 1));
    run, steps := Extends(run, steps, Drain(c));
    assert run[2].core.queues == map[];
  }

  /** What registering the first connection leads to. */
  lemma BeginsRegister(s: State, c: ConnId, dev: DeviceId)
    requires s == Fresh().(core := Fresh().core.(conns := map[c := Conn(dev, 1, [], 0, false)]),
                           sessions := map[c := Session(Drained, [], [], [])])
    ensures Enabled(s, RegisterBegin(c)) && Enabled(Next(s, RegisterBegin(c)), RegisterNext)
    ensures Serves(Next(Next(s, RegisterBegin(c)), RegisterNext), c, dev)
  {
    var t := Next(s, RegisterBegin(c));
    assert t.handler == Registering(c) && t.sessions == map[c := Session(Waiting, [], [], [])];
    assert t.core == s.core.(clients := map[dev := c], conns := map[c := Conn(dev, 1, [] + [Hello], 0, false)]);
    assert Next(t, RegisterNext) == t.(handler := Idle, sessions := map[c := Session(Serving, [], [], [])]);
  }

  /** A device connects, drains its empty queue and is registered. */
  lemma Registers(c: ConnId, dev: DeviceId) returns (run: seq<State>, steps: seq<Step>)
    ensures OwnedRun(run, steps) && steps == [Connect(c, dev, 1), Drain(c), RegisterBegin(c), RegisterNext]
    ensures |run| == 5 && Serves(run[4], c, dev)
  {
    run, steps := Connects(c, dev);
    BeginsRegister(run[2], c, dev);
    run, steps := Extends(run, steps, RegisterBegin(c));
    run, steps := Extends(run, steps, RegisterNext);
  }

  /** The assumption of ClaimsHold matters: an evicted connection may still route a clip
      it had read, and the claim stays behind with nobody online to answer for it. */
  lemma EvictedClaimDangles(c: ConnId, clip: Clip) returns (run: seq<State>, steps: seq<Step>)
    requires clip.blob.Some?
    ensures IsRun(run, steps)
    ensures steps == [Connect(c, clip.origin, 1), Drain(c), RegisterBegin(c), RegisterNext, Evict(clip.origin),
                      RouteBegin(clip, [], false)]
    ensures ClaimInv(run[5].core) && !ClaimInv(run[6].core)
  {
    run, steps := Registers(c, clip.origin);
    Evicted(run[4], c, clip.origin);
    run, steps := Extends(run, steps, Evict(clip.origin));
    assert ClaimInv(run[5].core) by { ClaimsHold(run, steps, 5); }
    LateRouteDangles(run[5], clip);
    run, steps := Extend(run, steps, RouteBegin(clip, [], false));
  }

  lemma Evicted(s: State, c: ConnId, dev: DeviceId)
    requires Serves(s, c, dev)
    ensures Enabled(s, Evict(dev))
    ensures var t := Next(s, Evict(dev)); t.core.clients == map[] && t.core.acl == map[] && t.handler == Idle
  {
  }

  lemma LateRouteDangles(s: State, clip: Clip)
    requires s.handler == Idle && clip.blob.Some? && ClaimInv(s.core) && s.core.clients == map[] && s.core.acl == map[]
    ensures !ClaimInv(Next(s, RouteBegin(clip, [], false)).core)
  {
    ClaimKeepsInvIff(s.core, clip, []);
  }

  /** A device routes a clip that refers to a blob. */
  lemma Routes(c: ConnId, clip: Clip) returns (run: seq<State>, steps: seq<Step>)
    requires clip.blob.Some?
    ensures OwnedRun(run, steps)
    ensures steps == [Connect(c, clip.origin, 1), Drain(c), RegisterBegin(c), RegisterNext,
                      RouteBegin(clip, [], false), RouteNext(0, 0)]
    ensures run[6].core.acl == map[clip.blob.value := ClaimOf(clip, [])]
    ensures run[6].core.persisted == map[clip.blob.value := ClaimOf(clip, [])]
    ensures run[6].core.queues == map[] && run[6].handler == Idle
    ensures InPhase(run[6], c, Serving) && run[6].sessions[c].inHand == []
    ensures run[6].core.conns[c].dev == clip.origin && Current(run[6].core, c)
  {
    run, steps := Registers(c, clip.origin);
    run, steps := Extends(run, steps, RouteBegin(clip, [], false));
    run, steps := Extends(run, steps, RouteNext(0, 0));
  }

  /** The failing side of LeaveKeepsAccessIff is reachable: the collector drops the record
      of a routed blob, the origin disconnects, and nobody may fetch the blob any more. */
  lemma AccessLost(c: ConnId, clip: Clip) returns (run: seq<State>, steps: seq<Step>)
    requires clip.blob.Some?
    ensures OwnedRun(run, steps)
    ensures steps == [Connect(c, clip.origin, 1), Drain(c), RegisterBegin(c), RegisterNext,
                      RouteBegin(clip, [], false), RouteNext(0, 0), DropBlobRecord(clip.blob.value), Unregister(c)]
    ensures MayFetch(run[7].core, clip.blob.value, clip.origin)
    ensures forall d :: !MayFetch(run[8].core, clip.blob.value, d)
  {
    var b := clip.blob.value;
    run, steps := Routes(c, clip);
    run, steps := Extends(run, steps, DropBlobRecord(b));
    DroppedRecord(run[6], c, clip);
    LeavesNothing(run, steps, c, clip);
    run, steps := Extends(run, steps, Unregister(c));
  }

  /** The origin of a blob is served, and the blob has a claim in memory but none on record. */
  ghost predicate Unrecorded(s: State, c: ConnId, clip: Clip) {
    && clip.blob.Some? && clip.blob.value !in s.core.persisted
    && s.core.acl == map[clip.blob.value := ClaimOf(clip, [])]
    && s.handler == Idle && InPhase(s, c, Serving) && s.sessions[c].inHand == []
    && s.core.conns[c].dev == clip.origin && Current(s.core, c)
  }

  lemma DroppedRecord(s: State, c: ConnId, clip: Clip)
    requires clip.blob.Some? && s.core.acl == map[clip.blob.value := ClaimOf(clip, [])] && s.handler == Idle
    requires InPhase(s, c, Serving) && s.sessions[c].inHand == []
    requires s.core.conns[c].dev == clip.origin && Current(s.core, c)
    ensures Unrecorded(Next(s, DropBlobRecord(clip.blob.value)), c, clip)
  {
  }

  lemma LeavesNothing(run: seq<State>, steps: seq<Step>, c: ConnId, clip: Clip)
    requires OwnedRun(run, steps) && |run| == 8 && Unrecorded(run[7], c, clip)
    ensures MayFetch(run[7].core, clip.blob.value, clip.origin)
    ensures Enabled(run[7], Unregister(c))
    ensures forall d :: !MayFetch(Next(run[7], Unregister(c)).core, clip.blob.value, d)
  {
    ClaimsHold(run, steps, 7);
    RunRecords(run, steps, 7);
    LeaveKeepsAccessIff(run[7], c, clip.blob.value);
  }
}
