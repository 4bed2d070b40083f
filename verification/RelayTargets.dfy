/** Which devices a clip is addressed to (server/internal/hub/hub.go, resolveTargets). */
module RelayTargets {
  import opened Model
  import opened RelayCore
  import opened RelayMachine
  import opened RelaySafety
  import opened RelayConservation
  import Gather

  datatype Targets = Broadcast | All | Devices(ids: seq<DeviceId>)

  /** The devices of a list that share the origin's pool. */
  function InPool(k: Core, origin: DeviceId, list: seq<DeviceId>): seq<DeviceId> {
    if list == [] then [] else
      (if k.PoolOf(list[0]) == k.PoolOf(origin) then [list[0]] else []) + InPool(k, origin, list[1..])
  }

  /** The devices of a list that are in the store. */
  function Known(k: Core, list: seq<DeviceId>): seq<DeviceId> {
    if list == [] then [] else (if list[0] in k.pools then [list[0]] else []) + Known(k, list[1..])
  }

  /** `all` are the devices in the store, in some order. */
  function Resolve(k: Core, origin: DeviceId, t: Targets, all: seq<DeviceId>): seq<DeviceId> {
    match t
    case Broadcast => all
    case All => InPool(k, origin, all)
    case Devices(ids) => Known(k, ids)
  }

  ghost predicate Resolved(k: Core, clip: Clip, t: Targets, targets: seq<DeviceId>) {
    exists all :: (forall d :: d in all <==> d in k.pools) && targets == Resolve(k, clip.origin, t, all)
  }

  lemma {:induction false} InPoolIff(k: Core, origin: DeviceId, list: seq<DeviceId>, d: DeviceId)
    ensures d in InPool(k, origin, list) <==> d in list && k.PoolOf(d) == k.PoolOf(origin)
  {
    if list != [] {
      InPoolIff(k, origin, list[1..], d);
      assert list == [list[0]] + list[1..];
    }
  }

  lemma {:induction false} KnownIff(k: Core, list: seq<DeviceId>, d: DeviceId)
    ensures d in Known(k, list) <==> d in list && d in k.pools
  {
    if list != [] {
      KnownIff(k, list[1..], d);
      assert list == [list[0]] + list[1..];
    }
  }

  /** Who is addressed: everybody on a broadcast, the origin's pool on `all`, and the named
      devices that exist otherwise. */
  lemma ResolvedIff(k: Core, clip: Clip, t: Targets, targets: seq<DeviceId>, d: DeviceId)
    requires Resolved(k, clip, t, targets)
    ensures d in targets <==>
      match t
      case Broadcast => d in k.pools
      case All => d in k.pools && k.PoolOf(d) == k.PoolOf(clip.origin)
      case Devices(ids) => d in k.pools && d in ids
  {
    var all :| (forall d :: d in all <==> d in k.pools) && targets == Resolve(k, clip.origin, t, all);
    match t
    case Broadcast =>
    case All => InPoolIff(k, clip.origin, all, d);
    case Devices(ids) => KnownIff(k, ids, d);
  }

  /** A clip is owed to a device as often as the device is named, to the origin never. */
  lemma {:induction false} OwedCount(clip: Clip, targets: seq<DeviceId>, p: Placement)
    ensures Gather.Occ(Owed(clip, targets), p) ==
      if p.clip == clip && p.device != clip.origin then multiset(targets)[p.device] else 0
  {
    if targets != [] {
      OwedCount(clip, targets[1..], p);
      HeadOwed(clip, targets, p);
      assert targets == [targets[0]] + targets[1..];
    }
  }

  /** Step `i`, if it routes the clip of `p`, addresses it by `t` and `p`'s device is not meant. */
  ghost predicate NotMeant(s: State, step: Step, t: Targets, p: Placement) {
    step.RouteBegin? && step.clip == p.clip ==>
      && Resolved(s.core, step.clip, t, step.targets)
      && (p.device == step.clip.origin || p.device !in step.targets)
  }

  lemma StepPlacesNone(s: State, step: Step, t: Targets, p: Placement)
    requires Enabled(s, step) && NotMeant(s, step, t, p)
    ensures Gather.Occ(Next(s, step).ledger.placed, p) == Gather.Occ(s.ledger.placed, p)
  {
    if step.RouteBegin? && !Refused(step.e2e, step.clip) {
      Gather.OccConcat(s.ledger.placed, Owed(step.clip, step.targets), p);
      OwedCount(step.clip, step.targets, p);
    } else {
      assert Next(s, step).ledger.placed == s.ledger.placed;
    }
  }

  lemma PlacesNoneAt(run: seq<State>, steps: seq<Step>, i: nat, t: Targets, p: Placement)
    requires IsRun(run, steps) && 0 < i < |run| && NotMeant(run[i - 1], steps[i - 1], t, p)
    ensures Gather.Occ(run[i].ledger.placed, p) == Gather.Occ(run[i - 1].ledger.placed, p)
  {
    LastStep(run, steps, i);
    StepPlacesNone(run[i - 1], steps[i - 1], t, p);
  }

  lemma {:induction false} PlacesNone(run: seq<State>, steps: seq<Step>, i: nat, t: Targets, p: Placement)
    requires IsRun(run, steps) && i < |run|
    requires forall j :: 0 <= j < |steps| ==> NotMeant(run[j], steps[j], t, p)
    ensures Gather.Occ(run[i].ledger.placed, p) == Gather.Occ(run[0].ledger.placed, p)
  {
    if i > 0 {
      PlacesNone(run, steps, i - 1, t, p);
      PlacesNoneAt(run, steps, i, t, p);
    }
  }

  /** Whenever the clip is routed, it is addressed to all, and the device is in another pool
      than its origin at that moment. */
  ghost predicate OtherPool(s: State, step: Step, p: Placement) {
    step.RouteBegin? && step.clip == p.clip ==>
      && Resolved(s.core, step.clip, All, step.targets)
      && s.core.PoolOf(p.device) != s.core.PoolOf(step.clip.origin)
  }

  /** A clip addressed to all never reaches a device that was in another pool whenever it
      was routed: not its connections, not its queue, not anybody's hands; however pools
      are changed before, between and after. */
  lemma AllStaysInPool(run: seq<State>, steps: seq<Step>, i: nat, p: Placement)
    requires IsRun(run, steps) && i < |run| && Stored(run[0], p) == 0
    requires forall j :: 0 <= j < |steps| ==> OtherPool(run[j], steps[j], p)
    ensures run[i].sessions.Keys == run[i].core.conns.Keys
    ensures Sent(run[i], p) == 0 && Stored(run[i], p) == 0 && InHand(run[i], p) == 0 && Unrouted(run[i], p) == 0
  {
    forall j | 0 <= j < |steps| ensures NotMeant(run[j], steps[j], All, p) {
      assert OtherPool(run[j], steps[j], p);
      if steps[j].RouteBegin? && steps[j].clip == p.clip {
        ResolvedIff(run[j].core, steps[j].clip, All, steps[j].targets, p.device);
      }
    }
    PlacesNone(run, steps, i, All, p);
    Gather.FlattenOcc(QueueMap(run[0].core.queues), p);
    Conservation(run, steps, i, p);
  }
}
