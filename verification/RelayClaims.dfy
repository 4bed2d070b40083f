/** Who may change a blob's claim, and who may fetch the blob. */
module RelayClaims {
  import opened Model
  import opened RelayCore
  import opened RelayMachine
  import opened RelaySafety

  /** Every claimed blob's origin is online and on its own list, and every on-demand
      holder is the origin of the blob's claim. */
  ghost predicate ClaimInv(k: Core) {
    && (forall b :: b in k.acl ==> k.acl[b].origin in k.clients && k.acl[b].origin in k.acl[b].allowed)
    && (forall b :: b in k.onDemand ==> b in k.acl && k.acl[b].origin == k.onDemand[b])
  }

  /** Both copies of an ACL, where present, are the last claim that was accepted. */
  ghost predicate RecordsAgree(s: State) {
    && (forall b :: b in s.core.acl ==> b in s.claims && s.core.acl[b] == s.claims[b])
    && (forall b :: b in s.core.persisted ==> b in s.claims && s.core.persisted[b] == s.claims[b])
    && (forall b :: b in s.claims ==> s.claims[b].origin in s.claims[b].allowed)
  }

  /** The device routing a blob-bearing clip is registered at that moment. */
  ghost predicate Owned(s: State, step: Step) {
    step.RouteBegin? && step.clip.blob.Some? ==> step.clip.origin in s.core.clients
  }

  ghost predicate OwnedRun(run: seq<State>, steps: seq<Step>) {
    IsRun(run, steps) && forall i :: 0 <= i < |steps| ==> Owned(run[i], steps[i])
  }

  // ---- what each piece of a handler does to the claims ----

  lemma ExpelClaims(k: Core, d: DeviceId)
    requires k.WellFormed() && ClaimInv(k)
    ensures ClaimInv(Expel(k, d))
  {
  }

  lemma LeaveClaims(k: Core, c: ConnId)
    requires c in k.conns && ClaimInv(k)
    ensures ClaimInv(Leave(k, c))
  {
  }

  /** Taking a claim keeps the invariant if and only if no claim is taken or the
      claimant is registered. */
  lemma ClaimKeepsInvIff(k: Core, clip: Clip, targets: seq<DeviceId>)
    requires ClaimInv(k)
    ensures ClaimInv(Claim(k, clip, targets)) <==> !ClaimAllowed(k, clip) || clip.origin in k.clients
  {
    if ClaimAllowed(k, clip) {
      var k', b := Claim(k, clip, targets), clip.blob.value;
      assert b in k'.acl && k'.acl[b].origin == clip.origin;
      if clip.origin in k.clients {
        forall x | x in k'.onDemand ensures x in k'.acl && k'.acl[x].origin == k'.onDemand[x] {
          if x != b {
            assert x in k.onDemand;
          }
        }
      }
    }
  }

  lemma DeliverClaims(k: Core, clip: Clip, d: DeviceId, depth: int, now: int)
    requires k.WellFormed() && ClaimInv(k)
    ensures ClaimInv(Deliver(k, clip, d, depth, now))
  {
    if Takes(k, d) {
      SameClaims(k, OfferTo(k, k.clients[d], Live(clip)));
    } else {
      ExpelClaims(k, d);
      SameClaims(Expel(k, d), Deliver(k, clip, d, depth, now));
    }
  }

  lemma SameClaims(k: Core, k': Core)
    requires ClaimInv(k) && k'.acl == k.acl && k'.onDemand == k.onDemand && k.clients.Keys <= k'.clients.Keys
    ensures ClaimInv(k')
  {
  }

  lemma AdmitClaims(k: Core, c: ConnId)
    requires c in k.conns && k.WellFormed() && ClaimInv(k)
    ensures ClaimInv(Admit(k, c))
  {
    var k1 := Dislodge(k, k.conns[c].dev);
    assert k1.acl == k.acl && k1.onDemand == k.onDemand && k.clients.Keys <= k1.clients.Keys + {k.conns[c].dev};
    SameClaims(k, Admit(k, c));
  }

  lemma StepClaims(s: State, step: Step)
    requires Enabled(s, step) && ClaimInv(s.core) && Owned(s, step)
    ensures ClaimInv(Next(s, step).core)
  {
    if step.RegisterBegin? {
      AdmitClaims(s.core, step.c);
    } else if step.Unregister? {
      LeaveClaims(s.core, step.c);
    } else if step.Evict? {
      ExpelClaims(s.core, step.dev);
    } else if step.RouteBegin? {
      ClaimKeepsInvIff(s.core, step.clip, step.targets);
    } else if step.RouteNext? {
      TurnClaims(s, step.depth, step.now);
    } else {
      OtherClaims(s, step);
    }
  }

  lemma TurnClaims(s: State, depth: int, now: int)
    requires Enabled(s, RouteNext(depth, now)) && ClaimInv(s.core)
    ensures ClaimInv(RouteTurn(s, s.handler.clip, s.handler.rest, depth, now).core)
  {
    if s.handler.rest != [] && s.handler.rest[0] != s.handler.clip.origin {
      DeliverClaims(s.core, s.handler.clip, s.handler.rest[0], depth, now);
    }
  }

  lemma OtherClaims(s: State, step: Step)
    requires Enabled(s, step) && ClaimInv(s.core)
    requires !step.RegisterBegin? && !step.Unregister? && !step.Evict? && !step.RouteBegin? && !step.RouteNext?
    ensures ClaimInv(Next(s, step).core)
  {
    SameClaims(s.core, Next(s, step).core);
  }

  // ---- the last accepted claim ----

  lemma StepRecords(s: State, step: Step)
    requires Enabled(s, step) && RecordsAgree(s)
    ensures RecordsAgree(Next(s, step))
  {
    var t := Next(s, step);
    if step.RouteBegin? {
    } else {
      NoNewRecords(s, step);
    }
  }

  ghost predicate OnlyDrops(k: Core, k': Core) {
    && (forall b :: b in k'.acl ==> b in k.acl && k'.acl[b] == k.acl[b])
    && (forall b :: b in k'.persisted ==> b in k.persisted && k'.persisted[b] == k.persisted[b])
  }

  lemma ExpelOnlyDrops(k: Core, d: DeviceId)
    requires k.WellFormed()
    ensures OnlyDrops(k, Expel(k, d))
  {
  }

  lemma TurnOnlyDrops(s: State, depth: int, now: int)
    requires Enabled(s, RouteNext(depth, now))
    ensures OnlyDrops(s.core, RouteTurn(s, s.handler.clip, s.handler.rest, depth, now).core)
  {
    if s.handler.rest != [] && s.handler.rest[0] != s.handler.clip.origin {
      DeliverOnlyDrops(s.core, s.handler.clip, s.handler.rest[0], depth, now);
    }
  }

  lemma DeliverOnlyDrops(k: Core, clip: Clip, d: DeviceId, depth: int, now: int)
    requires k.WellFormed()
    ensures OnlyDrops(k, Deliver(k, clip, d, depth, now))
  {
    ExpelOnlyDrops(k, d);
  }

  lemma LeaveOnlyDrops(k: Core, c: ConnId)
    requires c in k.conns
    ensures OnlyDrops(k, Leave(k, c))
  {
  }

  /** Apart from routing, steps only ever drop ACLs. */
  lemma NoNewRecords(s: State, step: Step)
    requires Enabled(s, step) && !step.RouteBegin?
    ensures Next(s, step).claims == s.claims && OnlyDrops(s.core, Next(s, step).core)
  {
    if step.RegisterBegin? {
      AdmitSpares(s.core, step.c);
    } else if step.Unregister? {
      LeaveOnlyDrops(s.core, step.c);
    } else if step.Evict? {
      ExpelOnlyDrops(s.core, step.dev);
    } else if step.RouteNext? {
      TurnOnlyDrops(s, step.depth, step.now);
    }
  }

  lemma {:induction false} RunRecords(run: seq<State>, steps: seq<Step>, i: nat)
    requires IsRun(run, steps) && i < |run|
    ensures RecordsAgree(run[i])
  {
    if i == 0 {
      InitRecords(run[0]);
    } else {
      RunRecords(run, steps, i - 1);
      RecordsAt(run, steps, i);
    }
  }

  lemma InitRecords(s: State)
    requires Init(s)
    ensures RecordsAgree(s)
  {
  }

  lemma RecordsAt(run: seq<State>, steps: seq<Step>, i: nat)
    requires IsRun(run, steps) && 0 < i < |run| && RecordsAgree(run[i - 1])
    ensures RecordsAgree(run[i])
  {
    LastStep(run, steps, i);
    StepRecords(run[i - 1], steps[i - 1]);
  }

  // ---- the theorems ----

  /** In every run whose blob-bearing clips come from registered devices, every claim's
      origin is online and every on-demand holder is its claim's origin. */
  lemma {:induction false} ClaimsHold(run: seq<State>, steps: seq<Step>, i: nat)
    requires OwnedRun(run, steps) && i < |run|
    ensures ClaimInv(run[i].core)
  {
    if i == 0 {
      InitClaims(run[0]);
    } else {
      ClaimsHold(run, steps, i - 1);
      ClaimsAt(run, steps, i);
    }
  }

  lemma InitClaims(s: State)
    requires Init(s)
    ensures ClaimInv(s.core)
  {
  }

  lemma ClaimsAt(run: seq<State>, steps: seq<Step>, i: nat)
    requires OwnedRun(run, steps) && 0 < i < |run| && ClaimInv(run[i - 1].core)
    ensures ClaimInv(run[i].core)
  {
    LastStep(run, steps, i);
    assert Owned(run[i - 1], steps[i - 1]);
    StepClaims(run[i - 1], steps[i - 1]);
  }

  /** The origin of `b`'s claim re-routes the blob itself. */
  predicate Reclaims(step: Step, b: BlobId, o: DeviceId) {
    step.RouteBegin? && step.clip.blob == Some(b) && step.clip.origin == o
  }

  lemma ExpelSpares(k: Core, d: DeviceId, b: BlobId)
    requires k.WellFormed() && ClaimInv(k) && b in k.acl && k.acl[b].origin in Expel(k, d).clients
    ensures b in Expel(k, d).acl && Expel(k, d).acl[b] == k.acl[b]
  {
    assert d in k.clients ==> d !in Expel(k, d).clients;
  }

  lemma AdmitSpares(k: Core, c: ConnId)
    requires k.WellFormed() && c in k.conns
    ensures Admit(k, c).acl == k.acl && Admit(k, c).persisted == k.persisted
  {
  }

  lemma LeaveSpares(k: Core, c: ConnId, b: BlobId)
    requires c in k.conns && ClaimInv(k) && b in k.acl && k.acl[b].origin in Leave(k, c).clients
    ensures b in Leave(k, c).acl && Leave(k, c).acl[b] == k.acl[b]
  {
  }

  lemma DeliverSpares(k: Core, clip: Clip, d: DeviceId, depth: int, now: int, b: BlobId)
    requires k.WellFormed() && ClaimInv(k) && b in k.acl && k.acl[b].origin in Deliver(k, clip, d, depth, now).clients
    ensures b in Deliver(k, clip, d, depth, now).acl && Deliver(k, clip, d, depth, now).acl[b] == k.acl[b]
  {
    if !Takes(k, d) {
      ExpelSpares(k, d, b);
    }
  }

  lemma TurnSpares(s: State, depth: int, now: int, b: BlobId)
    requires Enabled(s, RouteNext(depth, now)) && ClaimInv(s.core) && b in s.core.acl
    requires s.core.acl[b].origin in Next(s, RouteNext(depth, now)).core.clients
    ensures var t := Next(s, RouteNext(depth, now)); b in t.core.acl && t.core.acl[b] == s.core.acl[b]
  {
    var rest := s.handler.rest;
    if rest != [] && rest[0] != s.handler.clip.origin {
      DeliverSpares(s.core, s.handler.clip, rest[0], depth, now, b);
    }
  }

  lemma StepProtects(s: State, step: Step, b: BlobId)
    requires Enabled(s, step) && ClaimInv(s.core) && b in s.core.acl
    requires s.core.acl[b].origin in Next(s, step).core.clients
    requires !Reclaims(step, b, s.core.acl[b].origin)
    ensures b in Next(s, step).core.acl && Next(s, step).core.acl[b] == s.core.acl[b]
  {
    if step.Evict? {
      ExpelSpares(s.core, step.dev, b);
    } else if step.RegisterBegin? {
      AdmitSpares(s.core, step.c);
    } else if step.RouteNext? {
      TurnSpares(s, step.depth, step.now, b);
    } else if step.Unregister? {
      LeaveSpares(s.core, step.c, b);
    }
  }

  /** While a claim's origin stays registered and does not re-route the blob itself, no
      step of anybody else changes or removes the claim. */
  lemma {:induction false} ClaimIsProtected(run: seq<State>, steps: seq<Step>, i: nat, j: nat, b: BlobId)
    requires OwnedRun(run, steps) && i <= j < |run| && b in run[i].core.acl
    requires forall x :: i <= x <= j ==> run[i].core.acl[b].origin in run[x].core.clients
    requires forall x :: i <= x < j ==> !Reclaims(steps[x], b, run[i].core.acl[b].origin)
    ensures b in run[j].core.acl && run[j].core.acl[b] == run[i].core.acl[b]
  {
    if i < j {
      var s, step, o := run[j - 1], steps[j - 1], run[i].core.acl[b].origin;
      assert s.core.acl.Keys >= {b} && s.core.acl[b] == run[i].core.acl[b] by {
        ClaimIsProtected(run, steps, i, j - 1, b);
      }
      assert ClaimInv(s.core) by { ClaimsHold(run, steps, j - 1); }
      assert o in run[j].core.clients && !Reclaims(step, b, o);
      LastStep(run, steps, j);
      StepProtects(s, step, b);
    }
  }

  lemma FetchIsClaim(s: State, b: BlobId, d: DeviceId)
    requires ClaimInv(s.core) && RecordsAgree(s) && b in s.core.persisted
    ensures b in s.claims
    ensures MayFetch(s.core, b, d) <==> d in s.claims[b].allowed
  {
  }

  /** While a blob's record carries its ACL, a fetch is authorized exactly for the
      devices of the last accepted claim, whether or not the origin is still there. */
  lemma FetchAuthorization(run: seq<State>, steps: seq<Step>, i: nat, b: BlobId, d: DeviceId)
    requires OwnedRun(run, steps) && i < |run| && b in run[i].core.persisted
    ensures b in run[i].claims
    ensures MayFetch(run[i].core, b, d) <==> d in run[i].claims[b].allowed
  {
    ClaimsHold(run, steps, i);
    RunRecords(run, steps, i);
    FetchIsClaim(run[i], b, d);
  }

  lemma ClaimUnchanged(s: State, step: Step, b: BlobId)
    requires Enabled(s, step) && b in s.claims && !(step.RouteBegin? && step.clip.blob == Some(b))
    ensures b in Next(s, step).claims && Next(s, step).claims[b] == s.claims[b]
  {
    if !step.RouteBegin? {
      NoNewRecords(s, step);
    }
  }

  lemma {:induction false} ClaimsUnchanged(run: seq<State>, steps: seq<Step>, i: nat, j: nat, b: BlobId)
    requires IsRun(run, steps) && i <= j < |run| && b in run[i].claims
    requires forall x :: i <= x < j ==> !(steps[x].RouteBegin? && steps[x].clip.blob == Some(b))
    ensures b in run[j].claims && run[j].claims[b] == run[i].claims[b]
  {
    if i < j {
      var s, step := run[j - 1], steps[j - 1];
      assert b in s.claims && s.claims[b] == run[i].claims[b] by {
        ClaimsUnchanged(run, steps, i, j - 1, b);
      }
      assert Enabled(s, step) && run[j] == Next(s, step) by { LastStep(run, steps, j); }
      ClaimUnchanged(s, step, b);
    }
  }

  /** Disconnects, evictions, replacements, reconnects, pool changes: between two states
      in which the record carries the ACL, nothing but routing that blob again changes
      who may fetch it. */
  lemma AuthorizationSurvives(run: seq<State>, steps: seq<Step>, i: nat, j: nat, b: BlobId, d: DeviceId)
    requires OwnedRun(run, steps) && i <= j < |run|
    requires b in run[i].core.persisted && b in run[j].core.persisted
    requires forall x :: i <= x < j ==> !(steps[x].RouteBegin? && steps[x].clip.blob == Some(b))
    ensures MayFetch(run[i].core, b, d) <==> MayFetch(run[j].core, b, d)
  {
    FetchAuthorization(run, steps, i, b, d);
    FetchAuthorization(run, steps, j, b, d);
    ClaimsUnchanged(run, steps, i, j, b);
  }

  /** The blob has lost its in-memory claim, and nothing else changed. */
  predicate Forgotten(k: Core, k': Core, b: BlobId) {
    b !in k'.acl && b !in k'.onDemand && k'.persisted == k.persisted
  }

  /** Forgetting a claim leaves access as it was if and only if the record carries the
      ACL; otherwise everybody loses access. */
  lemma ForgottenKeepsAccessIff(s: State, k': Core, b: BlobId)
    requires ClaimInv(s.core) && RecordsAgree(s) && b in s.core.acl && Forgotten(s.core, k', b)
    ensures (forall d :: MayFetch(s.core, b, d) <==> MayFetch(k', b, d)) <==> b in s.core.persisted
    ensures b !in s.core.persisted ==> forall d :: !MayFetch(k', b, d)
  {
    assert MayFetch(s.core, b, s.core.acl[b].origin);
  }

  /** A blob whose origin disconnects keeps its authorized devices if and only if its
      record carries the ACL. */
  lemma LeaveKeepsAccessIff(s: State, c: ConnId, b: BlobId)
    requires c in s.core.conns && Current(s.core, c)
    requires ClaimInv(s.core) && RecordsAgree(s) && b in s.core.acl && s.core.acl[b].origin == s.core.conns[c].dev
    ensures var k, k' := s.core, Leave(s.core, c);
      && ((forall d :: MayFetch(k, b, d) <==> MayFetch(k', b, d)) <==> b in k.persisted)
      && (b !in k.persisted ==> forall d :: !MayFetch(k', b, d))
  {
    ForgottenKeepsAccessIff(s, Leave(s.core, c), b);
  }

  /** The same for a blob whose origin is evicted. */
  lemma ExpelKeepsAccessIff(s: State, b: BlobId)
    requires s.core.WellFormed() && ClaimInv(s.core) && RecordsAgree(s) && b in s.core.acl
    ensures var k, k' := s.core, Expel(s.core, s.core.acl[b].origin);
      && ((forall d :: MayFetch(k, b, d) <==> MayFetch(k', b, d)) <==> b in k.persisted)
      && (b !in k.persisted ==> forall d :: !MayFetch(k', b, d))
  {
    ForgottenKeepsAccessIff(s, Expel(s.core, s.core.acl[b].origin), b);
  }

  /** Only the origin of its claim may supply an on-demand blob. */
  lemma SupplierIsOrigin(run: seq<State>, steps: seq<Step>, i: nat, b: BlobId, d: DeviceId)
    requires OwnedRun(run, steps) && i < |run| && b in run[i].core.onDemand
    ensures b in run[i].core.acl
    ensures MaySupply(run[i].core, b, d) <==> d == run[i].core.acl[b].origin
  {
    ClaimsHold(run, steps, i);
  }

  /** A pull request fails only if nobody advertised the blob or the holder's send
      channel is full: a known holder is never offline. */
  lemma PullReachesHolderIff(run: seq<State>, steps: seq<Step>, i: nat, b: BlobId)
    requires OwnedRun(run, steps) && i < |run|
    ensures var k := run[i].core;
      && k.WellFormed()
      && (b in k.onDemand ==> k.onDemand[b] in k.clients)
      && (CanPull(k, b) <==> b in k.onDemand && HasRoom(k.conns[k.clients[k.onDemand[b]]]))
  {
    RunInv(run, steps, i);
    ClaimsHold(run, steps, i);
  }

  /** The pool fallback of fetch authorization is never consulted for a live holder. */
  lemma PoolFallbackUnreachable(run: seq<State>, steps: seq<Step>, i: nat, b: BlobId, d: DeviceId)
    requires OwnedRun(run, steps) && i < |run|
    ensures HubMayFetch(run[i].core, b, d) <==> b in run[i].core.acl && d in run[i].core.acl[b].allowed
  {
    ClaimsHold(run, steps, i);
  }
}
