/** Token rotation between one device and the server: connections authenticate, decide,
    queue the token_rotate frame and commit, while frames are read late or lost
    (server/internal/transport/ws.go, serve; server/cmd/copysyncd/main.go). Every store
    transaction is a step of its own. */
module Rotation {
  import opened Model
  import opened Tokens

  type ConnId = nat

  /** How far a connection has come. Confirming: it has read a record whose current token
      it presented and whose old token is to be retired. Retrying: its re-issue was
      refused and a plain rotation is to follow. */
  datatype Phase =
    | Authenticated
    | Confirming
    | Decided(dec: Decision)
    | Sent(dec: Decision)
    | Retrying(dec: Decision)
    | Settled

  /** `frame` is the token_rotate frame sitting unread on this connection. */
  datatype Conn = Conn(presented: Token, phase: Phase, frame: Option<Token>)

  /** `held` is the token the client has stored, `live` the socket it is using,
      `minted` every token ever generated. */
  datatype State = State(
    rec: TokenRecord,
    held: Token,
    live: Option<ConnId>,
    conns: map<ConnId, Conn>,
    minted: set<Token>)

  datatype Step =
    | Connect(c: ConnId)
    | DecideStep(c: ConnId, now: int, rotateDays: int, token: Token)
    | RetireStep(c: ConnId)
    | QueueFrame(c: ConnId, room: bool)
    | CommitStep(c: ConnId, now: int)
    | FallBack(c: ConnId, now: int)
    | ReadFrame(c: ConnId)
    | Disconnect

  /** A freshly paired device. */
  predicate Init(s: State) {
    && s.rec.current == Mac(s.held) && s.rec.previous == Empty
    && s.live == None && s.conns == map[] && s.minted == {s.held}
  }

  predicate Enabled(s: State, step: Step) {
    match step
    case Connect(c) => c !in s.conns
    case DecideStep(c, now, days, token) =>
      c in s.conns && s.conns[c].phase == Authenticated && token !in s.minted
    case RetireStep(c) => c in s.conns && s.conns[c].phase == Confirming
    case QueueFrame(c, room) => c in s.conns && s.conns[c].phase.Decided? && s.conns[c].phase.dec != Nothing
    case CommitStep(c, now) => c in s.conns && s.conns[c].phase.Sent? && s.conns[c].phase.dec != Nothing
    case FallBack(c, now) => c in s.conns && s.conns[c].phase.Retrying? && s.conns[c].phase.dec != Nothing
    case ReadFrame(c) => c in s.conns && s.conns[c].frame.Some?
    case Disconnect => true
  }

  /** What reading the record leads to. */
  function PhaseAfter(rec: TokenRecord, presented: Token, now: int, days: int, token: Token): Phase {
    if rec.current == Mac(presented) && rec.previous != Empty then Confirming else
      var dec := Decide(rec, presented, now, days, token);
      if dec == Nothing then Settled else Decided(dec)
  }

  function Next(s: State, step: Step): State
    requires Enabled(s, step)
  {
    match step
    case Connect(c) =>
      if Accepts(s.rec, Mac(s.held))
      then s.(conns := s.conns[c := Conn(s.held, Authenticated, None)], live := Some(c))
      else s
    case DecideStep(c, now, days, token) =>
      s.(conns := s.conns[c := s.conns[c].(phase := PhaseAfter(s.rec, s.conns[c].presented, now, days, token))],
         minted := s.minted + {token})
    case RetireStep(c) =>
      s.(rec := Retired(s.rec), conns := s.conns[c := s.conns[c].(phase := Settled)])
    case QueueFrame(c, room) =>
      var dec := s.conns[c].phase.dec;
      s.(conns := s.conns[c := if room then s.conns[c].(phase := Sent(dec), frame := Some(dec.token))
                               else s.conns[c].(phase := Settled)])
    case CommitStep(c, now) =>
      var dec := s.conns[c].phase.dec;
      if dec.Remint? && !CanReissue(s.rec, dec.grace, Mac(dec.token))
      then s.(conns := s.conns[c := s.conns[c].(phase := Retrying(dec))])
      else s.(rec := Commit(s.rec, dec, now), conns := s.conns[c := s.conns[c].(phase := Settled)])
    case FallBack(c, now) =>
      s.(rec := Rotated(s.rec, Mac(s.conns[c].phase.dec.token), now),
         conns := s.conns[c := s.conns[c].(phase := Settled)])
    case ReadFrame(c) =>
      s.(held := s.conns[c].frame.value, conns := s.conns[c := s.conns[c].(frame := None)])
    case Disconnect => s.(live := None)
  }

  /** Step `i` of the run. */
  ghost predicate StepAt(run: seq<State>, steps: seq<Step>, i: int)
    requires |run| == |steps| + 1 && 0 <= i < |steps|
  {
    Enabled(run[i], steps[i]) && run[i + 1] == Next(run[i], steps[i])
  }

  ghost predicate IsRun(run: seq<State>, steps: seq<Step>) {
    && |run| == |steps| + 1
    && Init(run[0])
    && (forall i :: 0 <= i < |steps| ==> StepAt(run, steps, i))
  }

  /** No connection is between its authentication and its commit. */
  predicate AllSettled(s: State) {
    forall c :: c in s.conns ==> s.conns[c].phase == Settled
  }

  /** The client reads frames only from the socket it is using, and a connection is
      authenticated only after the earlier ones have settled. */
  predicate Orderly(s: State, step: Step) {
    (step.Connect? ==> AllSettled(s)) && ReadsLive(s, step)
  }

  predicate ReadsLive(s: State, step: Step) {
    step.ReadFrame? ==> s.live == Some(step.c)
  }

  ghost predicate OrderlyRun(run: seq<State>, steps: seq<Step>) {
    IsRun(run, steps) && forall i :: 0 <= i < |steps| ==> Orderly(run[i], steps[i])
  }

  // ---- the invariant ----

  /** The record is still as it was when `dec` was decided for `presented`. */
  predicate StillApplies(rec: TokenRecord, presented: Token, dec: Decision) {
    match dec
    case Nothing => false
    case Rotate(token) => rec.previous == Empty && rec.current == Mac(presented) && !Accepts(rec, Mac(token))
    case Remint(token, grace) =>
      grace != Empty && rec.previous == grace && grace == Mac(presented) && !Accepts(rec, Mac(token))
  }

  /** What holds while connection `x` is under way. */
  predicate UnderWay(s: State, x: Conn) {
    match x.phase
    case Authenticated => s.held == x.presented && Accepts(s.rec, Mac(s.held)) && x.frame == None
    case Confirming => s.held == x.presented && s.rec.current == Mac(s.held) && x.frame == None
    case Retrying(dec) => false
    case Decided(dec) =>
      s.held == x.presented && x.frame == None && StillApplies(s.rec, x.presented, dec) && dec.token in s.minted
    case Sent(dec) =>
      && StillApplies(s.rec, x.presented, dec) && dec.token in s.minted
      && (s.held == x.presented || s.held == dec.token)
      && (x.frame.Some? ==> x.frame.value == dec.token)
    case Settled => true
  }

  ghost predicate Inv(s: State) {
    && Proper(s.rec)
    && s.held in s.minted
    && (forall h :: Accepts(s.rec, h) ==> h.Mac? && h.token in s.minted)
    && (forall c :: c in s.conns && s.conns[c].phase != Settled ==>
         && UnderWay(s, s.conns[c])
         && (s.live.Some? ==> s.live.value == c)
         && (forall d :: d in s.conns && d != c ==> s.conns[d].phase == Settled))
    && (AllSettled(s) ==> Accepts(s.rec, Mac(s.held)))
    && (AllSettled(s) && s.live.Some? && s.live.value in s.conns && s.conns[s.live.value].frame.Some? ==>
         Accepts(s.rec, Mac(s.conns[s.live.value].frame.value)))
    && (s.live.Some? ==> s.live.value in s.conns)
  }

  lemma StepInv(s: State, step: Step)
    requires Inv(s) && Enabled(s, step) && Orderly(s, step)
    ensures Inv(Next(s, step))
  {
    match step
    case Connect(c) =>
    case DecideStep(c, now, days, token) =>
    case RetireStep(c) =>
    case QueueFrame(c, room) =>
    case CommitStep(c, now) =>
    case FallBack(c, now) =>
    case ReadFrame(c) => ReadInv(s, c);
    case Disconnect =>
  }

  lemma ReadInv(s: State, c: ConnId)
    requires Inv(s) && Enabled(s, ReadFrame(c)) && s.live == Some(c)
    ensures Inv(Next(s, ReadFrame(c)))
  {
    var t := Next(s, ReadFrame(c));
    assert forall d :: d in s.conns ==> t.conns[d].phase == s.conns[d].phase;
    assert AllSettled(t) <==> AllSettled(s);
    if !AllSettled(s) {
      var d :| d in s.conns && s.conns[d].phase != Settled;
      assert d == c && UnderWay(s, s.conns[c]);
    }
  }

  lemma {:induction false} RunInv(run: seq<State>, steps: seq<Step>, i: nat)
    requires OrderlyRun(run, steps) && i < |run|
    ensures Inv(run[i])
  {
    if i > 0 {
      RunInv(run, steps, i - 1);
      assert StepAt(run, steps, i - 1);
      StepInv(run[i - 1], steps[i - 1]);
    }
  }

  // ---- the theorems ----

  /** Rotation never strands a device. In every orderly run, however many frames are
      lost or dropped for a full buffer, the client's stored token is the record's
      current or grace token; the one exception is a frame read between its queueing
      and its commit, and then that commit is still to come and will record it. */
  lemma HeldTokenIsAccepted(run: seq<State>, steps: seq<Step>, i: nat)
    requires OrderlyRun(run, steps) && i < |run|
    ensures
      || Accepts(run[i].rec, Mac(run[i].held))
      || exists c :: c in run[i].conns && run[i].conns[c].phase.Sent? && run[i].conns[c].phase.dec != Nothing
           && run[i].held == run[i].conns[c].phase.dec.token
           && forall now :: Accepts(Commit(run[i].rec, run[i].conns[c].phase.dec, now), Mac(run[i].held))
  {
    RunInv(run, steps, i);
    var s := run[i];
    if !Accepts(s.rec, Mac(s.held)) {
      var c :| c in s.conns && s.conns[c].phase != Settled;
      assert UnderWay(s, s.conns[c]);
      forall now ensures Accepts(Commit(s.rec, s.conns[c].phase.dec, now), Mac(s.held)) {
        CommitRecordsIff(s.rec, s.conns[c].phase.dec, now);
      }
    }
  }

  /** Hence every connection attempt of an orderly run is authenticated. */
  lemma EveryConnectSucceeds(run: seq<State>, steps: seq<Step>, i: nat)
    requires OrderlyRun(run, steps) && i < |steps| && steps[i].Connect?
    ensures steps[i].c in run[i + 1].conns && run[i + 1].live == Some(steps[i].c)
  {
    RunInv(run, steps, i);
    assert StepAt(run, steps, i);
  }

  // ---- exactly when a device is stranded ----

  /** The three steps after which the server no longer accepts the client's token: a
      connection retires what is by now the grace token the client holds; a re-issue
      replaces the current token the client already holds; the client reads a frame whose
      token the record does not accept. */
  predicate Strands(s: State, step: Step)
    requires Enabled(s, step)
  {
    match step
    case RetireStep(c) => s.rec.previous == Mac(s.held)
    case CommitStep(c, now) =>
      var dec := s.conns[c].phase.dec;
      dec.Remint? && CanReissue(s.rec, dec.grace, Mac(dec.token)) && s.rec.current == Mac(s.held)
    case ReadFrame(c) => !Accepts(s.rec, Mac(s.conns[c].frame.value))
    case _ => false
  }

  /** The exact effect of one step, as a caller can tell before it. */
  lemma StepAcceptsIff(s: State, step: Step)
    requires Proper(s.rec) && Accepts(s.rec, Mac(s.held)) && Enabled(s, step)
    ensures Accepts(Next(s, step).rec, Mac(Next(s, step).held)) <==> !Strands(s, step)
  {
  }

  predicate Pending(x: Conn) {
    (x.phase.Decided? || x.phase.Sent? || x.phase.Retrying?) && x.phase.dec != Nothing
  }

  /** What holds in every run, orderly or not: decided tokens are minted, pairwise
      different, and not in the record until they are committed. */
  ghost predicate TokensFresh(s: State) {
    && Proper(s.rec)
    && (forall h :: Accepts(s.rec, h) ==> h.Mac? && h.token in s.minted)
    && (forall c :: c in s.conns && Pending(s.conns[c]) ==>
         s.conns[c].phase.dec.token in s.minted && !Accepts(s.rec, Mac(s.conns[c].phase.dec.token)))
    && (forall c, d :: c in s.conns && d in s.conns && c != d && Pending(s.conns[c]) && Pending(s.conns[d]) ==>
         s.conns[c].phase.dec.token != s.conns[d].phase.dec.token)
  }

  lemma DecideFresh(s: State, c: ConnId, now: int, days: int, token: Token)
    requires TokensFresh(s) && Enabled(s, DecideStep(c, now, days, token))
    ensures TokensFresh(Next(s, DecideStep(c, now, days, token)))
  {
  }

  lemma CommitFresh(s: State, c: ConnId, now: int)
    requires TokensFresh(s) && Enabled(s, CommitStep(c, now))
    ensures TokensFresh(Next(s, CommitStep(c, now)))
  {
  }

  lemma StepFresh(s: State, step: Step)
    requires TokensFresh(s) && Enabled(s, step)
    ensures TokensFresh(Next(s, step))
  {
    match step
    case DecideStep(c, now, days, token) => DecideFresh(s, c, now, days, token);
    case CommitStep(c, now) => CommitFresh(s, c, now);
    case FallBack(c, now) => FallBackFresh(s, c, now);
    case _ =>
  }

  lemma FallBackFresh(s: State, c: ConnId, now: int)
    requires TokensFresh(s) && Enabled(s, FallBack(c, now))
    ensures TokensFresh(Next(s, FallBack(c, now)))
  {
  }

  lemma {:induction false} RunFresh(run: seq<State>, steps: seq<Step>, i: nat)
    requires IsRun(run, steps) && i < |run|
    ensures TokensFresh(run[i])
  {
    if i > 0 {
      RunFresh(run, steps, i - 1);
      assert StepAt(run, steps, i - 1);
      StepFresh(run[i - 1], steps[i - 1]);
    }
  }

  /** In every run of any number of overlapping connections, the client's token is
      accepted in all states up to the `i`th if and only if none of the three stranding
      steps was taken before. */
  lemma {:induction false} AcceptedThroughoutIff(run: seq<State>, steps: seq<Step>, i: nat)
    requires IsRun(run, steps) && i < |run|
    ensures (forall j :: 0 <= j <= i ==> Accepts(run[j].rec, Mac(run[j].held)))
            <==> (forall j :: 0 <= j < i ==> !StrandsAt(run, steps, j))
  {
    if i > 0 {
      AcceptedThroughoutIff(run, steps, i - 1);
      if Accepts(run[i - 1].rec, Mac(run[i - 1].held)) {
        AcceptedAtIff(run, steps, i);
      }
    }
  }

  ghost predicate StrandsAt(run: seq<State>, steps: seq<Step>, j: nat)
    requires |run| == |steps| + 1 && j < |steps|
  {
    Enabled(run[j], steps[j]) && Strands(run[j], steps[j])
  }

  lemma AcceptedAtIff(run: seq<State>, steps: seq<Step>, i: nat)
    requires IsRun(run, steps) && 0 < i < |run| && Accepts(run[i - 1].rec, Mac(run[i - 1].held))
    ensures Accepts(run[i].rec, Mac(run[i].held)) <==> !StrandsAt(run, steps, i - 1)
  {
    RunFresh(run, steps, i - 1);
    assert StepAt(run, steps, i - 1);
    StepAcceptsIff(run[i - 1], steps[i - 1]);
  }

  /** Everything has settled, the client's token is not accepted, and nothing it could
      still read from the socket it is using would help. */
  predicate Stranded(s: State) {
    && AllSettled(s) && !Accepts(s.rec, Mac(s.held))
    && (s.live.Some? && s.live.value in s.conns && s.conns[s.live.value].frame.Some? ==>
         !Accepts(s.rec, Mac(s.conns[s.live.value].frame.value)))
  }

  /** A stranded device stays locked out: no later attempt is ever authenticated. */
  lemma {:induction false} StrandedForever(run: seq<State>, steps: seq<Step>, i: nat, j: nat)
    requires IsRun(run, steps) && i <= j < |run| && Stranded(run[i])
    requires forall x :: i <= x < j ==> ReadsLive(run[x], steps[x])
    ensures Stranded(run[j]) && run[j].rec == run[i].rec && run[j].conns.Keys == run[i].conns.Keys
  {
    if i < j {
      StrandedForever(run, steps, i, j - 1);
      assert StepAt(run, steps, j - 1);
    }
  }

  // ---- runs that strand a device ----

  /** A commit leaves the delivered token accepted. */
  predicate Records(s: State, step: Step) {
    Enabled(s, step) && step.CommitStep? ==> Accepts(Next(s, step).rec, Mac(s.conns[step.c].phase.dec.token))
  }

  /** A run whose reads are all on the live socket and, if `recording`, whose commits all
      record their tokens. */
  ghost predicate Witness(run: seq<State>, steps: seq<Step>, recording: bool) {
    && IsRun(run, steps)
    && (forall i :: 0 <= i < |steps| ==> ReadsLive(run[i], steps[i]))
    && (recording ==> forall i :: 0 <= i < |steps| ==> Records(run[i], steps[i]))
  }

  lemma Extend(run: seq<State>, steps: seq<Step>, recording: bool, step: Step)
    returns (run': seq<State>, steps': seq<Step>)
    requires Witness(run, steps, recording) && Enabled(run[|steps|], step) && ReadsLive(run[|steps|], step)
    requires recording ==> Records(run[|steps|], step)
    ensures Witness(run', steps', recording)
    ensures |steps'| == |steps| + 1 && run'[|steps'|] == Next(run[|steps|], step)
  {
    run', steps' := run + [Next(run[|steps|], step)], steps + [step];
    forall i | 0 <= i < |steps'| ensures StepAt(run', steps', i) {
      if i < |steps| {
        assert StepAt(run, steps, i);
      }
    }
    forall i | 0 <= i < |steps'| ensures ReadsLive(run'[i], steps'[i]) {
      if i < |steps| {
        assert ReadsLive(run[i], steps[i]);
      }
    }
    forall i | 0 <= i < |steps'| && recording ensures Records(run'[i], steps'[i]) {
      if i < |steps| {
        assert Records(run[i], steps[i]);
      }
    }
  }

  const PAIRED := State(TokenRecord(Mac(1), Empty, 0, false), 1, None, map[], {1})

  lemma TwoConnections(recording: bool, first: ConnId, second: ConnId) returns (run: seq<State>, steps: seq<Step>)
    requires first != second
    ensures Witness(run, steps, recording)
    ensures run[|steps|] == PAIRED.(
      live := Some(second), conns := map[first := Conn(1, Authenticated, None), second := Conn(1, Authenticated, None)])
  {
    run, steps := Extend([PAIRED], [], recording, Connect(first));
    run, steps := Extend(run, steps, recording, Connect(second));
  }

  /** Two connections that both rotate: the second commit is refused, and the client
      reads a token nobody recorded. */
  lemma OverlapStrands() returns (run: seq<State>, steps: seq<Step>)
    ensures Witness(run, steps, false) && Stranded(run[|steps|])
  {
    run, steps := TwoConnections(false, 0, 1);
    run, steps := Extend(run, steps, false, DecideStep(0, 2 * DAY, 1, 2));
    run, steps := Extend(run, steps, false, DecideStep(1, 2 * DAY, 1, 3));
    var s := run[|steps|];
    assert s.conns == map[0 := Conn(1, Decided(Rotate(2)), None), 1 := Conn(1, Decided(Rotate(3)), None)];
    run, steps := Extend(run, steps, false, QueueFrame(0, true));
    run, steps := Extend(run, steps, false, QueueFrame(1, true));
    run, steps := Extend(run, steps, false, CommitStep(0, 0));
    run, steps := Extend(run, steps, false, CommitStep(1, 0));
    s := run[|steps|];
    assert s.rec.current == Mac(2) && s.rec.previous == Mac(1) && s.conns[1] == Conn(1, Settled, Some(3));
    run, steps := Extend(run, steps, false, ReadFrame(1));
  }

  /** Every commit of this run records its token, and the device is stranded all the same:
      a slow connection re-issues on the grace token and replaces the one the client has
      read from a faster connection. */
  lemma ReissueStrands() returns (run: seq<State>, steps: seq<Step>)
    ensures Witness(run, steps, true) && Stranded(run[|steps|])
  {
    run, steps := TwoConnections(true, 1, 0);
    run, steps := Extend(run, steps, true, DecideStep(0, 2 * DAY, 1, 2));
    run, steps := Extend(run, steps, true, QueueFrame(0, true));
    run, steps := Extend(run, steps, true, CommitStep(0, 0));
    run, steps := Extend(run, steps, true, ReadFrame(0));
    var s := run[|steps|];
    assert s.rec == TokenRecord(Mac(2), Mac(1), 0, false) && s.held == 2 && s.live == Some(0);
    assert s.conns == map[0 := Conn(1, Settled, None), 1 := Conn(1, Authenticated, None)];
    run, steps := Extend(run, steps, true, DecideStep(1, 2 * DAY, 1, 3));
    run, steps := Extend(run, steps, true, QueueFrame(1, true));
    run, steps := Extend(run, steps, true, CommitStep(1, 0));
  }

  /** A device has paired, rotated once and read the new token. */
  lemma RotatedOnce() returns (run: seq<State>, steps: seq<Step>)
    ensures Witness(run, steps, true)
    ensures run[|steps|] == State(
      TokenRecord(Mac(2), Mac(1), 2 * DAY, false), 2, Some(0), map[0 := Conn(1, Settled, None)], {1, 2})
  {
    run, steps := Extend([PAIRED], [], true, Connect(0));
    run, steps := Extend(run, steps, true, DecideStep(0, 2 * DAY, 1, 2));
    run, steps := Extend(run, steps, true, QueueFrame(0, true));
    run, steps := Extend(run, steps, true, CommitStep(0, 2 * DAY));
    run, steps := Extend(run, steps, true, ReadFrame(0));
  }

  /** Two connections present the new token; both are to retire the old one, the faster
      one does. */
  lemma ConfirmedTwice() returns (run: seq<State>, steps: seq<Step>)
    ensures Witness(run, steps, true)
    ensures run[|steps|] == State(
      TokenRecord(Mac(2), Empty, 2 * DAY, false), 2, Some(2),
      map[0 := Conn(1, Settled, None), 1 := Conn(2, Confirming, None), 2 := Conn(2, Settled, None)], {1, 2, 3, 4})
  {
    run, steps := RotatedOnce();
    run, steps := Extend(run, steps, true, Connect(1));
    run, steps := Extend(run, steps, true, DecideStep(1, 4 * DAY, 1, 3));
    run, steps := Extend(run, steps, true, Connect(2));
    run, steps := Extend(run, steps, true, DecideStep(2, 4 * DAY, 1, 4));
    run, steps := Extend(run, steps, true, RetireStep(2));
  }

  /** The record is read in one transaction and its old token retired in another. Between
      the two a later connection rotates and its frame is lost; the late retirement then
      drops the token the client still holds. */
  lemma LateRetireStrands() returns (run: seq<State>, steps: seq<Step>)
    ensures Witness(run, steps, true) && Stranded(run[|steps|])
  {
    run, steps := ConfirmedTwice();
    run, steps := Extend(run, steps, true, Connect(3));
    run, steps := Extend(run, steps, true, DecideStep(3, 4 * DAY, 1, 5));
    run, steps := Extend(run, steps, true, QueueFrame(3, true));
    run, steps := Extend(run, steps, true, CommitStep(3, 4 * DAY));
    run, steps := Extend(run, steps, true, Disconnect);
    var s := run[|steps|];
    assert s.rec == TokenRecord(Mac(5), Mac(2), 4 * DAY, false) && s.held == 2 && s.live == None;
    assert s.conns == map[0 := Conn(1, Settled, None), 1 := Conn(2, Confirming, None),
                          2 := Conn(2, Settled, None), 3 := Conn(2, Settled, Some(5))];
    run, steps := Extend(run, steps, true, RetireStep(1));
  }
}
