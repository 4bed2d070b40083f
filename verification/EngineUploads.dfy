/** The desktop engine's bookkeeping of finished uploads across reconnects
    (clients/desktop/core/src/engine.rs, run). Workers upload off the loop and post their
    results to a channel that outlives every connection. */
module EngineUploads {

  /** A clip, identified by its sequence number. */
  type Clip = nat

  datatype Result = Success(clip: Clip) | Failure(message: string)

  /** `finished` is every result in completion order; `channel` those not yet received;
      `advertised` the clips sent, `history` the clips recorded; `online` says the
      inner loop is running. */
  datatype State = State(
    finished: seq<Result>,
    channel: seq<Result>,
    pending: seq<Clip>,
    advertised: seq<Clip>,
    history: seq<Clip>,
    online: bool)

  function ClipOf(r: Result): seq<Clip> {
    if r.Success? then [r.clip] else []
  }

  /** The clips of the successful results, in order. */
  function Clips(results: seq<Result>): seq<Clip> {
    if results == [] then [] else ClipOf(results[0]) + Clips(results[1..])
  }

  lemma Regroup(a: seq<Clip>, b: seq<Clip>, c: seq<Clip>)
    ensures a + (b + c) == (a + b) + c
  {
  }

  lemma {:induction false} ClipsConcat(a: seq<Result>, b: seq<Result>)
    ensures Clips(a + b) == Clips(a) + Clips(b)
  {
    if a == [] {
      assert a + b == b;
    } else {
      assert (a + b)[0] == a[0] && (a + b)[1..] == a[1..] + b;
      ClipsConcat(a[1..], b);
      Regroup(ClipOf(a[0]), Clips(a[1..]), Clips(b));
    }
  }

  /** How many of `n` sends in a row succeed before the socket fails. */
  function Sendable(n: nat, sends: seq<bool>): (k: nat)
    ensures k <= n
  {
    if n == 0 || sends == [] || !sends[0] then 0 else 1 + Sendable(n - 1, sends[1..])
  }

  /** All sends before the first failed one, and no more than there is to send. */
  lemma {:induction false} SendableIs(n: nat, sends: seq<bool>)
    ensures Sendable(n, sends) <= |sends|
    ensures forall i :: 0 <= i < Sendable(n, sends) ==> sends[i]
    ensures Sendable(n, sends) < n && Sendable(n, sends) < |sends| ==> !sends[Sendable(n, sends)]
  {
    if !(n == 0 || sends == [] || !sends[0]) {
      SendableIs(n - 1, sends[1..]);
      assert forall i :: 1 <= i < Sendable(n, sends) ==> sends[i] == sends[1..][i - 1];
    }
  }

  datatype Step =
    | Finish(result: Result)
    | Connect(sends: seq<bool>)
    | Receive(sendOk: bool)
    | Drop

  predicate Enabled(s: State, step: Step) {
    match step
    case Finish(result) => true
    case Connect(sends) => !s.online
    case Receive(sendOk) => s.online && s.channel != []
    case Drop => s.online
  }

  function Next(s: State, step: Step): State
    requires Enabled(s, step)
  {
    match step
    case Finish(result) => s.(finished := s.finished + [result], channel := s.channel + [result])
    case Connect(sends) =>
      var k := Sendable(|s.pending|, sends);
      s.(advertised := s.advertised + s.pending[..k], history := s.history + s.pending[..k],
         pending := s.pending[k..], online := k == |s.pending|)
    case Receive(sendOk) =>
      var t := s.(channel := s.channel[1..]);
      if s.channel[0].Failure? then t
      else if sendOk then
        t.(advertised := s.advertised + [s.channel[0].clip], history := s.history + [s.channel[0].clip])
      else t.(pending := s.pending + [s.channel[0].clip], online := false)
    case Drop => s.(online := false)
  }

  predicate Init(s: State) {
    s == State([], [], [], [], [], false)
  }

  /** Step `i` of the run. */
  ghost predicate StepAt(run: seq<State>, steps: seq<Step>, i: int)
    requires |run| == |steps| + 1 && 0 <= i < |steps|
  {
    Enabled(run[i], steps[i]) && run[i + 1] == Next(run[i], steps[i])
  }

  ghost predicate IsRun(run: seq<State>, steps: seq<Step>) {
    && |run| == |steps| + 1
    && Init(run[0])
    && (forall i :: 0 <= i < |steps| ==> StepAt(run, steps, i))
  }

  ghost predicate Inv(s: State) {
    && s.advertised + s.pending + Clips(s.channel) == Clips(s.finished)
    && |s.pending| <= 1
    && (s.online ==> s.pending == [])
    && s.history == s.advertised
  }

  lemma FinishInv(s: State, result: Result)
    requires Inv(s)
    ensures Inv(Next(s, Finish(result)))
  {
    ClipsConcat(s.finished, [result]);
    ClipsConcat(s.channel, [result]);
    assert s.advertised + s.pending + (Clips(s.channel) + Clips([result]))
           == (s.advertised + s.pending + Clips(s.channel)) + Clips([result]);
  }

  lemma Resplit(a: seq<Clip>, b: seq<Clip>, k: nat)
    requires k <= |b|
    ensures (a + b[..k]) + b[k..] == a + b
  {
  }

  lemma StepInv(s: State, step: Step)
    requires Inv(s) && Enabled(s, step)
    ensures Inv(Next(s, step))
  {
    match step
    case Finish(result) =>
      FinishInv(s, result);
    case Connect(sends) =>
      Resplit(s.advertised, s.pending, Sendable(|s.pending|, sends));
    case Receive(sendOk) =>
      assert s.channel == [s.channel[0]] + s.channel[1..];
      assert s.advertised + [] == s.advertised;
    case Drop =>
  }

  /** No upload is lost, reordered or advertised twice. In every run the advertised clips,
      then the pending list, then the successes still in the channel are exactly the
      successful uploads in completion order; at most one is ever pending; and every
      advertised clip is in the history exactly once, in the same order. */
  lemma {:induction false} UploadsAccountedFor(run: seq<State>, steps: seq<Step>, i: nat)
    requires IsRun(run, steps) && i < |run|
    ensures run[i].advertised + run[i].pending + Clips(run[i].channel) == Clips(run[i].finished)
    ensures |run[i].pending| <= 1
    ensures run[i].history == run[i].advertised
    ensures Inv(run[i])
  {
    if i > 0 {
      UploadsAccountedFor(run, steps, i - 1);
      assert StepAt(run, steps, i - 1);
      StepInv(run[i - 1], steps[i - 1]);
    }
  }

  // ---- the loop as the engine runs it ----

  class Engine {
    var channel: seq<Result>
    var pending: seq<Clip>
    var advertised: seq<Clip>
    var history: seq<Clip>

    /** On a fresh connection, re-advertise what an earlier one could not; after the
        first failed send keep the rest for the next connection. */
    method Readvertise(sends: seq<bool>) returns (online: bool)
      modifies this`pending, this`advertised, this`history
      ensures online <==> Sendable(|old(pending)|, sends) == |old(pending)|
      ensures var k := Sendable(|old(pending)|, sends);
        && advertised == old(advertised) + old(pending)[..k]
        && history == old(history) + old(pending)[..k]
        && pending == old(pending)[k..]
    {
      var stash := pending;
      pending := [];
      var failed := false;
      var sent := 0;
      for i := 0 to |stash|
        invariant sent <= i && (!failed ==> sent == i && i <= |sends| && pending == [])
        invariant failed ==> sent < i && pending == stash[sent..i] && Sendable(|stash|, sends) == sent
        invariant !failed ==> Sendable(|stash|, sends) == i + Sendable(|stash| - i, sends[i..])
        invariant advertised == old(advertised) + stash[..sent] && history == old(history) + stash[..sent]
      {
        if failed {
          pending := pending + [stash[i]];
        } else if i < |sends| && sends[i] {
          assert sends[i..][1..] == sends[i + 1..];
          advertised := advertised + [stash[i]];
          history := history + [stash[i]];
          sent := sent + 1;
          assert stash[..sent] == stash[..i] + [stash[i]];
        } else {
          failed := true;
          pending := pending + [stash[i]];
        }
      }
      online := !failed;
    }

    /** Handle one upload result; a failed send stashes the clip and ends the connection. */
    method Receive(sendOk: bool) returns (online: bool)
      requires channel != []
      modifies this
      ensures channel == old(channel)[1..]
      ensures var r := old(channel)[0];
        && (online <==> r.Failure? || sendOk)
        && advertised == (if r.Success? && sendOk then old(advertised) + [r.clip] else old(advertised))
        && history == (if r.Success? && sendOk then old(history) + [r.clip] else old(history))
        && pending == (if r.Success? && !sendOk then old(pending) + [r.clip] else old(pending))
    {
      var r := channel[0];
      channel := channel[1..];
      online := true;
      if r.Success? {
        if !sendOk {
          pending := pending + [r.clip];
          return false;
        }
        advertised := advertised + [r.clip];
        history := history + [r.clip];
      }
    }
  }
}
