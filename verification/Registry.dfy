/** Paired devices: the device, name, token, token-index and pairing buckets
    (server/internal/store/devices.go, tokens.go, pairing.go). Each operation is one
    bbolt transaction. */
module Registry {
  import opened Model
  import opened Tokens
  import QueueStore

  type Code = string

  datatype Device = Device(id: DeviceId, name: string, pool: string, lastSeen: int, revoked: bool)
  datatype Pairing = Pairing(expiresAt: int, consumed: bool)

  datatype Buckets = Buckets(
    devices: map<DeviceId, Device>,
    names: map<string, DeviceId>,
    tokens: map<DeviceId, TokenRecord>,
    index: map<Hash, DeviceId>,
    pairing: map<Code, Pairing>)

  function LowerChar(c: char): char {
    if 'A' <= c <= 'Z' then c + 32 as char else c
  }

  function Lower(s: string): string {
    if s == "" then "" else [LowerChar(s[0])] + Lower(s[1..])
  }

  /** The same letter, or the two cases of one. */
  predicate SameLetter(x: char, y: char) {
    || x == y
    || ('A' <= x <= 'Z' && y as int == x as int + 32)
    || ('A' <= y <= 'Z' && x as int == y as int + 32)
  }

  /** Two names have the same key if and only if they differ in the case of letters only. */
  lemma {:induction false} LowerIff(a: string, b: string)
    ensures Lower(a) == Lower(b) <==> |a| == |b| && forall i :: 0 <= i < |a| ==> SameLetter(a[i], b[i])
  {
    LowerLength(a);
    LowerLength(b);
    if a != "" && b != "" {
      LowerIff(a[1..], b[1..]);
      LowerFirst(a);
      LowerFirst(b);
      SameLetterIff(a[0], b[0]);
      assert a == [a[0]] + a[1..] && b == [b[0]] + b[1..];
      if |a| == |b| {
        SameRest(a, b);
      }
    }
  }

  lemma SameRest(a: string, b: string)
    requires |a| == |b| > 0
    ensures (forall i :: 0 <= i < |a| ==> SameLetter(a[i], b[i])) <==>
      SameLetter(a[0], b[0]) && forall i :: 0 <= i < |a[1..]| ==> SameLetter(a[1..][i], b[1..][i])
  {
    assert forall i :: 1 <= i < |a| ==> a[i] == a[1..][i - 1] && b[i] == b[1..][i - 1];
  }

  lemma SameLetterIff(x: char, y: char)
    ensures LowerChar(x) == LowerChar(y) <==> SameLetter(x, y)
  {
  }

  lemma LowerFirst(s: string)
    requires s != ""
    ensures |Lower(s)| >= 1 && Lower(s)[0] == LowerChar(s[0]) && Lower(s)[1..] == Lower(s[1..])
  {
  }

  lemma {:induction false} LowerLength(s: string)
    ensures |Lower(s)| == |s|
  {
    if s != "" {
      LowerLength(s[1..]);
    }
  }

  datatype Outcome = Paired | CodeInvalid | NameTaken

  // ---- transactions ----

  function PutPairing(r: Buckets, code: Code, expiresAt: int): Buckets {
    r.(pairing := r.pairing[code := Pairing(expiresAt, false)])
  }

  predicate Redeemable(r: Buckets, code: Code, now: int) {
    code in r.pairing && !r.pairing[code].consumed && now <= r.pairing[code].expiresAt
  }

  function ClaimOutcome(r: Buckets, code: Code, now: int, dev: Device): Outcome {
    if !Redeemable(r, code, now) then CodeInvalid
    else if Lower(dev.name) in r.names && r.names[Lower(dev.name)] != dev.id then NameTaken
    else Paired
  }

  /** Validate the code, enforce name uniqueness, store the device and its first token,
      consume the code; on failure nothing changes. */
  function ClaimPairing(r: Buckets, code: Code, now: int, dev: Device, h: Hash): Buckets {
    if ClaimOutcome(r, code, now, dev) != Paired then r else
      Buckets(r.devices[dev.id := dev],
              r.names[Lower(dev.name) := dev.id],
              r.tokens[dev.id := TokenRecord(h, Empty, now, false)],
              r.index[h := dev.id],
              r.pairing[code := r.pairing[code].(consumed := true)])
  }

  function PurgePairing(r: Buckets, now: int): Buckets {
    r.(pairing := map c | c in r.pairing && !r.pairing[c].consumed && now <= r.pairing[c].expiresAt :: r.pairing[c])
  }

  function PutDevice(r: Buckets, dev: Device): Buckets {
    r.(devices := r.devices[dev.id := dev], names := r.names[Lower(dev.name) := dev.id])
  }

  function UpdateLastSeen(r: Buckets, id: DeviceId, t: int): Buckets {
    if id !in r.devices then r else r.(devices := r.devices[id := r.devices[id].(lastSeen := t)])
  }

  /** Hashes of a record that the index must forget with it. */
  function HashesOf(rec: TokenRecord): set<Hash> {
    {rec.current} + if rec.previous != Empty then {rec.previous} else {}
  }

  function DeleteDevice(r: Buckets, id: DeviceId): Buckets {
    r.(names := if id in r.devices then r.names - {Lower(r.devices[id].name)} else r.names,
       devices := r.devices - {id},
       index := if id in r.tokens then r.index - HashesOf(r.tokens[id]) else r.index,
       tokens := r.tokens - {id})
  }

  function RotateToken(r: Buckets, id: DeviceId, h: Hash, now: int): Buckets {
    if id !in r.tokens || r.tokens[id].previous != Empty || r.tokens[id].current == h then r
    else r.(tokens := r.tokens[id := Rotated(r.tokens[id], h, now)], index := r.index[h := id])
  }

  function ReissuePendingToken(r: Buckets, id: DeviceId, grace: Hash, h: Hash, now: int): Buckets {
    if id !in r.tokens || !CanReissue(r.tokens[id], grace, h) then r else
      var rec := r.tokens[id];
      var idx := if rec.current != Empty && rec.current != rec.previous then r.index - {rec.current} else r.index;
      r.(tokens := r.tokens[id := Reissued(rec, grace, h, now)], index := idx[h := id])
  }

  function RetireOldToken(r: Buckets, id: DeviceId): Buckets {
    if id !in r.tokens || r.tokens[id].previous == Empty then r
    else r.(index := r.index - {r.tokens[id].previous}, tokens := r.tokens[id := Retired(r.tokens[id])])
  }

  // ---- authentication ----

  /** The WebSocket handshake: device id and token. */
  predicate Validate(r: Buckets, id: DeviceId, token: Token) {
    && id in r.devices && !r.devices[id].revoked
    && id in r.tokens && !r.tokens[id].revoked
    && (r.tokens[id].current == Mac(token) || r.tokens[id].previous == Mac(token))
  }

  /** The blob channel: the token alone, resolved through the index. */
  function ValidateBlobToken(r: Buckets, token: Token): Option<DeviceId> {
    if Mac(token) in r.index && Validate(r, r.index[Mac(token)], token) then Some(r.index[Mac(token)]) else None
  }

  // ---- consistency ----

  /** The lowercased-name index is a bijection with the devices. */
  ghost predicate NamesExact(r: Buckets) {
    && (forall d :: d in r.devices ==>
         r.devices[d].id == d && Lower(r.devices[d].name) in r.names && r.names[Lower(r.devices[d].name)] == d)
    && (forall n :: n in r.names ==> r.names[n] in r.devices && Lower(r.devices[r.names[n]].name) == n)
  }

  /** The token index is exactly the current and nonempty grace hashes of all records. */
  ghost predicate IndexExact(r: Buckets) {
    && (forall h :: h in r.index ==> r.index[h] in r.tokens && Accepts(r.tokens[r.index[h]], h))
    && (forall d, h :: d in r.tokens && Accepts(r.tokens[d], h) ==> h in r.index && r.index[h] == d)
    && (forall d :: d in r.tokens ==> Proper(r.tokens[d]))
  }

  ghost predicate Consistent(r: Buckets) {
    NamesExact(r) && IndexExact(r) && r.devices.Keys == r.tokens.Keys
  }

  // ---- names ----

  lemma ClaimNames(r: Buckets, code: Code, now: int, dev: Device, h: Hash)
    requires NamesExact(r) && dev.id !in r.devices
    ensures NamesExact(ClaimPairing(r, code, now, dev, h))
  {
  }

  lemma DeleteNames(r: Buckets, id: DeviceId)
    requires NamesExact(r)
    ensures NamesExact(DeleteDevice(r, id))
  {
  }

  lemma SameNames(r: Buckets, t: Buckets)
    requires NamesExact(r) && t.names == r.names && t.devices.Keys == r.devices.Keys
    requires forall d :: d in r.devices ==> t.devices[d].id == r.devices[d].id && t.devices[d].name == r.devices[d].name
    ensures NamesExact(t)
  {
  }

  // ---- the token index ----

  /** Everything a record accepts is in the index under its device, so nobody else accepts it. */
  lemma OwnHashes(r: Buckets, id: DeviceId)
    requires IndexExact(r) && id in r.tokens
    ensures forall h :: h in HashesOf(r.tokens[id]) ==> h in r.index && r.index[h] == id
    ensures forall d, h :: d in r.tokens && d != id && Accepts(r.tokens[d], h) ==> h !in HashesOf(r.tokens[id])
  {
    forall h | h in HashesOf(r.tokens[id]) ensures h in r.index && r.index[h] == id {
      assert Accepts(r.tokens[id], h);
    }
  }

  /** Replacing one record and exactly its hashes keeps the index exact. */
  lemma IndexReplaced(r: Buckets, t: Buckets, id: DeviceId)
    requires IndexExact(r) && id in t.tokens && Proper(t.tokens[id])
    requires t.tokens == r.tokens[id := t.tokens[id]]
    requires forall h :: h in t.index && t.index[h] == id <==> Accepts(t.tokens[id], h)
    requires forall h :: h in t.index && t.index[h] != id ==> h in r.index && r.index[h] == t.index[h]
    requires forall h :: h in r.index && r.index[h] != id ==> h in t.index && t.index[h] == r.index[h]
    ensures IndexExact(t)
  {
  }

  lemma ClaimIndex(r: Buckets, code: Code, now: int, dev: Device, h: Hash)
    requires IndexExact(r) && dev.id !in r.tokens && h != Empty && h !in r.index
    ensures IndexExact(ClaimPairing(r, code, now, dev, h))
  {
    var t := ClaimPairing(r, code, now, dev, h);
    if t != r {
      IndexReplaced(r, t, dev.id);
    }
  }

  lemma DeleteIndex(r: Buckets, id: DeviceId)
    requires IndexExact(r)
    ensures IndexExact(DeleteDevice(r, id))
  {
    if id in r.tokens {
      OwnHashes(r, id);
    }
  }

  lemma RotateIndex(r: Buckets, id: DeviceId, h: Hash, now: int)
    requires IndexExact(r) && h != Empty && h !in r.index
    ensures IndexExact(RotateToken(r, id, h, now))
  {
    var t := RotateToken(r, id, h, now);
    if t != r {
      OwnHashes(r, id);
      IndexReplaced(r, t, id);
    }
  }

  lemma ReissueIndex(r: Buckets, id: DeviceId, grace: Hash, h: Hash, now: int)
    requires IndexExact(r) && h != Empty && h !in r.index
    ensures IndexExact(ReissuePendingToken(r, id, grace, h, now))
  {
    var t := ReissuePendingToken(r, id, grace, h, now);
    if t != r {
      OwnHashes(r, id);
      IndexReplaced(r, t, id);
    }
  }

  lemma RetireIndex(r: Buckets, id: DeviceId)
    requires IndexExact(r)
    ensures IndexExact(RetireOldToken(r, id))
  {
    var t := RetireOldToken(r, id);
    if t != r {
      OwnHashes(r, id);
      IndexReplaced(r, t, id);
    }
  }

  lemma PutSameName(r: Buckets, dev: Device)
    requires NamesExact(r) && dev.id in r.devices && Lower(r.devices[dev.id].name) == Lower(dev.name)
    ensures NamesExact(PutDevice(r, dev))
  {
  }

  lemma PutOtherName(r: Buckets, dev: Device)
    requires NamesExact(r) && dev.id in r.devices && Lower(r.devices[dev.id].name) != Lower(dev.name)
    ensures !NamesExact(PutDevice(r, dev))
  {
    var n := Lower(r.devices[dev.id].name);
    assert n in PutDevice(r, dev).names && PutDevice(r, dev).names[n] == dev.id;
  }

  lemma SameIndex(r: Buckets, t: Buckets)
    requires IndexExact(r) && t.tokens == r.tokens && t.index == r.index
    ensures IndexExact(t)
  {
  }

  lemma PutDeviceKeys(r: Buckets, dev: Device)
    requires r.devices.Keys == r.tokens.Keys
    ensures PutDevice(r, dev).devices.Keys == PutDevice(r, dev).tokens.Keys <==> dev.id in r.devices
  {
    var t := PutDevice(r, dev);
    assert t.devices.Keys == r.devices.Keys + {dev.id} && t.tokens.Keys == r.tokens.Keys;
  }

  /** Storing a device record keeps the buckets consistent if and only if the device is
      still there under the same lowercased name: a stale snapshot written back after a
      deletion, or a rename, breaks them. */
  lemma PutDeviceConsistentIff(r: Buckets, dev: Device)
    requires Consistent(r)
    ensures Consistent(PutDevice(r, dev)) <==>
      dev.id in r.devices && Lower(r.devices[dev.id].name) == Lower(dev.name)
  {
    PutDeviceKeys(r, dev);
    SameIndex(r, PutDevice(r, dev));
    if dev.id in r.devices {
      if Lower(r.devices[dev.id].name) == Lower(dev.name) {
        PutSameName(r, dev);
      } else {
        PutOtherName(r, dev);
      }
    }
  }

  /** While the token index is exact, the two ways to authenticate agree: the blob channel
      resolves a token to `d` exactly if the handshake accepts it for `d`. */
  lemma IndexAgreesWithScan(r: Buckets, token: Token, d: DeviceId)
    requires IndexExact(r)
    ensures ValidateBlobToken(r, token) == Some(d) <==> Validate(r, d, token)
  {
    if Validate(r, d, token) {
      assert Accepts(r.tokens[d], Mac(token));
    }
  }

  /** With consistent buckets a claim is refused for its name if and only if the code is
      good and another device has that name, up to the case of letters. */
  lemma NameTakenIff(r: Buckets, code: Code, now: int, dev: Device)
    requires NamesExact(r)
    ensures ClaimOutcome(r, code, now, dev) == NameTaken <==>
      && code in r.pairing && !r.pairing[code].consumed && now <= r.pairing[code].expiresAt
      && exists d :: d in r.devices && d != dev.id && Lower(r.devices[d].name) == Lower(dev.name)
  {
    var n := Lower(dev.name);
    if n in r.names && r.names[n] != dev.id {
      assert r.names[n] in r.devices && Lower(r.devices[r.names[n]].name) == n;
    }
  }

  // ---- runs ----

  /** `issued` is every hash ever handed out; `issues` and `claims` count, per code,
      how often it was issued and redeemed. */
  datatype State = State(r: Buckets, issued: set<Hash>, issues: map<Code, nat>, claims: map<Code, nat>)

  datatype Step =
    | Issue(code: Code, expiresAt: int)
    | Redeem(code: Code, now: int, dev: Device, token: Token)
    | PurgeCodes(now: int)
    | Update(dev: Device)
    | Seen(id: DeviceId, t: int)
    | Delete(id: DeviceId)
    | Rotation(id: DeviceId, token: Token, now: int)
    | Reissue(id: DeviceId, grace: Hash, token: Token, now: int)
    | Retire(id: DeviceId)

  function Count(m: map<Code, nat>, c: Code): nat {
    if c in m then m[c] else 0
  }

  /** Device ids and tokens are freshly generated. */
  predicate Enabled(s: State, step: Step) {
    match step
    case Redeem(code, now, dev, token) => dev.id !in s.r.devices && Mac(token) !in s.issued
    case Rotation(id, token, now) => Mac(token) !in s.issued
    case Reissue(id, grace, token, now) => Mac(token) !in s.issued
    case _ => true
  }

  function Next(s: State, step: Step): State
    requires Enabled(s, step)
  {
    match step
    case Issue(code, expiresAt) =>
      s.(r := PutPairing(s.r, code, expiresAt), issues := s.issues[code := Count(s.issues, code) + 1])
    case Redeem(code, now, dev, token) =>
      var s1 := s.(r := ClaimPairing(s.r, code, now, dev, Mac(token)), issued := s.issued + {Mac(token)});
      if ClaimOutcome(s.r, code, now, dev) == Paired
      then s1.(claims := s.claims[code := Count(s.claims, code) + 1]) else s1
    case PurgeCodes(now) => s.(r := PurgePairing(s.r, now))
    case Update(dev) => s.(r := PutDevice(s.r, dev))
    case Seen(id, t) => s.(r := UpdateLastSeen(s.r, id, t))
    case Delete(id) => s.(r := DeleteDevice(s.r, id))
    case Rotation(id, token, now) =>
      s.(r := RotateToken(s.r, id, Mac(token), now), issued := s.issued + {Mac(token)})
    case Reissue(id, grace, token, now) =>
      s.(r := ReissuePendingToken(s.r, id, grace, Mac(token), now), issued := s.issued + {Mac(token)})
    case Retire(id) => s.(r := RetireOldToken(s.r, id))
  }

  predicate Init(s: State) {
    s == State(Buckets(map[], map[], map[], map[], map[]), {}, map[], map[])
  }

  /** Step `i` of the run. */
  ghost predicate StepAt(run: seq<State>, steps: seq<Step>, i: int)
    requires |run| == |steps| + 1 && 0 <= i < |steps|
  {
    Enabled(run[i], steps[i]) && run[i + 1] == Next(run[i], steps[i])
  }

  ghost predicate IsRun(run: seq<State>, steps: seq<Step>) {
    && |run| == |steps| + 1
    && Init(run[0])
    && (forall i :: 0 <= i < |steps| ==> StepAt(run, steps, i))
  }

  lemma LastStep(run: seq<State>, steps: seq<Step>, i: nat)
    requires IsRun(run, steps) && 0 < i < |run|
    ensures Enabled(run[i - 1], steps[i - 1]) && run[i] == Next(run[i - 1], steps[i - 1])
  {
    assert StepAt(run, steps, i - 1);
  }

  /** A device record is written back only while the device is there under that name. */
  predicate Tidy(s: State, step: Step) {
    step.Update? ==> step.dev.id in s.r.devices && Lower(s.r.devices[step.dev.id].name) == Lower(step.dev.name)
  }

  ghost predicate IndexIssued(s: State) {
    forall h :: h in s.r.index ==> h in s.issued
  }

  /** A code's claims, plus one if it is still unredeemed, never exceed its issues. */
  ghost predicate CodesCounted(s: State) {
    forall c ::
      Count(s.claims, c) + (if c in s.r.pairing && !s.r.pairing[c].consumed then 1 else 0) <= Count(s.issues, c)
  }

  /** What holds in every run, stale write-backs included. */
  ghost predicate Inv(s: State) {
    && IndexExact(s.r) && s.r.tokens.Keys <= s.r.devices.Keys
    && IndexIssued(s) && CodesCounted(s)
  }

  lemma StepNames(s: State, step: Step)
    requires NamesExact(s.r) && Enabled(s, step) && Tidy(s, step)
    ensures NamesExact(Next(s, step).r)
  {
    match step
    case Redeem(code, now, dev, token) => ClaimNames(s.r, code, now, dev, Mac(token));
    case Update(dev) => PutSameName(s.r, dev);
    case Seen(id, t) => SameNames(s.r, UpdateLastSeen(s.r, id, t));
    case Delete(id) => DeleteNames(s.r, id);
    case _ => OtherNames(s, step);
  }

  lemma OtherNames(s: State, step: Step)
    requires NamesExact(s.r) && Enabled(s, step)
    requires !step.Redeem? && !step.Update? && !step.Seen? && !step.Delete?
    ensures NamesExact(Next(s, step).r)
  {
    SameNames(s.r, Next(s, step).r);
  }

  lemma StepKeys(s: State, step: Step)
    requires s.r.devices.Keys == s.r.tokens.Keys && Enabled(s, step) && Tidy(s, step)
    ensures Next(s, step).r.devices.Keys == Next(s, step).r.tokens.Keys
  {
  }

  lemma StepWithin(s: State, step: Step)
    requires s.r.tokens.Keys <= s.r.devices.Keys && Enabled(s, step)
    ensures Next(s, step).r.tokens.Keys <= Next(s, step).r.devices.Keys
  {
  }

  lemma StepIndex(s: State, step: Step)
    requires IndexExact(s.r) && s.r.tokens.Keys <= s.r.devices.Keys && IndexIssued(s) && Enabled(s, step)
    ensures IndexExact(Next(s, step).r)
  {
    match step
    case Redeem(code, now, dev, token) => ClaimIndex(s.r, code, now, dev, Mac(token));
    case Delete(id) => DeleteIndex(s.r, id);
    case Rotation(id, token, now) => RotateIndex(s.r, id, Mac(token), now);
    case Reissue(id, grace, token, now) => ReissueIndex(s.r, id, grace, Mac(token), now);
    case Retire(id) => RetireIndex(s.r, id);
    case _ =>
  }

  lemma StepIssued(s: State, step: Step)
    requires IndexIssued(s) && Enabled(s, step)
    ensures IndexIssued(Next(s, step))
  {
  }

  lemma StepCodes(s: State, step: Step)
    requires CodesCounted(s) && Enabled(s, step)
    ensures CodesCounted(Next(s, step))
  {
  }

  lemma StepInv(s: State, step: Step)
    requires Inv(s) && Enabled(s, step)
    ensures Inv(Next(s, step))
  {
    StepIndex(s, step);
    StepWithin(s, step);
    StepIssued(s, step);
    StepCodes(s, step);
  }

  lemma {:induction false} RunInv(run: seq<State>, steps: seq<Step>, i: nat)
    requires IsRun(run, steps) && i < |run|
    ensures Inv(run[i])
  {
    if i > 0 {
      RunInv(run, steps, i - 1);
      LastStep(run, steps, i);
      StepInv(run[i - 1], steps[i - 1]);
    }
  }

  /** A step leaves consistent buckets consistent if and only if it is tidy. */
  lemma StepConsistentIff(s: State, step: Step)
    requires Inv(s) && Consistent(s.r) && Enabled(s, step)
    ensures Consistent(Next(s, step).r) <==> Tidy(s, step)
  {
    if step.Update? {
      PutDeviceConsistentIff(s.r, step.dev);
    } else {
      StepNames(s, step);
      StepKeys(s, step);
      StepIndex(s, step);
    }
  }

  /** Over every run of issue, claim, purge, update, delete, rotate, re-issue and retire:
      names are a bijection with the devices, the index is exact and devices and token
      records have the same ids in all states up to the `i`th, if and only if every
      record written back before was of a device still there under the same name. */
  lemma {:induction false} RunConsistentIff(run: seq<State>, steps: seq<Step>, i: nat)
    requires IsRun(run, steps) && i < |run|
    ensures ConsistentUpTo(run, i) <==> TidyUpTo(run, steps, i)
  {
    if i == 0 {
      assert ConsistentUpTo(run, 0) by { assert Init(run[0]); }
    } else {
      RunConsistentIff(run, steps, i - 1);
      MoreConsistentIff(run, steps, i);
    }
  }

  ghost predicate ConsistentUpTo(run: seq<State>, i: nat)
    requires i < |run|
  {
    forall j :: 0 <= j <= i ==> Consistent(run[j].r)
  }

  ghost predicate TidyUpTo(run: seq<State>, steps: seq<Step>, i: nat)
    requires |run| == |steps| + 1 && i <= |steps|
  {
    forall j :: 0 <= j < i ==> Tidy(run[j], steps[j])
  }

  lemma MoreConsistentIff(run: seq<State>, steps: seq<Step>, i: nat)
    requires IsRun(run, steps) && 0 < i < |run|
    requires ConsistentUpTo(run, i - 1) <==> TidyUpTo(run, steps, i - 1)
    ensures ConsistentUpTo(run, i) <==> TidyUpTo(run, steps, i)
  {
    if ConsistentUpTo(run, i - 1) {
      ConsistentAtIff(run, steps, i);
    }
  }

  lemma ConsistentAtIff(run: seq<State>, steps: seq<Step>, i: nat)
    requires IsRun(run, steps) && 0 < i < |run| && Consistent(run[i - 1].r)
    ensures Consistent(run[i].r) <==> Tidy(run[i - 1], steps[i - 1])
  {
    RunInv(run, steps, i - 1);
    LastStep(run, steps, i);
    StepConsistentIff(run[i - 1], steps[i - 1]);
  }

  lemma Extend(run: seq<State>, steps: seq<Step>, step: Step) returns (run': seq<State>, steps': seq<Step>)
    requires IsRun(run, steps) && Enabled(run[|steps|], step)
    ensures IsRun(run', steps') && steps' == steps + [step] && run' == run + [Next(run[|steps|], step)]
  {
    run', steps' := run + [Next(run[|steps|], step)], steps + [step];
    forall i | 0 <= i < |steps'| ensures StepAt(run', steps', i) {
      StepKept(run, steps, run[|steps|], step, Next(run[|steps|], step), i);
    }
  }

  lemma StepKept(run: seq<State>, steps: seq<Step>, last: State, step: Step, next: State, i: nat)
    requires IsRun(run, steps) && i <= |steps| && last == run[|steps|]
    requires Enabled(last, step) && next == Next(last, step)
    ensures StepAt(run + [next], steps + [step], i)
  {
    if i < |steps| {
      assert StepAt(run, steps, i);
      assert (run + [next])[i + 1] == run[i + 1] && (run + [next])[i] == run[i] && (steps + [step])[i] == steps[i];
    } else {
      assert (run + [next])[i + 1] == next && (run + [next])[i] == last && (steps + [step])[i] == step;
    }
  }

  const EMPTY := State(Buckets(map[], map[], map[], map[], map[]), {}, map[], map[])

  /** A deleted device whose record is written back afterwards: it is listed again,
      without a token. */
  lemma StaleWriteBack(code: Code, dev: Device) returns (run: seq<State>, steps: seq<Step>)
    ensures IsRun(run, steps) && steps == [Issue(code, 1), Redeem(code, 0, dev, 1), Delete(dev.id), Update(dev)]
    ensures Consistent(run[3].r) && dev.id !in run[3].r.devices
    ensures dev.id in run[4].r.devices && dev.id !in run[4].r.tokens && !Consistent(run[4].r)
  {
    run, steps := PairedAndDeleted(code, dev);
    WrittenBack(run[3], dev);
    run, steps := Extend(run, steps, Update(dev));
  }

  lemma PairedAndDeleted(code: Code, dev: Device) returns (run: seq<State>, steps: seq<Step>)
    ensures IsRun(run, steps) && steps == [Issue(code, 1), Redeem(code, 0, dev, 1), Delete(dev.id)] && |run| == 4
    ensures Consistent(run[3].r) && dev.id !in run[3].r.devices
  {
    run, steps := Extend([EMPTY], [], Issue(code, 1));
    run, steps := Extend(run, steps, Redeem(code, 0, dev, 1));
    run, steps := Extend(run, steps, Delete(dev.id));
    assert ConsistentUpTo(run, 3) by {
      RunConsistentIff(run, steps, 3);
      assert TidyUpTo(run, steps, 3);
    }
  }

  lemma WrittenBack(s: State, dev: Device)
    requires Consistent(s.r) && dev.id !in s.r.devices
    ensures var t := Next(s, Update(dev));
      dev.id in t.r.devices && dev.id !in t.r.tokens && !Consistent(t.r)
  {
    assert dev.id !in s.r.tokens.Keys;
    PutDeviceConsistentIff(s.r, dev);
  }

  /** In every run a token names at most one device, and the blob channel and the
      handshake agree on which. */
  lemma TokenNamesOneDevice(run: seq<State>, steps: seq<Step>, i: nat, token: Token, d: DeviceId, e: DeviceId)
    requires IsRun(run, steps) && i < |run|
    ensures ValidateBlobToken(run[i].r, token) == Some(d) <==> Validate(run[i].r, d, token)
    ensures Validate(run[i].r, d, token) && Validate(run[i].r, e, token) ==> d == e
  {
    RunInv(run, steps, i);
    IndexAgreesWithScan(run[i].r, token, d);
    IndexAgreesWithScan(run[i].r, token, e);
  }

  /** A code's successful claims never exceed its issues. */
  lemma ClaimsWithinIssues(run: seq<State>, steps: seq<Step>, i: nat, code: Code)
    requires IsRun(run, steps) && i < |run|
    ensures Count(run[i].claims, code) <= Count(run[i].issues, code)
  {
    RunInv(run, steps, i);
  }

  predicate AcceptedFor(r: Buckets, d: DeviceId, h: Hash) {
    d in r.tokens && Accepts(r.tokens[d], h)
  }

  /** A hash handed out before is only ever inherited from the step before. */
  lemma Inherited(s: State, step: Step, d: DeviceId, h: Hash)
    requires Enabled(s, step) && h in s.issued && AcceptedFor(Next(s, step).r, d, h)
    ensures AcceptedFor(s.r, d, h)
  {
  }

  lemma InheritedAt(run: seq<State>, steps: seq<Step>, i: nat, j: nat, d: DeviceId, h: Hash)
    requires IsRun(run, steps) && i < j < |run| && h in run[i].issued && AcceptedFor(run[j].r, d, h)
    ensures AcceptedFor(run[j - 1].r, d, h)
  {
    LastStep(run, steps, j);
    IssuedGrows(run, steps, i, j - 1);
    Inherited(run[j - 1], steps[j - 1], d, h);
  }

  lemma {:induction false} InheritedThrough(run: seq<State>, steps: seq<Step>, i: nat, j: nat, d: DeviceId, h: Hash)
    requires IsRun(run, steps) && i <= j < |run| && h in run[i].issued && AcceptedFor(run[j].r, d, h)
    ensures AcceptedFor(run[i].r, d, h)
  {
    if i < j {
      InheritedAt(run, steps, i, j, d, h);
      InheritedThrough(run, steps, i, j - 1, d, h);
    }
  }

  lemma {:induction false} IssuedGrows(run: seq<State>, steps: seq<Step>, i: nat, j: nat)
    requires IsRun(run, steps) && i <= j < |run|
    ensures run[i].issued <= run[j].issued
  {
    if i < j {
      LastStep(run, steps, j);
      IssuedGrows(run, steps, i, j - 1);
    }
  }

  /** Retired tokens stay retired. In every run no hash is accepted for two devices, and
      a hash that has left the record it was in is never accepted again, by anyone. */
  lemma RetiredStaysRetired(run: seq<State>, steps: seq<Step>, i: nat, j: nat, k: nat,
                            d: DeviceId, e: DeviceId, h: Hash)
    requires IsRun(run, steps) && i <= j <= k < |run|
    requires AcceptedFor(run[i].r, d, h)
    ensures AcceptedFor(run[i].r, e, h) ==> e == d
    ensures !AcceptedFor(run[j].r, d, h) ==> !AcceptedFor(run[k].r, e, h)
  {
    RunInv(run, steps, i);
    assert h in run[i].r.index && h in run[i].issued;
    if AcceptedFor(run[k].r, e, h) {
      InheritedThrough(run, steps, i, k, e, h);
      IssuedGrows(run, steps, i, j);
      InheritedThrough(run, steps, j, k, e, h);
    }
  }

  /** A device accepts at most two hashes at any time. */
  lemma AcceptsAtMostTwo(r: Buckets, d: DeviceId, accepted: set<Hash>)
    requires forall h :: h in accepted ==> AcceptedFor(r, d, h)
    ensures |accepted| <= 2
  {
    if d in r.tokens {
      var rec := r.tokens[d];
      var rest := accepted - {rec.current};
      assert rest <= {rec.previous};
      assert |rest| <= 1 by {
        if rec.previous in rest {
          assert rest == {rec.previous};
        } else {
          assert rest == {};
        }
      }
    } else {
      assert accepted == {};
    }
  }

  // ---- the buckets as the program keeps them ----

  class Store {
    var devices: map<DeviceId, Device>
    var names: map<string, DeviceId>
    var tokens: map<DeviceId, TokenRecord>
    var index: map<Hash, DeviceId>
    var pairing: map<Code, Pairing>
    var queues: map<DeviceId, QueueStore.Bucket>

    ghost function View(): Buckets
      reads this
    {
      Buckets(devices, names, tokens, index, pairing)
    }

    method AddPairing(code: Code, expiresAt: int)
      modifies this`pairing
      ensures View() == PutPairing(old(View()), code, expiresAt)
      ensures code in pairing && pairing[code].expiresAt == expiresAt && !pairing[code].consumed
      ensures forall c :: c != code ==> (c in pairing <==> c in old(pairing))
      ensures forall c :: c != code && c in pairing ==> pairing[c] == old(pairing)[c]
    {
      pairing := pairing[code := Pairing(expiresAt, false)];
    }

    method Claim(code: Code, now: int, dev: Device, h: Hash) returns (outcome: Outcome)
      modifies this`devices, this`names, this`tokens, this`index, this`pairing
      ensures outcome == ClaimOutcome(old(View()), code, now, dev)
      ensures View() == ClaimPairing(old(View()), code, now, dev, h)
      ensures outcome == CodeInvalid <==>
        code !in old(pairing) || old(pairing)[code].consumed || now > old(pairing)[code].expiresAt
      ensures outcome != Paired ==> View() == old(View())
      ensures outcome == Paired ==>
        && code in pairing && pairing[code].consumed
        && dev.id in devices && devices[dev.id] == dev
        && dev.id in tokens && tokens[dev.id] == TokenRecord(h, Empty, now, false)
        && h in index && index[h] == dev.id
    {
      if code !in pairing || pairing[code].consumed || now > pairing[code].expiresAt {
        return CodeInvalid;
      }
      var name := Lower(dev.name);
      if name in names && names[name] != dev.id {
        return NameTaken;
      }
      devices := devices[dev.id := dev];
      names := names[name := dev.id];
      tokens := tokens[dev.id := TokenRecord(h, Empty, now, false)];
      index := index[h := dev.id];
      pairing := pairing[code := pairing[code].(consumed := true)];
      outcome := Paired;
    }

    /** Collect stale codes, then delete them one by one. */
    method PurgeStaleCodes(now: int)
      modifies this`pairing
      ensures View() == PurgePairing(old(View()), now)
      ensures forall c :: c in pairing <==>
        c in old(pairing) && !old(pairing)[c].consumed && now <= old(pairing)[c].expiresAt
      ensures forall c :: c in pairing ==> pairing[c] == old(pairing)[c]
    {
      var stale := set c | c in pairing && (pairing[c].consumed || now > pairing[c].expiresAt);
      ghost var all := stale;
      while stale != {}
        invariant stale <= all && pairing == old(pairing) - (all - stale)
        decreases |stale|
      {
        var c :| c in stale;
        pairing := pairing - {c};
        stale := stale - {c};
      }
      assert all - stale == all;
      ghost var kept := PurgePairing(old(View()), now).pairing;
      assert forall c :: c in pairing <==> c in kept;
    }

    method StoreDevice(dev: Device)
      modifies this`devices, this`names
      ensures View() == PutDevice(old(View()), dev)
      ensures devices == old(devices)[dev.id := dev] && names == old(names)[Lower(dev.name) := dev.id]
    {
      devices := devices[dev.id := dev];
      names := names[Lower(dev.name) := dev.id];
    }

    method Touch(id: DeviceId, t: int)
      modifies this`devices
      ensures View() == UpdateLastSeen(old(View()), id, t)
      ensures devices.Keys == old(devices).Keys && (id in devices ==> devices[id] == old(devices)[id].(lastSeen := t))
      ensures forall d :: d in devices && d != id ==> devices[d] == old(devices)[d]
    {
      if id in devices {
        devices := devices[id := devices[id].(lastSeen := t)];
      }
    }

    /** Delete the device, its name, its token with both hashes, and its offline queue. */
    method Remove(id: DeviceId)
      modifies this`devices, this`names, this`tokens, this`index, this`queues
      ensures View() == DeleteDevice(old(View()), id)
      ensures devices == old(devices) - {id} && tokens == old(tokens) - {id} && pairing == old(pairing)
      ensures forall h :: h in index <==>
        h in old(index) && (id !in old(tokens)
          || (h != old(tokens)[id].current && (h == Empty || h != old(tokens)[id].previous)))
      ensures forall n :: n in names <==> n in old(names) && !(id in old(devices) && n == Lower(old(devices)[id].name))
      ensures queues == old(queues) - {id}
      ensures QueueStore.QueuesOf(queues) == QueueStore.QueuesOf(old(queues)) - {id}
    {
      if id in devices {
        names := names - {Lower(devices[id].name)};
      }
      devices := devices - {id};
      if id in tokens {
        var rec := tokens[id];
        index := index - {rec.current};
        if rec.previous != Empty {
          index := index - {rec.previous};
        }
        assert index == old(index) - HashesOf(rec);
      }
      tokens := tokens - {id};
      QueueStore.QueuesTake(queues, id);
      queues := queues - {id};
    }

    method Rotate(id: DeviceId, h: Hash, now: int)
      modifies this`tokens, this`index
      ensures View() == RotateToken(old(View()), id, h, now)
      ensures id in old(tokens) && old(tokens)[id].previous == Empty && old(tokens)[id].current != h ==>
        && id in tokens && tokens[id].current == h && tokens[id].previous == old(tokens)[id].current
        && tokens[id].issuedAt == now && tokens[id].revoked == old(tokens)[id].revoked
      ensures id !in old(tokens) || old(tokens)[id].previous != Empty || old(tokens)[id].current == h ==>
        View() == old(View())
    {
      if id !in tokens {
        return;
      }
      var rec := tokens[id];
      if rec.previous != Empty || rec.current == h {
        return;
      }
      rec := rec.(previous := rec.current, current := h, issuedAt := now);
      tokens := tokens[id := rec];
      index := index[h := id];
    }

    method ReissuePending(id: DeviceId, grace: Hash, h: Hash, now: int) returns (done: bool)
      modifies this`tokens, this`index
      ensures done <==> id in old(tokens) && CanReissue(old(tokens)[id], grace, h)
      ensures View() == ReissuePendingToken(old(View()), id, grace, h, now)
      ensures done <==>
        && id in old(tokens) && old(tokens)[id].previous != Empty
        && old(tokens)[id].previous == grace && old(tokens)[id].current != h
      ensures done ==>
        && id in tokens && tokens[id].current == h && tokens[id].previous == grace
        && tokens[id].issuedAt == now && tokens[id].revoked == old(tokens)[id].revoked
      ensures !done ==> View() == old(View())
    {
      if id !in tokens {
        return false;
      }
      var rec := tokens[id];
      if rec.previous == Empty || rec.previous != grace || rec.current == h {
        return false;
      }
      if rec.current != Empty && rec.current != rec.previous {
        index := index - {rec.current};
      }
      tokens := tokens[id := rec.(current := h, issuedAt := now)];
      index := index[h := id];
      done := true;
    }

    method RetireOld(id: DeviceId)
      modifies this`tokens, this`index
      ensures View() == RetireOldToken(old(View()), id)
      ensures id in old(tokens) ==> id in tokens && tokens[id] == old(tokens)[id].(previous := Empty)
    {
      if id !in tokens || tokens[id].previous == Empty {
        return;
      }
      index := index - {tokens[id].previous};
      tokens := tokens[id := tokens[id].(previous := Empty)];
    }

    /** maybeRotate: retire a confirmed old token, or decide what to deliver. The record is
        read in one transaction and retired in another; the contract is of a call that
        nothing interrupts. */
    method MaybeRotate(id: DeviceId, presented: Token, now: int, rotateDays: int, minted: Token) returns (dec: Decision)
      modifies this`tokens, this`index
      ensures id !in old(tokens) ==> dec == Nothing && View() == old(View())
      ensures id in old(tokens) ==>
        && dec == Decide(old(tokens)[id], presented, now, rotateDays, minted)
        && id in tokens && tokens[id] == AfterDecide(old(tokens)[id], presented)
        && (old(tokens)[id].current == Mac(presented) ==> tokens[id] == old(tokens)[id].(previous := Empty))
        && (old(tokens)[id].current != Mac(presented) ==> tokens[id] == old(tokens)[id])
        && View() == if tokens[id] == old(tokens)[id] then old(View()) else RetireOldToken(old(View()), id)
    {
      var confirmed;
      dec, confirmed := ReadDecision(id, presented, now, rotateDays, minted);
      if confirmed {
        RetireOld(id);
      }
    }

    /** The reading half: what to deliver, and whether an old token is to be retired. */
    method ReadDecision(id: DeviceId, presented: Token, now: int, rotateDays: int, minted: Token)
      returns (dec: Decision, confirmed: bool)
      ensures confirmed <==> id in tokens && tokens[id].current == Mac(presented) && tokens[id].previous != Empty
      ensures dec == if id in tokens then Decide(tokens[id], presented, now, rotateDays, minted) else Nothing
      ensures confirmed ==> dec == Nothing
      ensures dec.Rotate? <==>
        && id in tokens && tokens[id].current == Mac(presented) && tokens[id].previous == Empty
        && rotateDays > 0 && now - tokens[id].issuedAt >= rotateDays * 24 * 3600
      ensures dec.Remint? <==>
        && id in tokens && tokens[id].current != Mac(presented) && tokens[id].previous == Mac(presented)
        && rotateDays > 0
      ensures dec != Nothing ==> dec.token == minted
      ensures dec.Remint? ==> dec.grace == tokens[id].previous
    {
      if id !in tokens {
        return Nothing, false;
      }
      var rec := tokens[id];
      var current := rec.current == Mac(presented);
      if current && rec.previous != Empty {
        return Nothing, true;
      }
      confirmed := false;
      if rotateDays <= 0 {
        return Nothing, false;
      }
      var grace := rec.previous != Empty && rec.previous == Mac(presented);
      if !current && grace {
        return Decision.Remint(minted, rec.previous), false;
      }
      if rec.previous != Empty || !current || now - rec.issuedAt < rotateDays * DAY {
        return Nothing, false;
      }
      dec := Decision.Rotate(minted);
    }

    /** commitRotation: record a token whose frame was queued, re-issuing in one transaction
        and falling back to a rotation in another; again of an uninterrupted call. */
    method CommitRotation(id: DeviceId, dec: Decision, now: int)
      requires dec != Nothing
      modifies this`tokens, this`index
      ensures id in old(tokens) ==> id in tokens && tokens[id] == Commit(old(tokens)[id], dec, now)
      ensures dec.Remint? && id in old(tokens) && CanReissue(old(tokens)[id], dec.grace, Mac(dec.token)) ==>
        View() == ReissuePendingToken(old(View()), id, dec.grace, Mac(dec.token), now)
      ensures !(dec.Remint? && id in old(tokens) && CanReissue(old(tokens)[id], dec.grace, Mac(dec.token))) ==>
        View() == RotateToken(old(View()), id, Mac(dec.token), now)
    {
      if dec.Remint? {
        var done := ReissuePending(id, dec.grace, Mac(dec.token), now);
        if done {
          return;
        }
      }
      Rotate(id, Mac(dec.token), now);
    }

    /** The handshake: the device and its token exist, neither is revoked, and the token is
        the current or the grace one. */
    method Authenticate(id: DeviceId, token: Token) returns (ok: bool)
      ensures ok <==> Validate(View(), id, token)
      ensures ok <==>
        && id in devices && !devices[id].revoked && id in tokens && !tokens[id].revoked
        && (tokens[id].current == Mac(token) || tokens[id].previous == Mac(token))
    {
      if id !in devices || devices[id].revoked || id !in tokens || tokens[id].revoked {
        return false;
      }
      ok := tokens[id].current == Mac(token) || tokens[id].previous == Mac(token);
    }

    /** Resolve a bearer token through the index, then validate as the handshake does. */
    method AuthenticateBlob(token: Token) returns (dev: Option<DeviceId>)
      ensures dev == ValidateBlobToken(View(), token)
      ensures dev.Some? <==> Mac(token) in index && Validate(View(), index[Mac(token)], token)
      ensures dev.Some? ==> dev.value == index[Mac(token)]
    {
      if Mac(token) !in index {
        return None;
      }
      var ok := Authenticate(index[Mac(token)], token);
      dev := if ok then Some(index[Mac(token)]) else None;
    }
  }
}
