/** On-demand pulls: any number of GETs waiting for a blob, any number of PUTs storing
    and then signalling it, and a collector deleting files at any moment
    (server/internal/httpapi/blob.go, pullOnDemand and handleBlobPut). */
module PullProtocol {
  import opened Model
  import opened Waiters

  /** Requests are numbered; a GET's channel bears the GET's number. */
  type ThreadId = nat

  /** Missed: the first open failed. Listed: the channel is in the table. Asked: the
      origin was asked. Blocked: the file was still absent, now in the select.
      Leaving: decided, deferred remove outstanding. Done. */
  datatype GetPc = Missed | Listed | Asked | Blocked | Leaving | Done
  datatype Get = Get(id: BlobId, pc: GetPc)
  datatype Put = Put(id: BlobId, signalled: bool)

  datatype State = State(
    files: set<BlobId>,
    table: map<BlobId, seq<ThreadId>>,
    closes: map<ThreadId, nat>,
    gets: map<ThreadId, Get>,
    puts: map<ThreadId, Put>)

  datatype Step =
    | GetMisses(g: ThreadId, id: BlobId)
    | AddWaiter(g: ThreadId)
    | AskOrigin(g: ThreadId, reached: bool)
    | OpenAgain(g: ThreadId)
    | Wake(g: ThreadId)
    | GiveUp(g: ThreadId)
    | RemoveWaiter(g: ThreadId)
    | PutStores(p: ThreadId, id: BlobId)
    | PutSignals(p: ThreadId)
    | Collect(id: BlobId)

  predicate Init(s: State) {
    s.table == map[] && s.closes == map[] && s.gets == map[] && s.puts == map[]
  }

  predicate AtPc(s: State, g: ThreadId, pc: GetPc) {
    g in s.gets && s.gets[g].pc == pc
  }

  predicate Closed(s: State, g: ThreadId) {
    g in s.closes && s.closes[g] > 0
  }

  predicate Enabled(s: State, step: Step) {
    match step
    case GetMisses(g, id) => g !in s.gets && g !in s.closes && id !in s.files
    case AddWaiter(g) => AtPc(s, g, Missed)
    case AskOrigin(g, reached) => AtPc(s, g, Listed)
    case OpenAgain(g) => AtPc(s, g, Asked)
    case Wake(g) => AtPc(s, g, Blocked) && Closed(s, g)
    case GiveUp(g) => AtPc(s, g, Blocked)
    case RemoveWaiter(g) => AtPc(s, g, Leaving)
    case PutStores(p, id) => p !in s.puts
    case PutSignals(p) => p in s.puts && !s.puts[p].signalled
    case Collect(id) => true
  }

  function GoTo(s: State, g: ThreadId, pc: GetPc): State
    requires g in s.gets
  {
    s.(gets := s.gets[g := s.gets[g].(pc := pc)])
  }

  /** One more close for every channel in the list. */
  function CloseAll(closes: map<ThreadId, nat>, w: seq<ThreadId>): map<ThreadId, nat> {
    map g | g in closes :: if g in w then closes[g] + 1 else closes[g]
  }

  function Enlist(s: State, g: ThreadId): State
    requires g in s.gets
  {
    GoTo(s, g, Listed).(table := WithAdded(s.table, s.gets[g].id, g), closes := s.closes[g := 0])
  }

  function Delist(s: State, g: ThreadId): State
    requires g in s.gets
  {
    GoTo(s, g, Done).(table := WithRemoved(s.table, s.gets[g].id, g))
  }

  function SignalAll(s: State, p: ThreadId): State
    requires p in s.puts
  {
    var id := s.puts[p].id;
    s.(closes := CloseAll(s.closes, ListOf(s.table, id)), table := s.table - {id}, puts := s.puts[p := Put(id, true)])
  }

  function Next(s: State, step: Step): State
    requires Enabled(s, step)
  {
    match step
    case GetMisses(g, id) => s.(gets := s.gets[g := Get(id, Missed)])
    case AddWaiter(g) => Enlist(s, g)
    case AskOrigin(g, reached) => GoTo(s, g, if reached then Asked else Leaving)
    case OpenAgain(g) => GoTo(s, g, if s.gets[g].id in s.files then Leaving else Blocked)
    case Wake(g) => GoTo(s, g, Leaving)
    case GiveUp(g) => GoTo(s, g, Leaving)
    case RemoveWaiter(g) => Delist(s, g)
    case PutStores(p, id) => s.(files := s.files + {id}, puts := s.puts[p := Put(id, false)])
    case PutSignals(p) => SignalAll(s, p)
    case Collect(id) => s.(files := s.files - {id})
  }

  /** Step `i` of the run. */
  ghost predicate StepAt(run: seq<State>, steps: seq<Step>, i: int)
    requires |run| == |steps| + 1 && 0 <= i < |steps|
  {
    Enabled(run[i], steps[i]) && run[i + 1] == Next(run[i], steps[i])
  }

  ghost predicate IsRun(run: seq<State>, steps: seq<Step>) {
    && |run| == |steps| + 1
    && Init(run[0])
    && (forall i :: 0 <= i < |steps| ==> StepAt(run, steps, i))
  }

  // ---- invariants ----

  predicate InTable(pc: GetPc) {
    pc == Listed || pc == Asked || pc == Blocked || pc == Leaving
  }

  /** A listed channel belongs to a live GET for that blob and is open. */
  ghost predicate ListsSound(s: State) {
    && (forall id :: id in s.table ==> s.table[id] != [] && NoDuplicates(s.table[id]))
    && (forall id, g :: id in s.table && g in s.table[id] ==>
         g in s.gets && s.gets[g].id == id && InTable(s.gets[g].pc) && g in s.closes && s.closes[g] == 0)
  }

  /** A live GET's channel was closed at most once, and is listed as long as it is open. */
  ghost predicate GetsSound(s: State) {
    && (forall g :: g in s.gets ==> (s.gets[g].pc == Missed <==> g !in s.closes))
    && (forall g :: g in s.closes ==> g in s.gets && s.closes[g] <= 1)
    && (forall g :: g in s.gets && InTable(s.gets[g].pc) && s.closes[g] == 0 ==> g in ListOf(s.table, s.gets[g].id))
  }

  /** Some PUT of the blob has stored it, and has or has not yet signalled. */
  ghost predicate HasPut(puts: map<ThreadId, Put>, id: BlobId, signalled: bool) {
    exists p :: p in puts && puts[p] == Put(id, signalled)
  }

  /** A closed channel was closed by a PUT of the same blob. */
  ghost predicate WakesJustified(s: State) {
    forall g :: Closed(s, g) ==> g in s.gets && HasPut(s.puts, s.gets[g].id, true)
  }

  /** Whoever blocks on an open channel while the file is there has a signal coming. */
  ghost predicate SignalComing(s: State) {
    forall g :: AtPc(s, g, Blocked) && !Closed(s, g) && s.gets[g].id in s.files ==> HasPut(s.puts, s.gets[g].id, false)
  }

  ghost predicate Inv(s: State) {
    ListsSound(s) && GetsSound(s) && WakesJustified(s) && SignalComing(s)
  }

  // ---- steps of a GET ----

  lemma AddLists(s: State, g: ThreadId)
    requires ListsSound(s) && GetsSound(s) && AtPc(s, g, Missed)
    ensures ListsSound(Enlist(s, g))
  {
    var t, id := Enlist(s, g), s.gets[g].id;
    assert g !in ListOf(s.table, id);
    assert t.table[id] == ListOf(s.table, id) + [g];
  }

  lemma AddGets(s: State, g: ThreadId)
    requires ListsSound(s) && GetsSound(s) && AtPc(s, g, Missed)
    ensures GetsSound(Enlist(s, g))
  {
    var t, id := Enlist(s, g), s.gets[g].id;
    assert t.table[id] == ListOf(s.table, id) + [g];
    forall x | x in ListOf(s.table, id) ensures x in t.table[id] {
    }
  }

  lemma RemoveLists(s: State, g: ThreadId)
    requires ListsSound(s) && GetsSound(s) && AtPc(s, g, Leaving)
    ensures ListsSound(Delist(s, g))
  {
    DroppedElements(ListOf(s.table, s.gets[g].id), g);
  }

  lemma RemoveGets(s: State, g: ThreadId)
    requires ListsSound(s) && GetsSound(s) && AtPc(s, g, Leaving)
    ensures GetsSound(Delist(s, g))
  {
    var t, id := Delist(s, g), s.gets[g].id;
    DroppedElements(ListOf(s.table, id), g);
    assert ListOf(t.table, id) == Dropped(ListOf(s.table, id), g);
  }

  /** A GET that merely moves on keeps everything, if blocking finds the file absent. */
  lemma MoveSound(s: State, g: ThreadId, pc: GetPc)
    requires Inv(s) && g in s.gets && InTable(s.gets[g].pc) && InTable(pc)
    requires pc == Blocked ==> s.gets[g].id !in s.files
    ensures Inv(GoTo(s, g, pc))
  {
    MoveTables(s, g, pc);
    var t := GoTo(s, g, pc);
    assert WakesJustified(t);
    forall x | AtPc(t, x, Blocked) && !Closed(t, x) && t.gets[x].id in t.files
      ensures HasPut(t.puts, t.gets[x].id, false)
    {
      assert AtPc(s, x, Blocked) && !Closed(s, x);
    }
  }

  lemma MoveTables(s: State, g: ThreadId, pc: GetPc)
    requires ListsSound(s) && GetsSound(s) && g in s.gets && InTable(s.gets[g].pc) && InTable(pc)
    ensures ListsSound(GoTo(s, g, pc)) && GetsSound(GoTo(s, g, pc))
  {
  }

  lemma TableSound(s: State, t: State, g: ThreadId)
    requires WakesJustified(s) && SignalComing(s) && GetsSound(s) && g in s.gets
    requires t.puts == s.puts && t.files == s.files && t.gets.Keys == s.gets.Keys
    requires forall x :: x in s.gets && x != g ==> t.gets[x] == s.gets[x]
    requires t.gets[g].id == s.gets[g].id && t.gets[g].pc != Blocked
    requires forall x :: Closed(t, x) ==> Closed(s, x)
    requires forall x :: x != g && Closed(s, x) ==> Closed(t, x)
    ensures WakesJustified(t) && SignalComing(t)
  {
    forall x | AtPc(t, x, Blocked) && !Closed(t, x) && t.gets[x].id in t.files
      ensures HasPut(t.puts, t.gets[x].id, false)
    {
      assert AtPc(s, x, Blocked) && !Closed(s, x);
    }
  }

  lemma AddWakes(s: State, g: ThreadId)
    requires WakesJustified(s) && SignalComing(s) && GetsSound(s) && AtPc(s, g, Missed)
    ensures WakesJustified(Enlist(s, g)) && SignalComing(Enlist(s, g))
  {
    TableSound(s, Enlist(s, g), g);
  }

  lemma AddSound(s: State, g: ThreadId)
    requires Inv(s) && AtPc(s, g, Missed)
    ensures Inv(Enlist(s, g))
  {
    AddLists(s, g);
    AddGets(s, g);
    AddWakes(s, g);
  }

  lemma RemoveSound(s: State, g: ThreadId)
    requires Inv(s) && AtPc(s, g, Leaving)
    ensures Inv(Delist(s, g))
  {
    RemoveLists(s, g);
    RemoveGets(s, g);
    TableSound(s, Delist(s, g), g);
  }

  // ---- steps of a PUT ----

  lemma SignalTables(s: State, p: ThreadId)
    requires ListsSound(s) && GetsSound(s) && p in s.puts && !s.puts[p].signalled
    ensures ListsSound(SignalAll(s, p)) && GetsSound(SignalAll(s, p))
  {
    var t, id := SignalAll(s, p), s.puts[p].id;
    assert forall x :: x != id ==> ListOf(t.table, x) == ListOf(s.table, x);
  }

  /** Signalling closes the channel of every GET blocked on the blob. */
  lemma SignalClosesAll(s: State, p: ThreadId, g: ThreadId)
    requires GetsSound(s) && p in s.puts && !s.puts[p].signalled && AtPc(s, g, Blocked) && s.gets[g].id == s.puts[p].id
    ensures Closed(SignalAll(s, p), g)
  {
  }

  lemma SignalWakes(s: State, p: ThreadId)
    requires Inv(s) && p in s.puts && !s.puts[p].signalled
    ensures WakesJustified(SignalAll(s, p))
  {
    var t, id := SignalAll(s, p), s.puts[p].id;
    forall g | Closed(t, g) ensures g in t.gets && HasPut(t.puts, t.gets[g].id, true) {
      if Closed(s, g) {
        var q :| q in s.puts && s.puts[q] == Put(s.gets[g].id, true);
        assert q in t.puts && t.puts[q] == Put(s.gets[g].id, true);
      } else {
        assert g in ListOf(s.table, id);
        assert t.puts[p] == Put(t.gets[g].id, true);
      }
    }
  }

  lemma SignalStillComing(s: State, p: ThreadId)
    requires Inv(s) && p in s.puts && !s.puts[p].signalled
    ensures SignalComing(SignalAll(s, p))
  {
    var t, id := SignalAll(s, p), s.puts[p].id;
    forall g | AtPc(t, g, Blocked) && !Closed(t, g) && t.gets[g].id in t.files
      ensures HasPut(t.puts, t.gets[g].id, false)
    {
      if t.gets[g].id == id {
        SignalClosesAll(s, p, g);
      } else {
        var q :| q in s.puts && s.puts[q] == Put(s.gets[g].id, false);
        assert q in t.puts && t.puts[q] == Put(t.gets[g].id, false);
      }
    }
  }

  lemma SignalSound(s: State, p: ThreadId)
    requires Inv(s) && p in s.puts && !s.puts[p].signalled
    ensures Inv(SignalAll(s, p))
  {
    SignalTables(s, p);
    SignalWakes(s, p);
    SignalStillComing(s, p);
  }

  lemma StoreSound(s: State, p: ThreadId, id: BlobId)
    requires Inv(s) && Enabled(s, PutStores(p, id))
    ensures Inv(Next(s, PutStores(p, id)))
  {
    var t := Next(s, PutStores(p, id));
    assert t.puts[p] == Put(id, false);
    forall x, b | HasPut(s.puts, x, b) ensures HasPut(t.puts, x, b) {
      var q :| q in s.puts && s.puts[q] == Put(x, b);
      assert q in t.puts && t.puts[q] == Put(x, b);
    }
    forall g | AtPc(t, g, Blocked) && !Closed(t, g) && t.gets[g].id in t.files
      ensures HasPut(t.puts, t.gets[g].id, false)
    {
      assert AtPc(s, g, Blocked) && !Closed(s, g);
    }
  }

  lemma CollectSound(s: State, id: BlobId)
    requires Inv(s)
    ensures Inv(Next(s, Collect(id)))
  {
    var t := Next(s, Collect(id));
    forall g | AtPc(t, g, Blocked) && !Closed(t, g) && t.gets[g].id in t.files
      ensures HasPut(t.puts, t.gets[g].id, false)
    {
      assert AtPc(s, g, Blocked) && !Closed(s, g);
    }
  }

  lemma MissSound(s: State, g: ThreadId, id: BlobId)
    requires Inv(s) && Enabled(s, GetMisses(g, id))
    ensures Inv(Next(s, GetMisses(g, id)))
  {
    var t := Next(s, GetMisses(g, id));
    forall x | AtPc(t, x, Blocked) && !Closed(t, x) && t.gets[x].id in t.files
      ensures HasPut(t.puts, t.gets[x].id, false)
    {
      assert AtPc(s, x, Blocked) && !Closed(s, x);
    }
  }

  lemma StepSound(s: State, step: Step)
    requires Inv(s) && Enabled(s, step)
    ensures Inv(Next(s, step))
  {
    match step
    case GetMisses(g, id) => MissSound(s, g, id);
    case AddWaiter(g) =>
      AddSound(s, g);
    case AskOrigin(g, reached) => MoveSound(s, g, if reached then Asked else Leaving);
    case OpenAgain(g) => MoveSound(s, g, if s.gets[g].id in s.files then Leaving else Blocked);
    case Wake(g) => MoveSound(s, g, Leaving);
    case GiveUp(g) => MoveSound(s, g, Leaving);
    case RemoveWaiter(g) =>
      RemoveSound(s, g);
    case PutStores(p, id) => StoreSound(s, p, id);
    case PutSignals(p) => SignalSound(s, p);
    case Collect(id) => CollectSound(s, id);
  }

  lemma {:induction false} RunSound(run: seq<State>, steps: seq<Step>, i: nat)
    requires IsRun(run, steps) && i < |run|
    ensures Inv(run[i])
  {
    if i > 0 {
      RunSound(run, steps, i - 1);
      assert StepAt(run, steps, i - 1);
      StepSound(run[i - 1], steps[i - 1]);
    }
  }

  // ---- the theorems ----

  /** No lost wakeup. In every run, if the file is there and a GET blocks on an open
      channel for it, then some PUT has stored it and has yet to signal. */
  lemma NoLostWakeup(run: seq<State>, steps: seq<Step>, i: nat, g: ThreadId)
    requires IsRun(run, steps) && i < |run|
    requires AtPc(run[i], g, Blocked) && !Closed(run[i], g) && run[i].gets[g].id in run[i].files
    ensures exists p :: p in run[i].puts && run[i].puts[p] == Put(run[i].gets[g].id, false)
  {
    RunSound(run, steps, i);
    assert HasPut(run[i].puts, run[i].gets[g].id, false);
  }

  /** That signal does reach it: whenever a PUT signals, no GET stays blocked on an
      open channel for its blob. */
  lemma SignalReachesEveryBlockedGet(run: seq<State>, steps: seq<Step>, i: nat, g: ThreadId)
    requires IsRun(run, steps) && i < |steps| && steps[i].PutSignals? && steps[i].p in run[i].puts
    requires AtPc(run[i], g, Blocked) && run[i].gets[g].id == run[i].puts[steps[i].p].id
    ensures Closed(run[i + 1], g)
  {
    RunSound(run, steps, i);
    assert StepAt(run, steps, i);
    SignalClosesAll(run[i], steps[i].p, g);
  }

  /** No channel is ever closed twice, and none is closed without a PUT of its blob. */
  lemma ClosedOnceByItsBlob(run: seq<State>, steps: seq<Step>, i: nat, g: ThreadId)
    requires IsRun(run, steps) && i < |run| && g in run[i].closes
    ensures run[i].closes[g] <= 1
    ensures run[i].closes[g] == 1 ==>
      g in run[i].gets && exists p :: p in run[i].puts && run[i].puts[p] == Put(run[i].gets[g].id, true)
  {
    RunSound(run, steps, i);
    if run[i].closes[g] == 1 {
      assert Closed(run[i], g);
      assert HasPut(run[i].puts, run[i].gets[g].id, true);
    }
  }

  /** The table does not leak: a blob is in it only while some GET for it is under way,
      so once every GET is done it is empty. */
  lemma TableHoldsLiveGets(run: seq<State>, steps: seq<Step>, i: nat, id: BlobId)
    requires IsRun(run, steps) && i < |run| && id in run[i].table
    ensures exists g :: g in run[i].gets && run[i].gets[g].id == id && run[i].gets[g].pc != Done
  {
    RunSound(run, steps, i);
    var g := run[i].table[id][0];
    assert g in run[i].table[id] && g in run[i].gets;
  }
}
