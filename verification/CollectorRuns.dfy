/** One collection pass while the rest of the server goes on working: the collector reads
    pins and records once, then looks, deletes files and deletes records one call at a
    time (server/internal/blob/gc.go), between any steps of routes, PUTs and GETs. Ids are
    well-formed here; BlobGc says what malformed ones do. */
module CollectorRuns {
  import opened Model
  import opened BlobStore
  import opened BlobGc

  /** What the pass read when it began. */
  datatype Snapshot = Snapshot(pins: set<BlobId>, entries: Meta, now: int, ttl: int, cap: int)

  /** What the collector calls next: look at another entry, delete a file, delete a record. */
  datatype Pc = Choose | File(id: BlobId) | Record(id: BlobId)

  /** `left` are the entries the first pass has yet to look at, `survivors` those it let
      live; `order` and `n` are the second pass and how far it has come; `deleted` are the
      ids whose files the collector has deleted; `queued` is what queued clips refer to
      at the moment. */
  datatype State = State(
    files: set<BlobId>,
    meta: Meta,
    queued: set<BlobId>,
    left: set<BlobId>,
    survivors: set<BlobId>,
    order: seq<BlobId>,
    n: nat,
    usage: int,
    pc: Pc,
    deleted: set<BlobId>)

  datatype Step =
    | Store(id: BlobId)
    | Touch(id: BlobId, t: int, size: int, mime: string)
    | WriteAcl(id: BlobId, origin: DeviceId, allowed: seq<DeviceId>)
    | Requeue(queued: set<BlobId>)
    | Look(id: BlobId)
    | DeleteFile
    | DeleteRecord
    | Sort(order: seq<BlobId>, usage: int)
    | Evict(charge: nat)

  ghost predicate Init(z: Snapshot, s: State) {
    && s.meta == z.entries && s.queued == z.pins
    && s.left == z.entries.Keys && s.survivors == {} && s.order == [] && s.n == 0
    && s.pc == Choose && s.deleted == {}
  }

  ghost predicate Enabled(z: Snapshot, s: State, step: Step) {
    match step
    case Look(id) => s.pc == Choose && id in s.left && id in z.entries
    case DeleteFile => s.pc.File?
    case DeleteRecord => s.pc.Record?
    case Sort(order, usage) =>
      && s.pc == Choose && s.left == {} && s.order == [] && z.cap > 0 && usage > z.cap
      && Lists(order, s.survivors - z.pins)
      && (forall id :: id in order ==> id in z.entries) && ByAccess(order, z.entries)
    case Evict(charge) => s.pc == Choose && s.left == {} && s.n < |s.order| && s.usage > z.cap
    case _ => true
  }

  /** The first pass looks at an entry; age is judged by the snapshot. */
  ghost function LookAt(z: Snapshot, s: State, id: BlobId): State
    requires id in z.entries
  {
    var t := s.(left := s.left - {id});
    if id in z.pins then t.(survivors := s.survivors + {id})
    else if id !in s.files then t.(pc := Record(id))
    else if Overdue(z.entries, id, z.now, z.ttl) then t.(pc := File(id))
    else t.(survivors := s.survivors + {id})
  }

  ghost function Next(z: Snapshot, s: State, step: Step): State
    requires Enabled(z, s, step)
  {
    match step
    case Store(id) => s.(files := s.files + {id})
    case Touch(id, t, size, mime) => s.(meta := Touched(s.meta, id, t, size, mime))
    case WriteAcl(id, origin, allowed) => s.(meta := WithAcl(s.meta, id, origin, allowed))
    case Requeue(queued) => s.(queued := queued)
    case Look(id) => LookAt(z, s, id)
    case DeleteFile => s.(files := s.files - {s.pc.id}, deleted := s.deleted + {s.pc.id}, pc := Record(s.pc.id))
    case DeleteRecord => s.(meta := s.meta - {s.pc.id}, pc := Choose)
    case Sort(order, usage) => s.(order := order, usage := usage)
    case Evict(charge) => s.(pc := File(s.order[s.n]), n := s.n + 1, usage := s.usage - charge)
  }

  ghost predicate StepAt(z: Snapshot, run: seq<State>, steps: seq<Step>, i: int)
    requires |run| == |steps| + 1 && 0 <= i < |steps|
  {
    Enabled(z, run[i], steps[i]) && run[i + 1] == Next(z, run[i], steps[i])
  }

  ghost predicate IsRun(z: Snapshot, run: seq<State>, steps: seq<Step>) {
    && |run| == |steps| + 1
    && Init(z, run[0])
    && (forall i :: 0 <= i < |steps| ==> StepAt(z, run, steps, i))
  }

  // ---- the invariant ----

  predicate Condemned(z: Snapshot, id: BlobId) {
    id in z.entries && id !in z.pins && Overdue(z.entries, id, z.now, z.ttl)
  }

  predicate Squeezed(s: State, id: BlobId) {
    s.n <= |s.order| && id in s.order[..s.n]
  }

  /** Files go only through the collector, and only those of condemned or squeezed ids. */
  ghost predicate Justified(z: Snapshot, files0: set<BlobId>, s: State) {
    && (forall id :: id in files0 ==> id in s.files || id in s.deleted)
    && (forall id :: id in s.deleted || s.pc == File(id) ==>
         id in z.entries && id !in z.pins && id !in s.left && (Condemned(z, id) || Squeezed(s, id)))
    && (forall id :: s.pc == Record(id) ==> id in z.entries && id !in z.pins)
  }

  /** What the pass has dealt with is gone if it had to go. */
  ghost predicate Thorough(z: Snapshot, files0: set<BlobId>, s: State) {
    && (forall id :: Condemned(z, id) && id in files0 && id !in s.left ==> id in s.deleted || s.pc == File(id))
    && (forall id :: Squeezed(s, id) ==> id in s.deleted || s.pc == File(id))
  }

  ghost predicate Bookkeeping(z: Snapshot, s: State) {
    && s.left <= z.entries.Keys && s.survivors <= z.entries.Keys && s.survivors !! s.left
    && s.n <= |s.order| && (s.order != [] ==> s.left == {})
    && (forall id :: id in s.order ==> id in s.survivors && id !in z.pins)
  }

  ghost predicate Inv(z: Snapshot, files0: set<BlobId>, s: State) {
    Bookkeeping(z, s) && Justified(z, files0, s) && Thorough(z, files0, s)
  }

  lemma LookInv(z: Snapshot, files0: set<BlobId>, s: State, id: BlobId)
    requires Inv(z, files0, s) && Enabled(z, s, Look(id))
    ensures Inv(z, files0, LookAt(z, s, id))
  {
    var t := LookAt(z, s, id);
    assert s.order == [] && s.order[..s.n] == [];
    assert Justified(z, files0, t);
    assert Thorough(z, files0, t);
  }

  lemma EvictInv(z: Snapshot, files0: set<BlobId>, s: State, charge: nat)
    requires Inv(z, files0, s) && Enabled(z, s, Evict(charge))
    ensures Inv(z, files0, Next(z, s, Evict(charge)))
  {
    var t := Next(z, s, Evict(charge));
    assert s.order[..s.n + 1] == s.order[..s.n] + [s.order[s.n]];
    assert forall id :: Squeezed(t, id) <==> Squeezed(s, id) || id == s.order[s.n];
  }

  lemma SortInv(z: Snapshot, files0: set<BlobId>, s: State, order: seq<BlobId>, usage: int)
    requires Inv(z, files0, s) && Enabled(z, s, Sort(order, usage))
    ensures Inv(z, files0, Next(z, s, Sort(order, usage)))
  {
    assert s.n == 0 && s.order[..0] == order[..0];
  }

  lemma DeleteInv(z: Snapshot, files0: set<BlobId>, s: State)
    requires Inv(z, files0, s) && s.pc.File?
    ensures Inv(z, files0, Next(z, s, DeleteFile))
  {
  }

  lemma StepInv(z: Snapshot, files0: set<BlobId>, s: State, step: Step)
    requires Inv(z, files0, s) && Enabled(z, s, step)
    ensures Inv(z, files0, Next(z, s, step))
  {
    match step
    case Look(id) => LookInv(z, files0, s, id);
    case Sort(order, usage) => SortInv(z, files0, s, order, usage);
    case Evict(charge) => EvictInv(z, files0, s, charge);
    case DeleteFile => DeleteInv(z, files0, s);
    case _ =>
  }

  lemma {:induction false} RunInv(z: Snapshot, run: seq<State>, steps: seq<Step>, i: nat)
    requires IsRun(z, run, steps) && i < |run|
    ensures Inv(z, run[0].files, run[i])
  {
    if i > 0 {
      RunInv(z, run, steps, i - 1);
      assert StepAt(z, run, steps, i - 1);
      StepInv(z, run[0].files, run[i - 1], steps[i - 1]);
    }
  }

  // ---- the theorems ----

  /** Whatever happens during the pass, a blob pinned when it began keeps its bytes. */
  lemma PinnedBytesSurvive(z: Snapshot, run: seq<State>, steps: seq<Step>, i: nat, id: BlobId)
    requires IsRun(z, run, steps) && i < |run| && id in z.pins
    ensures id !in run[i].deleted
    ensures id in run[0].files ==> id in run[i].files
  {
    RunInv(z, run, steps, i);
  }

  /** So does its record. */
  lemma {:induction false} PinnedRecordSurvives(z: Snapshot, run: seq<State>, steps: seq<Step>, i: nat, id: BlobId)
    requires IsRun(z, run, steps) && i < |run| && id in z.pins && id in z.entries
    ensures id in run[i].meta
  {
    if i > 0 {
      PinnedRecordSurvives(z, run, steps, i - 1, id);
      RunInv(z, run, steps, i - 1);
      assert StepAt(z, run, steps, i - 1);
    }
  }

  /** The first pass is over and no call is outstanding. */
  predicate Rests(s: State) {
    s.left == {} && s.pc == Choose
  }

  /** A blob that was there when the pass began has its file deleted if and only if, in the
      snapshot, it was recorded, unpinned and overdue, or it was squeezed out: a clip that
      is queued or a GET that is served meanwhile comes too late. */
  lemma DeletedIff(z: Snapshot, run: seq<State>, steps: seq<Step>, i: nat, id: BlobId)
    requires IsRun(z, run, steps) && i < |run| && Rests(run[i]) && id in run[0].files
    ensures run[i].n <= |run[i].order|
    ensures id in run[i].deleted <==>
      || (id in z.entries && id !in z.pins && z.ttl > 0 && z.now - z.entries[id].lastAccess > z.ttl)
      || id in run[i].order[..run[i].n]
  {
    RunInv(z, run, steps, i);
  }

  lemma {:induction false} OrderKept(z: Snapshot, run: seq<State>, steps: seq<Step>, i: nat)
    requires IsRun(z, run, steps) && i < |run|
    ensures forall x :: x in run[i].order ==> x in z.entries
    ensures ByAccess(run[i].order, z.entries)
  {
    if i > 0 {
      OrderKept(z, run, steps, i - 1);
      assert StepAt(z, run, steps, i - 1);
    }
  }

  lemma {:induction false} NoCapNoOrder(z: Snapshot, run: seq<State>, steps: seq<Step>, i: nat)
    requires IsRun(z, run, steps) && i < |run| && z.cap <= 0
    ensures run[i].order == []
  {
    if i > 0 {
      NoCapNoOrder(z, run, steps, i - 1);
      assert StepAt(z, run, steps, i - 1);
    }
  }

  /** Without a cap the snapshot alone decides. */
  lemma DeletedIffCondemned(z: Snapshot, run: seq<State>, steps: seq<Step>, i: nat, id: BlobId)
    requires IsRun(z, run, steps) && i < |run| && Rests(run[i]) && id in run[0].files && z.cap <= 0
    ensures id in run[i].deleted <==>
      id in z.entries && id !in z.pins && z.ttl > 0 && z.now - z.entries[id].lastAccess > z.ttl
  {
    NoCapNoOrder(z, run, steps, i);
    DeletedIff(z, run, steps, i, id);
  }

  lemma Extend(z: Snapshot, run: seq<State>, steps: seq<Step>, step: Step) returns (run': seq<State>, steps': seq<Step>)
    requires IsRun(z, run, steps) && Enabled(z, run[|steps|], step)
    ensures IsRun(z, run', steps') && steps' == steps + [step] && run' == run + [Next(z, run[|steps|], step)]
  {
    run', steps' := run + [Next(z, run[|steps|], step)], steps + [step];
    forall i | 0 <= i < |steps'| ensures StepAt(z, run', steps', i) {
      if i < |steps| {
        assert StepAt(z, run, steps, i);
        assert run'[i] == run[i] && run'[i + 1] == run[i + 1] && steps'[i] == steps[i];
      }
    }
  }

  /** A pass begins over one record, long untouched and with nothing to pin it. */
  function OneOld(id: BlobId): Snapshot {
    Snapshot({}, map[id := BLANK], 2, 1, 0)
  }

  function Begun(z: Snapshot, files: set<BlobId>): State {
    State(files, z.entries, z.pins, z.entries.Keys, {}, [], 0, 0, Choose, {})
  }

  /** A clip that is queued right after the pass has begun does not save its blob. */
  lemma LateQueueLosesBytes(id: BlobId) returns (run: seq<State>, steps: seq<Step>)
    ensures IsRun(OneOld(id), run, steps) && |run| == 5
    ensures steps == [Requeue({id}), Look(id), DeleteFile, DeleteRecord]
    ensures id in run[0].files && id in run[1].queued && id in run[4].queued
    ensures Rests(run[4]) && id !in run[4].files && id !in run[4].meta
  {
    var z := OneOld(id);
    run, steps := Extend(z, [Begun(z, {id})], [], Requeue({id}));
    run, steps := Extend(z, run, steps, Look(id));
    run, steps := Extend(z, run, steps, DeleteFile);
    run, steps := Extend(z, run, steps, DeleteRecord);
  }

  // ---- files without a record ----

  /** Step `k` is the collector's deletion of the blob's record, or of its file. */
  ghost predicate DropsRecord(run: seq<State>, steps: seq<Step>, k: int, id: BlobId)
    requires |run| == |steps| + 1 && 0 <= k < |steps|
  {
    steps[k] == DeleteRecord && run[k].pc == Record(id)
  }

  ghost predicate DropsFile(run: seq<State>, steps: seq<Step>, k: int, id: BlobId)
    requires |run| == |steps| + 1 && 0 <= k < |steps|
  {
    steps[k] == DeleteFile && run[k].pc == File(id)
  }

  predicate WritesRecord(step: Step, id: BlobId) {
    (step.Touch? && step.id == id) || (step.WriteAcl? && step.id == id)
  }

  /** The record was deleted at step `j` and not written again before step `i`. */
  ghost predicate DroppedAt(run: seq<State>, steps: seq<Step>, i: nat, j: int, id: BlobId)
    requires |run| == |steps| + 1 && i <= |steps|
  {
    0 <= j < i && DropsRecord(run, steps, j, id) && forall k :: j < k < i ==> !WritesRecord(steps[k], id)
  }

  /** The file was stored at step `m`, or was there from the beginning (`m` is -1), and not
      deleted before step `i`. */
  ghost predicate KeptSince(run: seq<State>, steps: seq<Step>, i: nat, m: int, id: BlobId)
    requires |run| == |steps| + 1 && i <= |steps|
  {
    && -1 <= m < i && (if m == -1 then id in run[0].files else steps[m] == Store(id))
    && forall k :: m < k < i ==> !DropsFile(run, steps, k, id)
  }

  lemma {:induction false} RecordGoneIff(z: Snapshot, run: seq<State>, steps: seq<Step>, i: nat, id: BlobId)
    requires IsRun(z, run, steps) && i < |run| && id in z.entries
    ensures id !in run[i].meta <==> exists j :: DroppedAt(run, steps, i, j, id)
  {
    if i > 0 {
      RecordGoneIff(z, run, steps, i - 1, id);
      assert StepAt(z, run, steps, i - 1);
      if id !in run[i].meta {
        if id !in run[i - 1].meta {
          var j :| DroppedAt(run, steps, i - 1, j, id);
          assert DroppedAt(run, steps, i, j, id);
        } else {
          assert DroppedAt(run, steps, i, i - 1, id);
        }
      }
      if j :| DroppedAt(run, steps, i, j, id) {
        assert j < i - 1 ==> DroppedAt(run, steps, i - 1, j, id) && !WritesRecord(steps[i - 1], id);
      }
    }
  }

  lemma {:induction false} FileThereIff(z: Snapshot, run: seq<State>, steps: seq<Step>, i: nat, id: BlobId)
    requires IsRun(z, run, steps) && i < |run|
    ensures id in run[i].files <==> exists m :: KeptSince(run, steps, i, m, id)
  {
    if i == 0 {
      assert id in run[0].files ==> KeptSince(run, steps, 0, -1, id);
    } else {
      FileThereIff(z, run, steps, i - 1, id);
      assert StepAt(z, run, steps, i - 1);
      if id in run[i].files {
        if steps[i - 1] == Store(id) {
          assert KeptSince(run, steps, i, i - 1, id);
        } else {
          var m :| KeptSince(run, steps, i - 1, m, id);
          assert KeptSince(run, steps, i, m, id);
        }
      }
      if m :| KeptSince(run, steps, i, m, id) {
        assert m < i - 1 ==> KeptSince(run, steps, i - 1, m, id) && !DropsFile(run, steps, i - 1, id);
      }
    }
  }

  /** A file recorded when the pass began is left without a record, so that no later pass
      looks at it, if and only if the collector deleted the record and nobody wrote it
      again, while the file was stored, or there from the beginning, and not deleted since. */
  lemma OrphanIff(z: Snapshot, run: seq<State>, steps: seq<Step>, i: nat, id: BlobId)
    requires IsRun(z, run, steps) && i < |run| && id in z.entries
    ensures id in run[i].files && id !in run[i].meta <==>
      (exists j :: DroppedAt(run, steps, i, j, id)) && (exists m :: KeptSince(run, steps, i, m, id))
  {
    RecordGoneIff(z, run, steps, i, id);
    FileThereIff(z, run, steps, i, id);
  }

  /** Between the failed lookup (or the deletion of the file) at step `a` and step `j` the
      collector's next call is the deletion of the record. */
  lemma {:induction false} RecordPending(z: Snapshot, run: seq<State>, steps: seq<Step>, j: nat, id: BlobId)
    returns (a: nat)
    requires IsRun(z, run, steps) && j < |run| && run[j].pc == Record(id)
    ensures a < j && (steps[a] == Look(id) || DropsFile(run, steps, a, id)) && id !in run[a + 1].files
  {
    if j > 0 {
      assert StepAt(z, run, steps, j - 1);
      if run[j - 1].pc == Record(id) {
        a := RecordPending(z, run, steps, j - 1, id);
      } else {
        a := j - 1;
      }
    } else {
      assert false;
    }
  }

  lemma {:induction false} StoredMeanwhile(z: Snapshot, run: seq<State>, steps: seq<Step>, a: nat, i: nat, id: BlobId)
    returns (m: nat)
    requires IsRun(z, run, steps) && a <= i < |run| && id !in run[a].files && id in run[i].files
    ensures a <= m < i && steps[m] == Store(id)
    decreases i - a
  {
    assert StepAt(z, run, steps, i - 1);
    if id in run[i - 1].files {
      m := StoredMeanwhile(z, run, steps, a, i - 1, id);
    } else {
      m := i - 1;
    }
  }

  /** Every PUT of the blob that stored it has also touched its record. */
  ghost predicate PutsComplete(steps: seq<Step>, i: nat, id: BlobId)
    requires i <= |steps|
  {
    forall m :: 0 <= m < i && steps[m] == Store(id) ==> exists t :: m < t < i && steps[t].Touch? && steps[t].id == id
  }

  /** It takes a whole PUT, storing and touching, between the collector's lookup (or its
      deletion of the file) and its deletion of the record. */
  lemma OrphanNeedsPut(z: Snapshot, run: seq<State>, steps: seq<Step>, i: nat, id: BlobId)
    returns (a: nat, m: nat, t: nat, j: nat)
    requires IsRun(z, run, steps) && i < |run| && id in z.entries && PutsComplete(steps, i, id)
    requires id in run[i].files && id !in run[i].meta
    ensures a < m < t < j < i
    ensures (steps[a] == Look(id) || DropsFile(run, steps, a, id)) && id !in run[a + 1].files
    ensures steps[m] == Store(id) && steps[t].Touch? && steps[t].id == id
    ensures DroppedAt(run, steps, i, j, id)
  {
    RecordGoneIff(z, run, steps, i, id);
    var last :| DroppedAt(run, steps, i, last, id);
    j := last;
    a := RecordPending(z, run, steps, j, id);
    m := StoredMeanwhile(z, run, steps, a + 1, i, id);
    var touched :| m < touched < i && steps[touched].Touch? && steps[touched].id == id;
    t := touched;
    assert !(j < t) by { assert WritesRecord(steps[t], id); }
    assert t != j by { assert steps[j] == DeleteRecord; }
  }

  /** A PUT that falls between the failed lookup and the deletion of the record. */
  lemma LatePutIsOrphaned(id: BlobId, now: int) returns (run: seq<State>, steps: seq<Step>)
    ensures IsRun(OneOld(id), run, steps) && |run| == 5
    ensures steps == [Look(id), Store(id), Touch(id, now, 1, ""), DeleteRecord]
    ensures Rests(run[4]) && id in run[4].files && id !in run[4].meta
  {
    var z := OneOld(id);
    run, steps := Extend(z, [Begun(z, {})], [], Look(id));
    run, steps := Extend(z, run, steps, Store(id));
    run, steps := Extend(z, run, steps, Touch(id, now, 1, ""));
    run, steps := Extend(z, run, steps, DeleteRecord);
  }

  // ---- the second pass ----

  /** What is squeezed out was unpinned and, going by the snapshot, accessed no later than
      anything in the order that is not. */
  lemma SqueezedLeastRecent(z: Snapshot, run: seq<State>, steps: seq<Step>, i: nat, x: BlobId, y: BlobId)
    requires IsRun(z, run, steps) && i < |run|
    requires Squeezed(run[i], x) && y in run[i].order && !Squeezed(run[i], y)
    ensures x in z.entries && x !in z.pins && y in z.entries
    ensures z.entries[x].lastAccess <= z.entries[y].lastAccess
  {
    RunInv(z, run, steps, i);
    OrderKept(z, run, steps, i);
    var s := run[i];
    var a :| 0 <= a < s.n && s.order[..s.n][a] == x;
    var b :| 0 <= b < |s.order| && s.order[b] == y;
    assert forall j :: 0 <= j < s.n ==> s.order[..s.n][j] == s.order[j];
    assert x in s.order;
  }
}
