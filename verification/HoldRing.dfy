/** The bounded ring of blobs the desktop engine has advertised but not yet uploaded
    (clients/desktop/core/src/engine.rs, hold_on_demand and the Serve result). */
module HoldRing {

  import opened Model

  /** Holds are keyed by blob id. */
  type Key = BlobId

  const MAX_HOLDS := 64

  /** `holds` maps a blob to its payload, `order` lists the keys by first insertion. */
  datatype Ring<H> = Ring(holds: map<Key, H>, order: seq<Key>)

  /** Insert or replace a hold; a new key may push the oldest one out. */
  function Hold<H>(r: Ring<H>, key: Key, hold: H): Ring<H> {
    if key in r.holds then r.(holds := r.holds[key := hold])
    else
      var order := r.order + [key];
      Ring(r.holds[key := hold] - (set k | k in order[..Extra(order)]), order[Extra(order)..])
  }

  function Retain(order: seq<Key>, key: Key): seq<Key> {
    if order == [] then [] else (if order[0] == key then [] else [order[0]]) + Retain(order[1..], key)
  }

  /** A served hold is dropped. */
  function Served<H>(r: Ring<H>, key: Key): Ring<H> {
    if key in r.holds then Ring(r.holds - {key}, Retain(r.order, key)) else r
  }

  ghost predicate Valid<H>(r: Ring<H>) {
    && (forall k :: k in r.holds <==> k in r.order)
    && Distinct(r.order)
    && |r.order| <= MAX_HOLDS
  }

  ghost predicate Distinct(order: seq<Key>) {
    forall i, j :: 0 <= i < j < |order| ==> order[i] != order[j]
  }

  /** The keys listed after `key`. */
  ghost function Tail(order: seq<Key>, key: Key): seq<Key> {
    if order == [] then [] else if order[0] == key then order[1..] else Tail(order[1..], key)
  }

  lemma {:induction false} RetainKeys(order: seq<Key>, key: Key)
    ensures forall k :: k in Retain(order, key) <==> k in order && k != key
    ensures |Retain(order, key)| <= |order|
  {
    if order != [] {
      RetainKeys(order[1..], key);
      assert order == [order[0]] + order[1..];
    }
  }

  lemma Prepended(x: Key, order: seq<Key>)
    requires Distinct(order) && x !in order
    ensures Distinct([x] + order)
  {
  }

  lemma {:induction false} RetainDistinct(order: seq<Key>, key: Key)
    requires Distinct(order)
    ensures Distinct(Retain(order, key))
  {
    if order != [] {
      RetainDistinct(order[1..], key);
      RetainKeys(order[1..], key);
      if order[0] != key {
        assert order[0] !in order[1..];
        Prepended(order[0], Retain(order[1..], key));
      }
    }
  }

  /** Removing another key adds nothing behind `x`. */
  lemma {:induction false} RetainTail(order: seq<Key>, key: Key, x: Key, k: Key)
    requires x in order && x != key && k in Tail(Retain(order, key), x)
    ensures k in Tail(order, x)
  {
    var rest := order[1..];
    assert order == [order[0]] + rest;
    if order[0] == key {
      assert Retain(order, key) == Retain(rest, key);
      RetainTail(rest, key, x, k);
    } else {
      assert Retain(order, key) == [order[0]] + Retain(rest, key);
      assert Retain(order, key)[1..] == Retain(rest, key);
      if order[0] == x {
        RetainKeys(rest, key);
      } else {
        RetainTail(rest, key, x, k);
      }
    }
  }

  lemma {:induction false} TailAppend(order: seq<Key>, x: Key, key: Key)
    requires x in order
    ensures Tail(order + [key], x) == Tail(order, x) + [key]
  {
    assert order == [order[0]] + order[1..];
    assert (order + [key])[1..] == order[1..] + [key];
    if order[0] != x {
      TailAppend(order[1..], x, key);
    }
  }

  /** Dropping other keys from the front leaves what is behind `x`. */
  lemma TailDropFirst(order: seq<Key>, x: Key)
    requires order != [] && order[0] != x
    ensures Tail(order[1..], x) == Tail(order, x)
  {
  }

  /** Distinct keys of a list are at least as many in any set that holds them. */
  lemma {:induction false} AtLeast(order: seq<Key>, s: set<Key>)
    requires Distinct(order) && forall k :: k in order ==> k in s
    ensures |order| <= |s|
  {
    if order != [] {
      assert order[0] in s;
      var rest := order[1..];
      forall k | k in rest ensures k in s - {order[0]} {
      }
      AtLeast(rest, s - {order[0]});
    }
  }

  // ---- the ring stays well formed ----

  function Extra(order: seq<Key>): nat {
    if |order| > MAX_HOLDS then |order| - MAX_HOLDS else 0
  }

  lemma HoldHolds<H>(r: Ring<H>, key: Key, hold: H)
    requires Valid(r) && key !in r.holds
    ensures Hold(r, key, hold) ==
      if |r.order| == MAX_HOLDS then Ring(r.holds[key := hold] - {r.order[0]}, r.order[1..] + [key])
      else Ring(r.holds[key := hold], r.order + [key])
  {
    var order := r.order + [key];
    if |r.order| == MAX_HOLDS {
      assert order[..1] == [r.order[0]] && order[1..] == r.order[1..] + [key];
      assert (set k | k in [r.order[0]]) == {r.order[0]};
    } else {
      assert order[..0] == [];
      var none := set k: Key | k in order[..0];
      assert none == {};
    }
  }

  lemma Appended<H>(r: Ring<H>, key: Key, hold: H)
    requires Valid(r) && key !in r.holds && |r.order| < MAX_HOLDS
    ensures Valid(Ring(r.holds[key := hold], r.order + [key]))
  {
    assert key !in r.order;
  }

  lemma Popped<H>(r: Ring<H>)
    requires Valid(r) && r.order != []
    ensures Valid(Ring(r.holds - {r.order[0]}, r.order[1..]))
  {
    assert r.order == [r.order[0]] + r.order[1..];
    assert r.order[0] !in r.order[1..];
  }

  lemma HoldValid<H>(r: Ring<H>, key: Key, hold: H)
    requires Valid(r)
    ensures Valid(Hold(r, key, hold)) && key in Hold(r, key, hold).holds
    ensures key !in r.holds ==>
      Hold(r, key, hold).order == if |r.order| == MAX_HOLDS then r.order[1..] + [key] else r.order + [key]
  {
    if key !in r.holds {
      HoldHolds(r, key, hold);
      if |r.order| == MAX_HOLDS {
        Popped(r);
        Appended(Ring(r.holds - {r.order[0]}, r.order[1..]), key, hold);
        assert r.holds[key := hold] - {r.order[0]} == (r.holds - {r.order[0]})[key := hold] by {
          assert r.order[0] != key;
        }
      } else {
        Appended(r, key, hold);
      }
    }
  }

  lemma ServedValid<H>(r: Ring<H>, key: Key)
    requires Valid(r)
    ensures Valid(Served(r, key))
  {
    RetainKeys(r.order, key);
    RetainDistinct(r.order, key);
  }

  // ---- runs ----

  datatype Step<H> = HoldStep(key: Key, hold: H) | ServeStep(key: Key)

  function Next<H>(r: Ring<H>, step: Step<H>): Ring<H> {
    match step
    case HoldStep(key, hold) => Hold(r, key, hold)
    case ServeStep(key) => Served(r, key)
  }

  /** Step `i` of the run. */
  ghost predicate StepAt<H>(run: seq<Ring<H>>, steps: seq<Step<H>>, i: int)
    requires |run| == |steps| + 1 && 0 <= i < |steps|
  {
    run[i + 1] == Next(run[i], steps[i])
  }

  ghost predicate IsRun<H>(run: seq<Ring<H>>, steps: seq<Step<H>>) {
    && |run| == |steps| + 1
    && run[0] == Ring(map[], [])
    && (forall i :: 0 <= i < |steps| ==> StepAt(run, steps, i))
  }

  /** In every run the map's keys are the listed keys, without duplicates, at most 64. */
  lemma {:induction false} RingValid<H>(run: seq<Ring<H>>, steps: seq<Step<H>>, i: nat)
    requires IsRun(run, steps) && i < |run|
    ensures Valid(run[i])
    ensures |run[i].order| <= 64
  {
    if i > 0 {
      RingValid(run, steps, i - 1);
      assert StepAt(run, steps, i - 1);
      match steps[i - 1]
      case HoldStep(key, hold) => HoldValid(run[i - 1], key, hold);
      case ServeStep(key) => ServedValid(run[i - 1], key);
    }
  }

  /** Step `t` inserts a key that was not held. */
  ghost predicate Inserts<H>(run: seq<Ring<H>>, steps: seq<Step<H>>, t: nat, key: Key)
    requires |run| == |steps| + 1 && t < |steps|
  {
    steps[t].HoldStep? && steps[t].key == key && key !in run[t].holds
  }

  /** The keys other than `key` newly inserted in the steps from `a` up to `b`. */
  ghost function Newcomers<H>(run: seq<Ring<H>>, steps: seq<Step<H>>, a: nat, b: nat, key: Key): set<Key>
    requires |run| == |steps| + 1 && b <= |steps|
  {
    set t | a <= t < b && steps[t].HoldStep? && Inserts(run, steps, t, steps[t].key) && steps[t].key != key
      :: steps[t].key
  }

  ghost predicate Safe<H>(r: Ring<H>, key: Key, newcomers: set<Key>) {
    key in r.holds && forall k :: k in Tail(r.order, key) ==> k in newcomers
  }

  /** The newest 64 keys are all newcomers if the oldest of them was pushed out. */
  lemma PushedOut(order: seq<Key>, key: Key, x: Key, after: set<Key>)
    requires Distinct(order + [x]) && |order| == MAX_HOLDS && order[0] == key && x in after
    requires forall k :: k in Tail(order, key) ==> k in after
    ensures |after| >= MAX_HOLDS
  {
    var rest := order[1..] + [x];
    assert rest == (order + [x])[1..];
    AtLeast(rest, after);
  }

  lemma StillBehind(order: seq<Key>, key: Key, x: Key, after: set<Key>)
    requires key in order && x in after && forall k :: k in Tail(order, key) ==> k in after
    ensures forall k :: k in Tail(order + [x], key) ==> k in after
    ensures order[0] != key ==> forall k :: k in Tail(order[1..] + [x], key) ==> k in after
  {
    TailAppend(order, key, x);
    if order[0] != key {
      assert (order + [x])[1..] == order[1..] + [x];
      TailDropFirst(order + [x], key);
    }
  }

  lemma HoldBehind<H>(r: Ring<H>, x: Key, hold: H, key: Key, after: set<Key>)
    requires Valid(r) && Safe(r, key, after) && x !in r.holds && x in after
    requires !(|r.order| == MAX_HOLDS && r.order[0] == key)
    ensures Safe(Hold(r, x, hold), key, after)
  {
    HoldHolds(r, x, hold);
    StillBehind(r.order, key, x, after);
  }

  lemma HoldKeepsSafe<H>(r: Ring<H>, x: Key, hold: H, key: Key, before: set<Key>, after: set<Key>)
    requires Valid(r) && Safe(r, key, before) && before <= after && (x !in r.holds ==> x in after)
    ensures Safe(Hold(r, x, hold), key, after) || |after| >= MAX_HOLDS
  {
    assert Safe(r, key, after);
    if x !in r.holds {
      if |r.order| == MAX_HOLDS && r.order[0] == key {
        assert x !in r.order;
        PushedOut(r.order, key, x, after);
      } else {
        HoldBehind(r, x, hold, key, after);
      }
    }
  }

  lemma ServeKeepsSafe<H>(r: Ring<H>, x: Key, key: Key, newcomers: set<Key>)
    requires Valid(r) && Safe(r, key, newcomers) && x != key
    ensures Safe(Served(r, x), key, newcomers)
  {
    if x in r.holds {
      forall k | k in Tail(Retain(r.order, x), key) ensures k in newcomers {
        RetainTail(r.order, x, key, k);
      }
    }
  }

  lemma {:induction false} SafeUntilPushedOut<H>(run: seq<Ring<H>>, steps: seq<Step<H>>, i: nat, j: nat, key: Key)
    requires IsRun(run, steps) && i < j < |run| && Inserts(run, steps, i, key)
    requires forall t :: i < t < j ==> steps[t] != ServeStep(key)
    ensures var after := Newcomers(run, steps, i + 1, j, key);
      Safe(run[j], key, after) || |after| >= MAX_HOLDS
  {
    if j == i + 1 {
      JustInserted(run, steps, i, key);
    } else {
      SafeUntilPushedOut(run, steps, i, j - 1, key);
      StillSafe(run, steps, i, j, key);
    }
  }

  lemma JustInserted<H>(run: seq<Ring<H>>, steps: seq<Step<H>>, i: nat, key: Key)
    requires IsRun(run, steps) && i < |steps| && Inserts(run, steps, i, key)
    ensures Safe(run[i + 1], key, {})
  {
    RingValid(run, steps, i);
    assert StepAt(run, steps, i);
    HoldValid(run[i], key, steps[i].hold);
    LastHasNoTail(run[i + 1].order, key);
  }

  lemma StillSafe<H>(run: seq<Ring<H>>, steps: seq<Step<H>>, i: nat, j: nat, key: Key)
    requires IsRun(run, steps) && i + 1 < j < |run| && steps[j - 1] != ServeStep(key)
    requires var before := Newcomers(run, steps, i + 1, j - 1, key);
      Safe(run[j - 1], key, before) || |before| >= MAX_HOLDS
    ensures var after := Newcomers(run, steps, i + 1, j, key);
      Safe(run[j], key, after) || |after| >= MAX_HOLDS
  {
    var before, after := Newcomers(run, steps, i + 1, j - 1, key), Newcomers(run, steps, i + 1, j, key);
    assert before <= after;
    MoreKeys(before, after);
    if |before| < MAX_HOLDS {
      RingValid(run, steps, j - 1);
      assert StepAt(run, steps, j - 1);
      match steps[j - 1]
      case HoldStep(x, hold) =>
        assert x !in run[j - 1].holds ==> Inserts(run, steps, j - 1, x) && x in after;
        HoldKeepsSafe(run[j - 1], x, hold, key, before, after);
      case ServeStep(x) =>
        ServeKeepsSafe(run[j - 1], x, key, before);
    }
  }

  lemma MoreKeys(a: set<Key>, b: set<Key>)
    requires a <= b
    ensures |a| <= |b|
  {
    assert b == a + (b - a);
  }

  lemma {:induction false} LastHasNoTail(order: seq<Key>, key: Key)
    requires Distinct(order) && order != [] && order[|order| - 1] == key
    ensures Tail(order, key) == []
  {
    assert order == [order[0]] + order[1..];
    if |order| > 1 {
      assert order[0] != key;
      LastHasNoTail(order[1..], key);
    }
  }

  /** A held blob disappears only by being served, or after 64 other keys were newly
      inserted after it. */
  lemma DisappearsOnlyIfServedOrPushedOut<H>(run: seq<Ring<H>>, steps: seq<Step<H>>, i: nat, j: nat, key: Key)
    requires IsRun(run, steps) && i < j < |run| && Inserts(run, steps, i, key) && key !in run[j].holds
    ensures
      || (exists t :: i < t < j && steps[t] == ServeStep(key))
      || |Newcomers(run, steps, i + 1, j, key)| >= 64
  {
    if forall t :: i < t < j ==> steps[t] != ServeStep(key) {
      SafeUntilPushedOut(run, steps, i, j, key);
    }
  }

  // ---- the ring as the engine keeps it; HoldValid and ServedValid keep it well formed ----

  class Holds<H> {
    var holds: map<Key, H>
    var order: seq<Key>

    ghost function View(): Ring<H>
      reads this
    {
      Ring(holds, order)
    }

    method HoldOnDemand(key: Key, hold: H)
      requires Valid(View())
      modifies this
      ensures View() == Hold(old(View()), key, hold)
      ensures key in holds && holds[key] == hold
      ensures key in old(holds) ==> order == old(order) && holds == old(holds)[key := hold]
      ensures key !in old(holds) && |old(order)| < 64 ==>
        order == old(order) + [key] && holds == old(holds)[key := hold]
      ensures key !in old(holds) && |old(order)| == 64 ==>
        order == old(order)[1..] + [key] && holds == old(holds)[key := hold] - {old(order)[0]}
    {
      ghost var was := View();
      if key in holds {
        holds := holds[key := hold];
        return;
      }
      HoldHolds(was, key, hold);
      holds := holds[key := hold];
      order := order + [key];
      while |order| > MAX_HOLDS
        invariant |order| > MAX_HOLDS ==>
          |was.order| == MAX_HOLDS && order == was.order + [key] && holds == was.holds[key := hold]
        invariant |order| <= MAX_HOLDS ==> Ring(holds, order) == Hold(was, key, hold)
      {
        var oldest := order[0];
        assert order[1..] == was.order[1..] + [key];
        order := order[1..];
        holds := holds - {oldest};
      }
    }

    method DropServed(key: Key)
      modifies this
      ensures View() == Served(old(View()), key)
      ensures key !in old(holds) ==> View() == old(View())
      ensures key in old(holds) ==> holds == old(holds) - {key}
      ensures key in old(holds) ==> forall k :: k in order <==> k in old(order) && k != key
    {
      RetainKeys(order, key);
      if key in holds {
        holds := holds - {key};
        order := Retain(order, key);
      }
    }
  }
}
