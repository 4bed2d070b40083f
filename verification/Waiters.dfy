/** The table of GETs that block until a matching PUT arrives
    (server/internal/httpapi/blob.go, blobWaiters), and the pull protocol around it. */
module Waiters {
  import opened Model

  /** `s` without its first `x`. */
  function Dropped<T(==)>(s: seq<T>, x: T): seq<T> {
    if s == [] then [] else if s[0] == x then s[1..] else [s[0]] + Dropped(s[1..], x)
  }

  function ListOf<T>(table: map<BlobId, seq<T>>, id: BlobId): seq<T> {
    if id in table then table[id] else []
  }

  function WithAdded<T>(table: map<BlobId, seq<T>>, id: BlobId, x: T): map<BlobId, seq<T>> {
    table[id := ListOf(table, id) + [x]]
  }

  function WithRemoved<T(==)>(table: map<BlobId, seq<T>>, id: BlobId, x: T): map<BlobId, seq<T>> {
    var w := Dropped(ListOf(table, id), x);
    if |w| == 0 then table - {id} else table[id := w]
  }

  ghost predicate NoDuplicates<T>(s: seq<T>) {
    forall i, j :: 0 <= i < j < |s| ==> s[i] != s[j]
  }

  lemma {:induction false} DroppedElements<T>(s: seq<T>, x: T)
    requires NoDuplicates(s)
    ensures NoDuplicates(Dropped(s, x)) && x !in Dropped(s, x)
    ensures forall y :: y in Dropped(s, x) <==> y in s && y != x
  {
    if s != [] {
      assert s == [s[0]] + s[1..];
      if s[0] != x {
        DroppedElements(s[1..], x);
        var r := Dropped(s[1..], x);
        assert Dropped(s, x) == [s[0]] + r;
        assert s[0] !in r;
        assert forall i :: 0 < i <= |r| ==> Dropped(s, x)[i] == r[i - 1] && r[i - 1] in r;
      }
    }
  }

  /** One turn of the search for `x`. */
  lemma SkipOne<T>(s: seq<T>, i: nat, x: T)
    requires i < |s|
    ensures s[..i] + Dropped(s[i..], x) ==
      if s[i] == x then s[..i] + s[i + 1..] else s[..i + 1] + Dropped(s[i + 1..], x)
  {
    assert s[i..][1..] == s[i + 1..];
    assert s[i] != x ==> s[..i] + ([s[i]] + Dropped(s[i + 1..], x)) == s[..i + 1] + Dropped(s[i + 1..], x);
  }

  // ---- the table as the program keeps it ----

  /** A channel nobody sends on; closing it twice would panic. */
  class Channel {
    var closed: bool

    constructor ()
      ensures !closed
    {
      closed := false;
    }

    method Close()
      requires !closed
      modifies this
      ensures closed
    {
      closed := true;
    }
  }

  class BlobWaiters {
    var table: map<BlobId, seq<Channel>>

    /** Listed channels are open, and no channel is listed twice anywhere. */
    ghost predicate Valid()
      reads this, set id, ch | id in table && ch in table[id] :: ch
    {
      && (forall id, ch :: id in table && ch in table[id] ==> !ch.closed)
      && (forall id :: id in table ==> NoDuplicates(table[id]))
      && (forall id, id', ch :: id in table && id' in table && ch in table[id] && ch in table[id'] ==> id == id')
    }

    constructor ()
      ensures Valid() && table == map[]
    {
      table := map[];
    }

    method Add(id: BlobId) returns (ch: Channel)
      requires Valid()
      modifies this
      ensures Valid() && fresh(ch) && !ch.closed
      ensures table == WithAdded(old(table), id, ch)
      ensures id in table && table[id] == (if id in old(table) then old(table)[id] else []) + [ch]
      ensures forall x :: x != id ==> (x in table <==> x in old(table)) && (x in table ==> table[x] == old(table)[x])
    {
      ch := new Channel();
      table := table[id := ListOf(table, id) + [ch]];
    }

    method Remove(id: BlobId, ch: Channel)
      requires Valid()
      modifies this
      ensures Valid()
      ensures table == WithRemoved(old(table), id, ch)
      ensures forall x, c :: x in table && c in table[x] <==>
        x in old(table) && c in old(table)[x] && !(x == id && c == ch)
      ensures id in table ==> table[id] != []
    {
      var w := Cut(ListOf(table, id), ch);
      DroppedElements(ListOf(table, id), ch);
      table := if |w| == 0 then table - {id} else table[id := w];
    }

    method Cut(list: seq<Channel>, ch: Channel) returns (w: seq<Channel>)
      ensures w == Dropped(list, ch)
    {
      w := list;
      var i := 0;
      while i < |w|
        invariant 0 <= i <= |w| && w == list && w[..i] + Dropped(w[i..], ch) == Dropped(list, ch)
      {
        SkipOne(w, i, ch);
        if w[i] == ch {
          w := w[..i] + w[i + 1..];
          return;
        }
        i := i + 1;
      }
    }

    /** Close every channel listed for the blob, each exactly once. */
    method Signal(id: BlobId)
      requires Valid()
      modifies this, ListOf(table, id)
      ensures Valid()
      ensures table == old(table) - {id}
      ensures forall ch :: ch in ListOf(old(table), id) ==> ch.closed
    {
      var w := ListOf(table, id);
      for i := 0 to |w|
        invariant table == old(table)
        invariant forall j :: 0 <= j < i ==> w[j].closed
        invariant forall j :: i <= j < |w| ==> !w[j].closed
        invariant forall x, ch :: x in table && x != id && ch in table[x] ==> !ch.closed
      {
        w[i].Close();
      }
      table := table - {id};
    }
  }
}
