/** Eight-byte big-endian keys (server/internal/store/queue.go, itob) and the byte
    order in which bbolt iterates over a bucket. */
module Keys {
  import opened Model

  type Key = seq<Byte>

  const MAX_SEQUENCE: nat := 0xFFFF_FFFF_FFFF_FFFF

  function Pow256(n: nat): nat {
    if n == 0 then 1 else 256 * Pow256(n - 1)
  }

  /** The `n` low-order bytes of `v`, most significant first. */
  function BigEndian(v: nat, n: nat): (k: Key)
    ensures |k| == n
  {
    if n == 0 then [] else BigEndian(v / 256, n - 1) + [v % 256]
  }

  function Itob(v: nat): (k: Key)
    ensures |k| == 8
  {
    BigEndian(v, 8)
  }

  function Value(k: Key): nat {
    if k == [] then 0 else 256 * Value(k[..|k| - 1]) + k[|k| - 1]
  }

  /** Byte-wise lexicographic order. */
  predicate Below(a: Key, b: Key) {
    if a == [] then b != []
    else b != [] && (a[0] < b[0] || (a[0] == b[0] && Below(a[1..], b[1..])))
  }

  lemma {:induction false} BelowTotal(a: Key, b: Key)
    ensures a == b || Below(a, b) || Below(b, a)
    ensures !(Below(a, b) && Below(b, a)) && !Below(a, a)
  {
    if a != [] && b != [] {
      BelowTotal(a[1..], b[1..]);
      assert a == [a[0]] + a[1..] && b == [b[0]] + b[1..];
    }
    if a != [] {
      BelowTotal(a[1..], a[1..]);
    }
  }

  lemma {:induction false} BelowTransitive(a: Key, b: Key, c: Key)
    requires Below(a, b) && Below(b, c)
    ensures Below(a, c)
  {
    if a != [] && a[0] == b[0] && b[0] == c[0] {
      BelowTransitive(a[1..], b[1..], c[1..]);
    }
  }

  /** Keys of equal length compare first by all but their last byte. */
  lemma {:induction false} BelowSnoc(a: Key, b: Key, x: Byte, y: Byte)
    requires |a| == |b|
    ensures Below(a + [x], b + [y]) <==> Below(a, b) || (a == b && x < y)
  {
    if a == [] {
      assert a + [x] == [x] && b + [y] == [y];
      assert !Below([x][1..], [y][1..]);
    } else {
      assert (a + [x])[1..] == a[1..] + [x] && (b + [y])[1..] == b[1..] + [y];
      BelowSnoc(a[1..], b[1..], x, y);
      assert a == [a[0]] + a[1..] && b == [b[0]] + b[1..];
    }
  }

  /** Encoding loses nothing that fits. */
  lemma {:induction false} RoundTrip(v: nat, n: nat)
    requires v < Pow256(n)
    ensures Value(BigEndian(v, n)) == v
  {
    if n > 0 {
      RoundTrip(v / 256, n - 1);
      var k := BigEndian(v / 256, n - 1);
      assert (k + [v % 256])[..n - 1] == k;
    }
  }

  /** A key is determined by its length and value. */
  lemma {:induction false} Recode(k: Key)
    ensures Value(k) < Pow256(|k|) && BigEndian(Value(k), |k|) == k
  {
    if k != [] {
      Recode(k[..|k| - 1]);
      assert k == k[..|k| - 1] + [k[|k| - 1]];
    }
  }

  lemma {:induction false} OrderPreserved(v: nat, w: nat, n: nat)
    requires v < Pow256(n) && w < Pow256(n)
    ensures Below(BigEndian(v, n), BigEndian(w, n)) <==> v < w
  {
    if n > 0 {
      OrderPreserved(v / 256, w / 256, n - 1);
      BelowSnoc(BigEndian(v / 256, n - 1), BigEndian(w / 256, n - 1), v % 256, w % 256);
      if BigEndian(v / 256, n - 1) == BigEndian(w / 256, n - 1) {
        RoundTrip(v / 256, n - 1);
        RoundTrip(w / 256, n - 1);
      }
    }
  }

  /** On all 64-bit values itob is invertible and turns numeric order into key order. */
  lemma ItobOrder(v: nat, w: nat)
    requires v <= MAX_SEQUENCE && w <= MAX_SEQUENCE
    ensures Below(Itob(v), Itob(w)) <==> v < w
    ensures Itob(v) == Itob(w) <==> v == w
    ensures Value(Itob(v)) == v
  {
    PowEight();
    OrderPreserved(v, w, 8);
    RoundTrip(v, 8);
    RoundTrip(w, 8);
  }

  lemma PowEight()
    ensures Pow256(8) == MAX_SEQUENCE + 1
  {
    assert Pow256(4) == 0x1_0000_0000;
    assert Pow256(8) == 256 * (256 * (256 * (256 * Pow256(4))));
  }

  /** A key a counter bounded by `sequence` has handed out. */
  predicate Issued(k: Key, sequence: nat) {
    |k| == 8 && 0 < Value(k) <= sequence
  }

  lemma IssuedBelow(k: Key, sequence: nat, n: nat)
    requires Issued(k, sequence) && sequence < n <= MAX_SEQUENCE
    ensures Below(k, Itob(n))
  {
    Recode(k);
    ItobOrder(Value(k), n);
  }

  lemma ZeroBelow(k: Key, sequence: nat)
    requires Issued(k, sequence) && sequence <= MAX_SEQUENCE
    ensures Below(Itob(0), k)
  {
    Recode(k);
    ItobOrder(0, Value(k));
  }

  lemma ItobIssued(n: nat)
    requires 0 < n <= MAX_SEQUENCE
    ensures Issued(Itob(n), n)
  {
    ItobOrder(n, n);
  }
}
