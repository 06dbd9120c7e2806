/** Primary keys (pg/pk.go): the three kinds of key value, their order, and the
    half-open range test every routing decision of the merger rests on. */
module Keys {
  type Byte = b: int | 0 <= b < 256

  const MIN_INT64: int := -0x8000_0000_0000_0000
  const MAX_INT64: int := 0x7fff_ffff_ffff_ffff

  type Int64 = n: int | MIN_INT64 <= n <= MAX_INT64

  type Uuid = u: seq<Byte> | |u| == 16
    witness [0, 0, 0, 0, 0, 0, 0, 0, 0, 0, 0, 0, 0, 0, 0, 0]

  datatype PK = Unset | IntKey(n: Int64) | UuidKey(u: Uuid)

  /** The unsigned big-endian number spelled by some bytes. */
  function Number(bytes: seq<Byte>): nat {
    if bytes == [] then 0 else Number(bytes[..|bytes| - 1]) * 256 + bytes[|bytes| - 1]
  }

  lemma {:induction false} FirstDifferenceDecides(a: seq<Byte>, b: seq<Byte>, i: nat)
    requires |a| == |b| && i < |a|
    requires a[..i] == b[..i] && a[i] < b[i]
    ensures Number(a) < Number(b)
    decreases |a|
  {
    var n := |a| - 1;
    if i < n {
      assert a[..n][..i] == a[..i] == b[..i] == b[..n][..i];
      FirstDifferenceDecides(a[..n], b[..n], i);
    }
  }

  /** Index of the first position where two sequences differ. */
  function FirstDifference(a: seq<Byte>, b: seq<Byte>, from: nat): (i: nat)
    requires |a| == |b| && from <= |a| && a[..from] == b[..from]
    ensures i <= |a| && a[..i] == b[..i]
    ensures i < |a| ==> a[i] != b[i]
    ensures i == |a| <==> a == b
    decreases |a| - from
  {
    if from == |a| then
      assert a[..from] == a && b[..from] == b;
      from
    else if a[from] != b[from] then from
    else
      assert a[..from + 1] == a[..from] + [a[from]];
      assert b[..from + 1] == b[..from] + [b[from]];
      FirstDifference(a, b, from + 1)
  }

  lemma NumberInjective(a: seq<Byte>, b: seq<Byte>)
    requires |a| == |b| && Number(a) == Number(b)
    ensures a == b
  {
    var i := FirstDifference(a, b, 0);
    if i < |a| {
      if a[i] < b[i] {
        FirstDifferenceDecides(a, b, i);
      } else {
        FirstDifferenceDecides(b, a, i);
      }
    }
  }

  /** uuidCmp: the byte-by-byte comparison is the order of the 128-bit numbers. */
  method UuidCmp(a: Uuid, b: Uuid) returns (c: int)
    ensures c == -1 || c == 0 || c == 1
    ensures c < 0 <==> Number(a) < Number(b)
    ensures c == 0 <==> a == b
  {
    for i := 0 to |a|
      invariant a[..i] == b[..i]
    {
      if a[i] != b[i] {
        if a[i] < b[i] {
          FirstDifferenceDecides(a, b, i);
          return -1;
        }
        FirstDifferenceDecides(b, a, i);
        return 1;
      }
    }
    assert a[..|a|] == a && b[..|b|] == b;
    return 0;
  }

  /** One total order over all key values: an unset key sorts before every set one
      and integers sort before UUIDs. A table only ever holds keys of one kind. */
  function Rank(p: PK): (r: int)
    ensures p == Unset <==> r == MIN_INT64 - 1
    ensures MIN_INT64 - 1 <= r
  {
    match p
    case Unset => MIN_INT64 - 1
    case IntKey(n) => n
    case UuidKey(u) => MAX_INT64 + 1 + Number(u)
  }

  /** The interval (low, high] with an unset bound meaning "no bound". */
  predicate Within(p: PK, low: PK, high: PK) {
    Rank(low) < Rank(p) && (high.Unset? || Rank(p) <= Rank(high))
  }

  predicate SameKind(p: PK, q: PK) {
    (p.IntKey? && q.IntKey?) || (p.UuidKey? && q.UuidKey?)
  }

  /** The inputs on which inRange does not panic: each bound it looks at is unset
      or of the key's own kind. */
  predicate Comparable(p: PK, low: PK, high: PK) {
    p.Unset? ||
    ((low.Unset? || SameKind(p, low)) &&
     (Rank(low) < Rank(p) ==> high.Unset? || SameKind(p, high)))
  }

  /** PK.inRange, branch by branch. */
  method InRange(p: PK, low: PK, high: PK) returns (r: bool)
    requires Comparable(p, low, high)
    ensures r <==> Within(p, low, high)
  {
    match p
    case Unset =>
      r := false;
    case IntKey(v) =>
      r := (low.Unset? || v > low.n) && (high.Unset? || v <= high.n);
    case UuidKey(v) =>
      r := true;
      if !low.Unset? {
        var c := UuidCmp(v, low.u);
        r := c > 0;
        NumberInjectiveUnless(v, low.u);
      }
      if r && !high.Unset? {
        var c := UuidCmp(v, high.u);
        r := c <= 0;
        NumberInjectiveUnless(v, high.u);
      }
  }

  lemma NumberInjectiveUnless(a: Uuid, b: Uuid)
    ensures Number(a) == Number(b) <==> a == b
  {
    if Number(a) == Number(b) {
      NumberInjective(a, b);
    }
  }

  /** int64 addition as Go computes it, wrapping around. */
  function Wrap64(n: int): Int64 {
    (n - MIN_INT64) % 0x1_0000_0000_0000_0000 + MIN_INT64
  }

  /** PK.Next: the estimated upper bound of a chunk; the identity unless the key is an integer. */
  function Next(p: PK, n: int): PK {
    if p.IntKey? then IntKey(Wrap64(p.n + n)) else p
  }

  /** When the window (cursor, cursor.Next(n)] holds anything at all: it is unbounded for an
      unset cursor, empty for a UUID cursor, and n keys long for an integer cursor that
      does not overflow. */
  lemma WindowExtent(cursor: PK, n: int, p: PK)
    requires 0 < n <= MAX_INT64
    ensures cursor.Unset? ==> (Within(p, cursor, Next(cursor, n)) <==> p != Unset)
    ensures cursor.UuidKey? ==> !Within(p, cursor, Next(cursor, n))
    ensures cursor.IntKey? && cursor.n + n <= MAX_INT64 ==>
      (Within(p, cursor, Next(cursor, n)) <==> p.IntKey? && cursor.n < p.n <= cursor.n + n)
    ensures cursor.IntKey? && cursor.n + n > MAX_INT64 ==> !Within(p, cursor, Next(cursor, n))
  {
    if cursor.IntKey? {
      var s := cursor.n + n;
      if s <= MAX_INT64 {
        assert Wrap64(s) == s;
      } else {
        assert Wrap64(s) == s - 0x1_0000_0000_0000_0000;
      }
    }
  }
}
