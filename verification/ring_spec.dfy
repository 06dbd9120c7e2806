/** Consistent hashing (broadway/hash_ring.go): who owns a key, in terms of clockwise distance on the circle of
    32-bit hashes. The hash itself is a parameter. */
module RingSpec {
  const CIRCLE: int := 0x1_0000_0000

  type Word = h: int | 0 <= h < CIRCLE

  /** A node of the ring is known by its id. */
  type Node = string

  type Hash = string -> Word

  /** How far one has to go clockwise from a to reach b. */
  function Clockwise(a: Word, b: Word): (d: Word)
    ensures d == if a <= b then b - a else b - a + CIRCLE
  {
    (b - a) % CIRCLE
  }

  /** The same, when standing on a does not count as having reached it. */
  function StrictlyClockwise(a: Word, b: Word): (d: Word)
    ensures d == if a < b then b - a - 1 else b - a - 1 + CIRCLE
  {
    (b - a - 1) % CIRCLE
  }

  predicate NoCollision(hash: Hash, members: set<Node>) {
    forall m, n :: m in members && n in members && m != n ==> hash(m) != hash(n)
  }

  /** The node that a key belongs to: nearer clockwise than every other node. */
  predicate Owns(hash: Hash, members: set<Node>, n: Node, key: string) {
    n in members &&
    forall m <- members :: m != n ==> Clockwise(hash(key), hash(n)) < Clockwise(hash(key), hash(m))
  }

  /** The first node strictly clockwise of a given one. */
  predicate Follows(hash: Hash, members: set<Node>, n: Node, after: Node) {
    n in members &&
    forall m <- members :: m != n ==> StrictlyClockwise(hash(after), hash(n)) < StrictlyClockwise(hash(after), hash(m))
  }

  lemma OneOwner(hash: Hash, members: set<Node>, n: Node, key: string)
    requires Owns(hash, members, n, key)
    ensures forall m :: Owns(hash, members, m, key) ==> m == n
  {
  }

  lemma OneFollower(hash: Hash, members: set<Node>, n: Node, after: Node)
    requires Follows(hash, members, n, after)
    ensures forall m :: Follows(hash, members, m, after) ==> m == n
  {
  }

  // ---- nodes in hash order ----

  predicate Sorted(hash: Hash, nodes: seq<Node>) {
    forall i, j :: 0 <= i < j < |nodes| ==> hash(nodes[i]) < hash(nodes[j])
  }

  function Members(nodes: seq<Node>): set<Node> {
    set n <- nodes
  }

  lemma SortedHeads(hash: Hash, a: seq<Node>, b: seq<Node>)
    requires Sorted(hash, a) && Sorted(hash, b) && Members(a) == Members(b) && a != [] && b != []
    ensures a[0] == b[0]
  {
    assert a[0] in Members(a) && b[0] in Members(b);
    var i :| 0 <= i < |b| && b[i] == a[0];
    var j :| 0 <= j < |a| && a[j] == b[0];
  }

  lemma SortedTail(hash: Hash, a: seq<Node>)
    requires Sorted(hash, a) && a != []
    ensures Sorted(hash, a[1..]) && Members(a[1..]) == Members(a) - {a[0]}
  {
    assert a == [a[0]] + a[1..];
    forall n | n in a[1..] ensures n != a[0] {
      var i :| 0 <= i < |a[1..]| && a[1..][i] == n;
      assert hash(a[0]) < hash(a[i + 1]);
    }
  }

  /** The ring's list is determined by its set of members: no trace is left of the order in which
      they came and went. */
  lemma {:induction false} OnlyMembersMatter(hash: Hash, a: seq<Node>, b: seq<Node>)
    requires Sorted(hash, a) && Sorted(hash, b) && Members(a) == Members(b)
    ensures a == b
    decreases |a|
  {
    if a == [] {
      assert forall i :: 0 <= i < |b| ==> b[i] in Members(b);
    } else {
      assert a[0] in Members(b);
      SortedHeads(hash, a, b);
      SortedTail(hash, a);
      SortedTail(hash, b);
      OnlyMembersMatter(hash, a[1..], b[1..]);
      assert a == [a[0]] + a[1..] && b == [b[0]] + b[1..];
    }
  }

  // ---- what changes hands ----

  /** Removing a node: its own keys go to its ring successor, no other key changes owner. */
  lemma RemovalMovesOnlyItsKeys(hash: Hash, members: set<Node>, gone: Node, next: Node, owner: Node, key: string)
    requires NoCollision(hash, members) && gone in members
    requires Follows(hash, members - {gone}, next, gone)
    requires Owns(hash, members, owner, key)
    ensures Owns(hash, members - {gone}, if owner == gone then next else owner, key)
  {
  }

  /** Adding a node: a key changes owner only to the new node, and only from the node that follows it. */
  lemma AdditionMovesOnlyFromTheFollower(hash: Hash, members: set<Node>, added: Node, next: Node, owner: Node,
                                         key: string)
    requires NoCollision(hash, members + {added}) && added !in members
    requires Follows(hash, members, next, added)
    requires Owns(hash, members, owner, key)
    ensures Owns(hash, members + {added}, owner, key) || (owner == next && Owns(hash, members + {added}, added, key))
  {
    if Clockwise(hash(key), hash(owner)) > Clockwise(hash(key), hash(added)) {
      assert Owns(hash, members + {added}, added, key);
    }
  }
}
