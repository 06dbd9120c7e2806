/** The hash ring itself (broadway/hash_ring.go), and the replacement of a failed processor
    (broadway/batcher.go, broadway/message_processor_supervisor.go). */
module HashRingObject {
  import opened RingSpec
  import opened Wrappers

  /** The map holds exactly the members, each under its hash. */
  ghost predicate MapAgrees(hash: Hash, members: set<Node>, hashToNode: map<Word, Node>) {
    && (forall n <- members :: hash(n) in hashToNode && hashToNode[hash(n)] == n)
    && (forall h <- hashToNode :: hashToNode[h] in members && hash(hashToNode[h]) == h)
  }

  lemma AddedToMap(hash: Hash, members: set<Node>, hashToNode: map<Word, Node>, node: Node)
    requires MapAgrees(hash, members, hashToNode) && hash(node) !in hashToNode
    ensures MapAgrees(hash, members + {node}, hashToNode[hash(node) := node])
  {
  }

  lemma RemovedFromMap(hash: Hash, members: set<Node>, hashToNode: map<Word, Node>, node: Node)
    requires MapAgrees(hash, members, hashToNode)
    ensures MapAgrees(hash, members - {node}, hashToNode - {hash(node)}) <==>
            forall m <- members :: hash(m) == hash(node) ==> m == node
  {
    if m :| m in members && hash(m) == hash(node) && m != node {
      assert m in members - {node} && hash(m) !in hashToNode - {hash(node)};
    }
  }

  class HashRing {
    const hash: Hash
    var nodes: seq<Node>
    var hashToNode: map<Word, Node>

    constructor (hash: Hash)
      ensures this.hash == hash && nodes == [] && hashToNode == map[] && Valid()
    {
      this.hash := hash;
      nodes := [];
      hashToNode := map[];
    }

    ghost predicate Valid()
      reads this
    {
      Sorted(hash, nodes) && MapAgrees(hash, All(), hashToNode)
    }

    ghost function All(): set<Node>
      reads this
    {
      Members(nodes)
    }

    /** sort.Slice on a sorted list to which one element has been appended. */
    static method SortByHash(hash: Hash, nodes: seq<Node>, last: Node) returns (sorted: seq<Node>)
      requires Sorted(hash, nodes) && forall j :: 0 <= j < |nodes| ==> hash(nodes[j]) != hash(last)
      ensures Sorted(hash, sorted) && Members(sorted) == Members(nodes) + {last}
    {
      var i := |nodes|;
      while i > 0 && hash(last) < hash(nodes[i - 1])
        invariant 0 <= i <= |nodes|
        invariant forall j :: i <= j < |nodes| ==> hash(last) < hash(nodes[j])
      {
        i := i - 1;
      }
      assert forall j :: 0 <= j < i - 1 ==> hash(nodes[j]) < hash(nodes[i - 1]);
      InsertedInOrder(hash, nodes, last, i);
      sorted := nodes[..i] + [last] + nodes[i..];
    }

    /** A node whose hash is taken is ignored. */
    method AddNode(node: Node)
      requires Valid()
      modifies this
      ensures Valid()
      ensures All() == if exists m <- old(All()) :: hash(m) == hash(node) then old(All()) else old(All()) + {node}
    {
      if hash(node) in hashToNode {
        return;
      }
      AddedToMap(hash, All(), hashToNode, node);
      assert forall j :: 0 <= j < |nodes| ==> nodes[j] in All();
      var sorted := SortByHash(hash, nodes, node);
      hashToNode := hashToNode[hash(node) := node];
      nodes := sorted;
    }

    /** The map entry goes with the hash, the list entry with the id. */
    method RemoveNode(node: Node)
      requires Valid()
      modifies this
      ensures Sorted(hash, nodes) && All() == old(All()) - {node}
      ensures hashToNode == old(hashToNode) - {hash(node)}
      ensures Valid() <==> forall m <- old(All()) :: hash(m) == hash(node) ==> m == node
    {
      RemovedFromMap(hash, All(), hashToNode, node);
      if hash(node) !in hashToNode {
        return;
      }
      hashToNode := hashToNode - {hash(node)};
      for i := 0 to |nodes|
        invariant nodes == old(nodes) && node !in nodes[..i]
      {
        if nodes[i] == node {
          RemovedInOrder(hash, nodes, i);
          nodes := nodes[..i] + nodes[i + 1..];
          return;
        }
      }
    }

    /** The linear scan finds the owner of the key, and there is only one. */
    method GetNode(key: string) returns (r: Option<Node>)
      requires Sorted(hash, nodes)
      ensures r.None? <==> nodes == []
      ensures r.Some? ==> Owns(hash, All(), r.value, key) && forall n :: Owns(hash, All(), n, key) ==> n == r.value
    {
      r := Nearest(hash, nodes, key);
    }

    static method Nearest(hash: Hash, nodes: seq<Node>, key: string) returns (r: Option<Node>)
      requires Sorted(hash, nodes)
      ensures r.None? <==> nodes == []
      ensures r.Some? ==> Owns(hash, Members(nodes), r.value, key)
      ensures r.Some? ==> forall n :: Owns(hash, Members(nodes), n, key) ==> n == r.value
    {
      if nodes == [] {
        return None;
      }
      for i := 0 to |nodes|
        invariant forall j :: 0 <= j < i ==> hash(nodes[j]) < hash(key)
      {
        if hash(nodes[i]) >= hash(key) {
          OneOwner(hash, Members(nodes), nodes[i], key);
          return Some(nodes[i]);
        }
      }
      OneOwner(hash, Members(nodes), nodes[0], key);
      return Some(nodes[0]);
    }

    /** The binary search finds the one node that comes first strictly clockwise. */
    method GetNextNode(node: Node) returns (r: Option<Node>)
      requires Sorted(hash, nodes)
      ensures r.None? <==> nodes == []
      ensures r.Some? ==> Follows(hash, All(), r.value, node) && forall n :: Follows(hash, All(), n, node) ==>
                n == r.value
    {
      if nodes == [] {
        return None;
      }
      var i, j := 0, |nodes|;
      while i < j
        invariant 0 <= i <= j <= |nodes|
        invariant forall k :: 0 <= k < i ==> hash(nodes[k]) <= hash(node)
        invariant forall k :: j <= k < |nodes| ==> hash(nodes[k]) > hash(node)
      {
        var middle := (i + j) / 2;
        if hash(nodes[middle]) > hash(node) {
          j := middle;
        } else {
          i := middle + 1;
        }
      }
      if i == |nodes| {
        OneFollower(hash, All(), nodes[0], node);
        return Some(nodes[0]);
      }
      OneFollower(hash, All(), nodes[i], node);
      return Some(nodes[i]);
    }
  }

  lemma InsertedInOrder(hash: Hash, nodes: seq<Node>, node: Node, i: nat)
    requires Sorted(hash, nodes) && i <= |nodes|
    requires forall j :: 0 <= j < i ==> hash(nodes[j]) < hash(node)
    requires forall j :: i <= j < |nodes| ==> hash(node) < hash(nodes[j])
    ensures Sorted(hash, nodes[..i] + [node] + nodes[i..])
    ensures Members(nodes[..i] + [node] + nodes[i..]) == Members(nodes) + {node}
  {
    assert nodes == nodes[..i] + nodes[i..];
  }

  lemma RemovedInOrder(hash: Hash, nodes: seq<Node>, i: nat)
    requires Sorted(hash, nodes) && i < |nodes|
    ensures Sorted(hash, nodes[..i] + nodes[i + 1..])
    ensures Members(nodes[..i] + nodes[i + 1..]) == Members(nodes) - {nodes[i]}
    ensures forall n :: n in nodes[..i] + nodes[i + 1..] <==> n in nodes && n != nodes[i]
  {
    var rest := nodes[..i] + nodes[i + 1..];
    forall n | n in rest ensures n in nodes && n != nodes[i] {
      var j :| 0 <= j < |rest| && rest[j] == n;
      assert rest[j] == nodes[if j < i then j else j + 1];
    }
    forall n | n in nodes && n != nodes[i] ensures n in rest {
      var j :| 0 <= j < |nodes| && nodes[j] == n;
      assert rest[if j < i then j else j - 1] == n;
    }
  }

  /** What the batcher and the processor supervisor do about a processor that has panicked. The processors
      themselves only appear by id, with the set of those that are paused. */
  class Supervisor {
    const ring: HashRing
    var paused: set<Node>

    constructor (ring: HashRing)
      ensures this.ring == ring && paused == {}
    {
      this.ring := ring;
      paused := {};
    }

    /** The failed processor leaves: its keys go to its ring successor and no other key moves. */
    method Leave(failed: Node)
      requires ring.Valid() && NoCollision(ring.hash, ring.All() + {failed})
      modifies ring
      ensures ring.Valid() && ring.All() == old(ring.All()) - {failed}
      ensures RemovalMovesOnlyFrom(ring.hash, old(ring.All()), failed)
    {
      OnlyTheFailedLoses(ring.hash, ring.All(), failed);
      ring.RemoveNode(failed);
    }

    /** Its replacement joins while the processor that shares keys with it is paused: a key moves only to the new
        processor, and only from the paused one. */
    method Join(replacement: Node) returns (ghost pausedAtJoin: set<Node>, sharing: Option<Node>)
      requires ring.Valid() && NoCollision(ring.hash, ring.All() + {replacement}) && replacement !in ring.All()
      modifies this, ring
      ensures ring.Valid() && ring.All() == old(ring.All()) + {replacement}
      ensures JoinMovesOnlyFrom(ring.hash, old(ring.All()), replacement, Only(sharing)) && Only(sharing) <= pausedAtJoin
      ensures pausedAtJoin == old(paused) + Only(sharing) && paused == old(paused) - Only(sharing)
    {
      sharing := ring.GetNextNode(replacement);
      if sharing.Some? {
        paused := paused + {sharing.value};
      }
      pausedAtJoin := paused;
      OnlyThePausedLoses(ring.hash, ring.All(), replacement, sharing);
      ring.AddNode(replacement);
      if sharing.Some? {
        paused := paused - {sharing.value};
      }
    }

    /** handleProcessorPanic: out with the failed processor, in with its replacement. When the failed one leaves, its
        keys go to its ring successor and no other key moves; when the replacement joins, a key moves only to
        it, and only from the one processor that this call has paused. */
    method HandleProcessorPanic(failed: Node, replacement: Node)
      returns (ghost pausedAtJoin: set<Node>, sharing: Option<Node>)
      requires ring.Valid() && NoCollision(ring.hash, ring.All() + {failed, replacement}) && replacement !in ring.All()
      modifies this, ring
      ensures ring.Valid() && ring.All() == old(ring.All()) - {failed} + {replacement}
      ensures RemovalMovesOnlyFrom(ring.hash, old(ring.All()), failed)
      ensures JoinMovesOnlyFrom(ring.hash, old(ring.All()) - {failed}, replacement, Only(sharing))
      ensures Only(sharing) <= pausedAtJoin
      ensures pausedAtJoin == old(paused) + Only(sharing) && paused == old(paused) - Only(sharing)
    {
      Leave(failed);
      pausedAtJoin, sharing := Join(replacement);
    }
  }

  function Only(n: Option<Node>): set<Node> {
    if n.Some? then {n.value} else {}
  }

  /** When a node leaves, every other node keeps its keys, and its own go to the node that follows it. */
  ghost predicate RemovalMovesOnlyFrom(hash: Hash, members: set<Node>, leaving: Node) {
    && (forall key, o :: Owns(hash, members, o, key) && o != leaving ==> Owns(hash, members - {leaving}, o, key))
    && (forall key, next :: Owns(hash, members, leaving, key) && Follows(hash, members - {leaving}, next, leaving) ==>
          Owns(hash, members - {leaving}, next, key))
  }

  lemma OnlyTheFailedLoses(hash: Hash, members: set<Node>, leaving: Node)
    requires NoCollision(hash, members)
    ensures RemovalMovesOnlyFrom(hash, members, leaving)
  {
    if leaving in members {
      forall key, next | Owns(hash, members, leaving, key) && Follows(hash, members - {leaving}, next, leaving)
        ensures Owns(hash, members - {leaving}, next, key)
      {
        RemovalMovesOnlyItsKeys(hash, members, leaving, next, leaving, key);
      }
    } else {
      assert members - {leaving} == members;
    }
  }

  /** Whatever key changes owner when a node joins, its owner was one of these and the new owner is that node. */
  ghost predicate JoinMovesOnlyFrom(hash: Hash, members: set<Node>, joining: Node, losers: set<Node>) {
    forall key, o :: Owns(hash, members, o, key) && !Owns(hash, members + {joining}, o, key) ==>
      o in losers && Owns(hash, members + {joining}, joining, key)
  }

  lemma OnlyThePausedLoses(hash: Hash, members: set<Node>, joining: Node, next: Option<Node>)
    requires NoCollision(hash, members + {joining}) && joining !in members
    requires next.None? ==> members == {}
    requires next.Some? ==> Follows(hash, members, next.value, joining)
    ensures JoinMovesOnlyFrom(hash, members, joining, Only(next))
  {
    forall key, o | Owns(hash, members, o, key) && !Owns(hash, members + {joining}, o, key)
      ensures o in Only(next) && Owns(hash, members + {joining}, joining, key)
    {
      AdditionMovesOnlyFromTheFollower(hash, members, joining, next.value, o, key);
    }
  }

  /** Across the whole replacement: a key of neither the failed processor nor the paused one keeps its
      processor; a key of the failed one ends up at its ring successor or at the replacement. */
  lemma ReplacementMoves(hash: Hash, members: set<Node>, failed: Node, replacement: Node, successor: Node,
                         sharing: Node,
                         owner: Node, key: string)
    requires NoCollision(hash, members + {replacement}) && failed in members && replacement !in members
    requires Follows(hash, members - {failed}, successor, failed) &&
             Follows(hash, members - {failed}, sharing, replacement)
    requires Owns(hash, members, owner, key)
    ensures var after := members - {failed} + {replacement};
            && (owner != failed && owner != sharing ==> Owns(hash, after, owner, key))
            && (owner == failed ==> Owns(hash, after, successor, key) || Owns(hash, after, replacement, key))
            && (owner == sharing ==> Owns(hash, after, sharing, key) || Owns(hash, after, replacement, key))
  {
    RemovalMovesOnlyItsKeys(hash, members, failed, successor, owner, key);
    AdditionMovesOnlyFromTheFollower(hash, members - {failed}, replacement, sharing,
                                     if owner == failed then successor else owner, key);
  }

  /** One replacement of a failed processor: its ring successor, and the node paused while the replacement joins. */
  datatype Replacement = Replacement(failed: Node, replacement: Node, successor: Node, sharing: Node)

  predicate Replaces(hash: Hash, members: set<Node>, r: Replacement) {
    && NoCollision(hash, members + {r.replacement}) && r.failed in members && r.replacement !in members
    && Follows(hash, members - {r.failed}, r.successor, r.failed)
    && Follows(hash, members - {r.failed}, r.sharing, r.replacement)
  }

  function Replaced(members: set<Node>, rs: seq<Replacement>): set<Node> {
    if rs == [] then members
    else Replaced(members, rs[..|rs| - 1]) - {rs[|rs| - 1].failed} + {rs[|rs| - 1].replacement}
  }

  /** Each replacement is one of the ring as the earlier ones left it. */
  predicate ReplacesAll(hash: Hash, members: set<Node>, rs: seq<Replacement>) {
    rs == [] || (ReplacesAll(hash, members, rs[..|rs| - 1]) &&
                 Replaces(hash, Replaced(members, rs[..|rs| - 1]), rs[|rs| - 1]))
  }

  lemma OneReplacement(hash: Hash, members: set<Node>, r: Replacement, owner: Node, key: string)
    requires Replaces(hash, members, r) && Owns(hash, members, owner, key) && r.failed != owner && r.sharing != owner
    ensures Owns(hash, members - {r.failed} + {r.replacement}, owner, key)
  {
    ReplacementMoves(hash, members, r.failed, r.replacement, r.successor, r.sharing, owner, key);
  }

  /** Over any number of failures, a key stays with its processor as long as that processor neither fails nor is
      paused. */
  lemma {:induction false} UntouchedKeysStay(hash: Hash, members: set<Node>, rs: seq<Replacement>, owner: Node,
                                             key: string)
    requires ReplacesAll(hash, members, rs) && Owns(hash, members, owner, key)
    requires forall i :: 0 <= i < |rs| ==> rs[i].failed != owner && rs[i].sharing != owner
    ensures Owns(hash, Replaced(members, rs), owner, key)
    decreases |rs|
  {
    if rs != [] {
      var n := |rs| - 1;
      assert Owns(hash, Replaced(members, rs[..n]), owner, key) by {
        UntouchedKeysStay(hash, members, rs[..n], owner, key);
      }
      OneReplacement(hash, Replaced(members, rs[..n]), rs[n], owner, key);
    }
  }
}
