/** The two-level hash map of common/concurrent_hash_map.h. Every operation runs under its
    segment's latch, so operations are modelled as atomic. Nodes change only in their `next`
    link; an update replaces the node. */
module HashMap {
  import opened Prelude

  function Pow2(k: nat): (r: nat)
    ensures r > 0
  {
    if k == 0 then 1 else 2 * Pow2(k - 1)
  }

  function ShiftRight(x: nat, bits: nat): nat {
    if bits == 0 then x else ShiftRight(x / 2, bits - 1)
  }

  /** Bitwise and of two unsigned numbers. */
  function BitAnd(x: nat, y: nat): (r: nat)
    ensures r <= x && r <= y
  {
    if x == 0 || y == 0 then 0 else 2 * BitAnd(x / 2, y / 2) + (if x % 2 == 1 && y % 2 == 1 then 1 else 0)
  }

  /** Bucket of a hash: drop the shard bits, then mask with the bucket count less one. */
  function GetIndex(bits: nat, buckets: nat, hash: nat): (idx: nat)
    requires buckets > 0
    ensures idx < buckets
  {
    BitAnd(ShiftRight(hash, bits), buckets - 1)
  }

  function PickSegment(bits: nat, hash: nat): (idx: nat)
    ensures idx < Pow2(bits)
  {
    BitAnd(hash, Pow2(bits) - 1)
  }

  /** A mask of k + 1 ones keeps the lowest bit and masks the others with k ones. */
  lemma OnesMask(x: nat, k: nat)
    ensures BitAnd(x, Pow2(k + 1) - 1) == 2 * BitAnd(x / 2, Pow2(k) - 1) + x % 2
  {
    var m := Pow2(k) - 1;
    assert Pow2(k + 1) - 1 == 2 * m + 1;
    assert (2 * m + 1) / 2 == m && (2 * m + 1) % 2 == 1;
  }

  /** One more mask bit adds that bit of x or leaves the masked value. */
  lemma {:induction false} MaskGrows(x: nat, k: nat)
    ensures var small, large := BitAnd(x, Pow2(k) - 1), BitAnd(x, Pow2(k + 1) - 1);
      large == small || large == small + Pow2(k)
  {
    hide BitAnd;
    OnesMask(x, k);
    if k == 0 {
      ZeroMask(x);
      ZeroMask(x / 2);
    } else {
      MaskGrows(x / 2, k - 1);
      OnesMask(x, k - 1);
    }
  }

  lemma ZeroMask(x: nat)
    ensures BitAnd(x, 0) == 0
  {
  }

  /** Doubling the buckets sends each key of bucket b to bucket b or to b plus the old count. */
  lemma DoublingSplits(bits: nat, k: nat, hash: nat)
    ensures var old', new' := GetIndex(bits, Pow2(k), hash), GetIndex(bits, 2 * Pow2(k), hash);
      new' == old' || new' == old' + Pow2(k)
  {
    MaskGrows(ShiftRight(hash, bits), k);
  }

  /** Two hashes share a segment and a bucket exactly when their low bits + k bits agree. */
  lemma {:induction false} SameSegmentAndBucket(bits: nat, k: nat, g: nat, h: nat)
    ensures PickSegment(bits, g) == PickSegment(bits, h) && GetIndex(bits, Pow2(k), g) == GetIndex(bits, Pow2(k), h)
      <==> BitAnd(g, Pow2(bits + k) - 1) == BitAnd(h, Pow2(bits + k) - 1)
  {
    hide BitAnd;
    if bits == 0 {
      ZeroMask(g);
      ZeroMask(h);
    } else {
      SameSegmentAndBucket(bits - 1, k, g / 2, h / 2);
      OnesMask(g, bits - 1);
      OnesMask(h, bits - 1);
      OnesMask(g, bits - 1 + k);
      OnesMask(h, bits - 1 + k);
    }
  }

  /** The load factor 1.05 as a 32-bit float is 8808038 / 2^23, and its product with a power of
      two is exact. */
  function LoadLimit(count: nat): (limit: nat)
    ensures count <= limit
  {
    count * 8808038 / 8388608
  }

  /** The limit is 1.05 times the count, rounded down, but for the inexact constant. */
  lemma LoadFactor(count: nat)
    ensures 20 * LoadLimit(count) <= 21 * count < 20 * (LoadLimit(count) + 1) + count / 1_000_000 + 1
  {
  }

  class Node<K, V> {
    var next: Node?<K, V>
    const key: K
    const value: V

    constructor (key: K, value: V, next: Node?<K, V>)
      ensures this.key == key && this.value == value && this.next == next
    {
      this.key, this.value, this.next := key, value, next;
    }
  }

  // ---------------------------------------------------------------------
  // Shape of a segment
  // ---------------------------------------------------------------------

  /** The list from root visits exactly the nodes of c and ends. */
  ghost predicate Linked<K(!new), V(!new)>(root: Node?<K, V>, c: seq<Node<K, V>>)
    reads c
  {
    if c == [] then root == null else root == c[0] && Linked(c[0].next, c[1..])
  }

  ghost predicate NoRepeats<T>(c: seq<T>) {
    forall i, j :: 0 <= i < j < |c| ==> c[i] != c[j]
  }

  /** Every node sits once in the chain of its own bucket, and in no other place. */
  ghost predicate Placed<K(!new), V(!new)>(hash: K -> nat, bits: nat, chains: seq<seq<Node<K, V>>>,
      nodes: set<Node<K, V>>) {
    && |chains| > 0
    && (forall b :: 0 <= b < |chains| ==> NoRepeats(chains[b]))
    && (forall b, x :: 0 <= b < |chains| && x in chains[b] ==> x in nodes && GetIndex(bits, |chains|, hash(x.key)) == b)
    && (forall x :: x in nodes ==> x in chains[GetIndex(bits, |chains|, hash(x.key))])
  }

  /** The nodes are the entries of m, one node each. */
  ghost predicate Holds<K(!new), V(!new)>(nodes: set<Node<K, V>>, m: map<K, V>) {
    && (forall x :: x in nodes ==> x.key in m && m[x.key] == x.value)
    && (forall x, y :: x in nodes && y in nodes && x.key == y.key ==> x == y)
    && (forall k :: k in m ==> exists x :: x in nodes && x.key == k)
  }

  ghost predicate AllLinked<K(!new), V(!new)>(roots: seq<Node?<K, V>>, chains: seq<seq<Node<K, V>>>,
      nodes: set<Node<K, V>>)
    reads nodes
  {
    && |roots| == |chains|
    && (forall b, x :: 0 <= b < |chains| && x in chains[b] ==> x in nodes)
    && (forall b :: 0 <= b < |chains| ==> Linked(roots[b], chains[b]))
  }

  lemma LinkedNone<K(!new), V(!new)>(roots: seq<Node?<K, V>>, chains: seq<seq<Node<K, V>>>, nodes: set<Node<K, V>>)
    requires |roots| == |chains| && forall b :: 0 <= b < |chains| ==> roots[b] == null && chains[b] == []
    ensures AllLinked(roots, chains, nodes)
  {
  }

  lemma AllLinkedEach<K(!new), V(!new)>(roots: seq<Node?<K, V>>, chains: seq<seq<Node<K, V>>>, nodes: set<Node<K, V>>)
    requires AllLinked(roots, chains, nodes)
    ensures forall b :: 0 <= b < |chains| ==> Linked(roots[b], chains[b])
  {
  }

  lemma Doubled(k: nat)
    ensures 2 * Pow2(k) == Pow2(k + 1)
  {
  }

  // Chains under the pointer changes of the operations

  lemma {:induction false} LinkedAt<K(!new), V(!new)>(root: Node?<K, V>, c: seq<Node<K, V>>, i: nat)
    requires Linked(root, c) && i < |c|
    ensures Linked(c[i], c[i..]) && Linked(c[i].next, c[i + 1..])
  {
    if i > 0 {
      LinkedAt(c[0].next, c[1..], i - 1);
      assert c[1..][i - 1..] == c[i..] && c[1..][i..] == c[i + 1..];
    }
  }

  /** A chain whose links agree up to a point and whose tail from there is linked. */
  lemma {:induction false} LinkedJoin<K(!new), V(!new)>(root: Node?<K, V>, c: seq<Node<K, V>>, d: seq<Node<K, V>>)
    requires c != [] ==>
      root == c[0] && (forall i :: 0 <= i < |c| - 1 ==> c[i].next == c[i + 1]) && Linked(c[|c| - 1].next, d)
    requires c == [] ==> Linked(root, d)
    ensures Linked(root, c + d)
  {
    if c != [] {
      LinkedJoin(c[0].next, c[1..], d);
      assert (c + d)[1..] == c[1..] + d;
    } else {
      assert c + d == d;
    }
  }

  lemma {:induction false} LinkedNext<K(!new), V(!new)>(root: Node?<K, V>, c: seq<Node<K, V>>, i: nat)
    requires Linked(root, c) && i + 1 < |c|
    ensures c[i].next == c[i + 1]
  {
    LinkedAt(root, c, i);
  }

  /** A new node at the head of its bucket. */
  lemma PlacedPush<K(!new), V(!new)>(hash: K -> nat, bits: nat, chains: seq<seq<Node<K, V>>>, nodes: set<Node<K, V>>,
      x: Node<K, V>, b: nat)
    requires Placed(hash, bits, chains, nodes) && x !in nodes && b == GetIndex(bits, |chains|, hash(x.key))
    ensures Placed(hash, bits, chains[b := [x] + chains[b]], nodes + {x})
  {
    var c, chains' := chains[b], chains[b := [x] + chains[b]];
    assert x !in c;
    assert NoRepeats([x] + c);
    assert forall a, y :: 0 <= a < |chains'| && y in chains'[a] ==> y in chains[a] || (a == b && y == x);
    assert forall a, y :: 0 <= a < |chains'| && y in chains[a] ==> y in chains'[a];
  }

  lemma PlacedWithin<K(!new), V(!new)>(hash: K -> nat, bits: nat, chains: seq<seq<Node<K, V>>>, nodes: set<Node<K, V>>)
    requires Placed(hash, bits, chains, nodes)
    ensures forall b, x :: 0 <= b < |chains| && x in chains[b] ==> x in nodes
  {
  }

  lemma PlacedNone<K(!new), V(!new)>(hash: K -> nat, bits: nat, count: nat)
    requires count > 0
    ensures Placed<K, V>(hash, bits, seq(count, _ => []), {})
  {
  }

  /** The chain of bucket b holds the nodes of its index and shares none with other chains. */
  lemma PlacedIn<K(!new), V(!new)>(hash: K -> nat, bits: nat, chains: seq<seq<Node<K, V>>>, nodes: set<Node<K, V>>,
      b: nat)
    requires Placed(hash, bits, chains, nodes) && b < |chains|
    ensures forall x :: x in chains[b] <==> x in nodes && GetIndex(bits, |chains|, hash(x.key)) == b
    ensures forall a, x :: 0 <= a < |chains| && a != b && x in chains[a] ==> x !in chains[b]
  {
  }

  /** Where the i-th node of bucket b sits, and where it does not. */
  lemma PlacedAt<K(!new), V(!new)>(hash: K -> nat, bits: nat, chains: seq<seq<Node<K, V>>>, nodes: set<Node<K, V>>,
      b: nat, i: nat)
    requires Placed(hash, bits, chains, nodes) && b < |chains| && i < |chains[b]|
    ensures chains[b][i] in nodes && chains[b][i] !in chains[b][i + 1..] && NoRepeats(chains[b])
    ensures forall a :: 0 <= a < |chains| && a != b ==> chains[b][i] !in chains[a]
  {
    assert chains[b][i] in chains[b];
  }

  /** A chain without its i-th node. */
  lemma PlacedRemove<K(!new), V(!new)>(hash: K -> nat, bits: nat, chains: seq<seq<Node<K, V>>>,
      nodes: set<Node<K, V>>, b: nat, i: nat)
    requires Placed(hash, bits, chains, nodes) && b < |chains| && i < |chains[b]|
    ensures Placed(hash, bits, chains[b := chains[b][..i] + chains[b][i + 1..]], nodes - {chains[b][i]})
  {
    var c := chains[b];
    var d := c[..i] + c[i + 1..];
    var chains' := chains[b := d];
    PlacedAt(hash, bits, chains, nodes, b, i);
    assert forall j :: 0 <= j < |d| ==> d[j] == if j < i then c[j] else c[j + 1];
    assert c[i] !in d;
    forall y ensures y in d <==> y in c && y != c[i] {
      if y in c && y != c[i] {
        var j :| 0 <= j < |c| && c[j] == y;
        assert d[if j < i then j else j - 1] == y;
      }
    }
    assert forall a, y :: 0 <= a < |chains'| && y in chains'[a] ==> y in chains[a] && y != c[i];
    assert forall a, y :: 0 <= a < |chains'| && y in chains[a] && y != c[i] ==> y in chains'[a];
  }

  /** A chain whose i-th node gives way to a new one with the same key. */
  lemma PlacedReplace<K(!new), V(!new)>(hash: K -> nat, bits: nat, chains: seq<seq<Node<K, V>>>,
      nodes: set<Node<K, V>>, b: nat, i: nat, x: Node<K, V>)
    requires Placed(hash, bits, chains, nodes) && b < |chains| && i < |chains[b]| && x !in nodes &&
      x.key == chains[b][i].key
    ensures Placed(hash, bits, chains[b := chains[b][i := x]], nodes - {chains[b][i]} + {x})
  {
    var c := chains[b];
    var d := c[i := x];
    var chains' := chains[b := d];
    assert x !in c && d[i] == x;
    assert c[i] !in d;
    forall y | y in c && y != c[i] ensures y in d {
      var j :| 0 <= j < |c| && c[j] == y;
      assert d[j] == y;
    }
    assert forall a, y :: 0 <= a < |chains'| && y in chains'[a] ==> (y in chains[a] && y != c[i]) || (a == b && y == x);
    assert forall a, y :: 0 <= a < |chains'| && y in chains[a] && y != c[i] ==> y in chains'[a];
  }

  lemma HoldsPut<K(!new), V(!new)>(nodes: set<Node<K, V>>, m: map<K, V>, nodes': set<Node<K, V>>, x: Node<K, V>)
    requires Holds(nodes, m) && forall y :: y in nodes' <==> y == x || (y in nodes && y.key != x.key)
    ensures Holds(nodes', m[x.key := x.value])
  {
    forall k | k in m && k != x.key ensures exists y :: y in nodes' && y.key == k {
      var y :| y in nodes && y.key == k;
      assert y in nodes';
    }
    assert x in nodes';
  }

  lemma HoldsRemove<K(!new), V(!new)>(nodes: set<Node<K, V>>, m: map<K, V>, x: Node<K, V>)
    requires Holds(nodes, m) && x in nodes
    ensures Holds(nodes - {x}, m - {x.key}) && |m - {x.key}| <= |m|
  {
    assert m == (m - {x.key})[x.key := x.value];
    forall k | k in m && k != x.key ensures exists y :: y in nodes - {x} && y.key == k {
      var y :| y in nodes && y.key == k;
      assert y in nodes - {x};
    }
  }

  lemma HoldsOnly<K(!new), V(!new)>(nodes: set<Node<K, V>>, m: map<K, V>, x: Node<K, V>)
    requires Holds(nodes, m) && x in nodes
    ensures x.key in m && forall y :: y in nodes && y.key == x.key ==> y == x
  {
  }

  class Segment<K(==,!new), V(!new)> {
    const hash: K -> nat
    const bits: nat
    var buckets: array<Node?<K, V>>
    var limit: nat
    var size: nat
    ghost var chains: seq<seq<Node<K, V>>>
    ghost var nodes: set<Node<K, V>>
    ghost var contents: map<K, V>

    ghost predicate Shape()
      reads this, buckets, nodes
    {
      && (exists k: nat :: buckets.Length == Pow2(k))
      && |chains| == buckets.Length
      && Placed(hash, bits, chains, nodes)
      && AllLinked(buckets[..], chains, nodes)
      && Holds(nodes, contents)
    }

    /** Live entries stay below the load limit; erased ones are still counted in size. */
    ghost predicate Valid()
      reads this, buckets, nodes
    {
      Shape() && |contents| <= size < limit == LoadLimit(buckets.Length)
    }

    ghost function Repr(): (r: set<object>)
      reads this
      ensures this in r
    {
      {this, buckets} + nodes
    }

    constructor (hash: K -> nat, bits: nat, log: nat)
      ensures Valid() && contents == map[] && this.hash == hash && this.bits == bits && buckets.Length == Pow2(log)
      ensures fresh(Repr())
    {
      this.hash, this.bits := hash, bits;
      var n := Pow2(log);
      buckets := new Node?<K, V>[n](_ => null);
      limit, size := LoadLimit(n), 0;
      chains, nodes, contents := seq(n, _ => []), {}, map[];
    }

    method Get(key: K) returns (res: Option<V>)
      requires Valid()
      ensures res == if key in contents then Some(contents[key]) else None
    {
      var idx := GetIndex(bits, buckets.Length, hash(key));
      var node := buckets[idx];
      ghost var c, i := chains[idx], 0;
      while node != null
        invariant i <= |c| && Linked(node, c[i..])
        invariant forall j :: 0 <= j < i ==> c[j].key != key
        decreases |c| - i
      {
        assert node == c[i] && c[i..][1..] == c[i + 1..];
        if key == node.key { break; }
        node, i := node.next, i + 1;
      }
      res := if node != null then Some(node.value) else None;
    }

    /** Walks the chain of bucket idx up to the node of key, if there is one. */
    method Find(idx: nat, key: K) returns (prev: Node?<K, V>, node: Node?<K, V>, ghost i: nat)
      requires Valid() && idx == GetIndex(bits, buckets.Length, hash(key))
      ensures i <= |chains[idx]| && (prev != null ==> prev in nodes)
      ensures prev == if i == 0 then null else chains[idx][i - 1]
      ensures node == null ==> i == |chains[idx]| && key !in contents
      ensures node != null ==> i < |chains[idx]| && node == chains[idx][i] && node.key == key
    {
      prev, node, i := null, buckets[idx], 0;
      ghost var c := chains[idx];
      while node != null
        invariant i <= |c| && Linked(node, c[i..]) && prev == if i == 0 then null else c[i - 1]
        invariant forall j :: 0 <= j < i ==> c[j].key != key
        decreases |c| - i
      {
        assert node == c[i] && c[i..][1..] == c[i + 1..];
        if key == node.key { break; }
        prev, node, i := node, node.next, i + 1;
      }
    }

    /** Redirects the link into position i of bucket idx to the list d that starts at `to`. */
    method Relink(idx: nat, prev: Node?<K, V>, to: Node?<K, V>, ghost i: nat, ghost d: seq<Node<K, V>>,
                  ghost newNodes: set<Node<K, V>>, ghost newContents: map<K, V>)
      requires Shape() && idx < buckets.Length
      requires i <= |chains[idx]| && prev == if i == 0 then null else chains[idx][i - 1]
      requires Linked(to, d) && prev !in d
      requires Placed(hash, bits, chains[idx := chains[idx][..i] + d], newNodes) && Holds(newNodes, newContents)
      modifies this`chains, this`nodes, this`contents, buckets, prev
      ensures Shape() && nodes == newNodes && contents == newContents
    {
      hide Placed, Holds, GetIndex;
      ghost var c := chains[idx];
      if i > 0 { PlacedAt(hash, bits, chains, nodes, idx, i - 1); }
      forall j | 0 <= j < i - 1 ensures c[j].next == c[j + 1] { LinkedNext(buckets[idx], c, j); }
      if prev != null {
        prev.next := to;
      } else {
        buckets[idx] := to;
      }
      LinkedJoin(buckets[idx], c[..i], d);
      chains, nodes, contents := chains[idx := c[..i] + d], newNodes, newContents;
      PlacedWithin(hash, bits, chains, nodes);
    }

    method InsertOrUpdate(key: K, value: V) returns (keyExists: bool)
      requires Valid()
      modifies Repr()
      ensures Valid() && fresh(Repr() - old(Repr()))
      ensures contents == old(contents)[key := value] && keyExists == (key in old(contents))
      ensures size == old(size) + if key in old(contents) then 0 else 1
      ensures buckets.Length == if size < old(limit) then old(buckets.Length) else 2 * old(buckets.Length)
    {
      hide Placed, Holds, AllLinked, Linked;
      var idx := GetIndex(bits, buckets.Length, hash(key));
      var prev, node, i := Find(idx, key);
      keyExists := node != null;
      if keyExists {
        Replace(idx, prev, node, key, value, i);
      } else {
        Prepend(idx, key, value);
        size := size + 1;
      }
      if size >= limit {
        Rehash();
      }
    }

    /** The node of an existing key gives way to a new one. */
    method Replace(idx: nat, prev: Node?<K, V>, node: Node<K, V>, key: K, value: V, ghost i: nat)
      requires Shape() && idx < |chains| && i < |chains[idx]| && node == chains[idx][i] && node.key == key
      requires prev == if i == 0 then null else chains[idx][i - 1]
      modifies this`chains, this`nodes, this`contents, buckets, prev
      ensures Shape() && fresh(nodes - old(nodes)) && key in old(contents) && contents == old(contents)[key := value]
    {
      hide Placed, Holds;
      ghost var c := chains[idx];
      var newNode := new Node(key, value, node.next);
      LinkedAt(buckets[idx], c, i);
      PlacedAt(hash, bits, chains, nodes, idx, i);
      if i > 0 { PlacedAt(hash, bits, chains, nodes, idx, i - 1); }
      HoldsOnly(nodes, contents, node);
      assert c[..i] + ([newNode] + c[i + 1..]) == c[i := newNode];
      ghost var newNodes := nodes - {node} + {newNode};
      PlacedReplace(hash, bits, chains, nodes, idx, i, newNode);
      HoldsPut(nodes, contents, newNodes, newNode);
      Relink(idx, prev, newNode, i, [newNode] + c[i + 1..], newNodes, contents[key := value]);
    }

    /** A new key gets a node at the head of its bucket. */
    method Prepend(idx: nat, key: K, value: V)
      requires Shape() && idx == GetIndex(bits, |chains|, hash(key)) && key !in contents
      modifies this`chains, this`nodes, this`contents, buckets
      ensures Shape() && fresh(nodes - old(nodes)) && contents == old(contents)[key := value]
    {
      ghost var c := chains[idx];
      var newNode := new Node(key, value, buckets[idx]);
      assert c[..0] + ([newNode] + c) == [newNode] + c;
      PlacedPush(hash, bits, chains, nodes, newNode, idx);
      HoldsPut(nodes, contents, nodes + {newNode}, newNode);
      Relink(idx, null, newNode, 0, [newNode] + c, nodes + {newNode}, contents[key := value]);
    }

    method Erase(key: K) returns (keyExists: bool)
      requires Valid()
      modifies Repr()
      ensures Valid() && Repr() <= old(Repr())
      ensures contents == old(contents) - {key} && keyExists == (key in old(contents))
      ensures size == old(size) && buckets == old(buckets)
    {
      hide Placed;
      var idx := GetIndex(bits, buckets.Length, hash(key));
      var prev, node, i := Find(idx, key);
      keyExists := node != null;
      if keyExists {
        ghost var c := chains[idx];
        LinkedAt(buckets[idx], c, i);
        PlacedAt(hash, bits, chains, nodes, idx, i);
        if i > 0 { PlacedAt(hash, bits, chains, nodes, idx, i - 1); }
        PlacedRemove(hash, bits, chains, nodes, idx, i);
        HoldsRemove(nodes, contents, node);
        Relink(idx, prev, node.next, i, c[i + 1..], nodes - {node}, contents - {key});
      }
    }

    /** Doubles the buckets and moves every node, once, to the head of its new chain. The roots
        left in the old table are null, so dropping it frees no node. */
    method Rehash()
      requires Shape()
      modifies Repr()
      ensures Shape() && fresh(buckets) && nodes == old(nodes) && contents == old(contents) && size == old(size)
      ensures buckets.Length == 2 * old(buckets.Length) && limit == LoadLimit(buckets.Length)
      ensures forall b :: 0 <= b < old(buckets).Length ==> old(buckets)[b] == null
    {
      hide Placed, Holds, GetIndex, AllLinked, Linked, Pow2;
      var count := 2 * buckets.Length;
      var newBuckets := new Node?<K, V>[count](_ => null);
      ghost var newChains: seq<seq<Node<K, V>>>, done: set<Node<K, V>> := seq(count, _ => []), {};
      PlacedNone<K, V>(hash, bits, count);
      LinkedNone(newBuckets[..], newChains, done);
      AllLinkedEach(buckets[..], chains, nodes);
      for idx := 0 to buckets.Length
        invariant unchanged(this) && buckets.Length == |chains| && newBuckets.Length == |newChains| == count
        invariant done <= nodes && Placed(hash, bits, newChains, done) && AllLinked(newBuckets[..], newChains, done)
        invariant forall b :: 0 <= b < idx ==> buckets[b] == null
        invariant forall b :: idx <= b < |chains| ==> Linked(buckets[b], chains[b])
        invariant forall x :: x in nodes ==> (x in done <==> GetIndex(bits, |chains|, hash(x.key)) < idx)
      {
        PlacedIn(hash, bits, chains, nodes, idx);
        newChains, done := MoveChain(idx, newBuckets, newChains, done);
        buckets[idx] := null;
        forall b | idx < b < |chains| ensures Linked(buckets[b], chains[b]) {
          assert chains[b] == old(chains)[b];
        }
      }
      ghost var log: nat :| buckets.Length == Pow2(log);
      assert done == nodes;
      Doubled(log);
      buckets, chains := newBuckets, newChains;
      limit := LoadLimit(buckets.Length);
    }

    method MoveChain(idx: nat, newBuckets: array<Node?<K, V>>, ghost newChains: seq<seq<Node<K, V>>>,
        ghost done: set<Node<K, V>>)
        returns (ghost newChains': seq<seq<Node<K, V>>>, ghost done': set<Node<K, V>>)
      requires idx < buckets.Length == |chains| && 0 < newBuckets.Length == |newChains| && newBuckets != buckets
      requires Placed(hash, bits, chains, nodes) && Linked(buckets[idx], chains[idx])
      requires done <= nodes && Placed(hash, bits, newChains, done) && AllLinked(newBuckets[..], newChains, done)
      requires forall x :: x in chains[idx] ==> x !in done
      modifies newBuckets, chains[idx]
      ensures |newChains'| == |newChains| && done' == done + (set x | x in chains[idx])
      ensures Placed(hash, bits, newChains', done') && AllLinked(newBuckets[..], newChains', done')
    {
      hide Placed, GetIndex;
      newChains', done' := newChains, done;
      var node := buckets[idx];
      ghost var c, i := chains[idx], 0;
      while node != null
        invariant i <= |c| && Linked(node, c[i..])
        invariant Placed(hash, bits, newChains', done') && AllLinked(newBuckets[..], newChains', done')
        invariant newBuckets.Length == |newChains'| && done' == done + (set x | x in c[..i])
        decreases |c| - i
      {
        assert node == c[i] && c[i..][1..] == c[i + 1..];
        PlacedAt(hash, bits, chains, nodes, idx, i);
        var next := node.next;
        var newIdx := GetIndex(bits, newBuckets.Length, hash(node.key));
        node.next := newBuckets[newIdx];
        newBuckets[newIdx] := node;
        PlacedPush(hash, bits, newChains', done', node, newIdx);
        newChains', done' := newChains'[newIdx := [node] + newChains'[newIdx]], done' + {node};
        node, i := next, i + 1;
      }
      assert c[..i] == c;
    }
  }

  /** The entries of the map are those of its shards, each key in its own. */
  ghost predicate Sharded<K(!new), V(!new)>(hash: K -> nat, bits: nat, shards: seq<map<K, V>>, contents: map<K, V>) {
    && |shards| == Pow2(bits)
    && (forall i, k ::
      0 <= i < |shards| && k in shards[i] ==>
        PickSegment(bits, hash(k)) == i && k in contents && contents[k] == shards[i][k])
    && (forall k :: k in contents ==> k in shards[PickSegment(bits, hash(k))])
  }

  lemma ShardedPut<K(!new), V(!new)>(hash: K -> nat, bits: nat, shards: seq<map<K, V>>, contents: map<K, V>, key: K,
      value: V)
    requires Sharded(hash, bits, shards, contents)
    ensures var i := PickSegment(bits, hash(key));
      Sharded(hash, bits, shards[i := shards[i][key := value]], contents[key := value])
  {
  }

  lemma ShardedRemove<K(!new), V(!new)>(hash: K -> nat, bits: nat, shards: seq<map<K, V>>, contents: map<K, V>, key: K)
    requires Sharded(hash, bits, shards, contents)
    ensures var i := PickSegment(bits, hash(key)); Sharded(hash, bits, shards[i := shards[i] - {key}], contents - {key})
  {
  }

  /** A lookup needs only the key's own shard. */
  lemma ShardedGet<K(!new), V(!new)>(hash: K -> nat, bits: nat, shards: seq<map<K, V>>, contents: map<K, V>, key: K)
    requires Sharded(hash, bits, shards, contents)
    ensures |shards| == Pow2(bits)
    ensures var m := shards[PickSegment(bits, hash(key))];
      (key in m <==> key in contents) && (key in m ==> m[key] == contents[key])
  {
  }

  /** The segment holds the shard and owns exactly the given objects; no segment, no entries. */
  ghost predicate Owned<K(!new), V(!new)>(segment: Segment?<K, V>, hash: K -> nat, bits: nat, shard: map<K, V>,
      own: set<object>)
    reads own
  {
    if segment == null then shard == map[] && own == {}
    else
      && segment in own && segment.Repr() == own
      && segment.Valid() && segment.hash == hash && segment.bits == bits && segment.contents == shard
  }

  lemma OwnedIff<K(!new), V(!new)>(segment: Segment<K, V>, hash: K -> nat, bits: nat, shard: map<K, V>,
      own: set<object>)
    requires own == segment.Repr()
    ensures Owned(segment, hash, bits, shard, own) <==>
      segment.Valid() && segment.hash == hash && segment.bits == bits && segment.contents == shard
  {
  }

  lemma OwnedRepr<K(!new), V(!new)>(segment: Segment<K, V>, hash: K -> nat, bits: nat, shard: map<K, V>,
      own: set<object>)
    requires Owned(segment, hash, bits, shard, own)
    ensures own == segment.Repr()
  {
  }

  ghost predicate Apart(owns: seq<set<object>>, rest: set<object>) {
    && (forall i, j :: 0 <= i < j < |owns| ==> owns[i] !! owns[j])
    && (forall i :: 0 <= i < |owns| ==> owns[i] !! rest)
  }

  /** A footprint may grow by objects that nobody else owns. */
  lemma ApartGrow(owns: seq<set<object>>, rest: set<object>, i: nat, own: set<object>, others: set<object>)
    requires Apart(owns, rest) && i < |owns| && rest <= others && (forall j :: 0 <= j < |owns| ==> owns[j] <= others)
    requires own - owns[i] !! others
    ensures Apart(owns[i := own], rest)
    ensures own !! rest && forall j :: 0 <= j < |owns| ==> owns[j] !! rest
    ensures forall j :: 0 <= j < |owns| && j != i ==> owns[j] !! owns[i]
  {
  }

  class ConcurrentHashMap<K(==,!new), V(!new)> {
    const hash: K -> nat
    const bits: nat
    const segments: array<Segment?<K, V>>
    ghost var shards: seq<map<K, V>>
    ghost var contents: map<K, V>
    ghost var owns: seq<set<object>>
    ghost var repr: set<object>

    ghost predicate Valid()
      reads this, repr
    {
      && {this, segments} <= repr && segments.Length == |shards| == |owns|
      && Sharded(hash, bits, shards, contents)
      && Apart(owns, {this, segments})
      && (forall i :: 0 <= i < |owns| ==> owns[i] <= repr)
      && (forall i :: 0 <= i < |owns| ==> Owned(segments[i], hash, bits, shards[i], owns[i]))
    }

    constructor (hash: K -> nat, bits: nat)
      ensures Valid() && fresh(repr) && contents == map[] && this.hash == hash && this.bits == bits
    {
      this.hash, this.bits := hash, bits;
      var n := Pow2(bits);
      segments := new Segment?<K, V>[n](_ => null);
      shards, contents, owns := seq(n, _ => map[]), map[], seq(n, _ => {});
      new;
      repr := {this, segments};
    }

    method EnsureSegment(idx: nat) returns (segment: Segment<K, V>)
      requires Valid() && idx < segments.Length
      modifies segments, this`repr, this`owns
      ensures Valid() && fresh(repr - old(repr)) && segment == segments[idx]
    {
      hide Sharded;
      if segments[idx] == null {
        var newSegment := new Segment<K, V>(hash, bits, 3);
        segments[idx] := newSegment;
        owns, repr := owns[idx := newSegment.Repr()], repr + newSegment.Repr();
      }
      segment := segments[idx];
    }

    method Get(key: K) returns (res: Option<V>)
      requires Valid()
      modifies repr
      ensures Valid() && fresh(repr - old(repr)) && contents == old(contents)
      ensures res == if key in contents then Some(contents[key]) else None
    {
      hide Sharded, PickSegment, Segment.Valid, Segment.Repr;
      var idx := PickSegment(bits, hash(key));
      ShardedGet(hash, bits, shards, contents, key);
      var segment := EnsureSegment(idx);
      res := segment.Get(key);
    }

    method InsertOrUpdate(key: K, value: V) returns (keyExists: bool)
      requires Valid()
      modifies repr
      ensures Valid() && fresh(repr - old(repr))
      ensures contents == old(contents)[key := value] && keyExists == (key in old(contents))
    {
      hide Sharded, PickSegment, Segment.Valid, Segment.Repr, Apart, Owned;
      var idx := PickSegment(bits, hash(key));
      ShardedGet(hash, bits, shards, contents, key);
      var segment := EnsureSegment(idx);
      ghost var before := repr;
      OwnedRepr(segment, hash, bits, shards[idx], owns[idx]);
      OwnedIff(segment, hash, bits, shards[idx], owns[idx]);
      ApartGrow(owns, {this, segments}, idx, owns[idx], before);
      keyExists := segment.InsertOrUpdate(key, value);
      assert forall j :: 0 <= j < |owns| && j != idx ==> Owned(segments[j], hash, bits, shards[j], owns[j]);
      ShardedPut(hash, bits, shards, contents, key, value);
      ApartGrow(owns, {this, segments}, idx, segment.Repr(), before);
      OwnedIff(segment, hash, bits, segment.contents, segment.Repr());
      shards, contents := shards[idx := segment.contents], contents[key := value];
      owns, repr := owns[idx := segment.Repr()], repr + segment.Repr();
    }

    method Erase(key: K) returns (keyExists: bool)
      requires Valid()
      modifies repr
      ensures Valid() && fresh(repr - old(repr))
      ensures contents == old(contents) - {key} && keyExists == (key in old(contents))
    {
      hide Sharded, PickSegment, Segment.Valid, Segment.Repr, Apart, Owned;
      var idx := PickSegment(bits, hash(key));
      ShardedGet(hash, bits, shards, contents, key);
      var segment := EnsureSegment(idx);
      ghost var before := repr;
      OwnedRepr(segment, hash, bits, shards[idx], owns[idx]);
      OwnedIff(segment, hash, bits, shards[idx], owns[idx]);
      ApartGrow(owns, {this, segments}, idx, owns[idx], before);
      keyExists := segment.Erase(key);
      assert forall j :: 0 <= j < |owns| && j != idx ==> Owned(segments[j], hash, bits, shards[j], owns[j]);
      ShardedRemove(hash, bits, shards, contents, key);
      ApartGrow(owns, {this, segments}, idx, segment.Repr(), before);
      OwnedIff(segment, hash, bits, segment.contents, segment.Repr());
      shards, contents := shards[idx := segment.contents], contents - {key};
      owns := owns[idx := segment.Repr()];
    }
  }
}
