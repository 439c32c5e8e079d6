/** The hash map: an array of buckets, each a linked list of nodes. */
module HashMaps {

  datatype Option<T> = None | Some(value: T)

  class Node<K, V> {
    const keyHash: nat
    const key: K
    var value: V
    var next: Node?<K, V>

    constructor (keyHash: nat, key: K, value: V)
      ensures this.keyHash == keyHash && this.key == key && this.value == value && next == null
    {
      this.keyHash, this.key, this.value, next := keyHash, key, value, null;
    }
  }

  function Slot(h: nat, count: nat): (b: nat)
    requires count > 0
    ensures b < count
  {
    h % count
  }

  /** The list that starts at `head` holds `chain`. */
  ghost predicate Chained<K, V>(head: Node?<K, V>, chain: seq<Node<K, V>>, repr: set<Node<K, V>>)
    reads repr
  {
    && (forall i {:trigger chain[i]} :: 0 <= i < |chain| ==> chain[i] in repr)
    && head == (if chain == [] then null else chain[0])
    && forall i {:trigger chain[i].next} ::
      0 <= i < |chain| ==> chain[i].next == if i + 1 < |chain| then chain[i + 1] else null
  }

  ghost predicate NoRepeats<K, V>(chain: seq<Node<K, V>>)
  {
    forall i, j {:trigger chain[i], chain[j]} :: 0 <= i < j < |chain| ==> chain[i] != chain[j]
  }

  ghost predicate InSlot<K, V>(chain: seq<Node<K, V>>, b: nat, count: nat)
    requires count > 0
  {
    forall i {:trigger chain[i]} :: 0 <= i < |chain| ==> Slot(chain[i].keyHash, count) == b
  }

  ghost predicate Bucket<K, V>(head: Node?<K, V>, chain: seq<Node<K, V>>, b: nat, count: nat, repr: set<Node<K, V>>)
    requires count > 0
    reads repr
  {
    Chained(head, chain, repr) && NoRepeats(chain) && InSlot(chain, b, count)
  }

  ghost predicate Buckets<K, V>(buckets: array<Node?<K, V>>, chains: seq<seq<Node<K, V>>>, repr: set<Node<K, V>>)
    reads buckets, repr
  {
    && buckets.Length > 0 && |chains| == buckets.Length
    && forall b {:trigger chains[b]} :: 0 <= b < |chains| ==> Bucket(buckets[b], chains[b], b, buckets.Length, repr)
  }

  /** Each node is in the bucket of its hash, and is the only one with its key. */
  ghost predicate Indexed<K, V>(hash: K -> nat, chains: seq<seq<Node<K, V>>>, nodeOf: map<K, Node<K, V>>,
      repr: set<Node<K, V>>)
  {
    && |chains| > 0
    && (forall f {:trigger f in repr} :: f in repr ==>
          f.keyHash == hash(f.key) && f in chains[Slot(f.keyHash, |chains|)] && f.key in nodeOf && nodeOf[f.key] == f)
    && (forall k {:trigger k in nodeOf} :: k in nodeOf ==> nodeOf[k] in repr && nodeOf[k].key == k)
  }

  /** Put a node behind the last one of its bucket. */
  method Link<K, V>(buckets: array<Node?<K, V>>, ghost chains: seq<seq<Node<K, V>>>, b: nat, last: Node?<K, V>,
      node: Node<K, V>, ghost repr: set<Node<K, V>>)
    requires Buckets(buckets, chains, repr) && b < |chains| && Slot(node.keyHash, buckets.Length) == b
    requires node !in repr && node.next == null
    requires last == if chains[b] == [] then null else chains[b][|chains[b]| - 1]
    modifies buckets, if last == null then {} else {last}
    ensures Buckets(buckets, chains[b := chains[b] + [node]], repr + {node})
    ensures last != null ==> last.next == node && last.value == old(last.value)
  {
    hide Slot;
    ghost var chain := chains[b];
    assert Bucket(buckets[b], chain, b, buckets.Length, repr);
    if last == null { buckets[b] := node; } else { last.next := node; }
    ghost var chains' := chains[b := chain + [node]];
    assert Bucket(buckets[b], chain + [node], b, buckets.Length, repr + {node});
    forall c | 0 <= c < |chains| && c != b ensures Bucket(buckets[c], chains[c], c, buckets.Length, repr + {node}) {
      assert old(Bucket(buckets[c], chains[c], c, buckets.Length, repr));
      forall i | 0 <= i < |chains[c]| ensures chains[c][i] != last {
        if last != null {
          assert Slot(chains[c][i].keyHash, buckets.Length) == c;
          assert Slot(chain[|chain| - 1].keyHash, buckets.Length) == b;
        }
      }
    }
  }

  lemma InBucket<K, V>(buckets: array<Node?<K, V>>, chains: seq<seq<Node<K, V>>>, b: nat, repr: set<Node<K, V>>)
    requires Buckets(buckets, chains, repr) && b < |chains|
    ensures chains[b] != [] ==> chains[b][|chains[b]| - 1] in repr
    ensures |chains| == buckets.Length > 0
  {
    assert Bucket(buckets[b], chains[b], b, buckets.Length, repr);
  }

  lemma IndexedMore<K, V>(hash: K -> nat, chains: seq<seq<Node<K, V>>>, nodeOf: map<K, Node<K, V>>,
      repr: set<Node<K, V>>, node: Node<K, V>)
    requires Indexed(hash, chains, nodeOf, repr) && node.key !in nodeOf && node.keyHash == hash(node.key)
    ensures
      var b := Slot(node.keyHash, |chains|);
      Indexed(hash, chains[b := chains[b] + [node]], nodeOf[node.key := node], repr + {node})
  {
    hide Slot;
    var b := Slot(node.keyHash, |chains|);
    var chains' := chains[b := chains[b] + [node]];
    forall f | f in repr ensures f in chains'[Slot(f.keyHash, |chains'|)] && f.key != node.key {
      assert f in chains[Slot(f.keyHash, |chains|)];
    }
    assert chains'[b][|chains[b]|] == node;
  }

  // ----- Rehashing ----------------------------------------------------------

  ghost predicate Untouched<K, V>(chain: seq<Node<K, V>>, done: set<Node<K, V>>, start: nat)
  {
    forall j {:trigger chain[j]} :: start <= j < |chain| ==> chain[j] !in done
  }

  ghost predicate Moved<K, V>(chain: seq<Node<K, V>>, done: set<Node<K, V>>, end: nat)
  {
    forall j {:trigger chain[j]} :: 0 <= j < end && j < |chain| ==> chain[j] in done
  }

  /** Every node that has been moved is in its bucket. */
  ghost predicate Placed<K, V>(chains: seq<seq<Node<K, V>>>, done: set<Node<K, V>>)
  {
    |chains| > 0 && forall f {:trigger f in done} :: f in done ==> f in chains[Slot(f.keyHash, |chains|)]
  }

  /** The last node of a bucket, found by walking through it. */
  method Tail<K, V>(buckets: array<Node?<K, V>>, ghost chains: seq<seq<Node<K, V>>>, b: nat,
      ghost repr: set<Node<K, V>>) returns (last: Node?<K, V>)
    requires Buckets(buckets, chains, repr) && b < |chains|
    ensures last == if chains[b] == [] then null else chains[b][|chains[b]| - 1]
  {
    ghost var chain := chains[b];
    assert Bucket(buckets[b], chain, b, buckets.Length, repr);
    last := null;
    var node := buckets[b];
    ghost var i := 0;
    while node != null
      invariant 0 <= i <= |chain| && last == (if i == 0 then null else chain[i - 1]) &&
        node == (if i < |chain| then chain[i] else null)
      decreases |chain| - i
    {
      last, node := node, node.next;
      i := i + 1;
    }
  }

  /** Take one node off its old list and put it behind the last one of its new bucket. */
  method Move<K, V>(buckets: array<Node?<K, V>>, ghost chains: seq<seq<Node<K, V>>>, node: Node<K, V>,
      ghost done: set<Node<K, V>>)
      returns (ghost chains': seq<seq<Node<K, V>>>, rest: Node?<K, V>)
    requires Buckets(buckets, chains, done) && Placed(chains, done) && node !in done
    modifies buckets, done, node
    ensures |chains'| == |chains| && Buckets(buckets, chains', done + {node}) && Placed(chains', done + {node})
    ensures rest == old(node.next)
    ensures forall f {:trigger f in done} :: f in done + {node} ==> f.value == old(f.value)
  {
    hide Slot, Bucket;
    var b := Slot(node.keyHash, buckets.Length);
    var last := Tail(buckets, chains, b, done);
    InBucket(buckets, chains, b, done);
    rest := node.next;
    node.next := null;
    Link(buckets, chains, b, last, node, done);
    chains' := chains[b := chains[b] + [node]];
    assert chains'[b][|chains[b]|] == node;
    forall f | f in done ensures f in chains'[Slot(f.keyHash, |chains'|)] {
      assert f in chains[Slot(f.keyHash, |chains|)];
    }
  }

  /** Move all nodes of one old bucket. */
  method MoveAll<K, V>(buckets: array<Node?<K, V>>, ghost chains: seq<seq<Node<K, V>>>, head: Node?<K, V>,
      ghost chain: seq<Node<K, V>>,
      ghost done: set<Node<K, V>>, ghost repr: set<Node<K, V>>)
      returns (ghost chains': seq<seq<Node<K, V>>>, ghost done': set<Node<K, V>>)
    requires Buckets(buckets, chains, done) && Placed(chains, done) && done <= repr
    requires Chained(head, chain, repr) && NoRepeats(chain) && Untouched(chain, done, 0)
    modifies buckets, repr
    ensures |chains'| == |chains| && Buckets(buckets, chains', done') && Placed(chains', done')
    ensures done <= done' <= repr && Moved(chain, done', |chain|)
    ensures forall f {:trigger f in done'} :: f in done' ==> f in done || f in chain
    ensures forall f {:trigger f in repr} ::
      f in repr ==> f.value == old(f.value) && (f !in done' ==> f.next == old(f.next))
  {
    hide Buckets, Placed;
    chains', done' := chains, done;
    var node := head;
    ghost var i := 0;
    while node != null
      invariant |chains'| == |chains| && Buckets(buckets, chains', done') && Placed(chains', done')
      invariant 0 <= i <= |chain| && node == (if i < |chain| then chain[i] else null)
      invariant done <= done' <= repr && Moved(chain, done', i) && Untouched(chain, done', i)
      invariant forall f {:trigger f in done'} :: f in done' ==> f in done || f in chain
      invariant forall f {:trigger f in repr} ::
        f in repr ==> f.value == old(f.value) && (f !in done' ==> f.next == old(f.next))
      decreases |chain| - i
    {
      assert node == chain[i];
      ghost var before := done';
      chains', node := Move(buckets, chains', node, done');
      done' := done' + {chain[i]};
      i := i + 1;
    }
  }

  lemma NothingYet<K, V>(buckets: array<Node?<K, V>>, chains: seq<seq<Node<K, V>>>)
    requires buckets.Length > 0 && |chains| == buckets.Length
    requires forall b :: 0 <= b < buckets.Length ==> buckets[b] == null && chains[b] == []
    ensures Buckets(buckets, chains, {})
  {
    forall b | 0 <= b < |chains| ensures Bucket(buckets[b], chains[b], b, buckets.Length, {}) {
      assert chains[b] == [];
    }
  }

  lemma AllBuckets<K, V>(buckets: array<Node?<K, V>>, chains: seq<seq<Node<K, V>>>, repr: set<Node<K, V>>)
    requires Buckets(buckets, chains, repr)
    ensures |chains| == buckets.Length > 0
    ensures forall c {:trigger chains[c]} ::
      0 <= c < |chains| ==> Bucket(buckets[c], chains[c], c, buckets.Length, repr)
  {
  }

  lemma NothingIndexed<K, V>(hash: K -> nat, chains: seq<seq<Node<K, V>>>)
    requires |chains| > 0
    ensures Indexed(hash, chains, map[], {})
  {
  }

  lemma NothingPlaced<K, V>(chains: seq<seq<Node<K, V>>>)
    requires |chains| > 0
    ensures Placed(chains, {})
  {
  }

  lemma IndexedAgain<K, V>(hash: K -> nat, chains: seq<seq<Node<K, V>>>, chains': seq<seq<Node<K, V>>>,
      nodeOf: map<K, Node<K, V>>, repr: set<Node<K, V>>)
    requires Indexed(hash, chains, nodeOf, repr) && Placed(chains', repr)
    ensures Indexed(hash, chains', nodeOf, repr)
  {
  }

  lemma IndexedPlaced<K, V>(hash: K -> nat, chains: seq<seq<Node<K, V>>>, nodeOf: map<K, Node<K, V>>,
      repr: set<Node<K, V>>)
    requires Indexed(hash, chains, nodeOf, repr)
    ensures Placed(chains, repr)
  {
  }

  /** The buckets from number `b` on have not been touched. */
  ghost predicate Waiting<K, V>(buckets: array<Node?<K, V>>, chains: seq<seq<Node<K, V>>>, b: nat,
      done: set<Node<K, V>>, repr: set<Node<K, V>>)
    requires |chains| == buckets.Length > 0
    reads buckets, repr
  {
    forall c {:trigger chains[c]} ::
      b <= c < |chains| ==> Bucket(buckets[c], chains[c], c, buckets.Length, repr) && Untouched(chains[c], done, 0)
  }

  /** New buckets with the same nodes. */
  method Redistribute<K, V>(buckets: array<Node?<K, V>>, ghost chains: seq<seq<Node<K, V>>>, count: nat,
      ghost repr: set<Node<K, V>>)
      returns (moved: array<Node?<K, V>>, ghost chains': seq<seq<Node<K, V>>>)
    requires Buckets(buckets, chains, repr) && Placed(chains, repr) && count > 0
    modifies repr
    ensures fresh(moved) && moved.Length == count == |chains'| && Buckets(moved, chains', repr) && Placed(chains', repr)
    ensures forall f {:trigger f in repr} :: f in repr ==> f.value == old(f.value)
  {
    hide Buckets, Placed, Slot, Bucket, Moved;
    moved := new Node?<K, V>[count](_ => null);
    chains' := seq(count, _ => []);
    ghost var done: set<Node<K, V>> := {};
    NothingYet(moved, chains');
    NothingPlaced(chains');
    AllBuckets(buckets, chains, repr);
    var b := 0;
    while b < buckets.Length
      invariant 0 <= b <= buckets.Length && |chains'| == count && done <= repr
      invariant Buckets(moved, chains', done) && Placed(chains', done)
      invariant forall c {:trigger chains[c]} :: 0 <= c < b ==> Moved(chains[c], done, |chains[c]|)
      invariant Waiting(buckets, chains, b, done, repr)
      invariant forall f {:trigger f in repr} :: f in repr ==> f.value == old(f.value)
    {
      ghost var before := done;
      chains', done := MoveBucket(buckets, chains, b, moved, chains', done, repr);
      forall c | 0 <= c < b ensures Moved(chains[c], done, |chains[c]|) { StillMoved(chains[c], before, done); }
      b := b + 1;
    }
    AllMoved(chains, done, repr);
  }

  /** Moving one bucket does not touch the nodes of another. */
  lemma OtherBucket<K, V>(other: seq<Node<K, V>>, c: nat, chain: seq<Node<K, V>>, b: nat, count: nat,
      before: set<Node<K, V>>, done: set<Node<K, V>>)
    requires count > 0 && b != c && InSlot(chain, b, count) && InSlot(other, c, count) && Untouched(other, before, 0)
    requires forall f {:trigger f in done} :: f in done ==> f in before || f in chain
    ensures Untouched(other, done, 0)
  {
  }

  /** Move the nodes of old bucket number `b`; the ones behind it wait as before. */
  method MoveBucket<K, V>(buckets: array<Node?<K, V>>, ghost chains: seq<seq<Node<K, V>>>, b: nat,
      moved: array<Node?<K, V>>,
      ghost movedChains: seq<seq<Node<K, V>>>, ghost done: set<Node<K, V>>, ghost repr: set<Node<K, V>>)
      returns (ghost chains': seq<seq<Node<K, V>>>, ghost done': set<Node<K, V>>)
    requires |chains| == buckets.Length && b < |chains| && buckets != moved && done <= repr
    requires Waiting(buckets, chains, b, done, repr) && Buckets(moved, movedChains, done) && Placed(movedChains, done)
    modifies moved, repr
    ensures |chains'| == |movedChains| && Buckets(moved, chains', done') && Placed(chains', done') &&
      done <= done' <= repr
    ensures Waiting(buckets, chains, b + 1, done', repr) && Moved(chains[b], done', |chains[b]|)
    ensures forall f {:trigger f in repr} :: f in repr ==> f.value == old(f.value)
  {
    hide Buckets, Placed, Slot, Moved;
    ghost var chain := chains[b];
    chains', done' := MoveAll(moved, movedChains, buckets[b], chain, done, repr);
    forall c | b < c < |chains| ensures Bucket(buckets[c], chains[c], c, buckets.Length, repr) && Untouched(chains[c],
      done', 0) {
      assert old(Bucket(buckets[c], chains[c], c, buckets.Length, repr));
      OtherBucket(chains[c], c, chain, b, buckets.Length, done, done');
    }
  }

  lemma StillMoved<K, V>(chain: seq<Node<K, V>>, before: set<Node<K, V>>, done: set<Node<K, V>>)
    requires Moved(chain, before, |chain|) && before <= done
    ensures Moved(chain, done, |chain|)
  {
  }

  lemma AllMoved<K, V>(chains: seq<seq<Node<K, V>>>, done: set<Node<K, V>>, repr: set<Node<K, V>>)
    requires Placed(chains, repr) && done <= repr
    requires forall c {:trigger chains[c]} :: 0 <= c < |chains| ==> Moved(chains[c], done, |chains[c]|)
    ensures done == repr
  {
    forall f | f in repr ensures f in done { assert f in chains[Slot(f.keyHash, |chains|)]; }
  }

  // ----- Removal ------------------------------------------------------------

  /** Take the node at position `i` out of its bucket. */
  method Unlink<K, V>(buckets: array<Node?<K, V>>, ghost chains: seq<seq<Node<K, V>>>, b: nat, ghost i: nat,
      prev: Node?<K, V>, node: Node<K, V>, ghost repr: set<Node<K, V>>)
    requires Buckets(buckets, chains, repr) && b < |chains| && i < |chains[b]| && node == chains[b][i]
    requires prev == if i == 0 then null else chains[b][i - 1]
    modifies buckets, repr
    ensures Buckets(buckets, chains[b := chains[b][..i] + chains[b][i + 1..]], repr - {node})
    ensures forall f {:trigger f in repr} :: f in repr ==> f.value == old(f.value)
  {
    hide Slot;
    ghost var chain := chains[b];
    ghost var rest := chain[..i] + chain[i + 1..];
    assert Bucket(buckets[b], chain, b, buckets.Length, repr);
    forall j | 0 <= j < |rest| ensures rest[j] == chain[if j < i then j else j + 1] {}
    if prev == null { buckets[b] := node.next; } else { prev.next := node.next; }
    assert Bucket(buckets[b], rest, b, buckets.Length, repr - {node});
    forall c | 0 <= c < |chains| && c != b ensures Bucket(buckets[c], chains[c], c, buckets.Length, repr - {node}) {
      assert old(Bucket(buckets[c], chains[c], c, buckets.Length, repr));
      forall j | 0 <= j < |chains[c]| ensures chains[c][j] != prev && chains[c][j] != node {
        assert Slot(chains[c][j].keyHash, buckets.Length) == c && Slot(node.keyHash, buckets.Length) == b;
        if prev != null { assert Slot(chain[i - 1].keyHash, buckets.Length) == b; }
      }
    }
  }

  lemma IndexedLess<K, V>(hash: K -> nat, chains: seq<seq<Node<K, V>>>, nodeOf: map<K, Node<K, V>>,
      repr: set<Node<K, V>>, key: K, i: nat)
    requires Indexed(hash, chains, nodeOf, repr) && key in nodeOf
    requires i < |chains[Slot(hash(key), |chains|)]| && chains[Slot(hash(key), |chains|)][i] == nodeOf[key]
    ensures
      var b := Slot(hash(key), |chains|);
      Indexed(hash, chains[b := chains[b][..i] + chains[b][i + 1..]], nodeOf - {key}, repr - {nodeOf[key]})
  {
    hide Slot;
    var b := Slot(hash(key), |chains|);
    var chain := chains[b];
    var rest := chain[..i] + chain[i + 1..];
    var chains' := chains[b := rest];
    forall f | f in repr && f != nodeOf[key] ensures f in chains'[Slot(f.keyHash, |chains'|)] && f.key != key {
      assert f in chains[Slot(f.keyHash, |chains|)];
      if Slot(f.keyHash, |chains|) == b {
        var j :| 0 <= j < |chain| && chain[j] == f;
        assert rest[if j < i then j else j - 1] == f;
      }
    }
  }

  // ----- Walking ------------------------------------------------------------

  /** The nodes of the first `n` buckets, bucket by bucket. */
  ghost function Flat<K, V>(chains: seq<seq<Node<K, V>>>, n: nat): seq<Node<K, V>>
    requires n <= |chains|
  {
    if n == 0 then [] else Flat(chains, n - 1) + chains[n - 1]
  }

  /** Each node of these buckets occurs once. */
  lemma {:induction false} FlatOnce<K, V>(buckets: array<Node?<K, V>>, chains: seq<seq<Node<K, V>>>, n: nat,
      repr: set<Node<K, V>>)
    requires Buckets(buckets, chains, repr) && n <= |chains|
    ensures |chains| == buckets.Length > 0 && NoRepeats(Flat(chains, n))
    ensures forall f {:trigger f in Flat(chains, n)} ::
      f in Flat(chains, n) ==> f in repr && Slot(f.keyHash, buckets.Length) < n
    ensures forall b {:trigger chains[b]} ::
      0 <= b < n ==> forall f {:trigger f in chains[b]} :: f in chains[b] ==> f in Flat(chains, n)
    decreases n
  {
    hide Slot;
    if n > 0 {
      FlatOnce(buckets, chains, n - 1, repr);
      var front, chain := Flat(chains, n - 1), chains[n - 1];
      assert Bucket(buckets[n - 1], chain, n - 1, buckets.Length, repr);
      forall i, j | 0 <= i < j < |front + chain| ensures (front + chain)[i] != (front + chain)[j] {
        if i < |front| && j >= |front| {
          assert front[i] in Flat(chains, n - 1);
          assert Slot(chain[j - |front|].keyHash, buckets.Length) == n - 1;
        }
      }
    }
  }

  /** Key and value of each node. */
  ghost predicate Shows<K, V>(seen: seq<(K, V)>, nodes: seq<Node<K, V>>)
    reads set i | 0 <= i < |nodes| :: nodes[i]
  {
    |seen| == |nodes| && forall i {:trigger nodes[i]} :: 0 <= i < |nodes| ==> seen[i] == (nodes[i].key, nodes[i].value)
  }

  /** Set all these, one after the other. */
  function Apply<K, V>(m: map<K, V>, entries: seq<(K, V)>): map<K, V>
  {
    if entries == [] then m
    else Apply(m, entries[..|entries| - 1])[entries[|entries| - 1].0 := entries[|entries| - 1].1]
  }

  /** The entries are those of the map `other`, each at least once. */
  ghost predicate Lists<K, V>(entries: seq<(K, V)>, other: map<K, V>)
  {
    && (forall e {:trigger e in entries} :: e in entries ==> e.0 in other && other[e.0] == e.1)
    && (forall k {:trigger k in other} :: k in other ==> (k, other[k]) in entries)
  }

  predicate Mentions<K(==), V>(entries: seq<(K, V)>, k: K)
  {
    entries != [] && (entries[|entries| - 1].0 == k || Mentions(entries[..|entries| - 1], k))
  }

  lemma {:induction false} MentionsIn<K, V>(entries: seq<(K, V)>, e: (K, V))
    requires e in entries
    ensures Mentions(entries, e.0)
    decreases |entries|
  {
    var front, last := entries[..|entries| - 1], entries[|entries| - 1];
    assert entries == front + [last];
    if last.0 != e.0 { MentionsIn(front, e); }
  }

  lemma {:induction false} ApplyAt<K, V>(m: map<K, V>, entries: seq<(K, V)>, other: map<K, V>, k: K)
    requires forall e {:trigger e in entries} :: e in entries ==> e.0 in other && other[e.0] == e.1
    ensures Mentions(entries, k) ==> k in other
    ensures k in Apply(m, entries) <==> k in m || Mentions(entries, k)
    ensures k in Apply(m, entries) ==> Apply(m, entries)[k] == if Mentions(entries, k) then other[k] else m[k]
    decreases |entries|
  {
    if entries != [] {
      var front, last := entries[..|entries| - 1], entries[|entries| - 1];
      assert entries == front + [last];
      assert last in entries;
      forall e | e in front ensures e in entries {}
      ApplyAt(m, front, other, k);
    }
  }

  lemma {:induction false} ApplyAll<K, V>(m: map<K, V>, entries: seq<(K, V)>, other: map<K, V>)
    requires Lists(entries, other)
    ensures Apply(m, entries) == m + other
  {
    hide Apply, Mentions;
    var all, sum := Apply(m, entries), m + other;
    forall k | k in all.Keys ensures k in sum.Keys { ApplyAt(m, entries, other, k); }
    forall k | k in sum.Keys ensures k in all.Keys && all[k] == sum[k] {
      ApplyAt(m, entries, other, k);
      if k in other { MentionsIn(entries, (k, other[k])); }
    }
  }

  /** The nodes of all buckets, against the index of keys. */
  lemma {:induction false} FlatIndexed<K, V>(hash: K -> nat, buckets: array<Node?<K, V>>,
      chains: seq<seq<Node<K, V>>>, nodeOf: map<K, Node<K, V>>, repr: set<Node<K, V>>)
    requires Buckets(buckets, chains, repr) && Indexed(hash, chains, nodeOf, repr)
    ensures NoRepeats(Flat(chains, |chains|))
    ensures forall f {:trigger f in Flat(chains, |chains|)} ::
      f in Flat(chains, |chains|) ==> f in repr && f.key in nodeOf && nodeOf[f.key] == f
    ensures forall k {:trigger k in nodeOf} ::
      k in nodeOf ==> nodeOf[k].key == k && nodeOf[k] in repr && nodeOf[k] in Flat(chains, |chains|)
  {
    hide Buckets, Slot, Flat, NoRepeats;
    FlatOnce(buckets, chains, |chains|, repr);
    forall k | k in nodeOf ensures nodeOf[k] in Flat(chains, |chains|) {
      var f := nodeOf[k];
      assert f in repr && f in chains[Slot(f.keyHash, |chains|)];
    }
  }

  class HashMap<K(==), V> {
    const hash: K -> nat
    var size: nat
    var buckets: array<Node?<K, V>>
    ghost var chains: seq<seq<Node<K, V>>>
    ghost var nodeOf: map<K, Node<K, V>>
    ghost var repr: set<Node<K, V>>

    ghost predicate Valid()
      reads this, buckets, repr
    {
      && buckets.Length > 0 && |chains| == buckets.Length && size == |nodeOf|
      && Buckets(buckets, chains, repr)
      && Indexed(hash, chains, nodeOf, repr)
    }

    /** The finite map that this is. */
    ghost function Model(): map<K, V>
      requires Valid()
      reads this, buckets, repr
    {
      map k | k in nodeOf :: nodeOf[k].value
    }

    constructor (hash: K -> nat, count: nat)
      ensures Valid() && Model() == map[] && this.hash == hash && fresh(buckets) && repr == {}
      ensures buckets.Length == if count < 3 then 3 else count
    {
      this.hash := hash;
      var n := if count < 3 then 3 else count;
      size := 0;
      buckets := new Node?<K, V>[n](_ => null);
      chains := seq(n, _ => []);
      nodeOf, repr := map[], {};
    }

    /** The bucket of a key: its hash, divided by the number of buckets, leaves the index. */
    lemma BucketOf(key: K) returns (i: nat)
      requires Valid() && key in nodeOf
      ensures
        var b := hash(key) % buckets.Length;
        && Chained(buckets[b], chains[b], repr) && i < |chains[b]| && chains[b][i] == nodeOf[key]
        && nodeOf[key].key == key
    {
      hide Chained;
      var f := nodeOf[key];
      assert f in repr;
      var b := Slot(f.keyHash, |chains|);
      i :| 0 <= i < |chains[b]| && chains[b][i] == f;
      assert Bucket(buckets[b], chains[b], b, buckets.Length, repr);
    }

    /** The value of a key, if it has one. */
    method Get(key: K) returns (r: Option<V>)
      requires Valid()
      ensures r == if key in Model() then Some(Model()[key]) else None
    {
      var h := hash(key);
      var b := Slot(h, buckets.Length);
      var node := buckets[b];
      ghost var i := 0;
      ghost var chain := chains[b];
      assert Bucket(buckets[b], chain, b, buckets.Length, repr);
      while node != null
        invariant 0 <= i <= |chain| && node == (if i < |chain| then chain[i] else null)
        invariant forall j {:trigger chain[j]} :: 0 <= j < i ==> chain[j].key != key
        decreases |chain| - i
      {
        if node.keyHash == h && node.key == key {
          return Some(node.value);
        }
        node := node.next;
        i := i + 1;
      }
      r := None;
    }

    /** Look for a key in its bucket: the node that has it, and the one before. */
    method Find(key: K, h: nat) returns (prev: Node?<K, V>, node: Node?<K, V>, ghost i: nat)
      requires Valid() && h == hash(key)
      ensures i <= |chains[Slot(h, buckets.Length)]|
      ensures
        var chain := chains[Slot(h, buckets.Length)];
        && prev == (if i == 0 then null else chain[i - 1]) && node == (if i < |chain| then chain[i] else null)
      ensures node == null ==> i == |chains[Slot(h, buckets.Length)]|
      ensures (node == null) == (key !in nodeOf) && (node != null ==> nodeOf[key] == node)
    {
      var b := Slot(h, buckets.Length);
      ghost var chain := chains[b];
      assert Bucket(buckets[b], chain, b, buckets.Length, repr);
      prev, node, i := null, buckets[b], 0;
      while node != null && !(node.keyHash == h && node.key == key)
        invariant 0 <= i <= |chain| && node == (if i < |chain| then chain[i] else null) &&
          prev == (if i == 0 then null else chain[i - 1])
        invariant forall j {:trigger chain[j]} :: 0 <= j < i ==> chain[j].key != key
        decreases |chain| - i
      {
        prev, node := node, node.next;
        i := i + 1;
      }
    }

    /** Insert or assign; the number of buckets grows first if there are fewer of them than nodes. */
    method Set(key: K, value: V)
      requires Valid()
      modifies this, buckets, repr
      ensures Valid() && fresh(repr - old(repr)) && (buckets == old(buckets) || fresh(buckets))
      ensures Model() == old(Model())[key := value]
      ensures buckets.Length == if old(size) > old(buckets.Length) then 2 * (old(size) - 1) else old(buckets.Length)
    {
      hide Buckets, Indexed, Model, Slot;
      if size > buckets.Length { Rehash((size - 1) * 2); }
      var h := hash(key);
      var prev, node, i := Find(key, h);
      if node != null {
        InRepr(key);
        Assign(key, node, value);
      } else {
        Insert(key, h, prev, value);
      }
    }

    lemma InRepr(key: K)
      requires Valid() && key in nodeOf
      ensures nodeOf[key] in repr
    {
    }

    method Assign(key: K, node: Node<K, V>, value: V)
      requires Valid() && key in nodeOf && nodeOf[key] == node
      modifies node
      ensures Valid() && Model() == old(Model())[key := value]
    {
      hide Slot, Indexed;
      InReprAll();
      AllBuckets(buckets, chains, repr);
      node.value := value;
      forall b | 0 <= b < |chains| ensures Bucket(buckets[b], chains[b], b, buckets.Length, repr) {
        assert old(Bucket(buckets[b], chains[b], b, buckets.Length, repr));
      }
    }

    method Insert(key: K, h: nat, last: Node?<K, V>, value: V)
      requires Valid() && key !in nodeOf && h == hash(key)
      requires
        var chain := chains[Slot(h, buckets.Length)];
        last == if chain == [] then null else chain[|chain| - 1]
      modifies this, buckets, repr
      ensures Valid() && fresh(repr - old(repr)) && buckets == old(buckets) && Model() == old(Model())[key := value]
    {
      hide Slot, Bucket, Buckets, Indexed;
      var node := new Node(h, key, value);
      var b := Slot(h, buckets.Length);
      InBucket(buckets, chains, b, repr);
      InReprAll();
      Link(buckets, chains, b, last, node, repr);
      assert forall k {:trigger k in nodeOf} :: k in nodeOf ==> nodeOf[k].value == old(nodeOf[k].value);
      IndexedMore(hash, chains, nodeOf, repr, node);
      chains := chains[b := chains[b] + [node]];
      nodeOf := nodeOf[key := node];
      repr := repr + {node};
      size := size + 1;
    }

    /** Distribute the nodes over another number of buckets, list by list, without copying any. */
    method Rehash(count: nat)
      requires Valid() && count > 0
      modifies this, repr
      ensures Valid() && repr == old(repr) && fresh(buckets) && buckets.Length == count && nodeOf == old(nodeOf)
      ensures Model() == old(Model())
    {
      hide Buckets, Placed, Slot, Indexed;
      IndexedPlaced(hash, chains, nodeOf, repr);
      var moved;
      ghost var chains';
      InReprAll();
      moved, chains' := Redistribute(buckets, chains, count, repr);
      IndexedAgain(hash, chains, chains', nodeOf, repr);
      buckets := moved;
      chains := chains';
    }

    lemma InReprAll()
      requires Valid()
      ensures forall k {:trigger k in nodeOf} :: k in nodeOf ==> nodeOf[k] in repr && nodeOf[k].key == k
    {
    }

    method Reserve(count: nat)
      requires Valid()
      modifies this, repr
      ensures Valid() && repr == old(repr) && Model() == old(Model())
      ensures buckets.Length == if count > old(buckets.Length) then count else old(buckets.Length)
      ensures buckets == old(buckets) || fresh(buckets)
    {
      if count <= buckets.Length { return; }
      Rehash(count);
    }

    /** As many buckets as nodes, unless there are more nodes already. An empty map is left without any bucket,
        and whatever comes next would look for one. */
    method Shrink()
      requires Valid()
      modifies this, repr
      ensures repr == old(repr) && (buckets == old(buckets) || fresh(buckets))
      ensures Valid() <==> old(size) > 0
      ensures if old(size) > 0 then Model() == old(Model()) else buckets.Length == 0 && size == 0
      ensures buckets.Length == if old(size) <= old(buckets.Length) then old(size) else old(buckets.Length)
    {
      if size > buckets.Length { return; }
      if size == 0 {
        buckets, chains := new Node?<K, V>[0], [];
      } else {
        Rehash(size);
      }
    }

    /** Delete a key; the node before takes over the list behind it. */
    method Remove(key: K) returns (found: bool)
      requires Valid()
      modifies this, buckets, repr
      ensures Valid() && repr <= old(repr) && buckets == old(buckets)
      ensures found == (key in old(Model())) && Model() == old(Model()) - {key}
    {
      hide Slot, Bucket, Buckets, Indexed;
      var h := hash(key);
      var prev, node, i := Find(key, h);
      if node == null { return false; }
      var b := Slot(h, buckets.Length);
      Unlink(buckets, chains, b, i, prev, node, repr);
      IndexedLess(hash, chains, nodeOf, repr, key, i);
      chains := chains[b := chains[b][..i] + chains[b][i + 1..]];
      nodeOf := nodeOf - {key};
      repr := repr - {node};
      size := size - 1;
      found := true;
    }

    method Clear()
      requires Valid()
      modifies this, buckets
      ensures Valid() && Model() == map[] && buckets == old(buckets) && repr <= old(repr)
    {
      hide Buckets, Indexed, Slot;
      if size == 0 { return; }
      var b := 0;
      while b < buckets.Length
        invariant unchanged(this) && 0 <= b <= buckets.Length
        invariant forall c {:trigger buckets[c]} :: 0 <= c < b ==> buckets[c] == null
      {
        buckets[b] := null;
        b := b + 1;
      }
      ghost var empty: seq<seq<Node<K, V>>> := seq(buckets.Length, _ => []);
      NothingYet(buckets, empty);
      NothingIndexed(hash, empty);
      size := 0;
      chains, nodeOf, repr := empty, map[], {};
    }

    /** Visit key and value of each node, until the visitor answers with a number other than zero. */
    method ForEach(visit: (K, V) -> int) returns (answer: int, seen: seq<(K, V)>, ghost walked: seq<Node<K, V>>)
      requires Valid()
      ensures walked <= Flat(chains, |chains|) &&
        (forall i {:trigger walked[i]} :: 0 <= i < |walked| ==> walked[i] in repr)
      ensures Shows(seen, walked)
      ensures seen == [] ==> answer == 0
      ensures seen != [] ==>
        Passed(visit, seen[..|seen| - 1]) && visit(seen[|seen| - 1].0, seen[|seen| - 1].1) == answer
      ensures answer == 0 ==> walked == Flat(chains, |chains|)
    {
      hide Indexed, Buckets, Flat, Slot;
      seen, answer, walked := [], 0, [];
      AllBuckets(buckets, chains, repr);
      FlatNone(chains);
      var b := 0;
      while b < buckets.Length
        invariant 0 <= b <= buckets.Length && walked == Flat(chains, b) && Shows(seen, walked)
        invariant forall i {:trigger walked[i]} :: 0 <= i < |walked| ==> walked[i] in repr
        invariant Passed(visit, seen) && answer == 0
      {
        var more;
        ghost var chain := chains[b];
        ghost var k;
        answer, more, k := Walk(buckets[b], chain, visit, repr);
        FlatNext(chains, b);
        ShowsMore(seen, walked, more, chain[..k]);
        seen := seen + more;
        walked := walked + chain[..k];
        if answer != 0 {
          FlatFront(chains, b + 1, |chains|);
          return;
        }
        b := b + 1;
      }
    }

    /** A visitor that never stops sees each binding, and no key twice. */
    lemma SeesAll(seen: seq<(K, V)>, walked: seq<Node<K, V>>)
      requires Valid() && walked == Flat(chains, |chains|) &&
        (forall i {:trigger walked[i]} :: 0 <= i < |walked| ==> walked[i] in repr)
      requires Shows(seen, walked)
      ensures Lists(seen, Model()) && forall i, j {:trigger seen[i], seen[j]} ::
        0 <= i < j < |seen| ==> seen[i].0 != seen[j].0
    {
      hide Buckets, Indexed, Flat;
      FlatIndexed(hash, buckets, chains, nodeOf, repr);
      forall e | e in seen ensures e.0 in Model() && Model()[e.0] == e.1 {
        var i :| 0 <= i < |seen| && seen[i] == e;
        assert walked[i] in Flat(chains, |chains|);
      }
      forall k | k in Model() ensures (k, Model()[k]) in seen {
        var i :| 0 <= i < |walked| && walked[i] == nodeOf[k];
        assert seen[i] == (k, Model()[k]);
      }
      forall i, j | 0 <= i < j < |seen| ensures seen[i].0 != seen[j].0 {
        assert walked[i] in Flat(chains, |chains|) && walked[j] in Flat(chains, |chains|);
      }
    }

    /** Set all bindings of another map, or of the map itself, as long as that does not make it distribute anew
        the buckets that are being walked. */
    method ExtendWith(other: HashMap<K, V>)
      requires Valid() && other.Valid()
      requires if other == this then size <= buckets.Length else other.buckets != buckets && other.repr !! repr
      modifies this, buckets, repr
      ensures Valid() && Model() == old(Model()) + old(other.Model())
    {
      hide Buckets, Indexed, Flat, Model, Apply, Shows, Lists;
      var answer, seen, walked := other.ForEach((k, v) => 0);
      other.SeesAll(seen, walked);
      ghost var all, before := other.Model(), Model();
      ApplyNone(before);
      var i := 0;
      while i < |seen|
        invariant 0 <= i <= |seen| && Valid() && fresh(repr - old(repr)) && (buckets == old(buckets) || fresh(buckets))
        invariant Model() == Apply(before, seen[..i])
      {
        Set(seen[i].0, seen[i].1);
        ApplyNext(before, seen, i);
        i := i + 1;
      }
      assert seen[..i] == seen;
      ApplyAll(before, seen, all);
    }
  }

  /** The visitor has let all these pass. */
  predicate Passed<K, V>(visit: (K, V) -> int, seen: seq<(K, V)>)
  {
    forall i {:trigger seen[i]} :: 0 <= i < |seen| ==> visit(seen[i].0, seen[i].1) == 0
  }

  /** Visit the nodes of one bucket. */
  method Walk<K, V>(head: Node?<K, V>, ghost chain: seq<Node<K, V>>, visit: (K, V) -> int, ghost repr: set<Node<K, V>>)
      returns (answer: int, seen: seq<(K, V)>, ghost k: nat)
    requires Chained(head, chain, repr)
    ensures k <= |chain| && Shows(seen, chain[..k])
    ensures answer == 0 ==> k == |chain| && Passed(visit, seen)
    ensures answer != 0 ==>
      seen != [] && Passed(visit, seen[..|seen| - 1]) && visit(seen[|seen| - 1].0, seen[|seen| - 1].1) == answer
  {
    var node := head;
    seen, answer, k := [], 0, 0;
    while node != null
      invariant 0 <= k <= |chain| && node == (if k < |chain| then chain[k] else null)
      invariant Shows(seen, chain[..k]) && Passed(visit, seen) && answer == 0
      decreases |chain| - k
    {
      seen := seen + [(node.key, node.value)];
      answer := visit(node.key, node.value);
      k := k + 1;
      if answer != 0 { return; }
      node := node.next;
    }
  }

  lemma ShowsMore<K, V>(seen: seq<(K, V)>, nodes: seq<Node<K, V>>, more: seq<(K, V)>, others: seq<Node<K, V>>)
    requires Shows(seen, nodes) && Shows(more, others)
    ensures Shows(seen + more, nodes + others)
  {
    var all := nodes + others;
    forall i | 0 <= i < |all| ensures (seen + more)[i] == (all[i].key, all[i].value) {
      assert all[i] == if i < |nodes| then nodes[i] else others[i - |nodes|];
    }
  }

  lemma {:induction false} FlatNone<K, V>(chains: seq<seq<Node<K, V>>>)
    ensures Flat(chains, 0) == []
  {
  }

  lemma FlatNext<K, V>(chains: seq<seq<Node<K, V>>>, b: nat)
    requires b < |chains|
    ensures Flat(chains, b + 1) == Flat(chains, b) + chains[b]
  {
  }

  lemma {:induction false} ApplyNone<K, V>(m: map<K, V>)
    ensures Apply(m, []) == m
  {
  }

  lemma {:induction false} ApplyNext<K, V>(m: map<K, V>, entries: seq<(K, V)>, i: nat)
    requires i < |entries|
    ensures Apply(m, entries[..i + 1]) == Apply(m, entries[..i])[entries[i].0 := entries[i].1]
  {
    assert entries[..i + 1][..i] == entries[..i];
  }

  lemma {:induction false} FlatFront<K, V>(chains: seq<seq<Node<K, V>>>, m: nat, n: nat)
    requires m <= n <= |chains|
    ensures Flat(chains, m) <= Flat(chains, n)
    decreases n
  {
    if m < n { FlatFront(chains, m, n - 1); }
  }
}
