/** The list of recorded offsets, which the collector works on, and the bits that stand for it. */
module Recording {
  import opened Layout
  import opened Mutator
  import opened Bitsets
  import opened RememberedSets

  /** The bits are those of the offsets in the list. */
  ghost predicate SameRecords(list: seq<nat>, buckets: seq<seq<Cell>>)
    requires Shaped(buckets)
  {
    && Increasing(list)
    && (forall off {:trigger off in list} :: off in list ==> off % WORD == 0 && Has(buckets, off / WORD))
    && (forall w: nat {:trigger Has(buckets, w)} :: Has(buckets, w) ==> w * WORD in list)
  }

  lemma NoRecords(buckets: seq<seq<Cell>>)
    requires Shaped(buckets) && forall w: nat {:trigger Has(buckets, w)} :: !Has(buckets, w)
    ensures SameRecords([], buckets)
  {
  }

  /** One more offset in both. */
  lemma {:induction false} RecordSame(list: seq<nat>, before: seq<seq<Cell>>, after: seq<seq<Cell>>, off: nat)
    requires Shaped(before) && Shaped(after) && SameRecords(list, before) && off % WORD == 0
    requires forall w: nat {:trigger Has(after, w)} :: Has(after, w) == (Has(before, w) || w == off / WORD)
    ensures SameRecords(Record(list, off), after)
  {
    hide Has, Increasing;
    RecordIncreasing(list, off);
    forall x | x in Record(list, off) ensures x % WORD == 0 && Has(after, x / WORD) { RecordMembers(list, off, x); }
    forall w: nat | Has(after, w) ensures w * WORD in Record(list, off) { RecordMembers(list, off, w * WORD); }
  }

  /** Increasing sequences with the same members are the same. */
  lemma {:induction false} SameIncreasing(a: seq<nat>, b: seq<nat>)
    requires Increasing(a) && Increasing(b) && forall x :: x in a <==> x in b
    ensures a == b
    decreases |a|
  {
    if a == [] {
      HasFirst(b);
    } else {
      assert a[0] in b;
      assert b[0] in a;
      LeastFirst(a, b[0]);
      LeastFirst(b, a[0]);
      TailIncreasing(a);
      TailIncreasing(b);
      forall x ensures x in a[1..] <==> x in b[1..] {
        assert x in a <==> x == a[0] || x in a[1..];
        assert x in b <==> x == b[0] || x in b[1..];
      }
      SameIncreasing(a[1..], b[1..]);
      assert a == [a[0]] + a[1..] && b == [b[0]] + b[1..];
    }
  }

  lemma HasFirst(a: seq<nat>)
    ensures a != [] ==> a[0] in a
  {
  }

  lemma LeastFirst(a: seq<nat>, x: nat)
    requires Increasing(a) && x in a
    ensures a[0] <= x
  {
    var k :| 0 <= k < |a| && a[k] == x;
    assert Before(0, k) <==> 0 < k;
  }

  lemma TailIncreasing(a: seq<nat>)
    requires Increasing(a) && a != []
    ensures Increasing(a[1..]) && a[0] !in a[1..]
  {
    var b := a[1..];
    forall j, k | 0 <= j && Before(j, k) && k < |b| ensures b[j] < b[k] { assert Before(j + 1, k + 1); }
    forall k | 0 <= k < |b| ensures b[k] != a[0] { assert Before(0, k + 1); }
  }

  /** Iterating over the bits yields the list. */
  lemma IterationIsList(list: seq<nat>, buckets: seq<seq<Cell>>, offsets: seq<nat>, limit: nat)
    requires Shaped(buckets) && SameRecords(list, buckets) && Listed(buckets, offsets, limit)
    requires forall off {:trigger off in list} :: off in list ==> off / WORD < limit
    ensures offsets == list
  {
    hide Has, Increasing;
    assert Increasing(offsets) by { ListedIncreasing(buckets, offsets, limit); }
    forall x ensures x in offsets <==> x in list {
      if x in offsets {
        var j :| 0 <= j < |offsets| && offsets[j] == x;
        assert x / WORD * WORD == x;
      }
      if x in list { assert Has(buckets, x / WORD) && x / WORD * WORD == x; }
    }
    SameIncreasing(offsets, list);
  }

  lemma ListedIncreasing(buckets: seq<seq<Cell>>, offsets: seq<nat>, limit: nat)
    requires Shaped(buckets) && Listed(buckets, offsets, limit)
    ensures Increasing(offsets)
  {
    hide Has;
  }

  /** The list after some more offsets have been recorded. */
  function Recorded(list: seq<nat>, offs: seq<nat>): seq<nat>
    decreases |offs|
  {
    if offs == [] then list else Record(Recorded(list, offs[..|offs| - 1]), offs[|offs| - 1])
  }

  lemma {:induction false} RecordedMembers(list: seq<nat>, offs: seq<nat>, x: nat)
    ensures x in Recorded(list, offs) <==> x in list || x in offs
    decreases |offs|
  {
    if offs != [] {
      var n := |offs| - 1;
      RecordedMembers(list, offs[..n], x);
      RecordMembers(Recorded(list, offs[..n]), offs[n], x);
      assert offs == offs[..n] + [offs[n]];
    }
  }

  /** Recording any word-aligned offsets of a chunk in its remembered set, in any order and as often
      as one likes, then iterating over the bits, gives the list that the collector works on. */
  method RecordThenIterate(chunkSize: nat, offs: seq<nat>) returns (offsets: seq<nat>)
    requires forall off {:trigger off in offs} ::
      off in offs ==> off % WORD == 0 && off / WORD / BUCKET_BITS < chunkSize / WORD / BUCKET_BITS
    ensures offsets == Recorded([], offs)
  {
    hide Has, Listed, Increasing, SameRecords, Record;
    var set_ := new RememberedSet(chunkSize);
    NoRecords(set_.buckets[..]);
    var k := 0;
    while k < |offs|
      invariant 0 <= k <= |offs| && set_.Valid() && set_.buckets.Length == chunkSize / WORD / BUCKET_BITS &&
        fresh(set_.buckets)
      invariant SameRecords(Recorded([], offs[..k]), set_.buckets[..])
    {
      assert offs[k] in offs && offs[..k + 1][..k] == offs[..k];
      ghost var before := set_.buckets[..];
      set_.Record(offs[k]);
      RecordSame(Recorded([], offs[..k]), before, set_.buckets[..], offs[k]);
      k := k + 1;
    }
    assert offs[..k] == offs;
    offsets := set_.ForEach();
    forall off | off in Recorded([], offs) ensures off / WORD < set_.buckets.Length * BUCKET_BITS {
      RecordedMembers([], offs, off);
      assert off in offs;
    }
    IterationIsList(Recorded([], offs), set_.buckets[..], offsets, set_.buckets.Length * BUCKET_BITS);
  }
}
