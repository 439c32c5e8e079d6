/** The remembered set of an old-space chunk: which words of it have been recorded. */
module RememberedSets {
  import opened Bitsets

  const WORD := 8                  // bytes in a pointer
  const BUCKET_BITS := 1024
  const BUCKET_CELLS := 16

  /** Bitwise or of two numbers. */
  function Or(a: nat, b: nat): nat
    decreases a + b
  {
    if a == 0 then b else if b == 0 then a
    else (if a % 2 == 1 || b % 2 == 1 then 1 else 0) + 2 * Or(a / 2, b / 2)
  }

  function Power(k: nat): (p: nat)
    ensures p > 0
  {
    if k == 0 then 1 else 2 * Power(k - 1)
  }

  /** Or-ing in a number below the lowest bit of a base adds it. */
  lemma {:induction false} OrAdds(a: nat, b: nat, k: nat)
    requires b < Power(k)
    ensures Or(a * Power(k), b) == a * Power(k) + b
    decreases k
  {
    if k > 0 {
      var p := Power(k - 1);
      assert a * Power(k) == 2 * (a * p) by { assert Power(k) == 2 * p; }
      OrAdds(a, b / 2, k - 1);
      if a * Power(k) != 0 && b != 0 {
        assert (2 * (a * p)) / 2 == a * p;
      }
    }
  }

  // ----- What is recorded ---------------------------------------------------

  /** A bucket is empty until something is recorded in it. */
  predicate Shaped(buckets: seq<seq<Cell>>)
  {
    forall i {:trigger buckets[i]} :: 0 <= i < |buckets| ==> buckets[i] == [] || |buckets[i]| == BUCKET_CELLS
  }

  /** Whether word number `w` of the chunk has been recorded. */
  predicate Has(buckets: seq<seq<Cell>>, w: nat)
    requires Shaped(buckets)
  {
    var i, bit := w / BUCKET_BITS, w % BUCKET_BITS;
    i < |buckets| && buckets[i] != [] && Bit(buckets[i][bit / CELL_BITS], bit % CELL_BITS)
  }

  /** The offsets are those of the recorded words below `limit`, in increasing order. */
  ghost predicate Listed(buckets: seq<seq<Cell>>, offsets: seq<nat>, limit: nat)
    requires Shaped(buckets)
  {
    && (forall j, k {:trigger offsets[j], offsets[k]} :: 0 <= j < k < |offsets| ==> offsets[j] < offsets[k])
    && (forall j {:trigger offsets[j]} ::
      0 <= j < |offsets| ==> offsets[j] % WORD == 0 && offsets[j] / WORD < limit && Has(buckets, offsets[j] / WORD))
    && (forall w: nat {:trigger Has(buckets, w)} :: w < limit && Has(buckets, w) ==> w * WORD in offsets)
  }

  lemma NoneBetween(buckets: seq<seq<Cell>>, offsets: seq<nat>, from: nat, limit: nat)
    requires Shaped(buckets) && Listed(buckets, offsets, from) && from <= limit
    requires forall w: nat {:trigger Has(buckets, w)} :: from <= w < limit ==> !Has(buckets, w)
    ensures Listed(buckets, offsets, limit)
  {
  }

  lemma OneMore(buckets: seq<seq<Cell>>, offsets: seq<nat>, w: nat)
    requires Shaped(buckets) && Listed(buckets, offsets, w) && Has(buckets, w)
    ensures Listed(buckets, offsets + [w * WORD], w + 1)
  {
    hide Has;
    var more := offsets + [w * WORD];
    forall v: nat | v < w + 1 && Has(buckets, v) ensures v * WORD in more {
      if v == w { assert more[|offsets|] == v * WORD; } else { assert v * WORD in offsets; }
    }
    forall j | 0 <= j < |more| ensures more[j] % WORD == 0 && more[j] / WORD < w + 1 && Has(buckets, more[j] / WORD) {
      if j < |offsets| { assert more[j] == offsets[j]; }
    }
  }

  class RememberedSet {
    const buckets: array<seq<Cell>>

    predicate Valid()
      reads buckets
    {
      Shaped(buckets[..])
    }

    constructor (chunkSize: nat)
      ensures Valid() && fresh(buckets) && buckets.Length == chunkSize / WORD / BUCKET_BITS
      ensures forall w: nat {:trigger Has(buckets[..], w)} :: !Has(buckets[..], w)
    {
      buckets := new seq<Cell>[chunkSize / WORD / BUCKET_BITS](_ => []);
    }

    /** Record an offset. */
    method Record(offset: nat)
      requires Valid() && offset % WORD == 0 && offset / WORD / BUCKET_BITS < buckets.Length
      modifies buckets
      ensures Valid()
      ensures forall w: nat {:trigger Has(buckets[..], w)} ::
        Has(buckets[..], w) == (old(Has(buckets[..], w)) || w == offset / WORD)
    {
      hide Bit;
      var word := offset / WORD;
      var i, bit := word / BUCKET_BITS, word % BUCKET_BITS;
      var bucket := buckets[i];
      if bucket == [] { bucket := seq(BUCKET_CELLS, _ => 0); }
      ghost var before := bucket;
      bucket := TrySetBit(bucket, bit);
      buckets[i] := bucket;
      assert buckets[..] == old(buckets[..])[i := bucket];
      forall w: nat ensures Has(buckets[..], w) == (old(Has(buckets[..], w)) || w == word) {
        RecordedOne(old(buckets[..]), i, before, bucket, word, w);
      }
    }

    /** All recorded offsets. */
    method ForEach() returns (offsets: seq<nat>)
      requires Valid()
      ensures Listed(buckets[..], offsets, buckets.Length * BUCKET_BITS)
    {
      offsets := [];
      var i := 0;
      while i < buckets.Length
        invariant 0 <= i <= buckets.Length && Listed(buckets[..], offsets, i * BUCKET_BITS)
      {
        if buckets[i] == [] {
          NoneBetween(buckets[..], offsets, i * BUCKET_BITS, (i + 1) * BUCKET_BITS);
        } else {
          offsets := ForEachInBucket(buckets[..], i, offsets);
        }
        i := i + 1;
      }
    }
  }

  /** Bit number `b` of a bucket. */
  predicate BitOf(bucket: seq<Cell>, b: nat)
    requires |bucket| == BUCKET_CELLS && b < BUCKET_BITS
  {
    Bit(bucket[b / CELL_BITS], b % CELL_BITS)
  }

  lemma RecordedOne(buckets: seq<seq<Cell>>, i: nat, before: seq<Cell>, after: seq<Cell>, word: nat, w: nat)
    requires Shaped(buckets) && i < |buckets| && i == word / BUCKET_BITS && |before| == |after| == BUCKET_CELLS
    requires if buckets[i] == [] then forall k {:trigger before[k]} ::
      0 <= k < BUCKET_CELLS ==> before[k] == 0 else before == buckets[i]
    requires forall b: nat {:trigger BitOf(after, b)} ::
      b < BUCKET_BITS ==> BitOf(after, b) == (BitOf(before, b) || b == word % BUCKET_BITS)
    ensures Shaped(buckets[i := after]) && Has(buckets[i := after], w) == (Has(buckets, w) || w == word)
  {
    hide Bit;
    if w / BUCKET_BITS == i {
      var b := w % BUCKET_BITS;
      assert BitOf(after, b) == (BitOf(before, b) || b == word % BUCKET_BITS);
      if buckets[i] == [] { ZeroHasNoBit(b % CELL_BITS); }
    }
  }

  /** Set a bit unless it is set. */
  method TrySetBit(bucket: seq<Cell>, bit: nat) returns (r: seq<Cell>)
    requires |bucket| == BUCKET_CELLS && bit < BUCKET_BITS
    ensures |r| == BUCKET_CELLS
    ensures forall b: nat {:trigger BitOf(r, b)} :: b < BUCKET_BITS ==> BitOf(r, b) == (BitOf(bucket, b) || b == bit)
  {
    hide Bit;
    var cell, mask := bucket[bit / CELL_BITS], Mask(bit % CELL_BITS);
    BitByMask(cell, bit % CELL_BITS);
    r := bucket;
    if Both(cell, mask) == 0 { r := bucket[bit / CELL_BITS := Either(cell, mask)]; }
    forall b: nat | b < BUCKET_BITS ensures BitOf(r, b) == (BitOf(bucket, b) || b == bit) {
      if b / CELL_BITS == bit / CELL_BITS { SetAndFlip(cell, bit % CELL_BITS, b % CELL_BITS); }
    }
  }

  /** The recorded offsets of one bucket, added to those before. */
  method ForEachInBucket(buckets: seq<seq<Cell>>, i: nat, before: seq<nat>) returns (offsets: seq<nat>)
    requires Shaped(buckets) && i < |buckets| && buckets[i] != [] && Listed(buckets, before, i * BUCKET_BITS)
    ensures Listed(buckets, offsets, (i + 1) * BUCKET_BITS)
  {
    hide Listed;
    offsets := before;
    var k := 0;
    while k < BUCKET_CELLS
      invariant 0 <= k <= BUCKET_CELLS && Listed(buckets, offsets, i * BUCKET_BITS + k * CELL_BITS)
    {
      offsets := ForEachInCell(buckets, i, k, offsets);
      k := k + 1;
    }
  }

  /** The same for one cell: take the lowest bit and clear it, until none is left. */
  method ForEachInCell(buckets: seq<seq<Cell>>, i: nat, k: nat, before: seq<nat>) returns (offsets: seq<nat>)
    requires Shaped(buckets) && i < |buckets| && buckets[i] != [] && k < BUCKET_CELLS
    requires Listed(buckets, before, i * BUCKET_BITS + k * CELL_BITS)
    ensures Listed(buckets, offsets, i * BUCKET_BITS + (k + 1) * CELL_BITS)
  {
    hide Listed, Bit, Lowest, Differ, TrailingZeros, Or, Power;
    offsets := before;
    var base := i * BUCKET_BITS * WORD;
    ghost var start := i * BUCKET_BITS + k * CELL_BITS;
    var data := buckets[i][k];
    ghost var cell := data;
    ghost var low := 0;
    while data != 0
      invariant 0 <= low <= CELL_BITS && Listed(buckets, offsets, start + low)
      invariant forall m: nat {:trigger Bit(data, m)} :: Bit(data, m) == (Bit(cell, m) && m >= low)
      decreases CELL_BITS - low
    {
      AllFit(data);
      LowestBit(data, CELL_BITS);
      var lowest := Lowest(data);
      var n := TrailingZeros(data, CELL_BITS);
      assert n >= low && Bit(cell, n);
      forall m: nat | low <= m < n ensures !Bit(cell, m) { assert !Bit(data, m); }
      Gap(buckets, i, k, low, n);
      CellHas(buckets, i, k, n);
      NoneBetween(buckets, offsets, start + low, start + n);
      OneMore(buckets, offsets, start + n);
      Offset(i, k, n);
      offsets := offsets + [Or(base, (k * CELL_BITS + n) * WORD)];
      forall m: nat ensures Bit(Differ(data, lowest), m) == (Bit(data, m) != (m == n)) { SetAndFlip(data, n, m); }
      data := Differ(data, lowest);
      low := n + 1;
    }
    forall m: nat | low <= m < CELL_BITS ensures !Bit(cell, m) { ZeroHasNoBit(m); }
    Gap(buckets, i, k, low, CELL_BITS);
    NoneBetween(buckets, offsets, start + low, start + CELL_BITS);
  }

  /** The offset of a word is put together from that of its bucket and that inside it. */
  lemma Offset(i: nat, k: nat, n: nat)
    requires k < BUCKET_CELLS && n < CELL_BITS
    ensures Or(i * BUCKET_BITS * WORD, (k * CELL_BITS + n) * WORD) == (i * BUCKET_BITS + k * CELL_BITS + n) * WORD
  {
    assert Power(13) == 8192;
    OrAdds(i, (k * CELL_BITS + n) * WORD, 13);
  }

  lemma {:induction false} CellHas(buckets: seq<seq<Cell>>, i: nat, k: nat, n: nat)
    requires Shaped(buckets) && i < |buckets| && buckets[i] != [] && k < BUCKET_CELLS && n < CELL_BITS
    ensures Has(buckets, i * BUCKET_BITS + k * CELL_BITS + n) == Bit(buckets[i][k], n)
  {
    hide Bit;
    var w := i * BUCKET_BITS + k * CELL_BITS + n;
    assert w / BUCKET_BITS == i && w % BUCKET_BITS == k * CELL_BITS + n;
  }

  lemma Gap(buckets: seq<seq<Cell>>, i: nat, k: nat, from: nat, limit: nat)
    requires Shaped(buckets) && i < |buckets| && buckets[i] != [] && k < BUCKET_CELLS && limit <= CELL_BITS
    requires forall m: nat {:trigger Bit(buckets[i][k], m)} :: from <= m < limit ==> !Bit(buckets[i][k], m)
    ensures forall w: nat {:trigger Has(buckets, w)} ::
      i * BUCKET_BITS + k * CELL_BITS + from <= w < i * BUCKET_BITS + k * CELL_BITS + limit ==> !Has(buckets, w)
  {
    hide Has, Bit;
    var start := i * BUCKET_BITS + k * CELL_BITS;
    forall w: nat | start + from <= w < start + limit ensures !Has(buckets, w) {
      CellHas(buckets, i, k, w - start);
      assert !Bit(buckets[i][k], w - start);
    }
  }
}
