/** Which stored chunks are read when all chunks of a tensor are asked for: torch's read items for a chunk list, one
    for every wanted chunk and every stored chunk it overlaps
    (tools/convert_torch_dist_to_hf_ray.py, lines 506-510 and 540). */
module ChunkReads {
  import opened Sequences
  import opened MoeChunks

  predicate SameRank(a: ReadItem, b: ReadItem) {
    |a.offset| == |a.lengths| == |b.offset| == |b.lengths|
  }

  predicate Overlap(a: ReadItem, b: ReadItem) {
    SameRank(a, b) && forall d :: 0 <= d < |a.offset| ==>
      a.offset[d] < b.offset[d] + b.lengths[d] && b.offset[d] < a.offset[d] + a.lengths[d]
  }

  function Min(a: int, b: int): int { if a <= b then a else b }

  function Max(a: int, b: int): int { if a <= b then b else a }

  /** The read item for stored chunk `b` when `a` is wanted: where `b` starts, and how much of it is read. */
  function ReadOf(a: ReadItem, b: ReadItem): ReadItem
    requires Overlap(a, b)
  {
    ReadItem(b.offset, seq(|a.offset|, d requires 0 <= d < |a.offset| =>
      Min(a.offset[d] + a.lengths[d], b.offset[d] + b.lengths[d]) - Max(a.offset[d], b.offset[d])))
  }

  /** The numbers below `n` that `wanted` picks, in order. */
  function Picks(wanted: nat -> bool, n: nat): seq<nat> {
    if n == 0 then [] else Picks(wanted, n - 1) + (if wanted(n - 1) then [n - 1] else [])
  }

  function Overlaps(chunks: seq<ReadItem>, i: nat): nat -> bool
    requires i < |chunks|
  {
    (j: nat) => j < |chunks| && Overlap(chunks[i], chunks[j])
  }

  /** The stored chunks that overlap chunk `i`. */
  function RowReads(chunks: seq<ReadItem>, i: nat): seq<nat>
    requires i < |chunks|
  {
    Picks(Overlaps(chunks, i), |chunks|)
  }

  function ReadsFrom(chunks: seq<ReadItem>, i: nat): seq<nat>
    decreases |chunks| - i
  {
    if i >= |chunks| then [] else RowReads(chunks, i) + ReadsFrom(chunks, i + 1)
  }

  /** The stored chunks that are read, in the order of the read items. */
  function Reads(chunks: seq<ReadItem>): seq<nat> {
    ReadsFrom(chunks, 0)
  }

  /** No two chunks overlap. */
  predicate Separate(chunks: seq<ReadItem>) {
    forall i, j :: 0 <= i < |chunks| && 0 <= j < |chunks| && i != j ==> !Overlap(chunks[i], chunks[j])
  }

  /** A chunk is read for itself exactly when it stores something, and then as a whole. */
  lemma ReadForItself(c: ReadItem)
    requires |c.offset| == |c.lengths|
    ensures Overlap(c, c) <==> forall d :: 0 <= d < |c.lengths| ==> c.lengths[d] > 0
    ensures Overlap(c, c) ==> ReadOf(c, c) == c
  {
    if Overlap(c, c) {
      forall d | 0 <= d < |c.lengths| ensures c.lengths[d] > 0 {
        assert c.offset[d] < c.offset[d] + c.lengths[d];
      }
      assert ReadOf(c, c).lengths == c.lengths;
    }
  }

  /** How many of the chunks from `i` on overlap chunk `j`. */
  function Overlapping(chunks: seq<ReadItem>, i: nat, j: nat): nat
    requires j < |chunks|
    decreases |chunks| - i
  {
    if i >= |chunks| then 0 else (if Overlap(chunks[i], chunks[j]) then 1 else 0) + Overlapping(chunks, i + 1, j)
  }

  lemma {:induction false} PicksCount(wanted: nat -> bool, n: nat, j: nat)
    ensures multiset(Picks(wanted, n))[j] == if j < n && wanted(j) then 1 else 0
  {
    if n > 0 {
      PicksCount(wanted, n - 1, j);
      assert multiset(Picks(wanted, n - 1) + [n - 1])[j]
          == multiset(Picks(wanted, n - 1))[j] + if j == n - 1 then 1 else 0;
    }
  }

  lemma {:induction false} ReadsFromCount(chunks: seq<ReadItem>, i: nat, j: nat)
    ensures multiset(ReadsFrom(chunks, i))[j] == if j < |chunks| then Overlapping(chunks, i, j) else 0
    decreases |chunks| - i
  {
    if i < |chunks| {
      PicksCount(Overlaps(chunks, i), |chunks|, j);
      ReadsFromCount(chunks, i + 1, j);
    }
  }

  lemma {:induction false} OverlappingOnlyItself(chunks: seq<ReadItem>, i: nat, j: nat)
    requires j < |chunks|
    ensures var own := if i <= j && Overlap(chunks[j], chunks[j]) then 1 else 0;
      && Overlapping(chunks, i, j) >= own
      && (Overlapping(chunks, i, j) == own <==>
            forall k :: i <= k < |chunks| && k != j ==> !Overlap(chunks[k], chunks[j]))
    decreases |chunks| - i
  {
    if i < |chunks| {
      OverlappingOnlyItself(chunks, i + 1, j);
    }
  }

  ghost predicate ReadOnce(chunks: seq<ReadItem>, j: nat)
    requires j < |chunks|
  {
    multiset(Reads(chunks))[j] == if Overlap(chunks[j], chunks[j]) then 1 else 0
  }

  /** Every chunk that stores something is read once, and no other, exactly when no two chunks overlap. */
  lemma ReadOnceIffSeparate(chunks: seq<ReadItem>)
    ensures (forall j :: 0 <= j < |chunks| ==> ReadOnce(chunks, j)) <==> Separate(chunks)
  {
    forall j | 0 <= j < |chunks|
      ensures ReadOnce(chunks, j) <==> forall k :: 0 <= k < |chunks| && k != j ==> !Overlap(chunks[k], chunks[j])
    {
      ReadsFromCount(chunks, 0, j);
      OverlappingOnlyItself(chunks, 0, j);
    }
  }

  lemma ReadsAreChunks(chunks: seq<ReadItem>)
    ensures forall j :: j in Reads(chunks) ==> j < |chunks|
  {
    forall j | j in Reads(chunks) ensures j < |chunks| {
      assert j in multiset(Reads(chunks));
      ReadsFromCount(chunks, 0, j);
    }
  }

  lemma {:induction false} PicksOne(wanted: nat -> bool, n: nat, i: nat)
    requires forall j :: 0 <= j < n && wanted(j) ==> j == i
    ensures Picks(wanted, n) == if i < n && wanted(i) then [i] else []
  {
    if n > 0 {
      PicksOne(wanted, n - 1, i);
    }
  }

  lemma SeparateRow(chunks: seq<ReadItem>, i: nat)
    requires Separate(chunks) && i < |chunks|
    ensures RowReads(chunks, i) == if Overlap(chunks[i], chunks[i]) then [i] else []
  {
    PicksOne(Overlaps(chunks, i), |chunks|, i);
  }
}
