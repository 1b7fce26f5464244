/** Splitting stacked expert tensors into per-file blocks and packing the blocks into tasks
    (tools/convert_torch_dist_to_hf_ray.py, lines 534-563 and 777-834). */
module MoeBlocks {
  import opened Wrappers
  import opened Sequences
  import opened Sorting
  import opened Bucketing
  import opened MoeChunks
  import opened ChunkReads

  /** A stored chunk: its place in the tensor, the file that holds it, and its stored length. */
  datatype StoredChunk = StoredChunk(item: ReadItem, file: string, bytes: nat)

  datatype TensorMeta = TensorMeta(size: seq<nat>, elementBytes: nat, chunks: seq<StoredChunk>)

  /** The chunks of one source tensor that live in one file, by index into the tensor's chunk list. */
  datatype Block = Block(key: string, file: string, indices: seq<nat>)

  datatype Sized = Sized(bytes: nat, block: Block)

  const DEFAULT_DIRECT_MOE_GROUP_SIZE: int := 2 * 1024 * 1024 * 1024

  function Items(meta: TensorMeta): seq<ReadItem> {
    seq(|meta.chunks|, i requires 0 <= i < |meta.chunks| => meta.chunks[i].item)
  }

  /** The chunks that are read when the whole tensor is asked for. */
  function ReadsOf(meta: TensorMeta): seq<nat> {
    Reads(Items(meta))
  }

  /** Whether a tensor is converted chunk by chunk: it parses as a stacked expert weight, it has
      something to read, and every read item is supported. */
  predicate Direct(parsed: Option<ExpertKey>, meta: TensorMeta) {
    && parsed.Some?
    && ReadsOf(meta) != []
    && forall i, j :: 0 <= i < |Items(meta)| && 0 <= j < |Items(meta)| && Overlap(Items(meta)[i], Items(meta)[j]) ==>
         Supported(parsed, ReadOf(Items(meta)[i], Items(meta)[j]), meta.size)
  }

  function FileOf(meta: TensorMeta): nat -> string {
    (i: nat) => if i < |meta.chunks| then meta.chunks[i].file else ""
  }

  function BytesOf(meta: TensorMeta): nat -> int {
    (i: nat) => if i < |meta.chunks| then meta.chunks[i].bytes else 0
  }

  predicate IntLe(a: int, b: int) { a <= b }

  function OffsetLe(meta: TensorMeta): (nat, nat) -> bool {
    (i: nat, j: nat) => i < |meta.chunks| && j < |meta.chunks| &&
                        LexLe(meta.chunks[i].item.offset, meta.chunks[j].item.offset, IntLe)
  }

  function BlockFor(key: string, meta: TensorMeta, file: string): Block {
    Block(key, file, Sort(Members(ReadsOf(meta), FileOf(meta), file), OffsetLe(meta)))
  }

  function BlocksFor(key: string, meta: TensorMeta, files: seq<string>): seq<Block> {
    if files == [] then [] else [BlockFor(key, meta, files[0])] + BlocksFor(key, meta, files[1..])
  }

  function Files(meta: TensorMeta): seq<string> {
    Sort(Labels(ReadsOf(meta), FileOf(meta)), StringLe)
  }

  /** `create_moe_block_specs`. */
  method CreateMoeBlockSpecs(key: string, parsed: Option<ExpertKey>, meta: TensorMeta)
    returns (r: Option<seq<Block>>)
    ensures r == if Direct(parsed, meta) then Some(BlocksFor(key, meta, Files(meta))) else None
  {
    if !Direct(parsed, meta) {
      return None;
    }
    var order, byFile := Bucket(ReadsOf(meta), FileOf(meta));
    var files := Sort(order, StringLe);
    SortMembers(order, StringLe);
    var blocks: seq<Block> := [];
    for i := 0 to |files|
      invariant blocks + BlocksFor(key, meta, files[i..]) == BlocksFor(key, meta, files)
    {
      assert files[i] in files;
      var block := Block(key, files[i], Sort(byFile[files[i]], OffsetLe(meta)));
      blocks := blocks + [block];
    }
    assert files == Files(meta);
    assert files[|files|..] == [];
    assert blocks + [] == blocks;
    return Some(blocks);
  }

  function OnlyAt(i: nat): nat -> int {
    (j: nat) => if j == i then 1 else 0
  }

  /** How often chunk `i` of tensor `key` is listed by a block. */
  function Stores(key: string, i: nat): Block -> int {
    (b: Block) => if b.key == key then multiset(b.indices)[i] else 0
  }

  function BlockBytes(meta: TensorMeta): Block -> int {
    (b: Block) => SumOf(b.indices, BytesOf(meta))
  }

  lemma {:induction false} CountIsSum(s: seq<nat>, i: nat)
    ensures multiset(s)[i] == SumOf(s, OnlyAt(i))
  {
    if s != [] {
      assert s == [s[0]] + s[1..];
      CountIsSum(s[1..], i);
    }
  }

  function MembersWeight(meta: TensorMeta, weight: nat -> int): string -> int {
    (f: string) => SumOf(Members(ReadsOf(meta), FileOf(meta), f), weight)
  }

  lemma {:induction false} TotalIsSum(files: seq<string>, meta: TensorMeta, weight: nat -> int)
    ensures Total(files, ReadsOf(meta), FileOf(meta), weight) == SumOf(files, MembersWeight(meta, weight))
  {
    if files != [] {
      TotalIsSum(files[1..], meta, weight);
    }
  }

  /** The files' buckets weigh what the chunks weigh, also after sorting the files. */
  lemma FilesConserve(meta: TensorMeta, weight: nat -> int)
    ensures SumOf(Files(meta), MembersWeight(meta, weight)) == SumOf(ReadsOf(meta), weight)
  {
    var order := Labels(ReadsOf(meta), FileOf(meta));
    BucketsConserve(ReadsOf(meta), FileOf(meta), weight);
    TotalIsSum(order, meta, weight);
    SortPermutes(order, StringLe);
    SumOfPermutation(Files(meta), order, MembersWeight(meta, weight));
  }

  lemma {:induction false} BlocksStore(key: string, meta: TensorMeta, files: seq<string>, i: nat)
    ensures SumOf(BlocksFor(key, meta, files), Stores(key, i)) == SumOf(files, MembersWeight(meta, OnlyAt(i)))
  {
    if files != [] {
      BlocksStore(key, meta, files[1..], i);
      var members := Members(ReadsOf(meta), FileOf(meta), files[0]);
      SortPermutes(members, OffsetLe(meta));
      CountIsSum(members, i);
      assert BlocksFor(key, meta, files)[1..] == BlocksFor(key, meta, files[1..]);
    }
  }

  lemma {:induction false} BlocksWeigh(key: string, meta: TensorMeta, files: seq<string>)
    ensures SumOf(BlocksFor(key, meta, files), BlockBytes(meta)) == SumOf(files, MembersWeight(meta, BytesOf(meta)))
  {
    if files != [] {
      BlocksWeigh(key, meta, files[1..]);
      var members := Members(ReadsOf(meta), FileOf(meta), files[0]);
      SortPermutes(members, OffsetLe(meta));
      SumOfPermutation(Sort(members, OffsetLe(meta)), members, BytesOf(meta));
      assert BlocksFor(key, meta, files)[1..] == BlocksFor(key, meta, files[1..]);
    }
  }

  /** The blocks of a tensor list what is read, as often as it is read, and nothing else; and they weigh the same. */
  lemma BlocksListReads(key: string, meta: TensorMeta)
    ensures forall i: nat :: SumOf(BlocksFor(key, meta, Files(meta)), Stores(key, i)) == multiset(ReadsOf(meta))[i]
    ensures SumOf(BlocksFor(key, meta, Files(meta)), BlockBytes(meta)) == SumOf(ReadsOf(meta), BytesOf(meta))
  {
    forall i: nat
      ensures SumOf(BlocksFor(key, meta, Files(meta)), Stores(key, i)) == multiset(ReadsOf(meta))[i]
    {
      BlocksStore(key, meta, Files(meta), i);
      FilesConserve(meta, OnlyAt(i));
      CountIsSum(ReadsOf(meta), i);
    }
    BlocksWeigh(key, meta, Files(meta));
    FilesConserve(meta, BytesOf(meta));
  }

  /** How often chunk `i` ought to be listed: once if it is there and stores something. */
  function Once(meta: TensorMeta, i: nat): nat {
    if i < |meta.chunks| && Overlap(meta.chunks[i].item, meta.chunks[i].item) then 1 else 0
  }

  lemma ReadsOnceIff(meta: TensorMeta)
    ensures (forall i: nat :: multiset(ReadsOf(meta))[i] == Once(meta, i)) <==> Separate(Items(meta))
  {
    ReadOnceIffSeparate(Items(meta));
    forall i: nat
      ensures multiset(ReadsOf(meta))[i] == Once(meta, i) <==> i >= |meta.chunks| || ReadOnce(Items(meta), i)
    {
      ReadsFromCount(Items(meta), 0, i);
    }
  }

  /** The blocks of a tensor list each chunk that stores something once, and nothing else, if and only if no two
      chunks of the tensor overlap. */
  lemma BlocksPartitionChunks(key: string, meta: TensorMeta)
    ensures (forall i: nat :: SumOf(BlocksFor(key, meta, Files(meta)), Stores(key, i)) == Once(meta, i))
            <==> Separate(Items(meta))
  {
    BlocksListReads(key, meta);
    ReadsOnceIff(meta);
  }

  /** A block is one file's worth: it is not empty, lies within the tensor, and all its chunks are in its file. */
  ghost predicate WellFormed(b: Block, key: string, meta: TensorMeta) {
    && b.key == key && b.indices != []
    && forall i :: i in b.indices ==> i < |meta.chunks| && meta.chunks[i].file == b.file
  }

  lemma BlockWellFormed(key: string, meta: TensorMeta, file: string)
    requires file in Labels(ReadsOf(meta), FileOf(meta))
    ensures WellFormed(BlockFor(key, meta, file), key, meta) && BlockFor(key, meta, file).file == file
  {
    var members := Members(ReadsOf(meta), FileOf(meta), file);
    ReadsAreChunks(Items(meta));
    MembersCarryLabel(ReadsOf(meta), FileOf(meta), file);
    MembersAreNonEmpty(ReadsOf(meta), FileOf(meta), file);
    SortPermutes(members, OffsetLe(meta));
    var b := BlockFor(key, meta, file);
    forall i | i in b.indices ensures i in members {
      assert i in multiset(b.indices);
    }
  }

  lemma {:induction false} BlocksWellFormed(key: string, meta: TensorMeta, files: seq<string>)
    requires forall f :: f in files ==> f in Labels(ReadsOf(meta), FileOf(meta))
    ensures forall b :: b in BlocksFor(key, meta, files) ==> WellFormed(b, key, meta) && b.file in files
  {
    if files != [] {
      assert files[0] in files;
      assert forall f :: f in files[1..] ==> f in files;
      BlocksWellFormed(key, meta, files[1..]);
      BlockWellFormed(key, meta, files[0]);
    }
  }

  lemma BlocksAreOneFileEach(key: string, meta: TensorMeta)
    ensures forall b :: b in BlocksFor(key, meta, Files(meta)) ==> WellFormed(b, key, meta)
  {
    var order := Labels(ReadsOf(meta), FileOf(meta));
    SortPermutes(order, StringLe);
    forall f | f in Files(meta) ensures f in order {
      assert f in multiset(Files(meta));
    }
    BlocksWellFormed(key, meta, Files(meta));
  }

  /** The loop that packs (size, block) pairs into tasks: the groups closed from here on, when `open`,
      of total size `bytes`, is being filled. */
  function PackBlocks(open: seq<Sized>, items: seq<Sized>, target: int): seq<seq<Sized>>
    decreases items
  {
    if items == [] then
      if open != [] then [open] else []
    else if open != [] && SizedTotal(open) + items[0].bytes > target then
      [open] + PackBlocks([items[0]], items[1..], target)
    else
      PackBlocks(open + [items[0]], items[1..], target)
  }

  function SizedBytes(s: Sized): int { s.bytes }

  function SizedTotal(s: seq<Sized>): int {
    SumOf(s, SizedBytes)
  }

  function FirstOffset(metas: map<string, TensorMeta>, b: Block): seq<int> {
    if b.indices != [] && b.key in metas && b.indices[0] < |metas[b.key].chunks|
    then metas[b.key].chunks[b.indices[0]].item.offset else []
  }

  /** The sort key of lines 801-807. */
  predicate BlockLe(metas: map<string, TensorMeta>, a: Sized, b: Sized) {
    if [a.block.key, a.block.file] == [b.block.key, b.block.file]
    then LexLe(FirstOffset(metas, a.block), FirstOffset(metas, b.block), IntLe)
    else TupleLe([a.block.key, a.block.file], [b.block.key, b.block.file])
  }

  function BlockOrder(metas: map<string, TensorMeta>): (Sized, Sized) -> bool {
    (a: Sized, b: Sized) => BlockLe(metas, a, b)
  }

  function Target(taskGroupBytes: int): int {
    if taskGroupBytes == 0 then DEFAULT_DIRECT_MOE_GROUP_SIZE else taskGroupBytes
  }

  function BlockGroups(blocks: seq<Sized>, metas: map<string, TensorMeta>, taskGroupBytes: int): seq<seq<Sized>> {
    PackBlocks([], Sort(blocks, BlockOrder(metas)), Target(taskGroupBytes))
  }

  /** `group_moe_block_tasks`, up to the task records built from the groups. */
  method GroupMoeBlocks(blocks: seq<Sized>, metas: map<string, TensorMeta>, taskGroupBytes: int)
    returns (groups: seq<seq<Sized>>)
    ensures groups == BlockGroups(blocks, metas, taskGroupBytes)
  {
    if blocks == [] {
      return [];
    }
    var target := if taskGroupBytes == 0 then DEFAULT_DIRECT_MOE_GROUP_SIZE else taskGroupBytes;
    var sorted := Sort(blocks, BlockOrder(metas));
    groups := [];
    var currentBlocks: seq<Sized> := [];
    var currentBytes: int := 0;
    for i := 0 to |sorted|
      invariant currentBytes == SizedTotal(currentBlocks)
      invariant groups + PackBlocks(currentBlocks, sorted[i..], target) == PackBlocks([], sorted, target)
    {
      assert sorted[i..][1..] == sorted[i + 1..];
      if currentBlocks != [] && currentBytes + sorted[i].bytes > target {
        assert PackBlocks(currentBlocks, sorted[i..], target)
            == [currentBlocks] + PackBlocks([sorted[i]], sorted[i + 1..], target);
        groups := groups + [currentBlocks];
        currentBlocks := [];
        currentBytes := 0;
        assert [] + [sorted[i]] == [sorted[i]];
      }
      SumOfConcat(currentBlocks, [sorted[i]], SizedBytes);
      assert [sorted[i]][1..] == [];
      currentBlocks := currentBlocks + [sorted[i]];
      currentBytes := currentBytes + sorted[i].bytes;
    }
    assert sorted[|sorted|..] == [];
    if currentBlocks != [] {
      groups := groups + [currentBlocks];
    }
  }

  /** The groups laid end to end are the items, and none is empty. */
  lemma {:induction false} PackBlocksFlattens(open: seq<Sized>, items: seq<Sized>, target: int)
    ensures Flatten(PackBlocks(open, items, target)) == open + items
    ensures forall g :: g in PackBlocks(open, items, target) ==> g != []
    decreases items
  {
    if items == [] {
      assert open != [] ==> Flatten([open]) == open + Flatten([]);
    } else {
      var head, rest := items[0], items[1..];
      assert items == [head] + rest;
      if open != [] && SizedTotal(open) + head.bytes > target {
        PackBlocksFlattens([head], rest, target);
        assert PackBlocks(open, items, target)[1..] == PackBlocks([head], rest, target);
      } else {
        PackBlocksFlattens(open + [head], rest, target);
        assert open + [head] + rest == open + items;
      }
    }
  }

  /** A group exceeds the target only when a single block does. */
  lemma {:induction false} PackBlocksFit(open: seq<Sized>, items: seq<Sized>, target: int)
    requires |open| <= 1 || SizedTotal(open) <= target
    ensures forall g :: g in PackBlocks(open, items, target) ==> |g| == 1 || SizedTotal(g) <= target
    decreases items
  {
    if items != [] {
      var head, rest := items[0], items[1..];
      if open != [] && SizedTotal(open) + head.bytes > target {
        PackBlocksFit([head], rest, target);
      } else {
        SumOfConcat(open, [head], SizedBytes);
        assert [head][1..] == [];
        PackBlocksFit(open + [head], rest, target);
      }
    }
  }

  lemma BlockGroupsAreTight(blocks: seq<Sized>, metas: map<string, TensorMeta>, taskGroupBytes: int)
    ensures multiset(Flatten(BlockGroups(blocks, metas, taskGroupBytes))) == multiset(blocks)
    ensures forall g :: g in BlockGroups(blocks, metas, taskGroupBytes) ==>
      g != [] && (|g| == 1 || SizedTotal(g) <= Target(taskGroupBytes))
  {
    SortPermutes(blocks, BlockOrder(metas));
    var sorted := Sort(blocks, BlockOrder(metas));
    PackBlocksFlattens([], sorted, Target(taskGroupBytes));
    assert [] + sorted == sorted;
    PackBlocksFit([], sorted, Target(taskGroupBytes));
  }
}
