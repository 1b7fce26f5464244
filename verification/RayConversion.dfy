/** The whole conversion: plan, execute in any order, write shards, index
    (tools/convert_torch_dist_to_hf_ray.py, lines 513-531, 651-697, 963-1048, 1090-1127 and 1308-1347). */
module RayConversion {
  import opened Wrappers
  import opened Sequences
  import opened Sorting
  import MC = MoeChunks
  import CR = ChunkReads
  import MB = MoeBlocks
  import opened ConversionPlan
  import opened PlanPartition
  import Dispatch
  import opened Shards
  import opened GlobalIndex

  type Tensor<T> = MC.Matrix<T>

  /** A conversion job: what the planner sees, the stored data of the tensors it may read in chunks, the
      conversion of any other tensor as a black box, and what is written for a converted expert tensor:
      the tensor under its rendered name, or the tensors it is quantized to. */
  datatype Job<!T> = Job(
    req: Request,
    stacks: map<string, MC.Stack<T>>,
    whole: string -> seq<Entry<Tensor<T>>>,
    finish: MC.Named<T> -> seq<Entry<Tensor<T>>>,
    maxFileBytes: int)

  /** The stored data of a tensor read in chunks has the recorded shape. */
  predicate Readable<T>(job: Job<T>, key: string) {
    && IsDirect(job.req, key) && key in job.stacks
    && |job.req.metas[key].size| == 3
    && MC.Shaped(job.stacks[key], job.req.metas[key].size)
  }

  function RenderAll<T>(job: Job<T>, named: seq<MC.Named<T>>): seq<Entry<Tensor<T>>> {
    if named == [] then [] else job.finish(named[0]) + RenderAll(job, named[1..])
  }

  /** Chunk `i` is there and can be converted as a whole. */
  predicate Supports<T>(job: Job<T>, key: string, i: nat) {
    && key in job.req.metas && i < |job.req.metas[key].chunks|
    && MC.Supported(job.req.parse(key), job.req.metas[key].chunks[i].item, job.req.metas[key].size)
  }

  /** What reading and converting chunk `i` of a tensor yields. */
  function ChunkEntries<T>(job: Job<T>, key: string, i: nat): seq<Entry<Tensor<T>>> {
    if Readable(job, key) && Supports(job, key, i) then
      var meta := job.req.metas[key];
      var item := meta.chunks[i].item;
      RenderAll(job, MC.Emitted(job.req.parse(key).value, item, meta.size,
                                MC.Load(job.stacks[key], item, meta.size), item.lengths[0]))
    else []
  }

  function ChunksEntries<T>(job: Job<T>, key: string, indices: seq<nat>): seq<Entry<Tensor<T>>> {
    if indices == [] then [] else ChunkEntries(job, key, indices[0]) + ChunksEntries(job, key, indices[1..])
  }

  function BlocksEntries<T>(job: Job<T>, blocks: seq<MB.Block>): seq<Entry<Tensor<T>>> {
    if blocks == [] then []
    else ChunksEntries(job, blocks[0].key, ReadOrder(job, blocks[0])) + BlocksEntries(job, blocks[1..])
  }

  /** The order in which the chunks of a block are read: by offset. */
  function ReadOrder<T>(job: Job<T>, b: MB.Block): seq<nat> {
    if b.key in job.req.metas then Sort(b.indices, MB.OffsetLe(job.req.metas[b.key])) else b.indices
  }

  function KeysEntries<T>(job: Job<T>, keys: seq<string>): seq<Entry<Tensor<T>>> {
    Flatten(Map(keys, job.whole))
  }

  /** The tensor stream of a task. */
  function Stream<T>(job: Job<T>, task: TaskSpec): seq<Entry<Tensor<T>>> {
    if task.blocks != [] then BlocksEntries(job, task.blocks) else KeysEntries(job, task.keys)
  }

  function NatId(task: TaskSpec): nat {
    if task.id < 0 then 0 else task.id
  }

  /** What a worker returns for a task. */
  function Converted<T>(job: Job<T>): TaskSpec -> TaskResult<Tensor<T>> {
    (task: TaskSpec) =>
      TaskResult(NatId(task), Files(NatId(task), 0, Cut([], Stream(job, task), job.maxFileBytes)))
  }

  // ---------- what a worker does ----------

  /** Chunk `i` of the stacked tensor `key` is there to be read. */
  predicate Held<T>(job: Job<T>, key: string, i: nat) {
    && key in job.req.metas && key in job.stacks && job.req.parse(key).Some?
    && i < |job.req.metas[key].chunks|
    && MC.Shaped(job.stacks[key], job.req.metas[key].size)
    && MC.InBounds(job.req.metas[key].chunks[i].item, job.req.metas[key].size)
  }

  predicate Loadable<T>(job: Job<T>, b: MB.Block) {
    b.key in job.req.metas && forall i :: i in b.indices ==> Held(job, b.key, i)
  }

  /** Reading one chunk and converting its experts. */
  method LoadChunk<T>(job: Job<T>, key: string, i: nat)
    returns (r: Result<seq<seq<MC.Named<T>>>, MC.ConversionError>)
    requires Held(job, key, i)
    ensures IsDirect(job.req, key) && Supports(job, key, i) ==>
      r.Ok? && RenderAll(job, Flatten(r.value)) == ChunkEntries(job, key, i)
  {
    var meta := job.req.metas[key];
    var item := meta.chunks[i].item;
    var parsed := job.req.parse(key).value;
    var chunk := MC.Load(job.stacks[key], item, meta.size);
    r := MC.ConvertedMoeTensorsFromChunk(parsed, item, meta.size, chunk);
    if Supports(job, key, i) {
      AllConvert(parsed, item, meta.size, job.stacks[key]);
    }
    if r.Ok? {
      MC.GroupsAreEmitted(parsed, item, meta.size, chunk, r.value);
    }
  }

  lemma AllConvert<T>(parsed: MC.ExpertKey, item: MC.ReadItem, size: seq<nat>, t: MC.Stack<T>)
    requires MC.Supported(Some(parsed), item, size) && MC.Shaped(t, size)
    ensures MC.InBounds(item, size)
    ensures forall k :: 0 <= k < item.lengths[0] ==>
      MC.ExpertTensors(parsed, item, size, item.offset[0] + k, MC.Load(t, item, size)[k]).Ok?
  {
    MC.SupportedBounds(parsed, item, size);
    forall k | 0 <= k < item.lengths[0]
      ensures MC.ExpertTensors(parsed, item, size, item.offset[0] + k, MC.Load(t, item, size)[k]).Ok?
    {
      MC.SupportedConverts(parsed, item, size, t, k);
    }
  }

  /** The block is of a tensor converted directly, and each of its chunks can be converted as a whole. */
  predicate Convertible<T>(job: Job<T>, b: MB.Block) {
    IsDirect(job.req, b.key) && forall i :: i in b.indices ==> Supports(job, b.key, i)
  }

  /** `load_moe_block_direct`. */
  method LoadMoeBlockDirect<T>(job: Job<T>, b: MB.Block)
    returns (r: Result<seq<seq<MC.Named<T>>>, MC.ConversionError>)
    requires Loadable(job, b)
    ensures Convertible(job, b) ==> r.Ok? && RenderAll(job, Flatten(r.value)) == BlocksEntries(job, [b])
  {
    var order := Sort(b.indices, MB.OffsetLe(job.req.metas[b.key]));
    SortMembers(b.indices, MB.OffsetLe(job.req.metas[b.key]));
    var groups: seq<seq<MC.Named<T>>> := [];
    for k := 0 to |order|
      invariant Convertible(job, b) ==>
        RenderAll(job, Flatten(groups)) + ChunksEntries(job, b.key, order[k..]) == ChunksEntries(job, b.key, order)
    {
      assert order[k] in order;
      assert order[k..][1..] == order[k + 1..];
      var loaded := LoadChunk(job, b.key, order[k]);
      if loaded.Err? {
        return loaded;
      }
      RenderMore(job, groups, loaded.value, ChunksEntries(job, b.key, order[k + 1..]));
      groups := groups + loaded.value;
    }
    assert order[|order|..] == [];
    assert [b][1..] == [];
    return Ok(groups);
  }

  predicate AllConvertible<T>(job: Job<T>, blocks: seq<MB.Block>) {
    forall k :: 0 <= k < |blocks| ==> Convertible(job, blocks[k])
  }

  /** `prepare_moe_block_task_tensors`. */
  method PrepareMoeBlockTask<T>(job: Job<T>, blocks: seq<MB.Block>)
    returns (r: Result<seq<seq<MC.Named<T>>>, MC.ConversionError>)
    requires forall b :: b in blocks ==> Loadable(job, b)
    ensures AllConvertible(job, blocks) ==> r.Ok? && RenderAll(job, Flatten(r.value)) == BlocksEntries(job, blocks)
  {
    var groups: seq<seq<MC.Named<T>>> := [];
    for k := 0 to |blocks|
      invariant AllConvertible(job, blocks) ==>
        RenderAll(job, Flatten(groups)) + BlocksEntries(job, blocks[k..]) == BlocksEntries(job, blocks)
    {
      var loaded := LoadMoeBlockDirect(job, blocks[k]);
      if loaded.Err? {
        return loaded;
      }
      BlocksSplit(job, blocks, k);
      RenderMore(job, groups, loaded.value, BlocksEntries(job, blocks[k + 1..]));
      groups := groups + loaded.value;
    }
    assert blocks[|blocks|..] == [];
    return Ok(groups);
  }

  lemma BlocksSplit<T>(job: Job<T>, blocks: seq<MB.Block>, k: nat)
    requires k < |blocks|
    ensures BlocksEntries(job, blocks[k..]) == BlocksEntries(job, [blocks[k]]) + BlocksEntries(job, blocks[k + 1..])
  {
    assert blocks[k..][1..] == blocks[k + 1..];
    assert [blocks[k]][1..] == [];
  }

  lemma RenderMore<T>(job: Job<T>, groups: seq<seq<MC.Named<T>>>, more: seq<seq<MC.Named<T>>>,
                      rest: seq<Entry<Tensor<T>>>)
    ensures RenderAll(job, Flatten(groups + more)) + rest
         == RenderAll(job, Flatten(groups)) + (RenderAll(job, Flatten(more)) + rest)
  {
    FlattenConcat(groups, more);
    RenderConcat(job, Flatten(groups), Flatten(more));
  }

  function FinishGroup<T>(job: Job<T>): seq<MC.Named<T>> -> seq<Entry<Tensor<T>>> {
    (group: seq<MC.Named<T>>) => RenderAll(job, group)
  }

  /** Finishing group by group is finishing the tensors one by one. */
  lemma {:induction false} GroupsRender<T>(job: Job<T>, groups: seq<seq<MC.Named<T>>>)
    ensures Flatten(Map(groups, FinishGroup(job))) == RenderAll(job, Flatten(groups))
  {
    if groups != [] {
      GroupsRender(job, groups[1..]);
      assert Map(groups, FinishGroup(job))[1..] == Map(groups[1..], FinishGroup(job));
      RenderConcat(job, groups[0], Flatten(groups[1..]));
    }
  }

  /** `ConversionWorker.convert`: reading, converting and writing a task yields its `Converted` result. An
      unsupported chunk, which no plan contains, is the only error. */
  method ConvertTask<T>(job: Job<T>, task: TaskSpec) returns (r: Result<TaskResult<Tensor<T>>, MC.ConversionError>)
    requires forall b :: b in task.blocks ==> Loadable(job, b)
    ensures AllConvertible(job, task.blocks) ==> r == Ok(Converted(job)(task))
  {
    var shards: seq<Shard<Tensor<T>>>, total: nat;
    if task.blocks != [] {
      var prepared := PrepareMoeBlockTask(job, task.blocks);
      if prepared.Err? {
        return Err(prepared.error);
      }
      GroupsRender(job, prepared.value);
      shards, total := WritePreparedTensorGroups(NatId(task), prepared.value, FinishGroup(job), job.maxFileBytes);
    } else {
      shards, total := WritePreparedTensorGroups(NatId(task), task.keys, job.whole, job.maxFileBytes);
    }
    return Ok(TaskResult(NatId(task), shards));
  }

  /** Every task of the plan of a sound checkpoint is one a worker converts without an error. */
  lemma PlanIsLoadable<T>(job: Job<T>, task: TaskSpec)
    requires Sound(job) && task in Plan(job.req)
    ensures AllConvertible(job, task.blocks) && forall b :: b in task.blocks ==> Loadable(job, b) && b.indices != []
  {
    PlannedBlocksAreWellFormed(job.req);
    forall b | b in task.blocks ensures Convertible(job, b) && Loadable(job, b) && b.indices != [] {
      assert WellPlanned(job.req, b);
      var meta := job.req.metas[b.key];
      forall i | i in b.indices ensures Held(job, b.key, i) {
        MC.SupportedBounds(job.req.parse(b.key).value, meta.chunks[i].item, meta.size);
      }
    }
    forall k | 0 <= k < |task.blocks| ensures Convertible(job, task.blocks[k]) {
      assert task.blocks[k] in task.blocks;
    }
  }

  // ---------- what the checkpoint stands for ----------

  /** The tensors a source key stands for, independent of chunks, files, tasks and workers. */
  function KeyMeans<T>(job: Job<T>, key: string): seq<Entry<Tensor<T>>> {
    if Readable(job, key) then
      var meta := job.req.metas[key];
      if MC.InBounds(MC.WholeChunk(meta.size), meta.size) then
        RenderAll(job, MC.Merge(job.req.parse(key).value, [MC.WholeChunk(meta.size)], meta.size, job.stacks[key]))
      else []
    else job.whole(key)
  }

  function Means<T>(job: Job<T>, keys: seq<string>): seq<Entry<Tensor<T>>> {
    if keys == [] then [] else KeyMeans(job, keys[0]) + Means(job, keys[1..])
  }

  /** A checkpoint whose chunks store each tensor completely and without overlap. */
  ghost predicate Sound<T>(job: Job<T>) {
    && Valid(job.req)
    && forall key :: key in job.req.keys && IsDirect(job.req, key) ==> SoundTensor(job, key)
  }

  ghost predicate SoundTensor<T>(job: Job<T>, key: string) {
    && Readable(job, key)
    && var meta := job.req.metas[key];
       && meta.size[1] > 0 && meta.size[2] > 0
       && (forall i :: 0 <= i < |meta.chunks| ==> MC.Supported(job.req.parse(key), meta.chunks[i].item, meta.size))
       && MC.Tiles(MB.Items(meta), meta.size) && CR.Separate(MB.Items(meta))
  }

  // ---------- counting entries ----------

  function Occurs<T(==)>(e: Entry<Tensor<T>>, s: seq<Entry<Tensor<T>>>): nat {
    if s == [] then 0 else (if s[0] == e then 1 else 0) + Occurs(e, s[1..])
  }

  lemma {:induction false} OccursConcat<T>(e: Entry<Tensor<T>>, a: seq<Entry<Tensor<T>>>, b: seq<Entry<Tensor<T>>>)
    ensures Occurs(e, a + b) == Occurs(e, a) + Occurs(e, b)
  {
    if a == [] {
      assert a + b == b;
    } else {
      assert (a + b)[1..] == a[1..] + b;
      OccursConcat(e, a[1..], b);
    }
  }

  lemma {:induction false} OccursCounts<T>(e: Entry<Tensor<T>>, s: seq<Entry<Tensor<T>>>)
    ensures Occurs(e, s) == multiset(s)[e]
  {
    if s != [] {
      assert s == [s[0]] + s[1..];
      OccursCounts(e, s[1..]);
    }
  }

  lemma {:induction false} RenderConcat<T>(job: Job<T>, a: seq<MC.Named<T>>, b: seq<MC.Named<T>>)
    ensures RenderAll(job, a + b) == RenderAll(job, a) + RenderAll(job, b)
  {
    if a == [] {
      assert a + b == b;
    } else {
      assert (a + b)[1..] == a[1..] + b;
      RenderConcat(job, a[1..], b);
      assert (a + b)[0] == a[0];
    }
  }

  lemma {:induction false} RenderPermutes<T>(job: Job<T>, a: seq<MC.Named<T>>, b: seq<MC.Named<T>>, e: Entry<Tensor<T>>)
    requires multiset(a) == multiset(b)
    ensures Occurs(e, RenderAll(job, a)) == Occurs(e, RenderAll(job, b))
  {
    if a == [] {
      assert |multiset(b)| == 0;
    } else {
      assert a[0] in multiset(b);
      var k :| 0 <= k < |b| && b[k] == a[0];
      var rest := RemoveAt(b, k);
      assert a == [a[0]] + a[1..];
      RenderPermutes(job, a[1..], rest, e);
      RenderMove(job, b, k, e);
      RenderConcat(job, [a[0]], a[1..]);
      OccursConcat(e, RenderAll(job, [a[0]]), RenderAll(job, a[1..]));
    }
  }

  lemma RenderMove<T>(job: Job<T>, b: seq<MC.Named<T>>, k: nat, e: Entry<Tensor<T>>)
    requires k < |b|
    ensures Occurs(e, RenderAll(job, b)) ==
            Occurs(e, RenderAll(job, [b[k]])) + Occurs(e, RenderAll(job, b[..k] + b[k + 1..]))
  {
    assert b == b[..k] + ([b[k]] + b[k + 1..]);
    RenderConcat(job, b[..k], [b[k]] + b[k + 1..]);
    RenderConcat(job, [b[k]], b[k + 1..]);
    RenderConcat(job, b[..k], b[k + 1..]);
    OccursConcat(e, RenderAll(job, b[..k]), RenderAll(job, [b[k]] + b[k + 1..]));
    OccursConcat(e, RenderAll(job, [b[k]]), RenderAll(job, b[k + 1..]));
    OccursConcat(e, RenderAll(job, b[..k]), RenderAll(job, b[k + 1..]));
  }

  // ---------- chunks of one tensor ----------

  function Range(i: nat, n: nat): seq<nat>
    requires i <= n
    decreases n - i
  {
    if i == n then [] else [i] + Range(i + 1, n)
  }

  lemma {:induction false} ChunksAreMerge<T>(job: Job<T>, key: string, i: nat)
    requires SoundTensor(job, key) && i <= |job.req.metas[key].chunks|
    ensures forall k :: 0 <= k < |MB.Items(job.req.metas[key])| ==>
              MC.InBounds(MB.Items(job.req.metas[key])[k], job.req.metas[key].size)
    ensures ChunksEntries(job, key, Range(i, |job.req.metas[key].chunks|)) ==
            RenderAll(job, MC.Merge(job.req.parse(key).value, MB.Items(job.req.metas[key])[i..],
                                    job.req.metas[key].size, job.stacks[key]))
    decreases |job.req.metas[key].chunks| - i
  {
    var meta := job.req.metas[key];
    var items := MB.Items(meta);
    if i < |items| {
      ChunksAreMerge(job, key, i + 1);
      assert items[i..][0] == items[i] && items[i..][1..] == items[i + 1..];
      RenderMerge(job, job.req.parse(key).value, items[i..], meta.size, job.stacks[key]);
      assert Supports(job, key, i);
    }
  }

  lemma RenderMerge<T>(job: Job<T>, parsed: MC.ExpertKey, items: seq<MC.ReadItem>, size: seq<nat>, t: MC.Stack<T>)
    requires |size| == 3 && MC.Shaped(t, size) && items != []
    requires forall i :: 0 <= i < |items| ==> MC.InBounds(items[i], size)
    ensures RenderAll(job, MC.Merge(parsed, items, size, t))
         == RenderAll(job, MC.Emitted(parsed, items[0], size, MC.Load(t, items[0], size), items[0].lengths[0]))
            + RenderAll(job, MC.Merge(parsed, items[1..], size, t))
  {
    RenderConcat(job, MC.Emitted(parsed, items[0], size, MC.Load(t, items[0], size), items[0].lengths[0]),
                 MC.Merge(parsed, items[1..], size, t));
  }

  /** What is read of a sound tensor is all it stores: chunks that are not read store nothing. */
  lemma {:induction false} ReadsAreAll<T>(job: Job<T>, key: string, i: nat)
    requires SoundTensor(job, key) && i <= |job.req.metas[key].chunks|
    ensures ChunksEntries(job, key, CR.ReadsFrom(MB.Items(job.req.metas[key]), i)) ==
            ChunksEntries(job, key, Range(i, |job.req.metas[key].chunks|))
    decreases |job.req.metas[key].chunks| - i
  {
    var meta := job.req.metas[key];
    var items, n := MB.Items(meta), |meta.chunks|;
    if i < n {
      ReadsAreAll(job, key, i + 1);
      CR.SeparateRow(items, i);
      if CR.Overlap(items[i], items[i]) {
        assert CR.ReadsFrom(items, i) == [i] + CR.ReadsFrom(items, i + 1);
      } else {
        EmptyChunk(job, key, i);
        assert CR.ReadsFrom(items, i) == CR.ReadsFrom(items, i + 1);
      }
    }
  }

  lemma EmptyChunk<T>(job: Job<T>, key: string, i: nat)
    requires SoundTensor(job, key) && i < |job.req.metas[key].chunks|
    requires var item := job.req.metas[key].chunks[i].item; !CR.Overlap(item, item)
    ensures ChunkEntries(job, key, i) == []
  {
    var meta := job.req.metas[key];
    var item := meta.chunks[i].item;
    EmptyHasNoExpert(job.req.parse(key), item, meta.size);
    assert Supports(job, key, i);
  }

  lemma EmptyHasNoExpert(parsed: Option<MC.ExpertKey>, item: MC.ReadItem, size: seq<nat>)
    requires MC.Supported(parsed, item, size) && size[1] > 0 && size[2] > 0 && !CR.Overlap(item, item)
    ensures item.lengths[0] == 0
  {
    CR.ReadForItself(item);
    assert item.lengths[1] > 0 && item.lengths[2] > 0;
  }

  /** The chunks read of a sound tensor, in any files and tasks, yield what the tensor stands for. */
  lemma ChunksMeanTensor<T>(job: Job<T>, key: string, e: Entry<Tensor<T>>)
    requires SoundTensor(job, key)
    ensures Occurs(e, ChunksEntries(job, key, MB.ReadsOf(job.req.metas[key]))) == Occurs(e, KeyMeans(job, key))
  {
    ReadsAreAll(job, key, 0);
    AllChunksAreMerge(job, key);
    SoundIsMergeable(job, key);
    var meta := job.req.metas[key];
    var parsed := job.req.parse(key).value;
    MergedIsWhole(parsed, MB.Items(meta), meta.size, job.stacks[key]);
    WholeMeans(job, key);
    RenderPermutes(job, MC.Merge(parsed, MB.Items(meta), meta.size, job.stacks[key]),
                   MC.Merge(parsed, [MC.WholeChunk(meta.size)], meta.size, job.stacks[key]), e);
  }

  /** Supported chunks that tile a tensor of full shape. */
  ghost predicate Mergeable<T>(parsed: MC.ExpertKey, items: seq<MC.ReadItem>, size: seq<nat>, t: MC.Stack<T>) {
    && |size| == 3 && MC.Shaped(t, size) && size[1] > 0 && size[2] > 0
    && (parsed.linear == MC.Fc1 ==> size[1] % 2 == 0)
    && MC.AllSupported(parsed, items, size)
    && (forall i :: 0 <= i < |items| ==> |items[i].offset| == |items[i].lengths| == 3)
    && MC.Tiles(items, size)
  }

  lemma SoundIsMergeable<T>(job: Job<T>, key: string)
    requires SoundTensor(job, key)
    ensures Mergeable(job.req.parse(key).value, MB.Items(job.req.metas[key]), job.req.metas[key].size, job.stacks[key])
  {
    assert MC.Supported(job.req.parse(key), MB.Items(job.req.metas[key])[0], job.req.metas[key].size);
  }

  lemma MergedIsWhole<T>(parsed: MC.ExpertKey, items: seq<MC.ReadItem>, size: seq<nat>, t: MC.Stack<T>)
    requires Mergeable(parsed, items, size, t)
    ensures forall i :: 0 <= i < |items| ==> MC.InBounds(items[i], size)
    ensures MC.InBounds(MC.WholeChunk(size), size)
    ensures multiset(MC.Merge(parsed, items, size, t)) == multiset(MC.Merge(parsed, [MC.WholeChunk(size)], size, t))
  {
    MC.SameAsWhole(parsed, items, size, t);
  }

  lemma AllChunksAreMerge<T>(job: Job<T>, key: string)
    requires SoundTensor(job, key)
    ensures forall k :: 0 <= k < |MB.Items(job.req.metas[key])| ==>
              MC.InBounds(MB.Items(job.req.metas[key])[k], job.req.metas[key].size)
    ensures ChunksEntries(job, key, Range(0, |job.req.metas[key].chunks|)) ==
            RenderAll(job, MC.Merge(job.req.parse(key).value, MB.Items(job.req.metas[key]),
                                    job.req.metas[key].size, job.stacks[key]))
  {
    var meta := job.req.metas[key];
    ChunksAreMerge(job, key, 0);
    assert MB.Items(meta)[0..] == MB.Items(meta);
  }

  /** A sound tensor stands for what one whole chunk yields. */
  lemma WholeMeans<T>(job: Job<T>, key: string)
    requires SoundTensor(job, key)
    requires MC.InBounds(MC.WholeChunk(job.req.metas[key].size), job.req.metas[key].size)
    ensures KeyMeans(job, key)
         == RenderAll(job, MC.Merge(job.req.parse(key).value, [MC.WholeChunk(job.req.metas[key].size)],
                                    job.req.metas[key].size, job.stacks[key]))
  {
  }

  // ---------- the plan lists everything once ----------

  type Piece = (string, nat)

  function PiecesOfBlock(key: string, indices: seq<nat>): seq<Piece> {
    if indices == [] then [] else [(key, indices[0])] + PiecesOfBlock(key, indices[1..])
  }

  function PiecesOfBlocks(blocks: seq<MB.Block>): seq<Piece> {
    if blocks == [] then [] else PiecesOfBlock(blocks[0].key, blocks[0].indices) + PiecesOfBlocks(blocks[1..])
  }

  /** All chunks listed by a plan. */
  function Pieces(tasks: seq<TaskSpec>): seq<Piece> {
    if tasks == [] then [] else PiecesOfBlocks(tasks[0].blocks) + Pieces(tasks[1..])
  }

  /** All keys listed by the whole-source tasks of a plan. */
  function Listed(tasks: seq<TaskSpec>): seq<string> {
    if tasks == [] then []
    else (if tasks[0].blocks == [] then tasks[0].keys else []) + Listed(tasks[1..])
  }

  function Expected(req: Request, keys: seq<string>): seq<Piece> {
    if keys == [] then []
    else
      (if IsDirect(req, keys[0]) then PiecesOfBlock(keys[0], MB.ReadsOf(req.metas[keys[0]])) else [])
      + Expected(req, keys[1..])
  }

  lemma {:induction false} PiecesOfBlockCount(key: string, indices: seq<nat>, p: Piece)
    ensures multiset(PiecesOfBlock(key, indices))[p] == if p.0 == key then multiset(indices)[p.1] else 0
  {
    if indices != [] {
      assert indices == [indices[0]] + indices[1..];
      PiecesOfBlockCount(key, indices[1..], p);
    }
  }

  lemma {:induction false} PiecesOfBlocksCount(blocks: seq<MB.Block>, p: Piece)
    ensures multiset(PiecesOfBlocks(blocks))[p] == SumOf(blocks, MB.Stores(p.0, p.1))
  {
    if blocks != [] {
      PiecesOfBlocksCount(blocks[1..], p);
      PiecesOfBlockCount(blocks[0].key, blocks[0].indices, p);
    }
  }

  lemma {:induction false} PiecesCount(tasks: seq<TaskSpec>, p: Piece)
    ensures multiset(Pieces(tasks))[p] == SumOf(tasks, Storing(p.0, p.1))
  {
    if tasks != [] {
      PiecesCount(tasks[1..], p);
      PiecesOfBlocksCount(tasks[0].blocks, p);
    }
  }

  lemma {:induction false} ListedCount(tasks: seq<TaskSpec>, key: string)
    ensures multiset(Listed(tasks))[key] == SumOf(tasks, Listing(key))
  {
    if tasks != [] {
      ListedCount(tasks[1..], key);
    }
  }

  lemma {:induction false} ExpectedCount(req: Request, keys: seq<string>, p: Piece)
    ensures multiset(Expected(req, keys))[p] == SumOf(keys, ReadFor(req, p.0, p.1))
  {
    if keys != [] {
      ExpectedCount(req, keys[1..], p);
      if IsDirect(req, keys[0]) {
        PiecesOfBlockCount(keys[0], MB.ReadsOf(req.metas[keys[0]]), p);
      }
    }
  }

  /** The plan's chunks and whole keys are those of the checkpoint. */
  lemma PlanLists(req: Request)
    requires Valid(req)
    ensures multiset(Pieces(Plan(req))) == multiset(Expected(req, req.keys))
    ensures multiset(Listed(Plan(req))) == multiset(WholeKeys(req, req.keys))
  {
    forall p: Piece ensures multiset(Pieces(Plan(req)))[p] == multiset(Expected(req, req.keys))[p] {
      PlanListsPiece(req, p);
    }
    SameCounts(multiset(Pieces(Plan(req))), multiset(Expected(req, req.keys)));
    forall key ensures multiset(Listed(Plan(req)))[key] == multiset(WholeKeys(req, req.keys))[key] {
      PlanListsKey(req, key);
    }
    SameCounts(multiset(Listed(Plan(req))), multiset(WholeKeys(req, req.keys)));
  }

  lemma PlanListsPiece(req: Request, p: Piece)
    ensures multiset(Pieces(Plan(req)))[p] == multiset(Expected(req, req.keys))[p]
  {
    PiecesCount(Plan(req), p);
    EachReadListed(req, p.0, p.1);
    ExpectedCount(req, req.keys, p);
  }

  lemma PlanListsKey(req: Request, key: string)
    requires Valid(req)
    ensures multiset(Listed(Plan(req)))[key] == multiset(WholeKeys(req, req.keys))[key]
  {
    ListedCount(Plan(req), key);
    EachWholeTensorOnce(req, key);
    WholeKeysCount(req, req.keys, key);
    DistinctCount(req.keys, key);
  }

  // ---------- the streams of the plan are the checkpoint ----------

  function Streams<T>(job: Job<T>, tasks: seq<TaskSpec>): seq<Entry<Tensor<T>>> {
    if tasks == [] then [] else Stream(job, tasks[0]) + Streams(job, tasks[1..])
  }

  function PieceWeight<T(==)>(job: Job<T>, e: Entry<Tensor<T>>): Piece -> int {
    (p: Piece) => Occurs(e, ChunkEntries(job, p.0, p.1))
  }

  function KeyWeight<T(==)>(job: Job<T>, e: Entry<Tensor<T>>): string -> int {
    (key: string) => Occurs(e, job.whole(key))
  }

  lemma {:induction false} ChunksWeigh<T>(job: Job<T>, key: string, indices: seq<nat>, e: Entry<Tensor<T>>)
    ensures Occurs(e, ChunksEntries(job, key, indices)) == SumOf(PiecesOfBlock(key, indices), PieceWeight(job, e))
  {
    if indices != [] {
      ChunksWeigh(job, key, indices[1..], e);
      OccursConcat(e, ChunkEntries(job, key, indices[0]), ChunksEntries(job, key, indices[1..]));
      assert PiecesOfBlock(key, indices)[1..] == PiecesOfBlock(key, indices[1..]);
    }
  }

  /** Reading a block's chunks in another order changes none of its totals. */
  lemma ReadOrderWeighs<T>(job: Job<T>, b: MB.Block, weight: Piece -> int)
    ensures SumOf(PiecesOfBlock(b.key, ReadOrder(job, b)), weight) == SumOf(PiecesOfBlock(b.key, b.indices), weight)
  {
    var order := ReadOrder(job, b);
    if b.key in job.req.metas {
      SortPermutes(b.indices, MB.OffsetLe(job.req.metas[b.key]));
    }
    forall p: Piece ensures multiset(PiecesOfBlock(b.key, order))[p] == multiset(PiecesOfBlock(b.key, b.indices))[p] {
      PiecesOfBlockCount(b.key, order, p);
      PiecesOfBlockCount(b.key, b.indices, p);
    }
    SameCounts(multiset(PiecesOfBlock(b.key, order)), multiset(PiecesOfBlock(b.key, b.indices)));
    SumOfPermutation(PiecesOfBlock(b.key, order), PiecesOfBlock(b.key, b.indices), weight);
  }

  lemma {:induction false} BlocksWeigh<T>(job: Job<T>, blocks: seq<MB.Block>, e: Entry<Tensor<T>>)
    ensures Occurs(e, BlocksEntries(job, blocks)) == SumOf(PiecesOfBlocks(blocks), PieceWeight(job, e))
  {
    if blocks != [] {
      var b := blocks[0];
      BlocksWeigh(job, blocks[1..], e);
      ChunksWeigh(job, b.key, ReadOrder(job, b), e);
      ReadOrderWeighs(job, b, PieceWeight(job, e));
      OccursConcat(e, ChunksEntries(job, b.key, ReadOrder(job, b)), BlocksEntries(job, blocks[1..]));
      SumOfConcat(PiecesOfBlock(b.key, b.indices), PiecesOfBlocks(blocks[1..]), PieceWeight(job, e));
    }
  }

  lemma {:induction false} KeysWeigh<T>(job: Job<T>, keys: seq<string>, e: Entry<Tensor<T>>)
    ensures Occurs(e, KeysEntries(job, keys)) == SumOf(keys, KeyWeight(job, e))
  {
    if keys != [] {
      KeysWeigh(job, keys[1..], e);
      assert Map(keys, job.whole)[1..] == Map(keys[1..], job.whole);
      OccursConcat(e, job.whole(keys[0]), KeysEntries(job, keys[1..]));
    }
  }

  lemma {:induction false} StreamsWeigh<T>(job: Job<T>, tasks: seq<TaskSpec>, e: Entry<Tensor<T>>)
    ensures Occurs(e, Streams(job, tasks)) ==
            SumOf(Pieces(tasks), PieceWeight(job, e)) + SumOf(Listed(tasks), KeyWeight(job, e))
  {
    if tasks != [] {
      var t := tasks[0];
      StreamsWeigh(job, tasks[1..], e);
      OccursConcat(e, Stream(job, t), Streams(job, tasks[1..]));
      SumOfConcat(PiecesOfBlocks(t.blocks), Pieces(tasks[1..]), PieceWeight(job, e));
      if t.blocks != [] {
        BlocksWeigh(job, t.blocks, e);
        assert Listed(tasks) == Listed(tasks[1..]);
      } else {
        KeysWeigh(job, t.keys, e);
        SumOfConcat(t.keys, Listed(tasks[1..]), KeyWeight(job, e));
      }
    }
  }

  ghost predicate SoundKeys<T>(job: Job<T>, keys: seq<string>) {
    forall key :: key in keys && IsDirect(job.req, key) ==> SoundTensor(job, key)
  }

  lemma {:induction false} MeansWeigh<T>(job: Job<T>, keys: seq<string>, e: Entry<Tensor<T>>)
    requires SoundKeys(job, keys)
    ensures Occurs(e, Means(job, keys)) ==
            SumOf(Expected(job.req, keys), PieceWeight(job, e)) + SumOf(WholeKeys(job.req, keys), KeyWeight(job, e))
  {
    if keys != [] {
      var k, rest := keys[0], keys[1..];
      assert k in keys && forall key :: key in rest ==> key in keys;
      MeansWeigh(job, rest, e);
      OccursConcat(e, KeyMeans(job, k), Means(job, rest));
      if IsDirect(job.req, k) {
        var all := MB.ReadsOf(job.req.metas[k]);
        ChunksMeanTensor(job, k, e);
        ChunksWeigh(job, k, all, e);
        SumOfConcat(PiecesOfBlock(k, all), Expected(job.req, rest), PieceWeight(job, e));
        assert WholeKeys(job.req, keys) == WholeKeys(job.req, rest);
      } else {
        assert Expected(job.req, keys) == Expected(job.req, rest);
        assert WholeKeys(job.req, keys)[1..] == WholeKeys(job.req, rest);
      }
    }
  }

  /** Tasks that list the chunks read and the whole keys of a checkpoint emit what it stands for. */
  lemma TasksEmitEach<T>(job: Job<T>, tasks: seq<TaskSpec>, keys: seq<string>, e: Entry<Tensor<T>>)
    requires SoundKeys(job, keys)
    requires multiset(Pieces(tasks)) == multiset(Expected(job.req, keys))
    requires multiset(Listed(tasks)) == multiset(WholeKeys(job.req, keys))
    ensures Occurs(e, Streams(job, tasks)) == Occurs(e, Means(job, keys))
  {
    StreamsWeigh(job, tasks, e);
    MeansWeigh(job, keys, e);
    SumOfPermutation(Pieces(tasks), Expected(job.req, keys), PieceWeight(job, e));
    SumOfPermutation(Listed(tasks), WholeKeys(job.req, keys), KeyWeight(job, e));
  }

  /** The tasks of the plan emit, together, exactly the tensors the checkpoint stands for. */
  lemma PlanEmitsCheckpoint<T>(job: Job<T>)
    requires Sound(job)
    ensures multiset(Streams(job, Plan(job.req))) == multiset(Means(job, job.req.keys))
  {
    var emitted, meant := Streams(job, Plan(job.req)), Means(job, job.req.keys);
    PlanLists(job.req);
    forall e: Entry<Tensor<T>> ensures multiset(emitted)[e] == multiset(meant)[e] {
      TasksEmitEach(job, Plan(job.req), job.req.keys, e);
      OccursCounts(e, emitted);
      OccursCounts(e, meant);
    }
    SameCounts(multiset(emitted), multiset(meant));
  }

  // ---------- from streams to the index ----------

  lemma {:induction false} NamesPermute<D>(a: seq<Entry<D>>, b: seq<Entry<D>>)
    requires multiset(a) == multiset(b)
    ensures multiset(NamesOf(a)) == multiset(NamesOf(b))
  {
    if a == [] {
      assert |multiset(b)| == 0;
    } else {
      assert a[0] in multiset(b);
      var k :| 0 <= k < |b| && b[k] == a[0];
      var rest := RemoveAt(b, k);
      assert a == [a[0]] + a[1..];
      NamesPermute(a[1..], rest);
      NamesMove(b, k);
    }
  }

  lemma NamesMove<D>(b: seq<Entry<D>>, k: nat)
    requires k < |b|
    ensures multiset(NamesOf(b)) == multiset{b[k].name} + multiset(NamesOf(b[..k] + b[k + 1..]))
  {
    NamesAround(b, k);
    NamesConcat(b[..k], b[k + 1..]);
    OneMoved(NamesOf(b[..k]), b[k].name, NamesOf(b[k + 1..]));
  }

  lemma NamesAround<D>(b: seq<Entry<D>>, k: nat)
    requires k < |b|
    ensures NamesOf(b) == NamesOf(b[..k]) + ([b[k].name] + NamesOf(b[k + 1..]))
  {
    assert b == b[..k] + b[k..];
    NamesConcat(b[..k], b[k..]);
    assert b[k..][1..] == b[k + 1..];
  }

  lemma OneMoved(front: seq<string>, name: string, back: seq<string>)
    ensures multiset(front + ([name] + back)) == multiset{name} + multiset(front + back)
  {
  }

  lemma DistinctByBag(a: seq<string>, b: seq<string>)
    requires multiset(a) == multiset(b) && Distinct(a)
    ensures Distinct(b)
  {
    DistinctIffNoRepeats(a);
    DistinctIffNoRepeats(b);
  }

  lemma DistinctNames<D>(s: seq<Entry<D>>)
    ensures Distinct(NamesOf(s)) <==> NamesDistinct(s)
  {
    NamesAt(s);
  }

  lemma DistinctParts(a: seq<string>, b: seq<string>)
    requires Distinct(a + b)
    ensures Distinct(a) && Distinct(b)
  {
    assert forall i :: 0 <= i < |a| ==> a[i] == (a + b)[i];
    assert forall i :: 0 <= i < |b| ==> b[i] == (a + b)[|a| + i];
  }

  function Results<T>(job: Job<T>, tasks: seq<TaskSpec>): seq<TaskResult<Tensor<T>>> {
    if tasks == [] then [] else [Converted(job)(tasks[0])] + Results(job, tasks[1..])
  }

  lemma {:induction false} ResultsAreMap<T>(job: Job<T>, tasks: seq<TaskSpec>)
    ensures Results(job, tasks) == Map(tasks, Converted(job))
  {
    if tasks != [] {
      ResultsAreMap(job, tasks[1..]);
      MapStep(tasks, Converted(job));
    }
  }

  /** The shards of all tasks, in task order, hold their streams, when no name repeats. */
  lemma {:induction false} ShardsHoldStreams<T>(job: Job<T>, tasks: seq<TaskSpec>)
    requires Distinct(NamesOf(Streams(job, tasks)))
    ensures Stored(ShardsOf(Results(job, tasks))) == Streams(job, tasks)
    ensures ShardBytes(ShardsOf(Results(job, tasks))) == Shards.Total(Streams(job, tasks))
  {
    if tasks != [] {
      var stream, rest := Stream(job, tasks[0]), Streams(job, tasks[1..]);
      NamesConcat(stream, rest);
      DistinctParts(NamesOf(stream), NamesOf(rest));
      ShardsHoldStreams(job, tasks[1..]);
      TaskHoldsStream(job, tasks[0]);
      var shards, others := Converted(job)(tasks[0]).shards, ShardsOf(Results(job, tasks[1..]));
      StoredConcat(shards, others);
      Shards.TotalConcat(stream, rest);
      ResultsStep(job, tasks);
    }
  }

  lemma ResultsStep<T>(job: Job<T>, tasks: seq<TaskSpec>)
    requires tasks != []
    ensures ShardsOf(Results(job, tasks)) == Converted(job)(tasks[0]).shards + ShardsOf(Results(job, tasks[1..]))
  {
  }

  lemma TaskHoldsStream<T>(job: Job<T>, task: TaskSpec)
    requires Distinct(NamesOf(Stream(job, task)))
    ensures Stored(Converted(job)(task).shards) == Stream(job, task)
    ensures ShardBytes(Converted(job)(task).shards) == Shards.Total(Stream(job, task))
  {
    DistinctNames(Stream(job, task));
    ShardsHoldStream(NatId(task), Stream(job, task), job.maxFileBytes);
    ShardsFit(NatId(task), Stream(job, task), job.maxFileBytes);
  }

  // ---------- the conversion as a whole ----------

  datatype ConversionFailure = NoTasks | Finalizing(error: FinalizeError)

  /** The published files and index are the checkpoint: the index names exactly its tensors, every
      tensor is in the file the index gives for it and no other file has its name, and the total size
      is that of the tensors. */
  ghost predicate Faithful<T>(meant: seq<Entry<Tensor<T>>>, planned: seq<PlannedShard<Tensor<T>>>, index: Index) {
    && (forall n :: n in index.weightMap <==> n in NamesOf(meant))
    && (forall e :: e in meant ==> e.name in index.weightMap && Holds(planned, index.weightMap[e.name], e))
    && index.totalSize == Shards.Total(meant)
  }

  /** The file named `final` holds `e`, and it is the only one with that name in it. */
  ghost predicate Holds<T>(planned: seq<PlannedShard<Tensor<T>>>, final: FinalName, e: Entry<Tensor<T>>) {
    && final.index < |planned| && planned[final.index].final == final
    && e in planned[final.index].source.tensors
    && forall j :: 0 <= j < |planned| && e.name in NamesOf(planned[j].source.tensors) ==> j == final.index
  }

  lemma {:induction false} StoredIn<D>(shards: seq<Shard<D>>, e: Entry<D>)
    requires e in Stored(shards)
    ensures exists i :: 0 <= i < |shards| && e in shards[i].tensors
  {
    if e in shards[0].tensors {
      assert e in shards[0].tensors;
    } else {
      StoredIn(shards[1..], e);
      var i :| 0 <= i < |shards[1..]| && e in shards[1..][i].tensors;
      assert e in shards[i + 1].tensors;
    }
  }

  lemma IndexedShardsHold<T>(shards: seq<Shard<Tensor<T>>>, planned: seq<PlannedShard<Tensor<T>>>, index: Index,
                             e: Entry<Tensor<T>>)
    requires Indexes(shards, planned, index) && e in Stored(shards)
    ensures e.name in index.weightMap && Holds(planned, index.weightMap[e.name], e)
  {
    StoredIn(shards, e);
    var i :| 0 <= i < |shards| && e in shards[i].tensors;
    NamesOfMember(shards[i].tensors, e);
  }

  lemma {:induction false} TotalIsSum<D>(s: seq<Entry<D>>)
    ensures Shards.Total(s) == SumOf(s, (e: Entry<D>) => e.bytes)
  {
    if s != [] {
      var front, last := s[..|s| - 1], [s[|s| - 1]];
      TotalIsSum(front);
      assert s == front + last;
      SumOfConcat(front, last, (e: Entry<D>) => e.bytes);
      assert last[1..] == [];
    }
  }

  lemma TotalPermutes<D>(a: seq<Entry<D>>, b: seq<Entry<D>>)
    requires multiset(a) == multiset(b)
    ensures Shards.Total(a) == Shards.Total(b)
  {
    TotalIsSum(a);
    TotalIsSum(b);
    SumOfPermutation(a, b, (e: Entry<D>) => e.bytes);
  }

  lemma SameNames(a: seq<string>, b: seq<string>)
    requires multiset(a) == multiset(b)
    ensures forall n :: n in a <==> n in b
  {
    forall n ensures n in a <==> n in b {
      assert n in a <==> n in multiset(a);
      assert n in b <==> n in multiset(b);
    }
  }

  /** Results numbered by the plan are already in order. */
  lemma ResultsSorted<T(!new)>(job: Job<T>)
    ensures Dispatch.NumberedInOrder(Plan(job.req), Converted(job), TaskNumber())
    ensures AllShards(Map(Plan(job.req), Converted(job))) == ShardsOf(Results(job, Plan(job.req)))
  {
    var tasks := Plan(job.req);
    NumberedBySize(job.req);
    assert Dispatch.NumberedInOrder(tasks, Converted(job), TaskNumber());
    ResultsAreMap(job, tasks);
    Dispatch.ResultsInOrder(tasks, Converted(job), |tasks|);
    assert tasks[..|tasks|] == tasks;
    Dispatch.SortRestoresTaskOrder(tasks, Converted(job), TaskNumber(), Upto(|tasks|));
  }

  /** The shards of the whole run hold the checkpoint's tensors. */
  lemma RunHoldsCheckpoint<T(!new)>(job: Job<T>)
    requires Sound(job) && NamesDistinct(Means(job, job.req.keys))
    ensures var shards := AllShards(Map(Plan(job.req), Converted(job)));
      && Distinct(NamesOf(Stored(shards)))
      && multiset(Stored(shards)) == multiset(Means(job, job.req.keys))
      && ShardBytes(shards) == Shards.Total(Means(job, job.req.keys))
  {
    var meant, streams := Means(job, job.req.keys), Streams(job, Plan(job.req));
    PlanEmitsCheckpoint(job);
    NamesPermute(meant, streams);
    DistinctNames(meant);
    DistinctByBag(NamesOf(meant), NamesOf(streams));
    ShardsHoldStreams(job, Plan(job.req));
    ResultsSorted(job);
    TotalPermutes(streams, meant);
  }

  lemma IndexIsFaithful<T(!new)>(job: Job<T>, planned: seq<PlannedShard<Tensor<T>>>, index: Index)
    requires Sound(job) && NamesDistinct(Means(job, job.req.keys))
    requires Indexes(AllShards(Map(Plan(job.req), Converted(job))), planned, index)
    ensures Faithful(Means(job, job.req.keys), planned, index)
  {
    var meant := Means(job, job.req.keys);
    var shards := AllShards(Map(Plan(job.req), Converted(job)));
    RunHoldsCheckpoint(job);
    NamesPermute(Stored(shards), meant);
    SameNames(NamesOf(Stored(shards)), NamesOf(meant));
    forall e | e in meant ensures e.name in index.weightMap && Holds(planned, index.weightMap[e.name], e) {
      assert e in multiset(meant);
      assert e in multiset(Stored(shards));
      IndexedShardsHold(shards, planned, index, e);
    }
  }

  /** The shards of the whole run. */
  function Written<T>(job: Job<T>): seq<Shard<Tensor<T>>> {
    AllShards(Map(Plan(job.req), Converted(job)))
  }

  /** The tensors of the published files, end to end. */
  function Contents<D>(planned: seq<PlannedShard<D>>): seq<Entry<D>> {
    if planned == [] then [] else planned[0].source.tensors + Contents(planned[1..])
  }

  lemma {:induction false} ContentsAreStored<D>(planned: seq<PlannedShard<D>>, shards: seq<Shard<D>>)
    requires |planned| == |shards| && forall i :: 0 <= i < |shards| ==> planned[i].source == shards[i]
    ensures Contents(planned) == Stored(shards)
  {
    if shards != [] {
      ContentsAreStored(planned[1..], shards[1..]);
    }
  }

  lemma TaskHoldsSomething<D>(task: nat, stream: seq<Entry<D>>, limit: int)
    ensures Files(task, 0, Cut([], stream, limit)) != [] ==> Stored(Files(task, 0, Cut([], stream, limit))) != []
  {
    ShardsFit(task, stream, limit);
    var shards := Files(task, 0, Cut([], stream, limit));
    assert shards != [] ==> shards[0].tensors != [];
  }

  /** A shard is never empty. */
  lemma {:induction false} ShardsHoldSomething<T>(job: Job<T>, tasks: seq<TaskSpec>)
    ensures ShardsOf(Results(job, tasks)) != [] ==> Stored(ShardsOf(Results(job, tasks))) != []
  {
    if tasks != [] {
      var head, tail := Converted(job)(tasks[0]).shards, ShardsOf(Results(job, tasks[1..]));
      assert ShardsOf(Results(job, tasks)) == head + tail;
      ShardsHoldSomething(job, tasks[1..]);
      TaskHoldsSomething(NatId(tasks[0]), Stream(job, tasks[0]), job.maxFileBytes);
      StoredConcat(head, tail);
    }
  }

  /** Checkpoints without a tensor, and those with a repeated name, are the ones not published whole. */
  lemma PublishedIff<T(!new)>(job: Job<T>, planned: seq<PlannedShard<Tensor<T>>>, index: Index)
    requires Sound(job) && Written(job) != [] && Indexes(Written(job), planned, index)
    ensures multiset(Contents(planned)) == multiset(Means(job, job.req.keys)) <==> Publishable(job)
  {
    var meant := Means(job, job.req.keys);
    ContentsAreStored(planned, Written(job));
    if multiset(Contents(planned)) == multiset(meant) {
      NamesPermute(Contents(planned), meant);
      DistinctByBag(NamesOf(Contents(planned)), NamesOf(meant));
      DistinctNames(meant);
      ResultsSorted(job);
      ShardsHoldSomething(job, Plan(job.req));
      assert |multiset(Contents(planned))| > 0;
    }
    if Publishable(job) {
      RunHoldsCheckpoint(job);
    }
  }

  ghost predicate Publishable<T>(job: Job<T>) {
    Means(job, job.req.keys) != [] && NamesDistinct(Means(job, job.req.keys))
  }

  lemma PublishableIsWritten<T(!new)>(job: Job<T>)
    requires Sound(job) && Publishable(job)
    ensures Plan(job.req) != [] && Written(job) != [] && Distinct(NamesOf(Stored(Written(job))))
  {
    RunHoldsCheckpoint(job);
    assert |multiset(Means(job, job.req.keys))| > 0;
    assert Stored(Written(job)) != [];
    ResultsSorted(job);
  }

  /** Naming and indexing the shards of the collected results, of which there are none when nothing `ran`. */
  method Publish<T(!new)>(job: Job<T>, results: seq<TaskResult<Tensor<T>>>, ghost ran: bool)
    returns (r: Result<(seq<PlannedShard<Tensor<T>>>, Index), FinalizeError>)
    requires Sound(job) && results == if ran then Map(Plan(job.req), Converted(job)) else []
    ensures r.Ok? <==> ran && Written(job) != [] && Distinct(NamesOf(Stored(Written(job))))
    ensures ran ==> (r.Ok? && multiset(Contents(r.value.0)) == multiset(Means(job, job.req.keys)) <==> Publishable(job))
    ensures ran && Publishable(job) ==> r.Ok? && Faithful(Means(job, job.req.keys), r.value.0, r.value.1)
  {
    r := PlanGlobalShards(results);
    if ran && Publishable(job) {
      PublishableIsWritten(job);
      IndexIsFaithful(job, r.value.0, r.value.1);
    }
    if r.Ok? {
      PublishedIff(job, r.value.0, r.value.1);
    }
  }

  lemma NoResultsNoShards<D>()
    ensures AllShards<D>([]) == []
  {
  }

  lemma NothingPlanned<T(!new)>(job: Job<T>)
    requires Sound(job) && Plan(job.req) == []
    ensures Written(job) == [] && !Publishable(job)
  {
    NoResultsNoShards<Tensor<T>>();
    assert Map(Plan(job.req), Converted(job)) == [];
    if Publishable(job) {
      PublishableIsWritten(job);
    }
  }

  /** `convert_torch_dist_to_hf_ray`, from the plan to the index, for every order in which workers finish.
      A run succeeds if and only if it wrote shards that repeat no name; what it publishes is the whole
      checkpoint if and only if no name of the checkpoint repeats; and then the index is faithful. */
  method Convert<T(!new)>(job: Job<T>, concurrency: int)
    returns (r: Result<(seq<PlannedShard<Tensor<T>>>, Index), ConversionFailure>)
    requires Sound(job)
    ensures r == Err(NoTasks) <==> Plan(job.req) == []
    ensures r.Ok? <==> concurrency >= 1 && Written(job) != [] && Distinct(NamesOf(Stored(Written(job))))
    ensures concurrency >= 1 ==>
      (r.Ok? && multiset(Contents(r.value.0)) == multiset(Means(job, job.req.keys)) <==> Publishable(job))
    ensures concurrency >= 1 && Publishable(job) ==>
      r.Ok? && Faithful(Means(job, job.req.keys), r.value.0, r.value.1)
  {
    var tasks := PlanConversionTasks(job.req);
    if tasks == [] {
      NothingPlanned(job);
      return Err(NoTasks);
    }
    ResultsSorted(job);
    var results, run := Dispatch.CollectRayResults(tasks, Converted(job), TaskNumber(), concurrency);
    var published := Publish(job, results, concurrency >= 1);
    if published.Err? {
      return Err(Finalizing(published.error));
    }
    return Ok(published.value);
  }
}
