/** The finished plan is a partition of the checkpoint
    (tools/convert_torch_dist_to_hf_ray.py, lines 797-857). */
module PlanPartition {
  import opened Sequences
  import opened Sorting
  import opened Bucketing
  import opened ChunkReads
  import opened MoeBlocks
  import opened TaskGrouping
  import opened MlaPairs
  import opened ConversionPlan

  function BlocksIn(g: seq<Sized>): seq<Block> {
    if g == [] then [] else [g[0].block] + BlocksIn(g[1..])
  }

  function BlockKey(): Block -> string {
    (b: Block) => b.key
  }

  function NatTotal(g: seq<Sized>): (n: nat)
    ensures n == SizedTotal(g)
  {
    TotalIsNat(g);
    SizedTotal(g)
  }

  lemma TotalIsNat(g: seq<Sized>)
    ensures SizedTotal(g) >= 0
  {
    if g != [] {
      TotalIsNat(g[1..]);
    }
  }

  /** The record `flush_current` appends. */
  function MoeTask(g: seq<Sized>): TaskSpec {
    TaskSpec(-1, Sort(Labels(BlocksIn(g), BlockKey()), StringLe), NatTotal(g), BlocksIn(g))
  }

  function MoeTasks(groups: seq<seq<Sized>>): seq<TaskSpec> {
    if groups == [] then [] else [MoeTask(groups[0])] + MoeTasks(groups[1..])
  }

  function WholeSpecs(tasks: seq<Task>): seq<TaskSpec> {
    if tasks == [] then [] else [TaskSpec(-1, tasks[0].keys, tasks[0].bytes, [])] + WholeSpecs(tasks[1..])
  }

  function Groups(req: Request): seq<seq<Sized>> {
    BlockGroups(DirectBlocks(req, Sort(req.keys, StringLe)), req.metas, req.taskGroupBytes)
  }

  function Unordered(req: Request): seq<TaskSpec> {
    MoeTasks(Groups(req)) + WholeSpecs(WholeTasks(req, WholeKeys(req, req.keys)))
  }

  /** The name part of the sort key of lines 850-855. */
  function NameKey(t: TaskSpec): seq<string> {
    var first := if t.blocks != [] then t.blocks[0].key else if t.keys != [] then t.keys[0] else "";
    var path := if t.blocks != [] then t.blocks[0].file else "";
    [first, path] + t.keys
  }

  predicate SpecLe(a: TaskSpec, b: TaskSpec) {
    a.bytes > b.bytes || (a.bytes == b.bytes && TupleLe(NameKey(a), NameKey(b)))
  }

  lemma SpecLeIsPreorder()
    ensures TotalPreorder(SpecLe)
  {
    TupleLeIsOrder();
  }

  function Numbered(tasks: seq<TaskSpec>, from: nat): seq<TaskSpec> {
    if tasks == [] then [] else [tasks[0].(id := from)] + Numbered(tasks[1..], from + 1)
  }

  function Plan(req: Request): seq<TaskSpec> {
    Numbered(Sort(Unordered(req), SpecLe), 0)
  }

  /** The loop that numbers the sorted tasks. */
  method NumberTasks(sorted: seq<TaskSpec>) returns (tasks: seq<TaskSpec>)
    ensures tasks == Numbered(sorted, 0)
  {
    tasks := [];
    for i := 0 to |sorted|
      invariant tasks + Numbered(sorted[i..], i) == Numbered(sorted, 0)
    {
      NumberedStep(sorted, i);
      tasks := tasks + [sorted[i].(id := i)];
    }
    assert sorted[|sorted|..] == [];
  }

  lemma NumberedStep(tasks: seq<TaskSpec>, i: nat)
    requires i < |tasks|
    ensures Numbered(tasks[i..], i) == [tasks[i].(id := i)] + Numbered(tasks[i + 1..], i + 1)
  {
    assert tasks[i..][1..] == tasks[i + 1..];
  }

  /** `plan_conversion_tasks`. */
  method PlanConversionTasks(req: Request) returns (tasks: seq<TaskSpec>)
    requires Valid(req)
    ensures tasks == Plan(req)
  {
    var blocks, whole := CollectMoeBlocksByFile(req);
    var groups := GroupMoeBlocks(blocks, req.metas, req.taskGroupBytes);
    var wholeTasks := PlanWholeSourceTasks(req, whole);
    tasks := NumberTasks(Sort(MoeTasks(groups) + WholeSpecs(wholeTasks), SpecLe));
  }

  // ---------- weights of a task, none of which looks at its number ----------

  /** How often a whole-source task lists a key. */
  function Listing(key: string): TaskSpec -> int {
    (t: TaskSpec) => if t.blocks == [] then multiset(t.keys)[key] else 0
  }

  /** How often a task's blocks list chunk `i` of `key`. */
  function Storing(key: string, i: nat): TaskSpec -> int {
    (t: TaskSpec) => SumOf(t.blocks, Stores(key, i))
  }

  function SpecBytes(): TaskSpec -> int {
    (t: TaskSpec) => t.bytes
  }

  ghost predicate IgnoresNumber(weight: TaskSpec -> int) {
    forall t: TaskSpec, n: int :: weight(t.(id := n)) == weight(t)
  }

  lemma {:induction false} NumberingKeeps(tasks: seq<TaskSpec>, from: nat, weight: TaskSpec -> int)
    requires IgnoresNumber(weight)
    ensures SumOf(Numbered(tasks, from), weight) == SumOf(tasks, weight)
  {
    if tasks != [] {
      NumberingKeeps(tasks[1..], from + 1, weight);
      assert Numbered(tasks, from)[1..] == Numbered(tasks[1..], from + 1);
    }
  }

  lemma {:induction false} NumberedAt(tasks: seq<TaskSpec>, from: nat)
    ensures |Numbered(tasks, from)| == |tasks|
    ensures forall i :: 0 <= i < |tasks| ==> Numbered(tasks, from)[i] == tasks[i].(id := from + i)
  {
    if tasks != [] {
      NumberedAt(tasks[1..], from + 1);
      forall i | 0 <= i < |tasks| ensures Numbered(tasks, from)[i] == tasks[i].(id := from + i) {
        if i > 0 {
          assert Numbered(tasks, from)[i] == Numbered(tasks[1..], from + 1)[i - 1];
        }
      }
    }
  }

  /** Sorting and numbering leave every total alone. */
  lemma PlanWeighs(req: Request, weight: TaskSpec -> int)
    requires IgnoresNumber(weight)
    ensures SumOf(Plan(req), weight) == SumOf(MoeTasks(Groups(req)), weight)
                                      + SumOf(WholeSpecs(WholeTasks(req, WholeKeys(req, req.keys))), weight)
  {
    var unordered := Unordered(req);
    SortPermutes(unordered, SpecLe);
    NumberingKeeps(Sort(unordered, SpecLe), 0, weight);
    SumOfPermutation(Sort(unordered, SpecLe), unordered, weight);
    SumOfConcat(MoeTasks(Groups(req)), WholeSpecs(WholeTasks(req, WholeKeys(req, req.keys))), weight);
  }

  // ---------- the two halves of the plan ----------

  function StoresSized(key: string, i: nat): Sized -> int {
    (s: Sized) => Stores(key, i)(s.block)
  }

  lemma {:induction false} GroupStores(g: seq<Sized>, key: string, i: nat)
    ensures SumOf(BlocksIn(g), Stores(key, i)) == SumOf(g, StoresSized(key, i))
  {
    if g != [] {
      GroupStores(g[1..], key, i);
      assert BlocksIn(g)[1..] == BlocksIn(g[1..]);
    }
  }

  lemma {:induction false} MoeTasksStore(groups: seq<seq<Sized>>, key: string, i: nat)
    ensures SumOf(MoeTasks(groups), Storing(key, i)) == SumOf(Flatten(groups), StoresSized(key, i))
  {
    if groups != [] {
      MoeTasksStore(groups[1..], key, i);
      GroupStores(groups[0], key, i);
      SumOfConcat(groups[0], Flatten(groups[1..]), StoresSized(key, i));
      assert MoeTasks(groups)[1..] == MoeTasks(groups[1..]);
    }
  }

  lemma {:induction false} MoeTasksWeigh(groups: seq<seq<Sized>>)
    ensures SumOf(MoeTasks(groups), SpecBytes()) == SumOf(Flatten(groups), SizedBytes)
  {
    if groups != [] {
      MoeTasksWeigh(groups[1..]);
      SumOfConcat(groups[0], Flatten(groups[1..]), SizedBytes);
      assert MoeTasks(groups)[1..] == MoeTasks(groups[1..]);
    }
  }

  lemma {:induction false} MoeTasksListNothing(groups: seq<seq<Sized>>, key: string)
    requires forall g :: g in groups ==> g != []
    ensures SumOf(MoeTasks(groups), Listing(key)) == 0
  {
    if groups != [] {
      assert groups[0] in groups;
      assert forall g :: g in groups[1..] ==> g in groups;
      MoeTasksListNothing(groups[1..], key);
      assert MoeTasks(groups)[1..] == MoeTasks(groups[1..]);
    }
  }

  lemma {:induction false} WholeSpecsWeigh(tasks: seq<Task>, key: string, i: nat)
    ensures SumOf(WholeSpecs(tasks), Listing(key)) == KeyCount(tasks, key)
    ensures SumOf(WholeSpecs(tasks), Storing(key, i)) == 0
    ensures SumOf(WholeSpecs(tasks), SpecBytes()) == SumOf(tasks, Bytes)
  {
    if tasks != [] {
      WholeSpecsWeigh(tasks[1..], key, i);
      assert WholeSpecs(tasks)[1..] == WholeSpecs(tasks[1..]);
    }
  }

  lemma {:induction false} SizedBlocksStore(meta: TensorMeta, blocks: seq<Block>, key: string, i: nat)
    ensures SumOf(SizedBlocks(meta, blocks), StoresSized(key, i)) == SumOf(blocks, Stores(key, i))
    ensures SumOf(SizedBlocks(meta, blocks), SizedBytes) == SumOf(blocks, BlockBytes(meta))
  {
    if blocks != [] {
      SizedBlocksStore(meta, blocks[1..], key, i);
      assert SizedBlocks(meta, blocks)[1..] == SizedBlocks(meta, blocks[1..]);
    }
  }

  lemma {:induction false} OtherKeysBlocks(key: string, meta: TensorMeta, files: seq<string>, other: string, i: nat)
    requires other != key
    ensures SumOf(BlocksFor(key, meta, files), Stores(other, i)) == 0
  {
    if files != [] {
      OtherKeysBlocks(key, meta, files[1..], other, i);
      assert BlocksFor(key, meta, files)[1..] == BlocksFor(key, meta, files[1..]);
    }
  }

  /** How often chunk `i` of `key` is read for a tensor. */
  function ReadFor(req: Request, key: string, i: nat): string -> int {
    (owner: string) =>
      if owner == key && IsDirect(req, key) then multiset(ReadsOf(req.metas[key]))[i] else 0
  }

  /** What the blocks of one tensor list of chunk `i` of `key`. */
  lemma KeyBlocksStore(req: Request, owner: string, key: string, i: nat)
    ensures SumOf(KeyBlocks(req, owner), StoresSized(key, i)) == ReadFor(req, key, i)(owner)
  {
    if IsDirect(req, owner) {
      var meta := req.metas[owner];
      SizedBlocksStore(meta, BlocksFor(owner, meta, Files(meta)), key, i);
      BlocksListReads(owner, meta);
      if owner != key {
        OtherKeysBlocks(owner, meta, Files(meta), key, i);
      }
    }
  }

  lemma {:induction false} DirectBlocksStore(req: Request, keys: seq<string>, key: string, i: nat)
    ensures SumOf(DirectBlocks(req, keys), StoresSized(key, i)) == SumOf(keys, ReadFor(req, key, i))
  {
    if keys != [] {
      DirectBlocksStore(req, keys[1..], key, i);
      KeyBlocksStore(req, keys[0], key, i);
      SumOfConcat(KeyBlocks(req, keys[0]), DirectBlocks(req, keys[1..]), StoresSized(key, i));
    }
  }

  lemma {:induction false} ReadForDistinct(req: Request, keys: seq<string>, key: string, i: nat)
    requires Distinct(keys)
    ensures SumOf(keys, ReadFor(req, key, i)) == if key in keys then ReadFor(req, key, i)(key) else 0
  {
    if keys != [] {
      assert Distinct(keys[1..]) && keys[0] !in keys[1..];
      ReadForDistinct(req, keys[1..], key, i);
      assert key in keys <==> key == keys[0] || key in keys[1..];
    }
  }

  /** The bytes a tensor contributes: the chunks read when converted directly, else its full size. */
  function PlannedBytes(req: Request): string -> int {
    (k: string) =>
      if IsDirect(req, k) then SumOf(ReadsOf(req.metas[k]), BytesOf(req.metas[k])) else KeyBytes(req)(k)
  }

  lemma KeyWeighs(req: Request, k: string)
    ensures SumOf(KeyBlocks(req, k), SizedBytes) == if IsDirect(req, k) then PlannedBytes(req)(k) else 0
  {
    if IsDirect(req, k) {
      var meta := req.metas[k];
      SizedBlocksStore(meta, BlocksFor(k, meta, Files(meta)), k, 0);
      BlocksListReads(k, meta);
    }
  }

  lemma WholeKeysWeigh(req: Request, keys: seq<string>)
    requires keys != []
    ensures SumOf(WholeKeys(req, keys), KeyBytes(req)) ==
            SumOf(WholeKeys(req, keys[1..]), KeyBytes(req)) +
            if IsDirect(req, keys[0]) then 0 else PlannedBytes(req)(keys[0])
  {
    if IsDirect(req, keys[0]) {
      assert WholeKeys(req, keys) == WholeKeys(req, keys[1..]);
    } else {
      assert WholeKeys(req, keys)[1..] == WholeKeys(req, keys[1..]);
    }
  }

  lemma {:induction false} DirectAndWholeWeigh(req: Request, keys: seq<string>)
    ensures SumOf(DirectBlocks(req, keys), SizedBytes) + SumOf(WholeKeys(req, keys), KeyBytes(req))
         == SumOf(keys, PlannedBytes(req))
  {
    if keys != [] {
      DirectAndWholeWeigh(req, keys[1..]);
      SumOfConcat(KeyBlocks(req, keys[0]), DirectBlocks(req, keys[1..]), SizedBytes);
      KeyWeighs(req, keys[0]);
      WholeKeysWeigh(req, keys);
    }
  }

  lemma {:induction false} WholeKeysCount(req: Request, keys: seq<string>, key: string)
    ensures multiset(WholeKeys(req, keys))[key] == if IsDirect(req, key) then 0 else multiset(keys)[key]
  {
    if keys != [] {
      assert keys == [keys[0]] + keys[1..];
      WholeKeysCount(req, keys[1..], key);
    }
  }

  lemma DistinctCount(keys: seq<string>, key: string)
    requires Distinct(keys)
    ensures multiset(keys)[key] == if key in keys then 1 else 0
  {
    DistinctIffNoRepeats(keys);
    assert key in keys <==> key in multiset(keys);
  }

  lemma WeightsIgnoreNumber(key: string, i: nat)
    ensures IgnoresNumber(Listing(key)) && IgnoresNumber(Storing(key, i)) && IgnoresNumber(SpecBytes())
  {
  }

  // ---------- the guarantees ----------

  /** Every selected tensor that is not converted directly is in exactly one whole-source task. */
  lemma EachWholeTensorOnce(req: Request, key: string)
    requires Valid(req)
    ensures SumOf(Plan(req), Listing(key)) == if key in req.keys && !IsDirect(req, key) then 1 else 0
  {
    var whole := WholeKeys(req, req.keys);
    WeightsIgnoreNumber(key, 0);
    PlanWeighs(req, Listing(key));
    BlockGroupsAreTight(DirectBlocks(req, Sort(req.keys, StringLe)), req.metas, req.taskGroupBytes);
    MoeTasksListNothing(Groups(req), key);
    WholeSpecsWeigh(WholeTasks(req, whole), key, 0);
    WholeTasksConserve(req, whole);
    WholeKeysCount(req, req.keys, key);
    DistinctCount(req.keys, key);
  }

  /** The blocks of the plan list of every tensor converted directly what is read of it, as often as it is read. */
  lemma EachReadListed(req: Request, key: string, i: nat)
    ensures SumOf(Plan(req), Storing(key, i)) == SumOf(req.keys, ReadFor(req, key, i))
  {
    var sorted := Sort(req.keys, StringLe);
    var blocks := DirectBlocks(req, sorted);
    WeightsIgnoreNumber(key, i);
    PlanWeighs(req, Storing(key, i));
    MoeTasksStore(Groups(req), key, i);
    BlockGroupsAreTight(blocks, req.metas, req.taskGroupBytes);
    SumOfPermutation(Flatten(Groups(req)), blocks, StoresSized(key, i));
    DirectBlocksStore(req, sorted, key, i);
    WholeSpecsWeigh(WholeTasks(req, WholeKeys(req, req.keys)), key, i);
    SortPermutes(req.keys, StringLe);
    SumOfPermutation(sorted, req.keys, ReadFor(req, key, i));
  }

  /** Every chunk that stores something of a tensor converted directly is in exactly one block of one task, and no other
      chunk is in any, if and only if no two chunks of the tensor overlap. */
  lemma EachDirectChunkOnce(req: Request, key: string)
    requires Valid(req) && key in req.keys && IsDirect(req, key)
    ensures (forall i: nat :: SumOf(Plan(req), Storing(key, i)) == Once(req.metas[key], i))
            <==> Separate(Items(req.metas[key]))
  {
    var meta := req.metas[key];
    forall i: nat ensures SumOf(Plan(req), Storing(key, i)) == multiset(ReadsOf(meta))[i] {
      EachReadListed(req, key, i);
      ReadForDistinct(req, req.keys, key, i);
    }
    ReadsOnceIff(meta);
  }

  /** The block is one file's worth of chunks of a selected tensor that is converted directly. */
  ghost predicate WellPlanned(req: Request, b: Block) {
    b.key in req.keys && IsDirect(req, b.key) && WellFormed(b, b.key, req.metas[b.key])
  }

  ghost predicate AllWellPlanned(req: Request, tasks: seq<TaskSpec>) {
    forall t, b :: t in tasks && b in t.blocks ==> WellPlanned(req, b)
  }

  lemma {:induction false} SizedBlocksMembers(meta: TensorMeta, blocks: seq<Block>)
    ensures forall s :: s in SizedBlocks(meta, blocks) ==> s.block in blocks
  {
    if blocks != [] {
      SizedBlocksMembers(meta, blocks[1..]);
    }
  }

  lemma {:induction false} DirectBlocksAreWellFormed(req: Request, keys: seq<string>)
    requires forall k :: k in keys ==> k in req.keys
    ensures forall s :: s in DirectBlocks(req, keys) ==> WellPlanned(req, s.block)
  {
    if keys != [] {
      assert keys[0] in keys;
      assert forall k :: k in keys[1..] ==> k in keys;
      DirectBlocksAreWellFormed(req, keys[1..]);
      if IsDirect(req, keys[0]) {
        var meta := req.metas[keys[0]];
        SizedBlocksMembers(meta, BlocksFor(keys[0], meta, Files(meta)));
        BlocksAreOneFileEach(keys[0], meta);
      }
    }
  }

  lemma {:induction false} BlocksOfGroup(g: seq<Sized>)
    ensures forall b :: b in BlocksIn(g) ==> exists s :: s in g && s.block == b
  {
    if g != [] {
      BlocksOfGroup(g[1..]);
      forall b | b in BlocksIn(g) ensures exists s :: s in g && s.block == b {
        if b == g[0].block {
          assert g[0] in g;
        } else {
          assert b in BlocksIn(g[1..]);
          var s :| s in g[1..] && s.block == b;
          assert s in g;
        }
      }
    }
  }

  lemma {:induction false} MoeTasksAreWellPlanned(req: Request, groups: seq<seq<Sized>>)
    requires forall s :: s in Flatten(groups) ==> WellPlanned(req, s.block)
    ensures AllWellPlanned(req, MoeTasks(groups))
  {
    if groups != [] {
      assert forall s :: s in groups[0] ==> s in Flatten(groups);
      assert forall s :: s in Flatten(groups[1..]) ==> s in Flatten(groups);
      MoeTasksAreWellPlanned(req, groups[1..]);
      BlocksOfGroup(groups[0]);
      assert forall b :: b in BlocksIn(groups[0]) ==> WellPlanned(req, b);
    }
  }

  lemma {:induction false} WholeSpecsHaveNoBlocks(req: Request, tasks: seq<Task>)
    ensures AllWellPlanned(req, WholeSpecs(tasks))
  {
    if tasks != [] {
      WholeSpecsHaveNoBlocks(req, tasks[1..]);
    }
  }

  lemma NumberedAreWellPlanned(req: Request, tasks: seq<TaskSpec>)
    requires AllWellPlanned(req, tasks)
    ensures AllWellPlanned(req, Numbered(tasks, 0))
  {
    NumberedAt(tasks, 0);
    forall t, b | t in Numbered(tasks, 0) && b in t.blocks ensures WellPlanned(req, b) {
      var i :| 0 <= i < |tasks| && Numbered(tasks, 0)[i] == t;
      assert tasks[i] in tasks;
    }
  }

  lemma GroupsAreWellPlanned(req: Request)
    ensures AllWellPlanned(req, MoeTasks(Groups(req)))
  {
    var blocks := DirectBlocks(req, Sort(req.keys, StringLe));
    SortMembers(req.keys, StringLe);
    DirectBlocksAreWellFormed(req, Sort(req.keys, StringLe));
    BlockGroupsAreTight(blocks, req.metas, req.taskGroupBytes);
    forall s | s in Flatten(Groups(req)) ensures WellPlanned(req, s.block) {
      assert s in multiset(Flatten(Groups(req)));
      assert s in blocks;
    }
    MoeTasksAreWellPlanned(req, Groups(req));
  }

  lemma SortedAreWellPlanned(req: Request, a: seq<TaskSpec>, b: seq<TaskSpec>)
    requires AllWellPlanned(req, a) && AllWellPlanned(req, b)
    ensures AllWellPlanned(req, Sort(a + b, SpecLe))
  {
    SortMembers(a + b, SpecLe);
  }

  /** Every block of the plan can be read from its one file and converted directly. */
  lemma PlannedBlocksAreWellFormed(req: Request)
    ensures AllWellPlanned(req, Plan(req))
  {
    var whole := WholeSpecs(WholeTasks(req, WholeKeys(req, req.keys)));
    GroupsAreWellPlanned(req);
    WholeSpecsHaveNoBlocks(req, WholeTasks(req, WholeKeys(req, req.keys)));
    SortedAreWellPlanned(req, MoeTasks(Groups(req)), whole);
    NumberedAreWellPlanned(req, Sort(MoeTasks(Groups(req)) + whole, SpecLe));
  }

  /** The bytes of the direct tasks, and those of the others. */
  lemma HalvesWeigh(req: Request, sorted: seq<string>, whole: seq<string>)
    requires sorted == Sort(req.keys, StringLe) && whole == WholeKeys(req, req.keys)
    ensures SumOf(MoeTasks(Groups(req)), SpecBytes()) == SumOf(DirectBlocks(req, sorted), SizedBytes)
    ensures SumOf(WholeSpecs(WholeTasks(req, whole)), SpecBytes()) == SumOf(whole, KeyBytes(req))
  {
    MoeTasksWeigh(Groups(req));
    BlockGroupsAreTight(DirectBlocks(req, sorted), req.metas, req.taskGroupBytes);
    SumOfPermutation(Flatten(Groups(req)), DirectBlocks(req, sorted), SizedBytes);
    WholeSpecsWeigh(WholeTasks(req, whole), "", 0);
    WholeTasksConserve(req, whole);
  }

  /** The estimated bytes of the tasks add up to the bytes of the selected tensors. */
  lemma BytesConserved(req: Request)
    ensures SumOf(Plan(req), SpecBytes()) == SumOf(req.keys, PlannedBytes(req))
  {
    var sorted, whole := Sort(req.keys, StringLe), WholeKeys(req, req.keys);
    WeightsIgnoreNumber("", 0);
    PlanWeighs(req, SpecBytes());
    HalvesWeigh(req, sorted, whole);
    DirectAndWholeWeigh(req, sorted);
    SortPermutes(req.keys, StringLe);
    SumOfPermutation(sorted, req.keys, PlannedBytes(req));
    WholeKeysPermutation(req, sorted, req.keys);
    SumOfPermutation(WholeKeys(req, sorted), whole, KeyBytes(req));
  }

  lemma WholeKeysPermutation(req: Request, a: seq<string>, b: seq<string>)
    requires multiset(a) == multiset(b)
    ensures multiset(WholeKeys(req, a)) == multiset(WholeKeys(req, b))
  {
    forall key ensures multiset(WholeKeys(req, a))[key] == multiset(WholeKeys(req, b))[key] {
      WholeKeysCount(req, a, key);
      WholeKeysCount(req, b, key);
    }
  }

  /** Tasks are numbered 0, 1, ... from the largest estimate down. */
  lemma NumberedBySize(req: Request)
    ensures forall i :: 0 <= i < |Plan(req)| ==> Plan(req)[i].id == i
    ensures forall i, j :: 0 <= i < j < |Plan(req)| ==> Plan(req)[i].bytes >= Plan(req)[j].bytes
  {
    var sorted := Sort(Unordered(req), SpecLe);
    SpecLeIsPreorder();
    SortOrders(Unordered(req), SpecLe);
    NumberedAt(sorted, 0);
    forall i, j | 0 <= i < j < |Plan(req)| ensures Plan(req)[i].bytes >= Plan(req)[j].bytes {
      assert SpecLe(sorted[i], sorted[j]);
    }
  }

  lemma {:induction false} SpecOfTask(tasks: seq<Task>, t: Task)
    requires t in tasks
    ensures TaskSpec(-1, t.keys, t.bytes, []) in WholeSpecs(tasks)
  {
    if t != tasks[0] {
      SpecOfTask(tasks[1..], t);
    }
  }

  /** With a query rank, the query and key-value down projections of a layer are planned together,
      as long as neither is a stacked expert weight. */
  lemma DownProjectionsShareTask(req: Request, prefix: string)
    requires req.hasQueryRank
    requires prefix + QUERY_DOWN in req.keys && prefix + KEY_VALUE_DOWN in req.keys
    requires !IsDirect(req, prefix + QUERY_DOWN) && !IsDirect(req, prefix + KEY_VALUE_DOWN)
    ensures exists i :: 0 <= i < |Plan(req)| &&
              prefix + QUERY_DOWN in Plan(req)[i].keys && prefix + KEY_VALUE_DOWN in Plan(req)[i].keys
  {
    var a, b := prefix + QUERY_DOWN, prefix + KEY_VALUE_DOWN;
    var whole := WholeKeys(req, req.keys);
    PairShareGroup(prefix);
    WholeKeysCount(req, req.keys, a);
    WholeKeysCount(req, req.keys, b);
    assert a in multiset(whole) && b in multiset(whole);
    GroupStaysTogether(req, whole, a, b);
    var t :| t in WholeTasks(req, whole) && a in t.keys && b in t.keys;
    SpecOfTask(WholeTasks(req, whole), t);
    PlanKeeps(req, TaskSpec(-1, t.keys, t.bytes, []));
  }

  /** Each unordered task reappears in the plan, renumbered. */
  lemma PlanKeeps(req: Request, t: TaskSpec)
    requires t in Unordered(req)
    ensures exists i :: 0 <= i < |Plan(req)| && Plan(req)[i] == t.(id := i)
  {
    var sorted := Sort(Unordered(req), SpecLe);
    SortMembers(Unordered(req), SpecLe);
    var i :| 0 <= i < |sorted| && sorted[i] == t;
    NumberedAt(sorted, 0);
    assert Plan(req)[i] == t.(id := i);
  }
}
