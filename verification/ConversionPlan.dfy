/** The conversion plan: which tensor goes into which task
    (tools/convert_torch_dist_to_hf_ray.py, lines 757-857). */
module ConversionPlan {
  import opened Wrappers
  import opened Sequences
  import opened Sorting
  import opened Bucketing
  import opened MoeChunks
  import opened MoeBlocks
  import opened TaskGrouping
  import opened MlaPairs

  /** What the planner is given: the selected tensors in metadata order, and the planner's settings.
      `parse` is the match of a key against the stacked-expert pattern. */
  datatype Request = Request(
    keys: seq<string>,
    metas: map<string, TensorMeta>,
    parse: string -> Option<ExpertKey>,
    hasStorage: bool,
    hasQueryRank: bool,
    taskGroupBytes: int)

  datatype TaskSpec = TaskSpec(id: int, keys: seq<string>, bytes: nat, blocks: seq<Block>)

  /** Metadata is a dictionary: keys are distinct and all described. */
  ghost predicate Valid(req: Request) {
    Distinct(req.keys) && forall k :: k in req.keys ==> k in req.metas
  }

  predicate IsDirect(req: Request, key: string) {
    req.hasStorage && key in req.metas && Direct(req.parse(key), req.metas[key])
  }

  function Product(size: seq<nat>): nat {
    if size == [] then 1 else size[0] * Product(size[1..])
  }

  function TensorBytes(meta: TensorMeta): nat {
    Product(meta.size) * meta.elementBytes
  }

  function KeyBytes(req: Request): string -> int {
    (k: string) => if k in req.metas then TensorBytes(req.metas[k]) else 0
  }

  // ---------- blocks by file ----------

  function NatBytes(meta: TensorMeta, b: Block): (n: nat)
    ensures n == BlockBytes(meta)(b)
  {
    ChunkBytesAreNat(meta, b.indices);
    SumOf(b.indices, BytesOf(meta))
  }

  lemma ChunkBytesAreNat(meta: TensorMeta, indices: seq<nat>)
    ensures SumOf(indices, BytesOf(meta)) >= 0
  {
  }

  function SizedBlocks(meta: TensorMeta, blocks: seq<Block>): seq<Sized> {
    if blocks == [] then []
    else [Sized(NatBytes(meta, blocks[0]), blocks[0])] + SizedBlocks(meta, blocks[1..])
  }

  function KeyBlocks(req: Request, key: string): seq<Sized> {
    if IsDirect(req, key)
    then SizedBlocks(req.metas[key], BlocksFor(key, req.metas[key], Files(req.metas[key])))
    else []
  }

  /** The blocks of the direct tensors among `keys`, in that order. */
  function DirectBlocks(req: Request, keys: seq<string>): seq<Sized> {
    if keys == [] then [] else KeyBlocks(req, keys[0]) + DirectBlocks(req, keys[1..])
  }

  function WholeKeys(req: Request, keys: seq<string>): seq<string> {
    if keys == [] then []
    else (if IsDirect(req, keys[0]) then [] else [keys[0]]) + WholeKeys(req, keys[1..])
  }

  /** Deleting a key from an insertion-ordered dictionary. */
  function Without(keys: seq<string>, gone: set<string>): seq<string> {
    if keys == [] then []
    else (if keys[0] in gone then [] else [keys[0]]) + Without(keys[1..], gone)
  }

  lemma {:induction false} WithoutOneMore(keys: seq<string>, gone: set<string>, key: string)
    ensures Without(Without(keys, gone), {key}) == Without(keys, gone + {key})
  {
    if keys != [] {
      WithoutOneMore(keys[1..], gone, key);
      if keys[0] in gone {
        assert Without(keys, gone) == Without(keys[1..], gone);
      } else {
        var kept := Without(keys, gone);
        assert kept[0] == keys[0] && kept[1..] == Without(keys[1..], gone);
      }
    }
  }

  lemma {:induction false} WithoutDirect(req: Request, keys: seq<string>, gone: set<string>)
    requires forall k :: k in keys ==> (k in gone <==> IsDirect(req, k))
    ensures Without(keys, gone) == WholeKeys(req, keys)
  {
    if keys != [] {
      assert keys[0] in keys;
      assert forall k :: k in keys[1..] ==> k in keys;
      WithoutDirect(req, keys[1..], gone);
    }
  }

  lemma {:induction false} WithoutNone(keys: seq<string>)
    ensures Without(keys, {}) == keys
  {
    if keys != [] {
      WithoutNone(keys[1..]);
      assert keys == [keys[0]] + keys[1..];
    }
  }

  /** `collect_moe_blocks_by_file`. */
  method CollectMoeBlocksByFile(req: Request) returns (blocks: seq<Sized>, whole: seq<string>)
    requires Valid(req)
    ensures blocks == DirectBlocks(req, Sort(req.keys, StringLe))
    ensures whole == WholeKeys(req, req.keys)
  {
    blocks, whole := [], req.keys;
    var sorted := Sort(req.keys, StringLe);
    if !req.hasStorage {
      NothingDirect(req, sorted);
      return;
    }
    SortedKeysDescribed(req);
    CollectStarts(req, sorted);
    for i := 0 to |sorted|
      invariant Collected(req, sorted, i, blocks, whole)
    {
      CollectStep(req, sorted, i, blocks, whole);
      blocks, whole := CollectOne(req, sorted[i], blocks, whole);
    }
    CollectEnds(req, blocks, whole);
  }

  ghost function Remaining(req: Request, done: seq<string>): seq<string> {
    Without(req.keys, DirectKeys(req, done))
  }

  /** The blocks of the first `i` keys are listed, and those keys are gone. */
  ghost predicate Collected(req: Request, sorted: seq<string>, i: nat, blocks: seq<Sized>, whole: seq<string>) {
    && i <= |sorted|
    && blocks + DirectBlocks(req, sorted[i..]) == DirectBlocks(req, sorted)
    && whole == Remaining(req, sorted[..i])
  }

  lemma CollectStep(req: Request, sorted: seq<string>, i: nat, blocks: seq<Sized>, whole: seq<string>)
    requires i < |sorted| && Collected(req, sorted, i, blocks, whole)
    ensures Collected(req, sorted, i + 1, blocks + KeyBlocks(req, sorted[i]),
                      if IsDirect(req, sorted[i]) then Without(whole, {sorted[i]}) else whole)
  {
    DirectStep(req, sorted, i);
    ConcatAssociates(blocks, KeyBlocks(req, sorted[i]), DirectBlocks(req, sorted[i + 1..]));
  }

  lemma SortedKeysDescribed(req: Request)
    requires Valid(req)
    ensures forall i :: 0 <= i < |Sort(req.keys, StringLe)| ==> Sort(req.keys, StringLe)[i] in req.metas
  {
    SortMembers(req.keys, StringLe);
  }

  lemma CollectStarts(req: Request, sorted: seq<string>)
    ensures Collected(req, sorted, 0, [], req.keys)
  {
    WithoutNone(req.keys);
    assert sorted[0..] == sorted;
    assert DirectKeys(req, sorted[..0]) == {};
  }

  lemma CollectEnds(req: Request, blocks: seq<Sized>, whole: seq<string>)
    requires Collected(req, Sort(req.keys, StringLe), |Sort(req.keys, StringLe)|, blocks, whole)
    ensures blocks == DirectBlocks(req, Sort(req.keys, StringLe))
    ensures whole == WholeKeys(req, req.keys)
  {
    var sorted := Sort(req.keys, StringLe);
    assert sorted[|sorted|..] == [] && sorted[..|sorted|] == sorted;
    assert blocks + [] == blocks;
    SortMembers(req.keys, StringLe);
    WithoutDirect(req, req.keys, DirectKeys(req, sorted));
  }

  lemma NothingDirect(req: Request, sorted: seq<string>)
    requires !req.hasStorage
    ensures DirectBlocks(req, sorted) == [] && WholeKeys(req, req.keys) == req.keys
  {
    WithoutNone(req.keys);
    WithoutDirect(req, req.keys, {});
    NoDirectBlocks(req, sorted);
  }

  /** The body of the loop for one source key. */
  method CollectOne(req: Request, key: string, blocks: seq<Sized>, whole: seq<string>)
    returns (blocks': seq<Sized>, whole': seq<string>)
    requires req.hasStorage && key in req.metas
    ensures blocks' == blocks + KeyBlocks(req, key)
    ensures whole' == if IsDirect(req, key) then Without(whole, {key}) else whole
  {
    blocks', whole' := blocks, whole;
    var specs := CreateMoeBlockSpecs(key, req.parse(key), req.metas[key]);
    if specs.Some? {
      var sized := AddSizes(req.metas[key], specs.value);
      blocks' := blocks + sized;
      whole' := Without(whole, {key});
    }
  }

  ghost function DirectKeys(req: Request, keys: seq<string>): set<string> {
    set k | k in keys && IsDirect(req, k)
  }

  lemma ConcatAssociates<T>(a: seq<T>, b: seq<T>, c: seq<T>)
    ensures (a + b) + c == a + (b + c)
  {
  }

  lemma DirectStep(req: Request, sorted: seq<string>, i: nat)
    requires i < |sorted|
    ensures Remaining(req, sorted[..i + 1]) ==
            if IsDirect(req, sorted[i]) then Without(Remaining(req, sorted[..i]), {sorted[i]})
            else Remaining(req, sorted[..i])
    ensures DirectBlocks(req, sorted[i..]) == KeyBlocks(req, sorted[i]) + DirectBlocks(req, sorted[i + 1..])
  {
    var gone := DirectKeys(req, sorted[..i]);
    WithoutOneMore(req.keys, gone, sorted[i]);
    assert sorted[i..][1..] == sorted[i + 1..];
    assert sorted[..i + 1] == sorted[..i] + [sorted[i]];
    if IsDirect(req, sorted[i]) {
      assert DirectKeys(req, sorted[..i + 1]) == gone + {sorted[i]};
    } else {
      assert DirectKeys(req, sorted[..i + 1]) == gone;
    }
  }

  method AddSizes(meta: TensorMeta, specs: seq<Block>) returns (sized: seq<Sized>)
    ensures sized == SizedBlocks(meta, specs)
  {
    sized := [];
    for i := 0 to |specs|
      invariant sized + SizedBlocks(meta, specs[i..]) == SizedBlocks(meta, specs)
    {
      assert specs[i..][1..] == specs[i + 1..];
      sized := sized + [Sized(NatBytes(meta, specs[i]), specs[i])];
    }
    assert specs[|specs|..] == [];
  }

  lemma {:induction false} NoDirectBlocks(req: Request, keys: seq<string>)
    requires !req.hasStorage
    ensures DirectBlocks(req, keys) == []
  {
    if keys != [] {
      NoDirectBlocks(req, keys[1..]);
    }
  }

  // ---------- whole-source tasks ----------

  function GroupName(req: Request): string -> string {
    (k: string) => if req.hasQueryRank then MlaPairGroup(k) else k
  }

  function NatKeyBytes(req: Request, keys: seq<string>): (n: nat)
    ensures n == SumOf(keys, KeyBytes(req))
  {
    KeyBytesAreNat(req, keys);
    SumOf(keys, KeyBytes(req))
  }

  lemma KeyBytesAreNat(req: Request, keys: seq<string>)
    ensures SumOf(keys, KeyBytes(req)) >= 0
  {
  }

  function AtomicTask(req: Request, keys: seq<string>): Task {
    var sorted := Sort(keys, StringLe);
    Task(NatKeyBytes(req, sorted), sorted)
  }

  function AtomicTasks(req: Request, keys: seq<string>, groups: seq<string>): seq<Task> {
    if groups == [] then []
    else [AtomicTask(req, Members(keys, GroupName(req), groups[0]))] + AtomicTasks(req, keys, groups[1..])
  }

  function Atomic(req: Request, keys: seq<string>): seq<Task> {
    AtomicTasks(req, keys, Labels(keys, GroupName(req)))
  }

  function WholeTasks(req: Request, keys: seq<string>): seq<Task> {
    Sort(Grouped(Atomic(req, keys), req.taskGroupBytes), TaskLe)
  }

  lemma AtomicStep(req: Request, keys: seq<string>, order: seq<string>, i: nat, atomic: seq<Task>)
    requires i < |order|
    ensures atomic + AtomicTasks(req, keys, order[i..])
         == atomic + [AtomicTask(req, Members(keys, GroupName(req), order[i]))] + AtomicTasks(req, keys, order[i + 1..])
  {
    assert order[i..][1..] == order[i + 1..];
  }

  /** The loop over the groups of keys that must stay together. */
  method AtomicGroups(req: Request, keys: seq<string>) returns (atomic: seq<Task>)
    ensures atomic == Atomic(req, keys)
  {
    var order, grouped := Bucket(keys, GroupName(req));
    atomic := [];
    for i := 0 to |order|
      invariant atomic + AtomicTasks(req, keys, order[i..]) == AtomicTasks(req, keys, order)
    {
      assert order[i] in order;
      AtomicStep(req, keys, order, i, atomic);
      atomic := atomic + [AtomicTask(req, grouped[order[i]])];
    }
    assert order[|order|..] == [];
    assert atomic + [] == atomic;
  }

  /** `plan_whole_source_tasks`, without the numbering that the caller discards. */
  method PlanWholeSourceTasks(req: Request, keys: seq<string>) returns (tasks: seq<Task>)
    ensures tasks == WholeTasks(req, keys)
  {
    var atomic := AtomicGroups(req, keys);
    var raw := GroupSmallTasks(atomic, req.taskGroupBytes);
    tasks := Sort(raw, TaskLe);
  }

  function IsKey(key: string): string -> int {
    (k: string) => if k == key then 1 else 0
  }

  lemma {:induction false} KeyCountInKeys(keys: seq<string>, key: string)
    ensures multiset(keys)[key] == SumOf(keys, IsKey(key))
  {
    if keys != [] {
      assert keys == [keys[0]] + keys[1..];
      KeyCountInKeys(keys[1..], key);
    }
  }

  lemma {:induction false} AtomicListsKeys(req: Request, keys: seq<string>, groups: seq<string>, key: string)
    ensures KeyCount(AtomicTasks(req, keys, groups), key) == Total(groups, keys, GroupName(req), IsKey(key))
  {
    if groups != [] {
      AtomicListsKeys(req, keys, groups[1..], key);
      var members := Members(keys, GroupName(req), groups[0]);
      SortPermutes(members, StringLe);
      KeyCountInKeys(members, key);
      assert AtomicTasks(req, keys, groups)[1..] == AtomicTasks(req, keys, groups[1..]);
    }
  }

  lemma {:induction false} AtomicWeighs(req: Request, keys: seq<string>, groups: seq<string>)
    ensures SumOf(AtomicTasks(req, keys, groups), Bytes) == Total(groups, keys, GroupName(req), KeyBytes(req))
  {
    if groups != [] {
      AtomicWeighs(req, keys, groups[1..]);
      var members := Members(keys, GroupName(req), groups[0]);
      SortPermutes(members, StringLe);
      SumOfPermutation(Sort(members, StringLe), members, KeyBytes(req));
      assert AtomicTasks(req, keys, groups)[1..] == AtomicTasks(req, keys, groups[1..]);
    }
  }

  lemma {:induction false} AtomicTasksHaveKeys(req: Request, keys: seq<string>, groups: seq<string>)
    requires forall g :: g in groups ==> g in Labels(keys, GroupName(req))
    ensures AllHaveKeys(AtomicTasks(req, keys, groups))
    ensures forall g :: g in groups ==>
      AtomicTask(req, Members(keys, GroupName(req), g)) in AtomicTasks(req, keys, groups)
  {
    if groups != [] {
      assert groups[0] in groups;
      assert forall g :: g in groups[1..] ==> g in groups;
      AtomicTasksHaveKeys(req, keys, groups[1..]);
      var members := Members(keys, GroupName(req), groups[0]);
      MembersAreNonEmpty(keys, GroupName(req), groups[0]);
      SortPermutes(members, StringLe);
    }
  }

  /** Whole-source planning lists each key as often as it was given, and conserves bytes. */
  lemma WholeTasksConserve(req: Request, keys: seq<string>)
    ensures forall key :: KeyCount(WholeTasks(req, keys), key) == multiset(keys)[key]
    ensures SumOf(WholeTasks(req, keys), Bytes) == SumOf(keys, KeyBytes(req))
  {
    var groups, atomic := Labels(keys, GroupName(req)), Atomic(req, keys);
    var raw := Grouped(atomic, req.taskGroupBytes);
    SortPermutes(raw, TaskLe);
    forall key ensures KeyCount(WholeTasks(req, keys), key) == multiset(keys)[key] {
      KeyCountPermutation(WholeTasks(req, keys), raw, key);
      GroupingConservesKeys(atomic, req.taskGroupBytes, key);
      AtomicListsKeys(req, keys, groups, key);
      BucketsConserve(keys, GroupName(req), IsKey(key));
      KeyCountInKeys(keys, key);
    }
    SumOfPermutation(WholeTasks(req, keys), raw, Bytes);
    AtomicTasksHaveKeys(req, keys, groups);
    GroupingConservesBytes(atomic, req.taskGroupBytes);
    AtomicWeighs(req, keys, groups);
    BucketsConserve(keys, GroupName(req), KeyBytes(req));
  }

  lemma AtomHoldsGroup(req: Request, keys: seq<string>, a: string, b: string) returns (atom: Task)
    requires a in keys && b in keys && GroupName(req)(a) == GroupName(req)(b)
    ensures atom in Atomic(req, keys) && atom.keys != []
    ensures a in multiset(atom.keys) && b in multiset(atom.keys)
  {
    var g := GroupName(req)(a);
    LabelsAreComplete(keys, GroupName(req));
    AtomicTasksHaveKeys(req, keys, Labels(keys, GroupName(req)));
    MembersCarryLabel(keys, GroupName(req), g);
    var members := Members(keys, GroupName(req), g);
    SortMembers(members, StringLe);
    atom := AtomicTask(req, members);
    assert a in atom.keys && b in atom.keys;
  }

  /** Keys of one group end up in one task. */
  lemma GroupStaysTogether(req: Request, keys: seq<string>, a: string, b: string)
    requires a in keys && b in keys && GroupName(req)(a) == GroupName(req)(b)
    ensures exists t :: t in WholeTasks(req, keys) && a in t.keys && b in t.keys
  {
    var atom := AtomHoldsGroup(req, keys, a, b);
    AtomicTasksStayWhole(Atomic(req, keys), req.taskGroupBytes, atom);
    var raw := Grouped(Atomic(req, keys), req.taskGroupBytes);
    var r :| r in raw && multiset(atom.keys) <= multiset(r.keys);
    assert a in multiset(r.keys) && b in multiset(r.keys);
    SortMembers(raw, TaskLe);
    assert r in WholeTasks(req, keys);
  }
}
