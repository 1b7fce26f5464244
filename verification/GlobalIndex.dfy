/** Naming the final shards and building the index
    (tools/convert_torch_dist_to_hf_ray.py, lines 1234-1249). */
module GlobalIndex {
  import opened Wrappers
  import opened Sequences
  import opened Sorting
  import opened Shards

  datatype TaskResult<T> = TaskResult(task: nat, shards: seq<Shard<T>>)

  /** `model-<index>-of-<total>.safetensors`. */
  datatype FinalName = FinalName(index: nat, total: nat)

  datatype PlannedShard<T> = PlannedShard(source: Shard<T>, final: FinalName)

  datatype Index = Index(totalSize: nat, weightMap: map<string, FinalName>)

  datatype FinalizeError = NoShards | DuplicateTensor(name: string)

  function TaskNumber<T>(): TaskResult<T> -> int {
    (r: TaskResult<T>) => r.task
  }

  function ShardsOf<T>(results: seq<TaskResult<T>>): seq<Shard<T>> {
    if results == [] then [] else results[0].shards + ShardsOf(results[1..])
  }

  /** All shards, by task number and then in writing order. */
  function AllShards<T>(results: seq<TaskResult<T>>): seq<Shard<T>> {
    ShardsOf(Sort(results, ByNumber(TaskNumber<T>())))
  }

  /** Every name stored in `shards`, in order. */
  function NamesOf<T>(entries: seq<Entry<T>>): seq<string> {
    if entries == [] then [] else [entries[0].name] + NamesOf(entries[1..])
  }

  ghost predicate Planned<T>(planned: seq<PlannedShard<T>>, shards: seq<Shard<T>>, i: nat) {
    && |planned| == i <= |shards|
    && forall k :: 0 <= k < i ==> planned[k] == PlannedShard(shards[k], FinalName(k, |shards|))
  }

  /** Every name of the first `i` shards is mapped to its shard. */
  ghost predicate MapsPlaces<T>(weightMap: map<string, FinalName>, shards: seq<Shard<T>>, i: nat)
    requires i <= |shards|
  {
    forall k :: 0 <= k < i ==> MapsTo(weightMap, NamesOf(shards[k].tensors), FinalName(k, |shards|))
  }

  /** The map has the names of `shards`, none of which repeats. */
  ghost predicate MapsExactly<T>(weightMap: map<string, FinalName>, shards: seq<Shard<T>>) {
    MapsNames(weightMap, NamesOf(Stored(shards)))
  }

  ghost predicate MapsNames(weightMap: map<string, FinalName>, names: seq<string>) {
    (forall n :: n in weightMap <==> n in names) && Distinct(names)
  }

  ghost predicate MapsTo(weightMap: map<string, FinalName>, names: seq<string>, file: FinalName) {
    forall n :: n in names ==> n in weightMap && weightMap[n] == file
  }

  /** The plan is right about the shards: names are unique, each maps to the one final file that holds
      it, and the files keep their order. */
  ghost predicate Indexes<T>(shards: seq<Shard<T>>, planned: seq<PlannedShard<T>>, index: Index) {
    && Planned(planned, shards, |shards|)
    && MapsExactly(index.weightMap, shards)
    && MapsPlaces(index.weightMap, shards, |shards|)
    && index.totalSize == ShardBytes(shards)
  }

  lemma {:induction false} NamesConcat<T>(a: seq<Entry<T>>, b: seq<Entry<T>>)
    ensures NamesOf(a + b) == NamesOf(a) + NamesOf(b)
  {
    if a == [] {
      assert a + b == b;
    } else {
      assert (a + b)[1..] == a[1..] + b;
      NamesConcat(a[1..], b);
    }
  }

  lemma {:induction false} StoredConcat<T>(a: seq<Shard<T>>, b: seq<Shard<T>>)
    ensures Stored(a + b) == Stored(a) + Stored(b)
    ensures ShardBytes(a + b) == ShardBytes(a) + ShardBytes(b)
  {
    if a == [] {
      assert a + b == b;
    } else {
      assert (a + b)[1..] == a[1..] + b;
      StoredConcat(a[1..], b);
    }
  }

  lemma StoredOneMore<T>(shards: seq<Shard<T>>, i: nat)
    requires i < |shards|
    ensures NamesOf(Stored(shards[..i + 1])) == NamesOf(Stored(shards[..i])) + NamesOf(shards[i].tensors)
    ensures ShardBytes(shards[..i + 1]) == ShardBytes(shards[..i]) + shards[i].bytes
  {
    var last := [shards[i]];
    assert shards[..i + 1] == shards[..i] + last;
    StoredConcat(shards[..i], last);
    assert Stored(last) == shards[i].tensors + Stored(last[1..]);
    assert Stored(last) == shards[i].tensors;
    NamesConcat(Stored(shards[..i]), shards[i].tensors);
  }

  lemma {:induction false} NamesAt<T>(entries: seq<Entry<T>>)
    ensures |NamesOf(entries)| == |entries|
    ensures forall j :: 0 <= j < |entries| ==> NamesOf(entries)[j] == entries[j].name
  {
    if entries != [] {
      NamesAt(entries[1..]);
    }
  }

  lemma NamesOfMember<T>(s: seq<Entry<T>>, e: Entry<T>)
    requires e in s
    ensures e.name in NamesOf(s)
  {
    NamesAt(s);
    var i :| 0 <= i < |s| && s[i] == e;
    assert NamesOf(s)[i] == e.name;
  }

  lemma NamesOneMore<T>(entries: seq<Entry<T>>, j: nat)
    requires j < |entries|
    ensures NamesOf(entries[..j + 1]) == NamesOf(entries[..j]) + [entries[j].name]
  {
    NamesAt(entries[..j + 1]);
    NamesAt(entries[..j]);
  }

  /** The entries of the map so far: the names seen, each at the file it was seen in. */
  ghost predicate MapsPrefix<T>(weightMap: map<string, FinalName>, shards: seq<Shard<T>>, i: nat, j: nat)
    requires i < |shards| && j <= |shards[i].tensors|
  {
    && MapsNames(weightMap, NamesOf(Stored(shards[..i])) + NamesOf(shards[i].tensors[..j]))
    && MapsPlaces(weightMap, shards, i)
    && MapsTo(weightMap, NamesOf(shards[i].tensors[..j]), FinalName(i, |shards|))
  }

  /** The inner loop over the keys of shard `i`. */
  method AddShard<T>(weightMap: map<string, FinalName>, shards: seq<Shard<T>>, i: nat)
    returns (r: Result<map<string, FinalName>, FinalizeError>)
    requires i < |shards|
    requires MapsPrefix(weightMap, shards, i, 0)
    ensures r.Ok? ==> MapsPrefix(r.value, shards, i, |shards[i].tensors|)
    ensures r.Err? ==> r.error.DuplicateTensor?
    ensures r.Err? ==> !Distinct(NamesOf(Stored(shards[..i])) + NamesOf(shards[i].tensors))
  {
    var entries := shards[i].tensors;
    var m := weightMap;
    for j := 0 to |entries|
      invariant MapsPrefix(m, shards, i, j)
    {
      var name := entries[j].name;
      if name in m {
        RepeatIsNotDistinct(NamesOf(Stored(shards[..i])), entries, j);
        return Err(DuplicateTensor(name));
      }
      MapsOneMore(m, shards, i, j);
      m := m[name := FinalName(i, |shards|)];
    }
    return Ok(m);
  }

  lemma MapsOneMore<T>(m: map<string, FinalName>, shards: seq<Shard<T>>, i: nat, j: nat)
    requires i < |shards| && j < |shards[i].tensors| && MapsPrefix(m, shards, i, j)
    requires shards[i].tensors[j].name !in m
    ensures MapsPrefix(m[shards[i].tensors[j].name := FinalName(i, |shards|)], shards, i, j + 1)
  {
    var name := shards[i].tensors[j].name;
    var before, names := NamesOf(Stored(shards[..i])), NamesOf(shards[i].tensors[..j]);
    NamesOneMore(shards[i].tensors, j);
    AppendDistinct(before + names, name);
    assert before + NamesOf(shards[i].tensors[..j + 1]) == before + names + [name];
    FreshStaysOut(m, shards, i, j, name);
  }

  lemma FreshStaysOut<T>(m: map<string, FinalName>, shards: seq<Shard<T>>, i: nat, j: nat, name: string)
    requires i < |shards| && j <= |shards[i].tensors| && MapsPrefix(m, shards, i, j) && name !in m
    ensures forall k :: 0 <= k < i ==> name !in NamesOf(shards[k].tensors)
  {
  }

  lemma AppendDistinct(s: seq<string>, x: string)
    requires Distinct(s) && x !in s
    ensures Distinct(s + [x])
  {
  }

  lemma RepeatIsNotDistinct<T>(before: seq<string>, entries: seq<Entry<T>>, j: nat)
    requires j < |entries|
    requires entries[j].name in before + NamesOf(entries[..j])
    ensures !Distinct(before + NamesOf(entries))
  {
    NamesAt(entries);
    NamesAt(entries[..j]);
    var all, head := before + NamesOf(entries), before + NamesOf(entries[..j]);
    var k :| 0 <= k < |head| && head[k] == entries[j].name;
    assert head[k] == all[k];
    assert all[|before| + j] == entries[j].name;
  }

  /** `plan_global_shards`. */
  method PlanGlobalShards<T>(results: seq<TaskResult<T>>)
    returns (r: Result<(seq<PlannedShard<T>>, Index), FinalizeError>)
    ensures r == Err(NoShards) <==> AllShards(results) == []
    ensures r.Ok? <==> AllShards(results) != [] && Distinct(NamesOf(Stored(AllShards(results))))
    ensures r.Ok? ==> Indexes(AllShards(results), r.value.0, r.value.1)
  {
    var shards := AllShards(results);
    if shards == [] {
      return Err(NoShards);
    }
    r := IndexShards(shards);
  }

  /** The loop over all shards. */
  method IndexShards<T>(shards: seq<Shard<T>>) returns (r: Result<(seq<PlannedShard<T>>, Index), FinalizeError>)
    ensures r.Err? ==> r.error.DuplicateTensor?
    ensures r.Ok? <==> Distinct(NamesOf(Stored(shards)))
    ensures r.Ok? ==> Indexes(shards, r.value.0, r.value.1)
  {
    var weightMap: map<string, FinalName> := map[];
    var planned: seq<PlannedShard<T>> := [];
    var totalSize: nat := 0;
    assert shards[..0] == [];
    for i := 0 to |shards|
      invariant Planned(planned, shards, i)
      invariant totalSize == ShardBytes(shards[..i])
      invariant Mapped(weightMap, shards, i)
    {
      var added := IndexShard(weightMap, shards, i);
      if added.Err? {
        return Err(added.error);
      }
      weightMap := added.value;
      PlannedOneMore(planned, shards, i);
      planned := planned + [PlannedShard(shards[i], FinalName(i, |shards|))];
      BytesOneMore(shards, i);
      totalSize := totalSize + shards[i].bytes;
    }
    EndIndexed(shards, planned, Index(totalSize, weightMap));
    return Ok((planned, Index(totalSize, weightMap)));
  }

  /** One shard of the loop: all its names are new and mapped to it, or a name repeats. */
  method IndexShard<T>(weightMap: map<string, FinalName>, shards: seq<Shard<T>>, i: nat)
    returns (r: Result<map<string, FinalName>, FinalizeError>)
    requires i < |shards| && Mapped(weightMap, shards, i)
    ensures r.Ok? ==> Mapped(r.value, shards, i + 1)
    ensures r.Err? ==> r.error.DuplicateTensor? && !Distinct(NamesOf(Stored(shards)))
  {
    EnterShard(weightMap, shards, i);
    r := AddShard(weightMap, shards, i);
    if r.Err? {
      RestNotDistinct(shards, i);
    } else {
      LeaveShard(r.value, shards, i);
    }
  }

  lemma BytesOneMore<T>(shards: seq<Shard<T>>, i: nat)
    requires i < |shards|
    ensures ShardBytes(shards[..i + 1]) == ShardBytes(shards[..i]) + shards[i].bytes
  {
    StoredOneMore(shards, i);
  }

  lemma PlannedOneMore<T>(planned: seq<PlannedShard<T>>, shards: seq<Shard<T>>, i: nat)
    requires i < |shards| && Planned(planned, shards, i)
    ensures Planned(planned + [PlannedShard(shards[i], FinalName(i, |shards|))], shards, i + 1)
  {
  }

  lemma EndIndexed<T>(shards: seq<Shard<T>>, planned: seq<PlannedShard<T>>, index: Index)
    requires Planned(planned, shards, |shards|) && Mapped(index.weightMap, shards, |shards|)
    requires index.totalSize == ShardBytes(shards[..|shards|])
    ensures Indexes(shards, planned, index)
  {
    assert shards[..|shards|] == shards;
  }

  /** `MapsPrefix` between two shards. */
  ghost predicate Mapped<T>(weightMap: map<string, FinalName>, shards: seq<Shard<T>>, i: nat) {
    && i <= |shards|
    && MapsExactly(weightMap, shards[..i])
    && MapsPlaces(weightMap, shards, i)
  }

  lemma EnterShard<T>(weightMap: map<string, FinalName>, shards: seq<Shard<T>>, i: nat)
    requires i < |shards| && Mapped(weightMap, shards, i)
    ensures MapsPrefix(weightMap, shards, i, 0)
  {
    assert NamesOf(shards[i].tensors[..0]) == [];
    var names := NamesOf(Stored(shards[..i]));
    assert names + [] == names;
  }

  lemma LeaveShard<T>(weightMap: map<string, FinalName>, shards: seq<Shard<T>>, i: nat)
    requires i < |shards| && MapsPrefix(weightMap, shards, i, |shards[i].tensors|)
    ensures Mapped(weightMap, shards, i + 1)
  {
    assert shards[i].tensors[..|shards[i].tensors|] == shards[i].tensors;
    StoredOneMore(shards, i);
  }

  lemma RestNotDistinct<T>(shards: seq<Shard<T>>, i: nat)
    requires i < |shards|
    requires !Distinct(NamesOf(Stored(shards[..i])) + NamesOf(shards[i].tensors))
    ensures !Distinct(NamesOf(Stored(shards)))
  {
    StoredOneMore(shards, i);
    NamesSplit(shards, i + 1);
    RepeatPersists(NamesOf(Stored(shards[..i + 1])), NamesOf(Stored(shards[i + 1..])));
  }

  lemma NamesSplit<T>(shards: seq<Shard<T>>, i: nat)
    requires i <= |shards|
    ensures NamesOf(Stored(shards)) == NamesOf(Stored(shards[..i])) + NamesOf(Stored(shards[i..]))
  {
    assert shards == shards[..i] + shards[i..];
    NamesJoin(shards[..i], shards[i..]);
  }

  lemma NamesJoin<T>(a: seq<Shard<T>>, b: seq<Shard<T>>)
    ensures NamesOf(Stored(a + b)) == NamesOf(Stored(a)) + NamesOf(Stored(b))
  {
    StoredConcat(a, b);
    NamesConcat(Stored(a), Stored(b));
  }

  lemma RepeatPersists(a: seq<string>, b: seq<string>)
    requires !Distinct(a)
    ensures !Distinct(a + b)
  {
    var i, j :| 0 <= i < j < |a| && a[i] == a[j];
    assert (a + b)[i] == (a + b)[j];
  }

  /** The order in which task results arrive does not reach the index. */
  lemma CompletionOrderIsIrrelevant<T(!new)>(a: seq<TaskResult<T>>, b: seq<TaskResult<T>>)
    requires multiset(a) == multiset(b)
    requires forall x, y :: x in a && y in a && x.task == y.task ==> x == y
    ensures AllShards(a) == AllShards(b)
  {
    var number := TaskNumber<T>();
    SortedByTask(a);
    SortedByTask(b);
    DistinctTasksStay(a);
    NumberedArrangementIsUnique(Sort(a, ByNumber(number)), Sort(b, ByNumber(number)), number);
  }

  lemma SortedByTask<T(!new)>(a: seq<TaskResult<T>>)
    ensures Ordered(Sort(a, ByNumber(TaskNumber<T>())), ByNumber(TaskNumber<T>()))
    ensures multiset(Sort(a, ByNumber(TaskNumber<T>()))) == multiset(a)
  {
    ByNumberIsPreorder(TaskNumber<T>());
    SortOrders(a, ByNumber(TaskNumber<T>()));
    SortPermutes(a, ByNumber(TaskNumber<T>()));
  }

  lemma DistinctTasksStay<T(!new)>(a: seq<TaskResult<T>>)
    requires forall x, y :: x in a && y in a && x.task == y.task ==> x == y
    ensures var sorted := Sort(a, ByNumber(TaskNumber<T>()));
      forall x, y :: x in sorted && y in sorted && TaskNumber<T>()(x) == TaskNumber<T>()(y) ==> x == y
  {
    var sorted := Sort(a, ByNumber(TaskNumber<T>()));
    SortPermutes(a, ByNumber(TaskNumber<T>()));
    forall x, y | x in sorted && y in sorted && TaskNumber<T>()(x) == TaskNumber<T>()(y) ensures x == y {
      assert TaskNumber<T>()(x) == x.task;
      assert TaskNumber<T>()(y) == y.task;
      assert x in multiset(sorted) && y in multiset(sorted);
    }
  }
}
