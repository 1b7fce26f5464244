/** Next-fit packing of small conversion tasks
    (tools/convert_torch_dist_to_hf_ray.py, lines 732-754). */
module TaskGrouping {
  import opened Sequences
  import opened Sorting

  datatype Task = Task(bytes: nat, keys: seq<string>)

  /** The sort key of line 741 and line 773: larger first, ties by keys. */
  predicate TaskLe(a: Task, b: Task) {
    a.bytes > b.bytes || (a.bytes == b.bytes && TupleLe(a.keys, b.keys))
  }

  lemma TaskLeIsOrder()
    ensures TotalPreorder(TaskLe)
  {
    TupleLeIsOrder();
  }

  function Bytes(t: Task): int { t.bytes }

  /** How often a task lists a key. */
  function Lists(t: Task, key: string): nat {
    multiset(t.keys)[key]
  }

  /** How often a plan lists a key. */
  function KeyCount(tasks: seq<Task>, key: string): nat {
    if tasks == [] then 0 else Lists(tasks[0], key) + KeyCount(tasks[1..], key)
  }

  lemma KeyCountConcat(a: seq<Task>, b: seq<Task>, key: string)
    ensures KeyCount(a + b, key) == KeyCount(a, key) + KeyCount(b, key)
  {
    if a == [] {
      assert a + b == b;
    } else {
      assert (a + b)[1..] == a[1..] + b;
      KeyCountConcat(a[1..], b, key);
    }
  }

  lemma {:induction false} KeyCountPermutation(a: seq<Task>, b: seq<Task>, key: string)
    requires multiset(a) == multiset(b)
    ensures KeyCount(a, key) == KeyCount(b, key)
  {
    KeyCountIsSum(a, key);
    KeyCountIsSum(b, key);
    SumOfPermutation(a, b, (t: Task) => Lists(t, key));
  }

  lemma KeyCountIsSum(a: seq<Task>, key: string)
    ensures KeyCount(a, key) == SumOf(a, (t: Task) => Lists(t, key))
  {
  }

  function Large(tasks: seq<Task>, limit: int): seq<Task> {
    if tasks == [] then []
    else (if tasks[0].bytes >= limit then [tasks[0]] else []) + Large(tasks[1..], limit)
  }

  function Small(tasks: seq<Task>, limit: int): seq<Task> {
    if tasks == [] then []
    else (if tasks[0].bytes < limit then [tasks[0]] else []) + Small(tasks[1..], limit)
  }

  function Closed(bin: Task): Task {
    Task(bin.bytes, Sort(bin.keys, StringLe))
  }

  function Join(a: Task, b: Task): Task {
    Task(a.bytes + b.bytes, a.keys + b.keys)
  }

  /** The bins closed from here on, when `open` is being filled. */
  function Pack(open: Task, items: seq<Task>, limit: int): seq<Task>
    decreases items
  {
    if items == [] then
      if open.keys != [] then [Closed(open)] else []
    else if open.keys != [] && open.bytes + items[0].bytes > limit then
      [Closed(open)] + Pack(items[0], items[1..], limit)
    else
      Pack(Join(open, items[0]), items[1..], limit)
  }

  const EMPTY_BIN := Task(0, [])

  function Bins(atomic: seq<Task>, limit: int): seq<Task> {
    Pack(EMPTY_BIN, Sort(Small(atomic, limit), TaskLe), limit)
  }

  function Grouped(atomic: seq<Task>, limit: int): seq<Task> {
    if limit <= 0 then atomic else Large(atomic, limit) + Bins(atomic, limit)
  }

  /** `group_small_tasks`: the loop with its open bin. */
  method GroupSmallTasks(atomic: seq<Task>, limit: int) returns (r: seq<Task>)
    ensures r == Grouped(atomic, limit)
  {
    if limit <= 0 {
      return atomic;
    }
    var small := Sort(Small(atomic, limit), TaskLe);
    var grouped: seq<Task> := [];
    var currentKeys: seq<string> := [];
    var currentBytes: nat := 0;
    for i := 0 to |small|
      invariant grouped + Pack(Task(currentBytes, currentKeys), small[i..], limit) == Pack(EMPTY_BIN, small, limit)
    {
      var bytes, keys := small[i].bytes, small[i].keys;
      assert small[i..][1..] == small[i + 1..];
      if currentKeys != [] && currentBytes + bytes > limit {
        var bin := Closed(Task(currentBytes, currentKeys));
        assert Pack(Task(currentBytes, currentKeys), small[i..], limit)
            == [bin] + Pack(small[i], small[i + 1..], limit);
        grouped := grouped + [bin];
        currentKeys := [];
        currentBytes := 0;
        assert Task(bytes, [] + keys) == small[i];
      }
      currentKeys := currentKeys + keys;
      currentBytes := currentBytes + bytes;
    }
    if currentKeys != [] {
      grouped := grouped + [Closed(Task(currentBytes, currentKeys))];
    }
    return Large(atomic, limit) + grouped;
  }

  ghost predicate AllHaveKeys(tasks: seq<Task>) {
    forall t :: t in tasks ==> t.keys != []
  }

  /** The bin that is still open when the items run out. */
  function LastOpen(open: Task, items: seq<Task>, limit: int): Task
    decreases items
  {
    if items == [] then open
    else if open.keys != [] && open.bytes + items[0].bytes > limit then LastOpen(items[0], items[1..], limit)
    else LastOpen(Join(open, items[0]), items[1..], limit)
  }

  /** What a bin weighs when it lists no keys and so is not turned into a task. */
  function Unlisted(bin: Task): nat {
    if bin.keys == [] then bin.bytes else 0
  }

  /** The bytes that `group_small_tasks` leaves in its last bin. */
  function Dropped(atomic: seq<Task>, limit: int): nat {
    if limit <= 0 then 0 else Unlisted(LastOpen(EMPTY_BIN, Sort(Small(atomic, limit), TaskLe), limit))
  }

  /** Bytes neither vanish nor multiply while packing, but for those of a last bin without keys. */
  lemma {:induction false} PackAccountsForBytes(open: Task, items: seq<Task>, limit: int)
    ensures SumOf(Pack(open, items, limit), Bytes) + Unlisted(LastOpen(open, items, limit))
            == open.bytes + SumOf(items, Bytes)
    decreases items
  {
    if items == [] {
      assert open.keys != [] ==> Pack(open, items, limit)[1..] == [];
    } else if open.keys != [] && open.bytes + items[0].bytes > limit {
      PackAccountsForBytes(items[0], items[1..], limit);
      assert Pack(open, items, limit)[1..] == Pack(items[0], items[1..], limit);
    } else {
      PackAccountsForBytes(Join(open, items[0]), items[1..], limit);
    }
  }

  /** Of tasks that all list keys none is left in a bin without keys. */
  lemma {:induction false} KeysLeaveNothing(open: Task, items: seq<Task>, limit: int)
    requires AllHaveKeys(items) && Unlisted(open) == 0
    ensures Unlisted(LastOpen(open, items, limit)) == 0
    decreases items
  {
    if items != [] {
      assert items[0] in items;
      assert forall t :: t in items[1..] ==> t in items;
      if open.keys != [] && open.bytes + items[0].bytes > limit {
        KeysLeaveNothing(items[0], items[1..], limit);
      } else {
        KeysLeaveNothing(Join(open, items[0]), items[1..], limit);
      }
    }
  }

  lemma ClosedKeepsKeys(open: Task, key: string)
    ensures Lists(Closed(open), key) == Lists(open, key)
    ensures open.keys != [] ==> Closed(open).keys != []
  {
    SortPermutes(open.keys, StringLe);
  }

  /** Nor do keys. */
  lemma {:induction false} PackConservesKeys(open: Task, items: seq<Task>, limit: int, key: string)
    ensures KeyCount(Pack(open, items, limit), key) == Lists(open, key) + KeyCount(items, key)
    decreases items
  {
    ClosedKeepsKeys(open, key);
    if items == [] {
      assert open.keys != [] ==> Pack(open, items, limit)[1..] == [];
    } else if open.keys != [] && open.bytes + items[0].bytes > limit {
      PackConservesKeys(items[0], items[1..], limit, key);
      assert Pack(open, items, limit)[1..] == Pack(items[0], items[1..], limit);
    } else {
      PackConservesKeys(Join(open, items[0]), items[1..], limit, key);
    }
  }

  /** Every bin fits, because no single item exceeds the limit. */
  lemma {:induction false} PackFits(open: Task, items: seq<Task>, limit: int)
    requires AllHaveKeys(items)
    requires open.bytes <= limit && (open.keys == [] ==> open.bytes == 0)
    requires forall t :: t in items ==> t.bytes <= limit
    ensures forall b :: b in Pack(open, items, limit) ==> b.bytes <= limit && b.keys != []
    decreases items
  {
    SortPermutes(open.keys, StringLe);
    if items != [] {
      assert items[0] in items;
      assert forall t :: t in items[1..] ==> t in items;
      if open.keys != [] && open.bytes + items[0].bytes > limit {
        PackFits(items[0], items[1..], limit);
      } else {
        PackFits(Join(open, items[0]), items[1..], limit);
      }
    }
  }

  ghost predicate DecreasingAfter(open: Task, items: seq<Task>) {
    && (forall i, j :: 0 <= i < j < |items| ==> items[i].bytes >= items[j].bytes)
    && (open.keys != [] ==> forall i :: 0 <= i < |items| ==> open.bytes >= items[i].bytes)
  }

  /** The decreasing order makes every bin but the last more than half full: what did not fit is no
      larger than what was already in the bin. */
  lemma {:induction false} PackHalfFull(open: Task, items: seq<Task>, limit: int)
    requires AllHaveKeys(items) && DecreasingAfter(open, items)
    requires open.keys == [] ==> open.bytes == 0
    ensures forall i :: 0 <= i < |Pack(open, items, limit)| - 1 ==> 2 * Pack(open, items, limit)[i].bytes > limit
    decreases items
  {
    if items != [] {
      assert items[0] in items;
      assert forall t :: t in items[1..] ==> t in items;
      if open.keys != [] && open.bytes + items[0].bytes > limit {
        PackHalfFull(items[0], items[1..], limit);
        var rest := Pack(items[0], items[1..], limit);
        assert Pack(open, items, limit) == [Closed(open)] + rest;
        forall i | 0 <= i < |rest| ensures 2 * ([Closed(open)] + rest)[i].bytes > limit {
          if i > 0 {
            assert ([Closed(open)] + rest)[i] == rest[i - 1];
          }
        }
      } else {
        PackHalfFull(Join(open, items[0]), items[1..], limit);
      }
    }
  }

  lemma {:induction false} SplitConserves(atomic: seq<Task>, limit: int)
    ensures SumOf(Large(atomic, limit), Bytes) + SumOf(Small(atomic, limit), Bytes) == SumOf(atomic, Bytes)
  {
    if atomic != [] {
      var rest := atomic[1..];
      SplitConserves(rest, limit);
      if atomic[0].bytes >= limit {
        assert Large(atomic, limit)[1..] == Large(rest, limit);
        assert Small(atomic, limit) == Small(rest, limit);
      } else {
        assert Small(atomic, limit)[1..] == Small(rest, limit);
        assert Large(atomic, limit) == Large(rest, limit);
      }
    }
  }

  lemma {:induction false} SplitConservesKeys(atomic: seq<Task>, limit: int, key: string)
    ensures KeyCount(Large(atomic, limit), key) + KeyCount(Small(atomic, limit), key) == KeyCount(atomic, key)
  {
    if atomic != [] {
      var rest := atomic[1..];
      SplitConservesKeys(rest, limit, key);
      if atomic[0].bytes >= limit {
        assert Large(atomic, limit)[1..] == Large(rest, limit);
        assert Small(atomic, limit) == Small(rest, limit);
      } else {
        assert Small(atomic, limit)[1..] == Small(rest, limit);
        assert Large(atomic, limit) == Large(rest, limit);
      }
    }
  }

  lemma {:induction false} SplitMembers(atomic: seq<Task>, limit: int)
    ensures forall t :: t in Large(atomic, limit) <==> t in atomic && t.bytes >= limit
    ensures forall t :: t in Small(atomic, limit) <==> t in atomic && t.bytes < limit
  {
    if atomic != [] {
      SplitMembers(atomic[1..], limit);
      assert forall t :: t in atomic <==> t == atomic[0] || t in atomic[1..];
    }
  }

  lemma SortedSmall(atomic: seq<Task>, limit: int) returns (small: seq<Task>)
    ensures small == Sort(Small(atomic, limit), TaskLe)
    ensures multiset(small) == multiset(Small(atomic, limit))
    ensures forall t :: t in small <==> t in atomic && t.bytes < limit
    ensures forall i, j :: 0 <= i < j < |small| ==> small[i].bytes >= small[j].bytes
  {
    var s := Small(atomic, limit);
    small := Sort(s, TaskLe);
    SortPermutes(s, TaskLe);
    TaskLeIsOrder();
    SortOrders(s, TaskLe);
    SplitMembers(atomic, limit);
    forall t ensures t in small <==> t in s {
      assert t in small <==> t in multiset(small);
      assert t in s <==> t in multiset(s);
    }
  }

  /** Where the bytes go, for all tasks and limits: into the result or into a last bin without keys. */
  lemma GroupingAccountsForBytes(atomic: seq<Task>, limit: int)
    ensures SumOf(Grouped(atomic, limit), Bytes) + Dropped(atomic, limit) == SumOf(atomic, Bytes)
    ensures SumOf(Grouped(atomic, limit), Bytes) == SumOf(atomic, Bytes) <==> Dropped(atomic, limit) == 0
  {
    if limit > 0 {
      var small := SortedSmall(atomic, limit);
      PackAccountsForBytes(EMPTY_BIN, small, limit);
      SplitConserves(atomic, limit);
      SumOfPermutation(small, Small(atomic, limit), Bytes);
      SumOfConcat(Large(atomic, limit), Bins(atomic, limit), Bytes);
    }
  }

  /** Grouping conserves the bytes of tasks that list keys, whatever the limit. */
  lemma GroupingConservesBytes(atomic: seq<Task>, limit: int)
    requires AllHaveKeys(atomic)
    ensures SumOf(Grouped(atomic, limit), Bytes) == SumOf(atomic, Bytes)
  {
    GroupingAccountsForBytes(atomic, limit);
    if limit > 0 {
      var small := SortedSmall(atomic, limit);
      KeysLeaveNothing(EMPTY_BIN, small, limit);
    }
  }

  /** Every key is listed as often after grouping as before. */
  lemma GroupingConservesKeys(atomic: seq<Task>, limit: int, key: string)
    ensures KeyCount(Grouped(atomic, limit), key) == KeyCount(atomic, key)
  {
    if limit > 0 {
      var small := SortedSmall(atomic, limit);
      PackConservesKeys(EMPTY_BIN, small, limit, key);
      SplitConservesKeys(atomic, limit, key);
      KeyCountPermutation(small, Small(atomic, limit), key);
      KeyCountConcat(Large(atomic, limit), Bins(atomic, limit), key);
    }
  }

  /** A bin that lists no keys is never closed and not kept at the end, so a task is lost with its bytes
      when no task of its bin lists a key. The planner builds no task without keys. */
  lemma KeylessTaskIsDropped()
    ensures Grouped([Task(60, [])], 100) == []
    ensures SumOf([Task(60, [])], Bytes) == 60
  {
    var t := Task(60, []);
    assert Small([t], 100) == [t];
    assert Sort([t], TaskLe) == [t];
    assert Pack(EMPTY_BIN, [t], 100) == Pack(Task(60, []), [], 100);
    assert Large([t], 100) == [];
  }

  /** Bins respect the limit and, but for the last, are more than half full. */
  lemma BinsAreTight(atomic: seq<Task>, limit: int)
    requires AllHaveKeys(atomic) && limit > 0
    ensures forall b :: b in Bins(atomic, limit) ==> b.bytes <= limit && b.keys != []
    ensures forall i :: 0 <= i < |Bins(atomic, limit)| - 1 ==> 2 * Bins(atomic, limit)[i].bytes > limit
  {
    var small := SortedSmall(atomic, limit);
    PackFits(EMPTY_BIN, small, limit);
    PackHalfFull(EMPTY_BIN, small, limit);
  }

  lemma {:induction false} HalfFullSum(bins: seq<Task>, limit: int)
    requires forall i :: 0 <= i < |bins| - 1 ==> 2 * bins[i].bytes > limit
    ensures SumOf(bins, Bytes) >= 0
    ensures |bins| > 1 ==> 2 * SumOf(bins, Bytes) > limit * (|bins| - 1)
  {
    if |bins| > 1 {
      HalfFullSum(bins[1..], limit);
      assert 2 * bins[0].bytes > limit;
      assert limit * (|bins| - 1) == limit + limit * (|bins| - 2);
    } else if |bins| == 1 {
      assert SumOf(bins[1..], Bytes) == 0;
    }
  }

  /** `bins` is below twice `total` over `limit`, plus one. */
  predicate BelowTwice(bins: nat, total: int, limit: int) {
    bins <= 1 || limit * (bins - 1) < 2 * total
  }

  lemma BinCountBound(atomic: seq<Task>, limit: int)
    requires AllHaveKeys(atomic) && limit > 0
    ensures BelowTwice(|Bins(atomic, limit)|, SumOf(Small(atomic, limit), Bytes), limit)
  {
    var bins := Bins(atomic, limit);
    assert BelowTwice(|bins|, SumOf(bins, Bytes), limit) by {
      BinsAreTight(atomic, limit);
      HalfFullSum(bins, limit);
    }
    var small := SortedSmall(atomic, limit);
    PackAccountsForBytes(EMPTY_BIN, small, limit);
    KeysLeaveNothing(EMPTY_BIN, small, limit);
    SumOfPermutation(small, Small(atomic, limit), Bytes);
  }

  predicate FitsIn(total: int, bins: nat, limit: int) {
    total <= limit * bins
  }

  lemma {:induction false} PackingHolds(packing: seq<seq<Task>>, limit: int)
    requires forall i :: 0 <= i < |packing| ==> SumOf(packing[i], Bytes) <= limit
    ensures FitsIn(SumOf(Flatten(packing), Bytes), |packing|, limit)
  {
    if packing != [] {
      PackingHolds(packing[1..], limit);
      SumOfConcat(packing[0], Flatten(packing[1..]), Bytes);
      OneMore(limit, |packing[1..]|);
    }
  }

  /** Next-fit-decreasing never uses more than twice the bins of any other packing of the same tasks. */
  lemma AtMostTwiceAnyPacking(atomic: seq<Task>, limit: int, packing: seq<seq<Task>>)
    requires AllHaveKeys(atomic) && limit > 0
    requires multiset(Flatten(packing)) == multiset(Small(atomic, limit))
    requires forall i :: 0 <= i < |packing| ==> SumOf(packing[i], Bytes) <= limit
    ensures |Bins(atomic, limit)| <= 2 * |packing|
  {
    if packing == [] {
    } else {
      PackingHoldsAll(atomic, limit, packing);
      BinCountBound(atomic, limit);
      TwiceBound(limit, |Bins(atomic, limit)|, |packing|, SumOf(Small(atomic, limit), Bytes));
    }
  }

  lemma OneMore(k: int, n: nat)
    ensures k * (n + 1) == k + k * n
  {
  }

  lemma PackingHoldsAll(atomic: seq<Task>, limit: int, packing: seq<seq<Task>>)
    requires multiset(Flatten(packing)) == multiset(Small(atomic, limit))
    requires forall i :: 0 <= i < |packing| ==> SumOf(packing[i], Bytes) <= limit
    ensures FitsIn(SumOf(Small(atomic, limit), Bytes), |packing|, limit)
  {
    PackingHolds(packing, limit);
    SumOfPermutation(Flatten(packing), Small(atomic, limit), Bytes);
  }

  lemma TwiceBound(limit: nat, bins: nat, m: nat, total: int)
    requires m > 0 && FitsIn(total, m, limit)
    requires BelowTwice(bins, total, limit)
    ensures bins <= 2 * m
  {
    assert 2 * (limit * m) == limit * (2 * m);
    if bins > 1 {
      Cancel(limit, bins - 1, 2 * m);
    }
  }

  lemma Cancel(k: nat, a: nat, b: nat)
    requires k * a < k * b
    ensures a < b
  {
  }

  /** Keys planned together stay together: each atomic task ends up inside one task of the result. */
  lemma AtomicTasksStayWhole(atomic: seq<Task>, limit: int, t: Task)
    requires t in atomic && t.keys != []
    ensures exists r :: r in Grouped(atomic, limit) && multiset(t.keys) <= multiset(r.keys)
  {
    if limit <= 0 || t.bytes >= limit {
      SplitMembers(atomic, limit);
      assert t in Grouped(atomic, limit);
    } else {
      var small := SortedSmall(atomic, limit);
      PackKeepsWhole(EMPTY_BIN, small, limit, t.keys);
      var b :| b in Bins(atomic, limit) && multiset(t.keys) <= multiset(b.keys);
      assert b in Grouped(atomic, limit);
    }
  }

  lemma {:induction false} PackKeepsWhole(open: Task, items: seq<Task>, limit: int, keys: seq<string>)
    requires keys != []
    requires multiset(keys) <= multiset(open.keys) || exists t :: t in items && t.keys == keys
    ensures exists b :: b in Pack(open, items, limit) && multiset(keys) <= multiset(b.keys)
    decreases items
  {
    SortPermutes(open.keys, StringLe);
    if items == [] {
      assert keys[0] in multiset(keys);
      assert open.keys != [];
      assert Closed(open) in Pack(open, items, limit);
    } else if open.keys != [] && open.bytes + items[0].bytes > limit {
      assert Closed(open) in Pack(open, items, limit);
      if !(multiset(keys) <= multiset(open.keys)) {
        var t :| t in items && t.keys == keys;
        assert t == items[0] || t in items[1..];
        PackKeepsWhole(items[0], items[1..], limit, keys);
        var b :| b in Pack(items[0], items[1..], limit) && multiset(keys) <= multiset(b.keys);
        assert b in Pack(open, items, limit);
      }
    } else {
      var next := Join(open, items[0]);
      if !(multiset(keys) <= multiset(open.keys)) {
        var t :| t in items && t.keys == keys;
        assert t == items[0] || t in items[1..];
      }
      PackKeepsWhole(next, items[1..], limit, keys);
    }
  }
}
