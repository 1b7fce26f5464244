/** Writing a task's tensors into size-bounded shards
    (tools/convert_torch_dist_to_hf_ray.py, lines 927-960 and 1006-1048). */
module Shards {
  import opened Sequences

  datatype Entry<T> = Entry(name: string, data: T, bytes: nat)

  /** A saved file with the size its manifest reports. */
  datatype Shard<T> = Shard(task: nat, index: nat, tensors: seq<Entry<T>>, bytes: nat)

  /** Assigning into an insertion-ordered dictionary: a known name keeps its place and gets the new value. */
  function Put<T>(d: seq<Entry<T>>, e: Entry<T>): seq<Entry<T>> {
    if d == [] then [e]
    else if d[0].name == e.name then [e] + d[1..]
    else [d[0]] + Put(d[1..], e)
  }

  /** The dictionary built by assigning `s` in order. */
  function Dict<T>(s: seq<Entry<T>>): seq<Entry<T>> {
    if s == [] then [] else Put(Dict(s[..|s| - 1]), s[|s| - 1])
  }

  function Total<T>(s: seq<Entry<T>>): nat {
    if s == [] then 0 else Total(s[..|s| - 1]) + s[|s| - 1].bytes
  }

  /** The greedy cut of a stream, when `open` is being filled. */
  function Cut<T>(open: seq<Entry<T>>, stream: seq<Entry<T>>, limit: int): seq<seq<Entry<T>>>
    decreases stream
  {
    if stream == [] then
      if open == [] then [] else [open]
    else if stream[0].bytes + Total(open) > limit && open != [] then
      [open] + Cut([stream[0]], stream[1..], limit)
    else
      Cut(open + [stream[0]], stream[1..], limit)
  }

  /** The shards that hold the given cut, numbered from `index`. */
  function Files<T>(task: nat, index: nat, cut: seq<seq<Entry<T>>>): seq<Shard<T>>
    decreases cut
  {
    if cut == [] then []
    else [Shard(task, index, Dict(cut[0]), Total(cut[0]))] + Files(task, index + 1, cut[1..])
  }

  /** What `append_to_shards` carries from one group to the next; `open` is the part of the stream
      behind `current`. */
  ghost predicate Carries<T>(open: seq<Entry<T>>, current: seq<Entry<T>>, size: nat) {
    current == Dict(open) && size == Total(open)
  }

  lemma DictEmptyIff<T>(s: seq<Entry<T>>)
    ensures Dict(s) == [] <==> s == []
  {
  }

  lemma ExtendOpen<T>(open: seq<Entry<T>>, e: Entry<T>)
    ensures Dict(open + [e]) == Put(Dict(open), e)
    ensures Total(open + [e]) == Total(open) + e.bytes
  {
    assert (open + [e])[..|open|] == open;
  }

  /** The files of a whole task: those saved, and those the rest of the stream will be cut into. */
  function AllFiles<T>(task: nat, saved: seq<Shard<T>>, index: nat, open: seq<Entry<T>>, rest: seq<Entry<T>>,
                       limit: int): seq<Shard<T>> {
    saved + Files(task, index, Cut(open, rest, limit))
  }

  /** `append_to_shards`. The ghost parameters name the stream behind the open dictionary and the
      stream that later groups will bring. */
  method AppendToShards<T>(task: nat, shardIdx: nat, current: seq<Entry<T>>, size: nat, named: seq<Entry<T>>,
                           limit: int, shards: seq<Shard<T>>, ghost open: seq<Entry<T>>, ghost rest: seq<Entry<T>>)
    returns (shards': seq<Shard<T>>, shardIdx': nat, current': seq<Entry<T>>, size': nat, added: nat,
             ghost open': seq<Entry<T>>)
    requires Carries(open, current, size)
    ensures Carries(open', current', size')
    ensures added == Total(named)
    ensures AllFiles(task, shards', shardIdx', open', rest, limit)
         == AllFiles(task, shards, shardIdx, open, named + rest, limit)
  {
    shards', shardIdx', current', size', added, open' := shards, shardIdx, current, size, 0, open;
    assert named[0..] == named;
    for i := 0 to |named|
      invariant Carries(open', current', size')
      invariant added == Total(named[..i])
      invariant AllFiles(task, shards', shardIdx', open', named[i..] + rest, limit)
             == AllFiles(task, shards, shardIdx, open, named + rest, limit)
    {
      var e := named[i];
      DictEmptyIff(open');
      FilesStep(task, shards', shardIdx', open', e, named[i + 1..] + rest, limit);
      assert named[i..] + rest == [e] + (named[i + 1..] + rest);
      assert named[..i + 1][..i] == named[..i];
      if e.bytes + size' > limit && current' != [] {
        shards' := shards' + [Shard(task, shardIdx', current', size')];
        shardIdx' := shardIdx' + 1;
        current', size', open' := [], 0, [];
      }
      ExtendOpen(open', e);
      current' := Put(current', e);
      size' := size' + e.bytes;
      added := added + e.bytes;
      open' := open' + [e];
    }
    assert named[..|named|] == named && named[|named|..] + rest == rest;
  }

  /** One more entry closes the open shard or joins it. */
  lemma FilesStep<T>(task: nat, shards: seq<Shard<T>>, index: nat, open: seq<Entry<T>>, e: Entry<T>,
                     rest: seq<Entry<T>>, limit: int)
    ensures AllFiles(task, shards, index, open, [e] + rest, limit) ==
            if e.bytes + Total(open) > limit && open != []
            then AllFiles(task, shards + [Shard(task, index, Dict(open), Total(open))], index + 1, [] + [e], rest,
                          limit)
            else AllFiles(task, shards, index, open + [e], rest, limit)
  {
    assert ([e] + rest)[1..] == rest && [] + [e] == [e];
    assert ([open] + Cut([e], rest, limit))[1..] == Cut([e], rest, limit);
  }

  /** `write_prepared_tensor_groups`: the groups are written as one stream. `finish` gives the tensors of a
      group, quantized if the checkpoint asks for it. */
  method WritePreparedTensorGroups<G, T>(task: nat, groups: seq<G>, finish: G -> seq<Entry<T>>, limit: int)
    returns (shards: seq<Shard<T>>, total: nat)
    ensures shards == Files(task, 0, Cut([], Flatten(Map(groups, finish)), limit))
    ensures total == Total(Flatten(Map(groups, finish)))
  {
    var current: seq<Entry<T>> := [];
    var size: nat, shardIdx: nat := 0, 0;
    ghost var open: seq<Entry<T>> := [];
    shards, total := [], 0;
    ghost var finished := Map(groups, finish);
    assert finished[0..] == finished;
    for i := 0 to |groups|
      invariant Carries(open, current, size)
      invariant total == Total(Flatten(finished[..i]))
      invariant AllFiles(task, shards, shardIdx, open, Flatten(finished[i..]), limit)
             == AllFiles(task, [], 0, [], Flatten(finished), limit)
    {
      var added: nat;
      var named := finish(groups[i]);
      assert Flatten(finished[i..]) == named + Flatten(finished[i + 1..]) by {
        assert finished[i..][1..] == finished[i + 1..];
      }
      shards, shardIdx, current, size, added, open :=
        AppendToShards(task, shardIdx, current, size, named, limit, shards, open, Flatten(finished[i + 1..]));
      TotalOneMore(finished, i);
      total := total + added;
    }
    assert finished[|groups|..] == [] && finished[..|groups|] == finished;
    DictEmptyIff(open);
    LastFile(task, shardIdx, open, limit);
    ghost var all := Files(task, 0, Cut([], Flatten(finished), limit));
    assert [] + all == all;
    if current != [] {
      shards := shards + [Shard(task, shardIdx, current, size)];
    }
  }

  lemma LastFile<T>(task: nat, index: nat, open: seq<Entry<T>>, limit: int)
    ensures Files(task, index, Cut(open, Flatten([]), limit)) ==
            if open == [] then [] else [Shard(task, index, Dict(open), Total(open))]
  {
    assert [open][1..] == [];
  }

  lemma TotalOneMore<T>(groups: seq<seq<Entry<T>>>, i: nat)
    requires i < |groups|
    ensures Total(Flatten(groups[..i + 1])) == Total(Flatten(groups[..i])) + Total(groups[i])
  {
    assert groups[..i + 1] == groups[..i] + [groups[i]];
    FlattenOneMore(groups[..i], groups[i]);
    TotalConcat(Flatten(groups[..i]), groups[i]);
  }

  lemma {:induction false} TotalConcat<T>(a: seq<Entry<T>>, b: seq<Entry<T>>)
    ensures Total(a + b) == Total(a) + Total(b)
  {
    if b == [] {
      assert a + b == a;
    } else {
      assert (a + b)[..|a + b| - 1] == a + b[..|b| - 1];
      TotalConcat(a, b[..|b| - 1]);
    }
  }

  // ---------- what the greedy cut is ----------

  /** A cut of the stream into non-empty parts that respects the limit, where no part could have
      taken the entry that opens the next one. */
  ghost predicate GreedyCut<T>(cut: seq<seq<Entry<T>>>, stream: seq<Entry<T>>, limit: int) {
    Flatten(cut) == stream && PartsFit(cut, limit) && PartsFull(cut, limit)
  }

  ghost predicate PartsFit<T>(cut: seq<seq<Entry<T>>>, limit: int) {
    forall i :: 0 <= i < |cut| ==> cut[i] != [] && (|cut[i]| == 1 || Total(cut[i]) <= limit)
  }

  ghost predicate PartsFull<T>(cut: seq<seq<Entry<T>>>, limit: int) {
    forall i :: 0 <= i < |cut| - 1 ==> ClosedAt(cut, i, limit)
  }

  /** The entry that opens the next part did not fit part `i`. */
  predicate ClosedAt<T>(cut: seq<seq<Entry<T>>>, i: nat, limit: int)
    requires i < |cut| - 1
  {
    cut[i + 1] != [] && Total(cut[i]) + cut[i + 1][0].bytes > limit
  }

  ghost predicate Opens<T>(cut: seq<seq<Entry<T>>>, e: Entry<T>) {
    cut != [] && cut[0] != [] && cut[0][0] == e
  }

  lemma {:induction false} CutIsGreedy<T>(open: seq<Entry<T>>, stream: seq<Entry<T>>, limit: int)
    requires |open| <= 1 || Total(open) <= limit
    ensures GreedyCut(Cut(open, stream, limit), open + stream, limit)
    ensures open != [] ==> Opens(Cut(open, stream, limit), open[0])
    decreases stream
  {
    if stream == [] {
      LastPart(open, limit);
      assert open + stream == open;
    } else {
      var e, rest := stream[0], stream[1..];
      assert stream == [e] + rest;
      if e.bytes + Total(open) > limit && open != [] {
        CutIsGreedy([e], rest, limit);
        PrependPart(open, e, rest, Cut([e], rest, limit), limit);
      } else {
        ExtendOpen(open, e);
        CutIsGreedy(open + [e], rest, limit);
        assert open + [e] + rest == open + stream;
      }
    }
  }

  lemma LastPart<T>(open: seq<Entry<T>>, limit: int)
    requires |open| <= 1 || Total(open) <= limit
    ensures GreedyCut(if open == [] then [] else [open], open, limit)
  {
    assert open != [] ==> Flatten([open]) == open + Flatten([]);
  }

  /** Closing a part in front of a greedy cut of the rest, when its first entry did not fit. */
  lemma PrependPart<T>(open: seq<Entry<T>>, e: Entry<T>, rest: seq<Entry<T>>, tail: seq<seq<Entry<T>>>, limit: int)
    requires GreedyCut(tail, [e] + rest, limit) && Opens(tail, e)
    requires open != [] && (|open| == 1 || Total(open) <= limit) && e.bytes + Total(open) > limit
    ensures GreedyCut([open] + tail, open + ([e] + rest), limit)
  {
    var cut := [open] + tail;
    assert Flatten(cut) == open + ([e] + rest) by { assert cut[1..] == tail; }
    PrependedSizes(open, e, tail, limit);
  }

  lemma PrependedSizes<T>(open: seq<Entry<T>>, e: Entry<T>, tail: seq<seq<Entry<T>>>, limit: int)
    requires Opens(tail, e) && e.bytes + Total(open) > limit
    requires open != [] && (|open| == 1 || Total(open) <= limit)
    requires PartsFit(tail, limit) && PartsFull(tail, limit)
    ensures PartsFit([open] + tail, limit) && PartsFull([open] + tail, limit)
  {
    var cut := [open] + tail;
    forall i | 0 <= i < |cut| - 1 ensures ClosedAt(cut, i, limit) {
      if i > 0 {
        assert ClosedAt(tail, i - 1, limit);
      }
    }
  }

  /** The limits and the greedy rule leave no choice: there is one such cut. */
  lemma {:induction false} GreedyCutIsUnique<T>(a: seq<seq<Entry<T>>>, b: seq<seq<Entry<T>>>, stream: seq<Entry<T>>,
                                                limit: int)
    requires GreedyCut(a, stream, limit) && GreedyCut(b, stream, limit)
    ensures a == b
  {
    if stream == [] {
      NonEmptyParts(a, stream, limit);
      NonEmptyParts(b, stream, limit);
    } else {
      FirstPartLongest(a, b, stream, limit);
      FirstPartLongest(b, a, stream, limit);
      assert a[0] == stream[..|a[0]|] && b[0] == stream[..|b[0]|];
      TailIsGreedy(a, stream, limit);
      TailIsGreedy(b, stream, limit);
      GreedyCutIsUnique(a[1..], b[1..], stream[|a[0]|..], limit);
    }
  }

  lemma NonEmptyParts<T>(a: seq<seq<Entry<T>>>, stream: seq<Entry<T>>, limit: int)
    requires GreedyCut(a, stream, limit)
    ensures a == [] <==> stream == []
    ensures a != [] ==> a[0] <= stream
  {
    if a != [] {
      assert a[0] != [];
      assert stream == a[0] + Flatten(a[1..]);
    }
  }

  lemma TailIsGreedy<T>(a: seq<seq<Entry<T>>>, stream: seq<Entry<T>>, limit: int)
    requires GreedyCut(a, stream, limit) && a != []
    ensures |a[0]| <= |stream|
    ensures GreedyCut(a[1..], stream[|a[0]|..], limit)
  {
    assert stream == a[0] + Flatten(a[1..]);
    forall i | 0 <= i < |a[1..]| - 1 ensures ClosedAt(a[1..], i, limit) {
      assert ClosedAt(a, i + 1, limit);
    }
  }

  /** A part that another one follows, taken with the next entry, exceeds the limit. */
  lemma ClosedPartIsFull<T>(a: seq<seq<Entry<T>>>, stream: seq<Entry<T>>, limit: int)
    requires GreedyCut(a, stream, limit) && |a| > 1
    ensures |a[0]| < |stream| && Total(stream[..|a[0]| + 1]) > limit
  {
    var n := |a[0]|;
    assert ClosedAt(a, 0, limit);
    assert a[1..][0] == a[1];
    assert Flatten(a[1..]) == a[1] + Flatten(a[1..][1..]);
    assert stream == a[0] + Flatten(a[1..]);
    assert stream[..n + 1] == a[0] + [a[1][0]];
    ExtendOpen(a[0], a[1][0]);
  }

  lemma FirstPartLongest<T>(a: seq<seq<Entry<T>>>, b: seq<seq<Entry<T>>>, stream: seq<Entry<T>>, limit: int)
    requires GreedyCut(a, stream, limit) && GreedyCut(b, stream, limit) && stream != []
    ensures a != [] && b != [] && |b[0]| <= |a[0]|
  {
    NonEmptyParts(a, stream, limit);
    NonEmptyParts(b, stream, limit);
    if |a| > 1 {
      ClosedPartIsFull(a, stream, limit);
      var n := |a[0]| + 1;
      if n <= |b[0]| {
        assert b[0][..n] == stream[..n];
        PrefixWeighsLess(b[0], n);
      }
    } else {
      assert Flatten(a) == a[0] + Flatten(a[1..]);
    }
  }

  lemma {:induction false} PrefixWeighsLess<T>(s: seq<Entry<T>>, n: nat)
    requires n <= |s|
    ensures Total(s[..n]) <= Total(s)
  {
    assert s == s[..n] + s[n..];
    TotalConcat(s[..n], s[n..]);
  }

  // ---------- what the shards hold ----------

  ghost predicate NamesDistinct<T>(s: seq<Entry<T>>) {
    forall i, j :: 0 <= i < j < |s| ==> s[i].name != s[j].name
  }

  lemma {:induction false} PutFresh<T>(d: seq<Entry<T>>, e: Entry<T>)
    requires forall i :: 0 <= i < |d| ==> d[i].name != e.name
    ensures Put(d, e) == d + [e]
  {
    if d != [] {
      PutFresh(d[1..], e);
      assert d + [e] == [d[0]] + (d[1..] + [e]);
    }
  }

  lemma {:induction false} PutKnown<T>(d: seq<Entry<T>>, e: Entry<T>)
    requires exists i :: 0 <= i < |d| && d[i].name == e.name
    ensures |Put(d, e)| == |d|
  {
    if d[0].name != e.name {
      var i :| 0 <= i < |d| && d[i].name == e.name;
      assert d[1..][i - 1].name == e.name;
      PutKnown(d[1..], e);
    }
  }

  /** A dictionary keeps a sequence of assignments unchanged exactly when no name repeats. */
  lemma NamesDistinctStep<T>(front: seq<Entry<T>>, e: Entry<T>)
    ensures NamesDistinct(front + [e]) <==>
            NamesDistinct(front) && forall i :: 0 <= i < |front| ==> front[i].name != e.name
  {
    var s := front + [e];
    assert forall i :: 0 <= i < |front| ==> s[i] == front[i];
    if NamesDistinct(s) {
      forall i | 0 <= i < |front| ensures front[i].name != e.name {
        assert s[i].name != s[|front|].name;
      }
      forall i, j | 0 <= i < j < |front| ensures front[i].name != front[j].name {
        assert s[i].name != s[j].name;
      }
    }
  }

  lemma {:induction false} DictIsLossless<T>(s: seq<Entry<T>>)
    ensures |Dict(s)| <= |s|
    ensures Dict(s) == s <==> NamesDistinct(s)
    ensures |Dict(s)| == |s| <==> NamesDistinct(s)
  {
    if s != [] {
      var front, e := s[..|s| - 1], s[|s| - 1];
      assert s == front + [e];
      DictIsLossless(front);
      PutLength(Dict(front), e);
      NamesDistinctStep(front, e);
      if NamesDistinct(front) {
        if forall i :: 0 <= i < |front| ==> front[i].name != e.name {
          PutFresh(front, e);
        } else {
          PutKnown(front, e);
        }
      }
    }
  }

  lemma {:induction false} PutLength<T>(d: seq<Entry<T>>, e: Entry<T>)
    ensures |d| <= |Put(d, e)| <= |d| + 1
  {
    if d != [] {
      PutLength(d[1..], e);
    }
  }

  /** The tensors of the shards, end to end. */
  function Stored<T>(shards: seq<Shard<T>>): seq<Entry<T>> {
    if shards == [] then [] else shards[0].tensors + Stored(shards[1..])
  }

  ghost predicate PartsDistinct<T>(cut: seq<seq<Entry<T>>>) {
    forall i :: 0 <= i < |cut| ==> NamesDistinct(cut[i])
  }

  lemma {:induction false} FilesHold<T>(task: nat, index: nat, cut: seq<seq<Entry<T>>>)
    ensures |Stored(Files(task, index, cut))| <= |Flatten(cut)|
    ensures PartsDistinct(cut) ==> Stored(Files(task, index, cut)) == Flatten(cut)
    ensures |Stored(Files(task, index, cut))| == |Flatten(cut)| ==> PartsDistinct(cut)
    decreases cut
  {
    if cut != [] {
      var rest := Files(task, index + 1, cut[1..]);
      assert Files(task, index, cut)[1..] == rest;
      FilesHold(task, index + 1, cut[1..]);
      DictIsLossless(cut[0]);
      if |Stored(Files(task, index, cut))| == |Flatten(cut)| {
        assert NamesDistinct(cut[0]);
        assert PartsDistinct(cut[1..]);
        forall i | 0 <= i < |cut| ensures NamesDistinct(cut[i]) {
          assert i > 0 ==> cut[i] == cut[1..][i - 1];
        }
      }
      if PartsDistinct(cut) {
        assert forall i :: 0 <= i < |cut[1..]| ==> cut[1..][i] == cut[i + 1];
      }
    }
  }

  /** A task's shards are its stream cut in order, and nothing is lost exactly when no part of the cut
      names a tensor twice; a name repeated within a part is silently overwritten. */
  lemma ShardsHoldStream<T>(task: nat, stream: seq<Entry<T>>, limit: int)
    ensures Stored(Files(task, 0, Cut([], stream, limit))) == stream <==> PartsDistinct(Cut([], stream, limit))
    ensures NamesDistinct(stream) ==> Stored(Files(task, 0, Cut([], stream, limit))) == stream
  {
    var cut := Cut([], stream, limit);
    CutIsGreedy([], stream, limit);
    assert [] + stream == stream;
    FilesHold(task, 0, cut);
    if NamesDistinct(stream) {
      PartsOfDistinct(cut);
    }
  }

  lemma {:induction false} PartsOfDistinct<T>(cut: seq<seq<Entry<T>>>)
    requires NamesDistinct(Flatten(cut))
    ensures PartsDistinct(cut)
  {
    if cut != [] {
      var all, head, tail := Flatten(cut), cut[0], Flatten(cut[1..]);
      assert forall i :: 0 <= i < |head| ==> head[i] == all[i];
      assert forall i :: 0 <= i < |tail| ==> tail[i] == all[|head| + i];
      PartsOfDistinct(cut[1..]);
      assert forall i :: 1 <= i < |cut| ==> cut[i] == cut[1..][i - 1];
    }
  }

  lemma {:induction false} FilesAt<T>(task: nat, index: nat, cut: seq<seq<Entry<T>>>)
    ensures |Files(task, index, cut)| == |cut|
    ensures forall i :: 0 <= i < |cut| ==>
      Files(task, index, cut)[i] == Shard(task, index + i, Dict(cut[i]), Total(cut[i]))
    decreases cut
  {
    if cut != [] {
      FilesAt(task, index + 1, cut[1..]);
      var rest := Files(task, index + 1, cut[1..]);
      forall i | 0 <= i < |cut|
        ensures Files(task, index, cut)[i] == Shard(task, index + i, Dict(cut[i]), Total(cut[i]))
      {
        if i > 0 {
          assert Files(task, index, cut)[i] == rest[i - 1];
        }
      }
    }
  }

  /** Each shard fits the byte budget unless it holds a single tensor, and the reported sizes add up. */
  lemma ShardsFit<T>(task: nat, stream: seq<Entry<T>>, limit: int)
    ensures forall i :: 0 <= i < |Files(task, 0, Cut([], stream, limit))| ==>
      var shard := Files(task, 0, Cut([], stream, limit))[i];
      shard.index == i && shard.tensors != [] && (|shard.tensors| == 1 || shard.bytes <= limit)
    ensures ShardBytes(Files(task, 0, Cut([], stream, limit))) == Total(stream)
  {
    var cut := Cut([], stream, limit);
    CutIsGreedy([], stream, limit);
    assert [] + stream == stream;
    FilesAt(task, 0, cut);
    forall i | 0 <= i < |cut|
      ensures Dict(cut[i]) != [] && (|Dict(cut[i])| == 1 || Total(cut[i]) <= limit)
    {
      DictEmptyIff(cut[i]);
      DictIsLossless(cut[i]);
    }
    FilesWeigh(task, 0, cut);
  }

  function ShardBytes<T>(shards: seq<Shard<T>>): nat {
    if shards == [] then 0 else shards[0].bytes + ShardBytes(shards[1..])
  }

  lemma {:induction false} FilesWeigh<T>(task: nat, index: nat, cut: seq<seq<Entry<T>>>)
    ensures ShardBytes(Files(task, index, cut)) == Total(Flatten(cut))
    decreases cut
  {
    if cut != [] {
      FilesWeigh(task, index + 1, cut[1..]);
      TotalConcat(cut[0], Flatten(cut[1..]));
      assert Files(task, index, cut)[1..] == Files(task, index + 1, cut[1..]);
    }
  }

  /** A name emitted twice by one task and cut into one shard is written once: the first value is gone. */
  lemma RepeatedNameIsOverwritten()
    ensures var stream := [Entry("w", 1, 4), Entry("w", 2, 4)];
            Files(0, 0, Cut([], stream, 100)) == [Shard(0, 0, [Entry("w", 2, 4)], 8)]
  {
    var a, b := Entry("w", 1, 4), Entry("w", 2, 4);
    assert [a, b][1..] == [b];
    assert [a] + [b] == [a, b] && [] + [a] == [a];
    ExtendOpen([], a);
    ExtendOpen([a], b);
    assert Cut([], [a, b], 100) == Cut([a], [b], 100);
    assert Cut([a], [b], 100) == Cut([a, b], [], 100);
    assert Dict([a, b]) == [b] && Total([a, b]) == 8;
    assert Files(0, 0, [[a, b]]) == [Shard(0, 0, Dict([a, b]), Total([a, b]))] + Files(0, 1, []);
  }
}
