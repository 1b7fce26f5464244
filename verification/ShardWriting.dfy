// tools/convert_mimo_v2_to_bf16.py: the shard writer of the MiMo converter, an object updated in place.
module ShardWriting {
  import opened Wrappers
  import opened Sequences
  import opened Shards
  import opened GlobalIndex

  const SHARD_BYTES: nat := 5 * 1024 * 1024 * 1024

  // A file is written as soon as it reaches the shard size, and not before.
  predicate Full<T>(file: seq<Entry<T>>) {
    file != [] && Total(file[..|file| - 1]) < SHARD_BYTES <= Total(file)
  }

  ghost predicate AllFull<T>(files: seq<seq<Entry<T>>>) {
    forall i :: 0 <= i < |files| ==> Full(files[i])
  }

  // Exactly the saved names are mapped, each to the file, counted from 1, that holds its tensor.
  ghost predicate NamesMapped<T>(weightMap: map<string, nat>, files: seq<seq<Entry<T>>>) {
    forall n :: n in weightMap <==> n in NamesOf(Flatten(files))
  }

  ghost predicate FilesMapped<T>(weightMap: map<string, nat>, files: seq<seq<Entry<T>>>) {
    forall i, e :: 0 <= i < |files| && e in files[i] ==> e.name in weightMap && weightMap[e.name] == i + 1
  }

  ghost predicate MapsToFiles<T>(weightMap: map<string, nat>, files: seq<seq<Entry<T>>>) {
    NamesMapped(weightMap, files) && FilesMapped(weightMap, files)
  }

  // The map covers the files, and no name occurs twice in files and buffer.
  ghost predicate Indexed<T>(weightMap: map<string, nat>, files: seq<seq<Entry<T>>>, buffer: seq<Entry<T>>) {
    MapsToFiles(weightMap, files) && Distinct(NamesOf(Flatten(files) + buffer))
  }

  // The writer's counters and map agree with what it has buffered and saved.
  ghost predicate Consistent<T>(
    buffer: seq<Entry<T>>, bufferBytes: nat, numShards: nat, totalBytes: nat,
    weightMap: map<string, nat>, files: seq<seq<Entry<T>>>) {
    && bufferBytes == Total(buffer) && numShards == |files| && totalBytes == Total(Flatten(files))
    && Indexed(weightMap, files, buffer)
  }

  // weight_map.update(dict.fromkeys(names, file))
  function Updated(weightMap: map<string, nat>, names: seq<string>, file: nat): (m: map<string, nat>)
    ensures forall n :: n in m <==> n in weightMap || n in names
    ensures forall n :: n in m ==> m[n] == if n in names then file else weightMap[n]
  {
    weightMap + map n | n in names :: file
  }

  class ShardWriter<T> {
    var buffer: seq<Entry<T>>
    var bufferBytes: nat
    var numShards: nat
    var totalBytes: nat
    var weightMap: map<string, nat>
    var files: seq<seq<Entry<T>>>      // what has been saved

    // Everything added so far, in order.
    ghost function Contents(): seq<Entry<T>>
      reads this
    {
      Flatten(files) + buffer
    }

    ghost predicate Valid()
      reads this
    {
      Consistent(buffer, bufferBytes, numShards, totalBytes, weightMap, files)
    }

    // Between additions the buffer is short of a shard and every saved file is full.
    ghost predicate Filling()
      reads this
    {
      Valid() && bufferBytes < SHARD_BYTES && AllFull(files)
    }

    constructor ()
      ensures Filling() && Contents() == [] && files == []
    {
      buffer, bufferBytes, numShards, totalBytes := [], 0, 0, 0;
      weightMap := map[];
      files := [];
    }

    // A repeated name is refused and changes nothing.
    method Add(e: Entry<T>) returns (ok: bool)
      requires Filling()
      modifies this
      ensures Filling()
      ensures ok <==> e.name !in NamesOf(old(Contents()))
      ensures Contents() == if ok then old(Contents()) + [e] else old(Contents())
    {
      Known(weightMap, files, buffer, e.name);
      if e.name in weightMap || e.name in NamesOf(buffer) {
        return false;
      }
      Append(e);
      FlushIfFull();
      ok := true;
    }

    method Append(e: Entry<T>)
      requires Valid() && bufferBytes < SHARD_BYTES && e.name !in NamesOf(Contents())
      modifies this`buffer, this`bufferBytes
      ensures Valid() && (bufferBytes >= SHARD_BYTES ==> Full(buffer))
      ensures Contents() == old(Contents()) + [e]
    {
      Appended(buffer, bufferBytes, numShards, totalBytes, weightMap, files, e);
      buffer := buffer + [e];
      bufferBytes := bufferBytes + e.bytes;
    }

    // The end of an addition.
    method FlushIfFull()
      requires Valid() && AllFull(files) && (bufferBytes >= SHARD_BYTES ==> Full(buffer))
      modifies this
      ensures Filling() && Contents() == old(Contents())
    {
      if bufferBytes >= SHARD_BYTES {
        Flush();
      }
    }

    // Saving the buffer as one more file moves it, in order, and indexes its names.
    method Flush()
      requires Valid()
      modifies this
      ensures Valid() && buffer == [] && Contents() == old(Contents())
      ensures files == if old(buffer) == [] then old(files) else old(files) + [old(buffer)]
    {
      if buffer == [] { return; }
      SavedFile(weightMap, files, buffer);
      numShards := numShards + 1;
      weightMap := Updated(weightMap, NamesOf(buffer), numShards);
      totalBytes := totalBytes + bufferBytes;
      files := files + [buffer];
      buffer, bufferBytes := [], 0;
    }
  }

  lemma SavedFile<T>(weightMap: map<string, nat>, files: seq<seq<Entry<T>>>, last: seq<Entry<T>>)
    requires Indexed(weightMap, files, last)
    ensures Indexed(Updated(weightMap, NamesOf(last), |files| + 1), files + [last], [])
    ensures Flatten(files + [last]) + [] == Flatten(files) + last
    ensures Total(Flatten(files + [last])) == Total(Flatten(files)) + Total(last)
  {
    MapGrows(weightMap, files, last);
    FlattenOneMore(files, last);
    assert Flatten(files + [last]) + [] == Flatten(files) + last;
    TotalConcat(Flatten(files), last);
  }

  lemma Known<T>(weightMap: map<string, nat>, files: seq<seq<Entry<T>>>, buffer: seq<Entry<T>>, name: string)
    requires Indexed(weightMap, files, buffer)
    ensures name in weightMap || name in NamesOf(buffer) <==> name in NamesOf(Flatten(files) + buffer)
  {
    NamesConcat(Flatten(files), buffer);
  }

  lemma Appended<T>(
    buffer: seq<Entry<T>>, bufferBytes: nat, numShards: nat, totalBytes: nat,
    weightMap: map<string, nat>, files: seq<seq<Entry<T>>>, e: Entry<T>)
    requires Consistent(buffer, bufferBytes, numShards, totalBytes, weightMap, files)
    requires bufferBytes < SHARD_BYTES && e.name !in NamesOf(Flatten(files) + buffer)
    ensures Consistent(buffer + [e], bufferBytes + e.bytes, numShards, totalBytes, weightMap, files)
    ensures Flatten(files) + (buffer + [e]) == Flatten(files) + buffer + [e]
    ensures bufferBytes + e.bytes >= SHARD_BYTES ==> Full(buffer + [e])
  {
    AddedStaysDistinct(Flatten(files) + buffer, e);
    assert Flatten(files) + (buffer + [e]) == Flatten(files) + buffer + [e];
    assert (buffer + [e])[..|buffer|] == buffer;
  }

  lemma AddedStaysDistinct<T>(s: seq<Entry<T>>, e: Entry<T>)
    requires Distinct(NamesOf(s)) && e.name !in NamesOf(s)
    ensures Distinct(NamesOf(s + [e]))
  {
    NamesConcat(s, [e]);
    assert NamesOf([e]) == [e.name];
  }

  lemma MapGrows<T>(weightMap: map<string, nat>, files: seq<seq<Entry<T>>>, last: seq<Entry<T>>)
    requires MapsToFiles(weightMap, files) && Distinct(NamesOf(Flatten(files) + last))
    ensures MapsToFiles(Updated(weightMap, NamesOf(last), |files| + 1), files + [last])
  {
    FlattenOneMore(files, last);
    NamesConcat(Flatten(files), last);
    var grown := Updated(weightMap, NamesOf(last), |files| + 1);
    forall i, e: Entry<T> | 0 <= i < |files| && e in files[i] ensures e.name in grown && grown[e.name] == i + 1 {
      DistinctParts(NamesOf(Flatten(files)), NamesOf(last), e.name);
    }
    forall e: Entry<T> | e in last ensures e.name in grown && grown[e.name] == |files| + 1 {
      NamesOfMember(last, e);
    }
    LastMapped(grown, files, last);
  }

  lemma LastMapped<T>(weightMap: map<string, nat>, files: seq<seq<Entry<T>>>, last: seq<Entry<T>>)
    requires FilesMapped(weightMap, files)
    requires forall e: Entry<T> :: e in last ==> e.name in weightMap && weightMap[e.name] == |files| + 1
    ensures FilesMapped(weightMap, files + [last])
  {
  }

  lemma DistinctParts(a: seq<string>, b: seq<string>, x: string)
    requires Distinct(a + b) && x in a
    ensures x !in b
  {
    var i :| 0 <= i < |a| && a[i] == x;
    forall j | 0 <= j < |b| ensures b[j] != x {
      assert (a + b)[i] != (a + b)[|a| + j];
    }
  }

  // A name met again further on.
  lemma RepeatedName<T>(tensors: seq<Entry<T>>, i: nat)
    requires i < |tensors| && tensors[i].name in NamesOf(tensors[..i])
    ensures !Distinct(NamesOf(tensors))
  {
    NamesAt(tensors);
    NamesAt(tensors[..i]);
    var k :| 0 <= k < i && NamesOf(tensors[..i])[k] == tensors[i].name;
    assert NamesOf(tensors)[k] == NamesOf(tensors)[i];
  }

  datatype Output<T> = Output(files: seq<seq<Entry<T>>>, weightMap: map<string, nat>, totalBytes: nat)

  ghost predicate Holds<T>(out: Output<T>, tensors: seq<Entry<T>>) {
    && Flatten(out.files) == tensors && MapsToFiles(out.weightMap, out.files) && out.totalBytes == Total(tensors)
    && (forall i :: 0 <= i < |out.files| - 1 ==> Full(out.files[i]))
    && (out.files != [] ==> out.files[|out.files| - 1] != [])
  }

  // The loop over the tensors; it stops at a repeated name.
  method AddAll<T>(writer: ShardWriter<T>, tensors: seq<Entry<T>>) returns (ok: bool)
    requires writer.Filling() && writer.Contents() == []
    modifies writer
    ensures writer.Filling()
    ensures ok <==> Distinct(NamesOf(tensors))
    ensures ok ==> writer.Contents() == tensors
  {
    for i := 0 to |tensors|
      invariant writer.Filling() && writer.Contents() == tensors[..i]
    {
      assert tensors[..i + 1] == tensors[..i] + [tensors[i]];
      ok := writer.Add(tensors[i]);
      if !ok {
        RepeatedName(tensors, i);
        return;
      }
    }
    assert tensors[..|tensors|] == tensors;
    ok := true;
  }

  // What the converter writes: all tensors in order, cut as soon as a file reaches the shard size, each name mapped
  // to its file; refused exactly when a name repeats.
  method WriteAll<T>(tensors: seq<Entry<T>>) returns (result: Option<Output<T>>)
    ensures result.Some? <==> Distinct(NamesOf(tensors))
    ensures result.Some? ==> Holds(result.value, tensors)
  {
    var writer := new ShardWriter<T>();
    var ok := AddAll(writer, tensors);
    if !ok { return None; }
    ghost var full, rest := writer.files, writer.buffer;
    assert AllFull(full);
    writer.Flush();
    var out := Output(writer.files, writer.weightMap, writer.totalBytes);
    assert Flatten(out.files) == writer.Contents();
    assert out.files == if rest == [] then full else full + [rest];
    result := Some(out);
  }
}
