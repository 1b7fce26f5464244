/** Direct conversion of stored mixture-of-experts chunks
    (tools/convert_torch_dist_to_hf_ray.py, lines 480-503 and 578-648).

    A stacked expert weight has shape [experts, ffn, hidden]. A checkpoint stores it as
    rectangular chunks; each chunk is converted on its own, in whichever task holds its file. */
module MoeChunks {
  import opened Wrappers
  import opened Sequences

  datatype Linear = Fc1 | Fc2

  datatype Projection = Gate | Up | Down

  /** What `parse_moe_expert_key` extracts from a source key. */
  datatype ExpertKey = ExpertKey(languagePrefix: bool, layer: nat, linear: Linear)

  datatype HfName = HfName(languagePrefix: bool, layer: nat, expert: int, projection: Projection)

  /** Where a stored chunk starts in the stacked tensor, and its extent. */
  datatype ReadItem = ReadItem(offset: seq<int>, lengths: seq<nat>)

  type Matrix<T> = seq<seq<T>>

  type Stack<T> = seq<Matrix<T>>

  datatype Named<T> = Named(name: HfName, weight: Matrix<T>)

  datatype ConversionError = WrongExpertCount | UnsupportedChunk | CannotSplit

  predicate Supported(parsed: Option<ExpertKey>, item: ReadItem, size: seq<nat>) {
    if parsed.None? || |size| != 3 then false
    else if |item.offset| != 3 || |item.lengths| != 3 then false
    else if item.offset[0] < 0 || item.offset[0] + item.lengths[0] > size[0] then false
    else if item.offset[2] != 0 || item.lengths[2] != size[2] then false
    else if parsed.value.linear == Fc2 then item.offset[1] == 0 && item.lengths[1] == size[1]
    else if size[1] % 2 != 0 then false
    else
      var half := size[1] / 2;
      || (item.offset[1] == 0 && item.lengths[1] == size[1])
      || ((item.offset[1] == 0 || item.offset[1] == half) && item.lengths[1] == half)
  }

  predicate Shaped<T>(t: Stack<T>, size: seq<nat>) {
    && |size| == 3
    && |t| == size[0]
    && forall e :: 0 <= e < |t| ==> MatrixShaped(t[e], size[1], size[2])
  }

  predicate MatrixShaped<T>(m: Matrix<T>, rows: nat, cols: nat) {
    |m| == rows && forall r :: 0 <= r < rows ==> |m[r]| == cols
  }

  predicate InBounds(item: ReadItem, size: seq<nat>) {
    && |size| == |item.offset| == |item.lengths| == 3
    && forall d :: 0 <= d < 3 ==> 0 <= item.offset[d] && item.offset[d] + item.lengths[d] <= size[d]
  }

  /** The data a chunk stores. */
  function Load<T>(t: Stack<T>, item: ReadItem, size: seq<nat>): (chunk: Stack<T>)
    requires Shaped(t, size) && InBounds(item, size)
    ensures |chunk| == item.lengths[0]
    ensures forall i :: 0 <= i < |chunk| ==> chunk[i] == LoadExpert(t, item, size, item.offset[0] + i)
  {
    seq(item.lengths[0], i requires 0 <= i < item.lengths[0] =>
      LoadExpert(t, item, size, item.offset[0] + i))
  }

  function LoadExpert<T>(t: Stack<T>, item: ReadItem, size: seq<nat>, expert: nat): (m: Matrix<T>)
    requires Shaped(t, size) && InBounds(item, size) && expert < |t|
    ensures |m| == item.lengths[1]
  {
    seq(item.lengths[1], j requires 0 <= j < item.lengths[1] =>
      t[expert][item.offset[1] + j][item.offset[2]..item.offset[2] + item.lengths[2]])
  }

  function HfExpertWeightName(key: ExpertKey, expert: int, projection: Projection): HfName {
    HfName(key.languagePrefix, key.layer, expert, projection)
  }

  /** The tensors one expert of a chunk yields. A two-way `chunk` along the rows gives the first
      part the extra row, and gives a single part when there is just one row to split. */
  function ExpertTensors<T>(key: ExpertKey, item: ReadItem, size: seq<nat>, expert: int, m: Matrix<T>)
    : Result<seq<Named<T>>, ConversionError>
    requires |item.offset| == |item.lengths| == |size| == 3
  {
    if key.linear == Fc2 then
      Ok([Named(HfExpertWeightName(key, expert, Down), m)])
    else
      var half := size[1] / 2;
      if item.offset[1] == 0 && item.lengths[1] == size[1] then
        if |m| == 1 then Err(CannotSplit)
        else
          var cut := (|m| + 1) / 2;
          Ok([Named(HfExpertWeightName(key, expert, Gate), m[..cut]),
              Named(HfExpertWeightName(key, expert, Up), m[cut..])])
      else if item.offset[1] == 0 && item.lengths[1] == half then
        Ok([Named(HfExpertWeightName(key, expert, Gate), m)])
      else if item.offset[1] == half && item.lengths[1] == half then
        Ok([Named(HfExpertWeightName(key, expert, Up), m)])
      else
        Err(UnsupportedChunk)
  }

  /** Expert `i` of the chunk fails with `error`, and every expert before it converts. */
  predicate FailsFirst<T>(key: ExpertKey, item: ReadItem, size: seq<nat>, chunk: Stack<T>, i: nat,
                          error: ConversionError)
    requires |item.offset| == |item.lengths| == |size| == 3 && i < |chunk|
  {
    && ExpertTensors(key, item, size, item.offset[0] + i, chunk[i]) == Err(error)
    && forall k :: 0 <= k < i ==> ExpertTensors(key, item, size, item.offset[0] + k, chunk[k]).Ok?
  }

  /** The conversion loop over the experts of one chunk. */
  method ConvertedMoeTensorsFromChunk<T>(key: ExpertKey, item: ReadItem, size: seq<nat>, chunk: Stack<T>)
    returns (r: Result<seq<seq<Named<T>>>, ConversionError>)
    requires |item.offset| == |item.lengths| == |size| == 3
    ensures r.Ok? ==> |chunk| == item.lengths[0] && |r.value| == |chunk|
    ensures r.Ok? ==> forall i :: 0 <= i < |chunk| ==>
      ExpertTensors(key, item, size, item.offset[0] + i, chunk[i]) == Ok(r.value[i])
    ensures r == Err(WrongExpertCount) <==> |chunk| != item.lengths[0]
    ensures r.Err? && r.error != WrongExpertCount ==>
      exists i :: 0 <= i < |chunk| && FailsFirst(key, item, size, chunk, i, r.error)
  {
    if |chunk| != item.lengths[0] {
      return Err(WrongExpertCount);
    }
    var groups: seq<seq<Named<T>>> := [];
    for local := 0 to item.lengths[0]
      invariant |groups| == local
      invariant forall i :: 0 <= i < local ==>
        ExpertTensors(key, item, size, item.offset[0] + i, chunk[i]) == Ok(groups[i])
    {
      var named := ExpertTensors(key, item, size, item.offset[0] + local, chunk[local]);
      if named.Err? {
        assert FailsFirst(key, item, size, chunk, local, named.error);
        return Err(named.error);
      }
      groups := groups + [named.value];
    }
    return Ok(groups);
  }

  /** Everything a supported chunk emits for its first `n` experts, in order. */
  function Emitted<T>(key: ExpertKey, item: ReadItem, size: seq<nat>, chunk: Stack<T>, n: nat): seq<Named<T>>
    requires |item.offset| == |item.lengths| == |size| == 3
    requires n <= |chunk|
  {
    if n == 0 then [] else
      var last := ExpertTensors(key, item, size, item.offset[0] + n - 1, chunk[n - 1]);
      Emitted(key, item, size, chunk, n - 1) + (if last.Ok? then last.value else [])
  }

  lemma EmittedStep<T>(key: ExpertKey, item: ReadItem, size: seq<nat>, chunk: Stack<T>, n: nat)
    requires |item.offset| == |item.lengths| == |size| == 3
    requires n < |chunk| && ExpertTensors(key, item, size, item.offset[0] + n, chunk[n]).Ok?
    ensures Emitted(key, item, size, chunk, n + 1) ==
            Emitted(key, item, size, chunk, n) + ExpertTensors(key, item, size, item.offset[0] + n, chunk[n]).value
  {
  }

  /** A supported chunk always converts, and the loop's groups laid end to end are `Emitted`. */
  lemma {:induction false} GroupsAreEmitted<T>(key: ExpertKey, item: ReadItem, size: seq<nat>, chunk: Stack<T>,
                                               groups: seq<seq<Named<T>>>)
    requires |item.offset| == |item.lengths| == |size| == 3
    requires |groups| <= |chunk|
    requires forall i :: 0 <= i < |groups| ==>
      ExpertTensors(key, item, size, item.offset[0] + i, chunk[i]) == Ok(groups[i])
    ensures Flatten(groups) == Emitted(key, item, size, chunk, |groups|)
  {
    if groups != [] {
      var n := |groups| - 1;
      var front := groups[..n];
      GroupsAreEmitted(key, item, size, chunk, front);
      EmittedStep(key, item, size, chunk, n);
      FlattenOneMore(front, groups[n]);
      assert groups == front + [groups[n]];
    }
  }

  lemma SupportedBounds(key: ExpertKey, item: ReadItem, size: seq<nat>)
    requires Supported(Some(key), item, size)
    ensures InBounds(item, size)
  {
  }

  /** A supported chunk's rows can be split the way its place asks for. */
  lemma SupportedSplits<T>(key: ExpertKey, item: ReadItem, size: seq<nat>, expert: nat, m: Matrix<T>)
    requires Supported(Some(key), item, size) && |m| == item.lengths[1]
    ensures ExpertTensors(key, item, size, expert, m).Ok?
  {
  }

  lemma SupportedConverts<T>(key: ExpertKey, item: ReadItem, size: seq<nat>, t: Stack<T>, i: nat)
    requires Supported(Some(key), item, size) && Shaped(t, size)
    requires i < item.lengths[0]
    ensures InBounds(item, size)
    ensures ExpertTensors(key, item, size, item.offset[0] + i, Load(t, item, size)[i]).Ok?
  {
    SupportedBounds(key, item, size);
    SupportedSplits(key, item, size, item.offset[0] + i, Load(t, item, size)[i]);
  }

  /** What the conversion must produce for a name: whole rows of the expert's own matrix. */
  function Expected<T>(key: ExpertKey, t: Stack<T>, size: seq<nat>, name: HfName): Matrix<T>
    requires Wanted(key, size, name) && Shaped(t, size)
  {
    match name.projection
    case Down => t[name.expert]
    case Gate => t[name.expert][..size[1] / 2]
    case Up => t[name.expert][size[1] / 2..]
  }

  /** The pair names a wanted tensor and carries exactly its rows. */
  ghost predicate AsExpected<T>(key: ExpertKey, t: Stack<T>, size: seq<nat>, p: Named<T>)
    requires Shaped(t, size)
  {
    Wanted(key, size, p.name) && p.weight == Expected(key, t, size, p.name)
  }

  ghost predicate AllExpected<T>(key: ExpertKey, t: Stack<T>, size: seq<nat>, out: seq<Named<T>>)
    requires Shaped(t, size)
  {
    forall p :: p in out ==> AsExpected(key, t, size, p)
  }

  lemma ExpectedConcat<T>(key: ExpertKey, t: Stack<T>, size: seq<nat>, a: seq<Named<T>>, b: seq<Named<T>>)
    requires Shaped(t, size) && AllExpected(key, t, size, a) && AllExpected(key, t, size, b)
    ensures AllExpected(key, t, size, a + b)
  {
  }

  /** The names a stacked tensor of this size stands for. */
  predicate Wanted(key: ExpertKey, size: seq<nat>, name: HfName) {
    && |size| == 3
    && name.languagePrefix == key.languagePrefix && name.layer == key.layer
    && 0 <= name.expert < size[0]
    && (if key.linear == Fc2 then name.projection == Down else name.projection != Down)
  }

  /** The first row of the part of an expert's matrix that a projection names. */
  function Anchor(size: seq<nat>, projection: Projection): nat
    requires |size| == 3
  {
    if projection == Up then size[1] / 2 else 0
  }

  predicate Covers(item: ReadItem, e: int, f: int, h: int)
    requires |item.offset| == |item.lengths| == 3
  {
    && item.offset[0] <= e < item.offset[0] + item.lengths[0]
    && item.offset[1] <= f < item.offset[1] + item.lengths[1]
    && item.offset[2] <= h < item.offset[2] + item.lengths[2]
  }

  /** How many of the chunks store the cell (e, f, h). */
  function Coverage(items: seq<ReadItem>, e: int, f: int, h: int): nat
    requires forall i :: 0 <= i < |items| ==> |items[i].offset| == |items[i].lengths| == 3
  {
    if items == [] then 0 else (if Covers(items[0], e, f, h) then 1 else 0) + Coverage(items[1..], e, f, h)
  }

  ghost predicate AllSupported(key: ExpertKey, items: seq<ReadItem>, size: seq<nat>) {
    forall i :: 0 <= i < |items| ==> Supported(Some(key), items[i], size)
  }

  /** The chunks store every cell of the tensor exactly once. */
  ghost predicate Tiles(items: seq<ReadItem>, size: seq<nat>)
    requires |size| == 3
    requires forall i :: 0 <= i < |items| ==> |items[i].offset| == |items[i].lengths| == 3
  {
    forall e, f, h :: 0 <= e < size[0] && 0 <= f < size[1] && 0 <= h < size[2] ==> Coverage(items, e, f, h) == 1
  }

  /** The concatenated output of the chunks, in the order given. */
  function Merge<T>(key: ExpertKey, items: seq<ReadItem>, size: seq<nat>, t: Stack<T>): seq<Named<T>>
    requires |size| == 3 && Shaped(t, size)
    requires forall i :: 0 <= i < |items| ==> InBounds(items[i], size)
  {
    if items == [] then []
    else
      Emitted(key, items[0], size, Load(t, items[0], size), items[0].lengths[0]) + Merge(key, items[1..], size, t)
  }

  function NameCount<T>(out: seq<Named<T>>, name: HfName): nat {
    if out == [] then 0 else (if out[0].name == name then 1 else 0) + NameCount(out[1..], name)
  }

  lemma NameCountConcat<T>(a: seq<Named<T>>, b: seq<Named<T>>, name: HfName)
    ensures NameCount(a + b, name) == NameCount(a, name) + NameCount(b, name)
  {
    if a == [] {
      assert a + b == b;
    } else {
      assert (a + b)[1..] == a[1..] + b;
      NameCountConcat(a[1..], b, name);
    }
  }

  lemma SupportedInBounds(key: ExpertKey, items: seq<ReadItem>, size: seq<nat>)
    requires AllSupported(key, items, size) && |size| == 3
    ensures forall i :: 0 <= i < |items| ==> InBounds(items[i], size)
  {
  }

  /** An output list in which a name only ever carries one matrix holds that pair as often as the name. */
  lemma {:induction false} PairCountIsNameCount<T>(out: seq<Named<T>>, p: Named<T>)
    requires forall i :: 0 <= i < |out| && out[i].name == p.name ==> out[i].weight == p.weight
    ensures multiset(out)[p] == NameCount(out, p.name)
  {
    if out != [] {
      assert out == [out[0]] + out[1..];
      PairCountIsNameCount(out[1..], p);
      assert out[0].name == p.name ==> out[0] == p;
    }
  }

  /** Of expected pairs only one carries a given name, so the pair occurs as often as the name. */
  lemma ExpectedPairCount<T>(key: ExpertKey, t: Stack<T>, size: seq<nat>, out: seq<Named<T>>, p: Named<T>)
    requires Shaped(t, size) && AllExpected(key, t, size, out) && AsExpected(key, t, size, p)
    ensures multiset(out)[p] == NameCount(out, p.name)
  {
    forall i | 0 <= i < |out| && out[i].name == p.name ensures out[i].weight == p.weight {
      assert AsExpected(key, t, size, out[i]);
    }
    PairCountIsNameCount(out, p);
  }

  lemma UnexpectedIsAbsent<T>(key: ExpertKey, t: Stack<T>, size: seq<nat>, out: seq<Named<T>>, p: Named<T>)
    requires Shaped(t, size) && AllExpected(key, t, size, out) && !AsExpected(key, t, size, p)
    ensures multiset(out)[p] == 0
  {
    assert p !in out;
  }

  lemma ExpectedStep<T>(key: ExpertKey, item: ReadItem, size: seq<nat>, t: Stack<T>, chunk: Stack<T>, n: nat)
    requires |item.offset| == |item.lengths| == |size| == 3 && Shaped(t, size) && n < |chunk|
    requires AllExpected(key, t, size, Emitted(key, item, size, chunk, n))
    requires ExpertExpected(key, item, size, t, chunk, n)
    ensures AllExpected(key, t, size, Emitted(key, item, size, chunk, n + 1))
  {
    EmittedStep(key, item, size, chunk, n);
    ExpectedConcat(key, t, size, Emitted(key, item, size, chunk, n),
                   ExpertTensors(key, item, size, item.offset[0] + n, chunk[n]).value);
  }

  /** Every pair the loop emits for a supported chunk names a wanted tensor and carries exactly its rows. */
  lemma EmittedIsExpected<T>(key: ExpertKey, item: ReadItem, size: seq<nat>, t: Stack<T>, n: nat)
    requires Supported(Some(key), item, size) && Shaped(t, size) && size[1] > 0
    requires n <= item.lengths[0]
    ensures AllExpected(key, t, size, Emitted(key, item, size, Load(t, item, size), n))
  {
    SupportedBounds(key, item, size);
    forall i | 0 <= i < n ensures ExpertExpected(key, item, size, t, Load(t, item, size), i) {
      ExpertTensorsExpected(key, item, size, t, i);
    }
    ExpertsAreExpected(key, item, size, t, Load(t, item, size), n);
  }

  /** What the loop emits for expert `i` of a chunk is expected. */
  ghost predicate ExpertExpected<T>(key: ExpertKey, item: ReadItem, size: seq<nat>, t: Stack<T>, chunk: Stack<T>,
                                    i: nat)
    requires |item.offset| == |item.lengths| == |size| == 3 && Shaped(t, size) && i < |chunk|
  {
    var r := ExpertTensors(key, item, size, item.offset[0] + i, chunk[i]);
    r.Ok? && AllExpected(key, t, size, r.value)
  }

  lemma {:induction false} ExpertsAreExpected<T>(key: ExpertKey, item: ReadItem, size: seq<nat>, t: Stack<T>,
                                                 chunk: Stack<T>, n: nat)
    requires |item.offset| == |item.lengths| == |size| == 3 && Shaped(t, size) && n <= |chunk|
    requires forall i :: 0 <= i < n ==> ExpertExpected(key, item, size, t, chunk, i)
    ensures AllExpected(key, t, size, Emitted(key, item, size, chunk, n))
  {
    if n > 0 {
      ExpertsAreExpected(key, item, size, t, chunk, n - 1);
      ExpectedStep(key, item, size, t, chunk, n - 1);
    }
  }

  /** Full rows are stored, so an expert's part of a chunk is a range of the expert's own rows. */
  lemma LoadedRows<T>(key: ExpertKey, item: ReadItem, size: seq<nat>, t: Stack<T>, e: nat)
    requires Supported(Some(key), item, size) && Shaped(t, size)
    requires item.offset[0] <= e < item.offset[0] + item.lengths[0]
    ensures InBounds(item, size)
    ensures LoadExpert(t, item, size, e) == t[e][item.offset[1]..item.offset[1] + item.lengths[1]]
  {
    SupportedBounds(key, item, size);
    var m := LoadExpert(t, item, size, e);
    forall j | 0 <= j < item.lengths[1] ensures m[j] == t[e][item.offset[1] + j] {
      assert t[e][item.offset[1] + j][0..size[2]] == t[e][item.offset[1] + j];
    }
  }

  lemma HalvesAreExpected<T>(key: ExpertKey, size: seq<nat>, t: Stack<T>, e: nat)
    requires Shaped(t, size) && e < size[0] && size[1] > 0 && size[1] % 2 == 0 && key.linear == Fc1
    ensures AllExpected(key, t, size, [Named(HfExpertWeightName(key, e, Gate), t[e][..(size[1] + 1) / 2]),
                                       Named(HfExpertWeightName(key, e, Up), t[e][(size[1] + 1) / 2..])])
  {
    assert |t[e]| == size[1];
    TwoExpected(key, t, size, Named(HfExpertWeightName(key, e, Gate), t[e][..(size[1] + 1) / 2]),
                Named(HfExpertWeightName(key, e, Up), t[e][(size[1] + 1) / 2..]));
  }

  lemma RowsAreExpected<T>(key: ExpertKey, item: ReadItem, size: seq<nat>, t: Stack<T>, e: nat, m: Matrix<T>)
    requires Supported(Some(key), item, size) && Shaped(t, size) && size[1] > 0
    requires item.offset[0] <= e < item.offset[0] + item.lengths[0]
    requires m == t[e][item.offset[1]..item.offset[1] + item.lengths[1]]
    ensures var r := ExpertTensors(key, item, size, e, m);
            r.Ok? && AllExpected(key, t, size, r.value)
  {
    assert |t[e]| == size[1];
    if key.linear == Fc2 {
      assert m == t[e];
      OneExpected(key, t, size, Named(HfExpertWeightName(key, e, Down), m));
    } else if item.lengths[1] == size[1] {
      assert m == t[e];
      HalvesAreExpected(key, size, t, e);
    } else {
      OneExpected(key, t, size, Named(HfExpertWeightName(key, e, if item.offset[1] == 0 then Gate else Up), m));
    }
  }

  lemma OneExpected<T>(key: ExpertKey, t: Stack<T>, size: seq<nat>, p: Named<T>)
    requires Shaped(t, size) && AsExpected(key, t, size, p)
    ensures AllExpected(key, t, size, [p])
  {
  }

  lemma TwoExpected<T>(key: ExpertKey, t: Stack<T>, size: seq<nat>, p: Named<T>, q: Named<T>)
    requires Shaped(t, size) && AsExpected(key, t, size, p) && AsExpected(key, t, size, q)
    ensures AllExpected(key, t, size, [p, q])
  {
  }

  lemma ExpertTensorsExpected<T>(key: ExpertKey, item: ReadItem, size: seq<nat>, t: Stack<T>, i: nat)
    requires Supported(Some(key), item, size) && Shaped(t, size) && size[1] > 0
    requires i < item.lengths[0]
    ensures InBounds(item, size)
    ensures var r := ExpertTensors(key, item, size, item.offset[0] + i, Load(t, item, size)[i]);
            r.Ok? && AllExpected(key, t, size, r.value)
  {
    var e := item.offset[0] + i;
    LoadedRows(key, item, size, t, e);
    RowsAreExpected(key, item, size, t, e, LoadExpert(t, item, size, e));
  }

  lemma CountStep<T>(key: ExpertKey, item: ReadItem, size: seq<nat>, chunk: Stack<T>, n: nat, name: HfName)
    requires |item.offset| == |item.lengths| == |size| == 3 && n < |chunk|
    requires ExpertTensors(key, item, size, item.offset[0] + n, chunk[n]).Ok?
    ensures NameCount(Emitted(key, item, size, chunk, n + 1), name) ==
            NameCount(Emitted(key, item, size, chunk, n), name)
            + NameCount(ExpertTensors(key, item, size, item.offset[0] + n, chunk[n]).value, name)
  {
    EmittedStep(key, item, size, chunk, n);
    NameCountConcat(Emitted(key, item, size, chunk, n),
                    ExpertTensors(key, item, size, item.offset[0] + n, chunk[n]).value, name);
  }

  /** A chunk emits a wanted name once if it stores the name's first row, and not at all otherwise. */
  lemma EmittedCount<T>(key: ExpertKey, item: ReadItem, size: seq<nat>, t: Stack<T>, n: nat, name: HfName)
    requires Supported(Some(key), item, size) && Shaped(t, size) && size[1] > 0 && size[2] > 0
    requires n <= item.lengths[0]
    requires Wanted(key, size, name)
    ensures NameCount(Emitted(key, item, size, Load(t, item, size), n), name) ==
            if name.expert < item.offset[0] + n && Covers(item, name.expert, Anchor(size, name.projection), 0)
            then 1 else 0
  {
    SupportedBounds(key, item, size);
    var covered := Covers(item, name.expert, Anchor(size, name.projection), 0);
    forall i | 0 <= i < n ensures CountedOnce(key, item, size, Load(t, item, size), i, name, covered) {
      LastExpertCount(key, item, size, t, i, name);
    }
    ExpertsCount(key, item, size, Load(t, item, size), n, name, covered);
  }

  /** Expert `i` of a chunk emits the name once if it is the name's expert and the name's part is `stored`. */
  ghost predicate CountedOnce<T>(key: ExpertKey, item: ReadItem, size: seq<nat>, chunk: Stack<T>, i: nat, name: HfName,
                                 stored: bool)
    requires |item.offset| == |item.lengths| == |size| == 3 && i < |chunk|
  {
    var r := ExpertTensors(key, item, size, item.offset[0] + i, chunk[i]);
    r.Ok? && NameCount(r.value, name) == if name.expert == item.offset[0] + i && stored then 1 else 0
  }

  lemma {:induction false} ExpertsCount<T>(key: ExpertKey, item: ReadItem, size: seq<nat>, chunk: Stack<T>, n: nat,
                                           name: HfName, stored: bool)
    requires |item.offset| == |item.lengths| == |size| == 3 && n <= |chunk|
    requires forall i :: 0 <= i < n ==> CountedOnce(key, item, size, chunk, i, name, stored)
    ensures NameCount(Emitted(key, item, size, chunk, n), name) ==
            if item.offset[0] <= name.expert < item.offset[0] + n && stored then 1 else 0
  {
    if n > 0 {
      ExpertsCount(key, item, size, chunk, n - 1, name, stored);
      assert CountedOnce(key, item, size, chunk, n - 1, name, stored);
      CountStep(key, item, size, chunk, n - 1, name);
    }
  }

  lemma LastExpertCount<T>(key: ExpertKey, item: ReadItem, size: seq<nat>, t: Stack<T>, i: nat, name: HfName)
    requires Supported(Some(key), item, size) && Shaped(t, size) && size[1] > 0 && size[2] > 0
    requires i < item.lengths[0]
    requires Wanted(key, size, name)
    ensures InBounds(item, size)
    ensures var r := ExpertTensors(key, item, size, item.offset[0] + i, Load(t, item, size)[i]);
            r.Ok? && NameCount(r.value, name) ==
              if name.expert == item.offset[0] + i && Covers(item, name.expert, Anchor(size, name.projection), 0)
              then 1 else 0
  {
    SupportedConverts(key, item, size, t, i);
    var out := ExpertTensors(key, item, size, item.offset[0] + i, Load(t, item, size)[i]).value;
    if |out| == 2 {
      assert out == [out[0]] + [out[1]];
      NameCountConcat([out[0]], [out[1]], name);
    }
    forall k | 0 <= k < |out| ensures NameCount([out[k]], name) == if out[k].name == name then 1 else 0 {
      assert [out[k]][1..] == [];
    }
    assert |out| == 1 ==> out == [out[0]];
  }

  /** Merged outputs carry each wanted name as often as its first row is stored. */
  lemma {:induction false} MergeCount<T>(key: ExpertKey, items: seq<ReadItem>, size: seq<nat>, t: Stack<T>,
                                         name: HfName)
    requires |size| == 3 && Shaped(t, size) && size[1] > 0 && size[2] > 0
    requires AllSupported(key, items, size)
    requires Wanted(key, size, name)
    ensures forall i :: 0 <= i < |items| ==> InBounds(items[i], size)
    ensures NameCount(Merge(key, items, size, t), name) ==
            Coverage(items, name.expert, Anchor(size, name.projection), 0)
  {
    SupportedInBounds(key, items, size);
    if items != [] {
      MergeCount(key, items[1..], size, t, name);
      var item := items[0];
      var head := Emitted(key, item, size, Load(t, item, size), item.lengths[0]);
      EmittedCount(key, item, size, t, item.lengths[0], name);
      NameCountConcat(head, Merge(key, items[1..], size, t), name);
    }
  }

  lemma {:induction false} MergeIsExpected<T>(key: ExpertKey, items: seq<ReadItem>, size: seq<nat>, t: Stack<T>)
    requires |size| == 3 && Shaped(t, size) && size[1] > 0
    requires AllSupported(key, items, size)
    ensures forall i :: 0 <= i < |items| ==> InBounds(items[i], size)
    ensures AllExpected(key, t, size, Merge(key, items, size, t))
  {
    SupportedInBounds(key, items, size);
    if items != [] {
      MergeIsExpected(key, items[1..], size, t);
      var item := items[0];
      var head := Emitted(key, item, size, Load(t, item, size), item.lengths[0]);
      EmittedIsExpected(key, item, size, t, item.lengths[0]);
      ExpectedConcat(key, t, size, head, Merge(key, items[1..], size, t));
    }
  }

  /** The single chunk that stores the whole tensor. */
  function WholeChunk(size: seq<nat>): ReadItem
    requires |size| == 3
  {
    ReadItem([0, 0, 0], size)
  }

  lemma MergePairCount<T>(key: ExpertKey, items: seq<ReadItem>, size: seq<nat>, t: Stack<T>, p: Named<T>)
    requires |size| == 3 && Shaped(t, size) && size[1] > 0 && size[2] > 0
    requires key.linear == Fc1 ==> size[1] % 2 == 0
    requires AllSupported(key, items, size)
    requires Tiles(items, size)
    ensures forall i :: 0 <= i < |items| ==> InBounds(items[i], size)
    ensures multiset(Merge(key, items, size, t))[p] ==
            if AsExpected(key, t, size, p) then 1 else 0
  {
    MergeIsExpected(key, items, size, t);
    var out := Merge(key, items, size, t);
    if AsExpected(key, t, size, p) {
      MergeCount(key, items, size, t, p.name);
      assert Anchor(size, p.name.projection) < size[1];
      ExpectedPairCount(key, t, size, out, p);
    } else {
      UnexpectedIsAbsent(key, t, size, out, p);
    }
  }

  lemma {:induction false} SameAsWhole<T>(key: ExpertKey, items: seq<ReadItem>, size: seq<nat>, t: Stack<T>)
    requires |size| == 3 && Shaped(t, size) && size[1] > 0 && size[2] > 0
    requires key.linear == Fc1 ==> size[1] % 2 == 0
    requires AllSupported(key, items, size)
    requires Tiles(items, size)
    ensures InBounds(WholeChunk(size), size) && forall i :: 0 <= i < |items| ==> InBounds(items[i], size)
    ensures multiset(Merge(key, items, size, t)) == multiset(Merge(key, [WholeChunk(size)], size, t))
  {
    WholeChunkTiles(key, size);
    SupportedInBounds(key, items, size);
    var whole := [WholeChunk(size)];
    var a, b := multiset(Merge(key, items, size, t)), multiset(Merge(key, whole, size, t));
    forall p: Named<T> ensures a[p] == b[p] {
      MergePairCount(key, items, size, t, p);
      MergePairCount(key, whole, size, t, p);
    }
    SameCounts(a, b);
  }

  /** Conversion does not depend on how the tensor was cut: any supported chunks that store every cell
      once, in any order and over any files, yield together exactly what one whole chunk yields. */
  lemma {:induction false} ConversionIgnoresChunking<T>(key: ExpertKey, items: seq<ReadItem>, size: seq<nat>,
                                                        t: Stack<T>)
    requires |size| == 3 && Shaped(t, size) && size[1] > 0 && size[2] > 0
    requires key.linear == Fc1 ==> size[1] % 2 == 0
    requires AllSupported(key, items, size)
    requires Tiles(items, size)
    ensures Supported(Some(key), WholeChunk(size), size)
    ensures forall i :: 0 <= i < |items| ==> InBounds(items[i], size)
    ensures multiset(Merge(key, items, size, t)) == multiset(Merge(key, [WholeChunk(size)], size, t))
    ensures forall p :: multiset(Merge(key, items, size, t))[p] == if AsExpected(key, t, size, p) then 1 else 0
  {
    SameAsWhole(key, items, size, t);
    WholeChunkTiles(key, size);
    forall p: Named<T>
      ensures multiset(Merge(key, items, size, t))[p] == if AsExpected(key, t, size, p) then 1 else 0
    {
      MergePairCount(key, items, size, t, p);
    }
  }

  lemma WholeChunkTiles(key: ExpertKey, size: seq<nat>)
    requires |size| == 3
    requires key.linear == Fc1 ==> size[1] % 2 == 0
    ensures Supported(Some(key), WholeChunk(size), size)
    ensures Tiles([WholeChunk(size)], size)
  {
    var whole := [WholeChunk(size)];
    forall e, f, h | 0 <= e < size[0] && 0 <= f < size[1] && 0 <= h < size[2]
      ensures Coverage(whole, e, f, h) == 1
    {
      assert Covers(whole[0], e, f, h);
      assert Coverage(whole[1..], e, f, h) == 0;
    }
  }

  /** The projection whose rows include row `f`. */
  function ProjectionOfRow(key: ExpertKey, size: seq<nat>, f: nat): Projection
    requires |size| == 3
  {
    if key.linear == Fc2 then Down else if f < size[1] / 2 then Gate else Up
  }

  /** Supported chunks store whole projections, so one cell of a projection tells for all of them. */
  lemma {:induction false} CoverageOfProjection(key: ExpertKey, items: seq<ReadItem>, size: seq<nat>,
                                                e: nat, f: nat, h: nat)
    requires |size| == 3 && f < size[1] && h < size[2]
    requires AllSupported(key, items, size)
    ensures Coverage(items, e, f, h) == Coverage(items, e, Anchor(size, ProjectionOfRow(key, size, f)), 0)
  {
    if items != [] {
      CoverageOfProjection(key, items[1..], size, e, f, h);
    }
  }

  /** Tiling is not only sufficient: supported chunks reproduce the whole tensor's names and matrices
      exactly when together they store every cell once. */
  lemma {:induction false} ExactIffTiled<T>(key: ExpertKey, items: seq<ReadItem>, size: seq<nat>, t: Stack<T>)
    requires |size| == 3 && Shaped(t, size) && size[1] > 0 && size[2] > 0
    requires key.linear == Fc1 ==> size[1] % 2 == 0
    requires AllSupported(key, items, size)
    ensures Supported(Some(key), WholeChunk(size), size)
    ensures forall i :: 0 <= i < |items| ==> InBounds(items[i], size)
    ensures multiset(Merge(key, items, size, t)) == multiset(Merge(key, [WholeChunk(size)], size, t)) <==>
            Tiles(items, size)
  {
    WholeChunkTiles(key, size);
    SupportedInBounds(key, items, size);
    if Tiles(items, size) {
      ConversionIgnoresChunking(key, items, size, t);
    } else if multiset(Merge(key, items, size, t)) == multiset(Merge(key, [WholeChunk(size)], size, t)) {
      SameOutputTiles(key, items, size, t);
    }
  }

  lemma SameOutputTiles<T>(key: ExpertKey, items: seq<ReadItem>, size: seq<nat>, t: Stack<T>)
    requires |size| == 3 && Shaped(t, size)
    requires key.linear == Fc1 ==> size[1] % 2 == 0
    requires AllSupported(key, items, size)
    requires forall i :: 0 <= i < |items| ==> InBounds(items[i], size)
    requires multiset(Merge(key, items, size, t)) == multiset(Merge(key, [WholeChunk(size)], size, t))
    ensures Tiles(items, size)
  {
    forall e, f, h | 0 <= e < size[0] && 0 <= f < size[1] && 0 <= h < size[2]
      ensures Coverage(items, e, f, h) == 1
    {
      CellStoredOnce(key, items, size, t, e, f, h);
    }
  }

  lemma CellStoredOnce<T>(key: ExpertKey, items: seq<ReadItem>, size: seq<nat>, t: Stack<T>, e: nat, f: nat, h: nat)
    requires |size| == 3 && Shaped(t, size)
    requires key.linear == Fc1 ==> size[1] % 2 == 0
    requires AllSupported(key, items, size)
    requires forall i :: 0 <= i < |items| ==> InBounds(items[i], size)
    requires multiset(Merge(key, items, size, t)) == multiset(Merge(key, [WholeChunk(size)], size, t))
    requires e < size[0] && f < size[1] && h < size[2]
    ensures Coverage(items, e, f, h) == 1
  {
    var name := HfExpertWeightName(key, e, ProjectionOfRow(key, size, f));
    CoverageOfProjection(key, items, size, e, f, h);
    MergeCount(key, items, size, t, name);
    NameMergedOnce(key, items, size, t, name);
  }

  lemma NameMergedOnce<T>(key: ExpertKey, items: seq<ReadItem>, size: seq<nat>, t: Stack<T>, name: HfName)
    requires |size| == 3 && Shaped(t, size) && size[1] > 0 && size[2] > 0
    requires key.linear == Fc1 ==> size[1] % 2 == 0
    requires AllSupported(key, items, size) && Wanted(key, size, name)
    requires forall i :: 0 <= i < |items| ==> InBounds(items[i], size)
    requires multiset(Merge(key, items, size, t)) == multiset(Merge(key, [WholeChunk(size)], size, t))
    ensures NameCount(Merge(key, items, size, t), name) == 1
  {
    var p := Named(name, Expected(key, t, size, name));
    MergeIsExpected(key, items, size, t);
    ExpectedPairCount(key, t, size, Merge(key, items, size, t), p);
    WholeChunkTiles(key, size);
    MergePairCount(key, [WholeChunk(size)], size, t, p);
  }

  /** Coverage, hence tiling, is blind to the order in which chunks are listed. */
  lemma {:induction false} CoveragePermutation(a: seq<ReadItem>, b: seq<ReadItem>, e: int, f: int, h: int)
    requires multiset(a) == multiset(b)
    requires forall i :: 0 <= i < |a| ==> |a[i].offset| == |a[i].lengths| == 3
    ensures forall i :: 0 <= i < |b| ==> |b[i].offset| == |b[i].lengths| == 3
    ensures Coverage(a, e, f, h) == Coverage(b, e, f, h)
  {
    forall i | 0 <= i < |b| ensures |b[i].offset| == |b[i].lengths| == 3 {
      assert b[i] in multiset(b);
      assert b[i] in a;
    }
    CoverageIsSum(a, e, f, h);
    CoverageIsSum(b, e, f, h);
    SumOfPermutation(a, b, (item: ReadItem) => Weight(item, e, f, h));
  }

  function Weight(item: ReadItem, e: int, f: int, h: int): int {
    if |item.offset| == |item.lengths| == 3 && Covers(item, e, f, h) then 1 else 0
  }

  lemma CoverageIsSum(items: seq<ReadItem>, e: int, f: int, h: int)
    requires forall i :: 0 <= i < |items| ==> |items[i].offset| == |items[i].lengths| == 3
    ensures Coverage(items, e, f, h) == SumOf(items, (item: ReadItem) => Weight(item, e, f, h))
  {
  }
}
