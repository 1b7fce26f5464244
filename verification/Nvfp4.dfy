/** The two-pass NVFP4 converter and its deferred gate/up halves
    (tools/convert_hf_to_nvfp4.py, lines 257-466). */
module Nvfp4 {
  import opened Wrappers
  import opened Strings

  datatype Role = Gate | Up

  /** `should_quantize` with its error made explicit: a selected tensor whose last dimension does not
      divide into groups is rejected. */
  datatype Decision = Quantize | Keep | Reject

  datatype Triple<T> = Triple(weight: T, blockScale: T, globalScale: T)

  /** The parts of the converter that are not modelled: selection, the quantization kernels, and the
      modules that a key which is kept adds to the list of those not converted. */
  datatype Kit<!T> = Kit(
    decide: (string, T) -> Decision,
    quantize: T -> Triple<T>,
    quantizePair: (T, T) -> (Triple<T>, Triple<T>),
    onesLike: T -> T,
    modules: string -> seq<string>)

  /** A safetensors file: its keys in order, and their tensors. Files are named by position. */
  datatype File<T> = File(keys: seq<string>, tensors: map<string, T>)

  datatype Loc = Loc(file: nat, key: string)

  datatype Pair = Pair(gate: Loc, up: Loc)

  type Entries<T> = map<string, T>

  datatype ConversionError =
    | Rejected(key: string)
    | DuplicateRole(base: string, role: Role)
    | MissingDeferred(base: string)
    | UnwrittenDeferred

  // ---------- names ----------

  /** `_split_gated_pair_name`. */
  function SplitGatedPairName(name: string): Option<(string, Role)> {
    if EndsWith(name, ".gate_proj.weight") then Some((Stem(name, ".gate_proj.weight"), Gate))
    else if EndsWith(name, ".up_proj.weight") then Some((Stem(name, ".up_proj.weight"), Up))
    else if EndsWith(name, ".w1.weight") then Some((Stem(name, ".w1.weight"), Gate))
    else if EndsWith(name, ".w3.weight") then Some((Stem(name, ".w3.weight"), Up))
    else None
  }

  /** The names written for a quantized key. */
  function QuantizedNames(key: string): set<string> {
    {key, ReplaceAll(key, ".weight", ".weight_scale"), ReplaceAll(key, ".weight", ".weight_scale_2"),
     ReplaceAll(key, ".weight", ".input_scale")}
  }

  /** `_nvfp4_quantized_entries`. */
  function QuantizedEntries<T>(kit: Kit<T>, key: string, t: Triple<T>): (m: Entries<T>)
    ensures m.Keys == QuantizedNames(key)
  {
    map[key := t.weight,
        ReplaceAll(key, ".weight", ".weight_scale") := t.blockScale,
        ReplaceAll(key, ".weight", ".weight_scale_2") := t.globalScale,
        ReplaceAll(key, ".weight", ".input_scale") := kit.onesLike(t.globalScale)]
  }

  // ---------- the checkpoint ----------

  ghost predicate ValidFiles<T>(files: seq<File<T>>) {
    forall f :: 0 <= f < |files| ==> ValidFile(files[f])
  }

  ghost predicate ValidFile<T>(file: File<T>) {
    && (forall k :: k in file.keys <==> k in file.tensors)
    && forall i, j :: 0 <= i < j < |file.keys| ==> file.keys[i] != file.keys[j]
  }

  predicate Exists<T>(files: seq<File<T>>, loc: Loc) {
    loc.file < |files| && loc.key in files[loc.file].tensors
  }

  function TensorAt<T>(files: seq<File<T>>, loc: Loc): T
    requires Exists(files, loc)
  {
    files[loc.file].tensors[loc.key]
  }

  function DecisionAt<T>(kit: Kit<T>, files: seq<File<T>>, loc: Loc): Decision
    requires Exists(files, loc)
  {
    kit.decide(loc.key, TensorAt(files, loc))
  }

  /** The tensor at `loc` is to be quantized and is the given half of a gated pair. */
  predicate Selected<T>(kit: Kit<T>, files: seq<File<T>>, loc: Loc, half: (string, Role)) {
    && Exists(files, loc) && DecisionAt(kit, files, loc) == Quantize
    && SplitGatedPairName(loc.key) == Some(half)
  }

  /** `loc` comes before key number `j` of file `i` in processing order. */
  predicate Visited<T>(files: seq<File<T>>, i: nat, j: nat, loc: Loc)
    requires i < |files| ==> j <= |files[i].keys|
  {
    loc.file < i || (loc.file == i && i < |files| && loc.key in files[i].keys[..j])
  }

  lemma InLongerPrefix(keys: seq<string>, j: nat, key: string)
    requires j < |keys|
    ensures key in keys[..j + 1] <==> key in keys[..j] || key == keys[j]
  {
    assert keys[..j + 1] == keys[..j] + [keys[j]];
  }

  lemma OneMoreVisited<T>(files: seq<File<T>>, i: nat, j: nat)
    requires ValidFiles(files) && i < |files| && j < |files[i].keys|
    ensures forall loc :: Visited(files, i, j + 1, loc) <==>
                          Visited(files, i, j, loc) || loc == Loc(i, files[i].keys[j])
    ensures !Visited(files, i, j, Loc(i, files[i].keys[j]))
  {
    forall loc: Loc
      ensures Visited(files, i, j + 1, loc) <==> Visited(files, i, j, loc) || loc == Loc(i, files[i].keys[j])
    {
      InLongerPrefix(files[i].keys, j, loc.key);
    }
    assert ValidFile(files[i]);
  }

  // ---------- first pass ----------

  /** The halves found so far are exactly the visited ones. */
  ghost predicate FoundVisited<T>(kit: Kit<T>, files: seq<File<T>>, found: map<(string, Role), Loc>, i: nat, j: nat)
    requires i < |files| ==> j <= |files[i].keys|
  {
    && (forall h :: h in found ==> Selected(kit, files, found[h], h) && Visited(files, i, j, found[h]))
    && (forall loc, h :: Selected(kit, files, loc, h) && Visited(files, i, j, loc) ==> h in found && found[h] == loc)
  }

  ghost predicate NothingRejected<T>(kit: Kit<T>, files: seq<File<T>>, i: nat, j: nat)
    requires i < |files| ==> j <= |files[i].keys|
  {
    forall loc :: Exists(files, loc) && Visited(files, i, j, loc) ==> DecisionAt(kit, files, loc) != Reject
  }

  ghost predicate HasReject<T>(kit: Kit<T>, files: seq<File<T>>) {
    exists loc :: Exists(files, loc) && DecisionAt(kit, files, loc) == Reject
  }

  ghost predicate HasDuplicateRole<T>(kit: Kit<T>, files: seq<File<T>>) {
    exists a, b, h :: a != b && Selected(kit, files, a, h) && Selected(kit, files, b, h)
  }

  function CompletePairs(found: map<(string, Role), Loc>): map<string, Pair> {
    var bases := set h | h in found :: h.0;
    map b | b in bases && (b, Gate) in found && (b, Up) in found :: Pair(found[(b, Gate)], found[(b, Up)])
  }

  /** The pair table is what the two passes rely on: exactly the bases with both halves, located. */
  ghost predicate PairsValid<T>(kit: Kit<T>, files: seq<File<T>>, pairs: map<string, Pair>) {
    && (forall b :: b in pairs ==>
          Selected(kit, files, pairs[b].gate, (b, Gate)) && Selected(kit, files, pairs[b].up, (b, Up)))
    && (forall loc, b :: b in pairs && Selected(kit, files, loc, (b, Gate)) ==> loc == pairs[b].gate)
    && (forall loc, b :: b in pairs && Selected(kit, files, loc, (b, Up)) ==> loc == pairs[b].up)
    && (forall g, u, b :: Selected(kit, files, g, (b, Gate)) && Selected(kit, files, u, (b, Up)) ==> b in pairs)
  }

  /** One key of the first pass. */
  method CollectKey<T>(kit: Kit<T>, files: seq<File<T>>, i: nat, j: nat, found: map<(string, Role), Loc>)
    returns (r: Result<map<(string, Role), Loc>, ConversionError>)
    requires ValidFiles(files) && i < |files| && j < |files[i].keys|
    requires FoundVisited(kit, files, found, i, j) && NothingRejected(kit, files, i, j)
    ensures r.Ok? ==> FoundVisited(kit, files, r.value, i, j + 1) && NothingRejected(kit, files, i, j + 1)
    ensures r.Err? ==> HasReject(kit, files) || HasDuplicateRole(kit, files)
    ensures r.Err? ==> r.error.Rejected? || r.error.DuplicateRole?
  {
    var key := files[i].keys[j];
    var loc := Loc(i, key);
    assert key in files[i].keys;
    OneMoreVisited(files, i, j);
    match kit.decide(key, files[i].tensors[key]) {
      case Reject =>
        assert DecisionAt(kit, files, loc) == Reject;
        return Err(Rejected(key));
      case Keep =>
        return Ok(found);
      case Quantize =>
        var split := SplitGatedPairName(key);
        if split.None? {
          return Ok(found);
        }
        var half := split.value;
        assert Selected(kit, files, loc, half);
        assert !Visited(files, i, j, loc);
        if half in found {
          assert found[half] != loc;
          return Err(DuplicateRole(half.0, half.1));
        }
        return Ok(found[half := loc]);
    }
  }

  /** `_collect_gated_pair_locations`. */
  method CollectGatedPairLocations<T>(kit: Kit<T>, files: seq<File<T>>)
    returns (r: Result<map<string, Pair>, ConversionError>)
    requires ValidFiles(files)
    ensures r.Ok? ==> PairsValid(kit, files, r.value)
    ensures r.Ok? <==> !HasReject(kit, files) && !HasDuplicateRole(kit, files)
    ensures r.Err? ==> r.error.Rejected? || r.error.DuplicateRole?
  {
    var found: map<(string, Role), Loc> := map[];
    for i := 0 to |files|
      invariant FoundVisited(kit, files, found, i, 0) && NothingRejected(kit, files, i, 0)
    {
      for j := 0 to |files[i].keys|
        invariant FoundVisited(kit, files, found, i, j) && NothingRejected(kit, files, i, j)
      {
        var step := CollectKey(kit, files, i, j, found);
        if step.Err? {
          return Err(step.error);
        }
        found := step.value;
      }
      WholeFileVisited(files, i);
    }
    FoundPairsValid(kit, files, found);
    return Ok(CompletePairs(found));
  }

  lemma WholeFileVisited<T>(files: seq<File<T>>, i: nat)
    requires ValidFiles(files) && i < |files|
    ensures forall loc :: Exists(files, loc) ==>
      (Visited(files, i, |files[i].keys|, loc) <==> Visited(files, i + 1, 0, loc))
    ensures forall loc :: !Exists(files, loc) && Visited(files, i, |files[i].keys|, loc) ==> loc.file < i
  {
    assert files[i].keys[..|files[i].keys|] == files[i].keys;
  }

  lemma FoundPairsValid<T>(kit: Kit<T>, files: seq<File<T>>, found: map<(string, Role), Loc>)
    requires forall loc :: Exists(files, loc) ==> Visited(files, |files|, 0, loc)
    requires FoundVisited(kit, files, found, |files|, 0) && NothingRejected(kit, files, |files|, 0)
    ensures PairsValid(kit, files, CompletePairs(found))
    ensures !HasReject(kit, files) && !HasDuplicateRole(kit, files)
  {
    var pairs := CompletePairs(found);
    forall g, u, b | Selected(kit, files, g, (b, Gate)) && Selected(kit, files, u, (b, Up)) ensures b in pairs {
      assert (b, Gate) in found && (b, Up) in found;
    }
  }
}
