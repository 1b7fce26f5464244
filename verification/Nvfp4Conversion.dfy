/** The second pass: each file is rewritten in turn, a gated pair is quantized when its first half is
    met, and the half that belongs to another file waits for that file
    (tools/convert_hf_to_nvfp4.py, lines 313-466). */
module Nvfp4Conversion {
  import opened Wrappers
  import opened Nvfp4

  /** What stays fixed during the second pass. */
  datatype Context<!T> = Context(kit: Kit<T>, files: seq<File<T>>, pairs: map<string, Pair>)

  /** The output of the current file, the pairs already quantized, and the halves waiting for their file. */
  datatype State<T> = State(output: Entries<T>, processed: set<string>, deferred: map<nat, map<string, Entries<T>>>)

  predicate PairsExist<T>(c: Context<T>) {
    forall b :: b in c.pairs ==> Exists(c.files, c.pairs[b].gate) && Exists(c.files, c.pairs[b].up)
  }

  /** The half of a complete pair that sits at `loc`, if any. */
  function HalfAt<T>(c: Context<T>, loc: Loc): Option<(string, Role)>
    requires Exists(c.files, loc)
  {
    var split := SplitGatedPairName(loc.key);
    if DecisionAt(c.kit, c.files, loc) == Quantize && split.Some? && split.value.0 in c.pairs then split else None
  }

  function PartnerOf<T>(c: Context<T>, half: (string, Role)): Loc
    requires half.0 in c.pairs
  {
    if half.1 == Gate then c.pairs[half.0].up else c.pairs[half.0].gate
  }

  /** Both halves of a pair, quantized together. */
  function PairOutput<T>(c: Context<T>, base: string): (Triple<T>, Triple<T>)
    requires PairsExist(c) && base in c.pairs
  {
    c.kit.quantizePair(TensorAt(c.files, c.pairs[base].gate), TensorAt(c.files, c.pairs[base].up))
  }

  function HalfEntries<T>(c: Context<T>, base: string, role: Role): Entries<T>
    requires PairsExist(c) && base in c.pairs
  {
    var pair := c.pairs[base];
    if role == Gate then QuantizedEntries(c.kit, pair.gate.key, PairOutput(c, base).0)
    else QuantizedEntries(c.kit, pair.up.key, PairOutput(c, base).1)
  }

  /** The specification: what a source tensor becomes, wherever it and its partner are stored. */
  function SpecEntries<T>(c: Context<T>, loc: Loc): Entries<T>
    requires PairsExist(c) && Exists(c.files, loc)
  {
    if DecisionAt(c.kit, c.files, loc) != Quantize then
      map[loc.key := TensorAt(c.files, loc)]
    else
      match HalfAt(c, loc)
      case None => QuantizedEntries(c.kit, loc.key, c.kit.quantize(TensorAt(c.files, loc)))
      case Some(half) =>
        var out := PairOutput(c, half.0);
        QuantizedEntries(c.kit, loc.key, if half.1 == Gate then out.0 else out.1)
  }

  /** What each tensor of file `i` becomes. */
  function FileSpec<T>(c: Context<T>, i: nat): map<string, Entries<T>>
    requires PairsExist(c) && i < |c.files|
  {
    map k | k in c.files[i].tensors :: SpecEntries(c, Loc(i, k))
  }

  /** No two keys claim the same name. */
  ghost predicate NamesApart<T>(spec: map<string, Entries<T>>) {
    forall a, b, n :: a in spec && b in spec && n in spec[a] && n in spec[b] ==> a == b
  }

  /** `output` is the union of what the `done` keys become. */
  ghost predicate IsUnion<T>(spec: map<string, Entries<T>>, done: set<string>, output: Entries<T>) {
    && done <= spec.Keys
    && (forall k, n :: k in done && n in spec[k] ==> n in output && output[n] == spec[k][n])
    && (forall n :: n in output ==> exists k :: k in done && n in spec[k])
  }

  /** Within a file, no two source tensors write the same name. */
  ghost predicate NoClash<T>(c: Context<T>)
    requires PairsExist(c)
  {
    forall i :: 0 <= i < |c.files| ==> NamesApart(FileSpec(c, i))
  }

  lemma GrowUnion<T>(spec: map<string, Entries<T>>, done: set<string>, output: Entries<T>, novel: set<string>,
                     added: Entries<T>)
    requires NamesApart(spec) && IsUnion(spec, done, output) && IsUnion(spec, novel, added)
    ensures IsUnion(spec, done + novel, output + added)
  {
    forall k, n | k in done + novel && n in spec[k]
      ensures n in output + added && (output + added)[n] == spec[k][n]
    {
      if n in added {
        var k' :| k' in novel && n in spec[k'];
        assert k == k';
      }
    }
    forall n | n in output + added ensures exists k :: k in done + novel && n in spec[k] {
      if n in added {
        var k :| k in novel && n in spec[k];
        assert k in done + novel;
      } else {
        var k :| k in done && n in spec[k];
        assert k in done + novel;
      }
    }
  }

  // ---------- one key ----------

  function IsDeferred<T>(deferred: map<nat, map<string, Entries<T>>>, f: nat, key: string): bool {
    f in deferred && key in deferred[f]
  }

  function Defer<T>(deferred: map<nat, map<string, Entries<T>>>, loc: Loc, e: Entries<T>)
    : map<nat, map<string, Entries<T>>> {
    deferred[loc.file := (if loc.file in deferred then deferred[loc.file] else map[])[loc.key := e]]
  }

  function Undefer<T>(deferred: map<nat, map<string, Entries<T>>>, loc: Loc): map<nat, map<string, Entries<T>>>
    requires IsDeferred(deferred, loc.file, loc.key)
  {
    deferred[loc.file := deferred[loc.file] - {loc.key}]
  }

  /** Writing one half of a pair: now if it belongs to the current file, else later. */
  function Deliver<T>(s: State<T>, i: nat, target: Loc, e: Entries<T>): State<T> {
    if target.file == i then s.(output := s.output + e) else s.(deferred := Defer(s.deferred, target, e))
  }

  /** The loop body of `process_file`. */
  function ProcessKey<T>(c: Context<T>, i: nat, key: string, s: State<T>): Result<State<T>, ConversionError>
    requires PairsExist(c) && Exists(c.files, Loc(i, key))
  {
    var loc := Loc(i, key);
    if key in s.output then Ok(s)
    else if IsDeferred(s.deferred, i, key) then
      Ok(State(s.output + s.deferred[i][key], s.processed, Undefer(s.deferred, loc)))
    else
      match DecisionAt(c.kit, c.files, loc)
      case Reject => Err(Rejected(key))
      case Keep => Ok(s.(output := s.output[key := TensorAt(c.files, loc)]))
      case Quantize =>
        var split := SplitGatedPairName(key);
        if split.Some? && split.value.0 in c.pairs then
          var base := split.value.0;
          if base in s.processed then Err(MissingDeferred(base))
          else
            var s1 := Deliver(s, i, c.pairs[base].gate, HalfEntries(c, base, Gate));
            var s2 := Deliver(s1, i, c.pairs[base].up, HalfEntries(c, base, Up));
            Ok(s2.(processed := s2.processed + {base}))
        else
          Ok(s.(output := s.output + QuantizedEntries(c.kit, key, c.kit.quantize(TensorAt(c.files, loc)))))
  }

  /** What the loop body adds to the modules not to convert. */
  function AddedModules<T>(c: Context<T>, i: nat, key: string, s: State<T>): seq<string>
    requires Exists(c.files, Loc(i, key))
  {
    if key in s.output || IsDeferred(s.deferred, i, key) then []
    else if DecisionAt(c.kit, c.files, Loc(i, key)) == Keep then c.kit.modules(key)
    else []
  }

  /** The modules of the first `n` keys of file `i` that are kept. */
  function KeptModules<T>(c: Context<T>, i: nat, n: nat): seq<string>
    requires i < |c.files| && n <= |c.files[i].keys|
  {
    if n == 0 then []
    else
      var loc := Loc(i, c.files[i].keys[n - 1]);
      KeptModules(c, i, n - 1)
      + if Exists(c.files, loc) && DecisionAt(c.kit, c.files, loc) == Keep then c.kit.modules(loc.key) else []
  }

  /** The modules kept in the first `n` files. */
  function AllKeptModules<T>(c: Context<T>, n: nat): seq<string>
    requires n <= |c.files|
  {
    if n == 0 then [] else AllKeptModules(c, n - 1) + KeptModules(c, n - 1, |c.files[n - 1].keys|)
  }

  // ---------- the invariant ----------

  ghost predicate Ready<T>(c: Context<T>) {
    && ValidFiles(c.files) && PairsExist(c) && PairsValid(c.kit, c.files, c.pairs) && NoClash(c)
    && !HasReject(c.kit, c.files)
  }

  ghost predicate At<T>(c: Context<T>, i: nat, j: nat) {
    i <= |c.files| && (i < |c.files| ==> j <= |c.files[i].keys|)
  }

  /** A pair counts as processed once either half has been visited. */
  ghost predicate ProcessedVisited<T>(c: Context<T>, i: nat, j: nat, processed: set<string>)
    requires At(c, i, j)
  {
    forall b :: b in processed <==> b in c.pairs && PairVisited(c, i, j, b)
  }

  /** The half at `loc` was quantized with its partner in an earlier file and is still to be written. */
  ghost predicate Owed<T>(c: Context<T>, i: nat, j: nat, loc: Loc)
    requires At(c, i, j)
  {
    && Exists(c.files, loc) && Other(c, loc).Some?
    && !Visited(c.files, i, j, loc)
    && var partner := Other(c, loc).value;
       partner.file != loc.file && Visited(c.files, i, j, partner)
  }

  ghost predicate DeferredOwed<T>(c: Context<T>, i: nat, j: nat, deferred: map<nat, map<string, Entries<T>>>)
    requires At(c, i, j) && PairsExist(c)
  {
    && (forall loc: Loc :: IsDeferred(deferred, loc.file, loc.key) <==> Owed(c, i, j, loc))
    && (forall loc: Loc :: Owed(c, i, j, loc) && IsDeferred(deferred, loc.file, loc.key) ==>
          deferred[loc.file][loc.key] == SpecEntries(c, loc))
  }

  /** The current file's tensors whose results are already in its output: the visited ones and the
      partners, in this same file, of visited ones. */
  ghost predicate Done<T>(c: Context<T>, i: nat, j: nat, key: string)
    requires At(c, i, j)
  {
    && Exists(c.files, Loc(i, key))
    && (|| Visited(c.files, i, j, Loc(i, key))
        || (&& Other(c, Loc(i, key)).Some?
            && var partner := Other(c, Loc(i, key)).value;
               partner.file == i && Visited(c.files, i, j, partner)))
  }

  ghost function DoneKeys<T>(c: Context<T>, i: nat, j: nat): set<string>
    requires At(c, i, j) && i < |c.files|
  {
    set k | k in c.files[i].tensors && Done(c, i, j, k)
  }

  ghost predicate OutputDone<T>(c: Context<T>, i: nat, j: nat, output: Entries<T>)
    requires At(c, i, j) && PairsExist(c) && i < |c.files|
  {
    IsUnion(FileSpec(c, i), DoneKeys(c, i, j), output)
  }

  ghost predicate Inv<T>(c: Context<T>, i: nat, j: nat, s: State<T>)
    requires Ready(c) && At(c, i, j) && i < |c.files|
  {
    && ProcessedVisited(c, i, j, s.processed)
    && DeferredOwed(c, i, j, s.deferred)
    && OutputDone(c, i, j, s.output)
  }

  // ---------- facts about halves ----------

  lemma HalvesAreLocated<T>(c: Context<T>, loc: Loc)
    requires Ready(c) && Exists(c.files, loc) && HalfAt(c, loc).Some?
    ensures var half := HalfAt(c, loc).value;
      half.0 in c.pairs && loc == if half.1 == Gate then c.pairs[half.0].gate else c.pairs[half.0].up
  {
    var half := HalfAt(c, loc).value;
    assert Selected(c.kit, c.files, loc, half);
    assert half == (half.0, half.1);
  }

  lemma HalfSpec<T>(c: Context<T>, loc: Loc)
    requires Ready(c) && Exists(c.files, loc) && HalfAt(c, loc).Some?
    ensures SpecEntries(c, loc) == HalfEntries(c, HalfAt(c, loc).value.0, HalfAt(c, loc).value.1)
  {
    HalvesAreLocated(c, loc);
    var half := HalfAt(c, loc).value;
    assert loc.key == if half.1 == Gate then c.pairs[half.0].gate.key else c.pairs[half.0].up.key;
  }

  lemma PairsAreHalves<T>(c: Context<T>, b: string)
    requires Ready(c) && b in c.pairs
    ensures HalfAt(c, c.pairs[b].gate) == Some((b, Gate))
    ensures HalfAt(c, c.pairs[b].up) == Some((b, Up))
    ensures c.pairs[b].gate != c.pairs[b].up
  {
    assert Selected(c.kit, c.files, c.pairs[b].gate, (b, Gate));
    assert Selected(c.kit, c.files, c.pairs[b].up, (b, Up));
  }

  /** The other half, if `loc` holds a half. */
  function Other<T>(c: Context<T>, loc: Loc): Option<Loc>
    requires Exists(c.files, loc)
  {
    match HalfAt(c, loc)
    case None => None
    case Some(half) => Some(PartnerOf(c, half))
  }

  lemma OtherIsMutual<T>(c: Context<T>, loc: Loc)
    requires Ready(c) && Exists(c.files, loc) && Other(c, loc).Some?
    ensures var o := Other(c, loc).value;
      o != loc && Exists(c.files, o) && Other(c, o) == Some(loc) && HalfAt(c, o).value.0 == HalfAt(c, loc).value.0
  {
    var half := HalfAt(c, loc).value;
    HalvesAreLocated(c, loc);
    PairsAreHalves(c, half.0);
    assert HalfAt(c, PartnerOf(c, half)) == Some((half.0, if half.1 == Gate then Up else Gate));
  }

  lemma KeyInSpec<T>(c: Context<T>, loc: Loc)
    requires PairsExist(c) && Exists(c.files, loc)
    ensures loc.key in SpecEntries(c, loc)
  {
  }

  /** A source key of the file is in the output exactly when it is done. */
  lemma OutputKeyIsDone<T>(c: Context<T>, i: nat, j: nat, output: Entries<T>, key: string)
    requires Ready(c) && At(c, i, j) && Exists(c.files, Loc(i, key)) && OutputDone(c, i, j, output)
    ensures key in output <==> Done(c, i, j, key)
  {
    KeyInSpec(c, Loc(i, key));
    var spec := FileSpec(c, i);
    assert NamesApart(spec);
    assert key in spec && key in spec[key];
    assert key in DoneKeys(c, i, j) <==> Done(c, i, j, key);
  }

  // ---------- how visiting one more key moves each part of the invariant ----------

  ghost predicate Next<T>(c: Context<T>, i: nat, j: nat, loc: Loc) {
    && Ready(c) && i < |c.files| && j < |c.files[i].keys| && loc == Loc(i, c.files[i].keys[j])
    && Exists(c.files, loc)
  }

  lemma NextExists<T>(c: Context<T>, i: nat, j: nat)
    requires Ready(c) && i < |c.files| && j < |c.files[i].keys|
    ensures Next(c, i, j, Loc(i, c.files[i].keys[j]))
  {
    assert c.files[i].keys[j] in c.files[i].keys;
  }

  lemma ProcessedMoves<T>(c: Context<T>, i: nat, j: nat, loc: Loc, processed: set<string>, processed': set<string>)
    requires Next(c, i, j, loc) && ProcessedVisited(c, i, j, processed)
    requires processed' == processed + if HalfAt(c, loc).Some? then {HalfAt(c, loc).value.0} else {}
    ensures ProcessedVisited(c, i, j + 1, processed')
  {
    forall b | b in c.pairs
      ensures PairVisited(c, i, j + 1, b) <==>
              PairVisited(c, i, j, b) || (HalfAt(c, loc).Some? && HalfAt(c, loc).value.0 == b)
    {
      PairVisitMoves(c, i, j, loc, b);
    }
    if HalfAt(c, loc).Some? {
      HalvesAreLocated(c, loc);
    }
  }

  ghost predicate PairVisited<T>(c: Context<T>, i: nat, j: nat, b: string)
    requires At(c, i, j) && b in c.pairs
  {
    Visited(c.files, i, j, c.pairs[b].gate) || Visited(c.files, i, j, c.pairs[b].up)
  }

  lemma PairVisitMoves<T>(c: Context<T>, i: nat, j: nat, loc: Loc, b: string)
    requires Next(c, i, j, loc) && b in c.pairs
    ensures PairVisited(c, i, j + 1, b) <==>
            PairVisited(c, i, j, b) || (HalfAt(c, loc).Some? && HalfAt(c, loc).value.0 == b)
  {
    OneMoreVisited(c.files, i, j);
    PairsAreHalves(c, b);
    if HalfAt(c, loc).Some? {
      HalvesAreLocated(c, loc);
    }
  }

  /** The other half of `loc`, if it has one, has `loc` for its other half. */
  ghost predicate Mutual<T>(c: Context<T>, loc: Loc) {
    Exists(c.files, loc) && Other(c, loc).Some? ==>
      var o := Other(c, loc).value; o != loc && Exists(c.files, o) && Other(c, o) == Some(loc)
  }

  lemma HalvesAreMutual<T>(c: Context<T>, loc: Loc)
    requires Ready(c)
    ensures Mutual(c, loc)
  {
    if Exists(c.files, loc) && Other(c, loc).Some? {
      OtherIsMutual(c, loc);
    }
  }

  ghost predicate Visits<T>(c: Context<T>, i: nat, j: nat, loc: Loc) {
    && At(c, i, j) && At(c, i, j + 1) && Exists(c.files, loc) && loc.file == i && !Visited(c.files, i, j, loc)
    && forall l :: Visited(c.files, i, j + 1, l) <==> Visited(c.files, i, j, l) || l == loc
  }

  lemma NextVisits<T>(c: Context<T>, i: nat, j: nat, loc: Loc)
    requires Next(c, i, j, loc)
    ensures Visits(c, i, j, loc)
  {
    OneMoreVisited(c.files, i, j);
  }

  lemma OwedMovesFrom<T>(c: Context<T>, i: nat, j: nat, loc: Loc, l: Loc)
    requires Visits(c, i, j, loc) && Mutual(c, loc) && Mutual(c, l)
    ensures Owed(c, i, j + 1, l) <==>
            || (Owed(c, i, j, l) && l != loc)
            || (Other(c, loc) == Some(l) && l.file != i && !Visited(c.files, i, j, l))
  {
  }

  lemma OwedMoves<T>(c: Context<T>, i: nat, j: nat, loc: Loc, l: Loc)
    requires Next(c, i, j, loc)
    ensures Owed(c, i, j + 1, l) <==>
            || (Owed(c, i, j, l) && l != loc)
            || (Other(c, loc) == Some(l) && l.file != i && !Visited(c.files, i, j, l))
  {
    NextVisits(c, i, j, loc);
    HalvesAreMutual(c, loc);
    HalvesAreMutual(c, l);
    OwedMovesFrom(c, i, j, loc, l);
  }

  lemma DoneMovesFrom<T>(c: Context<T>, i: nat, j: nat, loc: Loc, k: string)
    requires Visits(c, i, j, loc) && Mutual(c, loc) && Mutual(c, Loc(i, k))
    ensures Done(c, i, j + 1, k) <==> Done(c, i, j, k) || k == loc.key || Other(c, loc) == Some(Loc(i, k))
  {
  }

  lemma DoneMoves<T>(c: Context<T>, i: nat, j: nat, loc: Loc, k: string)
    requires Next(c, i, j, loc)
    ensures Done(c, i, j + 1, k) <==> Done(c, i, j, k) || k == loc.key || Other(c, loc) == Some(Loc(i, k))
  {
    NextVisits(c, i, j, loc);
    HalvesAreMutual(c, loc);
    HalvesAreMutual(c, Loc(i, k));
    DoneMovesFrom(c, i, j, loc, k);
  }

  /** The key in file `i` that is written together with `loc`, if any. */
  function PartnerKeys<T>(c: Context<T>, i: nat, loc: Loc): set<string>
    requires Exists(c.files, loc)
  {
    match Other(c, loc)
    case Some(o) => if o.file == i then {o.key} else {}
    case None => {}
  }

  lemma DoneKeysMove<T>(c: Context<T>, i: nat, j: nat, loc: Loc)
    requires Next(c, i, j, loc)
    ensures DoneKeys(c, i, j + 1) == DoneKeys(c, i, j) + {loc.key} + PartnerKeys(c, i, loc)
  {
    forall k ensures Done(c, i, j + 1, k) <==> Done(c, i, j, k) || k == loc.key || Other(c, loc) == Some(Loc(i, k)) {
      DoneMoves(c, i, j, loc, k);
    }
    NextVisits(c, i, j, loc);
    HalvesAreMutual(c, loc);
    DoneKeysMoveFrom(c, i, j, loc);
  }

  lemma DoneKeysMoveFrom<T>(c: Context<T>, i: nat, j: nat, loc: Loc)
    requires i < |c.files| && Visits(c, i, j, loc) && Mutual(c, loc)
    requires forall k :: Done(c, i, j + 1, k) <==> Done(c, i, j, k) || k == loc.key || Other(c, loc) == Some(Loc(i, k))
    ensures DoneKeys(c, i, j + 1) == DoneKeys(c, i, j) + {loc.key} + PartnerKeys(c, i, loc)
  {
  }

  lemma UndeferEffect<T>(deferred: map<nat, map<string, Entries<T>>>, loc: Loc)
    requires IsDeferred(deferred, loc.file, loc.key)
    ensures forall l: Loc :: IsDeferred(Undefer(deferred, loc), l.file, l.key) <==>
                             IsDeferred(deferred, l.file, l.key) && l != loc
    ensures forall l: Loc :: IsDeferred(Undefer(deferred, loc), l.file, l.key) ==>
                             Undefer(deferred, loc)[l.file][l.key] == deferred[l.file][l.key]
  {
    forall l: Loc | l.file == loc.file && l.key == loc.key ensures l == loc {
    }
  }

  lemma DeferEffect<T>(deferred: map<nat, map<string, Entries<T>>>, loc: Loc, e: Entries<T>)
    ensures forall l: Loc :: IsDeferred(Defer(deferred, loc, e), l.file, l.key) <==>
                             IsDeferred(deferred, l.file, l.key) || l == loc
    ensures forall l: Loc :: IsDeferred(Defer(deferred, loc, e), l.file, l.key) ==>
                             Defer(deferred, loc, e)[l.file][l.key] ==
                             if l == loc then e else deferred[l.file][l.key]
  {
    forall l: Loc | l.file == loc.file && l.key == loc.key ensures l == loc {
    }
  }

  lemma DeferredSame<T>(c: Context<T>, i: nat, j: nat, deferred: map<nat, map<string, Entries<T>>>)
    requires At(c, i, j) && At(c, i, j + 1) && PairsExist(c) && DeferredOwed(c, i, j, deferred)
    requires forall l: Loc :: Owed(c, i, j + 1, l) <==> Owed(c, i, j, l)
    ensures DeferredOwed(c, i, j + 1, deferred)
  {
  }

  lemma DeferredLess<T>(c: Context<T>, i: nat, j: nat, deferred: map<nat, map<string, Entries<T>>>, loc: Loc)
    requires At(c, i, j) && At(c, i, j + 1) && PairsExist(c) && DeferredOwed(c, i, j, deferred)
    requires IsDeferred(deferred, loc.file, loc.key)
    requires forall l: Loc :: Owed(c, i, j + 1, l) <==> Owed(c, i, j, l) && l != loc
    ensures DeferredOwed(c, i, j + 1, Undefer(deferred, loc))
  {
    UndeferEffect(deferred, loc);
  }

  lemma DeferredMore<T>(c: Context<T>, i: nat, j: nat, deferred: map<nat, map<string, Entries<T>>>, loc: Loc)
    requires At(c, i, j) && At(c, i, j + 1) && PairsExist(c) && DeferredOwed(c, i, j, deferred)
    requires Exists(c.files, loc)
    requires forall l: Loc :: Owed(c, i, j + 1, l) <==> Owed(c, i, j, l) || l == loc
    ensures DeferredOwed(c, i, j + 1, Defer(deferred, loc, SpecEntries(c, loc)))
  {
    DeferEffect(deferred, loc, SpecEntries(c, loc));
  }

  // ---------- each branch of the loop body keeps the invariant ----------

  // A half whose partner was visited: nothing new becomes owed.

  lemma SettledOwed<T>(c: Context<T>, i: nat, j: nat, loc: Loc, l: Loc)
    requires Next(c, i, j, loc) && Other(c, loc).Some? && Visited(c.files, i, j, Other(c, loc).value)
    ensures Owed(c, i, j + 1, l) <==> Owed(c, i, j, l) && l != loc
  {
    OwedMoves(c, i, j, loc, l);
  }

  lemma VisitedIsProcessed<T>(c: Context<T>, i: nat, j: nat, loc: Loc, processed: set<string>)
    requires At(c, i, j) && Exists(c.files, loc) && Other(c, loc).Some?
    requires Visited(c.files, i, j, Other(c, loc).value) && ProcessedVisited(c, i, j, processed)
    ensures HalfAt(c, loc).value.0 in processed
  {
  }

  lemma SettledProcessed<T>(c: Context<T>, i: nat, j: nat, loc: Loc, processed: set<string>)
    requires Next(c, i, j, loc) && Other(c, loc).Some? && Visited(c.files, i, j, Other(c, loc).value)
    requires ProcessedVisited(c, i, j, processed)
    ensures ProcessedVisited(c, i, j + 1, processed)
  {
    VisitedIsProcessed(c, i, j, loc, processed);
    assert processed == processed + {HalfAt(c, loc).value.0};
    ProcessedMoves(c, i, j, loc, processed, processed);
  }

  lemma DoneMeansSettled<T>(c: Context<T>, i: nat, j: nat, loc: Loc, output: Entries<T>)
    requires Next(c, i, j, loc) && OutputDone(c, i, j, output) && loc.key in output
    ensures loc.key in DoneKeys(c, i, j) && !Owed(c, i, j, loc)
    ensures Other(c, loc).Some? && Other(c, loc).value.file == i && Visited(c.files, i, j, Other(c, loc).value)
    ensures Other(c, loc).value.key in DoneKeys(c, i, j)
  {
    OneMoreVisited(c.files, i, j);
    OutputKeyIsDone(c, i, j, output, loc.key);
    OtherIsMutual(c, loc);
  }

  /** The key was written when its partner in this file was. */
  lemma AlreadyWritten<T>(c: Context<T>, i: nat, j: nat, loc: Loc, s: State<T>)
    requires Next(c, i, j, loc) && Inv(c, i, j, s) && loc.key in s.output
    ensures Inv(c, i, j + 1, s)
  {
    DoneMeansSettled(c, i, j, loc, s.output);
    SettledProcessed(c, i, j, loc, s.processed);
    AlreadyOwed(c, i, j, loc, s.deferred);
    AlreadyDone(c, i, j, loc);
  }

  lemma AlreadyDone<T>(c: Context<T>, i: nat, j: nat, loc: Loc)
    requires Next(c, i, j, loc) && Other(c, loc).Some?
    requires loc.key in DoneKeys(c, i, j) && Other(c, loc).value.key in DoneKeys(c, i, j)
    ensures DoneKeys(c, i, j + 1) == DoneKeys(c, i, j)
  {
    var done, o := DoneKeys(c, i, j), Other(c, loc).value;
    DoneKeysMove(c, i, j, loc);
    assert PartnerKeys(c, i, loc) <= {o.key} <= done;
  }

  lemma AlreadyOwed<T>(c: Context<T>, i: nat, j: nat, loc: Loc, deferred: map<nat, map<string, Entries<T>>>)
    requires Next(c, i, j, loc) && Other(c, loc).Some? && Visited(c.files, i, j, Other(c, loc).value)
    requires !Owed(c, i, j, loc) && DeferredOwed(c, i, j, deferred)
    ensures DeferredOwed(c, i, j + 1, deferred)
  {
    forall l: Loc ensures Owed(c, i, j + 1, l) <==> Owed(c, i, j, l) {
      SettledOwed(c, i, j, loc, l);
    }
    DeferredSame(c, i, j, deferred);
  }

  /** The key's partner was met in an earlier file: its entries were waiting. */
  lemma WasDeferred<T>(c: Context<T>, i: nat, j: nat, loc: Loc, s: State<T>)
    requires Next(c, i, j, loc) && Inv(c, i, j, s)
    requires loc.key !in s.output && IsDeferred(s.deferred, i, loc.key)
    ensures Inv(c, i, j + 1, State(s.output + s.deferred[i][loc.key], s.processed, Undefer(s.deferred, loc)))
  {
    assert Owed(c, i, j, loc);
    SettledProcessed(c, i, j, loc, s.processed);
    PaidOwed(c, i, j, loc, s.deferred);
    OneKeyMore(c, i, j, loc, s.output);
  }

  lemma PaidOwed<T>(c: Context<T>, i: nat, j: nat, loc: Loc, deferred: map<nat, map<string, Entries<T>>>)
    requires Next(c, i, j, loc) && Other(c, loc).Some? && Visited(c.files, i, j, Other(c, loc).value)
    requires IsDeferred(deferred, loc.file, loc.key) && DeferredOwed(c, i, j, deferred)
    ensures DeferredOwed(c, i, j + 1, Undefer(deferred, loc))
  {
    forall l: Loc ensures Owed(c, i, j + 1, l) <==> Owed(c, i, j, l) && l != loc {
      SettledOwed(c, i, j, loc, l);
    }
    DeferredLess(c, i, j, deferred, loc);
  }

  /** Writing the key's own entries, when its partner, if it has one, is in another file. */
  lemma OneKeyMore<T>(c: Context<T>, i: nat, j: nat, loc: Loc, output: Entries<T>)
    requires Next(c, i, j, loc) && OutputDone(c, i, j, output)
    requires Other(c, loc).Some? ==> Other(c, loc).value.file != i
    ensures OutputDone(c, i, j + 1, output + SpecEntries(c, loc))
  {
    DoneKeysMove(c, i, j, loc);
    OneKeyUnion(c, i, loc);
    GrowUnion(FileSpec(c, i), DoneKeys(c, i, j), output, {loc.key}, SpecEntries(c, loc));
  }

  lemma OneKeyUnion<T>(c: Context<T>, i: nat, loc: Loc)
    requires PairsExist(c) && Exists(c.files, loc) && loc.file == i
    ensures IsUnion(FileSpec(c, i), {loc.key}, SpecEntries(c, loc))
  {
    assert FileSpec(c, i)[loc.key] == SpecEntries(c, loc);
  }

  /** The key is not half of a pair: kept as it is, or quantized alone. */
  lemma SingleKey<T>(c: Context<T>, i: nat, j: nat, loc: Loc, s: State<T>)
    requires Next(c, i, j, loc) && Inv(c, i, j, s)
    requires loc.key !in s.output && !IsDeferred(s.deferred, i, loc.key) && HalfAt(c, loc).None?
    ensures Inv(c, i, j + 1, s.(output := s.output + SpecEntries(c, loc)))
  {
    ProcessedMoves(c, i, j, loc, s.processed, s.processed);
    SingleOwed(c, i, j, loc, s.deferred);
    OneKeyMore(c, i, j, loc, s.output);
  }

  lemma SingleOwed<T>(c: Context<T>, i: nat, j: nat, loc: Loc, deferred: map<nat, map<string, Entries<T>>>)
    requires Next(c, i, j, loc) && HalfAt(c, loc).None? && DeferredOwed(c, i, j, deferred)
    ensures DeferredOwed(c, i, j + 1, deferred)
  {
    forall l: Loc ensures Owed(c, i, j + 1, l) <==> Owed(c, i, j, l) {
      OwedMoves(c, i, j, loc, l);
    }
    DeferredSame(c, i, j, deferred);
  }

  /** The key is the first half met of its pair, so the pair is not yet processed. */
  lemma FirstHalfUnprocessed<T>(c: Context<T>, i: nat, j: nat, loc: Loc, s: State<T>)
    requires Next(c, i, j, loc) && Inv(c, i, j, s)
    requires loc.key !in s.output && !IsDeferred(s.deferred, i, loc.key) && HalfAt(c, loc).Some?
    ensures !Visited(c.files, i, j, Other(c, loc).value)
    ensures HalfAt(c, loc).value.0 !in s.processed
  {
    OneMoreVisited(c.files, i, j);
    OutputKeyIsDone(c, i, j, s.output, loc.key);
    HalvesAreLocated(c, loc);
    OtherIsMutual(c, loc);
    assert !Owed(c, i, j, loc);
  }

  /** Both halves are in this file: both are written at once. */
  lemma PairInFile<T>(c: Context<T>, i: nat, j: nat, loc: Loc, s: State<T>)
    requires Next(c, i, j, loc) && Inv(c, i, j, s)
    requires HalfAt(c, loc).Some? && Other(c, loc).value.file == i
    requires !Visited(c.files, i, j, Other(c, loc).value) && !Owed(c, i, j, loc)
    ensures var b := HalfAt(c, loc).value.0;
      Inv(c, i, j + 1, State(s.output + HalfEntries(c, b, Gate) + HalfEntries(c, b, Up), s.processed + {b}, s.deferred))
  {
    var b := HalfAt(c, loc).value.0;
    ProcessedMoves(c, i, j, loc, s.processed, s.processed + {b});
    PairOwed(c, i, j, loc, s.deferred);
    PairKeysMore(c, i, j, loc, s.output);
  }

  lemma PairOwed<T>(c: Context<T>, i: nat, j: nat, loc: Loc, deferred: map<nat, map<string, Entries<T>>>)
    requires Next(c, i, j, loc) && DeferredOwed(c, i, j, deferred) && !Owed(c, i, j, loc)
    requires Other(c, loc).Some? && Other(c, loc).value.file == i
    ensures DeferredOwed(c, i, j + 1, deferred)
  {
    forall l: Loc ensures Owed(c, i, j + 1, l) <==> Owed(c, i, j, l) {
      OwedMoves(c, i, j, loc, l);
    }
    DeferredSame(c, i, j, deferred);
  }

  lemma PairKeysMore<T>(c: Context<T>, i: nat, j: nat, loc: Loc, output: Entries<T>)
    requires Next(c, i, j, loc) && OutputDone(c, i, j, output)
    requires HalfAt(c, loc).Some? && Other(c, loc).value.file == i
    ensures var b := HalfAt(c, loc).value.0;
      OutputDone(c, i, j + 1, output + HalfEntries(c, b, Gate) + HalfEntries(c, b, Up))
  {
    var b := HalfAt(c, loc).value.0;
    var g, u := c.pairs[b].gate, c.pairs[b].up;
    PairInSpec(c, i, loc);
    PairDone(c, i, j, loc);
    GrowTwice(FileSpec(c, i), DoneKeys(c, i, j), output, g.key, HalfEntries(c, b, Gate), u.key, HalfEntries(c, b, Up));
  }

  lemma PairInSpec<T>(c: Context<T>, i: nat, loc: Loc)
    requires Ready(c) && Exists(c.files, loc) && loc.file == i
    requires HalfAt(c, loc).Some? && Other(c, loc).value.file == i
    ensures var b := HalfAt(c, loc).value.0;
      && b in c.pairs && c.pairs[b].gate.key in FileSpec(c, i) && c.pairs[b].up.key in FileSpec(c, i)
      && FileSpec(c, i)[c.pairs[b].gate.key] == HalfEntries(c, b, Gate)
      && FileSpec(c, i)[c.pairs[b].up.key] == HalfEntries(c, b, Up)
  {
    var b := HalfAt(c, loc).value.0;
    HalvesAreLocated(c, loc);
    PairsAreHalves(c, b);
    HalfSpec(c, c.pairs[b].gate);
    HalfSpec(c, c.pairs[b].up);
    assert c.pairs[b].gate == Loc(i, c.pairs[b].gate.key);
    assert c.pairs[b].up == Loc(i, c.pairs[b].up.key);
  }

  lemma PairDone<T>(c: Context<T>, i: nat, j: nat, loc: Loc)
    requires Next(c, i, j, loc) && HalfAt(c, loc).Some? && Other(c, loc).value.file == i
    ensures var b := HalfAt(c, loc).value.0;
      DoneKeys(c, i, j + 1) == DoneKeys(c, i, j) + {c.pairs[b].gate.key, c.pairs[b].up.key}
  {
    DoneKeysMove(c, i, j, loc);
    HalvesAreLocated(c, loc);
  }

  lemma GrowTwice<T>(spec: map<string, Entries<T>>, done: set<string>, output: Entries<T>,
                     a: string, ea: Entries<T>, b: string, eb: Entries<T>)
    requires NamesApart(spec) && IsUnion(spec, done, output)
    requires a in spec && spec[a] == ea && b in spec && spec[b] == eb
    ensures IsUnion(spec, done + {a, b}, output + ea + eb)
  {
    GrowUnion(spec, done, output, {a}, ea);
    GrowUnion(spec, done + {a}, output + ea, {b}, eb);
    assert done + {a} + {b} == done + {a, b};
  }

  /** The other half belongs to a later file: it is deferred. */
  lemma PairAcrossFiles<T>(c: Context<T>, i: nat, j: nat, loc: Loc, s: State<T>)
    requires Next(c, i, j, loc) && Inv(c, i, j, s)
    requires HalfAt(c, loc).Some? && Other(c, loc).value.file != i
    requires !Visited(c.files, i, j, Other(c, loc).value) && !Owed(c, i, j, loc)
    ensures var b, other := HalfAt(c, loc).value.0, Other(c, loc).value;
      && Exists(c.files, other)
      && Inv(c, i, j + 1, State(s.output + SpecEntries(c, loc), s.processed + {b},
                                Defer(s.deferred, other, SpecEntries(c, other))))
  {
    var b, other := HalfAt(c, loc).value.0, Other(c, loc).value;
    OtherIsMutual(c, loc);
    ProcessedMoves(c, i, j, loc, s.processed, s.processed + {b});
    DeferOwed(c, i, j, loc, s.deferred);
    OneKeyMore(c, i, j, loc, s.output);
  }

  lemma DeferOwed<T>(c: Context<T>, i: nat, j: nat, loc: Loc, deferred: map<nat, map<string, Entries<T>>>)
    requires Next(c, i, j, loc) && DeferredOwed(c, i, j, deferred) && !Owed(c, i, j, loc)
    requires Other(c, loc).Some? && Exists(c.files, Other(c, loc).value) && Other(c, loc).value.file != i
    requires !Visited(c.files, i, j, Other(c, loc).value)
    ensures var other := Other(c, loc).value;
      DeferredOwed(c, i, j + 1, Defer(deferred, other, SpecEntries(c, other)))
  {
    var other := Other(c, loc).value;
    forall l: Loc ensures Owed(c, i, j + 1, l) <==> Owed(c, i, j, l) || l == other {
      OwedMoves(c, i, j, loc, l);
    }
    DeferredMore(c, i, j, deferred, other);
  }

  // ---------- the loops ----------

  /** Every branch keeps the invariant, and neither guard of the loop body fires. */
  lemma ProcessKeyKeepsInv<T>(c: Context<T>, i: nat, j: nat, loc: Loc, s: State<T>)
    requires Next(c, i, j, loc) && Inv(c, i, j, s)
    ensures var r := ProcessKey(c, i, loc.key, s); r.Ok? && Inv(c, i, j + 1, r.value)
  {
    if loc.key in s.output {
      AlreadyWritten(c, i, j, loc, s);
    } else if IsDeferred(s.deferred, i, loc.key) {
      WasDeferred(c, i, j, loc, s);
    } else if HalfAt(c, loc).None? {
      SingleKey(c, i, j, loc, s);
      NotRejected(c, loc);
      SingleKeyResult(c, i, loc, s);
    } else {
      FirstHalfUnprocessed(c, i, j, loc, s);
      assert !Owed(c, i, j, loc);
      if Other(c, loc).value.file == i {
        PairInFile(c, i, j, loc, s);
        PairInFileResult(c, i, loc, s);
      } else {
        PairAcrossFiles(c, i, j, loc, s);
        PairAcrossFilesResult(c, i, loc, s);
      }
    }
  }

  /** A key that is kept is never written before its turn, so its modules are listed. */
  lemma ModulesMove<T>(c: Context<T>, i: nat, j: nat, loc: Loc, s: State<T>)
    requires Next(c, i, j, loc) && Inv(c, i, j, s)
    ensures KeptModules(c, i, j + 1) == KeptModules(c, i, j) + AddedModules(c, i, loc.key, s)
  {
    NextVisits(c, i, j, loc);
    OutputKeyIsDone(c, i, j, s.output, loc.key);
    assert IsDeferred(s.deferred, loc.file, loc.key) <==> Owed(c, i, j, loc);
  }

  lemma NotRejected<T>(c: Context<T>, loc: Loc)
    requires Ready(c) && Exists(c.files, loc)
    ensures DecisionAt(c.kit, c.files, loc) != Reject
  {
  }

  lemma SingleKeyResult<T>(c: Context<T>, i: nat, loc: Loc, s: State<T>)
    requires PairsExist(c) && Exists(c.files, loc) && loc.file == i && DecisionAt(c.kit, c.files, loc) != Reject
    requires loc.key !in s.output && !IsDeferred(s.deferred, i, loc.key) && HalfAt(c, loc).None?
    ensures ProcessKey(c, i, loc.key, s) == Ok(s.(output := s.output + SpecEntries(c, loc)))
  {
    assert Loc(i, loc.key) == loc;
    if DecisionAt(c.kit, c.files, loc) == Keep {
      assert s.output[loc.key := TensorAt(c.files, loc)] == s.output + map[loc.key := TensorAt(c.files, loc)];
    }
  }

  lemma PairInFileResult<T>(c: Context<T>, i: nat, loc: Loc, s: State<T>)
    requires Ready(c) && Exists(c.files, loc) && loc.file == i
    requires loc.key !in s.output && !IsDeferred(s.deferred, i, loc.key)
    requires HalfAt(c, loc).Some? && HalfAt(c, loc).value.0 !in s.processed && Other(c, loc).value.file == i
    ensures var b := HalfAt(c, loc).value.0;
      ProcessKey(c, i, loc.key, s) ==
      Ok(State(s.output + HalfEntries(c, b, Gate) + HalfEntries(c, b, Up), s.processed + {b}, s.deferred))
  {
    assert Loc(i, loc.key) == loc;
    HalvesAreLocated(c, loc);
  }

  lemma PairAcrossFilesResult<T>(c: Context<T>, i: nat, loc: Loc, s: State<T>)
    requires Ready(c) && Exists(c.files, loc) && loc.file == i
    requires loc.key !in s.output && !IsDeferred(s.deferred, i, loc.key)
    requires HalfAt(c, loc).Some? && HalfAt(c, loc).value.0 !in s.processed && Other(c, loc).value.file != i
    ensures var b, other := HalfAt(c, loc).value.0, Other(c, loc).value;
      && Exists(c.files, other)
      && ProcessKey(c, i, loc.key, s) ==
         Ok(State(s.output + SpecEntries(c, loc), s.processed + {b}, Defer(s.deferred, other, SpecEntries(c, other))))
  {
    assert Loc(i, loc.key) == loc;
    HalvesAreLocated(c, loc);
    OtherIsMutual(c, loc);
    HalfSpec(c, loc);
    HalfSpec(c, Other(c, loc).value);
  }

  // ---------- what a caller can check beforehand ----------

  /** The names written for the tensor at `loc`. */
  function NamesWritten<T>(kit: Kit<T>, files: seq<File<T>>, loc: Loc): set<string>
    requires Exists(files, loc)
  {
    if DecisionAt(kit, files, loc) == Quantize then QuantizedNames(loc.key) else {loc.key}
  }

  /** In no file does a tensor's key or generated scale name coincide with a name of another tensor. */
  ghost predicate NoNameClash<T>(kit: Kit<T>, files: seq<File<T>>) {
    forall a, b :: Exists(files, a) && Exists(files, b) && a.file == b.file && a.key != b.key ==>
      NamesWritten(kit, files, a) !! NamesWritten(kit, files, b)
  }

  lemma NoNameClashSuffices<T>(c: Context<T>)
    requires PairsExist(c) && NoNameClash(c.kit, c.files)
    ensures NoClash(c)
  {
    forall i | 0 <= i < |c.files| ensures NamesApart(FileSpec(c, i)) {
      var spec := FileSpec(c, i);
      forall a, b, n | a in spec && b in spec && n in spec[a] && n in spec[b] ensures a == b {
        assert spec[a].Keys == NamesWritten(c.kit, c.files, Loc(i, a));
        assert spec[b].Keys == NamesWritten(c.kit, c.files, Loc(i, b));
      }
    }
  }

  /** Tensors of one file that claim the same name agree on what is stored under it. */
  ghost predicate NamesAgree<T>(spec: map<string, Entries<T>>) {
    forall a, b, n :: a in spec && b in spec && n in spec[a] && n in spec[b] ==> spec[a][n] == spec[b][n]
  }

  /** One output can hold what all tensors of a file become exactly when they agree on the names they share:
      if two of them claim a name with different values, then whatever is written loses one of the two. */
  lemma HoldsAllIffAgree<T>(spec: map<string, Entries<T>>)
    ensures (exists output: Entries<T> :: IsUnion(spec, spec.Keys, output)) <==> NamesAgree(spec)
  {
    if NamesAgree(spec) {
      var output := UnionOf(spec, spec.Keys);
      assert IsUnion(spec, spec.Keys, output);
    }
    forall output: Entries<T> | IsUnion(spec, spec.Keys, output) ensures NamesAgree(spec) {
      forall a, b, n | a in spec && b in spec && n in spec[a] && n in spec[b] ensures spec[a][n] == spec[b][n] {
        assert a in spec.Keys && b in spec.Keys;
        assert output[n] == spec[a][n] && output[n] == spec[b][n];
      }
    }
  }

  lemma {:induction false} UnionOf<T>(spec: map<string, Entries<T>>, keys: set<string>) returns (output: Entries<T>)
    requires NamesAgree(spec) && keys <= spec.Keys
    ensures IsUnion(spec, keys, output)
    decreases keys
  {
    output := map[];
    if keys != {} {
      var k :| k in keys;
      var rest := UnionOf(spec, keys - {k});
      output := rest + spec[k];
      AddToUnion(spec, keys - {k}, rest, k);
      assert keys - {k} + {k} == keys;
    }
  }

  lemma AddToUnion<T>(spec: map<string, Entries<T>>, done: set<string>, output: Entries<T>, k: string)
    requires NamesAgree(spec) && IsUnion(spec, done, output) && k in spec
    ensures IsUnion(spec, done + {k}, output + spec[k])
  {
    forall n | n in output + spec[k] ensures exists k' :: k' in done + {k} && n in spec[k'] {
      if n in spec[k] {
        assert k in done + {k};
      } else {
        var k' :| k' in done && n in spec[k'];
        assert k' in done + {k};
      }
    }
  }

  /** Which one the loop loses when a tensor that is kept has the name of a scale generated for another one: the
      kept tensor, whichever of the two comes first. Nothing is reported. */
  lemma KeptTensorIsLost<T>(c: Context<T>, i: nat, scaled: string, kept: string, s: State<T>)
    requires PairsExist(c) && Exists(c.files, Loc(i, scaled)) && Exists(c.files, Loc(i, kept))
    requires DecisionAt(c.kit, c.files, Loc(i, scaled)) == Quantize && HalfAt(c, Loc(i, scaled)).None?
    requires DecisionAt(c.kit, c.files, Loc(i, kept)) == Keep && kept in QuantizedNames(scaled)
    requires scaled !in s.output && !IsDeferred(s.deferred, i, scaled)
    requires kept !in s.output && !IsDeferred(s.deferred, i, kept)
    ensures var entries := SpecEntries(c, Loc(i, scaled));
      kept in entries &&
      forall first, second :: {first, second} == {scaled, kept} ==>
        && ProcessKey(c, i, first, s).Ok?
        && var r := ProcessKey(c, i, second, ProcessKey(c, i, first, s).value);
           r.Ok? && kept in r.value.output && r.value.output[kept] == entries[kept]
  {
    assert kept != scaled;
    forall first, second | {first, second} == {scaled, kept}
      ensures (first, second) == (scaled, kept) || (first, second) == (kept, scaled)
    {
      assert scaled in {first, second} && kept in {first, second};
      assert first in {scaled, kept};
    }
  }

  ghost predicate Clean<T>(kit: Kit<T>, files: seq<File<T>>) {
    !HasReject(kit, files) && !HasDuplicateRole(kit, files) && NoNameClash(kit, files)
  }

  // ---------- the loops ----------

  lemma NewFile<T>(c: Context<T>, i: nat, processed: set<string>, deferred: map<nat, map<string, Entries<T>>>)
    requires Ready(c) && i < |c.files|
    requires ProcessedVisited(c, i, 0, processed) && DeferredOwed(c, i, 0, deferred)
    ensures Inv(c, i, 0, State(map[], processed, deferred))
  {
    assert DoneKeys(c, i, 0) == {} by {
      forall k | k in c.files[i].tensors ensures !Done(c, i, 0, k) {
      }
    }
  }

  /** Leaving a file: all its tensors are written, and the bookkeeping carries over to the next. */
  lemma FileFinished<T>(c: Context<T>, i: nat, s: State<T>)
    requires Ready(c) && i < |c.files| && Inv(c, i, |c.files[i].keys|, s)
    ensures IsUnion(FileSpec(c, i), c.files[i].tensors.Keys, s.output)
    ensures ProcessedVisited(c, i + 1, 0, s.processed) && DeferredOwed(c, i + 1, 0, s.deferred)
  {
    var n := |c.files[i].keys|;
    WholeFileVisited(c.files, i);
    assert DoneKeys(c, i, n) == c.files[i].tensors.Keys by {
      forall k | k in c.files[i].tensors ensures Done(c, i, n, k) {
        assert c.files[i].keys[..n] == c.files[i].keys;
        assert Exists(c.files, Loc(i, k));
      }
    }
    forall b | b in c.pairs ensures Exists(c.files, c.pairs[b].gate) && Exists(c.files, c.pairs[b].up) {
    }
    OwedCarriesOver(c, i);
  }

  lemma OwedCarriesOver<T>(c: Context<T>, i: nat)
    requires Ready(c) && i < |c.files|
    ensures forall l: Loc :: Owed(c, i, |c.files[i].keys|, l) <==> Owed(c, i + 1, 0, l)
  {
    WholeFileVisited(c.files, i);
    forall l: Loc ensures Owed(c, i, |c.files[i].keys|, l) <==> Owed(c, i + 1, 0, l) {
      if Exists(c.files, l) && Other(c, l).Some? {
        OtherIsMutual(c, l);
      }
    }
  }

  ghost predicate Bookkeeping<T>(c: Context<T>, i: nat, s: State<T>)
    requires PairsExist(c) && At(c, i, 0)
  {
    ProcessedVisited(c, i, 0, s.processed) && DeferredOwed(c, i, 0, s.deferred)
  }

  /** `process_file`. */
  method ProcessFile<T>(c: Context<T>, i: nat, processed: set<string>, deferred: map<nat, map<string, Entries<T>>>)
    returns (r: Result<State<T>, ConversionError>, modules: seq<string>)
    requires ValidFiles(c.files) && PairsExist(c) && i < |c.files|
    requires Ready(c) ==> Bookkeeping(c, i, State(map[], processed, deferred))
    ensures Ready(c) ==> r.Ok? && Bookkeeping(c, i + 1, State(map[], r.value.processed, r.value.deferred))
    ensures Ready(c) ==> IsUnion(FileSpec(c, i), c.files[i].tensors.Keys, r.value.output)
    ensures Ready(c) ==> modules == KeptModules(c, i, |c.files[i].keys|)
  {
    modules := [];
    var s := State(map[], processed, deferred);
    if Ready(c) {
      NewFile(c, i, processed, deferred);
    }
    for j := 0 to |c.files[i].keys|
      invariant Ready(c) ==> Inv(c, i, j, s)
      invariant Ready(c) ==> modules == KeptModules(c, i, j)
    {
      var key := c.files[i].keys[j];
      assert key in c.files[i].keys;
      if Ready(c) {
        NextExists(c, i, j);
        ModulesMove(c, i, j, Loc(i, key), s);
        ProcessKeyKeepsInv(c, i, j, Loc(i, key), s);
      }
      var step := ProcessKey(c, i, key, s);
      if step.Err? {
        return Err(step.error), modules;
      }
      modules := modules + AddedModules(c, i, key, s);
      s := step.value;
    }
    if Ready(c) {
      FileFinished(c, i, s);
    }
    return Ok(s), modules;
  }

  /** The index maps a name to the last file that contains it. */
  ghost predicate MapsToLast<T>(weightMap: map<string, nat>, outputs: seq<Entries<T>>) {
    && (forall n :: n in weightMap ==> weightMap[n] < |outputs| && n in outputs[weightMap[n]])
    && (forall n, i :: 0 <= i < |outputs| && n in outputs[i] ==> n in weightMap && i <= weightMap[n])
  }

  /** Each of the first `i` outputs is the union of what its file's tensors become: every result is
      written once, to the file its source tensor came from. */
  ghost predicate Written<T>(c: Context<T>, outputs: seq<Entries<T>>, i: nat)
    requires PairsExist(c)
  {
    && |outputs| == i <= |c.files|
    && forall k :: 0 <= k < i ==> IsUnion(FileSpec(c, k), c.files[k].tensors.Keys, outputs[k])
  }

  lemma WrittenOneMore<T>(c: Context<T>, outputs: seq<Entries<T>>, i: nat, output: Entries<T>)
    requires PairsExist(c) && i < |c.files| && Written(c, outputs, i)
    requires IsUnion(FileSpec(c, i), c.files[i].tensors.Keys, output)
    ensures Written(c, outputs + [output], i + 1)
  {
  }

  lemma MapOneMore<T>(weightMap: map<string, nat>, outputs: seq<Entries<T>>, output: Entries<T>)
    requires MapsToLast(weightMap, outputs)
    ensures MapsToLast(weightMap + (map n | n in output :: |outputs|), outputs + [output])
  {
  }

  /** The state of the loop over the files before file `i`. */
  ghost predicate Passed<T>(c: Context<T>, i: nat, outputs: seq<Entries<T>>, modules: seq<string>,
                            processed: set<string>, deferred: map<nat, map<string, Entries<T>>>)
    requires PairsExist(c)
  {
    && i <= |c.files| && |outputs| == i
    && (Ready(c) ==>
          && modules == AllKeptModules(c, i) && Written(c, outputs, i)
          && Bookkeeping(c, i, State(map[], processed, deferred)))
  }

  lemma PassedOneMore<T>(c: Context<T>, i: nat, outputs: seq<Entries<T>>, modules: seq<string>, processed: set<string>,
                         deferred: map<nat, map<string, Entries<T>>>, done: State<T>, kept: seq<string>)
    requires PairsExist(c) && i < |c.files| && Passed(c, i, outputs, modules, processed, deferred)
    requires Ready(c) ==> Bookkeeping(c, i + 1, State(map[], done.processed, done.deferred))
    requires Ready(c) ==> IsUnion(FileSpec(c, i), c.files[i].tensors.Keys, done.output)
    requires Ready(c) ==> kept == KeptModules(c, i, |c.files[i].keys|)
    ensures Passed(c, i + 1, outputs + [done.output], modules + kept, done.processed, done.deferred)
  {
    if Ready(c) {
      WrittenOneMore(c, outputs, i, done.output);
    }
  }

  /** The loop over the files, and the check after it. */
  method SecondPass<T>(c: Context<T>)
    returns (r: Result<(seq<Entries<T>>, map<string, nat>), ConversionError>, modules: seq<string>)
    requires ValidFiles(c.files) && PairsExist(c)
    ensures Ready(c) ==> r.Ok? && Written(c, r.value.0, |c.files|)
    ensures Ready(c) ==> modules == AllKeptModules(c, |c.files|)
    ensures r.Ok? ==> MapsToLast(r.value.1, r.value.0)
  {
    var processed: set<string> := {};
    var deferred: map<nat, map<string, Entries<T>>> := map[];
    var outputs: seq<Entries<T>> := [];
    var weightMap: map<string, nat> := map[];
    modules := [];
    for i := 0 to |c.files|
      invariant Passed(c, i, outputs, modules, processed, deferred)
      invariant MapsToLast(weightMap, outputs)
    {
      var done, kept := ProcessFile(c, i, processed, deferred);
      if done.Err? {
        return Err(done.error), modules;
      }
      PassedOneMore(c, i, outputs, modules, processed, deferred, done.value, kept);
      MapOneMore(weightMap, outputs, done.value.output);
      modules := modules + kept;
      processed, deferred := done.value.processed, done.value.deferred;
      weightMap := weightMap + map n | n in done.value.output :: i;
      outputs := outputs + [done.value.output];
    }
    var drained := NothingDeferred(c, deferred);
    if !drained {
      return Err(UnwrittenDeferred), modules;
    }
    return Ok((outputs, weightMap)), modules;
  }

  /** The check after the loop over the files. */
  method NothingDeferred<T>(c: Context<T>, deferred: map<nat, map<string, Entries<T>>>) returns (drained: bool)
    requires PairsExist(c)
    requires Ready(c) ==> DeferredOwed(c, |c.files|, 0, deferred)
    ensures drained <==> forall f :: f in deferred ==> deferred[f] == map[]
    ensures Ready(c) ==> drained
  {
    drained := forall f :: f in deferred ==> deferred[f] == map[];
    if Ready(c) {
      forall f | f in deferred ensures deferred[f] == map[] {
        NothingOwedAtEnd(c, deferred, f);
      }
    }
  }

  /** `convert_nvfp4`. On a clean checkpoint both passes succeed, whatever the file order and wherever
      gate and up tensors are stored, and every file holds exactly what its own tensors become. */
  method ConvertNvfp4<T>(kit: Kit<T>, files: seq<File<T>>)
    returns (r: Result<(seq<Entries<T>>, map<string, nat>), ConversionError>, pairs: map<string, Pair>,
             modules: seq<string>)
    requires ValidFiles(files)
    ensures HasReject(kit, files) || HasDuplicateRole(kit, files) ==>
      r.Err? && (r.error.Rejected? || r.error.DuplicateRole?)
    ensures PairsExist(Context(kit, files, pairs))
    ensures Clean(kit, files) ==>
      r.Ok? && PairsValid(kit, files, pairs) && Written(Context(kit, files, pairs), r.value.0, |files|)
    ensures Clean(kit, files) ==> modules == AllKeptModules(Context(kit, files, pairs), |files|)
    ensures r.Ok? ==> MapsToLast(r.value.1, r.value.0)
  {
    pairs, modules := map[], [];
    var collected := CollectGatedPairLocations(kit, files);
    if collected.Err? {
      return Err(collected.error), pairs, modules;
    }
    pairs := collected.value;
    PairsAreReady(kit, files, pairs);
    r, modules := SecondPass(Context(kit, files, pairs));
  }

  lemma PairsAreReady<T>(kit: Kit<T>, files: seq<File<T>>, pairs: map<string, Pair>)
    requires ValidFiles(files) && PairsValid(kit, files, pairs)
    ensures PairsExist(Context(kit, files, pairs))
    ensures Clean(kit, files) ==> Ready(Context(kit, files, pairs))
  {
    var c := Context(kit, files, pairs);
    assert PairsExist(c) by {
      forall b | b in pairs ensures Exists(files, pairs[b].gate) && Exists(files, pairs[b].up) {
        assert Selected(kit, files, pairs[b].gate, (b, Gate)) && Selected(kit, files, pairs[b].up, (b, Up));
      }
    }
    if Clean(kit, files) {
      NoNameClashSuffices(c);
    }
  }

  lemma NothingOwedAtEnd<T>(c: Context<T>, deferred: map<nat, map<string, Entries<T>>>, f: nat)
    requires Ready(c) && DeferredOwed(c, |c.files|, 0, deferred)
    ensures f in deferred ==> deferred[f] == map[]
  {
    if f in deferred {
      forall key | key in deferred[f] ensures Owed(c, |c.files|, 0, Loc(f, key)) {
        assert IsDeferred(deferred, Loc(f, key).file, Loc(f, key).key);
      }
      assert deferred[f].Keys == {};
    }
  }
}
