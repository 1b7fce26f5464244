/** The NVFP4 converter does not depend on the order in which files are visited
    (tools/convert_hf_to_nvfp4.py, lines 264-291 and 341-466). */
module Nvfp4Order {
  import opened Nvfp4
  import opened Nvfp4Conversion

  /** File `i` of one listing is file `there[i]` of the other, and file `j` of the other is file `back[j]`. */
  ghost predicate Reorders<T>(a: seq<File<T>>, b: seq<File<T>>, there: seq<nat>, back: seq<nat>) {
    && |a| == |b| == |there| == |back|
    && (forall i :: 0 <= i < |a| ==> there[i] < |b| && b[there[i]] == a[i] && back[there[i]] == i)
    && (forall j :: 0 <= j < |b| ==> back[j] < |a| && a[back[j]] == b[j] && there[back[j]] == j)
  }

  function Moved(loc: Loc, there: seq<nat>): Loc
    requires loc.file < |there|
  {
    Loc(there[loc.file], loc.key)
  }

  /** Both listings have the same pairs, made of the same tensors. */
  lemma SamePair<T>(c: Context<T>, d: Context<T>, there: seq<nat>, back: seq<nat>, base: string)
    requires c.kit == d.kit && Reorders(c.files, d.files, there, back)
    requires PairsValid(c.kit, c.files, c.pairs) && PairsValid(d.kit, d.files, d.pairs)
    requires PairsExist(c) && PairsExist(d) && base in c.pairs
    ensures base in d.pairs && PairOutput(c, base) == PairOutput(d, base)
  {
    var pair := c.pairs[base];
    assert Selected(c.kit, c.files, pair.gate, (base, Gate)) && Selected(c.kit, c.files, pair.up, (base, Up));
    assert Selected(d.kit, d.files, Moved(pair.gate, there), (base, Gate));
    assert Selected(d.kit, d.files, Moved(pair.up, there), (base, Up));
    assert base in d.pairs;
    assert d.pairs[base].gate == Moved(pair.gate, there) && d.pairs[base].up == Moved(pair.up, there);
  }

  lemma SameHalf<T>(c: Context<T>, d: Context<T>, there: seq<nat>, back: seq<nat>, loc: Loc)
    requires c.kit == d.kit && Reorders(c.files, d.files, there, back)
    requires PairsValid(c.kit, c.files, c.pairs) && PairsValid(d.kit, d.files, d.pairs)
    requires PairsExist(c) && PairsExist(d) && Exists(c.files, loc)
    ensures Exists(d.files, Moved(loc, there)) && TensorAt(d.files, Moved(loc, there)) == TensorAt(c.files, loc)
    ensures HalfAt(c, loc) == HalfAt(d, Moved(loc, there))
  {
    var split := SplitGatedPairName(loc.key);
    if split.Some? {
      if split.value.0 in c.pairs {
        SamePair(c, d, there, back, split.value.0);
      } else if split.value.0 in d.pairs {
        SamePair(d, c, back, there, split.value.0);
      }
    }
  }

  /** What a tensor becomes does not depend on where its file is listed. */
  lemma SameSpec<T>(c: Context<T>, d: Context<T>, there: seq<nat>, back: seq<nat>, loc: Loc)
    requires c.kit == d.kit && Reorders(c.files, d.files, there, back)
    requires PairsValid(c.kit, c.files, c.pairs) && PairsValid(d.kit, d.files, d.pairs)
    requires PairsExist(c) && PairsExist(d) && Exists(c.files, loc)
    ensures Exists(d.files, Moved(loc, there)) && SpecEntries(c, loc) == SpecEntries(d, Moved(loc, there))
  {
    SameHalf(c, d, there, back, loc);
    var half := HalfAt(c, loc);
    if half.Some? {
      SamePair(c, d, there, back, half.value.0);
    }
    SameEntries(c, d, loc, Moved(loc, there));
  }

  /** The same tensor in the same role becomes the same entries. */
  lemma SameEntries<T>(c: Context<T>, d: Context<T>, loc: Loc, moved: Loc)
    requires c.kit == d.kit && PairsExist(c) && PairsExist(d) && loc.key == moved.key
    requires Exists(c.files, loc) && Exists(d.files, moved) && TensorAt(c.files, loc) == TensorAt(d.files, moved)
    requires HalfAt(c, loc) == HalfAt(d, moved)
    requires HalfAt(c, loc).Some? ==>
      && HalfAt(c, loc).value.0 in d.pairs
      && PairOutput(c, HalfAt(c, loc).value.0) == PairOutput(d, HalfAt(c, loc).value.0)
    ensures SpecEntries(c, loc) == SpecEntries(d, moved)
  {
  }

  /** Two conversions of the same checkpoint, its files listed in any two orders, write the same files. */
  lemma FileOrderIsIrrelevant<T>(c: Context<T>, d: Context<T>, there: seq<nat>, back: seq<nat>,
                                 outputs: seq<Entries<T>>, outputs': seq<Entries<T>>)
    requires c.kit == d.kit && Reorders(c.files, d.files, there, back)
    requires PairsValid(c.kit, c.files, c.pairs) && PairsValid(d.kit, d.files, d.pairs)
    requires PairsExist(c) && PairsExist(d)
    requires Written(c, outputs, |c.files|) && Written(d, outputs', |d.files|)
    ensures forall i :: 0 <= i < |c.files| ==> outputs[i] == outputs'[there[i]]
  {
    forall i | 0 <= i < |c.files| ensures outputs[i] == outputs'[there[i]] {
      SameFileSpec(c, d, there, back, i);
    }
  }

  lemma SameFileSpec<T>(c: Context<T>, d: Context<T>, there: seq<nat>, back: seq<nat>, i: nat)
    requires c.kit == d.kit && Reorders(c.files, d.files, there, back) && i < |c.files|
    requires PairsValid(c.kit, c.files, c.pairs) && PairsValid(d.kit, d.files, d.pairs)
    requires PairsExist(c) && PairsExist(d)
    ensures FileSpec(c, i) == FileSpec(d, there[i])
  {
    forall k | k in c.files[i].tensors ensures FileSpec(c, i)[k] == FileSpec(d, there[i])[k] {
      SameSpec(c, d, there, back, Loc(i, k));
    }
  }
}
