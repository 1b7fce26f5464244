// tools/convert_hf_to_torch_dist.py: choosing the pipeline size and the layers of its last stage.
module PipelineSplit {
  import opened Arithmetic
  import opened Wrappers

  datatype Args = Args(
    layers: nat, pp: nat, tp: nat, cp: nat,
    etp: nat,                    // expert_tensor_parallel_size, 0 when it is not given
    ep: pos, world: pos,
    keepPp1: bool)               // CONVERT_KEEP_PP1

  datatype SplitError = MoreStagesThanLayers | NoValidSize

  // The pipeline size, and the layers of the last stage when the search chose it.
  datatype Split = Split(pp: nat, lastLayers: Option<int>)

  // Every stage but the last holds ceil(layers / pp) layers; this is what is left for the last one.
  function Last(layers: nat, pp: pos): int {
    layers - CeilDiv(layers, pp) * (pp - 1)
  }

  // The sizes the search visits from p on: p, p / 2, ... down to the first odd one.
  predicate InChain(p: pos, q: pos) {
    q == p || (p % 2 == 0 && InChain(p / 2, q))
  }

  predicate Automatic(a: Args) {
    && a.pp == 1 && a.tp == 1 && a.cp == 1 && (if a.etp == 0 then a.tp else a.etp) == 1
    && a.world % a.ep == 0 && a.world > a.ep && !a.keepPp1
  }

  lemma {:induction false} ChainDivides(p: pos, q: pos)
    requires InChain(p, q)
    ensures q <= p && p % q == 0
  {
    if q == p {
      DivisionIsUnique(p, q, 1, 0);
    } else {
      ChainDivides(p / 2, q);
      var m := p / 2 / q;
      assert p / 2 == m * q + p / 2 % q;
      assert p == (2 * m) * q by { assert (2 * m) * q == 2 * (m * q); }
      DivisionIsUnique(p, q, 2 * m, 0);
    }
  }

  // Every chain size is p itself or at most half of it.
  lemma {:induction false} ChainStep(p: pos, q: pos)
    requires InChain(p, q)
    ensures q == p || (p % 2 == 0 && q <= p / 2)
  {
    if q != p { ChainDivides(p / 2, q); }
  }

  lemma {:induction false} ChainTransitive(p: pos, q: pos, r: pos)
    requires InChain(p, q) && InChain(q, r)
    ensures InChain(p, r)
  {
    if q != p { ChainTransitive(p / 2, q, r); }
  }

  // A world that is `size` expert groups wide splits evenly over any size of the chain.
  lemma StagesDivideWorld(world: pos, ep: pos, pp: pos)
    requires world % ep == 0 && world >= ep
    ensures world / ep > 0 && (InChain(world / ep, pp) ==> pp * ep > 0 && world % (pp * ep) == 0)
  {
    var p := world / ep;
    assert world == p * ep + world % ep;
    MulMonotone(p, 0, ep);
    if InChain(p, pp) {
      ChainDivides(p, pp);
      ProductDivides(world, p, ep, pp, p / pp);
    }
  }

  lemma ProductDivides(world: pos, p: pos, ep: pos, pp: pos, m: nat)
    requires world == p * ep && p == m * pp
    ensures pp * ep > 0 && world % (pp * ep) == 0
  {
    MulMonotone(1, pp, ep);
    assert m * pp * ep == m * (pp * ep);
    DivisionIsUnique(world, pp * ep, m, 0);
  }

  // The sizes still to visit are those of the chain that are not larger than the current one.
  ghost predicate NoneLarger(layers: nat, start: pos, pp: pos) {
    forall q: pos :: InChain(start, q) && q > pp ==> Last(layers, q) <= 0
  }

  lemma {:induction false} ChainComparable(p: pos, a: pos, b: pos)
    requires InChain(p, a) && InChain(p, b) && a >= b
    ensures InChain(a, b)
  {
    if a != p {
      ChainStep(p, b);
      ChainStep(p, a);
      if b != p { ChainComparable(p / 2, a, b); }
    }
  }

  lemma HalvingKeeps(layers: nat, start: pos, pp: pos)
    requires InChain(start, pp) && pp % 2 == 0 && NoneLarger(layers, start, pp) && Last(layers, pp) <= 0
    ensures InChain(start, pp / 2) && NoneLarger(layers, start, pp / 2)
  {
    ChainTransitive(start, pp, pp / 2);
    forall q: pos | InChain(start, q) && q > pp / 2 ensures Last(layers, q) <= 0 {
      if q < pp {
        ChainComparable(start, pp, q);
        ChainStep(pp, q);
      }
    }
  }

  lemma OddIsLast(layers: nat, start: pos, pp: pos)
    requires InChain(start, pp) && pp % 2 == 1 && NoneLarger(layers, start, pp) && Last(layers, pp) <= 0
    ensures forall q: pos :: InChain(start, q) ==> Last(layers, q) <= 0
  {
    forall q: pos | InChain(start, q) ensures Last(layers, q) <= 0 {
      if q < pp {
        ChainComparable(start, pp, q);
        ChainStep(pp, q);
      }
    }
  }

  // _configure_pipeline_parallel
  method ConfigurePipelineParallel(a: Args) returns (result: Result<Split, SplitError>)
    ensures a.pp > a.layers <==> result == Err(MoreStagesThanLayers)
    ensures a.pp <= a.layers && !Automatic(a) ==> result == Ok(Split(a.pp, None))
    ensures Automatic(a) ==> a.world / a.ep > 0
    ensures a.pp <= a.layers && Automatic(a) ==>
      match result
      case Err(e) => e == NoValidSize && forall q: pos :: InChain(a.world / a.ep, q) ==> Last(a.layers, q) <= 0
      case Ok(split) =>
        && split.pp > 0 && InChain(a.world / a.ep, split.pp) && NoneLarger(a.layers, a.world / a.ep, split.pp)
        && split.lastLayers == Some(Last(a.layers, split.pp)) && 1 <= Last(a.layers, split.pp)
  {
    if a.pp > a.layers { return Err(MoreStagesThanLayers); }
    if !Automatic(a) { return Ok(Split(a.pp, None)); }
    StagesDivideWorld(a.world, a.ep, 1);
    var start: pos := a.world / a.ep;
    var ppSize: pos := start;
    forall q: pos | InChain(start, q) ensures q <= start { ChainDivides(start, q); }
    while true
      invariant InChain(start, ppSize) && NoneLarger(a.layers, start, ppSize)
      decreases ppSize
    {
      var lastLayers := a.layers - CeilDiv(a.layers, ppSize) * (ppSize - 1);
      if lastLayers > 0 {
        return Ok(Split(ppSize, Some(lastLayers)));
      }
      if ppSize % 2 == 0 {
        HalvingKeeps(a.layers, start, ppSize);
        ppSize := ppSize / 2;
      } else {
        OddIsLast(a.layers, start, ppSize);
        return Err(NoValidSize);
      }
    }
  }

  // What a chosen split promises: the stages hold all layers, the last one at least one and no more than the others,
  // and the stages times the expert groups divide the world.
  lemma ChosenSplitWorks(a: Args, pp: pos)
    requires Automatic(a) && a.world / a.ep > 0 && InChain(a.world / a.ep, pp) && Last(a.layers, pp) >= 1
    ensures CeilDiv(a.layers, pp) * (pp - 1) + Last(a.layers, pp) == a.layers
    ensures 1 <= Last(a.layers, pp) <= CeilDiv(a.layers, pp)
    ensures pp * a.ep > 0 && a.world % (pp * a.ep) == 0
  {
    StagesDivideWorld(a.world, a.ep, pp);
  }

  predicate PowerOfTwo(p: pos) {
    p == 1 || (p % 2 == 0 && PowerOfTwo(p / 2))
  }

  // With a power of two of expert groups the search always ends: it can fall back to a single stage.
  lemma {:induction false} PowerOfTwoReachesOne(p: pos)
    requires PowerOfTwo(p)
    ensures InChain(p, 1)
  {
    if p != 1 { PowerOfTwoReachesOne(p / 2); }
  }

  lemma PowerOfTwoNeverFails(a: Args)
    requires a.pp <= a.layers && Automatic(a) && a.world / a.ep > 0 && PowerOfTwo(a.world / a.ep)
    ensures exists q: pos :: InChain(a.world / a.ep, q) && Last(a.layers, q) > 0
  {
    PowerOfTwoReachesOne(a.world / a.ep);
    assert Last(a.layers, 1) == a.layers;
  }
}
