// serve_tinker.py: the longest datum a trainer accepts and the longest sequence an engine may sample, against what
// the trainer does with a datum (slice_with_cp in context_parallel.py, the padding of data/rollout.py).
module TokenLimit {
  import opened Arithmetic
  import opened Wrappers

  // ---- what the trainer does with a datum of `tokens` tokens ----

  // slice_with_cp: the zigzag chunks have equal length, two of them go to every rank.
  function ChunkSize(tokens: nat, cp: pos): nat {
    CeilDiv(tokens, 2 * cp)
  }

  function RankShare(tokens: nat, cp: pos): nat {
    if cp == 1 then tokens else 2 * ChunkSize(tokens, cp)
  }

  // A rank's stream is padded to a multiple of pad.
  function Padded(tokens: nat, pad: pos): nat {
    tokens + (pad - tokens % pad) % pad
  }

  predicate Fits(tokens: nat, cp: pos, pad: pos, budget: nat) {
    Padded(RankShare(tokens, cp), pad) <= budget
  }

  // Position p of the padded datum is in one of the two slices of a rank.
  predicate Holds(tokens: nat, cp: pos, rank: nat, p: nat) {
    var chunk := ChunkSize(tokens, cp);
    || chunk * rank <= p < chunk * (rank + 1)
    || chunk * (2 * cp - rank - 1) <= p < chunk * (2 * cp - rank)
  }

  // ---- the limits ----

  function LocalLimit(budget: nat, pad: pos, cp: pos): nat {
    var blocks := budget / pad * pad;
    if cp > 1 then blocks - blocks % 2 else blocks
  }

  function TrainerLimit(budget: nat, pad: pos, cp: pos): nat {
    LocalLimit(budget, pad, cp) * cp
  }

  lemma CeilDivIff(n: nat, d: pos, q: nat)
    ensures CeilDiv(n, d) <= q <==> n <= q * d
  {
    var c := CeilDiv(n, d);
    assert n + d - 1 == c * d + (n + d - 1) % d;
    MulMonotone(c, q, d);
    MulMonotone(q + 1, c, d);
    assert (q + 1) * d == q * d + d;
  }

  // Padding stays within the budget exactly when the stream fits the whole blocks of the budget.
  lemma PaddedIff(tokens: nat, pad: pos, budget: nat)
    ensures Padded(tokens, pad) <= budget <==> tokens <= budget / pad * pad
  {
    var c := CeilDiv(tokens, pad);
    PaddedIsCeil(tokens, pad);
    CeilDivIff(tokens, pad, budget / pad);
    assert budget == budget / pad * pad + budget % pad;
    MulMonotone(c, budget / pad, pad);
    MulMonotone(budget / pad + 1, c, pad);
    assert (budget / pad + 1) * pad == budget / pad * pad + pad;
  }

  lemma PaddedIsCeil(tokens: nat, pad: pos)
    ensures Padded(tokens, pad) == CeilDiv(tokens, pad) * pad
  {
    var q, m := tokens / pad, tokens % pad;
    assert tokens == q * pad + m;
    if m == 0 {
      DivisionIsUnique(pad, pad, 1, 0);
      DivisionIsUnique(tokens + pad - 1, pad, q, pad - 1);
    } else {
      DivisionIsUnique(pad - m, pad, 0, pad - m);
      DivisionIsUnique(tokens + pad - 1, pad, q + 1, m - 1);
      assert (q + 1) * pad == q * pad + pad;
    }
  }

  lemma ShareIff(tokens: nat, cp: pos, blocks: nat)
    ensures RankShare(tokens, cp) <= blocks <==> tokens <= (if cp > 1 then blocks - blocks % 2 else blocks) * cp
  {
    if cp > 1 {
      CeilDivIff(tokens, 2 * cp, blocks / 2);
      assert blocks / 2 * (2 * cp) == (blocks - blocks % 2) * cp by {
        assert blocks - blocks % 2 == blocks / 2 * 2;
      }
    }
  }

  // The limit is exact: a datum fits the token budget of every rank if and only if it is no longer than the limit,
  // for odd and even padding multiples alike.
  lemma TrainerLimitIsExact(tokens: nat, cp: pos, pad: pos, budget: nat)
    ensures Fits(tokens, cp, pad, budget) <==> tokens <= TrainerLimit(budget, pad, cp)
  {
    PaddedIff(RankShare(tokens, cp), pad, budget);
    ShareIff(tokens, cp, budget / pad * pad);
  }

  // The rank that holds a position of the padded datum.
  function Owner(tokens: nat, cp: pos, p: nat): int {
    var chunk := ChunkSize(tokens, cp);
    if chunk == 0 then 0
    else if p / chunk < cp then p / chunk
    else 2 * cp - 1 - p / chunk
  }

  // With context parallelism every position of the padded datum is held by exactly one rank.
  lemma HoldsIff(tokens: nat, cp: pos, rank: nat, p: nat)
    requires rank < cp && p < 2 * cp * ChunkSize(tokens, cp)
    ensures Holds(tokens, cp, rank, p) <==> rank == Owner(tokens, cp, p)
    ensures 0 <= Owner(tokens, cp, p) < cp
  {
    var chunk := ChunkSize(tokens, cp);
    InChunk(p, chunk, rank);
    InChunk(p, chunk, 2 * cp - rank - 1);
    ChunkBelow(p, chunk, 2 * cp);
  }

  lemma InChunk(p: nat, chunk: nat, j: nat)
    requires chunk > 0
    ensures chunk * j <= p < chunk * (j + 1) <==> p / chunk == j
  {
    assert p == p / chunk * chunk + p % chunk;
    if chunk * j <= p < chunk * (j + 1) {
      assert chunk * (j + 1) == chunk * j + chunk;
      DivisionIsUnique(p, chunk, j, p - chunk * j);
    }
  }

  lemma ChunkBelow(p: nat, chunk: nat, n: nat)
    requires chunk > 0 && p < n * chunk
    ensures p / chunk < n
  {
    assert p == p / chunk * chunk + p % chunk;
    MulMonotone(n, p / chunk, chunk);
  }

  // The shares of all ranks are as long as the datum and less than 2 * cp positions longer.
  lemma SharesHoldDatum(tokens: nat, cp: pos)
    ensures tokens <= 2 * cp * ChunkSize(tokens, cp) < tokens + 2 * cp
  {
    var d := 2 * cp;
    assert tokens + d - 1 == ChunkSize(tokens, cp) * d + (tokens + d - 1) % d;
  }

  // So every token of a datum is in the slices of exactly one rank.
  lemma TokenOnOneRank(tokens: nat, cp: pos, p: nat)
    requires p < tokens
    ensures 0 <= Owner(tokens, cp, p) < cp
    ensures forall rank: nat :: rank < cp ==> (Holds(tokens, cp, rank, p) <==> rank == Owner(tokens, cp, p))
  {
    SharesHoldDatum(tokens, cp);
    HoldsIff(tokens, cp, 0, p);
    forall rank: nat | rank < cp ensures Holds(tokens, cp, rank, p) <==> rank == Owner(tokens, cp, p) {
      HoldsIff(tokens, cp, rank, p);
    }
  }

  // ---- serve ----

  // SGLang turns away inputs with min(context_len - 1, kv_capacity - 1) - 5 tokens or more.
  predicate Accepts(tokens: nat, contextLength: nat, kvCapacity: nat) {
    tokens < (if contextLength < kvCapacity then contextLength else kvCapacity) - 1 - 5
  }

  function Window(maxPositions: nat, contextLength: Option<nat>): nat {
    if contextLength.Some? && contextLength.value > 0 then contextLength.value else maxPositions
  }

  datatype Limits = Limits(perDatum: nat, perSample: int)

  // The trainer's part of the datum limit.
  method TrainerTokens(budget: nat, padSize: pos, cp: pos) returns (trainerTokenLimit: nat)
    ensures forall n: nat :: Fits(n, cp, padSize, budget) <==> n <= trainerTokenLimit
  {
    var localTokenLimit := budget / padSize * padSize;
    if cp > 1 {
      localTokenLimit := localTokenLimit - localTokenLimit % 2;
    }
    trainerTokenLimit := localTokenLimit * cp;
    forall n: nat ensures Fits(n, cp, padSize, budget) <==> n <= trainerTokenLimit {
      TrainerLimitIsExact(n, cp, padSize, budget);
    }
  }

  // The part of serve that fixes both limits; None is the failed assertion.
  method ComputeLimits(
    maxPositions: nat, budget: Option<nat>, tp: pos, multiplier: pos, cp: pos, contextLength: Option<nat>)
    returns (limits: Option<Limits>)
    ensures limits.None? <==>
      maxPositions == 0 || (budget.Some? && forall n: nat :: n > 0 ==> !Fits(n, cp, tp * multiplier, budget.value))
    ensures limits.Some? ==> forall n: nat ::
      n <= limits.value.perDatum <==>
      n <= maxPositions && (budget.Some? ==> Fits(n, cp, tp * multiplier, budget.value))
    ensures limits.Some? ==> forall n: nat, kvCapacity: nat ::
      Window(maxPositions, contextLength) <= kvCapacity ==>
        (Accepts(n, Window(maxPositions, contextLength), kvCapacity) && n <= limits.value.perDatum
         <==> n <= limits.value.perSample)
  {
    var maxTokensPerDatum := maxPositions;
    if budget.Some? {
      var trainerTokenLimit := TrainerTokens(budget.value, tp * multiplier, cp);
      maxTokensPerDatum := if trainerTokenLimit < maxTokensPerDatum then trainerTokenLimit else maxTokensPerDatum;
    }
    if maxTokensPerDatum == 0 {
      return None;
    }
    assert budget.Some? ==> Fits(1, cp, tp * multiplier, budget.value);
    var window := Window(maxPositions, contextLength);
    var maxTokensPerSample := if maxTokensPerDatum < window - 7 then maxTokensPerDatum else window - 7;
    limits := Some(Limits(maxTokensPerDatum, maxTokensPerSample));
  }
}
