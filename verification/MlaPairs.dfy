/** The grouping name that keeps a layer's query and key-value down projections together
    (tools/convert_torch_dist_to_hf_ray.py, lines 725-729). */
module MlaPairs {
  import opened Strings

  const ATTENTION := "self_attention."
  const WEIGHT := "weight"
  const QUERY_DOWN := ATTENTION + "linear_q_down_proj." + WEIGHT
  const KEY_VALUE_DOWN := ATTENTION + "linear_kv_down_proj." + WEIGHT
  const PAIR := ATTENTION + "MLA_A_PAIR." + WEIGHT

  function MlaPairGroup(key: string): string {
    ReplaceAll(ReplaceAll(key, QUERY_DOWN, PAIR), KEY_VALUE_DOWN, PAIR)
  }

  lemma NoStraddle(text: string, tail: string, old_: string)
    requires old_ != [] && old_[0] !in old_[1..]
    requires text != [] && tail != [] && tail[0] == old_[0]
    requires |text + tail| >= |old_| && (text + tail)[..|old_|] == old_
    ensures |old_| <= |text|
  {
    assert (text + tail)[|text|] == old_[0];
    assert forall k :: 0 <= k < |old_| ==> old_[k] == (text + tail)[k];
  }

  /** A pattern whose first character does not recur in it cannot match across the start of `tail`,
      when `tail` starts with that same character. */
  lemma {:induction false} ReplaceSplits(text: string, tail: string, old_: string, new_: string)
    requires old_ != [] && old_[0] !in old_[1..]
    requires tail != [] && tail[0] == old_[0]
    ensures ReplaceAll(text + tail, old_, new_) == ReplaceAll(text, old_, new_) + ReplaceAll(tail, old_, new_)
  {
    var all, n := text + tail, |old_|;
    if text == [] {
      assert all == tail;
    } else if |all| >= n && all[..n] == old_ {
      NoStraddle(text, tail, old_);
      assert text[..n] == all[..n];
      assert all[n..] == text[n..] + tail;
      ReplaceSplits(text[n..], tail, old_, new_);
    } else if |all| < n {
      assert ReplaceAll(text, old_, new_) == text && ReplaceAll(tail, old_, new_) == tail;
    } else {
      assert all[1..] == text[1..] + tail;
      ReplaceSplits(text[1..], tail, old_, new_);
      if |text| >= n {
        assert text[..n] == all[..n];
      } else {
      }
    }
  }

  lemma {:induction false} ReplaceAbsent(text: string, old_: string, new_: string)
    requires old_ != [] && old_[0] !in text
    ensures ReplaceAll(text, old_, new_) == text
  {
    if |text| >= |old_| {
      assert text[0] in text;
      assert old_[0] !in text[1..];
      ReplaceAbsent(text[1..], old_, new_);
    }
  }

  lemma ReplaceWhole(old_: string, new_: string)
    requires old_ != []
    ensures ReplaceAll(old_, old_, new_) == new_
  {
    assert old_[..|old_|] == old_ && old_[|old_|..] == [];
    assert ReplaceAll([], old_, new_) == [];
  }

  lemma ReplaceOther(tail: string, old_: string, new_: string)
    requires old_ != [] && tail != [] && old_[0] !in tail[1..]
    requires !(|tail| >= |old_| && tail[..|old_|] == old_)
    ensures ReplaceAll(tail, old_, new_) == tail
  {
    if |tail| >= |old_| {
      ReplaceAbsent(tail[1..], old_, new_);
    }
  }

  /** Whatever precedes them in the key, the two projections of a layer get the same group name. */
  lemma PairShareGroup(prefix: string)
    ensures MlaPairGroup(prefix + QUERY_DOWN) == MlaPairGroup(prefix + KEY_VALUE_DOWN)
  {
    GroupsOfPair(prefix, QUERY_DOWN, KEY_VALUE_DOWN, PAIR, |ATTENTION| + |"linear_"|);
  }

  /** Two patterns that differ at position `k`, neither of which recurs in itself or in what replaces them. */
  lemma GroupsOfPair(prefix: string, q: string, kv: string, pair: string, k: nat)
    requires k < |q| < |kv| && 0 < |pair| < |kv|
    requires q[0] == kv[0] == pair[0]
    requires q[0] !in q[1..] && kv[0] !in kv[1..] && pair[0] !in pair[1..]
    requires q[k] != kv[k]
    ensures ReplaceAll(ReplaceAll(prefix + q, q, pair), kv, pair) ==
            ReplaceAll(ReplaceAll(prefix + kv, q, pair), kv, pair)
  {
    var p := ReplaceAll(prefix, q, pair);
    ReplaceSplits(prefix, q, q, pair);
    ReplaceWhole(q, pair);
    ReplaceSplits(prefix, kv, q, pair);
    assert kv[..|q|][k] != q[k];
    ReplaceOther(kv, q, pair);
    ReplaceSplits(p, pair, kv, pair);
    ReplaceOther(pair, kv, pair);
    ReplaceSplits(p, kv, kv, pair);
    ReplaceWhole(kv, pair);
  }
}
