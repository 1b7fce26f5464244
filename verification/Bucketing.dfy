/** Insertion-ordered grouping by a tag: the `setdefault(tag, []).append(item)` loop. */
module Bucketing {
  import opened Sequences

  /** The labels in the order in which they are first met. */
  function Labels<T, K(==)>(s: seq<T>, tag: T -> K): seq<K> {
    if s == [] then []
    else
      var front, last := Labels(s[..|s| - 1], tag), tag(s[|s| - 1]);
      if last in front then front else front + [last]
  }

  /** The items carrying a tag, in order. */
  function Members<T, K(==)>(s: seq<T>, tag: T -> K, k: K): seq<T> {
    if s == [] then []
    else
      var front, last := Members(s[..|s| - 1], tag, k), s[|s| - 1];
      if tag(last) == k then front + [last] else front
  }

  method Bucket<T, K(==)>(s: seq<T>, tag: T -> K) returns (order: seq<K>, buckets: map<K, seq<T>>)
    ensures order == Labels(s, tag)
    ensures forall k :: k in buckets <==> k in order
    ensures forall k :: k in buckets ==> buckets[k] == Members(s, tag, k)
  {
    order, buckets := [], map[];
    for i := 0 to |s|
      invariant order == Labels(s[..i], tag)
      invariant forall k :: k in buckets <==> k in order
      invariant forall k :: k in buckets ==> buckets[k] == Members(s[..i], tag, k)
    {
      var k := tag(s[i]);
      assert s[..i + 1][..i] == s[..i];
      NoMembersWithoutLabel(s[..i], tag, k);
      if k !in buckets {
        order := order + [k];
        buckets := buckets[k := []];
      }
      buckets := buckets[k := buckets[k] + [s[i]]];
    }
    assert s[..|s|] == s;
  }

  lemma {:induction false} NoMembersWithoutLabel<T, K>(s: seq<T>, tag: T -> K, k: K)
    ensures k !in Labels(s, tag) ==> Members(s, tag, k) == []
  {
    if s != [] {
      NoMembersWithoutLabel(s[..|s| - 1], tag, k);
    }
  }

  lemma {:induction false} LabelsAreDistinct<T, K>(s: seq<T>, tag: T -> K)
    ensures Distinct(Labels(s, tag))
  {
    if s != [] {
      LabelsAreDistinct(s[..|s| - 1], tag);
    }
  }

  lemma {:induction false} LabelsAreComplete<T, K>(s: seq<T>, tag: T -> K)
    ensures forall x :: x in s ==> tag(x) in Labels(s, tag)
    ensures forall k :: k in Labels(s, tag) ==> exists x :: x in s && tag(x) == k
  {
    if s != [] {
      var front := s[..|s| - 1];
      LabelsAreComplete(front, tag);
      assert s == front + [s[|s| - 1]];
      forall k | k in Labels(s, tag) ensures exists x :: x in s && tag(x) == k {
        if k in Labels(front, tag) {
          var x :| x in front && tag(x) == k;
          assert x in s;
        } else {
          assert s[|s| - 1] in s;
        }
      }
    }
  }

  lemma {:induction false} MembersCarryLabel<T, K>(s: seq<T>, tag: T -> K, k: K)
    ensures forall x :: x in Members(s, tag, k) <==> x in s && tag(x) == k
  {
    if s != [] {
      MembersCarryLabel(s[..|s| - 1], tag, k);
      assert s == s[..|s| - 1] + [s[|s| - 1]];
    }
  }

  lemma MembersAreNonEmpty<T, K>(s: seq<T>, tag: T -> K, k: K)
    requires k in Labels(s, tag)
    ensures Members(s, tag, k) != []
  {
    LabelsAreComplete(s, tag);
    MembersCarryLabel(s, tag, k);
    var x :| x in s && tag(x) == k;
    assert x in Members(s, tag, k);
  }

  /** The weight of the buckets whose labels are listed. */
  function Total<T, K(==)>(order: seq<K>, s: seq<T>, tag: T -> K, weight: T -> int): int {
    if order == [] then 0
    else SumOf(Members(s, tag, order[0]), weight) + Total(order[1..], s, tag, weight)
  }

  /** Adding an item changes only its own bucket. */
  lemma {:induction false} TotalOfOneMore<T, K>(order: seq<K>, s: seq<T>, x: T, tag: T -> K, weight: T -> int)
    requires Distinct(order)
    ensures Total(order, s + [x], tag, weight) ==
            Total(order, s, tag, weight) + if tag(x) in order then weight(x) else 0
  {
    if order != [] {
      var k := order[0];
      TotalOfOneMore(order[1..], s, x, tag, weight);
      assert (s + [x])[..|s|] == s;
      SumOfConcat(Members(s, tag, k), [x], weight);
      assert [x][1..] == [];
      assert tag(x) in order <==> tag(x) == k || tag(x) in order[1..];
    }
  }

  lemma TotalConcat<T, K>(a: seq<K>, b: seq<K>, s: seq<T>, tag: T -> K, weight: T -> int)
    ensures Total(a + b, s, tag, weight) == Total(a, s, tag, weight) + Total(b, s, tag, weight)
  {
    if a == [] {
      assert a + b == b;
    } else {
      assert (a + b)[1..] == a[1..] + b;
      TotalConcat(a[1..], b, s, tag, weight);
    }
  }

  /** The buckets together weigh as much as the items: nothing is lost, nothing is filed twice. */
  lemma {:induction false} BucketsConserve<T, K>(s: seq<T>, tag: T -> K, weight: T -> int)
    ensures Total(Labels(s, tag), s, tag, weight) == SumOf(s, weight)
  {
    if s != [] {
      var front, x := s[..|s| - 1], s[|s| - 1];
      assert s == front + [x];
      BucketsConserve(front, tag, weight);
      LabelsAreDistinct(front, tag);
      SumOfConcat(front, [x], weight);
      assert [x][1..] == [];
      var order := Labels(front, tag);
      if tag(x) in order {
        TotalOfOneMore(order, front, x, tag, weight);
      } else {
        LabelsAreDistinct(s, tag);
        TotalOfOneMore(order + [tag(x)], front, x, tag, weight);
        TotalConcat(order, [tag(x)], front, tag, weight);
        NoMembersWithoutLabel(front, tag, tag(x));
        assert Total([tag(x)], front, tag, weight) == 0 by {
          assert [tag(x)][1..] == [];
        }
      }
    }
  }
}
