/** Stable sorting by a total preorder, and Python's ordering of strings and tuples of strings. */
module Sorting {

  ghost predicate TotalPreorder<T(!new)>(le: (T, T) -> bool) {
    && (forall x, y :: le(x, y) || le(y, x))
    && (forall x, y, z :: le(x, y) && le(y, z) ==> le(x, z))
  }

  ghost predicate Ordered<T>(s: seq<T>, le: (T, T) -> bool) {
    forall i, j :: 0 <= i < j < |s| ==> le(s[i], s[j])
  }

  function Insert<T>(x: T, s: seq<T>, le: (T, T) -> bool): seq<T> {
    if s == [] then [x]
    else if le(x, s[0]) then [x] + s
    else [s[0]] + Insert(x, s[1..], le)
  }

  function Sort<T>(s: seq<T>, le: (T, T) -> bool): seq<T> {
    if s == [] then [] else Insert(s[0], Sort(s[1..], le), le)
  }

  lemma {:induction false} InsertPermutes<T>(x: T, s: seq<T>, le: (T, T) -> bool)
    ensures multiset(Insert(x, s, le)) == multiset{x} + multiset(s)
  {
    if s != [] {
      assert s == [s[0]] + s[1..];
      InsertPermutes(x, s[1..], le);
    }
  }

  lemma {:induction false} SortPermutes<T>(s: seq<T>, le: (T, T) -> bool)
    ensures multiset(Sort(s, le)) == multiset(s)
    ensures |Sort(s, le)| == |s|
  {
    if s != [] {
      assert s == [s[0]] + s[1..];
      SortPermutes(s[1..], le);
      InsertPermutes(s[0], Sort(s[1..], le), le);
    }
    assert |multiset(Sort(s, le))| == |multiset(s)|;
  }

  lemma SortMembers<T>(s: seq<T>, le: (T, T) -> bool)
    ensures forall x :: x in Sort(s, le) <==> x in s
  {
    SortPermutes(s, le);
    forall x ensures x in Sort(s, le) <==> x in s {
      assert x in Sort(s, le) <==> x in multiset(Sort(s, le));
      assert x in s <==> x in multiset(s);
    }
  }

  lemma {:induction false} InsertKeepsOrder<T(!new)>(x: T, s: seq<T>, le: (T, T) -> bool)
    requires TotalPreorder(le) && Ordered(s, le)
    ensures Ordered(Insert(x, s, le), le)
  {
    if s != [] && !le(x, s[0]) {
      InsertKeepsOrder(x, s[1..], le);
      InsertPermutes(x, s[1..], le);
      var rest := Insert(x, s[1..], le);
      forall y | y in rest ensures le(s[0], y) {
        assert y in multiset(rest);
        assert y == x || y in s[1..];
      }
    }
  }

  lemma {:induction false} SortOrders<T(!new)>(s: seq<T>, le: (T, T) -> bool)
    requires TotalPreorder(le)
    ensures Ordered(Sort(s, le), le)
  {
    if s != [] {
      SortOrders(s[1..], le);
      InsertKeepsOrder(s[0], Sort(s[1..], le), le);
    }
  }

  lemma HeadIsLeast<T(!new)>(s: seq<T>, x: T, le: (T, T) -> bool)
    requires TotalPreorder(le) && Ordered(s, le) && x in multiset(s)
    ensures s != [] && le(s[0], x)
  {
    var i :| 0 <= i < |s| && s[i] == x;
    assert i == 0 ==> le(x, x);
  }

  ghost predicate Antisymmetric<T(!new)>(le: (T, T) -> bool) {
    forall x, y :: le(x, y) && le(y, x) ==> x == y
  }

  lemma TailsAgree<T>(a: seq<T>, b: seq<T>)
    requires a != [] && b != [] && a[0] == b[0] && multiset(a) == multiset(b)
    ensures multiset(a[1..]) == multiset(b[1..])
  {
    assert a == [a[0]] + a[1..] && b == [b[0]] + b[1..];
    assert multiset(a[1..]) == multiset(a) - multiset{a[0]};
    assert multiset(b[1..]) == multiset(b) - multiset{b[0]};
  }

  function ByNumber<T>(number: T -> int): (T, T) -> bool {
    (x: T, y: T) => number(x) <= number(y)
  }

  lemma ByNumberIsPreorder<T(!new)>(number: T -> int)
    ensures TotalPreorder(ByNumber(number))
  {
  }

  lemma HeadsAgree<T(!new)>(a: seq<T>, b: seq<T>, number: T -> int)
    requires Ordered(a, ByNumber(number)) && Ordered(b, ByNumber(number)) && multiset(a) == multiset(b)
    requires forall x, y :: x in a && y in a && number(x) == number(y) ==> x == y
    requires a != []
    ensures b != [] && a[0] == b[0]
  {
    ByNumberIsPreorder(number);
    assert a[0] in multiset(a);
    HeadIsLeast(b, a[0], ByNumber(number));
    assert b[0] in multiset(b);
    HeadIsLeast(a, b[0], ByNumber(number));
    assert b[0] in a;
  }

  /** Elements with distinct numbers have only one arrangement by number. */
  lemma {:induction false} NumberedArrangementIsUnique<T(!new)>(a: seq<T>, b: seq<T>, number: T -> int)
    requires Ordered(a, ByNumber(number)) && Ordered(b, ByNumber(number)) && multiset(a) == multiset(b)
    requires forall x, y :: x in a && y in a && number(x) == number(y) ==> x == y
    ensures a == b
  {
    if a == [] {
      assert |multiset(b)| == 0;
    } else {
      HeadsAgree(a, b, number);
      TailsAgree(a, b);
      assert forall x :: x in a[1..] ==> x in a;
      NumberedArrangementIsUnique(a[1..], b[1..], number);
      assert a == [a[0]] + a[1..] && b == [b[0]] + b[1..];
    }
  }

  /** Lexicographic comparison: an exhausted sequence comes first. */
  predicate LexLe<T(==)>(a: seq<T>, b: seq<T>, le: (T, T) -> bool) {
    a == [] || (b != [] && (if a[0] == b[0] then LexLe(a[1..], b[1..], le) else le(a[0], b[0])))
  }

  lemma {:induction false} LexTotal<T(!new)>(a: seq<T>, b: seq<T>, le: (T, T) -> bool)
    requires TotalPreorder(le)
    ensures LexLe(a, b, le) || LexLe(b, a, le)
  {
    if a != [] && b != [] && a[0] == b[0] {
      LexTotal(a[1..], b[1..], le);
    }
  }

  lemma {:induction false} LexTransitive<T(!new)>(a: seq<T>, b: seq<T>, c: seq<T>, le: (T, T) -> bool)
    requires TotalPreorder(le)
    requires Antisymmetric(le)
    requires LexLe(a, b, le) && LexLe(b, c, le)
    ensures LexLe(a, c, le)
  {
    if a != [] && a[0] == b[0] == c[0] {
      LexTransitive(a[1..], b[1..], c[1..], le);
    }
  }

  lemma {:induction false} LexAntisymmetric<T(!new)>(a: seq<T>, b: seq<T>, le: (T, T) -> bool)
    requires Antisymmetric(le)
    requires LexLe(a, b, le) && LexLe(b, a, le)
    ensures a == b
  {
    if a != [] && b != [] {
      assert a[0] == b[0];
      LexAntisymmetric(a[1..], b[1..], le);
      assert a == [a[0]] + a[1..] && b == [b[0]] + b[1..];
    }
  }

  predicate CharLe(a: char, b: char) {
    a <= b
  }

  predicate StringLe(a: string, b: string) {
    LexLe(a, b, CharLe)
  }

  predicate TupleLe(a: seq<string>, b: seq<string>) {
    LexLe(a, b, StringLe)
  }

  lemma StringLeIsOrder()
    ensures TotalPreorder(StringLe)
    ensures Antisymmetric(StringLe)
  {
    forall x, y ensures StringLe(x, y) || StringLe(y, x) {
      LexTotal(x, y, CharLe);
    }
    forall x, y, z | StringLe(x, y) && StringLe(y, z) ensures StringLe(x, z) {
      LexTransitive(x, y, z, CharLe);
    }
    forall x, y | StringLe(x, y) && StringLe(y, x) ensures x == y {
      LexAntisymmetric(x, y, CharLe);
    }
  }

  lemma TupleLeIsOrder()
    ensures TotalPreorder(TupleLe)
  {
    StringLeIsOrder();
    forall x, y ensures TupleLe(x, y) || TupleLe(y, x) {
      LexTotal(x, y, StringLe);
    }
    forall x, y, z | TupleLe(x, y) && TupleLe(y, z) ensures TupleLe(x, z) {
      LexTransitive(x, y, z, StringLe);
    }
  }
}
