// The relational shape of every read of the store: keep the rows a WHERE
// clause accepts, order them by an ORDER BY, then cut an OFFSET/LIMIT page.

module SeqQuery {

  /** Every pair of rows is comparable. */
  ghost predicate Total<T(!new)>(precedes: (T, T) -> bool)
  {
    forall a: T, b: T :: precedes(a, b) || precedes(b, a)
  }

  ghost predicate Transitive<T(!new)>(precedes: (T, T) -> bool)
  {
    forall a: T, b: T, c: T :: precedes(a, b) && precedes(b, c) ==> precedes(a, c)
  }

  /** An ORDER BY relation: a total preorder on rows. */
  ghost predicate Ordering<T(!new)>(precedes: (T, T) -> bool)
  {
    Total(precedes) && Transitive(precedes)
  }

  ghost predicate Sorted<T(!new)>(s: seq<T>, precedes: (T, T) -> bool)
  {
    forall i, j :: 0 <= i < j < |s| ==> precedes(s[i], s[j])
  }

  /** WHERE: the rows that `keep` accepts, in their original order. */
  function Filter<T(!new)>(s: seq<T>, keep: T -> bool): (r: seq<T>)
    ensures |r| <= |s|
    ensures forall x :: x in r <==> x in s && keep(x)
    ensures multiset(r) <= multiset(s)
  {
    if s == [] then []
    else
      var rest := Filter(s[1..], keep);
      assert s == [s[0]] + s[1..];
      if keep(s[0]) then [s[0]] + rest else rest
  }

  /** Two WHERE clauses that accept the same rows give the same result. */
  lemma {:induction false} FilterSame<T(!new)>(s: seq<T>, f: T -> bool, g: T -> bool)
    requires forall x :: f(x) == g(x)
    ensures Filter(s, f) == Filter(s, g)
  {
    if s != [] {
      FilterSame(s[1..], f, g);
    }
  }

  function Insert<T(!new)>(x: T, s: seq<T>, precedes: (T, T) -> bool): (r: seq<T>)
    ensures multiset(r) == multiset(s) + multiset{x}
  {
    if s == [] then [x]
    else if precedes(x, s[0]) then [x] + s
    else
      assert s == [s[0]] + s[1..];
      [s[0]] + Insert(x, s[1..], precedes)
  }

  /** ORDER BY: the rows rearranged so that each precedes every later one. */
  function SortBy<T(!new)>(s: seq<T>, precedes: (T, T) -> bool): (r: seq<T>)
    ensures multiset(r) == multiset(s)
  {
    if s == [] then []
    else
      assert s == [s[0]] + s[1..];
      Insert(s[0], SortBy(s[1..], precedes), precedes)
  }

  lemma {:induction false} InsertSorted<T(!new)>(x: T, s: seq<T>, precedes: (T, T) -> bool)
    requires Ordering(precedes) && Sorted(s, precedes)
    ensures Sorted(Insert(x, s, precedes), precedes)
  {
    if s != [] && !precedes(x, s[0]) {
      var tail := Insert(x, s[1..], precedes);
      InsertSorted(x, s[1..], precedes);
      assert precedes(s[0], x);
      forall y | y in tail ensures precedes(s[0], y) {
        assert y in multiset(tail);
        if y != x {
          assert y in multiset(s[1..]);
          assert y in s[1..];
        }
      }
      var r := [s[0]] + tail;
      forall i, j | 0 <= i < j < |r| ensures precedes(r[i], r[j]) {
        if i == 0 {
          assert r[j] in tail;
        } else {
          assert r[i] == tail[i - 1] && r[j] == tail[j - 1];
        }
      }
    }
  }

  lemma {:induction false} SortBySorted<T(!new)>(s: seq<T>, precedes: (T, T) -> bool)
    requires Ordering(precedes)
    ensures Sorted(SortBy(s, precedes), precedes)
  {
    if s != [] {
      SortBySorted(s[1..], precedes);
      InsertSorted(s[0], SortBy(s[1..], precedes), precedes);
    }
  }

  /** The head of a sorted result precedes every row of the input. */
  lemma SortByHeadFirst<T(!new)>(s: seq<T>, precedes: (T, T) -> bool)
    requires Ordering(precedes) && s != []
    ensures |SortBy(s, precedes)| == |s|
    ensures forall x :: x in s ==> precedes(SortBy(s, precedes)[0], x)
  {
    var r := SortBy(s, precedes);
    assert |r| == |multiset(r)| == |multiset(s)| == |s|;
    SortBySorted(s, precedes);
    forall x | x in s ensures precedes(r[0], x) {
      assert x in multiset(s);
      assert x in r;
    }
  }

  /** Ordering keeps exactly the rows it was given. */
  lemma SortByMembers<T(!new)>(s: seq<T>, precedes: (T, T) -> bool)
    ensures |SortBy(s, precedes)| == |s|
    ensures forall x :: x in SortBy(s, precedes) <==> x in s
  {
    var r := SortBy(s, precedes);
    assert |r| == |multiset(r)| == |multiset(s)| == |s|;
    forall x ensures x in r <==> x in s {
      assert x in r <==> x in multiset(r);
      assert x in s <==> x in multiset(s);
    }
  }

  /** OFFSET/LIMIT on a non-negative offset and limit. */
  function Page<T(!new)>(s: seq<T>, offset: nat, limit: nat): (r: seq<T>)
    ensures |r| == if offset >= |s| then 0 else if offset + limit <= |s| then limit else |s| - offset
    ensures forall i :: 0 <= i < |r| ==> r[i] == s[offset + i]
  {
    var lo := if offset < |s| then offset else |s|;
    var hi := if offset + limit < |s| then offset + limit else |s|;
    s[lo..hi]
  }

  /** `Map(f, s)`: the projection of every row, as a list comprehension. */
  function Map<T(!new), U>(f: T -> U, s: seq<T>): (r: seq<U>)
    ensures |r| == |s|
    ensures forall i :: 0 <= i < |s| ==> r[i] == f(s[i])
  {
    seq(|s|, i requires 0 <= i < |s| => f(s[i]))
  }

  /** The projection over a concatenation is the concatenation of the
      projections. */
  lemma MapAppend<T(!new), U>(f: T -> U, a: seq<T>, b: seq<T>)
    ensures Map(f, a + b) == Map(f, a) + Map(f, b)
  {
    assert forall i :: 0 <= i < |a + b| ==> Map(f, a + b)[i] == (Map(f, a) + Map(f, b))[i];
  }

  /** Consecutive pages concatenate to the page of both sizes. */
  lemma PagesTile<T(!new)>(s: seq<T>, offset: nat, l1: nat, l2: nat)
    ensures Page(s, offset, l1) + Page(s, offset + l1, l2) == Page(s, offset, l1 + l2)
  {
    var a := Page(s, offset, l1);
    var b := Page(s, offset + l1, l2);
    var c := Page(s, offset, l1 + l2);
    assert |a + b| == |c|;
    forall i | 0 <= i < |c| ensures (a + b)[i] == c[i] {
      if i >= |a| {
        assert (a + b)[i] == b[i - |a|];
      }
    }
  }

  /** The `for row in rows: result.append(f(row))` loop every query ends
      with. */
  method MapEach<T(!new), U>(f: T -> U, s: seq<T>) returns (r: seq<U>)
    ensures r == Map(f, s)
  {
    r := [];
    var i := 0;
    while i < |s|
      invariant 0 <= i <= |s|
      invariant |r| == i
      invariant forall j :: 0 <= j < i ==> r[j] == f(s[j])
    {
      r := r + [f(s[i])];
      i := i + 1;
    }
  }
}
