/** Sorted, duplicate-free listings of finite sets, and sorting followed by removal of equal
    neighbours. */
module Ordered {

  ghost predicate TotalOrder<T(!new)>(le: (T, T) -> bool) {
    && (forall a :: le(a, a))
    && (forall a, b :: le(a, b) && le(b, a) ==> a == b)
    && (forall a, b, c :: le(a, b) && le(b, c) ==> le(a, c))
    && (forall a, b :: le(a, b) || le(b, a))
  }

  ghost predicate Sorted<T(!new)>(s: seq<T>, le: (T, T) -> bool) {
    forall i, j :: 0 <= i < j < |s| ==> le(s[i], s[j])
  }

  /** Sorted without repetition. */
  ghost predicate Ascending<T(!new)>(s: seq<T>, le: (T, T) -> bool) {
    forall i, j :: 0 <= i < j < |s| ==> le(s[i], s[j]) && s[i] != s[j]
  }

  ghost function Elements<T>(s: seq<T>): set<T> {
    set x | x in s
  }

  lemma NoElements<T>(b: seq<T>)
    ensures Elements(b) == {} <==> b == []
  {
    if b != [] {
      assert b[0] in Elements(b);
    }
  }

  /** A sorted listing is determined by its elements. */
  lemma {:induction false} AscendingUnique<T(!new)>(a: seq<T>, b: seq<T>, le: (T, T) -> bool)
    requires TotalOrder(le) && Ascending(a, le) && Ascending(b, le) && Elements(a) == Elements(b)
    ensures a == b
  {
    if a == [] {
      NoElements(b);
    } else {
      assert a[0] in Elements(a);
      assert b != [] by {
        assert a[0] in Elements(b);
      }
      assert b[0] in Elements(b);
      SameHead(a, b, le);
      TailElements(a, le);
      TailElements(b, le);
      AscendingUnique(a[1..], b[1..], le);
      assert a == [a[0]] + a[1..] && b == [b[0]] + b[1..];
    }
  }

  lemma SameHead<T(!new)>(a: seq<T>, b: seq<T>, le: (T, T) -> bool)
    requires TotalOrder(le) && Ascending(a, le) && Ascending(b, le) && Elements(a) == Elements(b)
    requires a != [] && b != []
    ensures a[0] == b[0]
  {
    assert a[0] in Elements(b) && b[0] in Elements(a);
    var i :| 0 <= i < |b| && b[i] == a[0];
    var j :| 0 <= j < |a| && a[j] == b[0];
    assert le(b[0], b[i]) && le(a[0], a[j]);
  }

  lemma TailElements<T(!new)>(a: seq<T>, le: (T, T) -> bool)
    requires Ascending(a, le) && a != []
    ensures Elements(a[1..]) == Elements(a) - {a[0]} && Ascending(a[1..], le)
  {
    forall x | x in Elements(a) - {a[0]}
      ensures x in Elements(a[1..])
    {
      var i :| 0 <= i < |a| && a[i] == x;
      assert a[1..][i - 1] == x;
    }
    forall x | x in Elements(a[1..])
      ensures x in Elements(a) - {a[0]}
    {
      var i :| 0 <= i < |a[1..]| && a[1..][i] == x;
      assert a[i + 1] == x;
    }
  }

  // ----------------------------------------------------------- listing a set in order

  lemma Transits<T(!new)>(le: (T, T) -> bool, a: T, b: T, c: T)
    requires TotalOrder(le) && le(a, b) && le(b, c)
    ensures le(a, c)
  {
  }

  lemma Compares<T(!new)>(le: (T, T) -> bool, a: T, b: T)
    requires TotalOrder(le)
    ensures le(a, a) && (le(a, b) || le(b, a))
  {
  }

  lemma {:induction false} LeastExists<T(!new)>(s: set<T>, le: (T, T) -> bool)
    requires TotalOrder(le) && s != {}
    ensures exists m :: m in s && forall x :: x in s ==> le(m, x)
    decreases |s|
  {
    hide TotalOrder;
    var a :| a in s;
    var rest := s - {a};
    if rest == {} {
      Compares(le, a, a);
      assert s == {a} + rest;
    } else {
      LeastExists(rest, le);
      var b :| b in rest && forall x :: x in rest ==> le(b, x);
      Compares(le, a, b);
      Compares(le, b, b);
      var m := if le(a, b) then a else b;
      forall x | x in s
        ensures le(m, x)
      {
        Compares(le, a, a);
        if x != a && le(a, b) {
          Transits(le, a, b, x);
        }
      }
    }
  }

  function Least<T(!new,==)>(s: set<T>, le: (T, T) -> bool): (m: T)
    requires TotalOrder(le) && s != {}
    ensures m in s && forall x :: x in s ==> le(m, x)
  {
    LeastExists(s, le);
    var m :| m in s && forall x :: x in s ==> le(m, x);
    m
  }

  /** The elements of a finite set in increasing order. */
  function Listing<T(!new,==)>(s: set<T>, le: (T, T) -> bool): (r: seq<T>)
    requires TotalOrder(le)
    ensures Ascending(r, le) && Elements(r) == s && |r| == |s|
    decreases |s|
  {
    if s == {} then []
    else
      var m := Least(s, le);
      var rest := Listing(s - {m}, le);
      ListingCons(s, m, rest, le);
      [m] + rest
  }

  lemma ListingCons<T(!new)>(s: set<T>, m: T, rest: seq<T>, le: (T, T) -> bool)
    requires m in s && (forall x :: x in s ==> le(m, x))
    requires Ascending(rest, le) && Elements(rest) == s - {m} && |rest| == |s - {m}|
    ensures Ascending([m] + rest, le) && Elements([m] + rest) == s && |[m] + rest| == |s|
  {
    ElementsCons(m, rest);
    assert forall i :: 0 <= i < |rest| ==> rest[i] in Elements(rest);
  }

  // ------------------------------------------------------------- sort, then dedup

  function Insert<T(!new)>(x: T, s: seq<T>, le: (T, T) -> bool): seq<T> {
    if s == [] then [x]
    else if le(x, s[0]) then [x] + s
    else [s[0]] + Insert(x, s[1..], le)
  }

  function Sort<T(!new)>(s: seq<T>, le: (T, T) -> bool): seq<T> {
    if s == [] then [] else Insert(s[0], Sort(s[1..], le), le)
  }

  /** Keep the first of every group of equal neighbours. */
  function Dedup<T(!new,==)>(s: seq<T>): seq<T> {
    if |s| <= 1 then s
    else if s[0] == s[1] then Dedup(s[1..])
    else [s[0]] + Dedup(s[1..])
  }

  function SortDedup<T(!new,==)>(s: seq<T>, le: (T, T) -> bool): seq<T> {
    Dedup(Sort(s, le))
  }

  lemma {:induction false} InsertSorted<T(!new)>(x: T, s: seq<T>, le: (T, T) -> bool)
    requires TotalOrder(le) && Sorted(s, le)
    ensures Sorted(Insert(x, s, le), le) && Elements(Insert(x, s, le)) == Elements(s) + {x}
  {
    if s != [] && !le(x, s[0]) {
      var r := Insert(x, s[1..], le);
      InsertSorted(x, s[1..], le);
      assert s == [s[0]] + s[1..];
      forall y | y in r
        ensures le(s[0], y)
      {
        assert y in Elements(r);
      }
      SortedCons(s[0], r, le);
      ElementsCons(s[0], r);
      ElementsCons(s[0], s[1..]);
    } else {
      forall y | y in s
        ensures le(x, y)
      {
        var i :| 0 <= i < |s| && s[i] == y;
        assert le(s[0], s[i]);
      }
      SortedCons(x, s, le);
      ElementsCons(x, s);
      assert [x] + s == Insert(x, s, le);
    }
  }

  lemma SortedCons<T(!new)>(x: T, s: seq<T>, le: (T, T) -> bool)
    requires Sorted(s, le) && forall y :: y in s ==> le(x, y)
    ensures Sorted([x] + s, le)
  {
  }

  lemma ElementsCons<T>(x: T, s: seq<T>)
    ensures Elements([x] + s) == {x} + Elements(s)
  {
    forall y | y in {x} + Elements(s)
      ensures y in [x] + s
    {
      if y in s {
        var i :| 0 <= i < |s| && s[i] == y;
        assert ([x] + s)[i + 1] == y;
      } else {
        assert ([x] + s)[0] == y;
      }
    }
  }

  lemma {:induction false} SortSorts<T(!new)>(s: seq<T>, le: (T, T) -> bool)
    requires TotalOrder(le)
    ensures Sorted(Sort(s, le), le) && Elements(Sort(s, le)) == Elements(s)
  {
    if s != [] {
      SortSorts(s[1..], le);
      InsertSorted(s[0], Sort(s[1..], le), le);
      ElementsCons(s[0], s[1..]);
      assert s == [s[0]] + s[1..];
    }
  }

  lemma {:induction false} DedupAscends<T(!new)>(s: seq<T>, le: (T, T) -> bool)
    requires TotalOrder(le) && Sorted(s, le)
    ensures Ascending(Dedup(s), le) && Elements(Dedup(s)) == Elements(s)
  {
    if |s| > 1 {
      DedupAscends(s[1..], le);
      assert s == [s[0]] + s[1..];
      ElementsCons(s[0], s[1..]);
      var r := Dedup(s[1..]);
      if s[0] == s[1] {
        assert s[1..][0] in Elements(s[1..]);
      } else {
        forall y | y in r
          ensures le(s[0], y) && s[0] != y
        {
          assert y in Elements(r);
          var i :| 0 <= i < |s[1..]| && s[1..][i] == y;
          assert le(s[0], s[1]) && le(s[1], s[i + 1]);
        }
        ElementsCons(s[0], r);
      }
    }
  }

  /** Sorting and removing equal neighbours lists exactly the elements. */
  lemma SortDedupLists<T(!new)>(s: seq<T>, le: (T, T) -> bool)
    requires TotalOrder(le)
    ensures SortDedup(s, le) == Listing(Elements(s), le)
  {
    SortSorts(s, le);
    DedupAscends(Sort(s, le), le);
    AscendingUnique(SortDedup(s, le), Listing(Elements(s), le), le);
  }
}
