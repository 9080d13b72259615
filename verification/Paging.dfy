// Finite sets in order, and pages of them after a cursor: what a query sorted by a key and limited to n rows selects.
module Paging {
  import opened Model

  ghost predicate TotalOrder<T(!new)>(less: (T, T) -> bool) {
    && (forall x :: !less(x, x))
    && (forall x, y, z :: less(x, y) && less(y, z) ==> less(x, z))
    && (forall x, y :: x == y || less(x, y) || less(y, x))
  }

  ghost predicate Ascending<T>(q: seq<T>, less: (T, T) -> bool) {
    forall i, j :: 0 <= i < j < |q| ==> less(q[i], q[j])
  }

  ghost predicate Least<T>(x: T, s: set<T>, less: (T, T) -> bool) {
    x in s && forall y :: y in s ==> x == y || less(x, y)
  }

  lemma {:induction false} LeastExists<T(!new)>(s: set<T>, less: (T, T) -> bool) returns (x: T)
    requires TotalOrder(less) && s != {}
    ensures Least(x, s, less)
  {
    var y :| y in s;
    if s == {y} {
      x := y;
    } else {
      assert s - {y} != {};
      var z := LeastExists(s - {y}, less);
      x := if less(y, z) then y else z;
      forall w | w in s ensures x == w || less(x, w) { if w != y { assert w in s - {y}; } }
    }
  }

  // The elements of a set in order.
  ghost function Sorted<T(!new)>(s: set<T>, less: (T, T) -> bool): (q: seq<T>)
    requires TotalOrder(less)
    ensures |q| == |s| && Ascending(q, less) && forall x :: x in q <==> x in s
  {
    if s == {} then []
    else
      assert exists x :: Least(x, s, less) by { var x := LeastExists(s, less); }
      var x :| Least(x, s, less);
      var rest := Sorted(s - {x}, less);
      assert forall i :: 0 <= i < |rest| ==> rest[i] in s - {x};
      [x] + rest
  }

  // Two ascending sequences of the same elements are the same sequence.
  lemma {:induction false} AscendingIsUnique<T(!new)>(p: seq<T>, q: seq<T>, less: (T, T) -> bool)
    requires TotalOrder(less) && Ascending(p, less) && Ascending(q, less)
    requires forall x :: x in p <==> x in q
    ensures p == q
  {
    assert |q| == 0 || q[0] in p;
    if p != [] {
      assert p[0] in q && q[0] in p;
      assert p[0] == q[0];
      forall x ensures x in p[1..] <==> x in q[1..] {
        if x in p[1..] { assert x in q && x != p[0]; }
        if x in q[1..] { assert x in p && x != q[0]; }
      }
      AscendingIsUnique(p[1..], q[1..], less);
    }
  }

  lemma SliceOfSlice<T>(q: seq<T>, from: nat, to: nat, n: nat)
    requires from <= to <= |q| && n <= to - from
    ensures q[from..to][..n] == q[from..from + n]
  {
  }

  // The elements beyond the cursor.
  ghost function After<T>(s: set<T>, cursor: Option<T>, less: (T, T) -> bool): set<T> {
    set x | x in s && (cursor.None? || less(cursor.value, x))
  }

  // The first `limit` elements beyond the cursor, in order.
  ghost predicate IsPage<T>(page: seq<T>, s: set<T>, cursor: Option<T>, limit: nat, less: (T, T) -> bool) {
    var rest := After(s, cursor, less);
    && Ascending(page, less) && |page| <= limit && (forall x :: x in page ==> x in rest)
    && (forall x :: x in rest && x !in page ==> |page| == limit && forall y :: y in page ==> less(y, x))
  }

  // The cursor that stands after the first n elements.
  function CursorAt<T>(q: seq<T>, n: nat): Option<T>
    requires n <= |q|
  {
    if n == 0 then None else Some(q[n - 1])
  }

  function Min(x: nat, y: nat): nat { if x < y then x else y }

  lemma AfterPrefix<T(!new)>(q: seq<T>, s: set<T>, n: nat, less: (T, T) -> bool)
    requires TotalOrder(less) && Ascending(q, less) && n <= |q|
    requires forall x :: x in q[n..] ==> x in s
    requires forall x :: x in s ==> x in q
    ensures After(s, CursorAt(q, n), less) == set x | x in q[n..]
  {
    forall x | x in After(s, CursorAt(q, n), less) ensures x in q[n..] {
      var i :| 0 <= i < |q| && q[i] == x;
      assert i >= n;
      assert q[n..][i - n] == x;
    }
    forall x | x in q[n..] ensures x in After(s, CursorAt(q, n), less) {
      var i :| 0 <= i < |q[n..]| && q[n..][i] == x;
      assert q[n + i] == x;
    }
  }

  // An ascending choice of elements closed downwards is a prefix.
  lemma {:induction false} PrefixOf<T(!new)>(page: seq<T>, rest: seq<T>, less: (T, T) -> bool)
    requires TotalOrder(less) && Ascending(page, less) && Ascending(rest, less)
    requires forall x :: x in page ==> x in rest
    requires forall i, j :: 0 <= i < j < |rest| && rest[j] in page ==> rest[i] in page
    ensures |page| <= |rest| && page == rest[..|page|]
  {
    if page != [] {
      assert page[0] in rest;
      var i :| 0 <= i < |rest| && rest[i] == page[0];
      assert rest[0] in page;
      assert page[0] == rest[0];
      forall x | x in page[1..] ensures x in rest[1..] { assert x in page && x != page[0]; assert x in rest; }
      forall j, k | 0 <= j < k < |rest[1..]| && rest[1..][k] in page[1..] ensures rest[1..][j] in page[1..] {
        assert rest[k + 1] in page && rest[j + 1] in page && rest[j + 1] != rest[0];
      }
      PrefixOf(page[1..], rest[1..], less);
    }
  }

  lemma PageIsPrefix<T(!new)>(page: seq<T>, rest: seq<T>, limit: nat, less: (T, T) -> bool)
    requires TotalOrder(less) && Ascending(page, less) && Ascending(rest, less) && |page| <= limit
    requires forall x :: x in page ==> x in rest
    requires forall x :: x in rest && x !in page ==> |page| == limit && forall y :: y in page ==> less(y, x)
    ensures page == rest[..Min(limit, |rest|)]
  {
    forall i, j | 0 <= i < j < |rest| && rest[j] in page ensures rest[i] in page {
      assert less(rest[i], rest[j]);
    }
    PrefixOf(page, rest, less);
    if |page| < |rest| {
      assert forall k :: 0 <= k < |page| ==> page[k] == rest[k] && less(rest[k], rest[|page|]);
      assert rest[|page|] !in page;
    }
  }

  // A page beyond the first n elements is the next stretch of the sequence, whatever has become of
  // those n.
  lemma PageIsNext<T(!new)>(page: seq<T>, q: seq<T>, s: set<T>, n: nat, limit: nat, less: (T, T) -> bool)
    requires TotalOrder(less) && Ascending(q, less) && n <= |q|
    requires forall x :: x in q[n..] ==> x in s
    requires forall x :: x in s ==> x in q
    requires IsPage(page, s, CursorAt(q, n), limit, less)
    ensures page == q[n..Min(n + limit, |q|)]
  {
    AfterPrefix(q, s, n, less);
    hide TotalOrder;
    assert After(s, CursorAt(q, n), less) == set x | x in q[n..];
    forall x ensures x in After(s, CursorAt(q, n), less) <==> x in q[n..] {}
    PageIsPrefix(page, q[n..], limit, less);
    assert q[n..][..Min(limit, |q| - n)] == q[n..Min(n + limit, |q|)];
  }

  // The page there is.
  ghost function ThePage<T(!new)>(s: set<T>, cursor: Option<T>, limit: nat, less: (T, T) -> bool): seq<T>
    requires TotalOrder(less)
  {
    var rest := Sorted(After(s, cursor, less), less);
    rest[..Min(limit, |rest|)]
  }

  lemma PageIsThePage<T(!new)>(page: seq<T>, s: set<T>, cursor: Option<T>, limit: nat, less: (T, T) -> bool)
    requires TotalOrder(less) && IsPage(page, s, cursor, limit, less)
    ensures page == ThePage(s, cursor, limit, less)
  {
    PageIsPrefix(page, Sorted(After(s, cursor, less), less), limit, less);
  }

  lemma ThePageIsPage<T(!new)>(s: set<T>, cursor: Option<T>, limit: nat, less: (T, T) -> bool)
    requires TotalOrder(less)
    ensures IsPage(ThePage(s, cursor, limit, less), s, cursor, limit, less)
  {
    var rest := Sorted(After(s, cursor, less), less);
    var page := ThePage(s, cursor, limit, less);
    forall x | x in After(s, cursor, less) && x !in page ensures |page| == limit && forall y :: y in page ==> less(y, x) {
      var i :| 0 <= i < |rest| && rest[i] == x;
      assert i >= |page|;
    }
  }

  // The query as a loop: the least element beyond the last one, until the page is full.
  method SelectPage<T(!new,==)>(s: set<T>, cursor: Option<T>, limit: nat, less: (T, T) -> bool) returns (page: seq<T>)
    requires TotalOrder(less)
    ensures IsPage(page, s, cursor, limit, less)
  {
    page := [];
    var rest := set x | x in s && (cursor.None? || less(cursor.value, x));
    while rest != {} && |page| < limit
      invariant Ascending(page, less) && |page| <= limit
      invariant forall x :: x in After(s, cursor, less) <==> x in page || x in rest
      invariant forall x, y :: x in page && y in rest ==> less(x, y)
      decreases |rest|
    {
      var least :| least in rest;
      var others := rest - {least};
      while others != {}
        invariant others < rest && least in rest && least !in others
        invariant forall x :: x in rest && x !in others ==> x == least || less(least, x)
        decreases |others|
      {
        var x :| x in others;
        others := others - {x};
        if less(x, least) { least := x; }
      }
      page := page + [least];
      rest := rest - {least};
    }
  }

  // By an instant, then by identifier.
  type Key = (Time, Id)

  predicate KeyBefore(k: Key, l: Key) { k.0 < l.0 || (k.0 == l.0 && k.1 < l.1) }

  lemma KeysOrdered()
    ensures TotalOrder(KeyBefore)
  {
  }

  lemma {:induction false} AscendingCount<T(!new)>(q: seq<T>, less: (T, T) -> bool)
    requires TotalOrder(less) && Ascending(q, less)
    ensures |set x | x in q| == |q|
  {
    if q != [] {
      AscendingCount(q[1..], less);
      assert (set x | x in q) == (set x | x in q[1..]) + {q[0]};
      assert forall i :: 0 <= i < |q[1..]| ==> less(q[0], q[1..][i]);
    }
  }

  lemma AfterAfter<T(!new)>(s: set<T>, cursor: Option<T>, x: T, less: (T, T) -> bool)
    requires TotalOrder(less) && x in After(s, cursor, less)
    ensures After(s, Some(x), less) == After(After(s, cursor, less), Some(x), less)
  {
  }

  // Beyond a full page lies what is left of the sorted rest.
  lemma RestAfterPage<T(!new)>(s: set<T>, cursor: Option<T>, limit: nat, less: (T, T) -> bool)
    requires TotalOrder(less) && limit > 0
    ensures var page := ThePage(s, cursor, limit, less);
            var rest := After(s, cursor, less);
            && |page| == Min(limit, |rest|)
            && (|page| == limit ==> |After(s, Some(page[limit - 1]), less)| == |rest| - limit)
  {
    var rest := After(s, cursor, less);
    var q := Sorted(rest, less);
    hide TotalOrder, After, Sorted;
    if |q| >= limit {
      LeftBeyond(s, cursor, q, limit, less);
    }
  }

  lemma LeftBeyond<T(!new)>(s: set<T>, cursor: Option<T>, q: seq<T>, limit: nat, less: (T, T) -> bool)
    requires TotalOrder(less) && 0 < limit <= |q| && q == Sorted(After(s, cursor, less), less)
    ensures |After(s, Some(q[limit - 1]), less)| == |q| - limit
  {
    var rest := After(s, cursor, less);
    hide TotalOrder, After, Sorted;
    assert q[limit - 1] in rest;
    AfterAfter(s, cursor, q[limit - 1], less);
    assert forall x :: x in q[limit..] ==> x in q;
    AfterPrefix(q, rest, limit, less);
    assert Ascending(q[limit..], less);
    AscendingCount(q[limit..], less);
  }
}
