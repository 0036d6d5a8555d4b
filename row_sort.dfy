/**
 * The two orders the cache hands rows back in, and Kotlin's stable sort
 * (`sortedByDescending`, `sortedWith`) over them.
 *
 * A stable sort by a total preorder is pinned down by three facts: the result
 * is a permutation of the input, it is sorted, and every class of tied rows
 * keeps its input order. `Sort` has all three; `SortedTiesUnique` shows that
 * nothing else has them.
 */
module RowSort {
  import opened Models

  /** `sortedByDescending { timestamp }` and
      `sortedWith(compareBy { pageNumber }.thenByDescending { timestamp })`. */
  datatype Ordering = NewestFirst | PageThenNewest

  /** `a` may stand before `b`: a total preorder on rows. */
  predicate Precedes(o: Ordering, a: GameEntity, b: GameEntity) {
    match o
    case NewestFirst => a.timestamp >= b.timestamp
    case PageThenNewest =>
      a.pageNumber < b.pageNumber || (a.pageNumber == b.pageNumber && a.timestamp >= b.timestamp)
  }

  /** Neither row comes strictly before the other: the comparator returns 0. */
  predicate Tied(o: Ordering, a: GameEntity, b: GameEntity) {
    Precedes(o, a, b) && Precedes(o, b, a)
  }

  predicate Sorted(o: Ordering, s: seq<GameEntity>) {
    forall i, j :: 0 <= i < j < |s| ==> Precedes(o, s[i], s[j])
  }

  /** The rows of `s` tied with `e`, in their order in `s`. */
  function Ties(s: seq<GameEntity>, o: Ordering, e: GameEntity): (t: seq<GameEntity>)
    ensures |t| <= |s|
    ensures forall x :: x in t ==> x in s && Tied(o, x, e)
  {
    if s == [] then [] else (if Tied(o, s[0], e) then [s[0]] else []) + Ties(s[1..], o, e)
  }

  /** Inserts `x` before the first row it may precede: ahead of every row it ties with. */
  function Insert(o: Ordering, x: GameEntity, s: seq<GameEntity>): (r: seq<GameEntity>)
    ensures multiset(r) == multiset(s) + multiset{x}
  {
    if s == [] then [x]
    else if Precedes(o, x, s[0]) then [x] + s
    else
      assert s == [s[0]] + s[1..];
      [s[0]] + Insert(o, x, s[1..])
  }

  /** Stable insertion sort. */
  function Sort(o: Ordering, s: seq<GameEntity>): (r: seq<GameEntity>)
    ensures multiset(r) == multiset(s)
    ensures Sorted(o, r)
    ensures forall e :: Ties(r, o, e) == Ties(s, o, e)
  {
    if s == [] then []
    else
      var rest := Sort(o, s[1..]);
      InsertSorted(o, s[0], rest);
      assert s == [s[0]] + s[1..];
      forall e ensures Ties(Insert(o, s[0], rest), o, e) == Ties(s, o, e) {
        InsertTies(o, s[0], rest, e);
      }
      Insert(o, s[0], rest)
  }

  lemma {:induction false} TiesAppend(a: seq<GameEntity>, b: seq<GameEntity>, o: Ordering, e: GameEntity)
    ensures Ties(a + b, o, e) == Ties(a, o, e) + Ties(b, o, e)
  {
    if a == [] {
      assert a + b == b;
    } else {
      assert (a + b)[0] == a[0];
      assert (a + b)[1..] == a[1..] + b;
      TiesAppend(a[1..], b, o, e);
    }
  }

  lemma TiesCons(x: GameEntity, s: seq<GameEntity>, o: Ordering, e: GameEntity)
    ensures Ties([x] + s, o, e) == (if Tied(o, x, e) then [x] else []) + Ties(s, o, e)
  {
    assert ([x] + s)[1..] == s;
  }

  lemma {:induction false} TiesNone(s: seq<GameEntity>, o: Ordering, e: GameEntity)
    requires forall x :: x in s ==> !Tied(o, x, e)
    ensures Ties(s, o, e) == []
  {
    if s != [] {
      TiesNone(s[1..], o, e);
    }
  }

  lemma {:induction false} InsertSorted(o: Ordering, x: GameEntity, s: seq<GameEntity>)
    requires Sorted(o, s)
    ensures Sorted(o, Insert(o, x, s))
  {
    if s != [] && !Precedes(o, x, s[0]) {
      var tail := Insert(o, x, s[1..]);
      InsertSorted(o, x, s[1..]);
      forall y | y in tail ensures Precedes(o, s[0], y) {
        assert y in multiset(tail);
        if y != x {
          assert y in s[1..];
        }
      }
    }
  }

  lemma {:induction false} InsertTies(o: Ordering, x: GameEntity, s: seq<GameEntity>, e: GameEntity)
    ensures Ties(Insert(o, x, s), o, e) == (if Tied(o, x, e) then [x] else []) + Ties(s, o, e)
  {
    if s == [] {
    } else if Precedes(o, x, s[0]) {
      TiesCons(x, s, o, e);
    } else {
      var tail := Insert(o, x, s[1..]);
      var h0 := if Tied(o, s[0], e) then [s[0]] else [];
      var hx := if Tied(o, x, e) then [x] else [];
      var rest := Ties(s[1..], o, e);
      assert Insert(o, x, s) == [s[0]] + tail;
      InsertTies(o, x, s[1..], e);
      assert Ties(tail, o, e) == hx + rest;
      TiesCons(s[0], tail, o, e);
      assert Ties(Insert(o, x, s), o, e) == h0 + (hx + rest);
      assert Ties(s, o, e) == h0 + rest;
      // s[0] comes strictly before x, so they cannot both tie with e.
      TiedWithSame(o, x, s[0], e);
      SwapEmpty(h0, hx, rest);
    }
  }

  lemma SwapEmpty(a: seq<GameEntity>, b: seq<GameEntity>, t: seq<GameEntity>)
    requires a == [] || b == []
    ensures a + (b + t) == b + (a + t)
  {
    if a == [] {
      assert a + (b + t) == b + t == b + (a + t);
    } else {
      assert a + (b + t) == a + t == b + (a + t);
    }
  }

  /** Two rows tied with the same row may stand in either order. */
  lemma TiedWithSame(o: Ordering, a: GameEntity, b: GameEntity, e: GameEntity)
    ensures Tied(o, a, e) && Tied(o, b, e) ==> Precedes(o, a, b)
  {
  }

  lemma {:induction false} SortedAppend(o: Ordering, a: seq<GameEntity>, b: seq<GameEntity>)
    requires Sorted(o, a) && Sorted(o, b)
    requires forall x, y :: x in a && y in b ==> Precedes(o, x, y)
    ensures Sorted(o, a + b)
  {
    forall i, j | 0 <= i < j < |a + b| ensures Precedes(o, (a + b)[i], (a + b)[j]) {
      if j < |a| {
      } else if i >= |a| {
        assert (a + b)[i] == b[i - |a|] && (a + b)[j] == b[j - |a|];
      } else {
        assert (a + b)[i] in a && (a + b)[j] in b;
      }
    }
  }

  /**
   * Two sorted lists in which every tie class holds the same rows in the same
   * order are equal: stable sorting has exactly one answer.
   */
  lemma NoTiesMeansEmpty(s: seq<GameEntity>, o: Ordering)
    requires forall e :: Ties(s, o, e) == []
    ensures s == []
  {
    if s != [] {
      FirstRowTies(s, o);
    }
  }

  lemma FirstRowTies(s: seq<GameEntity>, o: Ordering)
    requires s != []
    ensures Ties(s, o, s[0]) != []
  {
  }

  lemma {:induction false} SortedTiesUnique(o: Ordering, r1: seq<GameEntity>, r2: seq<GameEntity>)
    requires Sorted(o, r1) && Sorted(o, r2)
    requires forall e :: Ties(r1, o, e) == Ties(r2, o, e)
    ensures r1 == r2
    decreases |r1|
  {
    if r1 == [] {
      NoTiesMeansEmpty(r2, o);
    } else if r2 == [] {
      NoTiesMeansEmpty(r1, o);
    } else {
      var a := r1[0];
      SortedHeadsEqual(o, r1, r2);
      forall e ensures Ties(r1[1..], o, e) == Ties(r2[1..], o, e) {
        var head := if Tied(o, a, e) then [a] else [];
        assert r1 == [a] + r1[1..] && r2 == [a] + r2[1..];
        TiesCons(a, r1[1..], o, e);
        TiesCons(a, r2[1..], o, e);
        assert Ties(r1[1..], o, e) == Ties(r1, o, e)[|head|..];
        assert Ties(r2[1..], o, e) == Ties(r2, o, e)[|head|..];
      }
      SortedTiesUnique(o, r1[1..], r2[1..]);
      assert r1 == [a] + r1[1..] && r2 == [a] + r2[1..];
    }
  }

  /** Sorted lists with the same tie classes start with the same row. */
  lemma SortedHeadsEqual(o: Ordering, r1: seq<GameEntity>, r2: seq<GameEntity>)
    requires Sorted(o, r1) && Sorted(o, r2) && r1 != [] && r2 != []
    requires forall e :: Ties(r1, o, e) == Ties(r2, o, e)
    ensures r1[0] == r2[0]
  {
    var a, b := r1[0], r2[0];
    assert Ties(r2, o, b)[0] == b;
    assert b in Ties(r1, o, b);
    assert a in Ties(r2, o, a);
    assert b in r1 && a in r2;
    assert Tied(o, a, b);
    assert Ties(r1, o, a)[0] == a;
    assert Ties(r2, o, a)[0] == b;
  }

  /** A list already sorted is left as it is. */
  lemma SortOfSorted(o: Ordering, s: seq<GameEntity>)
    requires Sorted(o, s)
    ensures Sort(o, s) == s
  {
    SortedTiesUnique(o, Sort(o, s), s);
  }
}
