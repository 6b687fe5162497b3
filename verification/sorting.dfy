/**
 * `sort_pull_requests`: `sort_by` with the column comparison. Rust's
 * `sort_by` is a stable sort; here it is an insertion sort, proved to return
 * a sorted permutation that keeps the relative order of pull requests that
 * compare Equal, and proved to be the only sequence with those properties,
 * so it agrees with any stable sort.
 */
module Sorting {
  import opened Orderings
  import opened PullRequests

  predicate SortedBy(s: seq<PullRequest>, column: nat) {
    forall i, j :: 0 <= i < j < |s| ==> AtMost(CmpByColumn(s[i], s[j], column))
  }

  /** The elements of `s` that compare Equal to `p` on the column, in their order in `s`. */
  function Peers(s: seq<PullRequest>, p: PullRequest, column: nat): (r: seq<PullRequest>)
  {
    if s == [] then []
    else (if CmpByColumn(s[0], p, column) == Equal then [s[0]] else []) + Peers(s[1..], p, column)
  }

  /** Stability: every class of Equal elements keeps its order. */
  ghost predicate SameOrderAmongEquals(r: seq<PullRequest>, s: seq<PullRequest>, column: nat) {
    forall p :: Peers(r, p, column) == Peers(s, p, column)
  }

  /** Puts `x` before the first element it is not greater than. */
  function Insert(x: PullRequest, t: seq<PullRequest>, column: nat): (r: seq<PullRequest>)
  {
    if t == [] then [x]
    else if AtMost(CmpByColumn(x, t[0], column)) then [x] + t
    else [t[0]] + Insert(x, t[1..], column)
  }

  function SortByColumn(s: seq<PullRequest>, column: nat): (r: seq<PullRequest>)
  {
    if s == [] then [] else Insert(s[0], SortByColumn(s[1..], column), column)
  }

  lemma {:induction false} PeersCons(x: PullRequest, t: seq<PullRequest>, p: PullRequest, column: nat)
    ensures Peers([x] + t, p, column)
         == (if CmpByColumn(x, p, column) == Equal then [x] else []) + Peers(t, p, column)
  {
    assert ([x] + t)[0] == x;
    assert ([x] + t)[1..] == t;
  }

  lemma {:induction false} InsertMultiset(x: PullRequest, t: seq<PullRequest>, column: nat)
    ensures multiset(Insert(x, t, column)) == multiset(t) + multiset{x}
    ensures |Insert(x, t, column)| == |t| + 1
  {
    if t != [] && !AtMost(CmpByColumn(x, t[0], column)) {
      InsertMultiset(x, t[1..], column);
      assert t == [t[0]] + t[1..];
    }
  }

  lemma {:induction false} InsertSorted(x: PullRequest, t: seq<PullRequest>, column: nat)
    requires SortedBy(t, column)
    ensures SortedBy(Insert(x, t, column), column)
  {
    if t == [] {
    } else if AtMost(CmpByColumn(x, t[0], column)) {
      var r := [x] + t;
      forall i, j | 0 <= i < j < |r| ensures AtMost(CmpByColumn(r[i], r[j], column)) {
        if i == 0 && j > 1 {
          CmpByColumnTransitive(x, t[0], t[j - 1], column);
        }
      }
    } else {
      var rest := Insert(x, t[1..], column);
      InsertSorted(x, t[1..], column);
      CmpByColumnReverse(x, t[0], column);
      InsertLowerBound(x, t[1..], t[0], column);
      var r := [t[0]] + rest;
      assert r[0] == t[0];
      forall i, j | 0 <= i < j < |r| ensures AtMost(CmpByColumn(r[i], r[j], column)) {
        if i > 0 {
          assert r[i] == rest[i - 1] && r[j] == rest[j - 1];
        } else {
          assert r[j] == rest[j - 1];
          assert AtMost(CmpByColumn(t[0], rest[j - 1], column));
        }
      }
    }
  }

  /** A lower bound of `x` and of every element of `t` is a lower bound of `Insert(x, t)`. */
  lemma {:induction false} InsertLowerBound(x: PullRequest, t: seq<PullRequest>, y: PullRequest, column: nat)
    requires AtMost(CmpByColumn(y, x, column))
    requires forall k :: 0 <= k < |t| ==> AtMost(CmpByColumn(y, t[k], column))
    ensures forall k :: 0 <= k < |Insert(x, t, column)| ==> AtMost(CmpByColumn(y, Insert(x, t, column)[k], column))
  {
    if t == [] {
    } else if AtMost(CmpByColumn(x, t[0], column)) {
      var r := [x] + t;
      forall k | 0 <= k < |r| ensures AtMost(CmpByColumn(y, r[k], column)) {
        if k > 0 { assert r[k] == t[k - 1]; }
      }
    } else {
      var rest := Insert(x, t[1..], column);
      InsertLowerBound(x, t[1..], y, column);
      var r := [t[0]] + rest;
      forall k | 0 <= k < |r| ensures AtMost(CmpByColumn(y, r[k], column)) {
        if k > 0 {
          assert r[k] == rest[k - 1];
          assert AtMost(CmpByColumn(y, rest[k - 1], column));
        } else {
          assert r[0] == t[0];
        }
      }
    }
  }

  lemma {:induction false} InsertPeers(x: PullRequest, t: seq<PullRequest>, p: PullRequest, column: nat)
    ensures Peers(Insert(x, t, column), p, column) == Peers([x] + t, p, column)
  {
    if t != [] && !AtMost(CmpByColumn(x, t[0], column)) {
      var t0 := t[0];
      InsertPeers(x, t[1..], p, column);
      PeersCons(t0, Insert(x, t[1..], column), p, column);
      PeersCons(x, t[1..], p, column);
      PeersCons(x, t, p, column);
      assert t == [t0] + t[1..];
      PeersCons(t0, t[1..], p, column);
      if CmpByColumn(x, p, column) == Equal && CmpByColumn(t0, p, column) == Equal {
        CmpByColumnEqualSubstitutes(x, p, t0, column);
        CmpByColumnReverse(t0, p, column);
        assert false;
      }
    }
  }

  /** The sort returns a sorted permutation of its input that is stable. */
  lemma {:induction false} SortByColumnCorrect(s: seq<PullRequest>, column: nat)
    ensures multiset(SortByColumn(s, column)) == multiset(s)
    ensures SortedBy(SortByColumn(s, column), column)
    ensures SameOrderAmongEquals(SortByColumn(s, column), s, column)
  {
    if s != [] {
      var t := SortByColumn(s[1..], column);
      SortByColumnCorrect(s[1..], column);
      InsertMultiset(s[0], t, column);
      InsertSorted(s[0], t, column);
      assert s == [s[0]] + s[1..];
      forall p ensures Peers(SortByColumn(s, column), p, column) == Peers(s, p, column) {
        SortPeersStep(s, p, column);
      }
    }
  }

  /** One insertion step keeps the Equal class of `p` in order, given the sorted tail keeps it. */
  lemma SortPeersStep(s: seq<PullRequest>, p: PullRequest, column: nat)
    requires s != []
    requires Peers(SortByColumn(s[1..], column), p, column) == Peers(s[1..], p, column)
    ensures Peers(SortByColumn(s, column), p, column) == Peers(s, p, column)
  {
    var t := SortByColumn(s[1..], column);
    InsertPeers(s[0], t, p, column);
    PeersCons(s[0], t, p, column);
    PeersCons(s[0], s[1..], p, column);
    assert s == [s[0]] + s[1..];
  }

  lemma {:induction false} PeersHead(r: seq<PullRequest>, column: nat)
    requires r != []
    ensures Peers(r, r[0], column) != [] && Peers(r, r[0], column)[0] == r[0]
  {
    CmpByColumnReflexive(r[0], column);
  }

  /** An element of `Peers(r, p)` is an element of `r`. */
  lemma {:induction false} PeersIn(r: seq<PullRequest>, p: PullRequest, column: nat, x: PullRequest)
    requires x in Peers(r, p, column)
    ensures x in r
  {
    if r != [] {
      if x != r[0] {
        PeersIn(r[1..], p, column, x);
      }
    }
  }

  /** In a sorted sequence, the first element equal to the head's class is the head itself. */
  lemma {:induction false} PeersFirstOfSorted(r: seq<PullRequest>, p: PullRequest, column: nat)
    requires r != [] && SortedBy(r, column) && CmpByColumn(r[0], p, column) == Equal
    ensures Peers(r, p, column) != [] && Peers(r, p, column)[0] == r[0]
  {
  }

  /** Two sorted, equally ordered non-empty sequences start with the same element. */
  lemma {:induction false} StableSortSameHead(r1: seq<PullRequest>, r2: seq<PullRequest>, column: nat)
    requires r1 != [] && r2 != []
    requires SortedBy(r1, column) && SortedBy(r2, column)
    requires SameOrderAmongEquals(r1, r2, column)
    ensures r1[0] == r2[0]
  {
    var m1, m2 := r1[0], r2[0];
    PeersHead(r1, column);
    PeersHead(r2, column);
    assert Peers(r2, m1, column) == Peers(r1, m1, column);
    assert m1 in Peers(r2, m1, column);
    PeersIn(r2, m1, column, m1);
    assert Peers(r1, m2, column) == Peers(r2, m2, column);
    assert m2 in Peers(r1, m2, column);
    PeersIn(r1, m2, column, m2);
    // m1 sits in r2 no earlier than m2, and m2 in r1 no earlier than m1: they compare Equal.
    var k2 :| 0 <= k2 < |r2| && r2[k2] == m1;
    var k1 :| 0 <= k1 < |r1| && r1[k1] == m2;
    CmpByColumnReflexive(m1, column);
    assert AtMost(CmpByColumn(m2, m1, column)) by {
      if k2 > 0 { assert AtMost(CmpByColumn(r2[0], r2[k2], column)); }
    }
    assert AtMost(CmpByColumn(m1, m2, column)) by {
      if k1 > 0 { assert AtMost(CmpByColumn(r1[0], r1[k1], column)); }
    }
    CmpByColumnReverse(m1, m2, column);
    PeersFirstOfSorted(r2, m1, column);
  }

  /** Dropping a common head keeps the classes of Equal elements in the same order. */
  lemma {:induction false} StableSortSameTail(r1: seq<PullRequest>, r2: seq<PullRequest>, column: nat)
    requires r1 != [] && r2 != [] && r1[0] == r2[0]
    requires SameOrderAmongEquals(r1, r2, column)
    ensures SameOrderAmongEquals(r1[1..], r2[1..], column)
  {
    var m := r1[0];
    forall p ensures Peers(r1[1..], p, column) == Peers(r2[1..], p, column) {
      PeersCons(m, r1[1..], p, column);
      PeersCons(m, r2[1..], p, column);
      assert r1 == [m] + r1[1..];
      assert r2 == [m] + r2[1..];
      var h := if CmpByColumn(m, p, column) == Equal then [m] else [];
      assert Peers(r1, p, column) == Peers(r2, p, column);
      assert h + Peers(r1[1..], p, column) == h + Peers(r2[1..], p, column);
      assert Peers(r1[1..], p, column) == (h + Peers(r1[1..], p, column))[|h|..];
      assert Peers(r2[1..], p, column) == (h + Peers(r2[1..], p, column))[|h|..];
    }
  }

  /**
   * Sortedness and stability pin the result down: two sorted sequences whose
   * classes of Equal elements appear in the same order are the same sequence.
   */
  lemma {:induction false} StableSortUnique(r1: seq<PullRequest>, r2: seq<PullRequest>, column: nat)
    requires SortedBy(r1, column) && SortedBy(r2, column)
    requires SameOrderAmongEquals(r1, r2, column)
    ensures r1 == r2
    decreases |r1| + |r2|
  {
    if r1 == [] && r2 == [] {
    } else if r1 == [] {
      PeersHead(r2, column);
    } else if r2 == [] {
      PeersHead(r1, column);
    } else {
      StableSortSameHead(r1, r2, column);
      StableSortSameTail(r1, r2, column);
      StableSortUnique(r1[1..], r2[1..], column);
      assert r1 == [r1[0]] + r1[1..];
      assert r2 == [r2[0]] + r2[1..];
    }
  }

  /** Sorting a sorted list again changes nothing. */
  lemma SortByColumnIdempotent(s: seq<PullRequest>, column: nat)
    ensures SortByColumn(SortByColumn(s, column), column) == SortByColumn(s, column)
  {
    var r := SortByColumn(s, column);
    SortByColumnCorrect(s, column);
    SortByColumnCorrect(r, column);
    StableSortUnique(SortByColumn(r, column), r, column);
  }
}
