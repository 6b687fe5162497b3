/**
 * `std::cmp::Ordering` and the comparisons the program derives from it:
 * integers, characters (by code point) and strings. Rust compares `String`s
 * byte-wise on their UTF-8 encoding, which orders them exactly as the
 * lexicographic order on code points used here.
 */
module Orderings {

  datatype Ordering = Less | Equal | Greater {
    /** `Ordering::reverse`: the result of comparing the other way round. */
    function Reverse(): (r: Ordering) {
      match this
      case Less => Greater
      case Equal => Equal
      case Greater => Less
    }

    /** Lexicographic combination: `match self { Equal => other, _ => self }`. */
    function Then(other: Ordering): (r: Ordering) {
      if this == Equal then other else this
    }
  }

  function CmpInt(a: int, b: int): (r: Ordering)
    ensures r == Less <==> a < b
    ensures r == Equal <==> a == b
    ensures r == Greater <==> a > b
  {
    if a < b then Less else if a == b then Equal else Greater
  }

  /** `Ord for str`: lexicographic, a proper prefix comes first. */
  function CmpString(a: string, b: string): (r: Ordering)
    ensures a == b ==> r == Equal
    ensures a < b ==> r == Less
    ensures b < a ==> r == Greater
    decreases |a|
  {
    if a == [] then (if b == [] then Equal else Less)
    else if b == [] then Greater
    else if a[0] != b[0] then CmpInt(a[0] as int, b[0] as int)
    else CmpString(a[1..], b[1..])
  }

  lemma {:induction false} CmpStringEqualIff(a: string, b: string)
    ensures CmpString(a, b) == Equal <==> a == b
    decreases |a|
  {
    if a != [] && b != [] && a[0] == b[0] {
      CmpStringEqualIff(a[1..], b[1..]);
      assert a == [a[0]] + a[1..];
      assert b == [b[0]] + b[1..];
    }
  }

  lemma {:induction false} CmpStringReverse(a: string, b: string)
    ensures CmpString(b, a) == CmpString(a, b).Reverse()
    decreases |a|
  {
    if a != [] && b != [] && a[0] == b[0] {
      CmpStringReverse(a[1..], b[1..]);
    }
  }

  lemma {:induction false} CmpStringTransitive(a: string, b: string, c: string)
    requires CmpString(a, b) != Greater && CmpString(b, c) != Greater
    ensures CmpString(a, c) != Greater
    ensures CmpString(a, b) == Less || CmpString(b, c) == Less ==> CmpString(a, c) == Less
    decreases |a|
  {
    if a != [] && b != [] && c != [] && a[0] == b[0] && b[0] == c[0] {
      CmpStringTransitive(a[1..], b[1..], c[1..]);
    }
  }

  /** `a <= b` under a comparison result. */
  predicate AtMost(o: Ordering) {
    o != Greater
  }
}
