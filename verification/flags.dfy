/**
 * Bit-set vocabulary for the `bitflags!` types and flag constants of the
 * crate: flags are `u32` bit patterns, `union` is bitwise or, `all()` is the
 * union of every named flag, and `contains` tests that all bits are present.
 */
module Flags {

  /** A flag made of exactly one bit. */
  predicate IsSingleBit(x: bv32)
  {
    x != 0 && x & (x - 1) == 0
  }

  /** `a.contains(b)`: every bit of `b` is set in `a`. */
  predicate Contains(a: bv32, b: bv32)
  {
    a & b == b
  }

  /** No two flags of the list share a bit (so they are also distinct, when none is empty). */
  predicate PairwiseDisjoint(flags: seq<bv32>)
  {
    forall i, j :: 0 <= i < j < |flags| ==> flags[i] & flags[j] == 0
  }

  /** Each flag of the list is a single bit, and no two share it. */
  predicate DistinctSingleBits(flags: seq<bv32>)
  {
    (forall i :: 0 <= i < |flags| ==> IsSingleBit(flags[i])) && PairwiseDisjoint(flags)
  }

  /** The union of a list of flags: `all().bits()` when the list names every flag of a type. */
  function UnionAll(flags: seq<bv32>): (u: bv32)
    ensures forall i :: 0 <= i < |flags| ==> Contains(u, flags[i])
  {
    if flags == [] then 0
    else
      var u := UnionAll(flags[..|flags| - 1]);
      UnionKeepsContains(u, flags);
      u | flags[|flags| - 1]
  }

  /**
   * The union is the least set containing every flag of the list: any `v`
   * that contains each flag contains the union, so the union has no bit that
   * no flag of the list has.
   */
  lemma {:induction false} UnionAllLeast(flags: seq<bv32>, v: bv32)
    requires forall i :: 0 <= i < |flags| ==> Contains(v, flags[i])
    ensures Contains(v, UnionAll(flags))
  {
    if flags != [] {
      var init := flags[..|flags| - 1];
      UnionAllLeast(init, v);
      UnionLeast(UnionAll(init), flags[|flags| - 1], v);
    }
  }

  /** `a | b` is contained in every `v` that contains both `a` and `b`. */
  lemma UnionLeast(a: bv32, b: bv32, v: bv32)
    requires Contains(v, a) && Contains(v, b)
    ensures Contains(v, a | b)
  {
  }

  /**
   * Adding the last flag of a list to `a`, which contains every other flag of
   * the list, gives a union that contains the whole list.
   */
  lemma UnionKeepsContains(a: bv32, flags: seq<bv32>)
    requires flags != []
    requires forall i :: 0 <= i < |flags| - 1 ==> Contains(a, flags[i])
    ensures forall i :: 0 <= i < |flags| ==> Contains(a | flags[|flags| - 1], flags[i])
  {
    forall i | 0 <= i < |flags|
      ensures Contains(a | flags[|flags| - 1], flags[i])
    {
      UnionKeeps(a, flags[|flags| - 1], flags[i]);
    }
  }

  /** One flag at a time: `a | b` keeps what `a` contains and contains `b`. */
  lemma UnionKeeps(a: bv32, b: bv32, x: bv32)
    ensures Contains(a, x) ==> Contains(a | b, x)
    ensures Contains(a | b, b)
  {
  }
}
