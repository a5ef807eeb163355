/**
 * The integer range types of ueye-sys/src/types/range.rs. Each carries a
 * minimum, a maximum and an increment. `==` is derived field by field, but the
 * hand-written orderings compare the `size` alone: they are total preorders
 * that are not consistent with equality.
 */
module Range {
  import opened RustStd

  /** `IS_RANGE_U32`. */
  datatype IsRangeU32 = IsRangeU32(u32Min: UInt32, u32Max: UInt32, u32Inc: UInt32)

  /** `IS_RANGE_S32`. */
  datatype IsRangeS32 = IsRangeS32(s32Min: Int32, s32Max: Int32, s32Inc: Int32)

  /** `IS_RANGE_U32::size`: `u32Max - u32Min`, which underflows when the minimum exceeds the maximum. */
  function U32Size(r: IsRangeU32): (s: Checked<UInt32>)
    ensures s.Value? <==> r.u32Min <= r.u32Max
    ensures s.Value? ==> r.u32Min + s.value == r.u32Max
  {
    SubU32(r.u32Max, r.u32Min)
  }

  /** `IS_RANGE_U32::cmp`: by size alone. */
  function U32Cmp(a: IsRangeU32, b: IsRangeU32): (o: Checked<Ordering>)
    ensures o.Value? <==> a.u32Min <= a.u32Max && b.u32Min <= b.u32Max
    ensures o == Value(Equal) <==> o.Value? && a.u32Max - a.u32Min == b.u32Max - b.u32Min
    ensures o == Value(Less) <==> o.Value? && a.u32Max - a.u32Min < b.u32Max - b.u32Min
  {
    CmpBy(U32Size(a), U32Size(b))
  }

  /** `IS_RANGE_U32::partial_cmp`: never `None`, always `Some` of `cmp`. */
  function U32PartialCmp(a: IsRangeU32, b: IsRangeU32): (o: Checked<Option<Ordering>>)
    ensures o.Value? <==> U32Cmp(a, b).Value?
    ensures o.Value? ==> o.value == Some(U32Cmp(a, b).value)
  {
    PartialCmpBy(U32Size(a), U32Size(b))
  }

  /** `IS_RANGE_S32::size`: `s32Max - s32Min`; negative when the minimum exceeds the maximum. */
  function S32Size(r: IsRangeS32): (s: Checked<Int32>)
    ensures s.Value? <==> InI32(r.s32Max - r.s32Min)
    ensures s.Value? ==> r.s32Min + s.value == r.s32Max
    ensures s.Value? ==> (s.value < 0 <==> r.s32Max < r.s32Min)
  {
    SubI32(r.s32Max, r.s32Min)
  }

  /** `IS_RANGE_S32::cmp`: by size alone. */
  function S32Cmp(a: IsRangeS32, b: IsRangeS32): (o: Checked<Ordering>)
    ensures o.Value? <==> InI32(a.s32Max - a.s32Min) && InI32(b.s32Max - b.s32Min)
    ensures o == Value(Equal) <==> o.Value? && a.s32Max - a.s32Min == b.s32Max - b.s32Min
    ensures o == Value(Less) <==> o.Value? && a.s32Max - a.s32Min < b.s32Max - b.s32Min
  {
    CmpBy(S32Size(a), S32Size(b))
  }

  /** `IS_RANGE_S32::partial_cmp`: never `None`, always `Some` of `cmp`. */
  function S32PartialCmp(a: IsRangeS32, b: IsRangeS32): (o: Checked<Option<Ordering>>)
    ensures o.Value? <==> S32Cmp(a, b).Value?
    ensures o.Value? ==> o.value == Some(S32Cmp(a, b).value)
  {
    PartialCmpBy(S32Size(a), S32Size(b))
  }

  /** On ranges whose size is defined, `IS_RANGE_U32::cmp` is a total preorder. */
  lemma U32CmpTotalPreorder(a: IsRangeU32, b: IsRangeU32, c: IsRangeU32)
    requires a.u32Min <= a.u32Max && b.u32Min <= b.u32Max && c.u32Min <= c.u32Max
    ensures U32Cmp(a, a) == Value(Equal)
    ensures U32Cmp(a, b).Value? && U32Cmp(b, a) == Value(U32Cmp(a, b).value.Reverse())
    ensures AtMost(U32Cmp(a, b)) || AtMost(U32Cmp(b, a))
    ensures AtMost(U32Cmp(a, b)) && AtMost(U32Cmp(b, c)) ==> AtMost(U32Cmp(a, c))
  {
    CmpByTotalPreorder(U32Size(a), U32Size(b), U32Size(c));
  }

  /** On ranges whose size is defined, `IS_RANGE_S32::cmp` is a total preorder. */
  lemma S32CmpTotalPreorder(a: IsRangeS32, b: IsRangeS32, c: IsRangeS32)
    requires S32Size(a).Value? && S32Size(b).Value? && S32Size(c).Value?
    ensures S32Cmp(a, a) == Value(Equal)
    ensures S32Cmp(a, b).Value? && S32Cmp(b, a) == Value(S32Cmp(a, b).value.Reverse())
    ensures AtMost(S32Cmp(a, b)) || AtMost(S32Cmp(b, a))
    ensures AtMost(S32Cmp(a, b)) && AtMost(S32Cmp(b, c)) ==> AtMost(S32Cmp(a, c))
  {
    CmpByTotalPreorder(S32Size(a), S32Size(b), S32Size(c));
  }

  /** The increment plays no part in the ordering. */
  lemma CmpIgnoresIncrement(a: IsRangeU32, inc: UInt32, b: IsRangeS32, sinc: Int32)
    requires a.u32Min <= a.u32Max && S32Size(b).Value?
    ensures U32Cmp(a, a.(u32Inc := inc)) == Value(Equal)
    ensures S32Cmp(b, b.(s32Inc := sinc)) == Value(Equal)
  {
  }

  /** `cmp` returning `Equal` does not make two ranges `==`. */
  lemma CmpEqualIsNotEquality()
    ensures U32Cmp(IsRangeU32(0, 5, 1), IsRangeU32(10, 15, 1)) == Value(Equal)
    ensures IsRangeU32(0, 5, 1) != IsRangeU32(10, 15, 1)
    ensures S32Cmp(IsRangeS32(-5, 0, 1), IsRangeS32(10, 15, 1)) == Value(Equal)
    ensures IsRangeS32(-5, 0, 1) != IsRangeS32(10, 15, 1)
  {
  }

  /** Moving both ends by the same amount keeps the size, while nothing overflows. */
  lemma SizeShiftInvariant(a: IsRangeU32, k: int, b: IsRangeS32, j: int)
    requires 0 <= a.u32Min + k <= U32_MAX && 0 <= a.u32Max + k <= U32_MAX
    requires InI32(b.s32Min + j) && InI32(b.s32Max + j)
    ensures U32Size(a.(u32Min := a.u32Min + k, u32Max := a.u32Max + k)) == U32Size(a)
    ensures S32Size(b.(s32Min := b.s32Min + j, s32Max := b.s32Max + j)) == S32Size(b)
  {
  }
}
