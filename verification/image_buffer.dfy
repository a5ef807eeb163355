/**
 * The camera-memory types of ueye-sys/src/image_buffer.rs: `ID_RANGE`,
 * ordered by the distance between its two IDs, and `IMGBUF_ITERATION_INFO`,
 * whose `Clone`, `PartialEq` and `Hash` skip its reserved bytes.
 */
module ImageBuffer {
  import opened RustStd

  /** `ID_RANGE`: first and last image ID; `==` is derived field by field. */
  datatype IdRange = IdRange(s32First: Int32, s32Last: Int32)

  /** `[BYTE; 52]`. */
  type Reserved52 = s: seq<UInt8> | |s| == 52 witness seq(52, _ => 0)

  /** `IMGBUF_ITERATION_INFO`. */
  datatype IterationInfo = IterationInfo(u32IterationID: UInt32, rangeImageID: IdRange, bReserved: Reserved52)

  /**
   * `ID_RANGE::size`: `(s32Last - s32First).abs()`. Defined, and never
   * negative, exactly when the distance between the IDs fits in `i32`.
   */
  function IdRangeSize(r: IdRange): (s: Checked<Int32>)
    ensures s.Value? <==> -I32_MAX <= r.s32Last - r.s32First <= I32_MAX
    ensures s.Value? ==> s.value >= 0
    ensures s.Value? ==> s.value == r.s32Last - r.s32First || s.value == r.s32First - r.s32Last
  {
    AbsDiffI32(r.s32Last, r.s32First)
  }

  /** `ID_RANGE::cmp`: by size alone. */
  function IdRangeCmp(a: IdRange, b: IdRange): (o: Checked<Ordering>)
    ensures o.Value? <==> IdRangeSize(a).Value? && IdRangeSize(b).Value?
    ensures o.Value? ==> o.value == Cmp(IdRangeSize(a).value, IdRangeSize(b).value)
  {
    CmpBy(IdRangeSize(a), IdRangeSize(b))
  }

  /** `ID_RANGE::partial_cmp`: never `None`, always `Some` of `cmp`. */
  function IdRangePartialCmp(a: IdRange, b: IdRange): (o: Checked<Option<Ordering>>)
    ensures o.Value? <==> IdRangeCmp(a, b).Value?
    ensures o.Value? ==> o.value == Some(IdRangeCmp(a, b).value)
  {
    PartialCmpBy(IdRangeSize(a), IdRangeSize(b))
  }

  /** Exchanging the first and last ID changes neither the size nor whether it overflows. */
  lemma IdRangeSizeSymmetric(r: IdRange)
    ensures IdRangeSize(IdRange(r.s32Last, r.s32First)) == IdRangeSize(r)
  {
  }

  /** On ranges whose size is defined, `ID_RANGE::cmp` is a total preorder. */
  lemma IdRangeCmpTotalPreorder(a: IdRange, b: IdRange, c: IdRange)
    requires IdRangeSize(a).Value? && IdRangeSize(b).Value? && IdRangeSize(c).Value?
    ensures IdRangeCmp(a, a) == Value(Equal)
    ensures IdRangeCmp(a, b).Value? && IdRangeCmp(b, a) == Value(IdRangeCmp(a, b).value.Reverse())
    ensures AtMost(IdRangeCmp(a, b)) || AtMost(IdRangeCmp(b, a))
    ensures AtMost(IdRangeCmp(a, b)) && AtMost(IdRangeCmp(b, c)) ==> AtMost(IdRangeCmp(a, c))
  {
    CmpByTotalPreorder(IdRangeSize(a), IdRangeSize(b), IdRangeSize(c));
  }

  /** `cmp` returning `Equal` does not make two ranges `==`. */
  lemma IdRangeCmpEqualIsNotEquality()
    ensures IdRangeCmp(IdRange(0, 5), IdRange(5, 10)) == Value(Equal)
    ensures IdRange(0, 5) != IdRange(5, 10)
  {
  }

  /**
   * `IMGBUF_ITERATION_INFO::eq`: the iteration ID and the image range. Two
   * infos are equal exactly when they differ at most in their reserved bytes.
   */
  function IterationInfoEq(a: IterationInfo, b: IterationInfo): (r: bool)
    ensures r <==> a.(bReserved := b.bReserved) == b
  {
    a.u32IterationID == b.u32IterationID && a.rangeImageID == b.rangeImageID
  }

  /**
   * `IMGBUF_ITERATION_INFO::clone`. The copy starts as `uninit`, an arbitrary
   * uninitialised value, and gets the two public fields assigned; its reserved
   * bytes stay whatever `uninit` held.
   */
  method IterationInfoClone(self: IterationInfo, uninit: IterationInfo) returns (other: IterationInfo)
    ensures IterationInfoEq(other, self)
    ensures other.bReserved == uninit.bReserved
  {
    other := uninit;
    other := other.(u32IterationID := self.u32IterationID);
    other := other.(rangeImageID := self.rangeImageID);
  }

  /**
   * `IMGBUF_ITERATION_INFO::hash`: the values written to the hasher, in order
   * (the derived hash of `ID_RANGE` writes its first and then its last ID).
   */
  function IterationInfoHashInput(a: IterationInfo): (h: seq<int>)
    ensures |h| == 3 && h[0] == a.u32IterationID
    ensures h[1] == a.rangeImageID.s32First && h[2] == a.rangeImageID.s32Last
  {
    [a.u32IterationID, a.rangeImageID.s32First, a.rangeImageID.s32Last]
  }

  /**
   * The hash agrees with `eq`: whatever the hasher, equal infos hash equal;
   * and the hash input determines everything `eq` compares.
   */
  lemma IterationInfoHashAgreesWithEq(a: IterationInfo, b: IterationInfo, hasher: seq<int> -> int)
    ensures IterationInfoEq(a, b) ==> hasher(IterationInfoHashInput(a)) == hasher(IterationInfoHashInput(b))
    ensures IterationInfoHashInput(a) == IterationInfoHashInput(b) ==> IterationInfoEq(a, b)
  {
    if IterationInfoHashInput(a) == IterationInfoHashInput(b) {
      assert IterationInfoHashInput(a)[1] == IterationInfoHashInput(b)[1];
      assert IterationInfoHashInput(a)[2] == IterationInfoHashInput(b)[2];
    }
  }

  /** `eq` is an equivalence relation. */
  lemma IterationInfoEqIsEquivalence(a: IterationInfo, b: IterationInfo, c: IterationInfo)
    ensures IterationInfoEq(a, a)
    ensures IterationInfoEq(a, b) ==> IterationInfoEq(b, a)
    ensures IterationInfoEq(a, b) && IterationInfoEq(b, c) ==> IterationInfoEq(a, c)
  {
  }
}
