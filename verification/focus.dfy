/**
 * `AUTOFOCUS_LIMIT` of ueye-sys/src/focus.rs: the search range of the
 * autofocus peak search, partially ordered by its width. `==` is derived field
 * by field.
 */
module Focus {
  import opened RustStd

  /** `AUTOFOCUS_LIMIT`. */
  datatype AutofocusLimit = AutofocusLimit(sMin: Int32, sMax: Int32)

  /**
   * `AUTOFOCUS_LIMIT::size`: `(sMax - sMin).abs()`. Defined, and never
   * negative, exactly when the width fits in `i32`.
   */
  function LimitSize(l: AutofocusLimit): (s: Checked<Int32>)
    ensures s.Value? <==> -I32_MAX <= l.sMax - l.sMin <= I32_MAX
    ensures s.Value? ==> s.value >= 0
    ensures s.Value? ==> s.value == l.sMax - l.sMin || s.value == l.sMin - l.sMax
  {
    AbsDiffI32(l.sMax, l.sMin)
  }

  /** `AUTOFOCUS_LIMIT::partial_cmp`: by size alone, and never `None`. */
  function LimitPartialCmp(a: AutofocusLimit, b: AutofocusLimit): (o: Checked<Option<Ordering>>)
    ensures o.Value? <==> LimitSize(a).Value? && LimitSize(b).Value?
    ensures o.Value? ==> o.value == Some(Cmp(LimitSize(a).value, LimitSize(b).value))
  {
    PartialCmpBy(LimitSize(a), LimitSize(b))
  }

  /** Exchanging the two ends changes neither the size nor whether it overflows. */
  lemma LimitSizeSymmetric(l: AutofocusLimit)
    ensures LimitSize(AutofocusLimit(l.sMax, l.sMin)) == LimitSize(l)
  {
  }

  /** A limit whose ends coincide has size 0. */
  lemma PointLimitHasNoSize(l: AutofocusLimit)
    requires l.sMin == l.sMax
    ensures LimitSize(l) == Value(0)
  {
  }

  /** Limits of equal width at different positions compare `Equal` but are not `==`. */
  lemma PartialCmpEqualIsNotEquality()
    ensures LimitPartialCmp(AutofocusLimit(0, 100), AutofocusLimit(50, 150)) == Value(Some(Equal))
    ensures AutofocusLimit(0, 100) != AutofocusLimit(50, 150)
  {
  }
}
