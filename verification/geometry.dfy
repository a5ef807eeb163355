/**
 * The geometry types of ueye-sys/src/types/geometry.rs. `IS_SIZE_2D` and
 * `IS_RECT` are ordered by an `area`; `==` is derived field by field. The
 * `area` of `IS_RECT` multiplies the position `s32X * s32Y`, not the width and
 * the height.
 */
module Geometry {
  import opened RustStd

  /** `IS_SIZE_2D`. */
  datatype IsSize2D = IsSize2D(s32Width: Int32, s32Height: Int32)

  /** `IS_RECT`. */
  datatype IsRect = IsRect(s32X: Int32, s32Y: Int32, s32Width: Int32, s32Height: Int32)

  /** `IS_SIZE_2D::area`: width times height, which must fit in `i32`. */
  function SizeArea(s: IsSize2D): (a: Checked<Int32>)
    ensures a.Value? <==> InI32(s.s32Width * s.s32Height)
    ensures a.Value? ==> a.value == s.s32Width * s.s32Height
  {
    MulI32(s.s32Width, s.s32Height)
  }

  /** `IS_SIZE_2D::cmp`: by area alone. */
  function SizeCmp(a: IsSize2D, b: IsSize2D): (o: Checked<Ordering>)
    ensures o.Value? <==> InI32(a.s32Width * a.s32Height) && InI32(b.s32Width * b.s32Height)
    ensures o == Value(Equal) <==> o.Value? && a.s32Width * a.s32Height == b.s32Width * b.s32Height
    ensures o == Value(Less) <==> o.Value? && a.s32Width * a.s32Height < b.s32Width * b.s32Height
  {
    CmpBy(SizeArea(a), SizeArea(b))
  }

  /** `IS_SIZE_2D::partial_cmp`: never `None`, always `Some` of `cmp`. */
  function SizePartialCmp(a: IsSize2D, b: IsSize2D): (o: Checked<Option<Ordering>>)
    ensures o.Value? <==> SizeCmp(a, b).Value?
    ensures o.Value? ==> o.value == Some(SizeCmp(a, b).value)
  {
    PartialCmpBy(SizeArea(a), SizeArea(b))
  }

  /** `IS_RECT::area`: the product of the position `s32X * s32Y`, which must fit in `i32`. */
  function RectArea(r: IsRect): (a: Checked<Int32>)
    ensures a.Value? <==> InI32(r.s32X * r.s32Y)
    ensures a.Value? ==> a.value == r.s32X * r.s32Y
  {
    MulI32(r.s32X, r.s32Y)
  }

  /** `IS_RECT::cmp`: by that area alone. */
  function RectCmp(a: IsRect, b: IsRect): (o: Checked<Ordering>)
    ensures o.Value? <==> InI32(a.s32X * a.s32Y) && InI32(b.s32X * b.s32Y)
    ensures o == Value(Equal) <==> o.Value? && a.s32X * a.s32Y == b.s32X * b.s32Y
    ensures o == Value(Less) <==> o.Value? && a.s32X * a.s32Y < b.s32X * b.s32Y
  {
    CmpBy(RectArea(a), RectArea(b))
  }

  /** `IS_RECT::partial_cmp`: never `None`, always `Some` of `cmp`. */
  function RectPartialCmp(a: IsRect, b: IsRect): (o: Checked<Option<Ordering>>)
    ensures o.Value? <==> RectCmp(a, b).Value?
    ensures o.Value? ==> o.value == Some(RectCmp(a, b).value)
  {
    PartialCmpBy(RectArea(a), RectArea(b))
  }

  /** Swapping width and height keeps the area of a size. */
  lemma SizeAreaSymmetric(s: IsSize2D)
    ensures SizeArea(IsSize2D(s.s32Height, s.s32Width)) == SizeArea(s)
  {
  }

  /** On sizes whose area fits, `IS_SIZE_2D::cmp` is a total preorder. */
  lemma SizeCmpTotalPreorder(a: IsSize2D, b: IsSize2D, c: IsSize2D)
    requires SizeArea(a).Value? && SizeArea(b).Value? && SizeArea(c).Value?
    ensures SizeCmp(a, a) == Value(Equal)
    ensures SizeCmp(a, b).Value? && SizeCmp(b, a) == Value(SizeCmp(a, b).value.Reverse())
    ensures AtMost(SizeCmp(a, b)) || AtMost(SizeCmp(b, a))
    ensures AtMost(SizeCmp(a, b)) && AtMost(SizeCmp(b, c)) ==> AtMost(SizeCmp(a, c))
  {
    CmpByTotalPreorder(SizeArea(a), SizeArea(b), SizeArea(c));
  }

  /** On rectangles whose area fits, `IS_RECT::cmp` is a total preorder. */
  lemma RectCmpTotalPreorder(a: IsRect, b: IsRect, c: IsRect)
    requires RectArea(a).Value? && RectArea(b).Value? && RectArea(c).Value?
    ensures RectCmp(a, a) == Value(Equal)
    ensures RectCmp(a, b).Value? && RectCmp(b, a) == Value(RectCmp(a, b).value.Reverse())
    ensures AtMost(RectCmp(a, b)) || AtMost(RectCmp(b, a))
    ensures AtMost(RectCmp(a, b)) && AtMost(RectCmp(b, c)) ==> AtMost(RectCmp(a, c))
  {
    CmpByTotalPreorder(RectArea(a), RectArea(b), RectArea(c));
  }

  /** The width and the height of a rectangle change neither its area nor its place in the order. */
  lemma RectAreaIgnoresSize(r: IsRect, w: Int32, h: Int32, other: IsRect)
    ensures RectArea(r.(s32Width := w, s32Height := h)) == RectArea(r)
    ensures RectCmp(r.(s32Width := w, s32Height := h), other) == RectCmp(r, other)
  {
  }

  /** A rectangle placed on an axis has area 0, whatever its size. */
  lemma RectOnAxisHasNoArea(r: IsRect)
    requires r.s32X == 0 || r.s32Y == 0
    ensures RectArea(r) == Value(0)
  {
  }

  /** `cmp` returning `Equal` does not make two values `==`. */
  lemma CmpEqualIsNotEquality()
    ensures SizeCmp(IsSize2D(2, 3), IsSize2D(3, 2)) == Value(Equal)
    ensures IsSize2D(2, 3) != IsSize2D(3, 2)
  {
  }

  /** Two rectangles of very different size at the same position compare `Equal` under `IS_RECT::cmp`. */
  lemma RectCmpIgnoresSize()
    ensures RectCmp(IsRect(2, 3, 640, 480), IsRect(2, 3, 1, 1)) == Value(Equal)
    ensures IntendedRectCmp(IsRect(2, 3, 640, 480), IsRect(2, 3, 1, 1)) == Value(Greater)
  {
  }

  /** The evidently intended `IS_RECT::area`: width times height, which must fit in `i32`. */
  function IntendedRectArea(r: IsRect): (a: Checked<Int32>)
    ensures a == SizeArea(IsSize2D(r.s32Width, r.s32Height))
    ensures a.Value? ==> a.value == r.s32Width * r.s32Height
  {
    MulI32(r.s32Width, r.s32Height)
  }

  /** The intended `IS_RECT::cmp`: rectangles compare as their sizes do. */
  function IntendedRectCmp(a: IsRect, b: IsRect): (o: Checked<Ordering>)
    ensures o == SizeCmp(IsSize2D(a.s32Width, a.s32Height), IsSize2D(b.s32Width, b.s32Height))
  {
    CmpBy(IntendedRectArea(a), IntendedRectArea(b))
  }

  /** Under the intended order, the position of a rectangle does not matter, and it is a total preorder. */
  lemma IntendedRectCmpProperties(a: IsRect, b: IsRect, c: IsRect, x: Int32, y: Int32)
    requires IntendedRectArea(a).Value? && IntendedRectArea(b).Value? && IntendedRectArea(c).Value?
    ensures IntendedRectCmp(a.(s32X := x, s32Y := y), b) == IntendedRectCmp(a, b)
    ensures IntendedRectCmp(a, a) == Value(Equal)
    ensures IntendedRectCmp(b, a) == Value(IntendedRectCmp(a, b).value.Reverse())
    ensures AtMost(IntendedRectCmp(a, b)) || AtMost(IntendedRectCmp(b, a))
    ensures AtMost(IntendedRectCmp(a, b)) && AtMost(IntendedRectCmp(b, c)) ==> AtMost(IntendedRectCmp(a, c))
  {
    CmpByTotalPreorder(IntendedRectArea(a), IntendedRectArea(b), IntendedRectArea(c));
  }
}
