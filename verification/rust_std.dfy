/**
 * The parts of Rust's primitive types and standard traits that the crate's
 * hand-written impls rely on: fixed-width integers, integer arithmetic as a
 * debug build runs it (an overflow panics), `Option`, and `Ordering` with the
 * `cmp`/`partial_cmp` of integers.
 */
module RustStd {

  const I32_MIN: int := -0x8000_0000
  const I32_MAX: int := 0x7FFF_FFFF
  const U32_MAX: int := 0xFFFF_FFFF

  /** `i32` (the C `int`). */
  type Int32 = x: int | -0x8000_0000 <= x <= 0x7FFF_FFFF
  /** `u32` (the C `unsigned int`, `DWORD`). */
  type UInt32 = x: int | 0 <= x <= 0xFFFF_FFFF
  /** `u16` (`WORD`). */
  type UInt16 = x: int | 0 <= x <= 0xFFFF
  /** `u8` (`BYTE`). */
  type UInt8 = x: int | 0 <= x <= 0xFF
  /** `i8` (the C `char` on the targets the crate links against). */
  type Int8 = x: int | -0x80 <= x <= 0x7F

  predicate InI32(x: int) { I32_MIN <= x <= I32_MAX }

  datatype Option<+T> = None | Some(value: T)

  /** The outcome of integer arithmetic in a debug build: a value, or the overflow panic. */
  datatype Checked<+T> = Value(value: T) | Overflow

  /** `a - b` on `u32`. */
  function SubU32(a: UInt32, b: UInt32): Checked<UInt32>
  {
    if b <= a then Value(a - b) else Overflow
  }

  /** `a - b` on `i32`. */
  function SubI32(a: Int32, b: Int32): Checked<Int32>
  {
    if InI32(a - b) then Value(a - b) else Overflow
  }

  /** `a * b` on `i32`. */
  function MulI32(a: Int32, b: Int32): Checked<Int32>
  {
    if InI32(a * b) then Value(a * b) else Overflow
  }

  /** `i32::abs`: overflows on `i32::MIN` only. */
  function AbsI32(a: Int32): Checked<Int32>
  {
    if a == I32_MIN then Overflow else Value(if a < 0 then -a else a)
  }

  /** `(a - b).abs()` on `i32`: the subtraction, then `abs` of its result. */
  function AbsDiffI32(a: Int32, b: Int32): Checked<Int32>
  {
    match SubI32(a, b)
    case Overflow => Overflow
    case Value(d) => AbsI32(d)
  }

  /** `std::cmp::Ordering`. */
  datatype Ordering = Less | Equal | Greater
  {
    function Reverse(): Ordering
    {
      match this
      case Less => Greater
      case Equal => Equal
      case Greater => Less
    }
  }

  /** `Ord::cmp` on integers. */
  function Cmp(x: int, y: int): Ordering
  {
    if x < y then Less else if x == y then Equal else Greater
  }

  /**
   * `self.key().cmp(&other.key())`: the key of `self` is computed first, then
   * that of `other`; a panic in either aborts the comparison.
   */
  function CmpBy(kx: Checked<int>, ky: Checked<int>): Checked<Ordering>
  {
    match kx
    case Overflow => Overflow
    case Value(x) =>
      match ky
      case Overflow => Overflow
      case Value(y) => Value(Cmp(x, y))
  }

  /** `self.key().partial_cmp(&other.key())` on integer keys. */
  function PartialCmpBy(kx: Checked<int>, ky: Checked<int>): Checked<Option<Ordering>>
  {
    match kx
    case Overflow => Overflow
    case Value(x) =>
      match ky
      case Overflow => Overflow
      case Value(y) => Value(Some(Cmp(x, y)))
  }

  /** A comparison that completed with `Less` or `Equal`: the `<=` of the preorder. */
  predicate AtMost(o: Checked<Ordering>)
  {
    o == Value(Less) || o == Value(Equal)
  }

  /**
   * Comparing by a key is a total preorder on the values whose key can be
   * computed: reflexive, antisymmetric in its results, total and transitive.
   */
  lemma CmpByTotalPreorder(kx: Checked<int>, ky: Checked<int>, kz: Checked<int>)
    requires kx.Value? && ky.Value? && kz.Value?
    ensures CmpBy(kx, kx) == Value(Equal)
    ensures CmpBy(kx, ky).Value? && CmpBy(ky, kx) == Value(CmpBy(kx, ky).value.Reverse())
    ensures AtMost(CmpBy(kx, ky)) || AtMost(CmpBy(ky, kx))
    ensures AtMost(CmpBy(kx, ky)) && AtMost(CmpBy(ky, kz)) ==> AtMost(CmpBy(kx, kz))
  {
  }

  /** `partial_cmp` by a key never yields `None`: it is `Some` of `cmp` by the same key. */
  lemma PartialCmpByIsSomeCmpBy(kx: Checked<int>, ky: Checked<int>)
    ensures PartialCmpBy(kx, ky).Value? <==> CmpBy(kx, ky).Value?
    ensures PartialCmpBy(kx, ky).Value? ==> PartialCmpBy(kx, ky).value == Some(CmpBy(kx, ky).value)
  {
  }
}
