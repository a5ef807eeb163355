/**
 * The discrete C types of the uEye API (ueye-sys/src/types/discrete.rs):
 * the `INFINITE_*`, `TRUE` and `FALSE` constants, the byte and word
 * extraction macros, and `to_wide`, which turns a string into the
 * NUL-terminated wide string the driver takes.
 */
module Discrete {
  import opened RustStd

  /** `wchar_t` outside Windows: `u32`. */
  type WChar = UInt32

  const INFINITE_UINT: UInt32 := U32_MAX
  const INFINITE_INT: Int32 := -1
  const TRUE: UInt32 := 1
  const FALSE: UInt32 := 0

  lemma ConstantValues()
    ensures INFINITE_UINT == 4294967295 && INFINITE_INT == -1
    ensures TRUE == 1 && FALSE == 0
  {
  }

  /** `HIBYTE!(x)`: `((x >> 8) & 0xFF) as BYTE`, on a 32-bit operand. */
  function HiByte(x: bv32): (b: bv8)
    ensures (b as bv32) << 8 == x & 0xFF00
  {
    ((x >> 8) & 0xFF) as bv8
  }

  /** `LOBYTE!(x)`: `(x & 0xFF) as BYTE`, on a 32-bit operand. */
  function LoByte(x: bv32): (b: bv8)
    ensures b as bv32 < 0x100 && b as bv32 == x % 0x100
  {
    (x & 0xFF) as bv8
  }

  /** The two bytes recombine into the low 16 bits of the operand. */
  lemma HiByteLoByte(x: bv32)
    ensures (HiByte(x) as bv32) * 0x100 + LoByte(x) as bv32 == x % 0x1_0000
  {
  }

  /** `HIWORD!(x)`: `(x >> 16) as WORD`, on a 32-bit operand. */
  function HiWord(x: bv32): (w: bv16)
    ensures (w as bv32) << 16 == x & 0xFFFF_0000
  {
    (x >> 16) as bv16
  }

  /** `LOWORD!(x)`: `(x & 0xFFFF) as WORD`, on a 32-bit operand. */
  function LoWord(x: bv32): (w: bv16)
    ensures w as bv32 == x % 0x1_0000
  {
    (x & 0xFFFF) as bv16
  }

  /** The two words recombine into the whole 32-bit operand. */
  lemma HiWordLoWord(x: bv32)
    ensures (HiWord(x) as bv32) * 0x1_0000 + LoWord(x) as bv32 == x
  {
  }

  /**
   * `to_wide(s)` outside Windows: each `char` of `s` as its code point, in
   * order, followed by one NUL.
   */
  function ToWide(s: string): (w: seq<WChar>)
    ensures |w| == |s| + 1 && w[|s|] == 0
    ensures forall i :: 0 <= i < |s| ==> w[i] == s[i] as int
  {
    if s == [] then [0] else [s[0] as int] + ToWide(s[1..])
  }

  /** Whether a code point is a Unicode scalar value, i.e. a Rust `char`. */
  predicate IsScalarValue(c: int)
  {
    0 <= c < 0xD800 || 0xE000 <= c < 0x11_0000
  }

  /**
   * Reads a NUL-terminated wide string back: the code points before the final
   * element, which must be the NUL. `None` when the final NUL is missing or an
   * element is not a `char`.
   */
  function FromWide(w: seq<WChar>): Option<string>
  {
    if |w| == 0 then None
    else if |w| == 1 then (if w[0] == 0 then Some("") else None)
    else if !IsScalarValue(w[0]) then None
    else match FromWide(w[1..])
      case None => None
      case Some(t) => Some([w[0] as char] + t)
  }

  /** `to_wide` loses nothing: reading its output back gives the string. */
  lemma {:induction false} FromWideToWide(s: string)
    ensures FromWide(ToWide(s)) == Some(s)
  {
    if s != [] {
      FromWideToWide(s[1..]);
      assert ToWide(s)[1..] == ToWide(s[1..]);
      assert [s[0]] + s[1..] == s;
    }
  }

  /** Distinct strings give distinct wide strings. */
  lemma ToWideInjective(s: string, t: string)
    requires ToWide(s) == ToWide(t)
    ensures s == t
  {
    FromWideToWide(s);
    FromWideToWide(t);
  }

  /**
   * A string without an embedded NUL is read by C exactly: the first NUL of
   * its wide form is the terminator at index `|s|`.
   */
  lemma ToWideFirstNul(s: string)
    requires forall i :: 0 <= i < |s| ==> s[i] != 0 as char
    ensures forall i :: 0 <= i < |s| ==> ToWide(s)[i] != 0
  {
  }
}
