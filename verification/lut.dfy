/**
 * The LUT state flags of ueye-sys/src/lut.rs, the six composite state IDs
 * built from them with `union`, and the conversion of a `bool` into the
 * `LUT_ENABLED` switch.
 */
module Lut {
  import opened RustStd
  import opened Flags

  const IS_LUT_STATE_ID_FLAG_HARDWARE: bv32 := 0x0010
  const IS_LUT_STATE_ID_FLAG_SOFTWARE: bv32 := 0x0020
  const IS_LUT_STATE_ID_FLAG_GAMMA: bv32 := 0x0100
  const IS_LUT_STATE_ID_FLAG_LUT: bv32 := 0x0200
  const IS_LUT_STATE_ID_INACTIVE: bv32 := 0x0000
  const IS_LUT_STATE_ID_NOT_SUPPORTED: bv32 := 0x0001

  const IS_LUT_STATE_ID_HARDWARE_LUT: bv32 := IS_LUT_STATE_ID_FLAG_HARDWARE | IS_LUT_STATE_ID_FLAG_LUT
  const IS_LUT_STATE_ID_HARDWARE_GAMMA: bv32 := IS_LUT_STATE_ID_FLAG_HARDWARE | IS_LUT_STATE_ID_FLAG_GAMMA
  const IS_LUT_STATE_ID_HARDWARE_LUTANDGAMMA: bv32 :=
    IS_LUT_STATE_ID_FLAG_HARDWARE | IS_LUT_STATE_ID_FLAG_LUT | IS_LUT_STATE_ID_FLAG_GAMMA
  const IS_LUT_STATE_ID_SOFTWARE_LUT: bv32 := IS_LUT_STATE_ID_FLAG_SOFTWARE | IS_LUT_STATE_ID_FLAG_LUT
  const IS_LUT_STATE_ID_SOFTWARE_GAMMA: bv32 := IS_LUT_STATE_ID_FLAG_SOFTWARE | IS_LUT_STATE_ID_FLAG_GAMMA
  const IS_LUT_STATE_ID_SOFTWARE_LUTANDGAMMA: bv32 :=
    IS_LUT_STATE_ID_FLAG_SOFTWARE | IS_LUT_STATE_ID_FLAG_LUT | IS_LUT_STATE_ID_FLAG_GAMMA

  const HardwareComposites: seq<bv32> :=
    [IS_LUT_STATE_ID_HARDWARE_LUT, IS_LUT_STATE_ID_HARDWARE_GAMMA, IS_LUT_STATE_ID_HARDWARE_LUTANDGAMMA]
  const SoftwareComposites: seq<bv32> :=
    [IS_LUT_STATE_ID_SOFTWARE_LUT, IS_LUT_STATE_ID_SOFTWARE_GAMMA, IS_LUT_STATE_ID_SOFTWARE_LUTANDGAMMA]

  /** The values of the composites. */
  lemma CompositeValues()
    ensures IS_LUT_STATE_ID_HARDWARE_LUT == 0x0210
    ensures IS_LUT_STATE_ID_HARDWARE_GAMMA == 0x0110
    ensures IS_LUT_STATE_ID_HARDWARE_LUTANDGAMMA == 0x0310
    ensures IS_LUT_STATE_ID_SOFTWARE_LUT == 0x0220
    ensures IS_LUT_STATE_ID_SOFTWARE_GAMMA == 0x0120
    ensures IS_LUT_STATE_ID_SOFTWARE_LUTANDGAMMA == 0x0320
  {
  }

  /**
   * Each LUT-and-gamma state is the union of the LUT state and the gamma state
   * of its kind; hardware states carry the hardware flag and not the software
   * one, and software states the reverse; "not supported" shares no bit with
   * any of them, and "inactive" is the empty set.
   */
  lemma CompositeStructure()
    ensures IS_LUT_STATE_ID_HARDWARE_LUTANDGAMMA == IS_LUT_STATE_ID_HARDWARE_LUT | IS_LUT_STATE_ID_HARDWARE_GAMMA
    ensures IS_LUT_STATE_ID_SOFTWARE_LUTANDGAMMA == IS_LUT_STATE_ID_SOFTWARE_LUT | IS_LUT_STATE_ID_SOFTWARE_GAMMA
    ensures forall c | c in HardwareComposites ::
      Contains(c, IS_LUT_STATE_ID_FLAG_HARDWARE) && c & IS_LUT_STATE_ID_FLAG_SOFTWARE == 0
    ensures forall c | c in SoftwareComposites ::
      Contains(c, IS_LUT_STATE_ID_FLAG_SOFTWARE) && c & IS_LUT_STATE_ID_FLAG_HARDWARE == 0
    ensures forall c | c in HardwareComposites + SoftwareComposites :: c & IS_LUT_STATE_ID_NOT_SUPPORTED == 0
    ensures IS_LUT_STATE_ID_INACTIVE == 0
  {
  }

  /**
   * `LUT_ENABLED`. Unlike its sibling enums it carries `#[allow(u32)]`
   * rather than `#[repr(u32)]`, so its layout is Rust's default
   * representation, not `u32`; only its discriminants 0 and 1 are modelled,
   * as plain integers.
   */
  datatype LutEnabled = IsLutDisabled | IsLutEnabled
  {
    function Discriminant(): int
    {
      match this
      case IsLutDisabled => 0
      case IsLutEnabled => 1
    }
  }

  /** `LUT_ENABLED::from(bool)`: the discriminant is the `bool` as 0 or 1. */
  function LutEnabledFrom(value: bool): (r: LutEnabled)
    ensures r.Discriminant() == if value then 1 else 0
  {
    if value then IsLutEnabled else IsLutDisabled
  }
}
