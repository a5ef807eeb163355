/**
 * `AES_PEAK_WHITE_CONFIGURATION_RANGE` of ueye-sys/src/auto_parameter.rs:
 * three `IS_RANGE_S32` ranges and 32 reserved bytes, with a `Clone` and a
 * `PartialEq` that leave the reserved bytes out.
 */
module AutoParameter {
  import opened RustStd
  import opened Range

  /** `[CHAR; 32]`. */
  type Reserved32 = s: seq<Int8> | |s| == 32 witness seq(32, _ => 0)

  /** `AES_PEAK_WHITE_CONFIGURATION_RANGE`. */
  datatype PeakWhiteConfigurationRange = PeakWhiteConfigurationRange(
    rangeFrameSkip: IsRangeS32,
    rangeHysteresis: IsRangeS32,
    rangeReference: IsRangeS32,
    reserved: Reserved32)

  /**
   * `AES_PEAK_WHITE_CONFIGURATION_RANGE::eq`: the three ranges, each by its
   * derived field-wise `==`. Two values are equal exactly when they differ at
   * most in their reserved bytes.
   */
  function PeakWhiteRangeEq(a: PeakWhiteConfigurationRange, b: PeakWhiteConfigurationRange): (r: bool)
    ensures r <==> a.(reserved := b.reserved) == b
  {
    && a.rangeFrameSkip == b.rangeFrameSkip
    && a.rangeHysteresis == b.rangeHysteresis
    && a.rangeReference == b.rangeReference
  }

  /**
   * `AES_PEAK_WHITE_CONFIGURATION_RANGE::clone`. The copy starts as `uninit`,
   * an arbitrary uninitialised value, and gets the three ranges assigned one
   * after the other; its reserved bytes stay whatever `uninit` held.
   */
  method PeakWhiteRangeClone(self: PeakWhiteConfigurationRange, uninit: PeakWhiteConfigurationRange)
    returns (other: PeakWhiteConfigurationRange)
    ensures PeakWhiteRangeEq(other, self)
    ensures other.reserved == uninit.reserved
  {
    other := uninit;
    other := other.(rangeFrameSkip := self.rangeFrameSkip);
    other := other.(rangeHysteresis := self.rangeHysteresis);
    other := other.(rangeReference := self.rangeReference);
  }

  /** `eq` is an equivalence relation. */
  lemma PeakWhiteRangeEqIsEquivalence(a: PeakWhiteConfigurationRange, b: PeakWhiteConfigurationRange,
                                      c: PeakWhiteConfigurationRange)
    ensures PeakWhiteRangeEq(a, a)
    ensures PeakWhiteRangeEq(a, b) ==> PeakWhiteRangeEq(b, a)
    ensures PeakWhiteRangeEq(a, b) && PeakWhiteRangeEq(b, c) ==> PeakWhiteRangeEq(a, c)
  {
  }
}
