/**
 * The automatic black level switch of ueye-sys/src/black_level.rs, its
 * conversion from a `bool`, and the capability flags `BLACKLEVEL_CAPS`.
 */
module BlackLevel {
  import opened RustStd
  import opened Flags

  /** `BLACKLEVEL_MODES`. */
  datatype BlacklevelModes = IsAutoBlacklevelOff | IsAutoBlacklevelOn
  {
    function Discriminant(): UInt32
    {
      if IsAutoBlacklevelOn? then 1 else 0
    }
  }

  /** `BLACKLEVEL_MODES::from(bool)`: on exactly for `true`; a non-zero discriminant gives the `bool` back. */
  function BlacklevelModesFrom(value: bool): (r: BlacklevelModes)
    ensures r.Discriminant() == if value then 1 else 0
    ensures (r.Discriminant() != 0) == value
  {
    if value then IsAutoBlacklevelOn else IsAutoBlacklevelOff
  }

  const IS_BLACKLEVEL_CAP_SET_AUTO_BLACKLEVEL: bv32 := 1
  const IS_BLACKLEVEL_CAP_SET_OFFSET: bv32 := 2

  /** The two capabilities are disjoint single bits. */
  lemma BlacklevelCapsBits()
    ensures DistinctSingleBits([IS_BLACKLEVEL_CAP_SET_AUTO_BLACKLEVEL, IS_BLACKLEVEL_CAP_SET_OFFSET])
  {
  }
}
