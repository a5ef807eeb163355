/**
 * The switches of `is_Configuration` in ueye-sys/src/configuration.rs that
 * convert from a `bool`, and the capability flags `CONFIGURATION_CAPS`.
 * `CONFIGURATION_SEL_IPO` exists on Windows only and
 * `CONFIGURATION_SEL_ETH_CONFIGURATION` on Linux only; the model has both.
 */
module Configuration {
  import opened RustStd
  import opened Flags

  /** `CONFIGURATION_SEL_IPO` (Windows). */
  datatype ConfigurationSelIpo = IsConfigIpoNotAllowed | IsConfigIpoAllowed
  {
    function Discriminant(): UInt32
    {
      if IsConfigIpoAllowed? then 1 else 0
    }
  }

  /** `CONFIGURATION_SEL_OPEN_MP`. */
  datatype ConfigurationSelOpenMp = IsConfigOpenMpDisable | IsConfigOpenMpEnable
  {
    function Discriminant(): UInt32
    {
      if IsConfigOpenMpEnable? then 1 else 0
    }
  }

  /** `CONFIGURATION_SEL_ETH_CONFIGURATION` (Linux). */
  datatype ConfigurationSelEthConfiguration = IsConfigEthConfigurationModeOff | IsConfigEthConfigurationModeOn
  {
    function Discriminant(): UInt32
    {
      if IsConfigEthConfigurationModeOn? then 1 else 0
    }
  }

  /** `CONFIGURATION_SEL_TRUSTED_PAIRING`. */
  datatype ConfigurationSelTrustedPairing = IsConfigTrustedPairingOff | IsConfigTrustedPairingOn
  {
    function Discriminant(): UInt32
    {
      if IsConfigTrustedPairingOn? then 1 else 0
    }
  }

  /** `CONFIGURATION_SEL_IMAGE_MEMORY_COMPATIBILITY_MODE`. */
  datatype ConfigurationSelImageMemoryCompatibilityMode =
    | IsConfigImageMemoryCompatibilityModeOff
    | IsConfigImageMemoryCompatibilityModeOn
  {
    function Discriminant(): UInt32
    {
      if IsConfigImageMemoryCompatibilityModeOn? then 1 else 0
    }
  }

  /** `CONFIGURATION_SEL_IPO::from(bool)`: allowed exactly for `true`. */
  function IpoFrom(value: bool): (r: ConfigurationSelIpo)
    ensures r.Discriminant() == if value then 1 else 0
  {
    if value then IsConfigIpoAllowed else IsConfigIpoNotAllowed
  }

  /** `CONFIGURATION_SEL_OPEN_MP::from(bool)`: enabled exactly for `true`. */
  function OpenMpFrom(value: bool): (r: ConfigurationSelOpenMp)
    ensures r.Discriminant() == if value then 1 else 0
  {
    if value then IsConfigOpenMpEnable else IsConfigOpenMpDisable
  }

  /** `CONFIGURATION_SEL_ETH_CONFIGURATION::from(bool)`: on exactly for `true`. */
  function EthConfigurationFrom(value: bool): (r: ConfigurationSelEthConfiguration)
    ensures r.Discriminant() == if value then 1 else 0
  {
    if value then IsConfigEthConfigurationModeOn else IsConfigEthConfigurationModeOff
  }

  /** `CONFIGURATION_SEL_TRUSTED_PAIRING::from(bool)`: on exactly for `true`. */
  function TrustedPairingFrom(value: bool): (r: ConfigurationSelTrustedPairing)
    ensures r.Discriminant() == if value then 1 else 0
  {
    if value then IsConfigTrustedPairingOn else IsConfigTrustedPairingOff
  }

  /** `CONFIGURATION_SEL_IMAGE_MEMORY_COMPATIBILITY_MODE::from(bool)`: on exactly for `true`. */
  function ImageMemoryCompatibilityModeFrom(value: bool): (r: ConfigurationSelImageMemoryCompatibilityMode)
    ensures r.Discriminant() == if value then 1 else 0
  {
    if value then IsConfigImageMemoryCompatibilityModeOn else IsConfigImageMemoryCompatibilityModeOff
  }

  /** Each conversion is injective: a non-zero discriminant gives the `bool` back. */
  lemma FromBoolInjective(a: bool, b: bool)
    requires a != b
    ensures IpoFrom(a) != IpoFrom(b) && (IpoFrom(a).Discriminant() != 0) == a
    ensures OpenMpFrom(a) != OpenMpFrom(b) && (OpenMpFrom(a).Discriminant() != 0) == a
    ensures EthConfigurationFrom(a) != EthConfigurationFrom(b) && (EthConfigurationFrom(a).Discriminant() != 0) == a
    ensures TrustedPairingFrom(a) != TrustedPairingFrom(b) && (TrustedPairingFrom(a).Discriminant() != 0) == a
    ensures ImageMemoryCompatibilityModeFrom(a) != ImageMemoryCompatibilityModeFrom(b)
    ensures (ImageMemoryCompatibilityModeFrom(a).Discriminant() != 0) == a
  {
  }

  /** `CONFIGURATION_CAPS`. */
  datatype ConfigurationCaps =
    | IsConfigCpuIdleStatesCapSupported
    | IsConfigOpenMpCapSupported
    | IsConfigInitialParametersetCapSupported
    | IsConfigIpoCapSupported
    | IsConfigTrustedPairingCapSupported
  {
    function Discriminant(): bv32
    {
      match this
      case IsConfigCpuIdleStatesCapSupported => 0x01
      case IsConfigOpenMpCapSupported => 0x02
      case IsConfigInitialParametersetCapSupported => 0x04
      case IsConfigIpoCapSupported => 0x08
      case IsConfigTrustedPairingCapSupported => 0x10
    }
  }

  /** The capabilities are five distinct single bits, 0x1 to 0x10. */
  lemma ConfigurationCapsBits(a: ConfigurationCaps, b: ConfigurationCaps)
    ensures IsSingleBit(a.Discriminant()) && 0x1 <= a.Discriminant() <= 0x10
    ensures a != b ==> a.Discriminant() & b.Discriminant() == 0
  {
  }
}
