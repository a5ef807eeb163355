/**
 * The GigE structures of ueye-sys/src/eth.rs whose `PartialEq` (and, for the
 * IPv4 address, `Hash`) are written by hand: they compare the public fields
 * only, skipping reserved bytes, and read the IPv4 union through its byte view.
 */
module Eth {
  import opened RustStd

  type Bytes2 = s: seq<UInt8> | |s| == 2 witness [0, 0]
  type Bytes4 = s: seq<UInt8> | |s| == 4 witness [0, 0, 0, 0]
  type Bytes6 = s: seq<UInt8> | |s| == 6 witness seq(6, _ => 0)
  type Bytes8 = s: seq<UInt8> | |s| == 8 witness seq(8, _ => 0)
  type Bytes12 = s: seq<UInt8> | |s| == 12 witness seq(12, _ => 0)
  type Bytes64 = s: seq<UInt8> | |s| == 64 witness seq(64, _ => 0)
  type Bytes80 = s: seq<UInt8> | |s| == 80 witness seq(80, _ => 0)
  type Bytes84 = s: seq<UInt8> | |s| == 84 witness seq(84, _ => 0)

  /** `UEYE_ETH_ADDR_IPV4_by`: the four bytes of an address, in memory order. */
  datatype Ipv4Bytes = Ipv4Bytes(by1: UInt8, by2: UInt8, by3: UInt8, by4: UInt8)

  /**
   * `UEYE_ETH_ADDR_IPV4`: a union of the byte view `by` and the `DWORD` view
   * `dwAddr` over the same four bytes. The model holds the bytes, as the `by` view
   * (named `bytes` here); `DwAddr` reads them as the `DWORD`.
   */
  datatype EthAddrIpv4 = EthAddrIpv4(bytes: Ipv4Bytes)

  /** `UEYE_ETH_ADDR_MAC`: six octets; `==` is derived. */
  datatype EthAddrMac = EthAddrMac(abyOctet: Bytes6)

  /** `UEYE_ETH_IP_CONFIGURATION`. */
  datatype IpConfiguration = IpConfiguration(ipAddress: EthAddrIpv4, ipSubnetmask: EthAddrIpv4, reserved: Bytes4)

  /** `UEYE_ETH_AUTOCFG_IP_SETUP`. */
  datatype AutocfgIpSetup = AutocfgIpSetup(
    ipAutoCfgIpRangeBegin: EthAddrIpv4,
    ipAutoCfgIpRangeEnd: EthAddrIpv4,
    reserved: Bytes4)

  /** `UEYE_ETH_DEVICE_INFO_CONTROL`; the status is the `u32` of `UEYE_ETH_CONTROLSTATUS`. */
  datatype DeviceInfoControl = DeviceInfoControl(
    dwDeviceID: UInt32,
    dwControlStatus: UInt32,
    reserved_1: Bytes80,
    reserved_2: Bytes64)

  /** `UEYE_ETH_DEVICE_INFO_HEARTBEAT`; the status is the `u32` of `UEYE_ETH_DEVICESTATUS`. */
  datatype DeviceInfoHeartbeat = DeviceInfoHeartbeat(
    abySerialNumber: Bytes12,
    byDeviceType: UInt8,
    byCameraID: UInt8,
    wSensorID: UInt16,
    wSizeImgMem_MB: UInt16,
    reserved_1: Bytes2,
    dwVerStarterFirmware: UInt32,
    dwVerRuntimeFirmware: UInt32,
    dwStatus: UInt32,
    reserved_2: Bytes4,
    wTemperature: UInt16,
    wLinkSpeed_Mb: UInt16,
    macDevice: EthAddrMac,
    wComportOffset: UInt16,
    ipcfgPersistentIpCfg: IpConfiguration,
    ipcfgCurrentIpCfg: IpConfiguration,
    macPairedHost: EthAddrMac,
    reserved_4: Bytes2,
    ipPairedHostIp: EthAddrIpv4,
    ipAutoCfgIpRangeBegin: EthAddrIpv4,
    ipAutoCfgIpRangeEnd: EthAddrIpv4,
    abyUserSpace: Bytes8,
    reserved_5: Bytes84,
    reserved_6: Bytes64)

  /** `UEYE_ETH_ADDR_IPV4_by::eq`: the four bytes pairwise, which is equality of the byte view. */
  function Ipv4BytesEq(a: Ipv4Bytes, b: Ipv4Bytes): (r: bool)
    ensures r <==> a == b
  {
    a.by1 == b.by1 && a.by2 == b.by2 && a.by3 == b.by3 && a.by4 == b.by4
  }

  /** The `dwAddr` view of the union: the four bytes read as a little-endian `DWORD`. */
  function DwAddr(a: EthAddrIpv4): UInt32
  {
    a.bytes.by1 + 0x100 * a.bytes.by2 + 0x1_0000 * a.bytes.by3 + 0x100_0000 * a.bytes.by4
  }

  /** The union after a write through its `dwAddr` view: the bytes of `d`, least significant first. */
  function FromDwAddr(d: UInt32): EthAddrIpv4
  {
    EthAddrIpv4(Ipv4Bytes(d % 0x100, (d / 0x100) % 0x100, (d / 0x1_0000) % 0x100, d / 0x100_0000))
  }

  /** Writing a `DWORD` and reading it back gives the same `DWORD`. */
  lemma DwAddrFromDwAddr(d: UInt32)
    ensures DwAddr(FromDwAddr(d)) == d
  {
    var q1, q2 := d / 0x100, d / 0x1_0000;
    assert d == q1 * 0x100 + d % 0x100;
    assert q1 == (q1 / 0x100) * 0x100 + q1 % 0x100;
    assert q1 / 0x100 == q2;
    assert q2 == (q2 / 0x100) * 0x100 + q2 % 0x100;
    assert q2 / 0x100 == d / 0x100_0000;
  }

  /** Splitting `lo + m * hi` at `m` gives back `lo` and `hi`, when `lo` is below `m`. */
  lemma SplitAt(lo: int, hi: int, m: int)
    requires 0 <= lo < m && 0 <= hi
    ensures (lo + m * hi) % m == lo && (lo + m * hi) / m == hi
  {
    var n := lo + m * hi;
    var q, r := n / m, n % m;
    assert m * q + r == m * hi + lo;
    assert m * (q - hi) == lo - r;
    OnlyZeroMultipleIsSmall(m, q - hi);
  }

  /** The only multiple `m * k` strictly between `-m` and `m` is 0. */
  lemma OnlyZeroMultipleIsSmall(m: int, k: int)
    requires m > 0 && -m < m * k < m
    ensures k == 0
  {
    if k >= 1 {
      MultipleAtLeast(m, k);
    } else if k <= -1 {
      MultipleAtLeast(m, -k);
      NegatedMultiple(m, k);
    }
  }

  /** A positive multiple of `m` is at least `m`. */
  lemma {:induction false} MultipleAtLeast(m: int, k: int)
    requires m > 0 && k >= 1
    ensures m * k >= m
    decreases k
  {
    if k > 1 {
      MultipleAtLeast(m, k - 1);
      assert m * k == m * (k - 1) + m;
    }
  }

  /** `m * -k` is `-(m * k)`. */
  lemma NegatedMultiple(m: int, k: int)
    ensures m * -k == -(m * k)
  {
  }

  /** Reading the bytes as a `DWORD` and writing that back gives the same bytes. */
  lemma FromDwAddrDwAddr(a: EthAddrIpv4)
    ensures FromDwAddr(DwAddr(a)) == a
  {
    var b := a.bytes;
    var d := DwAddr(a);
    var hi1 := b.by2 + 0x100 * b.by3 + 0x1_0000 * b.by4;
    var hi2 := b.by3 + 0x100 * b.by4;
    assert d == b.by1 + 0x100 * hi1;
    SplitAt(b.by1, hi1, 0x100);
    assert hi1 == b.by2 + 0x100 * hi2;
    SplitAt(b.by2, hi2, 0x100);
    assert d == (b.by1 + 0x100 * b.by2) + 0x1_0000 * hi2;
    SplitAt(b.by1 + 0x100 * b.by2, hi2, 0x1_0000);
    SplitAt(b.by3, b.by4, 0x100);
    assert d == (b.by1 + 0x100 * b.by2 + 0x1_0000 * b.by3) + 0x100_0000 * b.by4;
    SplitAt(b.by1 + 0x100 * b.by2 + 0x1_0000 * b.by3, b.by4, 0x100_0000);
  }

  /**
   * `UEYE_ETH_ADDR_IPV4::eq`: the byte views, by `UEYE_ETH_ADDR_IPV4_by::eq`.
   * Since both views alias the same bytes, two addresses are equal exactly when
   * their `dwAddr` views are.
   */
  function Ipv4Eq(a: EthAddrIpv4, b: EthAddrIpv4): (r: bool)
    ensures r <==> a == b
    ensures r <==> DwAddr(a) == DwAddr(b)
  {
    FromDwAddrDwAddr(a);
    FromDwAddrDwAddr(b);
    Ipv4BytesEq(a.bytes, b.bytes)
  }

  /** `UEYE_ETH_ADDR_IPV4::hash`: the derived hash of the byte view writes its four bytes in order. */
  function Ipv4HashInput(a: EthAddrIpv4): (h: seq<int>)
    ensures |h| == 4 && h[0] == a.bytes.by1 && h[1] == a.bytes.by2
    ensures h[2] == a.bytes.by3 && h[3] == a.bytes.by4
  {
    [a.bytes.by1, a.bytes.by2, a.bytes.by3, a.bytes.by4]
  }

  /** The hash agrees with `eq`, whatever the hasher; and it tells unequal addresses apart. */
  lemma Ipv4HashAgreesWithEq(a: EthAddrIpv4, b: EthAddrIpv4, hasher: seq<int> -> int)
    ensures Ipv4Eq(a, b) ==> hasher(Ipv4HashInput(a)) == hasher(Ipv4HashInput(b))
    ensures Ipv4HashInput(a) == Ipv4HashInput(b) <==> Ipv4Eq(a, b)
  {
    if Ipv4HashInput(a) == Ipv4HashInput(b) {
      assert Ipv4HashInput(a)[1] == Ipv4HashInput(b)[1];
      assert Ipv4HashInput(a)[2] == Ipv4HashInput(b)[2];
    }
  }

  /**
   * `UEYE_ETH_IP_CONFIGURATION::eq`: address and subnet mask. Two
   * configurations are equal exactly when they differ at most in `reserved`.
   */
  function IpConfigurationEq(a: IpConfiguration, b: IpConfiguration): (r: bool)
    ensures r <==> a.(reserved := b.reserved) == b
  {
    Ipv4Eq(a.ipAddress, b.ipAddress) && Ipv4Eq(a.ipSubnetmask, b.ipSubnetmask)
  }

  /**
   * `UEYE_ETH_AUTOCFG_IP_SETUP::eq`: first and last address of the range. Two
   * setups are equal exactly when they differ at most in `reserved`.
   */
  function AutocfgIpSetupEq(a: AutocfgIpSetup, b: AutocfgIpSetup): (r: bool)
    ensures r <==> a.(reserved := b.reserved) == b
  {
    Ipv4Eq(a.ipAutoCfgIpRangeBegin, b.ipAutoCfgIpRangeBegin) && Ipv4Eq(a.ipAutoCfgIpRangeEnd, b.ipAutoCfgIpRangeEnd)
  }

  /**
   * `UEYE_ETH_DEVICE_INFO_CONTROL::eq`: device ID and control status. Two
   * records are equal exactly when they differ at most in their 144 reserved bytes.
   */
  function DeviceInfoControlEq(a: DeviceInfoControl, b: DeviceInfoControl): (r: bool)
    ensures r <==> a.(reserved_1 := b.reserved_1, reserved_2 := b.reserved_2) == b
  {
    a.dwDeviceID == b.dwDeviceID && a.dwControlStatus == b.dwControlStatus
  }

  /**
   * `a` with every reserved byte taken from `b`: its own `reserved_1/2/4/5/6`
   * and those of its two IP configurations.
   */
  function HeartbeatWithReservedOf(a: DeviceInfoHeartbeat, b: DeviceInfoHeartbeat): DeviceInfoHeartbeat
  {
    a.(reserved_1 := b.reserved_1, reserved_2 := b.reserved_2, reserved_4 := b.reserved_4,
       reserved_5 := b.reserved_5, reserved_6 := b.reserved_6,
       ipcfgPersistentIpCfg := a.ipcfgPersistentIpCfg.(reserved := b.ipcfgPersistentIpCfg.reserved),
       ipcfgCurrentIpCfg := a.ipcfgCurrentIpCfg.(reserved := b.ipcfgCurrentIpCfg.reserved))
  }

  /**
   * `UEYE_ETH_DEVICE_INFO_HEARTBEAT::eq`: the 19 public fields, the IP
   * configurations by their own `eq`. Two heartbeats are equal exactly when
   * they differ at most in reserved bytes.
   */
  function HeartbeatEq(a: DeviceInfoHeartbeat, b: DeviceInfoHeartbeat): (r: bool)
    ensures r <==> HeartbeatWithReservedOf(a, b) == b
  {
    && a.abySerialNumber == b.abySerialNumber
    && a.byDeviceType == b.byDeviceType
    && a.byCameraID == b.byCameraID
    && a.wSensorID == b.wSensorID
    && a.wSizeImgMem_MB == b.wSizeImgMem_MB
    && a.dwVerStarterFirmware == b.dwVerStarterFirmware
    && a.dwVerRuntimeFirmware == b.dwVerRuntimeFirmware
    && a.dwStatus == b.dwStatus
    && a.wTemperature == b.wTemperature
    && a.wLinkSpeed_Mb == b.wLinkSpeed_Mb
    && a.macDevice == b.macDevice
    && a.wComportOffset == b.wComportOffset
    && IpConfigurationEq(a.ipcfgPersistentIpCfg, b.ipcfgPersistentIpCfg)
    && IpConfigurationEq(a.ipcfgCurrentIpCfg, b.ipcfgCurrentIpCfg)
    && a.macPairedHost == b.macPairedHost
    && Ipv4Eq(a.ipPairedHostIp, b.ipPairedHostIp)
    && Ipv4Eq(a.ipAutoCfgIpRangeBegin, b.ipAutoCfgIpRangeBegin)
    && Ipv4Eq(a.ipAutoCfgIpRangeEnd, b.ipAutoCfgIpRangeEnd)
    && a.abyUserSpace == b.abyUserSpace
  }

  /** Each of the hand-written equalities is an equivalence relation. */
  lemma EqualitiesAreEquivalences(
    a: IpConfiguration, b: IpConfiguration, c: IpConfiguration,
    d: AutocfgIpSetup, e: AutocfgIpSetup, f: AutocfgIpSetup,
    g: DeviceInfoControl, h: DeviceInfoControl, i: DeviceInfoControl,
    x: DeviceInfoHeartbeat, y: DeviceInfoHeartbeat, z: DeviceInfoHeartbeat)
    ensures IpConfigurationEq(a, a) && (IpConfigurationEq(a, b) ==> IpConfigurationEq(b, a))
    ensures IpConfigurationEq(a, b) && IpConfigurationEq(b, c) ==> IpConfigurationEq(a, c)
    ensures AutocfgIpSetupEq(d, d) && (AutocfgIpSetupEq(d, e) ==> AutocfgIpSetupEq(e, d))
    ensures AutocfgIpSetupEq(d, e) && AutocfgIpSetupEq(e, f) ==> AutocfgIpSetupEq(d, f)
    ensures DeviceInfoControlEq(g, g) && (DeviceInfoControlEq(g, h) ==> DeviceInfoControlEq(h, g))
    ensures DeviceInfoControlEq(g, h) && DeviceInfoControlEq(h, i) ==> DeviceInfoControlEq(g, i)
    ensures HeartbeatEq(x, x) && (HeartbeatEq(x, y) ==> HeartbeatEq(y, x))
    ensures HeartbeatEq(x, y) && HeartbeatEq(y, z) ==> HeartbeatEq(x, z)
  {
  }
}
