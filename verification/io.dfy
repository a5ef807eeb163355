/**
 * The flash and GPIO flags of ueye-sys/src/io.rs: the flash mode, the flash
 * port flags and their mask, the PWM bit, which together form the flash mode
 * word of `IS_IO_CMD_FLASH_SET_MODE`/`IS_IO_CMD_FLASH_GET_MODE`, the GPIO and
 * GPIO capability flags, and the conversion of a `bool` into the auto-freerun
 * switch.
 */
module Io {
  import opened RustStd
  import opened Flags

  /** `IO_FLASH_MODE`. */
  datatype IoFlashMode =
    | IoFlashModeOff
    | IoFlashModeTriggerLoActive
    | IoFlashModeTriggerHiActive
    | IoFlashModeConstantHigh
    | IoFlashModeConstantLow
    | IoFlashModeFreerunLoActive
    | IoFlashModeFreerunHiActive
  {
    function Discriminant(): bv32
    {
      match this
      case IoFlashModeOff => 0
      case IoFlashModeTriggerLoActive => 1
      case IoFlashModeTriggerHiActive => 2
      case IoFlashModeConstantHigh => 3
      case IoFlashModeConstantLow => 4
      case IoFlashModeFreerunLoActive => 5
      case IoFlashModeFreerunHiActive => 6
    }
  }

  /** The flash mode whose discriminant is `d`, if any. */
  function IoFlashModeOf(d: bv32): (m: Option<IoFlashMode>)
    ensures m.Some? <==> d <= 6
    ensures m.Some? ==> m.value.Discriminant() == d
  {
    if d == 0 then Some(IoFlashModeOff)
    else if d == 1 then Some(IoFlashModeTriggerLoActive)
    else if d == 2 then Some(IoFlashModeTriggerHiActive)
    else if d == 3 then Some(IoFlashModeConstantHigh)
    else if d == 4 then Some(IoFlashModeConstantLow)
    else if d == 5 then Some(IoFlashModeFreerunLoActive)
    else if d == 6 then Some(IoFlashModeFreerunHiActive)
    else None
  }

  const IS_FLASH_MODE_PWM: bv32 := 0x8000

  const IO_FLASH_MODE_GPIO_1: bv32 := 0x0010
  const IO_FLASH_MODE_GPIO_2: bv32 := 0x0020
  const IO_FLASH_MODE_GPIO_3: bv32 := 0x0040
  const IO_FLASH_MODE_GPIO_4: bv32 := 0x0080
  const IO_FLASH_MODE_GPIO_5: bv32 := 0x0100
  const IO_FLASH_MODE_GPIO_6: bv32 := 0x0200

  /** The flags of `IO_FLASH_PORT`, in declaration order. */
  const FlashPorts: seq<bv32> := [IO_FLASH_MODE_GPIO_1, IO_FLASH_MODE_GPIO_2, IO_FLASH_MODE_GPIO_3,
                                  IO_FLASH_MODE_GPIO_4, IO_FLASH_MODE_GPIO_5, IO_FLASH_MODE_GPIO_6]

  /**
   * `IO_FLASH_GPIO_PORT_MASK`, which the crate computes as
   * `IO_FLASH_PORT::all().bits()`; `FlashPortFlags` proves that this value is
   * that union.
   */
  const IO_FLASH_GPIO_PORT_MASK: bv32 := 0x03F0

  /** The six port flags are single bits from 0x10 to 0x200, and the mask is their union. */
  lemma FlashPortFlags()
    ensures DistinctSingleBits(FlashPorts)
    ensures forall p | p in FlashPorts :: 0x10 <= p <= 0x200
    ensures IO_FLASH_GPIO_PORT_MASK == UnionAll(FlashPorts)
  {
    PortMaskIsUnion();
  }

  /** The mask is the union of the six port flags, built up one flag at a time. */
  lemma PortMaskIsUnion()
    ensures IO_FLASH_GPIO_PORT_MASK == UnionAll(FlashPorts)
  {
    assert UnionAll(FlashPorts[..1]) == 0x0010;
    assert UnionAll(FlashPorts[..2]) == 0x0030;
    assert FlashPorts[..3][..2] == FlashPorts[..2];
    assert UnionAll(FlashPorts[..3]) == 0x0070;
    assert FlashPorts[..4][..3] == FlashPorts[..3];
    assert UnionAll(FlashPorts[..4]) == 0x00F0;
    assert FlashPorts[..5][..4] == FlashPorts[..4];
    assert UnionAll(FlashPorts[..5]) == 0x01F0;
    assert FlashPorts[..6][..5] == FlashPorts[..5];
    assert FlashPorts[..6] == FlashPorts;
  }

  /**
   * Every flash mode, every subset of the port mask and the PWM bit occupy
   * pairwise disjoint bits.
   */
  lemma FlashModeWordFieldsDisjoint(m: IoFlashMode, ports: bv32)
    requires ports & !IO_FLASH_GPIO_PORT_MASK == 0
    ensures m.Discriminant() & ports == 0
    ensures m.Discriminant() & IS_FLASH_MODE_PWM == 0
    ensures ports & IS_FLASH_MODE_PWM == 0
  {
  }

  /** The flash mode word: a flash mode combined with port flags and, optionally, the PWM bit. */
  function FlashModeWord(m: IoFlashMode, ports: bv32, pwm: bool): bv32
  {
    m.Discriminant() | ports | (if pwm then IS_FLASH_MODE_PWM else 0)
  }

  /** A flash mode word taken apart into its mode, its ports and its PWM bit. */
  datatype FlashModeParts = FlashModeParts(mode: Option<IoFlashMode>, ports: bv32, pwm: bool)

  /** Takes a flash mode word apart; the mode is `None` when its bits name no flash mode. */
  function SplitFlashModeWord(w: bv32): (p: FlashModeParts)
    ensures p.ports & !IO_FLASH_GPIO_PORT_MASK == 0
  {
    FlashModeParts(IoFlashModeOf(w & !(IO_FLASH_GPIO_PORT_MASK | IS_FLASH_MODE_PWM)),
                   w & IO_FLASH_GPIO_PORT_MASK,
                   w & IS_FLASH_MODE_PWM != 0)
  }

  /** Splitting a word of three fields in disjoint bits gives back each field. */
  lemma SplitWordFields(d: bv32, ports: bv32, pwm: bv32)
    requires d <= 6 && ports & !IO_FLASH_GPIO_PORT_MASK == 0 && (pwm == 0 || pwm == IS_FLASH_MODE_PWM)
    ensures SplitFlashModeWord(d | ports | pwm) == FlashModeParts(IoFlashModeOf(d), ports, pwm != 0)
  {
    var w := d | ports | pwm;
    assert w & !(IO_FLASH_GPIO_PORT_MASK | IS_FLASH_MODE_PWM) == d;
    assert w & IO_FLASH_GPIO_PORT_MASK == ports;
    assert (w & IS_FLASH_MODE_PWM != 0) == (pwm != 0);
  }

  /** A flash mode word splits back into the three parts it was combined from. */
  lemma SplitFlashModeWordInverse(m: IoFlashMode, ports: bv32, pwm: bool)
    requires ports & !IO_FLASH_GPIO_PORT_MASK == 0
    ensures SplitFlashModeWord(FlashModeWord(m, ports, pwm)) == FlashModeParts(Some(m), ports, pwm)
  {
    SplitWordFields(m.Discriminant(), ports, if pwm then IS_FLASH_MODE_PWM else 0);
    assert IoFlashModeOf(m.Discriminant()) == Some(m);
  }

  /** `FLASH_AUTO_FREERUN`. */
  datatype FlashAutoFreerun = IsFlashAutoFreerunOff | IsFlashAutoFreerunOn
  {
    function Discriminant(): UInt32
    {
      match this
      case IsFlashAutoFreerunOff => 0
      case IsFlashAutoFreerunOn => 1
    }
  }

  /** `FLASH_AUTO_FREERUN::from(bool)`: the discriminant is the `bool` as 0 or 1. */
  function FlashAutoFreerunFrom(b: bool): (r: FlashAutoFreerun)
    ensures r.Discriminant() == if b then 1 else 0
  {
    if b then IsFlashAutoFreerunOn else IsFlashAutoFreerunOff
  }

  /** The flags of `IO_GPIO`. */
  const Gpios: seq<bv32> := [0x0001, 0x0002, 0x0004, 0x0008, 0x0010, 0x0020]

  /** The flags of `GPIO_CAPS`: input, output, flash, PWM, COM port RX and TX, multi integration, trigger, I2C. */
  const GpioCaps: seq<bv32> := [0x0001, 0x0002, 0x0004, 0x0008, 0x0010, 0x0020, 0x0040, 0x0080, 0x0100]

  /** `IO_GPIO` holds six distinct single bits. */
  lemma GpioFlags()
    ensures |Gpios| == 6 && DistinctSingleBits(Gpios)
  {
  }

  /** `GPIO_CAPS` holds nine distinct single bits. */
  lemma GpioCapsFlags()
    ensures |GpioCaps| == 9 && DistinctSingleBits(GpioCaps)
  {
  }
}
