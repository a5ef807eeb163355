# uEye sys crate: a verified model of its hand-written value logic

`ueye-sys` is the raw binding of the IDS uEye camera driver API for Rust.
Almost all of it declares foreign functions and transcribes the vendor's enums,
bit flags and `#[repr(C)]` structures. This project models the small part its
authors wrote by hand, and the repository's coverage script:

- **Range and size orderings** (`Range`, `Geometry`, `ImageBuffer`, `Focus`).
  `IS_RANGE_U32`, `IS_RANGE_S32`, `ID_RANGE` and `AUTOFOCUS_LIMIT` are ordered
  by a `size`, and `IS_SIZE_2D` and `IS_RECT` by an `area`, while `==` stays
  field-wise. Arithmetic that Rust checks in debug builds returns
  `Checked<T>`, where `Overflow` stands for the panic.
- **Equality, hash and clone that skip reserved bytes** (`ImageBuffer`,
  `AutoParameter`, `Eth`). Each `eq` is characterised as "equal up to the
  reserved bytes". Each clone is a method that starts from arbitrary
  uninitialised memory. A hash is the sequence of values fed to the hasher.
- **Bit and word helpers** (`Discrete`, `Flags`, `Lut`, `Io`, `Configuration`,
  `BlackLevel`). These are the `HIBYTE`/`LOBYTE`/`HIWORD`/`LOWORD` macros,
  `to_wide`, the composite flag constants, and the `From<bool>` conversions.
- **`IS_POWER_DELIVERY_PROFILES`** (`PowerDelivery`). This covers the default
  profile and `voltage`, modelled as a Rust `match` that tries its arms in
  order.
- **The coverage script** (`Coverage`). Python's insertion-ordered `dict` is
  an order sequence plus a map. The merge, mark and dump phases of `main` are
  loop methods, proved against recursive specification functions.

`RustStd` holds the Rust integer widths, `Option`, `Ordering`, and the
overflow-checked operations the orderings share. `Flags` holds the bit-set
predicates.

## Model

| member | source | states |
|---|---|---|
| RustStd.CmpByTotalPreorder | ueye-sys/src/types/range.rs:28-40 | Comparing by a defined key is reflexive, antisymmetric by reversal, total and transitive; every ordering below reuses this |
| Range.U32Size | ueye-sys/src/types/range.rs:21-26 | `u32Max - u32Min` panics exactly when the minimum exceeds the maximum; otherwise adding it to the minimum gives the maximum |
| Range.U32Cmp | ueye-sys/src/types/range.rs:35-40 | Defined exactly when both sizes are; `Equal` and `Less` exactly when the two widths are equal or smaller |
| Range.U32PartialCmp | ueye-sys/src/types/range.rs:28-33 | Never `None`: always `Some` of `cmp`, panicking exactly when `cmp` does |
| Range.S32Size | ueye-sys/src/types/range.rs:56-61 | `s32Max - s32Min` panics exactly when the difference leaves `i32`; it is negative exactly for an inverted range |
| Range.S32Cmp | ueye-sys/src/types/range.rs:70-75 | Orders signed ranges by their width, defined exactly when both widths fit in `i32` |
| Range.S32PartialCmp | ueye-sys/src/types/range.rs:63-68 | Always `Some` of `cmp` |
| Range.U32CmpTotalPreorder | ueye-sys/src/types/range.rs:28-40 | On well-formed ranges the order is a total preorder |
| Range.S32CmpTotalPreorder | ueye-sys/src/types/range.rs:63-75 | On ranges whose width fits, the order is a total preorder |
| Range.CmpIgnoresIncrement | ueye-sys/src/types/range.rs:21-40 | The increment plays no part in the order |
| Range.CmpEqualIsNotEquality | ueye-sys/src/types/range.rs:8-19 | Ranges comparing `Equal` can differ under the derived `==` |
| Range.SizeShiftInvariant | ueye-sys/src/types/range.rs:21-26 | Shifting both ends by the same amount keeps the size |
| Geometry.SizeArea | ueye-sys/src/types/geometry.rs:19-24 | Width times height, panicking exactly when the product leaves `i32` |
| Geometry.SizeCmp | ueye-sys/src/types/geometry.rs:33-38 | Sizes compare by area alone, defined exactly when both areas fit |
| Geometry.SizePartialCmp | ueye-sys/src/types/geometry.rs:26-31 | Always `Some` of `cmp` |
| Geometry.RectArea | ueye-sys/src/types/geometry.rs:49-54 | The product of the position `s32X * s32Y`, panicking exactly when it leaves `i32` |
| Geometry.RectCmp | ueye-sys/src/types/geometry.rs:63-68 | Rectangles compare by that product alone |
| Geometry.RectPartialCmp | ueye-sys/src/types/geometry.rs:56-61 | Always `Some` of `cmp` |
| Geometry.SizeAreaSymmetric | ueye-sys/src/types/geometry.rs:19-24 | Swapping width and height keeps the area |
| Geometry.SizeCmpTotalPreorder | ueye-sys/src/types/geometry.rs:26-38 | On sizes whose area fits, the order is a total preorder |
| Geometry.RectCmpTotalPreorder | ueye-sys/src/types/geometry.rs:56-68 | On rectangles whose area fits, the order is a total preorder |
| Geometry.RectAreaIgnoresSize | ueye-sys/src/types/geometry.rs:49-54 | Width and height change neither a rectangle's area nor its place in the order |
| Geometry.RectOnAxisHasNoArea | ueye-sys/src/types/geometry.rs:49-54 | A rectangle at `x = 0` or `y = 0` has area 0 whatever its size |
| Geometry.CmpEqualIsNotEquality | ueye-sys/src/types/geometry.rs:12-17 | A 2×3 and a 3×2 size compare `Equal` but differ under `==` |
| Geometry.RectCmpIgnoresSize | ueye-sys/src/types/geometry.rs:49-68 | A 640×480 and a 1×1 rectangle at (2, 3) compare `Equal`; the intended order says `Greater` |
| Geometry.IntendedRectArea | ueye-sys/src/types/geometry.rs:49-54 | The corrected area: width times height, the same as the area of the rectangle's size |
| Geometry.IntendedRectCmp | ueye-sys/src/types/geometry.rs:56-68 | The corrected order is the order of the rectangles' sizes |
| Geometry.IntendedRectCmpProperties | ueye-sys/src/types/geometry.rs:56-68 | The corrected order ignores position and is a total preorder |
| ImageBuffer.IdRangeSize | ueye-sys/src/image_buffer.rs:55-60 | `(last - first).abs()`, defined exactly when the distance fits in `i32`, never negative, and equal to that distance |
| ImageBuffer.IdRangeCmp | ueye-sys/src/image_buffer.rs:69-74 | Orders ID ranges by their size alone |
| ImageBuffer.IdRangePartialCmp | ueye-sys/src/image_buffer.rs:62-67 | Always `Some` of `cmp` |
| ImageBuffer.IdRangeSizeSymmetric | ueye-sys/src/image_buffer.rs:55-60 | Swapping first and last keeps the size and whether it overflows |
| ImageBuffer.IdRangeCmpTotalPreorder | ueye-sys/src/image_buffer.rs:62-74 | On ranges whose size is defined, the order is a total preorder |
| ImageBuffer.IdRangeCmpEqualIsNotEquality | ueye-sys/src/image_buffer.rs:45-51 | Ranges comparing `Equal` can differ under `==` |
| ImageBuffer.IterationInfoEq | ueye-sys/src/image_buffer.rs:106-110 | Equal exactly when the infos differ at most in their reserved bytes |
| ImageBuffer.IterationInfoClone | ueye-sys/src/image_buffer.rs:93-104 | The clone is `eq` to its source, and its reserved bytes are the uninitialised memory it started from |
| ImageBuffer.IterationInfoHashInput | ueye-sys/src/image_buffer.rs:112-117 | Hashes the iteration ID, then the image range's first and last ID, in that order |
| ImageBuffer.IterationInfoHashAgreesWithEq | ueye-sys/src/image_buffer.rs:106-117 | For every hasher, `eq` values hash equal, and equal hash inputs mean `eq` |
| ImageBuffer.IterationInfoEqIsEquivalence | ueye-sys/src/image_buffer.rs:106-110 | `eq` is reflexive, symmetric and transitive |
| Focus.LimitSize | ueye-sys/src/focus.rs:203-208 | `(sMax - sMin).abs()`, defined exactly when the width fits in `i32`, never negative |
| Focus.LimitPartialCmp | ueye-sys/src/focus.rs:210-215 | Never `None`: `Some` of the comparison of the sizes |
| Focus.LimitSizeSymmetric | ueye-sys/src/focus.rs:203-208 | Swapping the ends keeps the size |
| Focus.PointLimitHasNoSize | ueye-sys/src/focus.rs:203-208 | A limit with equal ends has size 0 |
| Focus.PartialCmpEqualIsNotEquality | ueye-sys/src/focus.rs:195-215 | Limits of equal width at different places compare `Equal` but differ |
| AutoParameter.PeakWhiteRangeEq | ueye-sys/src/auto_parameter.rs:128-134 | Equal exactly when the values differ at most in their reserved bytes |
| AutoParameter.PeakWhiteRangeClone | ueye-sys/src/auto_parameter.rs:116-126 | The clone is `eq` to its source, and its reserved bytes are the uninitialised memory it started from |
| AutoParameter.PeakWhiteRangeEqIsEquivalence | ueye-sys/src/auto_parameter.rs:128-134 | `eq` is an equivalence relation |
| Eth.Ipv4BytesEq | ueye-sys/src/eth.rs:18-25 | Equal exactly when all four bytes are |
| Eth.DwAddrFromDwAddr | ueye-sys/src/eth.rs:30-36 | Reading the `dwAddr` view of the bytes written from a `DWORD` gives the `DWORD` back |
| Eth.FromDwAddrDwAddr | ueye-sys/src/eth.rs:30-36 | Writing back the `dwAddr` view of an address gives the same bytes |
| Eth.Ipv4Eq | ueye-sys/src/eth.rs:50-57 | Union equality through the byte view: equal exactly when the bytes are, and exactly when the `dwAddr` views are |
| Eth.Ipv4HashInput | ueye-sys/src/eth.rs:59-64 | Hashes the four bytes `by1`, `by2`, `by3`, `by4` in that order |
| Eth.Ipv4HashAgreesWithEq | ueye-sys/src/eth.rs:50-64 | Equal addresses hash equal for every hasher; hash inputs are equal exactly when the addresses are |
| Eth.IpConfigurationEq | ueye-sys/src/eth.rs:106-110 | Equal exactly when the configurations differ at most in their reserved bytes |
| Eth.AutocfgIpSetupEq | ueye-sys/src/eth.rs:493-498 | Equal exactly when the setups differ at most in their reserved bytes |
| Eth.DeviceInfoControlEq | ueye-sys/src/eth.rs:455-466 | Equal exactly when the two infos differ at most in `reserved_1` and `reserved_2` |
| Eth.HeartbeatEq | ueye-sys/src/eth.rs:308-354 | Equal exactly when the heartbeats differ at most in their reserved fields, including those of the nested IP configuration |
| Eth.EqualitiesAreEquivalences | ueye-sys/src/eth.rs:106-498 | Each of the four `eq` impls is reflexive, symmetric and transitive |
| Discrete.ConstantValues | ueye-sys/src/types/discrete.rs:8-44 | `INFINITE_UINT` is `u32::MAX`, `INFINITE_INT` is -1, `TRUE` is 1 and `FALSE` is 0 |
| Discrete.HiByte | ueye-sys/src/types/discrete.rs:11-15 | The byte is bits 8 to 15 of the operand |
| Discrete.LoByte | ueye-sys/src/types/discrete.rs:17-21 | The byte is the operand modulo 256 |
| Discrete.HiByteLoByte | ueye-sys/src/types/discrete.rs:11-21 | The two bytes recombine into the low 16 bits |
| Discrete.HiWord | ueye-sys/src/types/discrete.rs:23-27 | The word is bits 16 to 31 of the operand |
| Discrete.LoWord | ueye-sys/src/types/discrete.rs:29-33 | The word is the operand modulo 65536 |
| Discrete.HiWordLoWord | ueye-sys/src/types/discrete.rs:23-33 | The two words recombine into the whole operand |
| Discrete.ToWide | ueye-sys/src/types/discrete.rs:79-82 | One code point per `char`, in order, then a single NUL |
| Discrete.FromWideToWide | ueye-sys/src/types/discrete.rs:79-82 | Reading the wide string back gives the original string |
| Discrete.ToWideInjective | ueye-sys/src/types/discrete.rs:79-82 | Distinct strings give distinct wide strings |
| Discrete.ToWideFirstNul | ueye-sys/src/types/discrete.rs:79-82 | Without an embedded NUL, the terminator is the first NUL |
| Flags.UnionAll | ueye-sys/src/io.rs:112 | The union of a list of flags contains each of them; this is `all().bits()` of a flag set |
| Flags.UnionAllLeast | ueye-sys/src/io.rs:112 | Every value containing each flag contains the union, so `all().bits()` has no bit beyond the named flags |
| Lut.CompositeValues | ueye-sys/src/lut.rs:111-131 | The six composite state IDs are 0x210, 0x110, 0x310, 0x220, 0x120 and 0x320 |
| Lut.CompositeStructure | ueye-sys/src/lut.rs:100-131 | LUT-and-gamma is the union of LUT and gamma; hardware and software flags never mix; "not supported" is disjoint from all composites |
| Lut.LutEnabledFrom | ueye-sys/src/lut.rs:187-195 | The discriminant is the `bool` as 1 or 0; it is a plain integer, since `LUT_ENABLED` (lut.rs:176) carries `#[allow(u32)]` and not `#[repr(u32)]` |
| Io.IoFlashModeOf | ueye-sys/src/io.rs:44-69 | Some flash mode has discriminant `d` exactly when `d <= 6`, and it is that mode |
| Io.FlashPortFlags | ueye-sys/src/io.rs:85-112 | The six port flags are distinct single bits from 0x10 to 0x200, and the mask 0x3F0 is their union, `all().bits()` |
| Io.FlashModeWordFieldsDisjoint | ueye-sys/src/io.rs:44-112 | Flash modes, port subsets and the PWM bit occupy disjoint bits |
| Io.SplitFlashModeWord | ueye-sys/src/io.rs:462-484 | Taking a mode word apart yields ports inside the port mask |
| Io.SplitFlashModeWordInverse | ueye-sys/src/io.rs:462-484 | A mode word combined from a mode, ports and the PWM bit splits back into exactly those |
| Io.FlashAutoFreerunFrom | ueye-sys/src/io.rs:132-137 | The discriminant is the `bool` as 1 or 0 |
| Io.GpioFlags | ueye-sys/src/io.rs:200-207 | `IO_GPIO` has six distinct single bits |
| Io.GpioCapsFlags | ueye-sys/src/io.rs:228-258 | `GPIO_CAPS` has nine distinct single bits |
| Configuration.IpoFrom | ueye-sys/src/configuration.rs:46-51 | The discriminant is the `bool` as 1 or 0 |
| Configuration.OpenMpFrom | ueye-sys/src/configuration.rs:72-77 | The discriminant is the `bool` as 1 or 0 |
| Configuration.EthConfigurationFrom | ueye-sys/src/configuration.rs:120-125 | The discriminant is the `bool` as 1 or 0 |
| Configuration.TrustedPairingFrom | ueye-sys/src/configuration.rs:146-151 | The discriminant is the `bool` as 1 or 0 |
| Configuration.ImageMemoryCompatibilityModeFrom | ueye-sys/src/configuration.rs:172-177 | The discriminant is the `bool` as 1 or 0 |
| Configuration.FromBoolInjective | ueye-sys/src/configuration.rs:46-177 | Each conversion maps `true` and `false` to different variants, and a non-zero discriminant gives back `true` |
| Configuration.ConfigurationCapsBits | ueye-sys/src/configuration.rs:405-420 | The five capabilities are distinct single bits from 0x1 to 0x10 |
| BlackLevel.BlacklevelModesFrom | ueye-sys/src/black_level.rs:21-26 | The discriminant is the `bool` as 1 or 0, and a non-zero discriminant gives back `true` |
| BlackLevel.BlacklevelCapsBits | ueye-sys/src/black_level.rs:35-47 | The two capabilities are distinct single bits |
| PowerDelivery.ProfileBits | ueye-sys/src/power_delivery.rs:74-98 | `INVALID` is 0; the six voltage profiles are distinct single bits |
| PowerDelivery.Default | ueye-sys/src/power_delivery.rs:100-105 | The default is the 5 V low-power profile |
| PowerDelivery.FirstMatchingArm | ueye-sys/src/power_delivery.rs:109-117 | Rust's arm selection: the first arm with a matching pattern, and no arm when none matches |
| PowerDelivery.WildcardMakesExhaustive | ueye-sys/src/power_delivery.rs:109-117 | An arm list with a `_` somewhere always selects an arm, at or before the `_` |
| PowerDelivery.Voltage | ueye-sys/src/power_delivery.rs:107-119 | As written: every profile selects the first arm and yields 0.0 |
| PowerDelivery.LaterVoltageArmsUnreachable | ueye-sys/src/power_delivery.rs:110-116 | No profile ever reaches the 5, 9, 12, 14.8 or 15 V arm |
| PowerDelivery.VoltageIgnoresProfile | ueye-sys/src/power_delivery.rs:107-119 | The 9 V profile and the default profile both report 0.0 |
| PowerDelivery.SelectsArm | ueye-sys/src/power_delivery.rs:109-117 | A matching arm with no matching arm before it is the one selected |
| PowerDelivery.IntendedArmNamed | ueye-sys/src/power_delivery.rs:109-117 | In the corrected order, a named profile selects the arm that names it |
| PowerDelivery.IntendedArmOther | ueye-sys/src/power_delivery.rs:109-117 | In the corrected order, any other bit pattern falls through to the final `_` arm |
| PowerDelivery.IntendedArm | ueye-sys/src/power_delivery.rs:109-117 | The corrected order selects, for each profile, the arm of its own voltage, and `_` for everything else |
| PowerDelivery.IntendedVoltage | ueye-sys/src/power_delivery.rs:107-119 | The corrected lookup yields 0.0 exactly for profiles that name no voltage, and 5.0 for both 5 V profiles |
| PowerDelivery.IntendedVoltageValues | ueye-sys/src/power_delivery.rs:107-119 | Each named profile reports its own voltage; a mask of two profiles reports 0.0 |
| Coverage.CollectC | scripts/update-sys-coverage.py:90-93 | The dict after the C loop is a valid insertion-ordered dict |
| Coverage.CollectCEntries | scripts/update-sys-coverage.py:92-93 | The entries after the C loop are the records applied one after the other to a plain map, whatever the order |
| Coverage.CollectEntriesKeys | scripts/update-sys-coverage.py:92-93 | Those entries have exactly the C names as keys, each holding a C record of that name |
| Coverage.CollectEntriesLastWins | scripts/update-sys-coverage.py:92-93 | In those entries, a name holds the last record with that name |
| Coverage.CollectCKeys | scripts/update-sys-coverage.py:92-93 | The keys are exactly the C names, each holding a C record of that name |
| Coverage.CollectCLastWins | scripts/update-sys-coverage.py:92-93 | A repeated name holds its last record |
| Coverage.CollectCOrder | scripts/update-sys-coverage.py:92-93 | Keys are ordered by the first occurrence of their name, so an overwrite keeps the original position |
| Coverage.CollectCSize | scripts/update-sys-coverage.py:92-93 | There is one entry, and so one report line, per distinct C name |
| Coverage.MarkRust | scripts/update-sys-coverage.py:96-101 | Marking keeps the dict valid |
| Coverage.MarkRustEntries | scripts/update-sys-coverage.py:99-101 | Marking only reassigns present keys: the order stays, and the entries and any `KeyError` are those of the same loop on a plain map |
| Coverage.MarkEntriesKeyError | scripts/update-sys-coverage.py:99-100 | On the map, the loop fails exactly when a Rust name is not a key, and then with the first such name |
| Coverage.MarkEntriesResult | scripts/update-sys-coverage.py:99-101 | On the map, success keeps the keys and only sets `rust` on the names bound in Rust |
| Coverage.MarkEntriesFixedPoint | scripts/update-sys-coverage.py:99-101 | Marking names that are all present and already marked changes nothing |
| Coverage.MarkEntriesAppend | scripts/update-sys-coverage.py:96-101 | Marking the records of one file and then the rest is marking all of them, stopping at the first `KeyError` |
| Coverage.MarkRustKeyError | scripts/update-sys-coverage.py:99-100 | Marking fails exactly when a Rust name is not a key, and then with the first such name |
| Coverage.MarkRustResult | scripts/update-sys-coverage.py:99-101 | Success keeps the keys and their order, and only sets `rust` on the names bound in Rust |
| Coverage.MarkRustIdempotent | scripts/update-sys-coverage.py:99-101 | Marking the same records twice changes nothing |
| Coverage.DumpLineFormat | scripts/update-sys-coverage.py:59-66 | The line is the checkbox prefix, then the name in backticks, and ends with a backtick and a newline; its length is fixed by the three fields |
| Coverage.DumpLineFields | scripts/update-sys-coverage.py:66 | After the name come the arguments in backticks and parentheses, the arrow between backticks, then the return type, each at its fixed position |
| Coverage.DumpLineCheckbox | scripts/update-sys-coverage.py:59-66 | The box is ticked, and the warning sign absent, exactly when the function is bound in Rust |
| Coverage.DumpFnsMd | scripts/update-sys-coverage.py:57-66 | One line per entry, in insertion order |
| Coverage.CoverageReport | scripts/update-sys-coverage.py:87-107 | Fails exactly when a Rust name is missing from the headers; otherwise one line per distinct C name, ticked exactly when bound in Rust |
| Coverage.CoverageLines | scripts/update-sys-coverage.py:99-105 | After a successful run, one line per distinct C name, ticked exactly when that name is bound in Rust |
| Coverage.MergeCFunctions | scripts/update-sys-coverage.py:90-93 | The loop leaves the dict that `CollectC` specifies |
| Coverage.MarkFileFunctions | scripts/update-sys-coverage.py:99-101 | The loop over one file's records ends as `MarkEntries` does, with the same `KeyError` |
| Coverage.MarkRustFunctions | scripts/update-sys-coverage.py:96-101 | The nested loop over files and records ends as `MarkEntries` does on all records, file after file |
| Coverage.WriteCoverage | scripts/update-sys-coverage.py:103-105 | Writes the header, then `dump_fns_md`'s lines |
| Coverage.UpdateCoverage | scripts/update-sys-coverage.py:87-107 | On a `KeyError` nothing is written; otherwise returns 0 after writing the header and one line per entry |

## Left out

- `LUT_ENABLED` memory layout: the enum carries `#[allow(u32)]` (ueye-sys/src/lut.rs:176) instead of the `#[repr(u32)]` of its siblings, so its size is the compiler's choice; the model keeps only its discriminants 0 and 1.
- Foreign functions: every `unsafe extern "C"` declaration calls into the closed vendor driver and has no body.
- Vendor tables: command enums and flag tables that only transcribe vendor numbers, beyond the flags named above.
- Floating point: `IS_RANGE_F64` and the clones of structures holding only doubles.
- Release builds: the model panics (`Overflow`) where debug builds do; the wrap-around of release builds is not modelled.
- Byte order: the `dwAddr` view of `UEYE_ETH_ADDR_IPV4` is read little-endian, as on the hosts the driver supports; big-endian hosts are not modelled.
- `to_wide` on Windows, which encodes UTF-16 through the OS string API.
- `Debug` impls, which only format fields.
- Hasher internals: a hash is modelled as the sequence of values fed to the hasher.
- Coverage script plumbing: the regular expressions, argument parsing, globbing, file handles and logging. The records the scans return are inputs. The output file is truncated when it is opened, before `main` can raise, so a failed run still empties it. The model only states that nothing is written.
- Coverage.CoverageReport: requires the C records to come with `rust` false, as the header scan creates them.
- Coverage.CoverageLines: requires the same of the C records.
- Geometry.RectArea: models the code as written, multiplying the position; the corrected version is `Geometry.IntendedRectArea` (see Findings).
- Geometry.RectCmp: models the code as written, comparing those products; the corrected version is `Geometry.IntendedRectCmp` (see Findings).
- PowerDelivery.Voltage: models the code as written, always 0.0; the corrected version is `PowerDelivery.IntendedVoltage` (see Findings). Voltages are exact decimals (`real`), not `f32`.
- Driver behaviour documented but not implemented in the repository, such as image memory size formulas, has no code to model.

## Findings

| source | as written | input that shows it | evidently intended | confidence | as-written member | corrected member |
|---|---|---|---|---|---|---|
| ueye-sys/src/power_delivery.rs:110 | The first arm, `INVALID` or `_`, matches every profile, so `voltage` is always 0.0 and the later arms are unreachable | `IS_POWER_DELIVERY_PROFILE_9V` gives 0.0 | `INVALID` alone first and `_ => 0.0` last, so 9 V gives 9.0 | high, not executed | PowerDelivery.VoltageIgnoresProfile | PowerDelivery.IntendedVoltageValues |
| ueye-sys/src/types/geometry.rs:52 | `IS_RECT::area` multiplies the position `s32X * s32Y` | A 640×480 and a 1×1 rectangle, both at (2, 3), compare `Equal` | Width times height, so the 640×480 rectangle compares `Greater` | medium, not executed | Geometry.RectCmpIgnoresSize | Geometry.IntendedRectCmp |
