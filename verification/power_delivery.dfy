/**
 * The USB power delivery profiles of ueye-sys/src/power_delivery.rs: a
 * bitmask over all 32 bits (every bit pattern is a valid value), its default,
 * and `voltage`, a `match` whose arms Rust tries in order.
 */
module PowerDelivery {
  import opened RustStd
  import opened Flags

  /** `IS_POWER_DELIVERY_PROFILES`: any bit pattern, since all bits are declared known. */
  type Profiles = bv32

  const IS_POWER_DELIVERY_PROFILE_INVALID: Profiles := 0x0000_0000
  const IS_POWER_DELIVERY_PROFILE_5V_LOW_POWER: Profiles := 0x0000_0001
  const IS_POWER_DELIVERY_PROFILE_5V_HIGH_POWER: Profiles := 0x0000_0002
  const IS_POWER_DELIVERY_PROFILE_9V: Profiles := 0x0000_0004
  const IS_POWER_DELIVERY_PROFILE_12V: Profiles := 0x0000_0008
  const IS_POWER_DELIVERY_PROFILE_14V8: Profiles := 0x0000_0010
  const IS_POWER_DELIVERY_PROFILE_15V: Profiles := 0x0000_0020

  /** The six profiles that name a voltage. */
  const VoltageProfiles: seq<Profiles> := [
    IS_POWER_DELIVERY_PROFILE_5V_LOW_POWER, IS_POWER_DELIVERY_PROFILE_5V_HIGH_POWER,
    IS_POWER_DELIVERY_PROFILE_9V, IS_POWER_DELIVERY_PROFILE_12V,
    IS_POWER_DELIVERY_PROFILE_14V8, IS_POWER_DELIVERY_PROFILE_15V]

  /** `INVALID` is the empty mask; the others are distinct single bits. */
  lemma ProfileBits()
    ensures IS_POWER_DELIVERY_PROFILE_INVALID == 0
    ensures DistinctSingleBits(VoltageProfiles)
  {
  }

  /** `IS_POWER_DELIVERY_PROFILES::default`: the 5 V fallback profile. */
  function Default(): (p: Profiles)
    ensures p in VoltageProfiles && p == VoltageProfiles[0]
  {
    IS_POWER_DELIVERY_PROFILE_5V_LOW_POWER
  }

  /** A pattern of a `match` arm: a named profile constant, or `_`. */
  datatype Pattern = Exactly(bits: Profiles) | Any

  /** A `match` arm: its `|`-separated patterns and the voltage it yields (in volts). */
  datatype Arm = Arm(patterns: seq<Pattern>, volts: real)

  predicate PatternMatches(pat: Pattern, p: Profiles)
  {
    pat.Any? || pat.bits == p
  }

  /** Some pattern of the list matches `p`. */
  predicate AnyMatches(pats: seq<Pattern>, p: Profiles)
  {
    exists k :: 0 <= k < |pats| && PatternMatches(pats[k], p)
  }

  /** The index of the first arm with a matching pattern, as Rust selects it. */
  function FirstMatchingArm(arms: seq<Arm>, p: Profiles): (i: Option<nat>)
    ensures i.Some? ==> i.value < |arms| && AnyMatches(arms[i.value].patterns, p)
    ensures i.Some? ==> forall j :: 0 <= j < i.value ==> !AnyMatches(arms[j].patterns, p)
    ensures i.None? <==> forall j :: 0 <= j < |arms| ==> !AnyMatches(arms[j].patterns, p)
  {
    if arms == [] then None
    else if AnyMatches(arms[0].patterns, p) then Some(0)
    else match FirstMatchingArm(arms[1..], p)
      case None => None
      case Some(i) => Some(i + 1)
  }

  /** An arm list whose arms are tried in order and that has a `_` somewhere is exhaustive. */
  lemma {:induction false} WildcardMakesExhaustive(arms: seq<Arm>, w: nat, p: Profiles)
    requires w < |arms| && Pattern.Any in arms[w].patterns
    ensures FirstMatchingArm(arms, p).Some?
    ensures FirstMatchingArm(arms, p).value <= w
  {
    var k :| 0 <= k < |arms[w].patterns| && arms[w].patterns[k] == Pattern.Any;
    assert PatternMatches(arms[w].patterns[k], p);
    if w > 0 && !AnyMatches(arms[0].patterns, p) {
      assert arms[1..][w - 1] == arms[w];
      WildcardMakesExhaustive(arms[1..], w - 1, p);
    }
  }

  /** The arms of `voltage` as written: the first arm is `INVALID | _`. */
  const VoltageArms: seq<Arm> := [
    Arm([Exactly(IS_POWER_DELIVERY_PROFILE_INVALID), Any], 0.0),
    Arm([Exactly(IS_POWER_DELIVERY_PROFILE_5V_LOW_POWER), Exactly(IS_POWER_DELIVERY_PROFILE_5V_HIGH_POWER)], 5.0),
    Arm([Exactly(IS_POWER_DELIVERY_PROFILE_9V)], 9.0),
    Arm([Exactly(IS_POWER_DELIVERY_PROFILE_12V)], 12.0),
    Arm([Exactly(IS_POWER_DELIVERY_PROFILE_14V8)], 14.8),
    Arm([Exactly(IS_POWER_DELIVERY_PROFILE_15V)], 15.0)]

  /** The volts of the arm the first match selects in an exhaustive arm list. */
  function Select(arms: seq<Arm>, w: nat, p: Profiles): (v: real)
    requires w < |arms| && Pattern.Any in arms[w].patterns
    ensures exists i :: 0 <= i <= w && FirstMatchingArm(arms, p) == Some(i) && v == arms[i].volts
  {
    WildcardMakesExhaustive(arms, w, p);
    arms[FirstMatchingArm(arms, p).value].volts
  }

  /**
   * `IS_POWER_DELIVERY_PROFILES::voltage` as written: the `_` in the first arm
   * matches every profile, so every profile yields 0 V.
   */
  function Voltage(p: Profiles): (v: real)
    ensures v == 0.0
    ensures FirstMatchingArm(VoltageArms, p) == Some(0)
  {
    assert Pattern.Any == VoltageArms[0].patterns[1];
    Select(VoltageArms, 0, p)
  }

  /** The five arms after the first can never be selected. */
  lemma {:induction false} LaterVoltageArmsUnreachable(p: Profiles, j: nat)
    requires 1 <= j < |VoltageArms|
    ensures FirstMatchingArm(VoltageArms, p) != Some(j)
  {
    assert Pattern.Any == VoltageArms[0].patterns[1];
    WildcardMakesExhaustive(VoltageArms, 0, p);
  }

  /** So the 9 V profile, and the default 5 V profile, report 0 V. */
  lemma VoltageIgnoresProfile()
    ensures Voltage(IS_POWER_DELIVERY_PROFILE_9V) == 0.0
    ensures Voltage(Default()) == 0.0
  {
  }

  /**
   * The arms as evidently intended: `INVALID` alone first, the named voltages,
   * and `_` (any other bit pattern, e.g. several profiles at once) last.
   */
  const IntendedVoltageArms: seq<Arm> := [
    Arm([Exactly(IS_POWER_DELIVERY_PROFILE_INVALID)], 0.0),
    Arm([Exactly(IS_POWER_DELIVERY_PROFILE_5V_LOW_POWER), Exactly(IS_POWER_DELIVERY_PROFILE_5V_HIGH_POWER)], 5.0),
    Arm([Exactly(IS_POWER_DELIVERY_PROFILE_9V)], 9.0),
    Arm([Exactly(IS_POWER_DELIVERY_PROFILE_12V)], 12.0),
    Arm([Exactly(IS_POWER_DELIVERY_PROFILE_14V8)], 14.8),
    Arm([Exactly(IS_POWER_DELIVERY_PROFILE_15V)], 15.0),
    Arm([Any], 0.0)]

  /** The arm selected is one that matches when no earlier arm matches. */
  lemma SelectsArm(arms: seq<Arm>, i: nat, p: Profiles)
    requires i < |arms| && AnyMatches(arms[i].patterns, p)
    requires forall j :: 0 <= j < i ==> !AnyMatches(arms[j].patterns, p)
    ensures FirstMatchingArm(arms, p) == Some(i)
  {
  }

  /** No pattern of an arm of named profiles other than `p` matches `p`. */
  lemma NamedArmMisses(pats: seq<Pattern>, p: Profiles)
    requires forall k :: 0 <= k < |pats| ==> pats[k].Exactly? && pats[k].bits != p
    ensures !AnyMatches(pats, p)
  {
  }

  /** The intended order selects the arm of the profile `p` names, if any. */
  lemma IntendedArmNamed(p: Profiles, i: nat, k: nat)
    requires i < 6 && k < |IntendedVoltageArms[i].patterns| && IntendedVoltageArms[i].patterns[k] == Exactly(p)
    ensures FirstMatchingArm(IntendedVoltageArms, p) == Some(i)
  {
    var arms := IntendedVoltageArms;
    forall j | 0 <= j < i
      ensures !AnyMatches(arms[j].patterns, p)
    {
      NamedArmMisses(arms[j].patterns, p);
    }
    assert PatternMatches(arms[i].patterns[k], p);
    SelectsArm(arms, i, p);
  }

  /** The intended order sends every other bit pattern to the final `_` arm. */
  lemma IntendedArmOther(p: Profiles)
    requires p != IS_POWER_DELIVERY_PROFILE_INVALID && p !in VoltageProfiles
    ensures FirstMatchingArm(IntendedVoltageArms, p) == Some(6)
  {
    var arms := IntendedVoltageArms;
    forall j | 0 <= j < 6
      ensures !AnyMatches(arms[j].patterns, p)
    {
      NamedArmMisses(arms[j].patterns, p);
    }
    assert PatternMatches(arms[6].patterns[0], p);
    SelectsArm(arms, 6, p);
  }

  /** The arm the intended order selects for `p`, and hence its voltage. */
  lemma IntendedArm(p: Profiles)
    ensures p == IS_POWER_DELIVERY_PROFILE_INVALID ==> FirstMatchingArm(IntendedVoltageArms, p) == Some(0)
    ensures p in VoltageProfiles[..2] ==> FirstMatchingArm(IntendedVoltageArms, p) == Some(1)
    ensures p == IS_POWER_DELIVERY_PROFILE_9V ==> FirstMatchingArm(IntendedVoltageArms, p) == Some(2)
    ensures p == IS_POWER_DELIVERY_PROFILE_12V ==> FirstMatchingArm(IntendedVoltageArms, p) == Some(3)
    ensures p == IS_POWER_DELIVERY_PROFILE_14V8 ==> FirstMatchingArm(IntendedVoltageArms, p) == Some(4)
    ensures p == IS_POWER_DELIVERY_PROFILE_15V ==> FirstMatchingArm(IntendedVoltageArms, p) == Some(5)
    ensures p != 0 && p !in VoltageProfiles ==> FirstMatchingArm(IntendedVoltageArms, p) == Some(6)
  {
    if p == IS_POWER_DELIVERY_PROFILE_INVALID {
      IntendedArmNamed(p, 0, 0);
    } else if p == IS_POWER_DELIVERY_PROFILE_5V_LOW_POWER {
      IntendedArmNamed(p, 1, 0);
    } else if p == IS_POWER_DELIVERY_PROFILE_5V_HIGH_POWER {
      IntendedArmNamed(p, 1, 1);
    } else if p == IS_POWER_DELIVERY_PROFILE_9V {
      IntendedArmNamed(p, 2, 0);
    } else if p == IS_POWER_DELIVERY_PROFILE_12V {
      IntendedArmNamed(p, 3, 0);
    } else if p == IS_POWER_DELIVERY_PROFILE_14V8 {
      IntendedArmNamed(p, 4, 0);
    } else if p == IS_POWER_DELIVERY_PROFILE_15V {
      IntendedArmNamed(p, 5, 0);
    } else {
      IntendedArmOther(p);
    }
  }

  /**
   * `voltage` with the intended arm order: 0 V exactly for `INVALID` and for
   * bit patterns that are not a single named profile.
   */
  function IntendedVoltage(p: Profiles): (v: real)
    ensures v == 0.0 <==> p !in VoltageProfiles
    ensures p in VoltageProfiles[..2] ==> v == 5.0
  {
    IntendedArm(p);
    IntendedVoltageArms[FirstMatchingArm(IntendedVoltageArms, p).value].volts
  }

  /** Each named profile reports its own voltage; a mask of two profiles reports 0 V. */
  lemma IntendedVoltageValues(p: Profiles)
    ensures p == IS_POWER_DELIVERY_PROFILE_INVALID ==> IntendedVoltage(p) == 0.0
    ensures p == IS_POWER_DELIVERY_PROFILE_5V_LOW_POWER ==> IntendedVoltage(p) == 5.0
    ensures p == IS_POWER_DELIVERY_PROFILE_5V_HIGH_POWER ==> IntendedVoltage(p) == 5.0
    ensures p == IS_POWER_DELIVERY_PROFILE_9V ==> IntendedVoltage(p) == 9.0
    ensures p == IS_POWER_DELIVERY_PROFILE_12V ==> IntendedVoltage(p) == 12.0
    ensures p == IS_POWER_DELIVERY_PROFILE_14V8 ==> IntendedVoltage(p) == 14.8
    ensures p == IS_POWER_DELIVERY_PROFILE_15V ==> IntendedVoltage(p) == 15.0
    ensures p == IS_POWER_DELIVERY_PROFILE_9V | IS_POWER_DELIVERY_PROFILE_12V ==> IntendedVoltage(p) == 0.0
  {
    IntendedArm(p);
  }

}
