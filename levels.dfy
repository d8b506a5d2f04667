/** Brightness scale conversion between Home Assistant (0..255) and the
    OmniLogic controller (0..4), see light.py lines 41-48. */
module Levels {

  /** `to_omni_level`: round(level * 4 / 255) to the nearest integer.
      For an integer level the quotient 4 * level / 255 is never a half
      (8 * level is even, 255 * odd is odd), so nearest rounding has no
      tie and equals floor((8 * level + 255) / 510); OmniLevelIsNearest
      proves it. */
  function ToOmniLevel(level: int): int {
    (8 * level + 255) / 510
  }

  /** `to_hass_level`: floor division (level * 255) // 4; Dafny's `/` with
      a positive divisor is Python's `//`. */
  function ToHassLevel(level: int): int {
    (level * 255) / 4
  }

  /** ToOmniLevel(level) is the integer nearest to 4 * level / 255:
      |4 * level / 255 - r| < 1/2, scaled by 510. */
  lemma OmniLevelIsNearest(level: int)
    ensures -255 < 8 * level - 510 * ToOmniLevel(level) < 255
  {
    var n := 8 * level + 255;
    var q := n / 510;
    // n lies in [510 q, 510 q + 510); it is odd while 510 q is even, so
    // it is never 510 q itself
    assert 510 * q <= n < 510 * q + 510;
    assert n - 510 * q == 2 * (4 * level - 255 * q) + 255;
  }

  /** ToHassLevel(level) is the floor of 255 * level / 4. */
  lemma HassLevelIsFloor(level: int)
    ensures 4 * ToHassLevel(level) <= 255 * level < 4 * ToHassLevel(level) + 4
  {
    var q := (level * 255) / 4;
    assert 4 * q <= level * 255 < 4 * q + 4;
  }

  /** The nearest integer is unique: any r with |8 * level - 510 * r| < 255
      is ToOmniLevel(level). */
  lemma NearestIsUnique(level: int, r: int)
    requires -255 < 8 * level - 510 * r < 255
    ensures ToOmniLevel(level) == r
  {
    OmniLevelIsNearest(level);
    var q := ToOmniLevel(level);
    // 510 * (q - r) lies strictly between -510 and 510
    assert -510 < 510 * (q - r) < 510;
  }

  /** ToOmniLevel maps the display range into the device range. */
  lemma OmniLevelRange(level: int)
    requires 0 <= level <= 255
    ensures 0 <= ToOmniLevel(level) <= 4
  {
    OmniLevelIsNearest(level);
  }

  /** The end points of the display range map to those of the device
      range: 0 -> 0 and 255 -> 4. */
  lemma OmniLevelEndpoints()
    ensures ToOmniLevel(0) == 0 && ToOmniLevel(255) == 4
  {
    NearestIsUnique(0, 0);
    NearestIsUnique(255, 4);
  }

  /** ToHassLevel maps the device range into the display range. */
  lemma HassLevelRange(level: int)
    requires 0 <= level <= 4
    ensures 0 <= ToHassLevel(level) <= 255
  {
    HassLevelIsFloor(level);
  }

  /** Fixed points of ToHassLevel: 0 -> 0, 2 -> 127 and 4 -> 255. */
  lemma HassLevelEndpoints()
    ensures ToHassLevel(0) == 0 && ToHassLevel(2) == 127 && ToHassLevel(4) == 255
  {
    HassLevelIsFloor(0);
    HassLevelIsFloor(2);
    HassLevelIsFloor(4);
  }

  /** ToOmniLevel is monotone: a brighter display level never gives a
      dimmer device level. */
  lemma OmniLevelMonotone(a: int, b: int)
    requires a <= b
    ensures ToOmniLevel(a) <= ToOmniLevel(b)
  {
    OmniLevelIsNearest(a);
    OmniLevelIsNearest(b);
  }

  /** Device -> display -> device is the identity, for every integer
      device level (in particular for 0..4). */
  lemma OmniOfHass(level: int)
    ensures ToOmniLevel(ToHassLevel(level)) == level
  {
    var h := ToHassLevel(level);
    HassLevelIsFloor(level);
    // 4h in (255 level - 4, 255 level], so 8h in (510 level - 8, 510 level]
    assert 510 * level - 8 < 8 * h <= 510 * level;
    NearestIsUnique(h, level);
  }

  /** Every device level 0..4 is reached from some display level in
      0..255, namely from its own display value. */
  lemma OmniLevelOnto(level: int)
    requires 0 <= level <= 4
    ensures exists b :: 0 <= b <= 255 && ToOmniLevel(b) == level
  {
    OmniOfHass(level);
    HassLevelRange(level);
    var b := ToHassLevel(level);
    assert 0 <= b <= 255 && ToOmniLevel(b) == level;
  }

  /** Display -> device -> display moves a brightness by at most 32 (a
      quarter step of 63.75 rounds to within 31.875, and the floor loses
      less than one more). */
  lemma HassOfOmni(level: int)
    ensures -32 <= ToHassLevel(ToOmniLevel(level)) - level <= 32
  {
    var r := ToOmniLevel(level);
    var h := ToHassLevel(r);
    OmniLevelIsNearest(level);
    HassLevelIsFloor(r);
    // 32h is within 32 of 2040 r, and 2040 r is within 1020 of 32 level
    assert 32 * h <= 2040 * r < 32 * h + 32;
    assert -1020 < 32 * level - 2040 * r < 1020;
    assert -1052 < 32 * (h - level) < 1020;
  }
}
