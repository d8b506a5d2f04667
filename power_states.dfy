/** The ColorLogic power-state table (light.py lines 28-37) and the rule
    that derives the entity's on/off flag from a state name (lines 107-111
    and 129-133). */
module PowerStates {
  import opened Wrappers

  /** `COLOR_LOGIC_POWER_STATES`: codes 0..7 to state names; codes 2 and 5
      are both "unknown". */
  const ColorLogicPowerStates: map<int, string> := map[
    0 := "off",
    1 := "powering_off",
    2 := "unknown",
    3 := "changing_show",
    4 := "fifteen_seconds_of_white",
    5 := "unknown",
    6 := "on",
    7 := "cooldown"
  ]

  /** The state names for which the light counts as off. */
  const OffNames: seq<string> := ["off", "powering_off", "cooldown"]

  /** `COLOR_LOGIC_POWER_STATES[code]`: None where the lookup would raise. */
  function PowerStateName(code: int): (r: Option<string>)
    ensures r.Some? <==> 0 <= code <= 7
  {
    if code in ColorLogicPowerStates then Some(ColorLogicPowerStates[code]) else None
  }

  /** `omni_light_state not in ["off", "powering_off", "cooldown"]`. */
  predicate IsOnName(name: string) {
    name !in OffNames
  }

  /** The on/off flag derived from a raw power-state code: None for codes
      the table does not know, otherwise false exactly for 0 (off),
      1 (powering_off) and 7 (cooldown). */
  function IsOnCode(code: int): (r: Option<bool>)
    ensures r.Some? <==> 0 <= code <= 7
    ensures r.Some? ==> (r.value <==> code != 0 && code != 1 && code != 7)
  {
    match PowerStateName(code)
    case None => None
    case Some(name) => Some(IsOnName(name))
  }
}
