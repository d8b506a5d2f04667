# OmniLogic local light adapter, modelled in Dafny

This project models the light platform of the OmniLogic local Home Assistant
integration (`custom_components/omnilogic_local/light.py`). The adapter does
three things:

- It converts brightness between Home Assistant's 0..255 scale and the
  controller's 0..4 scale (`to_omni_level`, `to_hass_level`).
- It projects a light's telemetry in the coordinator's shared snapshot onto
  the entity's cached attributes. These are the power-state name, the speed,
  the on/off flag, the brightness and the effect name. The on/off flag comes
  from the `COLOR_LOGIC_POWER_STATES` table.
- It turns the light on or off. Each command issues one remote call, writes
  the telemetry it expects next into this light's snapshot entry, and
  notifies the coordinator.

Modules:

- `Wrappers` (`wrappers.dfy`): `Option`, `Result` and `Outcome`. A lookup
  that raises in Python becomes a `Failure`/`Fail` value here.
- `Levels` (`levels.dfy`): the two conversions and their range, monotonicity
  and round-trip lemmas.
- `PowerStates` (`power_states.dfy`): the power-state table and the
  `is_on` rule.
- `Omni` (`omni.dfy`): the collaborators the adapter uses but does not own.
  These are the telemetry and device records, the `ColorLogicShow`,
  `ColorLogicSpeed` and `ColorLogicBrightness` enums, the remote calls as
  `ApiCall` events, and the `Coordinator` class. The `Coordinator` holds the
  snapshot `data`, a counter of `async_set_updated_data` calls and the log
  of calls issued.
- `Light` (`light.dfy`): the attribute projection `Derive`, the
  turn-on/turn-off specification functions, and the class
  `OmniLogicLightEntity`. Its constructor, `HandleCoordinatorUpdate`,
  `TurnOn` and `TurnOff` update fields step by step in source order. Each is
  proved against those functions.
- `LightProperties` (`light_properties.dfy`): lemmas about the commands.
  They cover the no-parameter case, light-show argument assembly, the
  brightness write-back of an effect-only request, and what the entity shows
  once it re-derives from the assumed telemetry.

`ColorLogicShow` is an external enum. It is modelled as a pair of tables,
name to code and code to name. `Enums.Valid` says the two tables are
inverse bijections. `ColorLogicSpeed` and `ColorLogicBrightness` are
modelled as the sets of codes they accept.

`was_off` and `was_on` read the entity's cached `isOn`, not the live
snapshot. A stale cache therefore decides which branch runs.

`_handle_coordinator_update` assigns fields in source order. An unknown
show code raises after `omni_light_state`, `speed` and `_attr_is_on` have
already been replaced, but before `_attr_effect` and `_attr_brightness`
are. `HandleCoordinatorUpdate` states that partial update.

`to_omni_level` computes `int(round(level * 4 / 255))`. Here it is the exact
integer `(8 * level + 255) / 510`. Nearest rounding of `4L/255` never meets a
tie for integer L: `8L` is even and `255 * odd` is odd. So the floating-point
round and this integer formula agree.

## Model

`Levels.ToOmniLevel`, `Levels.ToHassLevel` and `Light.TurnOnCall` carry no
contract of their own. The lemmas below characterise them:
`Levels.OmniLevelIsNearest` and `Levels.NearestIsUnique` for `to_omni_level`
(light.py lines 41-43), `Levels.HassLevelIsFloor` for `to_hass_level`
(lines 46-48), and `LightProperties.TurnOnWithoutParams` and
`LightProperties.TurnOnWithParams` for the call choice of lines 164-179.
`Light.Request.WellFormed` says that `effect` and `brightness` never appear
among a request's other keys, as in any Python keyword dictionary.
`TurnOn` requires it.

| member | source | states |
|---|---|---|
| Levels.OmniLevelIsNearest | custom_components/omnilogic_local/light.py:41-43 | to_omni_level(level) is the integer nearest to 4·level/255, strictly within one half of it (no tie can occur) |
| Levels.HassLevelIsFloor | custom_components/omnilogic_local/light.py:46-48 | to_hass_level(level) is the floor of 255·level/4 |
| Levels.NearestIsUnique | custom_components/omnilogic_local/light.py:41-43 | any integer within one half of 4·level/255 is ToOmniLevel(level), so the rounding is well defined |
| Levels.OmniLevelRange | custom_components/omnilogic_local/light.py:41-43 | [0,255] maps into [0,4] |
| Levels.OmniLevelEndpoints | custom_components/omnilogic_local/light.py:41-43 | 0→0 and 255→4 |
| Levels.HassLevelRange | custom_components/omnilogic_local/light.py:46-48 | [0,4] maps into [0,255] |
| Levels.HassLevelEndpoints | custom_components/omnilogic_local/light.py:46-48 | 0→0, 2→127 and 4→255 |
| Levels.OmniLevelMonotone | custom_components/omnilogic_local/light.py:41-43 | a larger display level never gives a smaller device level |
| Levels.OmniOfHass | custom_components/omnilogic_local/light.py:41-48 | to_omni_level(to_hass_level(b)) == b for every integer device level b |
| Levels.OmniLevelOnto | custom_components/omnilogic_local/light.py:41-48 | every device level 0..4 is reached by to_omni_level from some brightness in 0..255 |
| Levels.HassOfOmni | custom_components/omnilogic_local/light.py:41-48 | to_hass_level(to_omni_level(x)) is within 32 of x |
| PowerStates.PowerStateName | custom_components/omnilogic_local/light.py:28-37 | the table lookup succeeds exactly for codes 0..7 |
| PowerStates.IsOnCode | custom_components/omnilogic_local/light.py:102-111 | the derived flag exists exactly for codes 0..7 and is false exactly for 0 (off), 1 (powering_off) and 7 (cooldown) |
| Light.Derive | custom_components/omnilogic_local/light.py:101-119 | the derivation succeeds exactly when the power-state and show codes are known, a bad power state being a KeyError; on success the state name is the table's entry for the power-state code, the flag is off exactly for codes 0, 1, 7, the speed is copied, the brightness is the floor of 255·b/4 and in [0,255] for b in [0,4], and the effect name maps back to the show code |
| Light.DiscardBlankEffect | custom_components/omnilogic_local/light.py:160-162 | an empty-string effect is removed, any other effect and every other argument are kept |
| Light.TurnOnSnapshot | custom_components/omnilogic_local/light.py:181-190 | only this light's entry changes, and only in @lightState (4 if it was off, else kept), @brightness and @currentShow (the light-show call's codes, else kept); @speed, metadata and every other device are unchanged; a missing entry is a KeyError only when something had to be written |
| Light.TurnOffSnapshot | custom_components/omnilogic_local/light.py:205-206 | an off light leaves the snapshot untouched; an on light gets @lightState 1 in its own entry and nothing else changes; a missing entry is a KeyError |
| Light.OmniLogicLightEntity.constructor | custom_components/omnilogic_local/light.py:90-119 | identity fields come from the metadata and config, and the cached attributes equal Derive of the device's telemetry |
| Light.OmniLogicLightEntity.HandleCoordinatorUpdate | custom_components/omnilogic_local/light.py:121-140 | on success the cache equals Derive of the current telemetry; a missing entry or power state changes nothing; a bad show code updates only the state name, speed and flag |
| Light.OmniLogicLightEntity.TurnOn | custom_components/omnilogic_local/light.py:150-191 | a failed enum lookup issues nothing and changes nothing; otherwise exactly the call TurnOnCall decides is appended, the snapshot becomes TurnOnSnapshot of the old one with was_off taken from the cached flag, and the coordinator is notified exactly once unless the entry was missing |
| Light.OmniLogicLightEntity.TurnOff | custom_components/omnilogic_local/light.py:193-207 | exactly one equipment-off call is appended; the snapshot becomes TurnOffSnapshot of the old one; the coordinator is notified once if the cached flag was on and never otherwise |
| LightProperties.NoParamsIff | custom_components/omnilogic_local/light.py:160-164 | no parameters remain exactly when the request had no brightness, no other keys, and no effect or an empty one |
| LightProperties.TurnOnWithoutParams | custom_components/omnilogic_local/light.py:176-187 | without parameters the call is equipment-on, and @brightness, @currentShow and @speed keep their values |
| LightProperties.TurnOnWithParams | custom_components/omnilogic_local/light.py:164-175 | with parameters the call is one light show with the requested-or-cached effect code, the cached speed and to_omni_level of the requested-or-cached brightness; it fails exactly when one of the three enum lookups fails |
| LightProperties.EffectOnlyKeepsBrightness | custom_components/omnilogic_local/light.py:166-187 | an effect-only request on a cache derived from the record writes back the same @brightness the record had |
| LightProperties.TurnOnThenRefresh | custom_components/omnilogic_local/light.py:181-191 | re-deriving from the telemetry that turn-on assumed shows the light on, with the requested or kept effect and brightness and the same speed |
| LightProperties.TurnOffThenRefresh | custom_components/omnilogic_local/light.py:200-207 | re-deriving from the telemetry that turn-off assumed shows the light off |

## Left out

- `async_setup_entry` (lines 51-69) is not modelled. It is framework registration and relies on `get_entities_of_hass_type`, and `utils.py` is not part of this model.
- The Home Assistant base classes (`OmniLogicEntity`, `LightEntity`), `async_write_ha_state` and `extra_state_attributes` (lines 142-148) are not modelled, because their behaviour lives in the framework. The `model` field is kept so the attributes it exposes exist.
- `_attr_effect_list` (line 116) is not modelled. It is the list of `ColorLogicShow` member names, an external enum's contents.
- The contents of `ColorLogicShow`, `ColorLogicSpeed` and `ColorLogicBrightness` are not modelled. They belong to the external client library, so they are the abstract `Enums` parameter.
- Network I/O and `async`/`await` are not modelled. Each remote call is recorded as an `ApiCall` event and assumed to return. A call that raises would stop the command before the snapshot patch, and that path is not modelled.
- `async_set_updated_data` is modelled as a counter of notifications. The listener callbacks it runs are not modelled as part of the command. One such callback is this entity's own `_handle_coordinator_update`. What that refresh then shows is stated by LightProperties.TurnOnThenRefresh and LightProperties.TurnOffThenRefresh.
- Light.OmniLogicLightEntity.TurnOn: runs with no suspension point. In light.py, lines 183-190 index `self.coordinator.data` again after the `await` at line 173, and line 190 re-reads `self._attr_effect` then. A coordinator refresh during that await could change the snapshot or the cached effect, and then the `@currentShow` written could differ from the show that was sent. The model always writes the sent show, `call.show`.
- Logging is not modelled.
- Telemetry values are integers here. The `int(...)` parsing of the controller's attribute strings is not modelled, and a string that fails to parse is not modelled either.
- Levels.ToOmniLevel: uses exact integer arithmetic instead of floating-point division and `round`. The two agree because no tie is possible. Float precision loss for integers far outside 0..255 is not modelled.
- Light.OmniLogicLightEntity.constructor: requires the snapshot entry and both table lookups to succeed. In the source a failing lookup raises and no entity is created. `Light.Derive` models which inputs fail.
- Turning on during powering_off or cooldown is not guarded (the TODO at line 156). The model keeps that behaviour and adds no guard.
- Turn-on and turn-off keyword arguments are modelled by name only: `effect` as a string, `brightness` as an integer, and the names of any other keys. Values of other types are not modelled.
