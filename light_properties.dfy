/** What the turn-on and turn-off logic of light.py promises, stated over
    the specification functions of module Light. */
module LightProperties {
  import opened Wrappers
  import opened Levels
  import opened Omni
  import opened Light

  /** After the blank effect is popped, `kwargs` is empty exactly when the
      request held nothing but possibly an `effect` of "". */
  lemma NoParamsIff(req: Request)
    ensures DiscardBlankEffect(req).IsEmpty() <==>
      req.brightness.None? && req.others == {} && (req.effect.None? || req.effect == Some(""))
  {
  }

  /** Without parameters turn-on issues exactly the equipment-on call, and
      the assumed telemetry keeps `@brightness` and `@currentShow`. */
  lemma TurnOnWithoutParams(bowId: int, systemId: int, a: Attrs, req: Request, enums: Enums, t: Telemetry, wasOff: bool)
    requires DiscardBlankEffect(req).IsEmpty()
    ensures TurnOnCall(bowId, systemId, a, DiscardBlankEffect(req), enums) == Success(SetEquipment(bowId, systemId, true))
    ensures var t' := PatchTurnOn(t, wasOff, SetEquipment(bowId, systemId, true));
      t'.brightness == t.brightness && t'.currentShow == t.currentShow && t'.speed == t.speed
  {
  }

  /** With parameters turn-on issues exactly one light-show call, whose
      arguments are the requested (or cached) effect's code, the cached
      speed unchanged, and the device level of the requested (or cached)
      brightness; it fails exactly when one of the three enum lookups fails. */
  lemma TurnOnWithParams(bowId: int, systemId: int, a: Attrs, kw: Request, enums: Enums)
    requires !kw.IsEmpty()
    ensures var call := TurnOnCall(bowId, systemId, a, kw, enums);
      var showName := kw.effect.GetOr(a.effect);
      var level := ToOmniLevel(kw.brightness.GetOr(a.brightness));
      && (call.Success? <==>
            showName in enums.showByName && a.speed in enums.speeds && level in enums.brightnesses)
      && (call.Success? ==>
            call.value == SetLightShow(bowId, systemId, enums.showByName[showName], a.speed, level))
  {
  }

  /** An effect-only request on an entity whose cache was derived from the
      record `t` writes back the `@brightness` that `t` already had: the
      cached 0..255 value converts back to the same device level. */
  lemma EffectOnlyKeepsBrightness(bowId: int, systemId: int, t: Telemetry, kw: Request, enums: Enums, wasOff: bool)
    requires Derive(t, enums).Success?
    requires kw.brightness.None? && !kw.IsEmpty()
    requires TurnOnCall(bowId, systemId, Derive(t, enums).value, kw, enums).Success?
    ensures PatchTurnOn(t, wasOff, TurnOnCall(bowId, systemId, Derive(t, enums).value, kw, enums).value).brightness == t.brightness
  {
    var a := Derive(t, enums).value;
    assert a.brightness == ToHassLevel(t.brightness);
    OmniOfHass(t.brightness);
  }

  /** Re-deriving the entity from the record that a successful turn-on
      assumed (starting from a cache derived from `t`) shows the light on,
      with the requested (or kept) effect and brightness. */
  lemma TurnOnThenRefresh(bowId: int, systemId: int, t: Telemetry, kw: Request, enums: Enums)
    requires enums.Valid()
    requires Derive(t, enums).Success?
    requires TurnOnCall(bowId, systemId, Derive(t, enums).value, kw, enums).Success?
    ensures
      var a := Derive(t, enums).value;
      var call := TurnOnCall(bowId, systemId, a, kw, enums).value;
      var after := Derive(PatchTurnOn(t, !a.isOn, call), enums);
      && after.Success?
      && after.value.isOn
      && after.value.speed == a.speed
      && (kw.IsEmpty() ==> after.value.effect == a.effect && after.value.brightness == a.brightness)
      && (!kw.IsEmpty() ==>
            after.value.effect == kw.effect.GetOr(a.effect)
            && after.value.brightness == ToHassLevel(ToOmniLevel(kw.brightness.GetOr(a.brightness))))
  {
    var a := Derive(t, enums).value;
    var call := TurnOnCall(bowId, systemId, a, kw, enums).value;
    var t' := PatchTurnOn(t, !a.isOn, call);
    if !kw.IsEmpty() {
      var showName := kw.effect.GetOr(a.effect);
      assert call.show == enums.showByName[showName];
      assert enums.showByCode[call.show] == showName;
    }
    assert t'.lightState == 4 || (a.isOn && t'.lightState == t.lightState);
  }

  /** Re-deriving the entity from the record that turn-off assumed
      (starting from a cache derived from `t`) always shows the light off:
      an on light gets powering_off, an off light is left as it was. */
  lemma TurnOffThenRefresh(t: Telemetry, enums: Enums)
    requires Derive(t, enums).Success?
    ensures var after := Derive(PatchTurnOff(t, Derive(t, enums).value.isOn), enums);
      after.Success? && !after.value.isOn
  {
  }
}
