/** The light entity adapter (light.py lines 72-207): projection of a
    device's telemetry onto the entity's cached attributes, and the
    optimistic turn-on / turn-off commands. */
module Light {
  import opened Wrappers
  import opened Levels
  import opened PowerStates
  import opened Omni

  /** The entity's cached attributes: `omni_light_state`, `speed`,
      `_attr_is_on`, `_attr_brightness` (0..255) and `_attr_effect`. */
  datatype Attrs = Attrs(omniLightState: string, speed: int, isOn: bool, brightness: int, effect: string)

  /** The attributes derived from one telemetry record (lines 101-119 and
      124-139), or the lookup failure that stops the derivation: an unknown
      power-state code is a KeyError, an unknown show code a ValueError. */
  function Derive(t: Telemetry, enums: Enums): (r: Result<Attrs, Error>)
    ensures r.Success? <==> 0 <= t.lightState <= 7 && t.currentShow in enums.showByCode
    ensures r.Failure? ==> (r.error == KeyError <==> !(0 <= t.lightState <= 7))
    ensures r.Success? ==>
      && Some(r.value.omniLightState) == PowerStateName(t.lightState)
      && (r.value.isOn <==> t.lightState != 0 && t.lightState != 1 && t.lightState != 7)
      && r.value.speed == t.speed
      && 4 * r.value.brightness <= 255 * t.brightness < 4 * r.value.brightness + 4
      && (0 <= t.brightness <= 4 ==> 0 <= r.value.brightness <= 255)
      && (enums.Valid() ==> r.value.effect in enums.showByName && enums.showByName[r.value.effect] == t.currentShow)
  {
    if t.lightState !in ColorLogicPowerStates then Failure(KeyError)
    else if t.currentShow !in enums.showByCode then Failure(ValueError)
    else
      var name := ColorLogicPowerStates[t.lightState];
      assert IsOnCode(t.lightState) == Some(IsOnName(name));
      HassLevelIsFloor(t.brightness);
      HassLevelRangeAll(t.brightness);
      Success(Attrs(name, t.speed, IsOnName(name), ToHassLevel(t.brightness), enums.showByCode[t.currentShow]))
  }

  lemma HassLevelRangeAll(level: int)
    ensures 0 <= level <= 4 ==> 0 <= ToHassLevel(level) <= 255
  {
    if 0 <= level <= 4 { HassLevelRange(level); }
  }

  /** The keyword arguments of `async_turn_on`: `effect`, `brightness`, and
      the names of any other keys the framework passed. */
  datatype Request = Request(effect: Option<string>, brightness: Option<int>, others: set<string>) {
    /** A dictionary holds each key once: `effect` and `brightness` are
        never among the other keys. */
    predicate WellFormed() {
      "effect" !in others && "brightness" !in others
    }

    /** `not kwargs` */
    predicate IsEmpty() {
      effect.None? && brightness.None? && others == {}
    }
  }

  /** Lines 161-162: an `effect` of "" is popped; nothing else changes. */
  function DiscardBlankEffect(req: Request): (r: Request)
    ensures r.effect != Some("")
    ensures req.effect == Some("") ==> r.effect == None
    ensures req.effect != Some("") ==> r.effect == req.effect
    ensures r.brightness == req.brightness && r.others == req.others
  {
    if req.effect == Some("") then req.(effect := None) else req
  }

  /** Lines 164-179: the one remote call turn-on issues for the (already
      cleaned) request `kw`, given the entity's cached attributes `a`; or
      the lookup failure that stops it before any call is made. */
  function TurnOnCall(bowId: int, systemId: int, a: Attrs, kw: Request, enums: Enums): Result<ApiCall, Error> {
    if kw.IsEmpty() then Success(SetEquipment(bowId, systemId, true))
    else
      var showName := kw.effect.GetOr(a.effect);
      if showName !in enums.showByName then Failure(KeyError)
      else if a.speed !in enums.speeds then Failure(ValueError)
      else
        var level := ToOmniLevel(kw.brightness.GetOr(a.brightness));
        if level !in enums.brightnesses then Failure(ValueError)
        else Success(SetLightShow(bowId, systemId, enums.showByName[showName], a.speed, level))
  }

  /** Lines 182-190 on one telemetry record: the assumed state after a
      successful turn-on call. */
  function PatchTurnOn(t: Telemetry, wasOff: bool, call: ApiCall): Telemetry {
    var t1 := if wasOff then t.(lightState := 4) else t;
    if call.SetLightShow? then t1.(brightness := call.brightness, currentShow := call.show) else t1
  }

  /** Lines 182-190 on the snapshot: the entry of `context` is patched when
      the light was off or a light show was set (a KeyError when that entry
      is missing); otherwise the snapshot is not touched. */
  function TurnOnSnapshot(data: Snapshot, context: int, wasOff: bool, call: ApiCall): (r: Result<Snapshot, Error>)
    ensures r.Failure? <==> (wasOff || call.SetLightShow?) && context !in data
    ensures r.Failure? ==> r.error == KeyError
    ensures r.Success? ==> r.value.Keys == data.Keys
    ensures r.Success? ==> forall id :: id in data && id != context ==> r.value[id] == data[id]
    ensures r.Success? && context in data ==>
      var before := data[context];
      var after := r.value[context];
      && after.(telemetry := before.telemetry) == before
      && after.telemetry.speed == before.telemetry.speed
      && after.telemetry.lightState == (if wasOff then 4 else before.telemetry.lightState)
      && (call.SetLightShow? ==>
            after.telemetry.brightness == call.brightness && after.telemetry.currentShow == call.show)
      && (!call.SetLightShow? ==>
            after.telemetry.brightness == before.telemetry.brightness
            && after.telemetry.currentShow == before.telemetry.currentShow)
  {
    if !wasOff && !call.SetLightShow? then Success(data)
    else if context !in data then Failure(KeyError)
    else
      var d := data[context];
      Success(data[context := d.(telemetry := PatchTurnOn(d.telemetry, wasOff, call))])
  }

  /** Line 206 on one telemetry record. */
  function PatchTurnOff(t: Telemetry, wasOn: bool): Telemetry {
    if wasOn then t.(lightState := 1) else t
  }

  /** Lines 205-206 on the snapshot: when the light was on, the entry of
      `context` gets power state 1 (powering_off), a KeyError when it is
      missing; otherwise the snapshot is not touched. */
  function TurnOffSnapshot(data: Snapshot, context: int, wasOn: bool): (r: Result<Snapshot, Error>)
    ensures r.Failure? <==> wasOn && context !in data
    ensures r.Failure? ==> r.error == KeyError
    ensures !wasOn ==> r == Success(data)
    ensures r.Success? ==> r.value.Keys == data.Keys
    ensures r.Success? ==> forall id :: id in data && id != context ==> r.value[id] == data[id]
    ensures wasOn && context in data ==>
      && r.Success?
      && var before := data[context];
         r.value[context] == before.(telemetry := before.telemetry.(lightState := 1))
  {
    if !wasOn then Success(data)
    else if context !in data then Failure(KeyError)
    else
      var d := data[context];
      Success(data[context := d.(telemetry := PatchTurnOff(d.telemetry, wasOn))])
  }

  /** `OmniLogicLightEntity`: one light of the snapshot, identified by
      `context`, with the attributes it last derived. */
  class OmniLogicLightEntity {
    const coordinator: Coordinator
    const context: int
    const enums: Enums
    const name: string
    const systemId: int
    const bowId: int
    const model: string

    var omniLightState: string
    var speed: int
    var isOn: bool
    var brightness: int
    var effect: string

    function Cached(): Attrs
      reads this
    {
      Attrs(omniLightState, speed, isOn, brightness, effect)
    }

    /** `__init__` (lines 90-119): seeds the cached attributes from the
        device's current record.  A failing lookup raises in light.py,
        so no entity exists; here the lookups are required to succeed. */
    constructor (coordinator: Coordinator, context: int, enums: Enums)
      requires context in coordinator.data
      requires Derive(coordinator.data[context].telemetry, enums).Success?
      ensures this.coordinator == coordinator && this.context == context && this.enums == enums
      ensures var d := coordinator.data[context];
        name == d.name && systemId == d.systemId && bowId == d.bowId && model == d.modelType
      ensures Cached() == Derive(coordinator.data[context].telemetry, enums).value
    {
      var lightData := coordinator.data[context];
      this.coordinator := coordinator;
      this.context := context;
      this.enums := enums;
      name := lightData.name;
      systemId := lightData.systemId;
      bowId := lightData.bowId;
      model := lightData.modelType;
      var t := lightData.telemetry;
      var state := ColorLogicPowerStates[t.lightState];
      omniLightState := state;
      speed := t.speed;
      isOn := IsOnName(state);
      brightness := ToHassLevel(t.brightness);
      effect := enums.showByCode[t.currentShow];
    }

    /** `_handle_coordinator_update` (lines 121-140): re-derives the cached
        attributes from the coordinator's current record.  The assignments
        run in source order, so a bad show code raises after the state name,
        speed and on/off flag were already replaced. */
    method HandleCoordinatorUpdate() returns (r: Outcome<Error>)
      modifies this
      ensures var d := coordinator.data;
        if context !in d then r == Fail(KeyError) && Cached() == old(Cached())
        else
          var t := d[context].telemetry;
          match Derive(t, enums)
          case Success(a) => r == Pass && Cached() == a
          case Failure(KeyError) => r == Fail(KeyError) && Cached() == old(Cached())
          case Failure(ValueError) =>
            && r == Fail(ValueError)
            && Cached() == old(Cached()).(
                 omniLightState := ColorLogicPowerStates[t.lightState],
                 speed := t.speed,
                 isOn := IsOnCode(t.lightState).value)
    {
      if context !in coordinator.data {
        return Fail(KeyError);
      }
      var t := coordinator.data[context].telemetry;
      if t.lightState !in ColorLogicPowerStates {
        return Fail(KeyError);
      }
      omniLightState := ColorLogicPowerStates[t.lightState];
      speed := t.speed;
      isOn := IsOnName(omniLightState);
      if t.currentShow !in enums.showByCode {
        return Fail(ValueError);
      }
      effect := enums.showByCode[t.currentShow];
      brightness := ToHassLevel(t.brightness);
      r := Pass;
    }

    /** `async_turn_on` (lines 150-191): issues one call, patches the
        assumed telemetry of this light and notifies the coordinator.
        `was_off` reads the cached flag, not the snapshot. */
    method TurnOn(req: Request) returns (r: Outcome<Error>)
      requires req.WellFormed()
      modifies coordinator
      ensures var kw := DiscardBlankEffect(req);
        match TurnOnCall(bowId, systemId, old(Cached()), kw, enums)
        case Failure(e) => r == Fail(e) && unchanged(coordinator)
        case Success(call) =>
          && coordinator.apiCalls == old(coordinator.apiCalls) + [call]
          && match TurnOnSnapshot(old(coordinator.data), context, !old(isOn), call)
             case Failure(e) =>
               r == Fail(e) && coordinator.data == old(coordinator.data)
               && coordinator.updates == old(coordinator.updates)
             case Success(d) =>
               r == Pass && coordinator.data == d
               && coordinator.updates == old(coordinator.updates) + 1
    {
      var wasOff := !isOn;
      var kw := req;
      if kw.effect == Some("") {
        kw := kw.(effect := None);
      }
      var call: ApiCall;
      if !kw.IsEmpty() {
        var showName := kw.effect.GetOr(effect);
        if showName !in enums.showByName {
          return Fail(KeyError);
        }
        if speed !in enums.speeds {
          return Fail(ValueError);
        }
        var level := ToOmniLevel(kw.brightness.GetOr(brightness));
        if level !in enums.brightnesses {
          return Fail(ValueError);
        }
        call := SetLightShow(bowId, systemId, enums.showByName[showName], speed, level);
      } else {
        call := SetEquipment(bowId, systemId, true);
      }
      coordinator.apiCalls := coordinator.apiCalls + [call];

      if wasOff {
        if context !in coordinator.data {
          return Fail(KeyError);
        }
        var d := coordinator.data[context];
        coordinator.data := coordinator.data[context := d.(telemetry := d.telemetry.(lightState := 4))];
      }
      if !kw.IsEmpty() {
        if context !in coordinator.data {
          return Fail(KeyError);
        }
        var d := coordinator.data[context];
        coordinator.data := coordinator.data[context := d.(telemetry := d.telemetry.(brightness := call.brightness))];
        d := coordinator.data[context];
        coordinator.data := coordinator.data[context := d.(telemetry := d.telemetry.(currentShow := call.show))];
      }
      coordinator.updates := coordinator.updates + 1;
      r := Pass;
    }

    /** `async_turn_off` (lines 193-207): always issues one equipment-off
        call; only when the cached flag says on does it patch power state 1
        (powering_off) and notify the coordinator. */
    method TurnOff() returns (r: Outcome<Error>)
      modifies coordinator
      ensures coordinator.apiCalls == old(coordinator.apiCalls) + [SetEquipment(bowId, systemId, false)]
      ensures match TurnOffSnapshot(old(coordinator.data), context, old(isOn))
        case Failure(e) =>
          r == Fail(e) && coordinator.data == old(coordinator.data)
          && coordinator.updates == old(coordinator.updates)
        case Success(d) =>
          r == Pass && coordinator.data == d
          && coordinator.updates == old(coordinator.updates) + (if old(isOn) then 1 else 0)
    {
      var wasOn := isOn;
      coordinator.apiCalls := coordinator.apiCalls + [SetEquipment(bowId, systemId, false)];
      if wasOn {
        if context !in coordinator.data {
          return Fail(KeyError);
        }
        var d := coordinator.data[context];
        coordinator.data := coordinator.data[context := d.(telemetry := d.telemetry.(lightState := 1))];
        coordinator.updates := coordinator.updates + 1;
      }
      r := Pass;
    }
  }
}
