/** The collaborators the light adapter talks to but does not own: the
    coordinator's shared device snapshot, the remote API client (recorded
    as a log of call events) and the enumerations of the OmniLogic client
    library (as abstract name/code tables). */
module Omni {

  /** The two lookup failures the adapter can raise: a missing dictionary
      or enum key, and an enum constructed from a value it does not have. */
  datatype Error = KeyError | ValueError

  /** The `omni_telemetry` part of a light's record: `@lightState`,
      `@brightness`, `@currentShow` and `@speed`, as integers. */
  datatype Telemetry = Telemetry(lightState: int, brightness: int, currentShow: int, speed: int)

  /** One device record of the snapshot: its `metadata` (name, system id,
      body-of-water id), its `omni_config` Type, and its telemetry. */
  datatype Device = Device(name: string, systemId: int, bowId: int, modelType: string, telemetry: Telemetry)

  /** `coordinator.data`: device records keyed by system id. */
  type Snapshot = map<int, Device>

  /** The remote calls of the API client, as events: `async_set_equipment`
      (group id, device id, on/off) and `async_set_light_show` (group id,
      device id, show, speed and brightness codes). */
  datatype ApiCall =
    | SetEquipment(bowId: int, systemId: int, isOn: bool)
    | SetLightShow(bowId: int, systemId: int, show: int, speed: int, brightness: int)

  /** `ColorLogicShow` as a pair of tables (`ColorLogicShow[name]` and
      `ColorLogicShow(code).name`), and the codes that `ColorLogicSpeed`
      and `ColorLogicBrightness` accept. */
  datatype Enums = Enums(
    showByName: map<string, int>,
    showByCode: map<int, string>,
    speeds: set<int>,
    brightnesses: set<int>)
  {
    /** The two show tables are inverse bijections. */
    ghost predicate Valid() {
      && (forall name :: name in showByName ==>
            showByName[name] in showByCode && showByCode[showByName[name]] == name)
      && (forall code :: code in showByCode ==>
            showByCode[code] in showByName && showByName[showByCode[code]] == code)
    }
  }

  /** The update coordinator: the shared snapshot, the number of times
      `async_set_updated_data` has been called, and the calls issued
      through its `omni_api` client. */
  class Coordinator {
    var data: Snapshot
    var updates: nat
    var apiCalls: seq<ApiCall>

    constructor (data: Snapshot)
      ensures this.data == data && updates == 0 && apiCalls == []
    {
      this.data := data;
      updates := 0;
      apiCalls := [];
    }
  }
}
