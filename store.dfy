/** The device-state store the handlers read and write, reduced to a map
    from endpoint id to record. Each persist call replaces the whole record
    of one endpoint (a DynamoDB `PutItem`), filling the fields it is not
    given from its default parameters. */
module DeviceStore {
  import opened Values

  /** One device record as `retrieveDevice` reports it; a field is `None`
      when the stored item lacks it. */
  datatype DeviceState = DeviceState(
    lightState: Option<string>, blindsMode: Option<string>,
    thermostatTemperature: Option<string>, thermostatMode: Option<string>)

  const Unknown := DeviceState(None, None, None, None)

  type Records = map<string, DeviceState>

  /** `retrieveDevice`: a missing record reads as all fields absent. */
  function Retrieve(records: Records, endpointId: string): (s: DeviceState)
    ensures endpointId in records ==> s == records[endpointId]
    ensures endpointId !in records ==> s == Unknown
  {
    if endpointId in records then records[endpointId] else Unknown
  }

  /** The item `persistLight` writes; the state defaults to "OFF". */
  function LightRecord(lightState: Option<string>): (s: DeviceState)
    ensures s.lightState == Some(lightState.GetOr("OFF"))
    ensures s.blindsMode.None? && s.thermostatTemperature.None? && s.thermostatMode.None?
  {
    DeviceState(Some(lightState.GetOr("OFF")), None, None, None)
  }

  /** The item `persistBlinds` writes; the mode defaults to "Position.Down". */
  function BlindsRecord(blindsMode: Option<string>): (s: DeviceState)
    ensures s.blindsMode == Some(blindsMode.GetOr("Position.Down"))
    ensures s.lightState.None? && s.thermostatTemperature.None? && s.thermostatMode.None?
  {
    DeviceState(None, Some(blindsMode.GetOr("Position.Down")), None, None)
  }

  /** The item `persistThermostat` writes; the temperature defaults to "68"
      and the mode to "AUTO", each on its own. */
  function ThermostatRecord(temperature: Option<string>, mode: Option<string>): (s: DeviceState)
    ensures s.thermostatTemperature == Some(temperature.GetOr("68"))
    ensures s.thermostatMode == Some(mode.GetOr("AUTO"))
    ensures s.lightState.None? && s.blindsMode.None?
  {
    DeviceState(None, None, Some(temperature.GetOr("68")), Some(mode.GetOr("AUTO")))
  }

  /** The store. Writes always succeed here. */
  class Store {
    var records: Records

    constructor (initial: Records)
      ensures records == initial
    {
      records := initial;
    }

    method PersistLight(endpointId: string, lightState: Option<string>)
      modifies this
      ensures records == old(records)[endpointId := LightRecord(lightState)]
    {
      records := records[endpointId := LightRecord(lightState)];
    }

    method PersistBlinds(endpointId: string, blindsMode: Option<string>)
      modifies this
      ensures records == old(records)[endpointId := BlindsRecord(blindsMode)]
    {
      records := records[endpointId := BlindsRecord(blindsMode)];
    }

    method PersistThermostat(endpointId: string, temperature: Option<string>, mode: Option<string>)
      modifies this
      ensures records == old(records)[endpointId := ThermostatRecord(temperature, mode)]
    {
      records := records[endpointId := ThermostatRecord(temperature, mode)];
    }
  }
}
