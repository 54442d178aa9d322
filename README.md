# Alexa Smart Home sample skill: response builder and directive handlers

This project models the Lambda core of the Alexa Smart Home sample skill in Dafny.
The skill answers Smart Home API v3 directives for three sample devices of one
account: a light, a blind and a thermostat. The model covers four pieces:

- **The response envelope builder** (`lambda/response.js`, module `Response`).
  - The default rule `checkValue`: a value that is `undefined` or `""` is replaced by its default.
  - The constructor, including the removal of `endpoint` from `AcceptGrant.Response`
    and `Discover.Response`.
  - The context-property and payload-endpoint factories, with their defaults.
  - The capability builders: generic, blinds, thermostat and temperature sensor.
  - The `AlexaResponse` object itself. It is a class whose `context`, `header`, `endpoint`,
    `payload` and `endpoints` fields the methods update. Its `Get` returns the composed
    envelope as a value. `Valid` is the structural invariant every method keeps:
    - the endpoint is absent exactly for the two names that drop it;
    - the lazily created lists are non-empty once they exist.
- **The device store** (`lambda/ddb.js`, module `DeviceStore`). It is a map from endpoint id
  to a record.
  - `retrieveDevice` reads a missing record as all fields absent.
  - Each `persist*` call replaces the whole record with a DynamoDB `PutItem`. It fills in
    its parameter defaults: `"OFF"`, `"Position.Down"`, `"68"` and `"AUTO"`.
- **The router and the five handlers** (`lambda/smarthome.js`, module `SmartHome`).
  - The router first applies a gate: a request without a directive, or one below payload
    version 3, is refused.
  - The router's first-match cascade is modelled twice:
    - as a function, `RouteOf`;
    - as the method `Handler`, which calls the handler methods.
  - Each handler is a method that builds an `AlexaResponse` step by step and writes the
    store. Each is proved equal to a reference function that gives the response and the
    new store contents (`Outcome`).
  - Properties about the handlers are stated on those functions, across several calls too.
    For example, a state report after a control directive reports what was written.
- **JavaScript values** (`Values`). These are the option bags and JSON payloads, JavaScript
  truthiness, and `String(n)`/`Number(s)` on the decimal integers the store holds. The
  last two come with a round-trip proof.

Behaviour of the code worth noting, which the model follows:

- The control handlers (light, blinds, thermostat) report only their own properties: one
  for the light and the blinds, three for the thermostat. They do not add an
  endpoint-health property; only `ReportState` does (`lambda/smarthome.js:104`).
- `AcceptGrant.Response` and `Discover.Response` do not carry the scope token and type
  handed to the constructor. The constructor writes them into `event.endpoint`, which it
  then deletes (`lambda/response.js:59-64`).
- A thermostat with no stored mode reports `thermostatMode` with the endpoint-health
  default `{value: "OK"}`. This comes from the `checkValue` default
  (`lambda/smarthome.js:221-225`, `lambda/response.js:97`). The handler then stores
  `"AUTO"`, the default parameter of `persistThermostat` (`lambda/ddb.js:52`).
- An empty mode `""` is stored as it is, because a default parameter replaces only
  `undefined`, and is reported as `{value: "OK"}` (`lambda/smarthome.js:237-241`).
- The power controller capability gives no version and so carries the default "3"
  (`lambda/smarthome.js:382-387`).
- `ThermostatPersistsReported` states all three cases exactly.

## Model

| member | source | states |
|---|---|---|
| Values.Number.Plus | lambda/smarthome.js:200-202 | JavaScript `+` on the stored temperature: the result is NaN exactly when the operand is, and otherwise the operand plus the delta |
| Values.OfOption | lambda/ddb.js:104-111 | a missing store attribute reads as `undefined`, a present one as its string |
| Values.NumberToString | lambda/smarthome.js:239 | `String(x)` is never empty and is "NaN" only for NaN |
| Values.StringToNumber | lambda/smarthome.js:190-192 | `Number(s)`: the empty string reads as 0, a digit string as a non-negative number, and a finite result without a minus sign came from digits |
| Values.DecimalRoundTrip | lambda/smarthome.js:239 | the value of the decimal spelling of n is n |
| Values.FiveDigits | lambda/response.js:127 | every number from 10000 to 99999 is spelled with five digits |
| Values.NumberRoundTrip | lambda/smarthome.js:237-241 | reading back with `Number` what `String` wrote gives the same number, NaN included |
| Values.SixtyEight | lambda/ddb.js:51 | the default temperature "68" is the number 68, both ways |
| Response.CheckValue | lambda/response.js:20-25 | the default exactly when the value is undefined or the empty string, otherwise the value itself (an empty object counts as supplied) |
| Response.CreatePayloadEndpointCapability | lambda/response.js:152-181 | type, interface and version through their defaults; `properties` exactly when `supported` is truthy, with the two flags defaulting to false; `configuration` exactly when `supportedIntents` is truthy; nothing else |
| Response.ActionMode | lambda/response.js:240-261 | an action has a mode exactly when some action mapping lists it, and then it is the mode of the first mapping that lists it |
| Response.StateValue | lambda/response.js:262-273 | a state has a value exactly when some state mapping lists it, and then it is the value of the first mapping that lists it |
| Response.CreatePayloadEndpointBlindsCapability | lambda/response.js:190-277 | the generic capability's type, interface, version and properties, plus instance "Blinds.Position", the Opening resource, an unordered mode configuration and semantics |
| Response.BlindsModes | lambda/response.js:206-236 | the blinds offer exactly two positions, Up then Down, named by the Open and Close value assets |
| Response.BlindsSemanticsMappings | lambda/response.js:239-275 | two action and two state mappings; every action mapping sends SetMode; Close and Lower set Down, Open and Raise set Up; Closed reads as Down and Open as Up |
| Response.CreatePayloadEndpointThermostatCapability | lambda/response.js:286-293 | the generic capability with only its configuration replaced by the modes HEAT, COOL, AUTO, ECO, OFF |
| Response.CreatePayloadEndpointTempSensorCapability | lambda/response.js:301-304 | exactly the generic capability |
| Response.Create | lambda/response.js:32-65 | every header and endpoint field through its default, the payload defaulting to `{}`, no context and no endpoint list, and the endpoint present exactly when the name is neither `AcceptGrant.Response` nor `Discover.Response`; the result is well formed |
| Response.DefaultEnvelope | lambda/response.js:40-57 | with no options: `Alexa.Response`, payload version 3, the fresh message id, placeholder scope "BearerToken"/"INVALID", endpoint "INVALID", empty payload |
| Response.CreateContextProperty | lambda/response.js:93-108 | namespace, name, value and uncertainty through their defaults (endpoint health, connectivity, `{value:"OK"}`, 0), the sample time, and `instance` exactly when the option is truthy |
| Response.EndpointHealthDefault | lambda/response.js:93-103 | empty options give the EndpointHealth connectivity property with value OK and uncertainty 0 |
| Response.GeneratedEndpointId | lambda/response.js:125-128 | the invented id is "endpoint_" followed by the five digits of 10000 + draw |
| Response.CreatePayloadEndpoint | lambda/response.js:114-146 | every field through its default (the id from the random draw), `additionalAttributes` exactly when the key is present and `cookie` "cookie" exactly when that key is present |
| Response.WithProperty | lambda/response.js:71-75 | one more context property at the end, the event unchanged, well-formedness kept |
| Response.WithEndpoint | lambda/response.js:81-86 | one more payload endpoint at the end, everything else unchanged, well-formedness kept |
| Response.AlexaResponse.Get | lambda/response.js:310-312 | the composed envelope is well formed exactly when the object is valid |
| Response.AlexaResponse.constructor | lambda/response.js:32-65 | the new object is valid and composes to `Create(opts, uuid)` |
| Response.AlexaResponse.AddContextProperty | lambda/response.js:71-75 | keeps the object valid and appends exactly one property built from the options |
| Response.AlexaResponse.AddPayloadEndpoint | lambda/response.js:81-86 | keeps the object valid and appends exactly one endpoint built from the options |
| DeviceStore.Retrieve | lambda/ddb.js:87-118 | the stored record, or all fields absent when there is none |
| DeviceStore.LightRecord | lambda/ddb.js:27-33 | the light state, defaulting to "OFF", and no other field |
| DeviceStore.BlindsRecord | lambda/ddb.js:38-44 | the blinds mode, defaulting to "Position.Down", and no other field |
| DeviceStore.ThermostatRecord | lambda/ddb.js:49-60 | temperature defaulting to "68" and mode defaulting to "AUTO", each on its own, and no other field |
| DeviceStore.Store.PersistLight | lambda/ddb.js:27-33 | replaces the endpoint's whole record with the light record; every other record is unchanged |
| DeviceStore.Store.PersistBlinds | lambda/ddb.js:38-44 | replaces the endpoint's whole record with the blinds record; every other record is unchanged |
| DeviceStore.Store.PersistThermostat | lambda/ddb.js:49-60 | replaces the endpoint's whole record with the thermostat record; every other record is unchanged |
| SmartHome.BelowVersion3 | lambda/smarthome.js:26 | a missing payload version is not refused, and an empty one is (it reads as 0) |
| SmartHome.VersionGate | lambda/smarthome.js:26 | on the spelling of any integer, the gate refuses exactly the integers below 3 |
| SmartHome.Description | lambda/smarthome.js:43-44 | the namespace and name line, followed by the instance exactly when the instance is set |
| SmartHome.RouteOf | lambda/smarthome.js:14-73 | missing directive exactly when there is none; old version exactly when the version parses below 3; an unsupported route carries "Unsupported directive: " and the description |
| SmartHome.RouteSelection | lambda/smarthome.js:49-73 | for a valid directive, each handler is chosen exactly when its namespace (and for ReportState and SetMode its name and instance) matches, and the error exactly when no handler matches |
| SmartHome.ErrorResponse | lambda/smarthome.js:66-72 | an `Alexa` `ErrorResponse` with placeholder endpoint and payload `{type, message}` |
| SmartHome.NewErrorResponse | lambda/smarthome.js:15-21 | the new object is valid and composes to the error response |
| SmartHome.TemperatureValue | lambda/smarthome.js:90-93 | the temperature object has the given number as `value` and the configured scale as `scale` |
| SmartHome.StoredTemperature | lambda/smarthome.js:90-93 | a missing stored temperature reads as NaN, a stored one as `Number` of its string |
| SmartHome.AddPropertyIf | lambda/smarthome.js:106-112 | a property is appended exactly when the condition holds; the event is unchanged |
| SmartHome.StateReportOutcome | lambda/smarthome.js:84-148 | writes nothing; an `Alexa` `StateReport`, well formed, addressed to the directive's endpoint, with at least one property |
| SmartHome.StateReportProperties | lambda/smarthome.js:104-145 | the report's properties are health followed by one property per set field, with their values |
| SmartHome.StateReportOrder | lambda/smarthome.js:104-145 | the report starts with endpoint health, then powerState, mode, targetSetpoint and temperature, thermostatMode, each exactly when its field is set |
| SmartHome.ReportNames | lambda/smarthome.js:106-145 | the names of the conditionally added properties, in order |
| SmartHome.GetStateReportResponse | lambda/smarthome.js:84-148 | the built response and the store equal `StateReportOutcome` |
| SmartHome.BlindsOutcome | lambda/smarthome.js:156-177 | stores the requested mode (default "Position.Down"); reports one Blinds.Position mode property whose value is the mode when it is set |
| SmartHome.ProcessBlindsDirective | lambda/smarthome.js:156-177 | the built response and the new store equal `BlindsOutcome` |
| SmartHome.BlindsIdempotent | lambda/smarthome.js:156-177 | repeating SetMode leaves the store as after the first call, and the response does not depend on the store |
| SmartHome.NewTargetTemperature | lambda/smarthome.js:190-202 | SetTargetTemperature takes the payload value, AdjustTargetTemperature adds the delta to the stored value, any other name keeps it |
| SmartHome.NewThermostatMode | lambda/smarthome.js:193-205 | SetThermostatMode takes the payload mode, any other name keeps the stored one |
| SmartHome.ThermostatOutcome | lambda/smarthome.js:186-244 | writes exactly the new temperature (as its string) and the new mode to the endpoint's record; the response is well formed and addressed to the directive's endpoint |
| SmartHome.ThermostatOutcomeProperties | lambda/smarthome.js:221-235 | the three reported properties are built from the new mode and the new temperature |
| SmartHome.ThermostatReport | lambda/smarthome.js:210-235 | thermostatMode, targetSetpoint, temperature in that order; the setpoint and the reading are the same new temperature |
| SmartHome.ThermostatPersistsReported | lambda/smarthome.js:221-241 | the stored temperature reads back as the reported one; a set mode is stored as reported; no mode reports OK but stores "AUTO"; an empty mode is stored empty and reports OK |
| SmartHome.ThermostatOtherNameKeeps | lambda/smarthome.js:206-241 | when the stored temperature is the `String` spelling of a number (the only form the handlers write) and a mode is stored, any other thermostat directive name writes both back unchanged |
| SmartHome.ProcessThermostatDirective | lambda/smarthome.js:186-244 | the built response and the new store equal `ThermostatOutcome` |
| SmartHome.LightStateValue | lambda/smarthome.js:256-257 | "ON" exactly for TurnOn, otherwise "OFF" |
| SmartHome.LightOutcome | lambda/smarthome.js:252-273 | stores the new light state; reports exactly one powerState property with that state |
| SmartHome.ProcessLightDirective | lambda/smarthome.js:252-273 | the built response and the new store equal `LightOutcome` |
| SmartHome.AuthorizationResponse | lambda/smarthome.js:282-291 | an `Alexa.Authorization` `AcceptGrant.Response` with no endpoint, no context and an empty payload |
| SmartHome.GetAuthorizationResponse | lambda/smarthome.js:282-291 | the new object is valid and composes to `AuthorizationResponse` |
| SmartHome.ReplaceAll | lambda/smarthome.js:348-349 | the same length as the input |
| SmartHome.ReplaceAllAt | lambda/smarthome.js:348-349 | exactly the occurrences of the character are replaced |
| SmartHome.RawPrefix | lambda/smarthome.js:337-347 | the account part is the email, or "undefined" when the lookup failed; the partition suffix is non-empty exactly for the token type `BearerTokenWithPartition`, and is then "-" followed by the partition |
| SmartHome.EndpointIdPrefix | lambda/smarthome.js:337-349 | as long as the email and the partition suffix together |
| SmartHome.PrefixSpelling | lambda/smarthome.js:347-349 | the prefix is the raw account string with every "." and "+" turned into "-", and neither survives |
| SmartHome.PrefixExample | lambda/smarthome.js:347-349 | "a.b+c@x.com" becomes "a-b-c@x-com" |
| SmartHome.CommonCapabilities | lambda/smarthome.js:368-375 | the Alexa interface capability (version 3, no properties) and endpoint health 3.2 with connectivity, retrievable and not proactively reported |
| SmartHome.LightAndBlindsCapabilities | lambda/smarthome.js:382-422 | the power controller with version "3" and powerState; the mode controller "3" with mode, instance Blinds.Position and a mode configuration |
| SmartHome.ThermostatCapabilitiesOf | lambda/smarthome.js:446-459 | the thermostat controller 3.2 with targetSetpoint and thermostatMode and the five modes; the temperature sensor "3" with temperature |
| SmartHome.SampleCapabilityLists | lambda/smarthome.js:388-465 | each device's capabilities as (interface, version) in order: Alexa, endpoint health, then its own controllers |
| SmartHome.SampleOptions | lambda/smarthome.js:393-480 | each device is added under the given id with its name, display categories and its own capability list |
| SmartHome.DiscoveryOptions | lambda/smarthome.js:355-360 | the discovery constructor options: the Discovery namespace and `Discover.Response` name, the grant's token and type, and a name that drops the endpoint |
| SmartHome.LightEndpointCapabilities | lambda/smarthome.js:381-407 | the discovered light endpoint lists Alexa 3, EndpointHealth 3.2 and PowerController 3, in that order |
| SmartHome.BlindsEndpointCapabilities | lambda/smarthome.js:414-438 | the discovered blinds endpoint lists Alexa 3, EndpointHealth 3.2 and ModeController 3, in that order, the last for Blinds.Position |
| SmartHome.ThermostatEndpointCapabilities | lambda/smarthome.js:445-480 | the discovered thermostat endpoint lists Alexa 3, EndpointHealth 3.2, ThermostatController 3.2 and TemperatureSensor 3, in that order, with the five modes |
| SmartHome.SerialNumberOf | lambda/smarthome.js:400-406 | each sample device carries its endpoint id as its serial number |
| SmartHome.DiscoveryResponse | lambda/smarthome.js:355-480 | an `Alexa.Discovery` `Discover.Response`, well formed, with no endpoint and no context, and three endpoints |
| SmartHome.DiscoveryWrites | lambda/smarthome.js:408-481 | the three discovered ids get the default light, blinds and thermostat records; the ids are added to the store's keys and nothing else is |
| SmartHome.DiscoveryKeepsOthers | lambda/smarthome.js:408-481 | every other record is unchanged |
| SmartHome.DiscoveryEndpointList | lambda/smarthome.js:381-480 | the endpoints are the light, the blinds and the thermostat, in that order |
| SmartHome.DiscoveredDevice | lambda/smarthome.js:393-407 | a sample device has the given id, name, description, categories and capabilities, the sample manufacturer, its id as serial number, and no cookie |
| SmartHome.DiscoveryOutcome | lambda/smarthome.js:300-484 | a `Discover.Response` with no endpoint and three endpoints; the three ids derived from the prefix get default light, blinds and thermostat records, and the store gains exactly those keys |
| SmartHome.GetDiscoveryResponse | lambda/smarthome.js:300-484 | the built response and the new store equal `DiscoveryOutcome` |
| SmartHome.Handler | lambda/smarthome.js:12-76 | for each route: the two gate errors and the unsupported-directive error leave the store unchanged; every other route gives exactly its handler's outcome |
| SmartHome.HandleAccount | lambda/smarthome.js:49-52 | the Authorization namespace gives the AcceptGrant response and the Discovery namespace the discovery outcome |
| SmartHome.HandleDevice | lambda/smarthome.js:53-73 | each device route gives its handler's outcome; anything else gives the INTERNAL_ERROR "Unsupported directive" response and no write |
| SmartHome.ReportOfLight | lambda/smarthome.js:104-112 | a light record is reported as health followed by its power state |
| SmartHome.ReportOfThermostat | lambda/smarthome.js:104-145 | a thermostat record is reported as health, the stored temperature as setpoint and as reading, then the mode |
| SmartHome.ReportAfterLight | lambda/smarthome.js:252-273 | a ReportState after a light directive on the same endpoint reports exactly the new power state |
| SmartHome.ReportAfterAdjust | lambda/smarthome.js:198-241 | a ReportState after AdjustTargetTemperature reports the old temperature plus the delta, as setpoint and as reading, and the kept mode |
| SmartHome.ReportAfterDiscovery | lambda/smarthome.js:445-481 | right after discovery the thermostat reports 68 degrees and mode AUTO |

## Left out

- Asynchrony and logging: the `await`s are sequential calls, and `console.log` output is not modelled.
- The identity resolver (`lambda/cognito.js`, an HTTP call) is not part of this model. Its result is the parameter `email`, and `None` stands for a failed lookup.
- Clock, message ids and randomness are parameters:
  - `now` is the ISO time of sample;
  - `uuid` is the generated message id;
  - `draw` is `Math.floor(Math.random() * 90000)`.
- One `now` serves a whole handler call, while the source reads the clock once per property.
- One `draw` serves all three discovery endpoints. The draw never shows, because every sample endpoint has an id.
- Store failures are not modelled. A failed write is logged and swallowed by the source, and a failed read makes the handler throw. Here every write succeeds and every read returns the record.
- The constructor's `opts.context` and `opts.event` pass-through is left out; no caller in the core uses it.
- A directive whose `endpoint` or whose payload fields are missing, where the source throws a TypeError, is not modelled: these fields are required in the datatypes.
- Values.StringToNumber: reads only an optional minus sign followed by decimal digits (and the empty string). Any other string is NaN. JavaScript `Number` also accepts a leading "+", "Infinity" and "-Infinity", "0b", "0o" and "0x" literals, fractions, exponents and surrounding blanks. The store only ever holds `String` of an integer or "NaN", so the round trip is exact for everything the handlers write.
- SmartHome.BelowVersion3: inherits that restriction, so payload versions such as "2.5", "+2", "0x2", " 2" or "-Infinity" pass the gate in the model, while JavaScript rejects them.
- JSON `null` is not a `Value`. So a `null` correlation token, which `checkValue` keeps, and a `null` blinds mode, which skips the `persistBlinds` default, cannot be expressed.
- Numbers are integers or NaN; floating-point temperatures and deltas are not modelled.
- Response.CreatePayloadEndpoint: the capability list is typed, so only its absence selects the default `[]`. An empty-string list that `checkValue` would replace cannot be written here.
- The `instance` option passed to the blinds capability builder is not in `CapabilityOptions`. The generic builder never reads it, and the blinds builder sets the instance itself.
- `lambda/index.js` and `lambda/constants.js`, apart from the temperature scale "FAHRENHEIT", are not part of this model.
