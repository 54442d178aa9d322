/** The directive router (`handler`) and its five directive handlers. Each
    handler is a method that builds an `AlexaResponse` step by step and writes
    the device store; each is proved equal to a reference function giving the
    response and the new store contents, and the properties of the handlers
    are stated on those functions. */
module SmartHome {
  import opened Values
  import opened Response
  import opened DeviceStore

  /** The configured temperature scale (FAHRENHEIT or CELSIUS). */
  const TemperatureScale := "FAHRENHEIT"

  // ---------------------------------------------------------------------
  // Directives
  // ---------------------------------------------------------------------

  /** `scope`: `scopeType` and `token` are echoed into responses as given;
      `partition` is read only for delegated account linking. */
  datatype DirectiveScope = DirectiveScope(scopeType: Value, token: Value, partition: Option<string>)

  datatype DirectiveHeader = DirectiveHeader(
    namespace: string, name: string, instance: Option<string>,
    payloadVersion: Option<string>, correlationToken: Value)

  datatype DirectiveEndpoint = DirectiveEndpoint(endpointId: string, scope: DirectiveScope)

  /** The payload fields the handlers read: `scope` (AcceptGrant, Discover),
      `mode` (SetMode), `targetSetpoint.value`, `targetSetpointDelta.value`
      and `thermostatMode.value` (thermostat directives). */
  datatype DirectivePayload = DirectivePayload(
    scope: DirectiveScope, mode: Option<string>,
    targetSetpoint: int, targetSetpointDelta: int, thermostatMode: string)

  datatype Directive = Directive(header: DirectiveHeader, endpoint: DirectiveEndpoint, payload: DirectivePayload)

  /** The raw request; `directive` is `None` when the key is missing. */
  datatype Request = Request(directive: Option<Directive>)

  /** What one handler call leaves behind: the response and the store. */
  datatype Outcome = Outcome(response: Envelope, records: Records)

  // ---------------------------------------------------------------------
  // Validation and dispatch
  // ---------------------------------------------------------------------

  /** `Number(payloadVersion) < 3`; a missing or non-numeric version is NaN
      and passes. */
  function BelowVersion3(version: Option<string>): (below: bool)
    ensures version.None? ==> !below
    ensures version == Some("") ==> below
  {
    var x := if version.None? then NaN else StringToNumber(version.value);
    x.Finite? && x.n < 3
  }

  /** On the versions this system would write, the gate refuses exactly
      those below 3. */
  lemma VersionGate(n: int)
    ensures BelowVersion3(Some(NumberToString(Finite(n)))) <==> n < 3
  {
    NumberRoundTrip(Finite(n));
  }

  /** The selector as the router logs it and echoes it in errors. */
  function Description(h: DirectiveHeader): (msg: string)
    ensures var base := "==Namespace:" + h.namespace + " Name:" + h.name;
      && |msg| >= |base| && msg[..|base|] == base
      && (IsSet(h.instance) ==> msg == base + " Instance:" + h.instance.value)
      && (!IsSet(h.instance) ==> msg == base)
  {
    var msg := "==Namespace:" + h.namespace + " Name:" + h.name;
    msg + if IsSet(h.instance) then " Instance:" + h.instance.value else ""
  }

  /** The handler a directive header selects, if any. */
  predicate Supported(h: DirectiveHeader)
  {
    || h.namespace in {"Alexa.Authorization", "Alexa.Discovery", "Alexa.PowerController", "Alexa.ThermostatController"}
    || (h.namespace == "Alexa" && h.name == "ReportState")
    || (h.namespace == "Alexa.ModeController" && h.instance == Some("Blinds.Position") && h.name == "SetMode")
  }

  datatype Route =
    | MissingDirective
    | OldVersion
    | ToAuthorization
    | ToDiscovery
    | ToLight
    | ToThermostat
    | ToStateReport
    | ToBlinds
    | Unsupported(message: string)

  /** The validation gate followed by the first-match dispatch cascade. */
  function RouteOf(request: Request): (r: Route)
    ensures r == MissingDirective <==> request.directive.None?
    ensures r == OldVersion <==>
              request.directive.Some? && BelowVersion3(request.directive.value.header.payloadVersion)
    ensures r.Unsupported? ==>
              (request.directive.Some? && r.message == "Unsupported directive: " + Description(request.directive.value.header))
  {
    if request.directive.None? then MissingDirective
    else
      var h := request.directive.value.header;
      if BelowVersion3(h.payloadVersion) then OldVersion
      else if h.namespace == "Alexa.Authorization" then ToAuthorization
      else if h.namespace == "Alexa.Discovery" then ToDiscovery
      else if h.namespace == "Alexa.PowerController" then ToLight
      else if h.namespace == "Alexa.ThermostatController" then ToThermostat
      else if h.namespace == "Alexa" && h.name == "ReportState" then ToStateReport
      else if h.namespace == "Alexa.ModeController" && h.instance == Some("Blinds.Position") && h.name == "SetMode" then ToBlinds
      else Unsupported("Unsupported directive: " + Description(h))
  }

  /** A valid directive goes to the handler its namespace (and, for
      ReportState and SetMode, its name and instance) selects, and to the
      unsupported-directive error exactly when no handler matches. */
  lemma RouteSelection(request: Request)
    requires request.directive.Some? && !BelowVersion3(request.directive.value.header.payloadVersion)
    ensures var h := request.directive.value.header;
      var r := RouteOf(request);
      && (r == ToAuthorization <==> h.namespace == "Alexa.Authorization")
      && (r == ToDiscovery <==> h.namespace == "Alexa.Discovery")
      && (r == ToLight <==> h.namespace == "Alexa.PowerController")
      && (r == ToThermostat <==> h.namespace == "Alexa.ThermostatController")
      && (r == ToStateReport <==> h.namespace == "Alexa" && h.name == "ReportState")
      && (r == ToBlinds <==>
            h.namespace == "Alexa.ModeController" && h.name == "SetMode" && h.instance == Some("Blinds.Position"))
      && (r.Unsupported? <==> !Supported(h))
  {
  }

  /** The `ErrorResponse` the router builds itself. */
  function ErrorResponse(errorType: string, message: string, uuid: string): (e: Envelope)
    ensures WellFormed(e) && e.context.None? && e.event.endpoints.None?
    ensures e.event.header.namespace == Str("Alexa") && e.event.header.name == Str("ErrorResponse")
    ensures e.event.endpoint == Some(EventEndpoint(Scope(Str("BearerToken"), Str("INVALID")), Str("INVALID")))
    ensures Field(e.event.payload, "type") == Str(errorType)
    ensures e.event.payload == Obj([("type", Str(errorType)), ("message", Str(message))])
  {
    Create(NoResponseOptions.(name := Str("ErrorResponse"),
                              payload := Obj([("type", Str(errorType)), ("message", Str(message))])), uuid)
  }

  /** `new AlexaResponse({name: "ErrorResponse", payload: {type, message}})`. */
  method NewErrorResponse(errorType: string, message: string, uuid: string) returns (ar: AlexaResponse)
    ensures fresh(ar) && ar.Valid()
    ensures ar.Get() == ErrorResponse(errorType, message, uuid)
  {
    ar := new AlexaResponse(NoResponseOptions.(name := Str("ErrorResponse"),
                                               payload := Obj([("type", Str(errorType)), ("message", Str(message))])), uuid);
  }

  const MissingDirectiveMessage := "Missing key: directive, Is request a valid Alexa directive?"
  const OldVersionMessage := "This skill only supports Smart Home API version 3 and above"

  // ---------------------------------------------------------------------
  // Shared response pieces
  // ---------------------------------------------------------------------

  /** The constructor options every endpoint-directed response uses. */
  function EndpointResponseOptions(d: Directive): ResponseOptions
  {
    NoResponseOptions.(correlationToken := d.header.correlationToken,
                       tokenType := d.endpoint.scope.scopeType,
                       token := d.endpoint.scope.token,
                       endpointId := Str(d.endpoint.endpointId))
  }

  /** The response is addressed to the directive's endpoint, with its scope,
      and carries its correlation token (each through the default rule). */
  predicate EchoesDirective(d: Directive, e: Envelope)
  {
    && e.event.endpoint == Some(EventEndpoint(
         Scope(CheckValue(d.endpoint.scope.scopeType, Str("BearerToken")), CheckValue(d.endpoint.scope.token, Str("INVALID"))),
         CheckValue(Str(d.endpoint.endpointId), Str("INVALID"))))
    && e.event.header.correlationToken == CheckValue(d.header.correlationToken, Undefined)
  }

  function PropertyOf(namespace: string, name: string, value: Value): PropertyOptions
  {
    NoPropertyOptions.(namespace := Str(namespace), name := Str(name), value := value)
  }

  function BlindsModeOptions(mode: Value): PropertyOptions
  {
    PropertyOf("Alexa.ModeController", "mode", mode).(instance := Str("Blinds.Position"))
  }

  /** `{value, scale}` as reported for a setpoint or a sensor reading. */
  function TemperatureValue(t: Number): (v: Value)
    ensures Field(v, "value") == Num(t)
    ensures Field(v, "scale") == Str(TemperatureScale)
  {
    Obj([("value", Num(t)), ("scale", Str(TemperatureScale))])
  }

  /** `Number(deviceState.thermostat_temperature_value)`. */
  function StoredTemperature(s: DeviceState): (t: Number)
    ensures s.thermostatTemperature.None? ==> t == NaN
    ensures s.thermostatTemperature.Some? ==> t == StringToNumber(s.thermostatTemperature.value)
  {
    if s.thermostatTemperature.None? then NaN else StringToNumber(s.thermostatTemperature.value)
  }

  /** The (namespace, name) of each property, in order. */
  function Names(props: seq<ContextProperty>): (r: seq<(Value, Value)>)
    ensures |r| == |props|
    ensures forall i :: 0 <= i < |props| ==> r[i] == (props[i].namespace, props[i].name)
  {
    seq(|props|, i requires 0 <= i < |props| => (props[i].namespace, props[i].name))
  }

  lemma NamesAppend(a: seq<ContextProperty>, b: seq<ContextProperty>)
    ensures Names(a + b) == Names(a) + Names(b)
  {
    assert forall i :: 0 <= i < |a + b| ==> Names(a + b)[i] == (Names(a) + Names(b))[i];
  }

  // ---------------------------------------------------------------------
  // ReportState
  // ---------------------------------------------------------------------

  const HealthName := (Str("Alexa.EndpointHealth"), Str("connectivity"))
  const PowerName := (Str("Alexa.PowerController"), Str("powerState"))
  const ModeName := (Str("Alexa.ModeController"), Str("mode"))
  const SetpointName := (Str("Alexa.ThermostatController"), Str("targetSetpoint"))
  const SensorName := (Str("Alexa.TemperatureSensor"), Str("temperature"))
  const ThermostatModeName := (Str("Alexa.ThermostatController"), Str("thermostatMode"))

  function ReportOptions(d: Directive): ResponseOptions
  {
    EndpointResponseOptions(d).(namespace := Str("Alexa"), name := Str("StateReport"))
  }

  /** `if (c) ar.addContextProperty(...)`, on the envelope. */
  function AddPropertyIf(e: Envelope, c: bool, p: ContextProperty): (r: Envelope)
    ensures r.event == e.event
    ensures r.Properties() == e.Properties() + (if c then [p] else [])
    ensures WellFormed(e) ==> WellFormed(r)
  {
    if c then WithProperty(e, p) else e
  }

  /** `getStateReportResponse`: endpoint health, then one property per stored
      field that is set, in a fixed order; nothing is written. */
  function StateReportOutcome(d: Directive, records: Records, now: string, uuid: string): (o: Outcome)
    ensures o.records == records
    ensures WellFormed(o.response) && EchoesDirective(d, o.response)
    ensures o.response.event.header.namespace == Str("Alexa")
    ensures o.response.event.header.name == Str("StateReport")
    ensures o.response.Properties() != []
  {
    var s := Retrieve(records, d.endpoint.endpointId);
    var temperature := TemperatureValue(StoredTemperature(s));
    var health := CreateContextProperty(NoPropertyOptions, now);
    var power := CreateContextProperty(PropertyOf("Alexa.PowerController", "powerState", OfOption(s.lightState)), now);
    var mode := CreateContextProperty(BlindsModeOptions(OfOption(s.blindsMode)), now);
    var setpoint := CreateContextProperty(PropertyOf("Alexa.ThermostatController", "targetSetpoint", temperature), now);
    var sensor := CreateContextProperty(PropertyOf("Alexa.TemperatureSensor", "temperature", temperature), now);
    var thermostatMode := CreateContextProperty(PropertyOf("Alexa.ThermostatController", "thermostatMode", OfOption(s.thermostatMode)), now);
    var e1 := WithProperty(Create(ReportOptions(d), uuid), health);
    var e2 := AddPropertyIf(e1, IsSet(s.lightState), power);
    var e3 := AddPropertyIf(e2, IsSet(s.blindsMode), mode);
    var e4 := AddPropertyIf(e3, IsSet(s.thermostatTemperature), setpoint);
    var e5 := AddPropertyIf(e4, IsSet(s.thermostatTemperature), sensor);
    var e6 := AddPropertyIf(e5, IsSet(s.thermostatMode), thermostatMode);
    Outcome(e6, records)
  }

  /** The properties of a state report, one per set field. */
  function ReportedProperties(s: DeviceState, now: string): seq<ContextProperty>
  {
    var temperature := TemperatureValue(StoredTemperature(s));
    [CreateContextProperty(NoPropertyOptions, now)]
    + (if IsSet(s.lightState) then [CreateContextProperty(PropertyOf("Alexa.PowerController", "powerState", OfOption(s.lightState)), now)] else [])
    + (if IsSet(s.blindsMode) then [CreateContextProperty(BlindsModeOptions(OfOption(s.blindsMode)), now)] else [])
    + (if IsSet(s.thermostatTemperature) then [CreateContextProperty(PropertyOf("Alexa.ThermostatController", "targetSetpoint", temperature), now)] else [])
    + (if IsSet(s.thermostatTemperature) then [CreateContextProperty(PropertyOf("Alexa.TemperatureSensor", "temperature", temperature), now)] else [])
    + (if IsSet(s.thermostatMode) then [CreateContextProperty(PropertyOf("Alexa.ThermostatController", "thermostatMode", OfOption(s.thermostatMode)), now)] else [])
  }

  lemma StateReportProperties(d: Directive, records: Records, now: string, uuid: string)
    ensures StateReportOutcome(d, records, now, uuid).response.Properties()
            == ReportedProperties(Retrieve(records, d.endpoint.endpointId), now)
  {
    var s := Retrieve(records, d.endpoint.endpointId);
    var temperature := TemperatureValue(StoredTemperature(s));
    AddChain(Create(ReportOptions(d), uuid), CreateContextProperty(NoPropertyOptions, now),
      IsSet(s.lightState), CreateContextProperty(PropertyOf("Alexa.PowerController", "powerState", OfOption(s.lightState)), now),
      IsSet(s.blindsMode), CreateContextProperty(BlindsModeOptions(OfOption(s.blindsMode)), now),
      IsSet(s.thermostatTemperature), CreateContextProperty(PropertyOf("Alexa.ThermostatController", "targetSetpoint", temperature), now),
      IsSet(s.thermostatTemperature), CreateContextProperty(PropertyOf("Alexa.TemperatureSensor", "temperature", temperature), now),
      IsSet(s.thermostatMode), CreateContextProperty(PropertyOf("Alexa.ThermostatController", "thermostatMode", OfOption(s.thermostatMode)), now));
  }

  lemma AddChain(e: Envelope, h: ContextProperty, c1: bool, p1: ContextProperty, c2: bool, p2: ContextProperty,
                 c3: bool, p3: ContextProperty, c4: bool, p4: ContextProperty, c5: bool, p5: ContextProperty)
    requires e.context.None?
    ensures AddPropertyIf(AddPropertyIf(AddPropertyIf(AddPropertyIf(AddPropertyIf(WithProperty(e, h), c1, p1), c2, p2), c3, p3), c4, p4), c5, p5).Properties()
       == [h] + (if c1 then [p1] else []) + (if c2 then [p2] else []) + (if c3 then [p3] else [])
          + (if c4 then [p4] else []) + (if c5 then [p5] else [])
  {
  }

  /** The report starts with endpoint health and then lists the properties
      of the set fields in the fixed order powerState, mode, targetSetpoint,
      temperature, thermostatMode. */
  lemma StateReportOrder(d: Directive, records: Records, now: string, uuid: string)
    ensures var props := StateReportOutcome(d, records, now, uuid).response.Properties();
      && props[0] == CreateContextProperty(NoPropertyOptions, now)
      && var s := Retrieve(records, d.endpoint.endpointId);
      Names(props) ==
        [HealthName]
        + (if IsSet(s.lightState) then [PowerName] else [])
        + (if IsSet(s.blindsMode) then [ModeName] else [])
        + (if IsSet(s.thermostatTemperature) then [SetpointName, SensorName] else [])
        + (if IsSet(s.thermostatMode) then [ThermostatModeName] else [])
  {
    var s := Retrieve(records, d.endpoint.endpointId);
    var temperature := TemperatureValue(StoredTemperature(s));
    StateReportProperties(d, records, now, uuid);
    ReportNames(s, CreateContextProperty(NoPropertyOptions, now),
                CreateContextProperty(PropertyOf("Alexa.PowerController", "powerState", OfOption(s.lightState)), now),
                CreateContextProperty(BlindsModeOptions(OfOption(s.blindsMode)), now),
                CreateContextProperty(PropertyOf("Alexa.ThermostatController", "targetSetpoint", temperature), now),
                CreateContextProperty(PropertyOf("Alexa.TemperatureSensor", "temperature", temperature), now),
                CreateContextProperty(PropertyOf("Alexa.ThermostatController", "thermostatMode", OfOption(s.thermostatMode)), now));
  }

  /** The names behind the order `getStateReportResponse` promises. */
  lemma ReportNames(s: DeviceState, health: ContextProperty, power: ContextProperty, mode: ContextProperty,
                    setpoint: ContextProperty, sensor: ContextProperty, thermostatMode: ContextProperty)
    requires (health.namespace, health.name) == HealthName && (power.namespace, power.name) == PowerName
    requires (mode.namespace, mode.name) == ModeName && (setpoint.namespace, setpoint.name) == SetpointName
    requires (sensor.namespace, sensor.name) == SensorName
    requires (thermostatMode.namespace, thermostatMode.name) == ThermostatModeName
    ensures Names([health] + (if IsSet(s.lightState) then [power] else []) + (if IsSet(s.blindsMode) then [mode] else [])
                  + (if IsSet(s.thermostatTemperature) then [setpoint] else [])
                  + (if IsSet(s.thermostatTemperature) then [sensor] else [])
                  + (if IsSet(s.thermostatMode) then [thermostatMode] else []))
            == [HealthName]
               + (if IsSet(s.lightState) then [PowerName] else [])
               + (if IsSet(s.blindsMode) then [ModeName] else [])
               + (if IsSet(s.thermostatTemperature) then [SetpointName, SensorName] else [])
               + (if IsSet(s.thermostatMode) then [ThermostatModeName] else [])
  {
    var a := if IsSet(s.lightState) then [power] else [];
    var b := if IsSet(s.blindsMode) then [mode] else [];
    var c := if IsSet(s.thermostatTemperature) then [setpoint] else [];
    var c2 := if IsSet(s.thermostatTemperature) then [sensor] else [];
    var f := if IsSet(s.thermostatMode) then [thermostatMode] else [];
    var h := [HealthName];
    var na := if IsSet(s.lightState) then [PowerName] else [];
    var nb := if IsSet(s.blindsMode) then [ModeName] else [];
    var nc := if IsSet(s.thermostatTemperature) then [SetpointName, SensorName] else [];
    var nf := if IsSet(s.thermostatMode) then [ThermostatModeName] else [];
    NamesAppend([health], a);
    assert Names([health] + a) == h + na;
    NamesAppend([health] + a, b);
    assert Names([health] + a + b) == h + na + nb;
    NamesAppend([health] + a + b, c);
    NamesAppend([health] + a + b + c, c2);
    assert Names(c) + Names(c2) == nc;
    assert Names([health] + a + b + c + c2) == h + na + nb + nc;
    NamesAppend([health] + a + b + c + c2, f);
  }

  method GetStateReportResponse(d: Directive, store: Store, now: string, uuid: string) returns (ar: AlexaResponse)
    ensures fresh(ar) && ar.Valid()
    ensures Outcome(ar.Get(), store.records) == StateReportOutcome(d, store.records, now, uuid)
  {
    var endpointId := d.endpoint.endpointId;
    var deviceState := Retrieve(store.records, endpointId);
    var temperatureValue := TemperatureValue(StoredTemperature(deviceState));
    ar := new AlexaResponse(ReportOptions(d), uuid);
    ar.AddContextProperty(NoPropertyOptions, now);
    if IsSet(deviceState.lightState) {
      ar.AddContextProperty(PropertyOf("Alexa.PowerController", "powerState", OfOption(deviceState.lightState)), now);
    }
    if IsSet(deviceState.blindsMode) {
      ar.AddContextProperty(BlindsModeOptions(OfOption(deviceState.blindsMode)), now);
    }
    if IsSet(deviceState.thermostatTemperature) {
      ar.AddContextProperty(PropertyOf("Alexa.ThermostatController", "targetSetpoint", temperatureValue), now);
    }
    if IsSet(deviceState.thermostatTemperature) {
      ar.AddContextProperty(PropertyOf("Alexa.TemperatureSensor", "temperature", temperatureValue), now);
    }
    if IsSet(deviceState.thermostatMode) {
      ar.AddContextProperty(PropertyOf("Alexa.ThermostatController", "thermostatMode", OfOption(deviceState.thermostatMode)), now);
    }
  }

  // ---------------------------------------------------------------------
  // Blinds (ModeController)
  // ---------------------------------------------------------------------

  /** `processBlindsDirective`: the requested mode is reported and written
      as it is. */
  function BlindsOutcome(d: Directive, records: Records, now: string, uuid: string): (o: Outcome)
    ensures o.records == records[d.endpoint.endpointId := BlindsRecord(d.payload.mode)]
    ensures WellFormed(o.response) && EchoesDirective(d, o.response)
    ensures o.response.event.header.name == Str("Response")
    ensures var props := o.response.Properties();
      && |props| == 1
      && Names(props) == [ModeName]
      && props[0].instance == Some(Str("Blinds.Position"))
      && props[0].value == CheckValue(OfOption(d.payload.mode), HealthValue)
    ensures IsSet(d.payload.mode) ==> o.response.Properties()[0].value == Str(d.payload.mode.value)
  {
    var e := WithProperty(Create(EndpointResponseOptions(d), uuid),
                          CreateContextProperty(BlindsModeOptions(OfOption(d.payload.mode)), now));
    Outcome(e, records[d.endpoint.endpointId := BlindsRecord(d.payload.mode)])
  }

  method ProcessBlindsDirective(d: Directive, store: Store, now: string, uuid: string) returns (ar: AlexaResponse)
    modifies store
    ensures fresh(ar) && ar.Valid()
    ensures Outcome(ar.Get(), store.records) == BlindsOutcome(d, old(store.records), now, uuid)
  {
    var endpointId := d.endpoint.endpointId;
    var blindsModeValue := d.payload.mode;
    ar := new AlexaResponse(EndpointResponseOptions(d), uuid);
    ar.AddContextProperty(BlindsModeOptions(OfOption(blindsModeValue)), now);
    store.PersistBlinds(endpointId, blindsModeValue);
  }

  /** Repeating a SetMode gives the same store, and the response never
      depends on what was stored before. */
  lemma BlindsIdempotent(d: Directive, records: Records, other: Records, now: string, uuid: string)
    ensures var once := BlindsOutcome(d, records, now, uuid);
      && BlindsOutcome(d, once.records, now, uuid).records == once.records
      && BlindsOutcome(d, other, now, uuid).response == once.response
  {
  }

  // ---------------------------------------------------------------------
  // Thermostat (ThermostatController)
  // ---------------------------------------------------------------------

  /** The target temperature after the directive. */
  function NewTargetTemperature(d: Directive, s: DeviceState): (t: Number)
    ensures d.header.name == "SetTargetTemperature" ==> t == Finite(d.payload.targetSetpoint)
    ensures d.header.name == "AdjustTargetTemperature" ==> t == StoredTemperature(s).Plus(d.payload.targetSetpointDelta)
    ensures d.header.name !in {"SetTargetTemperature", "AdjustTargetTemperature"} ==> t == StoredTemperature(s)
  {
    if d.header.name == "SetTargetTemperature" then Finite(d.payload.targetSetpoint)
    else if d.header.name == "AdjustTargetTemperature" then StoredTemperature(s).Plus(d.payload.targetSetpointDelta)
    else StoredTemperature(s)
  }

  /** The thermostat mode after the directive. */
  function NewThermostatMode(d: Directive, s: DeviceState): (m: Option<string>)
    ensures d.header.name == "SetThermostatMode" ==> m == Some(d.payload.thermostatMode)
    ensures d.header.name != "SetThermostatMode" ==> m == s.thermostatMode
  {
    if d.header.name == "SetThermostatMode" then Some(d.payload.thermostatMode) else s.thermostatMode
  }

  /** `processThermostatDirective`: read, update one field, report three
      properties, write both fields back. */
  function ThermostatOutcome(d: Directive, records: Records, now: string, uuid: string): (o: Outcome)
    ensures var s := Retrieve(records, d.endpoint.endpointId);
      o.records == records[d.endpoint.endpointId :=
                           ThermostatRecord(Some(NumberToString(NewTargetTemperature(d, s))), NewThermostatMode(d, s))]
    ensures WellFormed(o.response) && EchoesDirective(d, o.response)
    ensures o.response.event.header.name == Str("Response")
  {
    var s := Retrieve(records, d.endpoint.endpointId);
    var t := NewTargetTemperature(d, s);
    var m := NewThermostatMode(d, s);
    var temperature := TemperatureValue(t);
    var e0 := Create(EndpointResponseOptions(d), uuid);
    var e1 := WithProperty(e0, CreateContextProperty(PropertyOf("Alexa.ThermostatController", "thermostatMode", OfOption(m)), now));
    var e2 := WithProperty(e1, CreateContextProperty(PropertyOf("Alexa.ThermostatController", "targetSetpoint", temperature), now));
    var e3 := WithProperty(e2, CreateContextProperty(PropertyOf("Alexa.TemperatureSensor", "temperature", temperature), now));
    Outcome(e3, records[d.endpoint.endpointId := ThermostatRecord(Some(NumberToString(t)), m)])
  }

  /** The three properties a thermostat directive reports. */
  function ThermostatProperties(t: Number, m: Option<string>, now: string): seq<ContextProperty>
  {
    [ CreateContextProperty(PropertyOf("Alexa.ThermostatController", "thermostatMode", OfOption(m)), now),
      CreateContextProperty(PropertyOf("Alexa.ThermostatController", "targetSetpoint", TemperatureValue(t)), now),
      CreateContextProperty(PropertyOf("Alexa.TemperatureSensor", "temperature", TemperatureValue(t)), now) ]
  }

  lemma ThermostatOutcomeProperties(d: Directive, records: Records, now: string, uuid: string)
    ensures var s := Retrieve(records, d.endpoint.endpointId);
      ThermostatOutcome(d, records, now, uuid).response.Properties()
      == ThermostatProperties(NewTargetTemperature(d, s), NewThermostatMode(d, s), now)
  {
  }

  /** The reported mode, then the new target temperature twice: as the
      setpoint and as the sensor reading. */
  lemma ThermostatReport(d: Directive, records: Records, now: string, uuid: string)
    ensures var s := Retrieve(records, d.endpoint.endpointId);
      var props := ThermostatOutcome(d, records, now, uuid).response.Properties();
      && Names(props) == [ThermostatModeName, SetpointName, SensorName]
      && props[0].value == CheckValue(OfOption(NewThermostatMode(d, s)), HealthValue)
      && props[1].value == TemperatureValue(NewTargetTemperature(d, s))
      && props[2].value == props[1].value
  {
    ThermostatOutcomeProperties(d, records, now, uuid);
  }

  /** What the thermostat handler writes reads back as what it reported: the
      same target temperature, and the same mode whenever the mode is set.
      With no mode at all it reports the health default but stores "AUTO";
      an empty mode is stored as it is and reported as the health default. */
  lemma ThermostatPersistsReported(d: Directive, records: Records, now: string, uuid: string)
    ensures var s := Retrieve(records, d.endpoint.endpointId);
      var m := NewThermostatMode(d, s);
      var o := ThermostatOutcome(d, records, now, uuid);
      var stored := Retrieve(o.records, d.endpoint.endpointId);
      var props := o.response.Properties();
      && props[1].value == TemperatureValue(StoredTemperature(stored))
      && (IsSet(m) ==> stored.thermostatMode == m && props[0].value == Str(m.value))
      && (m.None? ==> stored.thermostatMode == Some("AUTO") && props[0].value == HealthValue)
      && (m == Some("") ==> stored.thermostatMode == m && props[0].value == HealthValue)
  {
    var s := Retrieve(records, d.endpoint.endpointId);
    ThermostatReport(d, records, now, uuid);
    NumberRoundTrip(NewTargetTemperature(d, s));
  }

  /** Any other thermostat directive name writes back the stored target
      temperature and mode as they were, when both were stored as this
      system writes them. */
  lemma ThermostatOtherNameKeeps(d: Directive, records: Records, now: string, uuid: string, t: Number, m: string)
    requires d.header.name !in {"SetTargetTemperature", "AdjustTargetTemperature", "SetThermostatMode"}
    requires Retrieve(records, d.endpoint.endpointId).thermostatTemperature == Some(NumberToString(t))
    requires Retrieve(records, d.endpoint.endpointId).thermostatMode == Some(m)
    ensures var after := Retrieve(ThermostatOutcome(d, records, now, uuid).records, d.endpoint.endpointId);
      after.thermostatTemperature == Some(NumberToString(t)) && after.thermostatMode == Some(m)
  {
    NumberRoundTrip(t);
  }

  method ProcessThermostatDirective(d: Directive, store: Store, now: string, uuid: string) returns (ar: AlexaResponse)
    modifies store
    ensures fresh(ar) && ar.Valid()
    ensures Outcome(ar.Get(), store.records) == ThermostatOutcome(d, old(store.records), now, uuid)
  {
    var name := d.header.name;
    var endpointId := d.endpoint.endpointId;
    var deviceState := Retrieve(store.records, endpointId);
    var newTargetTemperatureValue := StoredTemperature(deviceState);
    var newThermostatModeValue := deviceState.thermostatMode;
    if name == "SetTargetTemperature" {
      newTargetTemperatureValue := Finite(d.payload.targetSetpoint);
    } else if name == "AdjustTargetTemperature" {
      newTargetTemperatureValue := newTargetTemperatureValue.Plus(d.payload.targetSetpointDelta);
    } else if name == "SetThermostatMode" {
      newThermostatModeValue := Some(d.payload.thermostatMode);
    }
    var temperatureValue := TemperatureValue(newTargetTemperatureValue);
    ar := new AlexaResponse(EndpointResponseOptions(d), uuid);
    ar.AddContextProperty(PropertyOf("Alexa.ThermostatController", "thermostatMode", OfOption(newThermostatModeValue)), now);
    ar.AddContextProperty(PropertyOf("Alexa.ThermostatController", "targetSetpoint", temperatureValue), now);
    ar.AddContextProperty(PropertyOf("Alexa.TemperatureSensor", "temperature", temperatureValue), now);
    store.PersistThermostat(endpointId, Some(NumberToString(newTargetTemperatureValue)), newThermostatModeValue);
  }

  // ---------------------------------------------------------------------
  // Light (PowerController)
  // ---------------------------------------------------------------------

  function LightStateValue(name: string): (v: string)
    ensures v == "ON" <==> name == "TurnOn"
    ensures v == "ON" || v == "OFF"
  {
    if name == "TurnOn" then "ON" else "OFF"
  }

  /** `processLightDirective`: "ON" for TurnOn and "OFF" otherwise, reported
      as the only property and written to the store. */
  function LightOutcome(d: Directive, records: Records, now: string, uuid: string): (o: Outcome)
    ensures o.records == records[d.endpoint.endpointId := LightRecord(Some(LightStateValue(d.header.name)))]
    ensures WellFormed(o.response) && EchoesDirective(d, o.response)
    ensures o.response.event.header.name == Str("Response")
    ensures var props := o.response.Properties();
      && |props| == 1
      && Names(props) == [PowerName]
      && props[0].value == Str(LightStateValue(d.header.name))
  {
    var v := LightStateValue(d.header.name);
    var e := WithProperty(Create(EndpointResponseOptions(d), uuid),
                          CreateContextProperty(PropertyOf("Alexa.PowerController", "powerState", Str(v)), now));
    Outcome(e, records[d.endpoint.endpointId := LightRecord(Some(v))])
  }

  method ProcessLightDirective(d: Directive, store: Store, now: string, uuid: string) returns (ar: AlexaResponse)
    modifies store
    ensures fresh(ar) && ar.Valid()
    ensures Outcome(ar.Get(), store.records) == LightOutcome(d, old(store.records), now, uuid)
  {
    var endpointId := d.endpoint.endpointId;
    var lightStateValue := if d.header.name == "TurnOn" then "ON" else "OFF";
    ar := new AlexaResponse(EndpointResponseOptions(d), uuid);
    ar.AddContextProperty(PropertyOf("Alexa.PowerController", "powerState", Str(lightStateValue)), now);
    store.PersistLight(endpointId, Some(lightStateValue));
  }

  // ---------------------------------------------------------------------
  // AcceptGrant (Authorization)
  // ---------------------------------------------------------------------

  /** `getAuthorizationResponse`. The grant's token and type go to the
      constructor, but an `AcceptGrant.Response` drops its endpoint, so they
      do not appear in the response. */
  function AuthorizationResponse(d: Directive, uuid: string): (e: Envelope)
    ensures WellFormed(e)
    ensures e.event.header.namespace == Str("Alexa.Authorization")
    ensures e.event.header.name == Str("AcceptGrant.Response")
    ensures e.event.endpoint.None?
    ensures e.context.None? && e.event.endpoints.None? && e.event.payload == Obj([])
  {
    Create(NoResponseOptions.(namespace := Str("Alexa.Authorization"), name := Str("AcceptGrant.Response"),
                              token := d.payload.scope.token, tokenType := d.payload.scope.scopeType), uuid)
  }

  method GetAuthorizationResponse(d: Directive, uuid: string) returns (ar: AlexaResponse)
    ensures fresh(ar) && ar.Valid()
    ensures ar.Get() == AuthorizationResponse(d, uuid)
  {
    ar := new AlexaResponse(NoResponseOptions.(namespace := Str("Alexa.Authorization"), name := Str("AcceptGrant.Response"),
                                               token := d.payload.scope.token, tokenType := d.payload.scope.scopeType), uuid);
  }

  // ---------------------------------------------------------------------
  // Discovery
  // ---------------------------------------------------------------------

  /** `s.replace(/<from>/g, to)` for a single character. */
  function ReplaceAll(s: string, from: char, to: char): (r: string)
    ensures |r| == |s|
  {
    if s == [] then [] else [if s[0] == from then to else s[0]] + ReplaceAll(s[1..], from, to)
  }

  /** `ReplaceAll` changes exactly the occurrences of `from`. */
  lemma {:induction false} ReplaceAllAt(s: string, from: char, to: char)
    ensures forall i :: 0 <= i < |s| ==> ReplaceAll(s, from, to)[i] == (if s[i] == from then to else s[i])
    decreases |s|
  {
    if s != [] {
      ReplaceAllAt(s[1..], from, to);
      assert forall i :: 1 <= i < |s| ==> ReplaceAll(s, from, to)[i] == ReplaceAll(s[1..], from, to)[i - 1];
    }
  }

  /** A possibly missing string in a string concatenation. */
  function JsString(o: Option<string>): string
  {
    if o.None? then "undefined" else o.value
  }

  /** `"-" + partition` under delegated account linking, else nothing. */
  function PartitionSuffix(scope: DirectiveScope): string
  {
    if scope.scopeType == Str("BearerTokenWithPartition") then "-" + JsString(scope.partition) else ""
  }

  /** The raw prefix is the email ("undefined" when the lookup failed),
      followed by "-" and the partition exactly under delegated account
      linking. */
  lemma RawPrefix(email: Option<string>, scope: DirectiveScope)
    ensures email.Some? ==> JsString(email) == email.value
    ensures email.None? ==> JsString(email) == "undefined"
    ensures PartitionSuffix(scope) != "" <==> scope.scopeType == Str("BearerTokenWithPartition")
    ensures PartitionSuffix(scope) != "" ==> PartitionSuffix(scope) == "-" + JsString(scope.partition)
  {
  }

  /** The endpoint id prefix: account email and partition with every "." and
      then every "+" replaced by "-". `email` is what the identity resolver
      returned (`None` when it failed). */
  function EndpointIdPrefix(email: Option<string>, scope: DirectiveScope): (p: string)
    ensures |p| == |JsString(email) + PartitionSuffix(scope)|
  {
    var raw := JsString(email) + PartitionSuffix(scope);
    ReplaceAll(ReplaceAll(raw, '.', '-'), '+', '-')
  }

  /** The prefix is the raw account string with "." and "+" turned into "-",
      so neither character survives. */
  lemma PrefixSpelling(email: Option<string>, scope: DirectiveScope)
    ensures var raw := JsString(email) + PartitionSuffix(scope);
      var p := EndpointIdPrefix(email, scope);
      && (forall i :: 0 <= i < |p| ==> p[i] == (if raw[i] == '.' || raw[i] == '+' then '-' else raw[i]))
      && (forall i :: 0 <= i < |p| ==> p[i] != '.' && p[i] != '+')
  {
    var raw := JsString(email) + PartitionSuffix(scope);
    ReplaceAllAt(raw, '.', '-');
    ReplaceAllAt(ReplaceAll(raw, '.', '-'), '+', '-');
  }

  /** The example of a plain account: "a.b+c@x.com" becomes "a-b-c@x-com". */
  lemma PrefixExample(token: Value, partition: Option<string>)
    ensures EndpointIdPrefix(Some("a.b+c@x.com"), DirectiveScope(Str("BearerToken"), token, partition)) == "a-b-c@x-com"
  {
    var p := EndpointIdPrefix(Some("a.b+c@x.com"), DirectiveScope(Str("BearerToken"), token, partition));
    PrefixSpelling(Some("a.b+c@x.com"), DirectiveScope(Str("BearerToken"), token, partition));
    assert |p| == 11;
    assert forall i :: 0 <= i < 11 ==> p[i] == "a-b-c@x-com"[i];
  }

  /** `[{name: n1}, {name: n2}, ...]`. */
  function NameObjects(names: seq<string>): (r: seq<Value>)
    ensures |r| == |names|
  {
    if names == [] then [] else [Obj([("name", Str(names[0]))])] + NameObjects(names[1..])
  }

  /** `["s1", "s2", ...]`. */
  function Strings(strings: seq<string>): (r: seq<Value>)
    ensures |r| == |strings|
  {
    if strings == [] then [] else [Str(strings[0])] + Strings(strings[1..])
  }

  /** Options of one discovery capability: interface, version (`Undefined`
      when not given) and the supported property names, retrievable and not
      proactively reported. */
  function DiscoveryCapabilityOptions(interface: string, version: Value, supported: seq<string>): CapabilityOptions
  {
    NoCapabilityOptions.(interface := Str(interface), version := version,
                         supported := Arr(NameObjects(supported)),
                         retrievable := Bool(true), proactivelyReported := Bool(false))
  }

  /** The `properties` of a discovery capability that supports `names`. */
  function Reported(names: seq<string>): Option<CapabilityProperties>
  {
    Some(CapabilityProperties(Arr(NameObjects(names)), Bool(false), Bool(true)))
  }

  /** The (interface, version) of each capability, in order. */
  function InterfaceVersions(cs: seq<Capability>): (r: seq<(Value, Value)>)
    ensures |r| == |cs|
    ensures forall i :: 0 <= i < |cs| ==> r[i] == (cs[i].interface, cs[i].version)
  {
    seq(|cs|, i requires 0 <= i < |cs| => (cs[i].interface, cs[i].version))
  }

  // The capabilities of the sample devices. They are functions rather than
  // constants so that the verifier does not copy their definitions into
  // every formula that mentions them.

  /** The bare `Alexa` interface every device lists. */
  function AlexaCapability(): Capability
  {
    CreatePayloadEndpointCapability(NoCapabilityOptions)
  }

  function EndpointHealthCapability(): Capability
  {
    CreatePayloadEndpointCapability(DiscoveryCapabilityOptions("Alexa.EndpointHealth", Str("3.2"), ["connectivity"]))
  }

  /** The power controller; no version is given, so the default "3" applies. */
  function LightCapability(): Capability
  {
    CreatePayloadEndpointCapability(DiscoveryCapabilityOptions("Alexa.PowerController", Undefined, ["powerState"]))
  }

  function BlindsCapability(): Capability
  {
    CreatePayloadEndpointBlindsCapability(DiscoveryCapabilityOptions("Alexa.ModeController", Str("3"), ["mode"]))
  }

  function ThermostatCapability(): Capability
  {
    CreatePayloadEndpointThermostatCapability(
      DiscoveryCapabilityOptions("Alexa.ThermostatController", Str("3.2"), ["targetSetpoint", "thermostatMode"]))
  }

  function TempSensorCapability(): Capability
  {
    CreatePayloadEndpointTempSensorCapability(DiscoveryCapabilityOptions("Alexa.TemperatureSensor", Str("3"), ["temperature"]))
  }

  /** Alexa, endpoint health and the power controller. */
  function LightCapabilities(): seq<Capability>
  {
    [AlexaCapability(), EndpointHealthCapability(), LightCapability()]
  }

  /** Alexa, endpoint health and the Blinds.Position mode controller. */
  function BlindsCapabilities(): seq<Capability>
  {
    [AlexaCapability(), EndpointHealthCapability(), BlindsCapability()]
  }

  /** Alexa, endpoint health, the thermostat controller with its five modes
      and the temperature sensor. */
  function ThermostatCapabilities(): seq<Capability>
  {
    [AlexaCapability(), EndpointHealthCapability(), ThermostatCapability(), TempSensorCapability()]
  }

  /** The two capabilities every sample device lists: the bare `Alexa`
      interface and endpoint health 3.2 with its retrievable, not
      proactively reported connectivity. */
  lemma CommonCapabilities()
    ensures var c := AlexaCapability();
      && c.capabilityType == Str("AlexaInterface") && c.interface == Str("Alexa") && c.version == Str("3")
      && c.properties.None? && c.configuration.None? && c.instance.None?
    ensures var c := EndpointHealthCapability();
      && c.interface == Str("Alexa.EndpointHealth") && c.version == Str("3.2")
      && c.properties == Reported(["connectivity"]) && c.configuration.None? && c.instance.None?
  {
  }

  /** The power controller, which gives no version and gets the default "3",
      and the mode controller for the blinds position. */
  lemma LightAndBlindsCapabilities()
    ensures var c := LightCapability();
      && c.interface == Str("Alexa.PowerController") && c.version == Str("3")
      && c.properties == Reported(["powerState"]) && c.configuration.None? && c.instance.None?
    ensures var c := BlindsCapability();
      && c.interface == Str("Alexa.ModeController") && c.version == Str("3")
      && c.properties == Reported(["mode"]) && c.instance == Some("Blinds.Position")
      && c.configuration.Some? && c.configuration.value.ModesConfiguration?
  {
  }

  /** The thermostat controller 3.2 with its two properties and five modes,
      and the temperature sensor. */
  lemma ThermostatCapabilitiesOf()
    ensures var c := ThermostatCapability();
      && c.interface == Str("Alexa.ThermostatController") && c.version == Str("3.2")
      && c.properties == Reported(["targetSetpoint", "thermostatMode"]) && c.instance.None?
      && c.configuration == Some(ThermostatConfiguration(["HEAT", "COOL", "AUTO", "ECO", "OFF"]))
    ensures var c := TempSensorCapability();
      && c.interface == Str("Alexa.TemperatureSensor") && c.version == Str("3")
      && c.properties == Reported(["temperature"]) && c.configuration.None? && c.instance.None?
  {
  }

  /** Each device lists Alexa and endpoint health first, then its own
      controllers, as (interface, version). */
  lemma SampleCapabilityLists()
    ensures InterfaceVersions(LightCapabilities()) ==
      [(Str("Alexa"), Str("3")), (Str("Alexa.EndpointHealth"), Str("3.2")), (Str("Alexa.PowerController"), Str("3"))]
    ensures InterfaceVersions(BlindsCapabilities()) ==
      [(Str("Alexa"), Str("3")), (Str("Alexa.EndpointHealth"), Str("3.2")), (Str("Alexa.ModeController"), Str("3"))]
    ensures BlindsCapabilities()[2].instance == Some("Blinds.Position")
    ensures InterfaceVersions(ThermostatCapabilities()) ==
      [(Str("Alexa"), Str("3")), (Str("Alexa.EndpointHealth"), Str("3.2")),
       (Str("Alexa.ThermostatController"), Str("3.2")), (Str("Alexa.TemperatureSensor"), Str("3"))]
    ensures ThermostatCapabilities()[2].configuration == Some(ThermostatConfiguration(["HEAT", "COOL", "AUTO", "ECO", "OFF"]))
  {
    CommonCapabilities();
    LightAndBlindsCapabilities();
    ThermostatCapabilitiesOf();
  }

  /** The options of one sample device. */
  function DeviceOptions(endpointId: string, friendlyName: string, description: string,
                         categories: seq<string>, capabilities: seq<Capability>, model: string): EndpointOptions
  {
    EndpointOptions(
      Some(capabilities), Str(description),
      Arr(Strings(categories)),
      Str(endpointId), Str(friendlyName), Str("ASP Sample"),
      Some(Obj([("manufacturer", Str("ASP Sample")), ("model", Str(model)), ("serialNumber", Str(endpointId)),
                ("firmwareVersion", Str("1.0")), ("softwareVersion", Str("1.0"))])),
      false)
  }

  function LightOptions(endpointId: string): EndpointOptions
  {
    DeviceOptions(endpointId, "Light", "Let there be light!", ["LIGHT"], LightCapabilities(), "ASP Sample Light")
  }

  function BlindsOptions(endpointId: string): EndpointOptions
  {
    DeviceOptions(endpointId, "Blinds", "Let there be dark!", ["INTERIOR_BLIND"], BlindsCapabilities(), "ASP Sample Blinds")
  }

  function ThermostatOptions(endpointId: string): EndpointOptions
  {
    DeviceOptions(endpointId, "Thermostat", "Let there be heat!", ["THERMOSTAT", "TEMPERATURE_SENSOR"],
                  ThermostatCapabilities(), "ASP Sample Thermostat")
  }

  /** The three sample devices' options: the given id, the friendly name,
      the categories and the capability list of each device. */
  lemma SampleOptions(endpointId: string)
    ensures var o := LightOptions(endpointId);
      && o.endpointId == Str(endpointId) && o.friendlyName == Str("Light")
      && o.displayCategories == Arr([Str("LIGHT")]) && o.capabilities == Some(LightCapabilities())
    ensures var o := BlindsOptions(endpointId);
      && o.endpointId == Str(endpointId) && o.friendlyName == Str("Blinds")
      && o.displayCategories == Arr([Str("INTERIOR_BLIND")]) && o.capabilities == Some(BlindsCapabilities())
    ensures var o := ThermostatOptions(endpointId);
      && o.endpointId == Str(endpointId) && o.friendlyName == Str("Thermostat")
      && o.displayCategories == Arr([Str("THERMOSTAT"), Str("TEMPERATURE_SENSOR")])
      && o.capabilities == Some(ThermostatCapabilities())
  {
  }

  /** The discovery constructor options: the grant's token and type are
      passed, but the name is one that drops the endpoint they would go to. */
  function DiscoveryOptions(d: Directive): (o: ResponseOptions)
    ensures o.namespace == Str("Alexa.Discovery") && o.name == Str("Discover.Response")
    ensures o.token == d.payload.scope.token && o.tokenType == d.payload.scope.scopeType
    ensures OmitsEndpoint(CheckValue(o.name, Str("Response")))
  {
    NoResponseOptions.(namespace := Str("Alexa.Discovery"), name := Str("Discover.Response"),
                       token := d.payload.scope.token, tokenType := d.payload.scope.scopeType)
  }

  /** The serial number a discovered endpoint carries in its attributes. */
  function SerialNumber(p: PayloadEndpoint): Value
  {
    if p.additionalAttributes.None? then Undefined else Field(p.additionalAttributes.value, "serialNumber")
  }

  /** Every sample device carries its own id as its serial number. */
  lemma SerialNumberOf(endpointId: string, friendlyName: string, description: string,
                       categories: seq<string>, capabilities: seq<Capability>, model: string, draw: nat)
    requires draw < 90000
    ensures SerialNumber(CreatePayloadEndpoint(DeviceOptions(endpointId, friendlyName, description, categories, capabilities, model), draw))
            == Str(endpointId)
  {
    var fields := DeviceOptions(endpointId, friendlyName, description, categories, capabilities, model).additionalAttributes.value.fields;
    assert fields[0].0 != "serialNumber" by {
      assert fields[0].0[0] != "serialNumber"[0];
    }
    assert Lookup(fields[2..], "serialNumber") == Str(endpointId);
    assert Lookup(fields[1..], "serialNumber") == Lookup(fields[2..], "serialNumber");
  }

  /** The response of `getDiscoveryResponse`: three sample endpoints named
      after the account. `draw` is the random number each `addPayloadEndpoint`
      call draws; it does not show because every id is supplied. */
  function DiscoveryResponse(d: Directive, prefix: string, draw: nat, uuid: string): (e: Envelope)
    requires draw < 90000
    ensures WellFormed(e) && e.event.endpoint.None? && e.context.None?
    ensures e.event.header.namespace == Str("Alexa.Discovery")
    ensures e.event.header.name == Str("Discover.Response")
    ensures |e.Endpoints()| == 3
  {
    var e0 := Create(DiscoveryOptions(d), uuid);
    var e1 := WithEndpoint(e0, CreatePayloadEndpoint(LightOptions(prefix + "-light"),draw));
    var e2 := WithEndpoint(e1, CreatePayloadEndpoint(BlindsOptions(prefix + "-blinds"),draw));
    WithEndpoint(e2, CreatePayloadEndpoint(ThermostatOptions(prefix + "-thermostat"),draw))
  }

  /** The store writes of `getDiscoveryResponse`: each discovered id gets its
      default state and every other record stays as it was. */
  function DiscoveryWrites(records: Records, prefix: string): (r: Records)
    ensures Retrieve(r, prefix + "-light") == LightRecord(None)
    ensures Retrieve(r, prefix + "-blinds") == BlindsRecord(None)
    ensures Retrieve(r, prefix + "-thermostat") == ThermostatRecord(None, None)
    ensures r.Keys == records.Keys + {prefix + "-light", prefix + "-blinds", prefix + "-thermostat"}
  {
    assert |prefix + "-light"| != |prefix + "-blinds"|;
    assert |prefix + "-light"| != |prefix + "-thermostat"|;
    assert |prefix + "-blinds"| != |prefix + "-thermostat"|;
    records[prefix + "-light" := LightRecord(None)][prefix + "-blinds" := BlindsRecord(None)]
           [prefix + "-thermostat" := ThermostatRecord(None, None)]
  }

  /** Discovery leaves every other record as it was. */
  lemma DiscoveryKeepsOthers(records: Records, prefix: string, id: string)
    requires id != prefix + "-light" && id != prefix + "-blinds" && id != prefix + "-thermostat"
    ensures Retrieve(DiscoveryWrites(records, prefix), id) == Retrieve(records, id)
  {
  }

  /** `getDiscoveryResponse`. */
  function DiscoveryOutcome(d: Directive, records: Records, email: Option<string>, draw: nat, uuid: string): (o: Outcome)
    requires draw < 90000
    ensures var prefix := EndpointIdPrefix(email, d.payload.scope);
      && o.response.event.header.name == Str("Discover.Response") && o.response.event.endpoint.None?
      && |o.response.Endpoints()| == 3
      && Retrieve(o.records, prefix + "-light") == LightRecord(None)
      && Retrieve(o.records, prefix + "-blinds") == BlindsRecord(None)
      && Retrieve(o.records, prefix + "-thermostat") == ThermostatRecord(None, None)
      && o.records.Keys == records.Keys + {prefix + "-light", prefix + "-blinds", prefix + "-thermostat"}
  {
    var prefix := EndpointIdPrefix(email, d.payload.scope);
    Outcome(DiscoveryResponse(d, prefix, draw, uuid), DiscoveryWrites(records, prefix))
  }

  lemma EndpointChain(e: Envelope, p1: PayloadEndpoint, p2: PayloadEndpoint, p3: PayloadEndpoint)
    requires e.event.endpoints.None?
    ensures WithEndpoint(WithEndpoint(WithEndpoint(e, p1), p2), p3).Endpoints() == [p1, p2, p3]
  {
  }

  /** The discovered endpoints, in the order light, blinds, thermostat. */
  lemma DiscoveryEndpointList(d: Directive, prefix: string, draw: nat, uuid: string)
    requires draw < 90000
    ensures DiscoveryResponse(d, prefix, draw, uuid).Endpoints() ==
        [ CreatePayloadEndpoint(LightOptions(prefix + "-light"),draw),
          CreatePayloadEndpoint(BlindsOptions(prefix + "-blinds"),draw),
          CreatePayloadEndpoint(ThermostatOptions(prefix + "-thermostat"),draw) ]
  {
    EndpointChain(Create(DiscoveryOptions(d), uuid),
                  CreatePayloadEndpoint(LightOptions(prefix + "-light"),draw),
                  CreatePayloadEndpoint(BlindsOptions(prefix + "-blinds"),draw),
                  CreatePayloadEndpoint(ThermostatOptions(prefix + "-thermostat"),draw));
  }

  /** One sample device as discovered: the given id, name, description,
      categories and capabilities, the sample manufacturer, and the id again
      as the serial number. */
  lemma DiscoveredDevice(endpointId: string, friendlyName: string, description: string,
                         categories: seq<string>, capabilities: seq<Capability>, model: string, draw: nat)
    requires draw < 90000
    requires endpointId != "" && friendlyName != "" && description != ""
    ensures var p := CreatePayloadEndpoint(DeviceOptions(endpointId, friendlyName, description, categories, capabilities, model), draw);
      && p.endpointId == Str(endpointId)
      && p.friendlyName == Str(friendlyName)
      && p.description == Str(description)
      && p.displayCategories == Arr(Strings(categories))
      && p.manufacturerName == Str("ASP Sample")
      && p.capabilities == capabilities
      && SerialNumber(p) == Str(endpointId)
      && p.cookie.None?
  {
    SerialNumberOf(endpointId, friendlyName, description, categories, capabilities, model, draw);
  }

  /** The light's endpoint: the Alexa, endpoint health and power
      controller interfaces, in that order. */
  lemma LightEndpointCapabilities(endpointId: string, draw: nat)
    requires draw < 90000
    ensures var p := CreatePayloadEndpoint(LightOptions(endpointId), draw);
      InterfaceVersions(p.capabilities) ==
        [(Str("Alexa"), Str("3")), (Str("Alexa.EndpointHealth"), Str("3.2")), (Str("Alexa.PowerController"), Str("3"))]
  {
    SampleOptions(endpointId);
    SampleCapabilityLists();
  }

  /** The blinds' endpoint: the Alexa, endpoint health and mode controller
      interfaces, in that order, the last for the instance Blinds.Position. */
  lemma BlindsEndpointCapabilities(endpointId: string, draw: nat)
    requires draw < 90000
    ensures var p := CreatePayloadEndpoint(BlindsOptions(endpointId), draw);
      && InterfaceVersions(p.capabilities) ==
           [(Str("Alexa"), Str("3")), (Str("Alexa.EndpointHealth"), Str("3.2")), (Str("Alexa.ModeController"), Str("3"))]
      && p.capabilities[2].instance == Some("Blinds.Position")
  {
    SampleOptions(endpointId);
    SampleCapabilityLists();
  }

  /** The thermostat's endpoint: the Alexa, endpoint health, thermostat
      controller and temperature sensor interfaces, in that order, with the
      five thermostat modes. */
  lemma ThermostatEndpointCapabilities(endpointId: string, draw: nat)
    requires draw < 90000
    ensures var p := CreatePayloadEndpoint(ThermostatOptions(endpointId), draw);
      && InterfaceVersions(p.capabilities) ==
           [(Str("Alexa"), Str("3")), (Str("Alexa.EndpointHealth"), Str("3.2")),
            (Str("Alexa.ThermostatController"), Str("3.2")), (Str("Alexa.TemperatureSensor"), Str("3"))]
      && p.capabilities[2].configuration == Some(ThermostatConfiguration(["HEAT", "COOL", "AUTO", "ECO", "OFF"]))
  {
    SampleOptions(endpointId);
    SampleCapabilityLists();
  }

  method GetDiscoveryResponse(d: Directive, store: Store, email: Option<string>, draw: nat, uuid: string) returns (adr: AlexaResponse)
    requires draw < 90000
    modifies store
    ensures fresh(adr) && adr.Valid()
    ensures Outcome(adr.Get(), store.records) == DiscoveryOutcome(d, old(store.records), email, draw, uuid)
  {
    var partition := PartitionSuffix(d.payload.scope);
    var endpointIdPrefix := JsString(email) + partition;
    endpointIdPrefix := ReplaceAll(endpointIdPrefix, '.', '-');
    endpointIdPrefix := ReplaceAll(endpointIdPrefix, '+', '-');

    adr := new AlexaResponse(DiscoveryOptions(d), uuid);

    var endpointId := endpointIdPrefix + "-light";
    var capabilities := [AlexaCapability(), EndpointHealthCapability(), LightCapability()];
    adr.AddPayloadEndpoint(DeviceOptions(endpointId, "Light", "Let there be light!", ["LIGHT"], capabilities, "ASP Sample Light"), draw);
    store.PersistLight(endpointId, None);

    endpointId := endpointIdPrefix + "-blinds";
    capabilities := [AlexaCapability(), EndpointHealthCapability(), BlindsCapability()];
    adr.AddPayloadEndpoint(DeviceOptions(endpointId, "Blinds", "Let there be dark!", ["INTERIOR_BLIND"], capabilities, "ASP Sample Blinds"), draw);
    store.PersistBlinds(endpointId, None);

    endpointId := endpointIdPrefix + "-thermostat";
    capabilities := [AlexaCapability(), EndpointHealthCapability(), ThermostatCapability(), TempSensorCapability()];
    adr.AddPayloadEndpoint(DeviceOptions(endpointId, "Thermostat", "Let there be heat!", ["THERMOSTAT", "TEMPERATURE_SENSOR"],
                                         capabilities, "ASP Sample Thermostat"), draw);
    store.PersistThermostat(endpointId, None, None);
  }

  // ---------------------------------------------------------------------
  // The router
  // ---------------------------------------------------------------------

  /** `handler`: the response and the store after one request. `email` is
      what the identity resolver returns for a Discover directive's token and
      `draw` the random number each `addPayloadEndpoint` call draws. A request
      without a directive or below payload version 3 is refused before any
      handler runs; every other one goes to the handler its route names. */
  method Handler(request: Request, store: Store, email: Option<string>, draw: nat, now: string, uuid: string)
    returns (ar: AlexaResponse)
    requires draw < 90000
    modifies store
    ensures fresh(ar) && ar.Valid()
    ensures RouteOf(request) == MissingDirective ==>
              ar.Get() == ErrorResponse("INVALID_DIRECTIVE", MissingDirectiveMessage, uuid) && store.records == old(store.records)
    ensures RouteOf(request) == OldVersion ==>
              ar.Get() == ErrorResponse("INTERNAL_ERROR", OldVersionMessage, uuid) && store.records == old(store.records)
    ensures RouteOf(request) == ToAuthorization ==>
              ar.Get() == AuthorizationResponse(request.directive.value, uuid) && store.records == old(store.records)
    ensures RouteOf(request) == ToDiscovery ==>
              Outcome(ar.Get(), store.records) == DiscoveryOutcome(request.directive.value, old(store.records), email, draw, uuid)
    ensures RouteOf(request) == ToLight ==>
              Outcome(ar.Get(), store.records) == LightOutcome(request.directive.value, old(store.records), now, uuid)
    ensures RouteOf(request) == ToThermostat ==>
              Outcome(ar.Get(), store.records) == ThermostatOutcome(request.directive.value, old(store.records), now, uuid)
    ensures RouteOf(request) == ToStateReport ==>
              Outcome(ar.Get(), store.records) == StateReportOutcome(request.directive.value, old(store.records), now, uuid)
    ensures RouteOf(request) == ToBlinds ==>
              Outcome(ar.Get(), store.records) == BlindsOutcome(request.directive.value, old(store.records), now, uuid)
    ensures RouteOf(request).Unsupported? ==>
              ar.Get() == ErrorResponse("INTERNAL_ERROR", RouteOf(request).message, uuid) && store.records == old(store.records)
  {
    if request.directive.None? {
      ar := NewErrorResponse("INVALID_DIRECTIVE", MissingDirectiveMessage, uuid);
      return;
    }
    var d := request.directive.value;
    if BelowVersion3(d.header.payloadVersion) {
      ar := NewErrorResponse("INTERNAL_ERROR", OldVersionMessage, uuid);
      return;
    }
    if d.header.namespace == "Alexa.Authorization" || d.header.namespace == "Alexa.Discovery" {
      ar := HandleAccount(request, store, email, draw, uuid);
    } else {
      ar := HandleDevice(request, store, now, uuid);
    }
  }

  /** The first two arms of the cascade in `handler`: account linking and
      discovery. */
  method HandleAccount(request: Request, store: Store, email: Option<string>, draw: nat, uuid: string)
    returns (ar: AlexaResponse)
    requires draw < 90000
    requires request.directive.Some? && !BelowVersion3(request.directive.value.header.payloadVersion)
    requires request.directive.value.header.namespace in {"Alexa.Authorization", "Alexa.Discovery"}
    modifies store
    ensures fresh(ar) && ar.Valid()
    ensures RouteOf(request) == ToAuthorization || RouteOf(request) == ToDiscovery
    ensures RouteOf(request) == ToAuthorization ==>
              ar.Get() == AuthorizationResponse(request.directive.value, uuid) && store.records == old(store.records)
    ensures RouteOf(request) == ToDiscovery ==>
              Outcome(ar.Get(), store.records) == DiscoveryOutcome(request.directive.value, old(store.records), email, draw, uuid)
  {
    var d := request.directive.value;
    if d.header.namespace == "Alexa.Authorization" {
      assert RouteOf(request) == ToAuthorization;
      ar := GetAuthorizationResponse(d, uuid);
    } else {
      assert RouteOf(request) == ToDiscovery;
      ar := GetDiscoveryResponse(d, store, email, draw, uuid);
    }
  }

  /** The remaining arms of the cascade in `handler`: the device handlers,
      and the error response for every directive none of them takes. */
  method HandleDevice(request: Request, store: Store, now: string, uuid: string) returns (ar: AlexaResponse)
    requires request.directive.Some? && !BelowVersion3(request.directive.value.header.payloadVersion)
    requires request.directive.value.header.namespace !in {"Alexa.Authorization", "Alexa.Discovery"}
    modifies store
    ensures fresh(ar) && ar.Valid()
    ensures RouteOf(request) !in {MissingDirective, OldVersion, ToAuthorization, ToDiscovery}
    ensures RouteOf(request) == ToLight ==>
              Outcome(ar.Get(), store.records) == LightOutcome(request.directive.value, old(store.records), now, uuid)
    ensures RouteOf(request) == ToThermostat ==>
              Outcome(ar.Get(), store.records) == ThermostatOutcome(request.directive.value, old(store.records), now, uuid)
    ensures RouteOf(request) == ToStateReport ==>
              Outcome(ar.Get(), store.records) == StateReportOutcome(request.directive.value, old(store.records), now, uuid)
    ensures RouteOf(request) == ToBlinds ==>
              Outcome(ar.Get(), store.records) == BlindsOutcome(request.directive.value, old(store.records), now, uuid)
    ensures RouteOf(request).Unsupported? ==>
              ar.Get() == ErrorResponse("INTERNAL_ERROR", RouteOf(request).message, uuid) && store.records == old(store.records)
  {
    var d := request.directive.value;
    var namespace, name, instance := d.header.namespace, d.header.name, d.header.instance;
    if namespace == "Alexa.PowerController" {
      assert RouteOf(request) == ToLight;
      ar := ProcessLightDirective(d, store, now, uuid);
    } else if namespace == "Alexa.ThermostatController" {
      assert RouteOf(request) == ToThermostat;
      ar := ProcessThermostatDirective(d, store, now, uuid);
    } else if namespace == "Alexa" && name == "ReportState" {
      assert RouteOf(request) == ToStateReport;
      ar := GetStateReportResponse(d, store, now, uuid);
    } else if namespace == "Alexa.ModeController" && instance == Some("Blinds.Position") && name == "SetMode" {
      assert RouteOf(request) == ToBlinds;
      ar := ProcessBlindsDirective(d, store, now, uuid);
    } else {
      var msg := "==Namespace:" + namespace + " Name:" + name;
      msg := msg + if IsSet(instance) then " Instance:" + instance.value else "";
      assert msg == Description(d.header);
      assert RouteOf(request) == Unsupported("Unsupported directive: " + msg);
      ar := NewErrorResponse("INTERNAL_ERROR", "Unsupported directive: " + msg, uuid);
    }
  }

  // ---------------------------------------------------------------------
  // Handlers in sequence
  // ---------------------------------------------------------------------

  /** The report on a light record: health, then the power state. */
  lemma ReportOfLight(lightState: Option<string>, now: string)
    requires lightState.GetOr("OFF") != ""
    ensures ReportedProperties(LightRecord(lightState), now) ==
      [ CreateContextProperty(NoPropertyOptions, now),
        CreateContextProperty(PropertyOf("Alexa.PowerController", "powerState", Str(lightState.GetOr("OFF"))), now) ]
  {
  }

  /** The report on a thermostat record: health, the stored temperature as
      setpoint and as reading, then the mode. */
  lemma ReportOfThermostat(temperature: Option<string>, mode: Option<string>, now: string)
    requires temperature.GetOr("68") != "" && mode.GetOr("AUTO") != ""
    ensures var reading := TemperatureValue(StringToNumber(temperature.GetOr("68")));
      ReportedProperties(ThermostatRecord(temperature, mode), now) ==
      [ CreateContextProperty(NoPropertyOptions, now),
        CreateContextProperty(PropertyOf("Alexa.ThermostatController", "targetSetpoint", reading), now),
        CreateContextProperty(PropertyOf("Alexa.TemperatureSensor", "temperature", reading), now),
        CreateContextProperty(PropertyOf("Alexa.ThermostatController", "thermostatMode", Str(mode.GetOr("AUTO"))), now) ]
  {
  }

  /** A ReportState after a light directive on the same endpoint reports the
      new power state; the light record replaced everything else. */
  lemma ReportAfterLight(d: Directive, r: Directive, records: Records, now: string, uuid: string, later: string, uuid2: string)
    requires r.endpoint.endpointId == d.endpoint.endpointId
    ensures var after := LightOutcome(d, records, now, uuid).records;
      StateReportOutcome(r, after, later, uuid2).response.Properties() ==
        [ CreateContextProperty(NoPropertyOptions, later),
          CreateContextProperty(PropertyOf("Alexa.PowerController", "powerState", Str(LightStateValue(d.header.name))), later) ]
  {
    var after := LightOutcome(d, records, now, uuid).records;
    StateReportProperties(r, after, later, uuid2);
    ReportOfLight(Some(LightStateValue(d.header.name)), later);
  }

  /** A ReportState after a temperature adjustment on the same endpoint
      reports the stored temperature plus the delta, as setpoint and reading. */
  lemma ReportAfterAdjust(d: Directive, r: Directive, records: Records, t: int, now: string, uuid: string, later: string, uuid2: string)
    requires d.header.name == "AdjustTargetTemperature"
    requires r.endpoint.endpointId == d.endpoint.endpointId
    requires Retrieve(records, d.endpoint.endpointId).thermostatTemperature == Some(NumberToString(Finite(t)))
    ensures var s := Retrieve(records, d.endpoint.endpointId);
      var mode := Str(s.thermostatMode.GetOr("AUTO"));
      var after := ThermostatOutcome(d, records, now, uuid).records;
      var reading := TemperatureValue(Finite(t + d.payload.targetSetpointDelta));
      s.thermostatMode.GetOr("AUTO") != "" ==>
      StateReportOutcome(r, after, later, uuid2).response.Properties() ==
        [ CreateContextProperty(NoPropertyOptions, later),
          CreateContextProperty(PropertyOf("Alexa.ThermostatController", "targetSetpoint", reading), later),
          CreateContextProperty(PropertyOf("Alexa.TemperatureSensor", "temperature", reading), later),
          CreateContextProperty(PropertyOf("Alexa.ThermostatController", "thermostatMode", mode), later) ]
  {
    var s := Retrieve(records, d.endpoint.endpointId);
    var next := Finite(t + d.payload.targetSetpointDelta);
    NumberRoundTrip(Finite(t));
    assert NewTargetTemperature(d, s) == next;
    NumberRoundTrip(next);
    var after := ThermostatOutcome(d, records, now, uuid).records;
    assert Retrieve(after, d.endpoint.endpointId) == ThermostatRecord(Some(NumberToString(next)), s.thermostatMode);
    StateReportProperties(r, after, later, uuid2);
    if s.thermostatMode.GetOr("AUTO") != "" {
      ReportOfThermostat(Some(NumberToString(next)), s.thermostatMode, later);
    }
  }

  /** Right after discovery, the thermostat reports the defaults: 68 degrees
      and mode AUTO. */
  lemma ReportAfterDiscovery(d: Directive, r: Directive, records: Records, email: Option<string>, draw: nat, uuid: string,
                             later: string, uuid2: string)
    requires draw < 90000
    requires r.endpoint.endpointId == EndpointIdPrefix(email, d.payload.scope) + "-thermostat"
    ensures var after := DiscoveryOutcome(d, records, email, draw, uuid).records;
      var reading := TemperatureValue(Finite(68));
      StateReportOutcome(r, after, later, uuid2).response.Properties() ==
        [ CreateContextProperty(NoPropertyOptions, later),
          CreateContextProperty(PropertyOf("Alexa.ThermostatController", "targetSetpoint", reading), later),
          CreateContextProperty(PropertyOf("Alexa.TemperatureSensor", "temperature", reading), later),
          CreateContextProperty(PropertyOf("Alexa.ThermostatController", "thermostatMode", Str("AUTO")), later) ]
  {
    var after := DiscoveryOutcome(d, records, email, draw, uuid).records;
    StateReportProperties(r, after, later, uuid2);
    ReportOfThermostat(None, None, later);
    SixtyEight();
  }
}
