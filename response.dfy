/** The Alexa Smart Home API v3 response envelope builder (`AlexaResponse`):
    the shared default rule, the option bags its methods accept, the envelope
    and capability descriptors it builds, and the envelope object that the
    directive handlers grow property by property and endpoint by endpoint. */
module Response {
  import opened Values

  // ---------------------------------------------------------------------
  // The default-substitution rule
  // ---------------------------------------------------------------------

  /** The values `checkValue` treats as "not supplied". The source also
      compares with a fresh `{}` literal, which is never identical to
      anything, so an empty mapping counts as supplied. */
  predicate Blank(v: Value)
  {
    v.Undefined? || (v.Str? && |v.s| == 0)
  }

  /** `checkValue`: the supplied value, or the default when it is blank. */
  function CheckValue(value: Value, defaultValue: Value): (r: Value)
    ensures Blank(value) ==> r == defaultValue
    ensures !Blank(value) ==> r == value
  {
    if Blank(value) then defaultValue else value
  }

  // ---------------------------------------------------------------------
  // Capability descriptors (discovery)
  // ---------------------------------------------------------------------

  /** Options of `createPayloadEndpointCapability`; `Undefined` = not given. */
  datatype CapabilityOptions = CapabilityOptions(
    capabilityType: Value, interface: Value, version: Value,
    supported: Value, proactivelyReported: Value, retrievable: Value,
    supportedIntents: Value)

  const NoCapabilityOptions := CapabilityOptions(Undefined, Undefined, Undefined, Undefined, Undefined, Undefined, Undefined)

  datatype CapabilityProperties = CapabilityProperties(supported: Value, proactivelyReported: Value, retrievable: Value)

  /** A friendly name given as an asset reference (`{"@type": "asset", value: {assetId}}`). */
  datatype Asset = Asset(assetId: string)

  datatype SupportedMode = SupportedMode(value: string, friendlyNames: seq<Asset>)

  /** The three shapes of `configuration` the builders produce. */
  datatype Configuration =
    | IntentsConfiguration(supportedIntents: Value)
    | ModesConfiguration(ordered: bool, supportedModes: seq<SupportedMode>)
    | ThermostatConfiguration(thermostatModes: seq<string>)

  /** An `ActionsToDirective` mapping whose directive carries `payload.mode`. */
  datatype ActionMapping = ActionsToDirective(actions: seq<string>, directiveName: string, mode: string)

  /** A `StatesToValue` mapping. */
  datatype StateMapping = StatesToValue(states: seq<string>, value: string)

  datatype Semantics = Semantics(actionMappings: seq<ActionMapping>, stateMappings: seq<StateMapping>)

  datatype Capability = Capability(
    capabilityType: Value, interface: Value, version: Value,
    instance: Option<string>,
    properties: Option<CapabilityProperties>,
    configuration: Option<Configuration>,
    capabilityResources: Option<seq<Asset>>,
    semantics: Option<Semantics>)

  /** `createPayloadEndpointCapability`: the generic capability. */
  function CreatePayloadEndpointCapability(opts: CapabilityOptions): (c: Capability)
    ensures c.capabilityType == CheckValue(opts.capabilityType, Str("AlexaInterface"))
    ensures c.interface == CheckValue(opts.interface, Str("Alexa"))
    ensures c.version == CheckValue(opts.version, Str("3"))
    ensures c.properties.Some? <==> Truthy(opts.supported)
    ensures c.properties.Some? ==> c.properties.value == CapabilityProperties(
              opts.supported,
              CheckValue(opts.proactivelyReported, Bool(false)),
              CheckValue(opts.retrievable, Bool(false)))
    ensures c.configuration.Some? <==> Truthy(opts.supportedIntents)
    ensures c.configuration.Some? ==> c.configuration.value == IntentsConfiguration(opts.supportedIntents)
    ensures c.instance.None? && c.capabilityResources.None? && c.semantics.None?
  {
    var supported := CheckValue(opts.supported, Bool(false));
    var properties :=
      if Truthy(supported) then
        Some(CapabilityProperties(supported,
                                  CheckValue(opts.proactivelyReported, Bool(false)),
                                  CheckValue(opts.retrievable, Bool(false))))
      else None;
    var supportedIntents := CheckValue(opts.supportedIntents, Bool(false));
    var configuration :=
      if Truthy(supportedIntents) then Some(IntentsConfiguration(supportedIntents)) else None;
    Capability(CheckValue(opts.capabilityType, Str("AlexaInterface")),
               CheckValue(opts.interface, Str("Alexa")),
               CheckValue(opts.version, Str("3")),
               None, properties, configuration, None, None)
  }

  /** The mode the first action mapping that lists `action` sets. */
  function ActionMode(mappings: seq<ActionMapping>, action: string): (r: Option<string>)
    ensures r.Some? <==> exists k :: 0 <= k < |mappings| && action in mappings[k].actions
    ensures r.Some? ==> exists k :: 0 <= k < |mappings| && action in mappings[k].actions && r.value == mappings[k].mode
                                    && forall j :: 0 <= j < k ==> action !in mappings[j].actions
  {
    if mappings == [] then None
    else if action in mappings[0].actions then Some(mappings[0].mode)
    else
      var r := ActionMode(mappings[1..], action);
      assert forall k :: 1 <= k < |mappings| ==> mappings[k] == mappings[1..][k - 1];
      r
  }

  /** The value the first state mapping that lists `state` stands for. */
  function StateValue(mappings: seq<StateMapping>, state: string): (r: Option<string>)
    ensures r.Some? <==> exists k :: 0 <= k < |mappings| && state in mappings[k].states
    ensures r.Some? ==> exists k :: 0 <= k < |mappings| && state in mappings[k].states && r.value == mappings[k].value
                                    && forall j :: 0 <= j < k ==> state !in mappings[j].states
  {
    if mappings == [] then None
    else if state in mappings[0].states then Some(mappings[0].value)
    else
      var r := StateValue(mappings[1..], state);
      assert forall k :: 1 <= k < |mappings| ==> mappings[k] == mappings[1..][k - 1];
      r
  }

  function ModeValues(modes: seq<SupportedMode>): set<string>
  {
    set k | 0 <= k < |modes| :: modes[k].value
  }

  const BlindsSemantics := Semantics(
    [ ActionsToDirective(["Alexa.Actions.Close", "Alexa.Actions.Lower"], "SetMode", "Position.Down"),
      ActionsToDirective(["Alexa.Actions.Open", "Alexa.Actions.Raise"], "SetMode", "Position.Up") ],
    [ StatesToValue(["Alexa.States.Closed"], "Position.Down"),
      StatesToValue(["Alexa.States.Open"], "Position.Up") ])

  const BlindsConfiguration := ModesConfiguration(false, [
    SupportedMode("Position.Up", [Asset("Alexa.Value.Open")]),
    SupportedMode("Position.Down", [Asset("Alexa.Value.Close")]) ])

  /** `createPayloadEndpointBlindsCapability`: the generic capability turned
      into the mode-controller blinds sample. */
  function CreatePayloadEndpointBlindsCapability(opts: CapabilityOptions): (c: Capability)
    ensures var base := CreatePayloadEndpointCapability(opts);
      c.capabilityType == base.capabilityType && c.interface == base.interface &&
      c.version == base.version && c.properties == base.properties
    ensures c.instance == Some("Blinds.Position")
    ensures c.capabilityResources == Some([Asset("Alexa.Setting.Opening")])
    ensures c.configuration.Some? && c.configuration.value.ModesConfiguration?
    ensures !c.configuration.value.ordered
    ensures c.semantics.Some?
  {
    CreatePayloadEndpointCapability(opts).(
      instance := Some("Blinds.Position"),
      capabilityResources := Some([Asset("Alexa.Setting.Opening")]),
      configuration := Some(BlindsConfiguration),
      semantics := Some(BlindsSemantics))
  }

  /** The blinds offer exactly the two positions Up and Down, in that order,
      named by the Open and Close value assets. */
  lemma BlindsModes(opts: CapabilityOptions)
    ensures var modes := CreatePayloadEndpointBlindsCapability(opts).configuration.value.supportedModes;
      && ModeValues(modes) == {"Position.Up", "Position.Down"}
      && |modes| == 2
      && modes[0] == SupportedMode("Position.Up", [Asset("Alexa.Value.Open")])
      && modes[1] == SupportedMode("Position.Down", [Asset("Alexa.Value.Close")])
  {
    var modes := BlindsConfiguration.supportedModes;
    assert modes[0].value == "Position.Up" && modes[1].value == "Position.Down";
  }

  /** Two action and two state mappings: Close and Lower set Down, Open and
      Raise set Up, all through SetMode; Closed reads as Down and Open as Up. */
  lemma BlindsSemanticsMappings(opts: CapabilityOptions)
    ensures var sem := CreatePayloadEndpointBlindsCapability(opts).semantics.value;
      && |sem.actionMappings| == 2 && |sem.stateMappings| == 2
      && (forall m :: m in sem.actionMappings ==> m.directiveName == "SetMode")
      && ActionMode(sem.actionMappings, "Alexa.Actions.Close") == Some("Position.Down")
      && ActionMode(sem.actionMappings, "Alexa.Actions.Lower") == Some("Position.Down")
      && ActionMode(sem.actionMappings, "Alexa.Actions.Open") == Some("Position.Up")
      && ActionMode(sem.actionMappings, "Alexa.Actions.Raise") == Some("Position.Up")
      && StateValue(sem.stateMappings, "Alexa.States.Closed") == Some("Position.Down")
      && StateValue(sem.stateMappings, "Alexa.States.Open") == Some("Position.Up")
  {
  }

  const ThermostatModes := ["HEAT", "COOL", "AUTO", "ECO", "OFF"]

  /** `createPayloadEndpointThermostatCapability`: the generic capability with
      its configuration replaced by the five supported thermostat modes. */
  function CreatePayloadEndpointThermostatCapability(opts: CapabilityOptions): (c: Capability)
    ensures c == CreatePayloadEndpointCapability(opts).(configuration := c.configuration)
    ensures c.configuration == Some(ThermostatConfiguration(["HEAT", "COOL", "AUTO", "ECO", "OFF"]))
  {
    CreatePayloadEndpointCapability(opts).(configuration := Some(ThermostatConfiguration(ThermostatModes)))
  }

  /** `createPayloadEndpointTempSensorCapability`: exactly the generic capability. */
  function CreatePayloadEndpointTempSensorCapability(opts: CapabilityOptions): (c: Capability)
    ensures c == CreatePayloadEndpointCapability(opts)
  {
    CreatePayloadEndpointCapability(opts)
  }

  // ---------------------------------------------------------------------
  // Envelope values
  // ---------------------------------------------------------------------

  /** Options of the constructor; `Undefined` = not given. */
  datatype ResponseOptions = ResponseOptions(
    namespace: Value, name: Value, messageId: Value, correlationToken: Value,
    payloadVersion: Value, tokenType: Value, token: Value, endpointId: Value,
    payload: Value)

  const NoResponseOptions := ResponseOptions(Undefined, Undefined, Undefined, Undefined, Undefined, Undefined, Undefined, Undefined, Undefined)

  /** Options of `createContextProperty`; `Undefined` = not given. */
  datatype PropertyOptions = PropertyOptions(
    namespace: Value, name: Value, value: Value,
    uncertaintyInMilliseconds: Value, instance: Value)

  const NoPropertyOptions := PropertyOptions(Undefined, Undefined, Undefined, Undefined, Undefined)

  /** Options of `createPayloadEndpoint`. `additionalAttributes` and `cookie`
      record whether the key is present at all (`hasOwnProperty`); the
      capability list is typed, so only its absence selects the default. */
  datatype EndpointOptions = EndpointOptions(
    capabilities: Option<seq<Capability>>, description: Value,
    displayCategories: Value, endpointId: Value, friendlyName: Value,
    manufacturerName: Value, additionalAttributes: Option<Value>, cookie: bool)

  datatype Header = Header(namespace: Value, name: Value, messageId: Value, correlationToken: Value, payloadVersion: Value)

  datatype Scope = Scope(scopeType: Value, token: Value)

  datatype EventEndpoint = EventEndpoint(scope: Scope, endpointId: Value)

  datatype ContextProperty = ContextProperty(
    namespace: Value, name: Value, value: Value, timeOfSample: string,
    uncertaintyInMilliseconds: Value, instance: Option<Value>)

  datatype PayloadEndpoint = PayloadEndpoint(
    capabilities: seq<Capability>, description: Value, displayCategories: Value,
    endpointId: Value, friendlyName: Value, manufacturerName: Value,
    additionalAttributes: Option<Value>, cookie: Option<Value>)

  /** `event`; `endpoints` is the `payload.endpoints` list, created on first use. */
  datatype Event = Event(header: Header, endpoint: Option<EventEndpoint>, payload: Value, endpoints: Option<seq<PayloadEndpoint>>)

  /** The composed response; `context` holds `context.properties`. */
  datatype Envelope = Envelope(context: Option<seq<ContextProperty>>, event: Event)
  {
    function Properties(): seq<ContextProperty>
    {
      if context.None? then [] else context.value
    }

    function Endpoints(): seq<PayloadEndpoint>
    {
      if event.endpoints.None? then [] else event.endpoints.value
    }
  }

  /** The two response names that never carry an `endpoint`. */
  predicate OmitsEndpoint(name: Value)
  {
    name == Str("AcceptGrant.Response") || name == Str("Discover.Response")
  }

  /** The structural invariant of every envelope: the endpoint is there
      exactly when the name allows it, and the lazily created lists exist
      only once something was added to them. */
  predicate WellFormed(e: Envelope)
  {
    && (e.event.endpoint.Some? <==> !OmitsEndpoint(e.event.header.name))
    && (e.context.Some? ==> e.context.value != [])
    && (e.event.endpoints.Some? ==> e.event.endpoints.value != [])
  }

  const HealthValue := Obj([("value", Str("OK"))])

  /** The envelope the constructor builds (without `opts.event`);
      `uuid` is the fresh message id. */
  function Create(opts: ResponseOptions, uuid: string): (e: Envelope)
    ensures WellFormed(e)
    ensures e.context.None? && e.event.endpoints.None?
    ensures e.event.endpoint.Some? <==> !OmitsEndpoint(CheckValue(opts.name, Str("Response")))
    ensures e.event.header == Header(
              CheckValue(opts.namespace, Str("Alexa")),
              CheckValue(opts.name, Str("Response")),
              CheckValue(opts.messageId, Str(uuid)),
              CheckValue(opts.correlationToken, Undefined),
              CheckValue(opts.payloadVersion, Str("3")))
    ensures e.event.endpoint.Some? ==> e.event.endpoint.value == EventEndpoint(
              Scope(CheckValue(opts.tokenType, Str("BearerToken")), CheckValue(opts.token, Str("INVALID"))),
              CheckValue(opts.endpointId, Str("INVALID")))
    ensures e.event.payload == CheckValue(opts.payload, Obj([]))
  {
    var header := Header(
      CheckValue(opts.namespace, Str("Alexa")),
      CheckValue(opts.name, Str("Response")),
      CheckValue(opts.messageId, Str(uuid)),
      CheckValue(opts.correlationToken, Undefined),
      CheckValue(opts.payloadVersion, Str("3")));
    var endpoint := EventEndpoint(
      Scope(CheckValue(opts.tokenType, Str("BearerToken")), CheckValue(opts.token, Str("INVALID"))),
      CheckValue(opts.endpointId, Str("INVALID")));
    Envelope(None, Event(header, if OmitsEndpoint(header.name) then None else Some(endpoint),
                         CheckValue(opts.payload, Obj([])), None))
  }

  /** With no options at all the envelope is the generic `Alexa.Response`
      with placeholder credentials and an empty payload. */
  lemma DefaultEnvelope(uuid: string)
    ensures Create(NoResponseOptions, uuid) == Envelope(None, Event(
      Header(Str("Alexa"), Str("Response"), Str(uuid), Undefined, Str("3")),
      Some(EventEndpoint(Scope(Str("BearerToken"), Str("INVALID")), Str("INVALID"))),
      Obj([]), None))
  {
  }

  /** `createContextProperty`; `now` is the sample time read from the clock. */
  function CreateContextProperty(opts: PropertyOptions, now: string): (p: ContextProperty)
    ensures p.namespace == CheckValue(opts.namespace, Str("Alexa.EndpointHealth"))
    ensures p.name == CheckValue(opts.name, Str("connectivity"))
    ensures p.value == CheckValue(opts.value, HealthValue)
    ensures p.uncertaintyInMilliseconds == CheckValue(opts.uncertaintyInMilliseconds, Num(Finite(0)))
    ensures p.timeOfSample == now
    ensures p.instance.Some? <==> Truthy(opts.instance)
    ensures p.instance.Some? ==> p.instance.value == opts.instance
  {
    ContextProperty(
      CheckValue(opts.namespace, Str("Alexa.EndpointHealth")),
      CheckValue(opts.name, Str("connectivity")),
      CheckValue(opts.value, HealthValue),
      now,
      CheckValue(opts.uncertaintyInMilliseconds, Num(Finite(0))),
      if Truthy(opts.instance) then Some(opts.instance) else None)
  }

  /** The endpoint-health property that empty options produce. */
  lemma EndpointHealthDefault(now: string)
    ensures CreateContextProperty(NoPropertyOptions, now) ==
            ContextProperty(Str("Alexa.EndpointHealth"), Str("connectivity"), HealthValue, now, Num(Finite(0)), None)
  {
  }

  /** The id `createPayloadEndpoint` invents: "endpoint_" and the five
      digits of `10000 + draw`, with `draw` standing for
      `Math.floor(Math.random() * 90000)`. */
  function GeneratedEndpointId(draw: nat): (id: string)
    requires draw < 90000
    ensures |id| == 14 && id[..9] == "endpoint_"
    ensures AllDigits(id[9..]) && DecimalToNat(id[9..]) == 10000 + draw
  {
    var n := draw + 10000;
    var digits := NatToDecimal(n);
    FiveDigits(n);
    DecimalRoundTrip(n);
    assert ("endpoint_" + digits)[9..] == digits;
    "endpoint_" + digits
  }

  /** `createPayloadEndpoint`. */
  function CreatePayloadEndpoint(opts: EndpointOptions, draw: nat): (p: PayloadEndpoint)
    requires draw < 90000
    ensures p.capabilities == opts.capabilities.GetOr([])
    ensures p.description == CheckValue(opts.description, Str("Sample Endpoint Description"))
    ensures p.displayCategories == CheckValue(opts.displayCategories, Arr([Str("OTHER")]))
    ensures p.friendlyName == CheckValue(opts.friendlyName, Str("Sample Endpoint"))
    ensures p.manufacturerName == CheckValue(opts.manufacturerName, Str("Sample Manufacturer"))
    ensures p.endpointId == CheckValue(opts.endpointId, Str(GeneratedEndpointId(draw)))
    ensures p.additionalAttributes.Some? <==> opts.additionalAttributes.Some?
    ensures opts.additionalAttributes.Some? ==>
              p.additionalAttributes.value == CheckValue(opts.additionalAttributes.value, Obj([]))
    ensures p.cookie == (if opts.cookie then Some(Str("cookie")) else None)
  {
    PayloadEndpoint(
      opts.capabilities.GetOr([]),
      CheckValue(opts.description, Str("Sample Endpoint Description")),
      CheckValue(opts.displayCategories, Arr([Str("OTHER")])),
      CheckValue(opts.endpointId, Str(GeneratedEndpointId(draw))),
      CheckValue(opts.friendlyName, Str("Sample Endpoint")),
      CheckValue(opts.manufacturerName, Str("Sample Manufacturer")),
      if opts.additionalAttributes.Some? then Some(CheckValue(opts.additionalAttributes.value, Obj([]))) else None,
      if opts.cookie then Some(CheckValue(Str("cookie"), Obj([]))) else None)
  }

  /** The envelope after one more context property. */
  function WithProperty(e: Envelope, p: ContextProperty): (r: Envelope)
    ensures r.event == e.event
    ensures r.context.Some? && r.Properties() == e.Properties() + [p]
    ensures WellFormed(e) ==> WellFormed(r)
  {
    Envelope(Some(e.Properties() + [p]), e.event)
  }

  /** The envelope after one more discovery endpoint. */
  function WithEndpoint(e: Envelope, p: PayloadEndpoint): (r: Envelope)
    ensures r.context == e.context
    ensures r.event.header == e.event.header && r.event.endpoint == e.event.endpoint
    ensures r.event.payload == e.event.payload
    ensures r.event.endpoints.Some? && r.Endpoints() == e.Endpoints() + [p]
    ensures WellFormed(e) ==> WellFormed(r)
  {
    Envelope(e.context, e.event.(endpoints := Some(e.Endpoints() + [p])))
  }

  // ---------------------------------------------------------------------
  // The envelope object
  // ---------------------------------------------------------------------

  /** `AlexaResponse`: the envelope under construction. */
  class AlexaResponse {
    var context: Option<seq<ContextProperty>>
    var header: Header
    var endpoint: Option<EventEndpoint>
    var payload: Value
    var endpoints: Option<seq<PayloadEndpoint>>

    predicate Valid()
      reads this
    {
      && (endpoint.None? <==> OmitsEndpoint(header.name))
      && (context.Some? ==> context.value != [])
      && (endpoints.Some? ==> endpoints.value != [])
    }

    /** `get`: the composed response. */
    function Get(): (e: Envelope)
      reads this
      ensures Valid() <==> WellFormed(e)
    {
      Envelope(context, Event(header, endpoint, payload, endpoints))
    }

    constructor (opts: ResponseOptions, uuid: string)
      ensures Valid()
      ensures Get() == Create(opts, uuid)
    {
      context := None;
      header := Header(
        CheckValue(opts.namespace, Str("Alexa")),
        CheckValue(opts.name, Str("Response")),
        CheckValue(opts.messageId, Str(uuid)),
        CheckValue(opts.correlationToken, Undefined),
        CheckValue(opts.payloadVersion, Str("3")));
      endpoint := Some(EventEndpoint(
        Scope(CheckValue(opts.tokenType, Str("BearerToken")), CheckValue(opts.token, Str("INVALID"))),
        CheckValue(opts.endpointId, Str("INVALID"))));
      payload := CheckValue(opts.payload, Obj([]));
      endpoints := None;
      new;
      if OmitsEndpoint(header.name) {
        endpoint := None;
      }
    }

    /** `addContextProperty`: append one property, creating the list first. */
    method AddContextProperty(opts: PropertyOptions, now: string)
      requires Valid()
      modifies this
      ensures Valid()
      ensures Get() == WithProperty(old(Get()), CreateContextProperty(opts, now))
    {
      if context.None? {
        context := Some([]);
      }
      context := Some(context.value + [CreateContextProperty(opts, now)]);
    }

    /** `addPayloadEndpoint`: append one endpoint, creating the list first. */
    method AddPayloadEndpoint(opts: EndpointOptions, draw: nat)
      requires Valid()
      requires draw < 90000
      modifies this
      ensures Valid()
      ensures Get() == WithEndpoint(old(Get()), CreatePayloadEndpoint(opts, draw))
    {
      if endpoints.None? {
        endpoints := Some([]);
      }
      endpoints := Some(endpoints.value + [CreatePayloadEndpoint(opts, draw)]);
    }
  }
}
