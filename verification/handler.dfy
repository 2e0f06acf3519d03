/** The directive dispatcher (AlexaHandler.java): reads the header of an
    inbound directive, picks one of four response recipes by its namespace,
    and for a power-control directive writes the new state to the device
    store before answering. */
module AlexaHandler {
  import opened JsonTree
  import Envelope

  /** The fields of an inbound directive the dispatcher reads; `None` is a
      field that is absent (or JSON null). */
  datatype DirectiveHeader = DirectiveHeader(namespace: Option<string>, name: Option<string>,
                                             correlationToken: Option<string>)
  datatype Scope = Scope(token: Option<string>)
  datatype DirectiveEndpoint = DirectiveEndpoint(endpointId: Option<string>, scope: Option<Scope>)
  datatype Directive = Directive(header: Option<DirectiveHeader>, endpoint: Option<DirectiveEndpoint>)

  /** The request text: `Unparsable` when it is not a JSON object. */
  datatype Request = Unparsable | Parsed(directive: Option<Directive>)

  /** The update `sendDeviceState` attempts: in table `table`, the item whose
      `ItemId` is `itemId` gets attribute `attribute` set to `value`. */
  datatype StoreUpdate = StoreUpdate(table: string, itemId: string, attribute: string, value: string)

  /** What the call to `sendDeviceState` comes back with: a boolean, or an
      exception (which the handler's catch-all swallows). */
  datatype StoreResult = Returned(success: bool) | Threw

  /** `optString(key, fallback)` on a string field. */
  function OptString(field: Option<string>, fallback: string): (s: string)
    ensures field.None? ==> s == fallback
    ensures field.Some? ==> s == field.value
  {
    if field.Some? then field.value else fallback
  }

  /** The power state a power-control directive asks for: an absent name
      counts as "TurnOn", which means ON; every other name means OFF. */
  function PowerState(name: Option<string>): (state: string)
    ensures state == "ON" <==> name.None? || name.value == "TurnOn"
    ensures state == "OFF" <==> name.Some? && name.value != "TurnOn"
  {
    if OptString(name, "TurnOn") == "TurnOn" then "ON" else "OFF"
  }

  /** The update `sendDeviceState(endpointId, state, value)` builds. */
  function DeviceStateUpdate(endpointId: string, state: string, value: string): (u: StoreUpdate)
    ensures u.table == "SampleSmartHome" && u.itemId == endpointId && u.value == value
    ensures u.attribute == state + "Value"
  {
    StoreUpdate("SampleSmartHome", endpointId, state + "Value", value)
  }

  /** What `sendDeviceState` returns once the store's `updateItem` call has
      either gone through or thrown: it never returns false. */
  function SendDeviceState(updateThrows: bool): (r: StoreResult)
    ensures r != Returned(false)
    ensures r == Threw <==> updateThrows
  {
    if updateThrows then Threw else Returned(true)
  }

  /** Whether `directive` and its `header` are there; otherwise the casts throw. */
  predicate Dispatchable(request: Request)
  {
    request.Parsed? && request.directive.Some? && request.directive.value.header.Some?
  }

  function HeaderOf(request: Request): DirectiveHeader
    requires Dispatchable(request)
  {
    request.directive.value.header.value
  }

  /** The namespace the switch is on; "INVALID" when absent. */
  function NamespaceOf(request: Request): string
    requires Dispatchable(request)
  {
    OptString(HeaderOf(request).namespace, "INVALID")
  }

  /** The correlation token to echo; "INVALID" when absent. */
  function CorrelationTokenOf(request: Request): string
    requires Dispatchable(request)
  {
    OptString(HeaderOf(request).correlationToken, "INVALID")
  }

  /** Whether `directive.endpoint` and its `scope` are there; otherwise the
      power-control branch throws before touching the store. */
  predicate HasTarget(request: Request)
    requires Dispatchable(request)
  {
    request.directive.value.endpoint.Some? && request.directive.value.endpoint.value.scope.Some?
  }

  function EndpointIdOf(request: Request): string
    requires Dispatchable(request) && HasTarget(request)
  {
    OptString(request.directive.value.endpoint.value.endpointId, "INVALID")
  }

  function TokenOf(request: Request): string
    requires Dispatchable(request) && HasTarget(request)
  {
    OptString(request.directive.value.endpoint.value.scope.value.token, "INVALID")
  }

  /** The `properties` object the PowerController capability advertises. */
  const PowerStateSupport: Json :=
    JObj(map["supported" := JArr([JObj(map["name" := JStr("powerState")])])])

  /** The two capabilities the sample switch declares: the plain Alexa
      interface, then a PowerController that supports powerState. */
  const AlexaCapability: Json :=
    JObj(map["type" := JStr("AlexaInterface"), "interface" := JStr("Alexa"), "version" := JStr("3")])
  const PowerControllerCapability: Json :=
    JObj(map["type" := JStr("AlexaInterface"), "interface" := JStr("Alexa.PowerController"),
             "version" := JStr("3"), "properties" := PowerStateSupport])

  /** The discovery branch's two `createPayloadEndpointCapability` calls succeed
      and build exactly those two capabilities. */
  lemma SwitchCapabilities()
    ensures Envelope.CreatePayloadEndpointCapability("AlexaInterface", "Alexa", "3", None) == Ok(AlexaCapability)
    ensures Envelope.CreatePayloadEndpointCapability("AlexaInterface", "Alexa.PowerController", "3",
                                                     Some(Document(PowerStateSupport))) == Ok(PowerControllerCapability)
  {
  }

  /** The answer to an authorization grant: Alexa.Authorization/AcceptGrant
      with no endpoint id or token and the correlation token echoed back. */
  function AuthorizationResponse(correlationToken: string, messageId: string): (r: Json)
    ensures Envelope.WellFormed(r)
    ensures r.fields.Keys == {"event"}
    ensures At(r, Envelope.EventPath).value.fields.Keys == {"header", "endpoint", "payload"}
    ensures Envelope.Header(r).Keys == {"namespace", "name", "messageId", "payloadVersion", "correlationToken"}
    ensures Envelope.Header(r)["namespace"] == JStr("Alexa.Authorization")
    ensures Envelope.Header(r)["name"] == JStr("AcceptGrant")
    ensures Envelope.Header(r)["messageId"] == JStr(messageId)
    ensures Envelope.Header(r)["payloadVersion"] == JStr("3")
    ensures Envelope.Header(r)["correlationToken"] ==
      JStr(if correlationToken == "" then "INVALID" else correlationToken)
    ensures Envelope.EndpointFields(r).Keys == {"scope", "endpointId"}
    ensures Envelope.EndpointFields(r)["endpointId"] == JStr("INVALID")
    ensures At(r, Envelope.ScopePath) == Some(JObj(map["type" := JStr("BearerToken"), "token" := JStr("INVALID")]))
    ensures Envelope.Payload(r) == map[] && At(r, Envelope.ContextPath) == None
  {
    Envelope.NewResponse("Alexa.Authorization", "AcceptGrant", "INVALID", "INVALID",
                         Some(correlationToken), messageId)
  }

  /** The endpoint descriptor the discovery branch adds: the sample switch
      with its two capabilities and the builder's fixed fields. */
  function SwitchEndpoint(): (e: Json)
    ensures e.JObj?
    ensures e.fields.Keys ==
      {"capabilities", "description", "displayCategories", "manufacturerName", "endpointId", "friendlyName"}
    ensures e.fields["friendlyName"] == JStr("Sample Switch")
    ensures e.fields["endpointId"] == JStr("sample-switch-01")
    ensures e.fields["displayCategories"] == JArr([JStr("OTHER")])
    ensures e.fields["description"] == JStr("Sample Endpoint Description")
    ensures e.fields["manufacturerName"] == JStr("Sample Manufacturer")
    ensures e.fields["capabilities"] == JArr([AlexaCapability, PowerControllerCapability])
  {
    Envelope.CreatePayloadEndpoint(Some("Sample Switch"), Some("sample-switch-01"),
                                   Document(JArr([AlexaCapability, PowerControllerCapability])), None, 0).value
  }

  /** The answer to a discovery query: Alexa.Discovery/Discover.Response
      listing exactly one endpoint, the sample switch. */
  function DiscoveryResponse(messageId: string): (r: Json)
    ensures Envelope.WellFormed(r)
    ensures r.fields.Keys == {"event"}
    ensures At(r, Envelope.EventPath).value.fields.Keys == {"header", "endpoint", "payload"}
    ensures Envelope.Header(r).Keys == {"namespace", "name", "messageId", "payloadVersion"}
    ensures Envelope.Header(r)["namespace"] == JStr("Alexa.Discovery")
    ensures Envelope.Header(r)["name"] == JStr("Discover.Response")
    ensures Envelope.Header(r)["messageId"] == JStr(messageId)
    ensures Envelope.Header(r)["payloadVersion"] == JStr("3")
    ensures Envelope.EndpointFields(r).Keys == {"scope", "endpointId"}
    ensures Envelope.EndpointFields(r)["endpointId"] == JStr("INVALID")
    ensures At(r, Envelope.ScopePath) == Some(JObj(map["type" := JStr("BearerToken"), "token" := JStr("INVALID")]))
    ensures Envelope.Payload(r).Keys == {"endpoints"}
    ensures Envelope.EndpointList(r) == [SwitchEndpoint()]
    ensures At(r, Envelope.ContextPath) == None
  {
    var empty := Envelope.NewResponse("Alexa.Discovery", "Discover.Response", "INVALID", "INVALID", None, messageId);
    var r := Envelope.WithEndpoint(empty, SwitchEndpoint());
    Envelope.SameEndpointScope(empty, r);
    r
  }

  /** The answer to a power-control directive whose state was stored:
      Alexa/Response for the directive's endpoint and token, echoing the
      correlation token, reporting the new power state as the one context
      property. */
  function PowerControlResponse(endpointId: string, token: string, correlationToken: string,
                                state: string, messageId: string, timeOfSample: string): (r: Json)
    requires state == "ON" || state == "OFF"
    ensures Envelope.WellFormed(r)
    ensures r.fields.Keys == {"event", "context"}
    ensures At(r, Envelope.EventPath).value.fields.Keys == {"header", "endpoint", "payload"}
    ensures Envelope.Header(r).Keys == {"namespace", "name", "messageId", "payloadVersion", "correlationToken"}
    ensures Envelope.Header(r)["namespace"] == JStr("Alexa")
    ensures Envelope.Header(r)["name"] == JStr("Response")
    ensures Envelope.Header(r)["messageId"] == JStr(messageId)
    ensures Envelope.Header(r)["payloadVersion"] == JStr("3")
    ensures Envelope.Header(r)["correlationToken"] ==
      JStr(if correlationToken == "" then "INVALID" else correlationToken)
    ensures Envelope.EndpointFields(r).Keys == {"scope", "endpointId"}
    ensures Envelope.EndpointFields(r)["endpointId"] == JStr(if endpointId == "" then "INVALID" else endpointId)
    ensures At(r, Envelope.ScopePath) ==
      Some(JObj(map["type" := JStr("BearerToken"), "token" := JStr(if token == "" then "INVALID" else token)]))
    ensures Envelope.Payload(r) == map[]
    ensures At(r, Envelope.ContextPath).Some? && At(r, Envelope.ContextPath).value.JObj?
    ensures At(r, Envelope.ContextPath).value.fields.Keys == {"properties"}
    ensures |Envelope.PropertyList(r)| == 1
    ensures Envelope.PropertyList(r)[0] == JObj(map[
      "namespace" := JStr("Alexa.PowerController"), "name" := JStr("powerState"), "value" := JStr(state),
      "timeOfSample" := JStr(timeOfSample), "uncertaintyInMilliseconds" := JNum(200)])
  {
    var empty := Envelope.NewResponse("Alexa", "Response", endpointId, token, Some(correlationToken), messageId);
    var property := Envelope.CreateContextProperty("Alexa.PowerController", "powerState", state, Malformed,
                                                   200, timeOfSample);
    var r := Envelope.WithContextProperty(empty, property);
    Envelope.SameEvent(empty, r);
    r
  }

  /** The answer when the store reports failure: Alexa/ErrorResponse with
      no endpoint id, token, correlation token, payload or context. */
  function StoreFailureResponse(messageId: string): (r: Json)
    ensures Envelope.WellFormed(r)
    ensures r.fields.Keys == {"event"}
    ensures At(r, Envelope.EventPath).value.fields.Keys == {"header", "endpoint", "payload"}
    ensures Envelope.Header(r).Keys == {"namespace", "name", "messageId", "payloadVersion"}
    ensures Envelope.Header(r)["namespace"] == JStr("Alexa")
    ensures Envelope.Header(r)["name"] == JStr("ErrorResponse")
    ensures Envelope.Header(r)["messageId"] == JStr(messageId)
    ensures Envelope.Header(r)["payloadVersion"] == JStr("3")
    ensures Envelope.EndpointFields(r).Keys == {"scope", "endpointId"}
    ensures Envelope.EndpointFields(r)["endpointId"] == JStr("INVALID")
    ensures At(r, Envelope.ScopePath) == Some(JObj(map["type" := JStr("BearerToken"), "token" := JStr("INVALID")]))
    ensures Envelope.Payload(r) == map[] && At(r, Envelope.ContextPath) == None
  {
    Envelope.NewResponse("Alexa", "ErrorResponse", "INVALID", "INVALID", None, messageId)
  }

  /** The answer to any other namespace: a plain Alexa/Response with no
      endpoint id, token or correlation token. */
  function DefaultResponse(messageId: string): (r: Json)
    ensures Envelope.WellFormed(r)
    ensures r.fields.Keys == {"event"}
    ensures At(r, Envelope.EventPath).value.fields.Keys == {"header", "endpoint", "payload"}
    ensures Envelope.Header(r).Keys == {"namespace", "name", "messageId", "payloadVersion"}
    ensures Envelope.Header(r)["namespace"] == JStr("Alexa")
    ensures Envelope.Header(r)["name"] == JStr("Response")
    ensures Envelope.Header(r)["messageId"] == JStr(messageId)
    ensures Envelope.Header(r)["payloadVersion"] == JStr("3")
    ensures Envelope.EndpointFields(r).Keys == {"scope", "endpointId"}
    ensures Envelope.EndpointFields(r)["endpointId"] == JStr("INVALID")
    ensures At(r, Envelope.ScopePath) == Some(JObj(map["type" := JStr("BearerToken"), "token" := JStr("INVALID")]))
    ensures Envelope.Payload(r) == map[] && At(r, Envelope.ContextPath) == None
  {
    Envelope.NewResponse("Alexa", "Response", "INVALID", "INVALID", None, messageId)
  }

  /** The handler. `sent` is what `sendDeviceState` comes back with if it is
      called, `messageId` the UUID of the response and `timeOfSample` the
      clock reading; `update` is the store update attempted, if any, and
      `output` the response written, if any (`None` when an exception was
      caught). The error response comes only from a store that returned
      false, which `SendDeviceState` never does. */
  method Handler(request: Request, sent: StoreResult, messageId: string, timeOfSample: string)
    returns (update: Option<StoreUpdate>, output: Option<Json>)
    ensures !Dispatchable(request) ==> update == None && output == None
    ensures Dispatchable(request) && NamespaceOf(request) == "Alexa.Authorization" ==>
      update == None && output == Some(AuthorizationResponse(CorrelationTokenOf(request), messageId))
    ensures Dispatchable(request) && NamespaceOf(request) == "Alexa.Discovery" ==>
      update == None && output == Some(DiscoveryResponse(messageId))
    ensures Dispatchable(request) && NamespaceOf(request) == "Alexa.PowerController" && !HasTarget(request) ==>
      update == None && output == None
    ensures Dispatchable(request) && NamespaceOf(request) == "Alexa.PowerController" && HasTarget(request) ==>
      && update == Some(StoreUpdate("SampleSmartHome", EndpointIdOf(request), "powerStateValue",
                                    PowerState(HeaderOf(request).name)))
      && output == match sent
                   case Returned(true) =>
                     Some(PowerControlResponse(EndpointIdOf(request), TokenOf(request), CorrelationTokenOf(request),
                                               PowerState(HeaderOf(request).name), messageId, timeOfSample))
                   case Returned(false) => Some(StoreFailureResponse(messageId))
                   case Threw => None
    ensures Dispatchable(request) &&
            NamespaceOf(request) !in {"Alexa.Authorization", "Alexa.Discovery", "Alexa.PowerController"} ==>
      update == None && output == Some(DefaultResponse(messageId))
    ensures output == Some(StoreFailureResponse(messageId)) ==> sent == Returned(false)
  {
    update, output := None, None;
    if request.Unparsable? || request.directive.None? || request.directive.value.header.None? {
      return;
    }
    var directive := request.directive.value;
    var header := directive.header.value;
    var namespace := OptString(header.namespace, "INVALID");
    var correlationToken := OptString(header.correlationToken, "INVALID");
    var ar: Envelope.AlexaResponse;
    if namespace == "Alexa.Authorization" {
      ar := new Envelope.AlexaResponse("Alexa.Authorization", "AcceptGrant", "INVALID", "INVALID",
                                       Some(correlationToken), messageId);
    } else if namespace == "Alexa.Discovery" {
      ar := new Envelope.AlexaResponse.Named("Alexa.Discovery", "Discover.Response", messageId);
      var capabilityAlexa :=
        Envelope.CreatePayloadEndpointCapability("AlexaInterface", "Alexa", "3", None);
      var capabilityPowerController :=
        Envelope.CreatePayloadEndpointCapability("AlexaInterface", "Alexa.PowerController", "3",
                                                 Some(Document(PowerStateSupport)));
      var capabilities := Document(JArr([capabilityAlexa.value, capabilityPowerController.value]));
      // the endpoint id is given, so no random number is drawn: 0 stands in for it
      var _ := ar.AddPayloadEndpoint(Some("Sample Switch"), Some("sample-switch-01"), capabilities, 0);
    } else if namespace == "Alexa.PowerController" {
      if directive.endpoint.None? || directive.endpoint.value.scope.None? {
        return;
      }
      var endpointId := OptString(directive.endpoint.value.endpointId, "INVALID");
      var token := OptString(directive.endpoint.value.scope.value.token, "INVALID");
      var value := if OptString(header.name, "TurnOn") == "TurnOn" then "ON" else "OFF";
      update := Some(DeviceStateUpdate(endpointId, "powerState", value));
      assert "powerState" + "Value" == "powerStateValue";
      if sent.Threw? {
        return;
      }
      if sent.success {
        ar := new Envelope.AlexaResponse("Alexa", "Response", endpointId, token, Some(correlationToken), messageId);
        // "ON" and "OFF" are not JSON object text, so the value stays a plain string
        ar.AddContextProperty("Alexa.PowerController", "powerState", value, Malformed, 200, timeOfSample);
      } else {
        ar := new Envelope.AlexaResponse.Named("Alexa", "ErrorResponse", messageId);
      }
    } else {
      ar := new Envelope.AlexaResponse.Default(messageId);
    }
    output := Some(ar.response);
  }
}
