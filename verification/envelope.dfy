/** The response envelope builder (AlexaResponse.java): a tree of the form
    `{ event: { header, endpoint, payload }, context?: { properties } }`
    built by a constructor and then changed in place by the Add* and Set*
    methods. The pure functions below say what each step yields; the class
    at the end performs the steps on its `response` tree. */
module Envelope {
  import opened JsonTree

  const EventPath: Path := ["event"]
  const HeaderPath: Path := EventPath + ["header"]
  const EndpointPath: Path := EventPath + ["endpoint"]
  const ScopePath: Path := EndpointPath + ["scope"]
  const CookiePath: Path := EndpointPath + ["cookie"]
  const PayloadPath: Path := EventPath + ["payload"]
  const EndpointsPath: Path := PayloadPath + ["endpoints"]
  const ContextPath: Path := ["context"]
  const PropertiesPath: Path := ContextPath + ["properties"]

  /** One step down from an optional node: the child at key `k`, if any. */
  function Child(o: Option<Json>, k: string): Option<Json>
  {
    if IsObject(o) && k in o.value.fields then Some(o.value.fields[k]) else None
  }

  /** Each named path of the envelope is one key below its parent. */
  lemma Navigate(r: Json)
    ensures At(r, EventPath) == Child(Some(r), "event")
    ensures At(r, HeaderPath) == Child(At(r, EventPath), "header")
    ensures At(r, EndpointPath) == Child(At(r, EventPath), "endpoint")
    ensures At(r, ScopePath) == Child(At(r, EndpointPath), "scope")
    ensures At(r, CookiePath) == Child(At(r, EndpointPath), "cookie")
    ensures At(r, PayloadPath) == Child(At(r, EventPath), "payload")
    ensures At(r, EndpointsPath) == Child(At(r, PayloadPath), "endpoints")
    ensures At(r, ContextPath) == Child(Some(r), "context")
    ensures At(r, PropertiesPath) == Child(At(r, ContextPath), "properties")
  {
    AtChild(r, [], "event");
    assert [] + ["event"] == EventPath;
    AtChild(r, EventPath, "header");
    AtChild(r, EventPath, "endpoint");
    AtChild(r, EndpointPath, "scope");
    AtChild(r, EndpointPath, "cookie");
    AtChild(r, EventPath, "payload");
    AtChild(r, PayloadPath, "endpoints");
    AtChild(r, [], "context");
    assert [] + ["context"] == ContextPath;
    AtChild(r, ContextPath, "properties");
  }

  /** The shape every envelope keeps: the root, `event`, `header`, `endpoint`
      and `payload` are objects, and a `cookie`, once there, is an object. */
  predicate WellFormed(r: Json)
  {
    && r.JObj?
    && IsObject(At(r, EventPath))
    && IsObject(At(r, HeaderPath))
    && IsObject(At(r, EndpointPath))
    && IsObject(At(r, PayloadPath))
    && (At(r, CookiePath).Some? ==> IsObject(At(r, CookiePath)))
  }

  function Header(r: Json): map<string, Json>
    requires WellFormed(r)
  {
    At(r, HeaderPath).value.fields
  }

  function EndpointFields(r: Json): map<string, Json>
    requires WellFormed(r)
  {
    At(r, EndpointPath).value.fields
  }

  function Payload(r: Json): map<string, Json>
    requires WellFormed(r)
  {
    At(r, PayloadPath).value.fields
  }

  /** The cookie map of the endpoint; empty while there is none. */
  function Cookies(r: Json): map<string, Json>
  {
    if IsObject(At(r, CookiePath)) then At(r, CookiePath).value.fields else map[]
  }

  /** The payload's `endpoints` list; empty while there is none. */
  function EndpointList(r: Json): seq<Json>
  {
    if IsArray(At(r, EndpointsPath)) then At(r, EndpointsPath).value.items else []
  }

  /** `payload.endpoints` is absent or an array, so `getJSONArray` does not throw. */
  predicate EndpointsAppendable(r: Json)
  {
    At(r, EndpointsPath).None? || IsArray(At(r, EndpointsPath))
  }

  /** `context` is an object holding a `properties` array. */
  predicate HasContext(r: Json)
  {
    IsObject(At(r, ContextPath)) && IsArray(At(r, PropertiesPath))
  }

  /** The context properties; empty while there is no context. */
  function PropertyList(r: Json): seq<Json>
  {
    if HasContext(r) then At(r, PropertiesPath).value.items else []
  }

  /** An empty string stands for "use the default". (A null argument makes
      the source throw; strings here are never null.) */
  function CheckValue(value: string, defaultValue: string): (r: string)
    ensures value == "" ==> r == defaultValue
    ensures value != "" ==> r == value
    ensures r == "" <==> value == "" && defaultValue == ""
  {
    if value == "" then defaultValue else value
  }

  /** The tree the five-argument constructor builds. */
  function NewResponse(namespace: string, name: string, endpointId: string, token: string,
                       correlationToken: Option<string>, messageId: string): (r: Json)
    ensures WellFormed(r)
    ensures r.fields.Keys == {"event"}
    ensures At(r, EventPath).value.fields.Keys == {"header", "endpoint", "payload"}
    ensures Header(r).Keys - {"correlationToken"} == {"namespace", "name", "messageId", "payloadVersion"}
    ensures Header(r)["namespace"] == JStr(CheckValue(namespace, "Alexa"))
    ensures Header(r)["name"] == JStr(CheckValue(name, "Response"))
    ensures Header(r)["messageId"] == JStr(messageId)
    ensures Header(r)["payloadVersion"] == JStr("3")
    ensures "correlationToken" in Header(r) <==> correlationToken.Some?
    ensures correlationToken.Some? ==>
      Header(r)["correlationToken"] == JStr(CheckValue(correlationToken.value, "INVALID"))
    ensures EndpointFields(r).Keys == {"scope", "endpointId"}
    ensures EndpointFields(r)["endpointId"] == JStr(CheckValue(endpointId, "INVALID"))
    ensures At(r, ScopePath) == Some(JObj(map["type" := JStr("BearerToken"),
                                              "token" := JStr(CheckValue(token, "INVALID"))]))
    ensures Payload(r) == map[]
    ensures At(r, CookiePath) == None && At(r, EndpointsPath) == None && At(r, ContextPath) == None
  {
    var header := map["namespace" := JStr(CheckValue(namespace, "Alexa")),
                      "name" := JStr(CheckValue(name, "Response")),
                      "messageId" := JStr(messageId),
                      "payloadVersion" := JStr("3")];
    var scope := map["type" := JStr("BearerToken"), "token" := JStr(CheckValue(token, "INVALID"))];
    var r := JObj(map["event" := JObj(map[
      "header" := JObj(if correlationToken.Some?
                       then header["correlationToken" := JStr(CheckValue(correlationToken.value, "INVALID"))]
                       else header),
      "endpoint" := JObj(map["scope" := JObj(scope),
                             "endpointId" := JStr(CheckValue(endpointId, "INVALID"))]),
      "payload" := JObj(map[])])]);
    Navigate(r);
    r
  }

  /** The digit character for `d`. */
  function DigitChar(d: nat): (c: char)
    requires d < 10
    ensures '0' <= c <= '9' && c as int - '0' as int == d
  {
    ('0' as int + d) as char
  }

  /** The decimal text Java's string concatenation gives a non-negative int. */
  function Decimal(n: nat): (s: string)
    ensures 1 <= |s|
    ensures forall i :: 0 <= i < |s| ==> '0' <= s[i] <= '9'
    ensures s[0] == '0' ==> s == "0"
    decreases n
  {
    if n < 10 then [DigitChar(n)] else Decimal(n / 10) + [DigitChar(n % 10)]
  }

  predicate AllDigits(s: string)
  {
    forall i :: 0 <= i < |s| ==> '0' <= s[i] <= '9'
  }

  /** The number a string of decimal digits denotes. */
  function DigitsValue(s: string): nat
    requires AllDigits(s)
    decreases |s|
  {
    if s == [] then 0 else DigitsValue(s[..|s| - 1]) * 10 + (s[|s| - 1] as int - '0' as int)
  }

  /** Reading the digits back gives the number: `Decimal` loses nothing. */
  lemma {:induction false} DecimalRoundTrip(n: nat)
    ensures DigitsValue(Decimal(n)) == n
    decreases n
  {
    if n >= 10 {
      var s := Decimal(n);
      assert s[..|s| - 1] == Decimal(n / 10);
      DecimalRoundTrip(n / 10);
    }
  }

  /** The id given to an endpoint created without one: the text "endpoint_",
      then the number 100000, then the random number, each appended as text. */
  function GeneratedEndpointId(randomSuffix: nat): (id: string)
    ensures id == "endpoint_100000" + Decimal(randomSuffix)
  {
    assert Decimal(100000) == "100000";
    "endpoint_" + Decimal(100000) + Decimal(randomSuffix)
  }

  /** The endpoint descriptor `CreatePayloadEndpoint` builds; `randomSuffix`
      is the value `new Random().nextInt(900000)` draws. */
  function CreatePayloadEndpoint(friendlyName: Option<string>, endpointId: Option<string>,
                                 capabilities: JsonText, cookie: Option<JsonText>,
                                 randomSuffix: nat): (r: Result<Json>)
    requires randomSuffix < 900000
    ensures r.Ok? <==>
      ParseArray(capabilities).Some? && (cookie.Some? ==> ParseObject(cookie.value).Some?)
    ensures r.Ok? ==> r.value.JObj?
    ensures r.Ok? ==> (r.value.fields.Keys ==
      {"capabilities", "description", "displayCategories", "manufacturerName", "endpointId", "friendlyName"}
      + (if cookie.Some? then {"cookie"} else {}))
    ensures r.Ok? ==> r.value.fields["capabilities"] == capabilities.doc
    ensures r.Ok? ==> r.value.fields["displayCategories"] == JArr([JStr("OTHER")])
    ensures r.Ok? ==> r.value.fields["description"] == JStr("Sample Endpoint Description")
    ensures r.Ok? ==> r.value.fields["manufacturerName"] == JStr("Sample Manufacturer")
    ensures r.Ok? ==> (r.value.fields["friendlyName"] ==
      JStr(if friendlyName.Some? then friendlyName.value else "Sample Endpoint"))
    ensures r.Ok? && endpointId.Some? ==> r.value.fields["endpointId"] == JStr(endpointId.value)
    ensures r.Ok? && endpointId.None? ==>
      r.value.fields["endpointId"] == JStr(GeneratedEndpointId(randomSuffix))
    ensures r.Ok? && cookie.Some? ==> r.value.fields["cookie"] == cookie.value.doc
  {
    match ParseArray(capabilities)
    case None => JsonException
    case Some(items) =>
      var endpoint := map["capabilities" := JArr(items),
                          "description" := JStr("Sample Endpoint Description"),
                          "displayCategories" := JArr([JStr("OTHER")]),
                          "manufacturerName" := JStr("Sample Manufacturer"),
                          "endpointId" := JStr(if endpointId.Some? then endpointId.value
                                               else GeneratedEndpointId(randomSuffix)),
                          "friendlyName" := JStr(if friendlyName.Some? then friendlyName.value
                                                 else "Sample Endpoint")];
      if cookie.None? then Ok(JObj(endpoint))
      else match ParseObject(cookie.value)
        case None => JsonException
        case Some(c) => Ok(JObj(endpoint["cookie" := JObj(c)]))
  }

  /** The capability descriptor `CreatePayloadEndpointCapability` builds. */
  function CreatePayloadEndpointCapability(capabilityType: string, interfaceValue: string,
                                           version: string, properties: Option<JsonText>): (r: Result<Json>)
    ensures r.Ok? <==> properties.None? || ParseObject(properties.value).Some?
    ensures r.Ok? ==> r.value.JObj?
    ensures r.Ok? ==> (r.value.fields.Keys ==
      {"type", "interface", "version"} + (if properties.Some? then {"properties"} else {}))
    ensures r.Ok? ==> r.value.fields["type"] == JStr(capabilityType)
    ensures r.Ok? ==> r.value.fields["interface"] == JStr(interfaceValue)
    ensures r.Ok? ==> r.value.fields["version"] == JStr(version)
    ensures r.Ok? && properties.Some? ==> r.value.fields["properties"] == properties.value.doc
  {
    var capability := map["type" := JStr(capabilityType), "interface" := JStr(interfaceValue),
                          "version" := JStr(version)];
    if properties.None? then Ok(JObj(capability))
    else match ParseObject(properties.value)
      case None => JsonException
      case Some(p) => Ok(JObj(capability["properties" := JObj(p)]))
  }

  /** The context property `CreateContextProperty` builds. `valueText` is what
      the parser makes of `value`; `timeOfSample` is the clock reading. */
  function CreateContextProperty(namespace: string, name: string, value: string, valueText: JsonText,
                                 uncertaintyInMilliseconds: int, timeOfSample: string): (p: Json)
    ensures p.JObj?
    ensures p.fields.Keys == {"namespace", "name", "timeOfSample", "uncertaintyInMilliseconds", "value"}
    ensures p.fields["namespace"] == JStr(namespace) && p.fields["name"] == JStr(name)
    ensures p.fields["timeOfSample"] == JStr(timeOfSample)
    ensures p.fields["uncertaintyInMilliseconds"] == JNum(uncertaintyInMilliseconds)
    ensures p.fields["value"].JObj? <==> ParseObject(valueText).Some?
    ensures ParseObject(valueText).Some? ==> p.fields["value"] == valueText.doc
    ensures ParseObject(valueText).None? ==> p.fields["value"] == JStr(value)
  {
    var property := map["namespace" := JStr(namespace), "name" := JStr(name),
                        "timeOfSample" := JStr(timeOfSample),
                        "uncertaintyInMilliseconds" := JNum(uncertaintyInMilliseconds)];
    match ParseObject(valueText)
    case Some(nested) => JObj(property["value" := JObj(nested)])
    case None => JObj(property["value" := JStr(value)])
  }

  /** Two envelopes with the same endpoint object have the same scope. */
  lemma SameEndpointScope(a: Json, b: Json)
    requires WellFormed(a) && WellFormed(b) && EndpointFields(b) == EndpointFields(a)
    ensures At(b, ScopePath) == At(a, ScopePath)
  {
    Navigate(a);
    Navigate(b);
  }

  /** Two envelopes with the same `event` object have the same header,
      endpoint, scope and payload. */
  lemma SameEvent(a: Json, b: Json)
    requires WellFormed(a) && WellFormed(b) && At(b, EventPath) == At(a, EventPath)
    ensures Header(b) == Header(a) && EndpointFields(b) == EndpointFields(a) && Payload(b) == Payload(a)
    ensures At(b, ScopePath) == At(a, ScopePath)
  {
    Navigate(a);
    Navigate(b);
  }

  /** Facts about a put at `p` for every named path of the envelope: the
      ones above `p` stay objects, the ones beside it keep their value. */
  lemma PutInEnvelope(r: Json, p: Path, v: Json)
    requires CanPut(r, p)
    ensures forall q :: q in {EventPath, EndpointPath, PayloadPath, ContextPath} && q < p ==>
      IsObject(At(Put(r, p, v), q))
    ensures forall q :: q in {HeaderPath, EndpointPath, ScopePath, CookiePath, PayloadPath, EndpointsPath,
                              ContextPath, PropertiesPath} && Disjoint(p, q) ==>
      At(Put(r, p, v), q) == At(r, q)
    ensures SameOutside(r, Put(r, p, v), p)
  {
    PutKeepsOutside(r, p, v);
    forall q | q in {EventPath, EndpointPath, PayloadPath, ContextPath} && q < p
      ensures IsObject(At(Put(r, p, v), q))
    {
      PutAbove(r, p, v, q);
    }
  }

  /** `AddCookie`'s effect: the endpoint's cookie map, created if missing,
      maps `key` to `value`; every other cookie and every other part of the
      envelope stay as they were. */
  function WithCookie(r: Json, key: string, value: string): (r': Json)
    requires WellFormed(r)
    ensures WellFormed(r')
    ensures IsObject(At(r', CookiePath))
    ensures Cookies(r').Keys == Cookies(r).Keys + {key}
    ensures Cookies(r')[key] == JStr(value)
    ensures forall k :: k in Cookies(r) && k != key ==> Cookies(r')[k] == Cookies(r)[k]
    ensures SameOutside(r, r', CookiePath)
    ensures Header(r') == Header(r) && Payload(r') == Payload(r)
    ensures EndpointFields(r') - {"cookie"} == EndpointFields(r) - {"cookie"}
  {
    Navigate(r);
    CanPutBelow(r, EndpointPath, "cookie");
    var r' := Put(r, CookiePath, JObj(Cookies(r)[key := JStr(value)]));
    PutInEnvelope(r, CookiePath, JObj(Cookies(r)[key := JStr(value)]));
    PutChild(r, EndpointPath, "cookie", JObj(Cookies(r)[key := JStr(value)]));
    Navigate(r');
    r'
  }

  /** `AddPayloadEndpoint`'s effect: `payload.endpoints`, created if missing,
      gains `endpoint` as its new last element; nothing else changes. */
  function WithEndpoint(r: Json, endpoint: Json): (r': Json)
    requires WellFormed(r) && EndpointsAppendable(r)
    ensures WellFormed(r')
    ensures IsArray(At(r', EndpointsPath))
    ensures |EndpointList(r')| == |EndpointList(r)| + 1
    ensures EndpointList(r')[..|EndpointList(r)|] == EndpointList(r)
    ensures EndpointList(r')[|EndpointList(r)|] == endpoint
    ensures SameOutside(r, r', EndpointsPath)
    ensures Header(r') == Header(r) && EndpointFields(r') == EndpointFields(r)
    ensures Payload(r') - {"endpoints"} == Payload(r) - {"endpoints"}
    ensures Payload(r').Keys == Payload(r).Keys + {"endpoints"}
    ensures r'.fields.Keys == r.fields.Keys
    ensures At(r', EventPath).value.fields.Keys == At(r, EventPath).value.fields.Keys
  {
    Navigate(r);
    CanPutBelow(r, PayloadPath, "endpoints");
    var r' := Put(r, EndpointsPath, JArr(EndpointList(r) + [endpoint]));
    PutInEnvelope(r, EndpointsPath, JArr(EndpointList(r) + [endpoint]));
    PutChild(r, PayloadPath, "endpoints", JArr(EndpointList(r) + [endpoint]));
    assert EndpointsPath[|EventPath|] == "payload";
    PutAboveKeys(r, EndpointsPath, JArr(EndpointList(r) + [endpoint]), EventPath);
    Navigate(r');
    r'
  }

  /** `AddContextProperty`'s effect: `context.properties`, created (with its
      context) if missing, gains `property` as its new last element; the
      event part of the envelope does not change. */
  function WithContextProperty(r: Json, property: Json): (r': Json)
    requires WellFormed(r)
    ensures WellFormed(r')
    ensures HasContext(r')
    ensures |PropertyList(r')| == |PropertyList(r)| + 1
    ensures PropertyList(r')[..|PropertyList(r)|] == PropertyList(r)
    ensures PropertyList(r')[|PropertyList(r)|] == property
    ensures SameOutside(r, r', ContextPath)
    ensures HasContext(r) ==>
      At(r', ContextPath).value.fields - {"properties"} == At(r, ContextPath).value.fields - {"properties"}
    ensures !HasContext(r) ==> At(r', ContextPath) == Some(JObj(map["properties" := JArr([property])]))
    ensures At(r', EventPath) == At(r, EventPath)
    ensures r'.fields.Keys == r.fields.Keys + {"context"}
  {
    Navigate(r);
    if HasContext(r) then
      CanPutBelow(r, ContextPath, "properties");
      var r' := Put(r, PropertiesPath, JArr(PropertyList(r) + [property]));
      PutInEnvelope(r, PropertiesPath, JArr(PropertyList(r) + [property]));
      SameOutsideWiden(r, r', ContextPath, PropertiesPath);
      PutChild(r, ContextPath, "properties", JArr(PropertyList(r) + [property]));
      Navigate(r');
      r'
    else
      CanPutBelow(r, [], "context");
      assert [] + ["context"] == ContextPath;
      var r' := Put(r, ContextPath, JObj(map["properties" := JArr([property])]));
      PutInEnvelope(r, ContextPath, JObj(map["properties" := JArr([property])]));
      Navigate(r');
      r'
  }

  /** `SetPayload`'s effect: `event.payload` becomes `payload`, whatever it
      held before; header and endpoint do not change. */
  function WithPayload(r: Json, payload: map<string, Json>): (r': Json)
    requires WellFormed(r)
    ensures WellFormed(r')
    ensures Payload(r') == payload
    ensures SameOutside(r, r', PayloadPath)
    ensures Header(r') == Header(r) && EndpointFields(r') == EndpointFields(r)
  {
    Navigate(r);
    CanPutBelow(r, EventPath, "payload");
    var r' := Put(r, PayloadPath, JObj(payload));
    PutInEnvelope(r, PayloadPath, JObj(payload));
    Navigate(r');
    r'
  }

  /** Adding the same cookie key twice keeps only the second value: the
      second call overwrites and does not duplicate. */
  lemma CookieOverwrite(r: Json, key: string, first: string, second: string)
    requires WellFormed(r)
    ensures WithCookie(WithCookie(r, key, first), key, second) == WithCookie(r, key, second)
  {
    var once := WithCookie(r, key, first);
    Navigate(r);
    CanPutBelow(r, EndpointPath, "cookie");
    assert Cookies(once)[key := JStr(second)] == Cookies(r)[key := JStr(second)];
    PutPut(r, CookiePath, JObj(Cookies(r)[key := JStr(first)]), JObj(Cookies(r)[key := JStr(second)]));
  }

  /** Cookies under two different keys coexist, whichever is added first. */
  lemma CookiesCommute(r: Json, k1: string, v1: string, k2: string, v2: string)
    requires WellFormed(r) && k1 != k2
    ensures WithCookie(WithCookie(r, k1, v1), k2, v2) == WithCookie(WithCookie(r, k2, v2), k1, v1)
    ensures Cookies(WithCookie(WithCookie(r, k1, v1), k2, v2))[k1] == JStr(v1)
    ensures Cookies(WithCookie(WithCookie(r, k1, v1), k2, v2))[k2] == JStr(v2)
  {
    var a, b := WithCookie(r, k1, v1), WithCookie(r, k2, v2);
    Navigate(r);
    CanPutBelow(r, EndpointPath, "cookie");
    assert Cookies(a)[k2 := JStr(v2)] == Cookies(b)[k1 := JStr(v1)];
    PutPut(r, CookiePath, JObj(Cookies(r)[k1 := JStr(v1)]), JObj(Cookies(a)[k2 := JStr(v2)]));
    PutPut(r, CookiePath, JObj(Cookies(r)[k2 := JStr(v2)]), JObj(Cookies(b)[k1 := JStr(v1)]));
  }

  /** Two endpoints added one after the other are listed in call order. */
  lemma EndpointsInCallOrder(r: Json, first: Json, second: Json)
    requires WellFormed(r) && EndpointsAppendable(r)
    ensures EndpointsAppendable(WithEndpoint(r, first))
    ensures EndpointList(WithEndpoint(WithEndpoint(r, first), second)) == EndpointList(r) + [first, second]
  {
    var once := WithEndpoint(r, first);
    assert EndpointList(once) == EndpointList(r) + [first];
  }

  /** The builder: one response tree, built by a constructor and changed in
      place by the methods below, each of which navigates from the root. */
  class AlexaResponse {
    var response: Json

    ghost predicate Valid()
      reads this
    {
      WellFormed(response)
    }

    /** The five-argument constructor. `messageId` is the random UUID the
        source generates. */
    constructor (namespace: string, name: string, endpointId: string, token: string,
                 correlationToken: Option<string>, messageId: string)
      ensures response == NewResponse(namespace, name, endpointId, token, correlationToken, messageId)
      ensures Valid()
    {
      new;
      Initialize(namespace, name, endpointId, token, correlationToken, messageId);
    }

    /** The no-argument constructor: an Alexa/Response envelope. */
    constructor Default(messageId: string)
      ensures response == NewResponse("Alexa", "Response", "INVALID", "INVALID", None, messageId)
      ensures Valid()
    {
      new;
      Initialize("Alexa", "Response", "INVALID", "INVALID", None, messageId);
    }

    /** The two-argument constructor: no endpoint id, token or correlation token. */
    constructor Named(namespace: string, name: string, messageId: string)
      ensures response == NewResponse(namespace, name, "INVALID", "INVALID", None, messageId)
      ensures Valid()
    {
      new;
      Initialize(namespace, name, "INVALID", "INVALID", None, messageId);
    }

    /** The body of the five-argument constructor, to which the other two delegate. */
    method Initialize(namespace: string, name: string, endpointId: string, token: string,
                      correlationToken: Option<string>, messageId: string)
      modifies this
      ensures response == NewResponse(namespace, name, endpointId, token, correlationToken, messageId)
      ensures Valid()
    {
      var header: map<string, Json> := map[];
      header := header["namespace" := JStr(CheckValue(namespace, "Alexa"))];
      header := header["name" := JStr(CheckValue(name, "Response"))];
      header := header["messageId" := JStr(messageId)];
      header := header["payloadVersion" := JStr("3")];
      if correlationToken.Some? {
        header := header["correlationToken" := JStr(CheckValue(correlationToken.value, "INVALID"))];
      }

      var scope: map<string, Json> := map[];
      scope := scope["type" := JStr("BearerToken")];
      scope := scope["token" := JStr(CheckValue(token, "INVALID"))];

      var endpoint: map<string, Json> := map[];
      endpoint := endpoint["scope" := JObj(scope)];
      endpoint := endpoint["endpointId" := JStr(CheckValue(endpointId, "INVALID"))];

      var event: map<string, Json> := map[];
      event := event["header" := JObj(header)];
      event := event["endpoint" := JObj(endpoint)];
      event := event["payload" := JObj(map[])];

      response := JObj(map["event" := JObj(event)]);
    }

    method AddCookie(key: string, value: string)
      requires Valid()
      modifies this
      ensures response == WithCookie(old(response), key, value)
      ensures Valid()
    {
      Navigate(response);
      var endpointObject := At(response, EndpointPath).value.fields;
      var cookie: map<string, Json>;
      if "cookie" in endpointObject {
        cookie := endpointObject["cookie"].fields;
        cookie := cookie[key := JStr(value)];
      } else {
        cookie := map[];
        cookie := cookie[key := JStr(value)];
      }
      CanPutBelow(response, EndpointPath, "cookie");
      response := Put(response, CookiePath, JObj(cookie));
    }

    /** Fails, leaving the envelope as it was, when `payload.endpoints` is
        there but is not an array or when `capabilities` is not an array. */
    method AddPayloadEndpoint(friendlyName: Option<string>, endpointId: Option<string>,
                              capabilities: JsonText, randomSuffix: nat) returns (ok: bool)
      requires Valid() && randomSuffix < 900000
      modifies this
      ensures var created := CreatePayloadEndpoint(friendlyName, endpointId, capabilities, None, randomSuffix);
        && (ok <==> created.Ok? && EndpointsAppendable(old(response)))
        && response == (if ok then WithEndpoint(old(response), created.value) else old(response))
      ensures Valid()
    {
      Navigate(response);
      var payload := At(response, PayloadPath).value.fields;
      CanPutBelow(response, PayloadPath, "endpoints");
      if "endpoints" in payload {
        if !payload["endpoints"].JArr? {
          return false;
        }
        var endpoints := payload["endpoints"].items;
        var created := CreatePayloadEndpoint(friendlyName, endpointId, capabilities, None, randomSuffix);
        if created.JsonException? {
          return false;
        }
        response := Put(response, EndpointsPath, JArr(endpoints + [created.value]));
      } else {
        var endpoints: seq<Json> := [];
        var created := CreatePayloadEndpoint(friendlyName, endpointId, capabilities, None, randomSuffix);
        if created.JsonException? {
          return false;
        }
        response := Put(response, EndpointsPath, JArr(endpoints + [created.value]));
      }
      ok := true;
    }

    /** `valueText` is what the parser makes of `value`; `timeOfSample` is
        the clock reading. */
    method AddContextProperty(namespace: string, name: string, value: string, valueText: JsonText,
                              uncertaintyInMilliseconds: int, timeOfSample: string)
      requires Valid()
      modifies this
      ensures response == WithContextProperty(old(response),
        CreateContextProperty(namespace, name, value, valueText, uncertaintyInMilliseconds, timeOfSample))
      ensures Valid()
    {
      Navigate(response);
      var context := At(response, ContextPath);
      var properties := At(response, PropertiesPath);
      var property := CreateContextProperty(namespace, name, value, valueText,
                                            uncertaintyInMilliseconds, timeOfSample);
      if IsObject(context) && IsArray(properties) {
        CanPutBelow(response, ContextPath, "properties");
        response := Put(response, PropertiesPath, JArr(properties.value.items + [property]));
      } else {
        // the lookup threw: a fresh context with a fresh property list
        CanPutBelow(response, [], "context");
        assert [] + ["context"] == ContextPath;
        response := Put(response, ContextPath, JObj(map["properties" := JArr([property])]));
      }
    }

    /** Fails, leaving the envelope as it was, when `payload` is not a JSON object. */
    method SetPayload(payload: JsonText) returns (ok: bool)
      requires Valid()
      modifies this
      ensures ok <==> ParseObject(payload).Some?
      ensures response == if ok then WithPayload(old(response), ParseObject(payload).value) else old(response)
      ensures Valid()
    {
      var parsed := ParseObject(payload);
      if parsed.None? {
        return false;
      }
      Navigate(response);
      CanPutBelow(response, EventPath, "payload");
      response := Put(response, PayloadPath, JObj(parsed.value));
      ok := true;
    }
  }
}
