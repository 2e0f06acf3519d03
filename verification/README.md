# Alexa smart-home switch skill: response builder and directive dispatcher

This project models the two pieces of logic in a sample Alexa smart-home
skill backend written in Java:

- **`AlexaResponse`** builds the JSON envelope the skill sends back. The
  envelope has the shape `{ event: { header, endpoint, payload }, context?: { properties } }`.
  A constructor builds the tree and fills in defaults: an empty string means
  "use the default". `AddCookie`, `AddPayloadEndpoint`, `AddContextProperty`
  and `SetPayload` then change the tree in place. `CreatePayloadEndpoint`,
  `CreatePayloadEndpointCapability` and `CreateContextProperty` build detached
  JSON pieces.
- **`AlexaHandler.handler`** parses an inbound directive and switches on the
  header's `namespace`:
  - authorization grants are accepted;
  - discovery lists one sample switch;
  - power control records ON/OFF in the `SampleSmartHome` device table and
    reports the new state;
  - anything else gets a default response.

The model has three modules:

- `JsonTree` (`json.dfy`) is a value model of org.json trees.
  - `Json` is a datatype and `At` reads the node at a path of object keys.
  - `Put` models a `put` at the end of a chain of `getJSONObject` calls.
  - Frame lemmas say that a `put` changes nothing outside its own subtree.
  - `JsonText` is what org.json's parser makes of a Java string: a document,
    or `Malformed` when the text is not JSON at all. Whether the
    `JSONObject(String)` or `JSONArray(String)` constructor accepts a
    document depends on its kind, and `ParseObject` and `ParseArray` decide
    that.
- `Envelope` (`envelope.dfy`) models `AlexaResponse.java`.
  - The pure functions `NewResponse`, `WithCookie`, `WithEndpoint`,
    `WithContextProperty` and `WithPayload` say what each step does to the
    tree, and carry its invariant (`WellFormed`) and its frame.
  - The class `AlexaResponse` holds the tree in its `response` field. Its
    constructors and methods navigate from the root and update the tree, as
    the Java does, and are proved to produce exactly those functions' results.
  - A Java method that throws `JSONException` becomes a method that returns
    `false` and leaves the tree unchanged.
- `AlexaHandler` (`handler.dfy`) models `AlexaHandler.java`.
  - The directive is a datatype whose fields are all optional.
  - `Handler` is a method. It takes as parameters the store's outcome, the
    message id and the clock reading.
  - Its postcondition gives the store update and the written response for
    every branch of the switch.

Impure values are parameters:

- `messageId` stands for `UUID.randomUUID()`.
- `timeOfSample` stands for the formatted clock reading.
- `randomSuffix` (below 900000) stands for `new Random().nextInt(900000)`.
- `sent` stands for what `sendDeviceState` comes back with.

Two places where the code does less than it appears to:

- **A failed store write.** The `else` branch at AlexaHandler.java:80-82
  builds an ErrorResponse when `sendDeviceState` returns false. But
  `sendDeviceState` returns `true` at line 123 and can fail only by
  throwing, so a failed write produces no response at all. `Handler` still
  models the `false` branch: `sent` may be `Returned(false)`.
  `SendDeviceState` proves that the source never produces that value.
- **Structured property values.** The comment at AlexaResponse.java:134
  says "Handle either a JSON Object or value". But `new JSONObject(value)`
  accepts only object text, so `"true"`, `"null"` and `"[1]"` stay plain
  strings, and only object text becomes a nested object.

## Model

| member | source | states |
|---|---|---|
| JsonTree.ParseObject | src/main/java/AlexaResponse.java:136-139 | `new JSONObject(text)` succeeds exactly when the text denotes an object, and then yields that object |
| JsonTree.ParseArray | src/main/java/AlexaResponse.java:146 | `new JSONArray(text)` succeeds exactly when the text denotes an array, and then yields its items |
| JsonTree.Put | src/main/java/AlexaResponse.java:74-79 | after a put the node at the path is the new value; the root object gains the path's first key and loses none |
| JsonTree.PutChild | src/main/java/AlexaResponse.java:74-79 | a put of key `k` below an existing object updates exactly that key of that object: the object becomes its old fields with `k` inserted or overwritten |
| JsonTree.PutAboveKeys | src/main/java/AlexaResponse.java:86-97 | an object above a put's target keeps all its keys and gains only the key the path goes through |
| JsonTree.PutKeepsOutside | src/main/java/AlexaResponse.java:68-82 | a put at a path leaves every node outside that path's subtree and ancestors unchanged |
| JsonTree.PutPut | src/main/java/AlexaResponse.java:74 | a second put at the same path completely replaces the first |
| Envelope.CheckValue | src/main/java/AlexaResponse.java:29-35 | the default is returned exactly when the input is empty; otherwise the input comes back unchanged |
| Envelope.NewResponse | src/main/java/AlexaResponse.java:43-66 | the built tree has header namespace/name (with defaults "Alexa"/"Response"), messageId and payloadVersion "3"; correlationToken is present iff given, and "" becomes "INVALID"; the endpoint has endpointId and a BearerToken scope (defaults "INVALID"); payload is empty; `event` holds exactly header, endpoint and payload; the root holds only `event`; there is no cookie, endpoint list or context |
| Envelope.Decimal | src/main/java/AlexaResponse.java:153 | Java's rendering of a non-negative int: non-empty, all digits, no leading zero |
| Envelope.DecimalRoundTrip | src/main/java/AlexaResponse.java:153 | the rendered digits read back as the number |
| Envelope.GeneratedEndpointId | src/main/java/AlexaResponse.java:153 | a generated id is "endpoint_100000" followed by the random suffix's digits (string concatenation, not addition) |
| Envelope.CreatePayloadEndpoint | src/main/java/AlexaResponse.java:144-164 | it succeeds iff capabilities is array text and any cookie is object text; exact key set; displayCategories ["OTHER"], the fixed description and manufacturer; friendlyName defaults to "Sample Endpoint"; a missing endpointId is generated; cookie is present iff given |
| Envelope.CreatePayloadEndpointCapability | src/main/java/AlexaResponse.java:166-177 | type/interface/version are as given; properties is present iff given; it fails iff the given properties are not object text |
| Envelope.CreateContextProperty | src/main/java/AlexaResponse.java:120-142 | exact key set; value is a nested object iff the string is object text, and otherwise the raw string |
| Envelope.WithCookie | src/main/java/AlexaResponse.java:68-82 | the cookie object exists (created if missing); its keys are the old keys plus the new key; the new key maps to the value; other cookies keep their values; header, payload and the rest of the endpoint are unchanged; nothing outside the cookie changes |
| Envelope.WithEndpoint | src/main/java/AlexaResponse.java:84-99 | the endpoint list exists (created if missing), grows by exactly one, keeps earlier entries and ends with the new descriptor; the payload's keys become the old keys plus `endpoints`; the root's and `event`'s keys are unchanged; header, endpoint and the rest of the payload are unchanged |
| Envelope.WithContextProperty | src/main/java/AlexaResponse.java:101-118 | the context's properties list exists, grows by one and ends with the new property; when the old context held a properties array its other keys are kept; otherwise the context becomes exactly `{properties: [property]}`, dropping whatever it held; the event part is unchanged |
| Envelope.WithPayload | src/main/java/AlexaResponse.java:179-181 | the payload becomes exactly the given object; header and endpoint are unchanged; nothing outside the payload changes |
| Envelope.CookieOverwrite | src/main/java/AlexaResponse.java:71-75 | adding the same cookie key twice equals adding only the second value |
| Envelope.CookiesCommute | src/main/java/AlexaResponse.java:68-82 | cookies under two different keys coexist, and the order of the two calls does not matter |
| Envelope.EndpointsInCallOrder | src/main/java/AlexaResponse.java:84-99 | two added endpoints are listed in call order after the earlier ones |
| Envelope.AlexaResponse.constructor | src/main/java/AlexaResponse.java:43-66 | the five-argument constructor builds `NewResponse` of its arguments |
| Envelope.AlexaResponse.Default | src/main/java/AlexaResponse.java:37-39 | the no-argument constructor builds Alexa/Response with "INVALID" endpoint id and token and no correlationToken |
| Envelope.AlexaResponse.Named | src/main/java/AlexaResponse.java:41 | the two-argument constructor builds the given namespace/name with "INVALID" endpoint id and token and no correlationToken |
| Envelope.AlexaResponse.Initialize | src/main/java/AlexaResponse.java:44-65 | building the header, scope and endpoint maps step by step gives `NewResponse` |
| Envelope.AlexaResponse.AddCookie | src/main/java/AlexaResponse.java:68-82 | the tree becomes `WithCookie` of the old tree and stays well formed |
| Envelope.AlexaResponse.AddPayloadEndpoint | src/main/java/AlexaResponse.java:84-99 | it succeeds iff the endpoint can be built and any existing endpoints value is an array; on success the tree becomes `WithEndpoint` of the old tree, and otherwise it is unchanged |
| Envelope.AlexaResponse.AddContextProperty | src/main/java/AlexaResponse.java:101-118 | the tree becomes `WithContextProperty` of the old tree with the created property |
| Envelope.AlexaResponse.SetPayload | src/main/java/AlexaResponse.java:179-181 | it succeeds iff the text is object text; on success the tree becomes `WithPayload`, and otherwise it is unchanged |
| AlexaHandler.OptString | src/main/java/AlexaHandler.java:47-48 | an absent field gives the fallback; a present one gives its value |
| AlexaHandler.PowerState | src/main/java/AlexaHandler.java:72-73 | "ON" iff the directive name is absent or "TurnOn"; "OFF" iff it is any other name |
| AlexaHandler.DeviceStateUpdate | src/main/java/AlexaHandler.java:105-117 | the update targets table SampleSmartHome, item `endpointId`, attribute `state + "Value"`, with the given value |
| AlexaHandler.SendDeviceState | src/main/java/AlexaHandler.java:103-124 | it never returns false: it returns true or throws |
| AlexaHandler.SwitchEndpoint | src/main/java/AlexaHandler.java:59-62 | the descriptor the discovery branch adds: exact key set, "Sample Switch"/"sample-switch-01", displayCategories ["OTHER"], the fixed description and manufacturer, and the two capabilities in order |
| AlexaHandler.SwitchCapabilities | src/main/java/AlexaHandler.java:59-60 | the discovery branch's two capability calls succeed and build the plain Alexa capability and the PowerController capability |
| AlexaHandler.AuthorizationResponse | src/main/java/AlexaHandler.java:51-54 | Alexa.Authorization/AcceptGrant with the given messageId and payloadVersion "3"; endpointId and token "INVALID"; the correlation token is echoed ("" becomes "INVALID"); empty payload and no context; the root holds only `event`, and `event` holds exactly header, endpoint and payload |
| AlexaHandler.DiscoveryResponse | src/main/java/AlexaHandler.java:56-66 | Alexa.Discovery/Discover.Response with the given messageId, payloadVersion "3" and no correlationToken; endpointId and token "INVALID"; the payload holds only `endpoints`, which is exactly the sample switch descriptor; no context; the root holds only `event`, and `event` holds exactly header, endpoint and payload |
| AlexaHandler.PowerControlResponse | src/main/java/AlexaHandler.java:76-79 | for the state "ON" or "OFF": Alexa/Response with the given messageId and payloadVersion "3", carrying the directive's endpointId, token and correlationToken; exactly one context property, Alexa.PowerController/powerState with the mapped state and uncertainty 200; the root holds exactly `event` and `context`, and `event` holds exactly header, endpoint and payload; the context holds only `properties` |
| AlexaHandler.StoreFailureResponse | src/main/java/AlexaHandler.java:80-82 | Alexa/ErrorResponse with the given messageId and payloadVersion "3"; endpointId and token "INVALID"; no correlationToken; no context; the root holds only `event`, and `event` holds exactly header, endpoint and payload |
| AlexaHandler.DefaultResponse | src/main/java/AlexaHandler.java:86-89 | Alexa/Response with the given messageId and payloadVersion "3"; endpointId and token "INVALID"; no correlationToken; no context; the root holds only `event`, and `event` holds exactly header, endpoint and payload |
| AlexaHandler.Handler | src/main/java/AlexaHandler.java:41-90 | the output for each branch. A missing directive or header gives no output and no store write. Authorization, discovery and other namespaces give their response and no store write. Power control without endpoint or scope gives nothing. Otherwise power control writes "powerStateValue" for the endpoint; its output is the success response, the error response, or nothing, as the store returns true, returns false or throws. The error response comes only from a store that returned false |

## Left out

- UUIDs, the clock and `Random` are parameters (`messageId`, `timeOfSample`,
  `randomSuffix`). The `ss.sss` pattern of the time stamp is not modelled.
- org.json text is not parsed or serialised. A string argument that org.json
  parses becomes a `JsonText`. The model assumes that `toString` followed by
  parsing gives back the same tree. The handler relies on this when it joins
  two capability strings into one array, and the builder relies on it when
  it re-parses the created endpoint and property strings. The key order and
  layout of `toString` are not modelled.
- Null strings are not modelled. `CheckValue` and the constructors receive
  non-null strings. The Java would throw a `NullPointerException` on null.
  `Option` stands for the arguments that may legitimately be null.
- The Java fields `event`, `header`, `endpoint` and `payload` are aliases into
  `response` that are only used while constructing. The model keeps only
  `response`. So it does not capture that after `SetPayload` the `payload`
  field still refers to the old, detached object, which nothing reads again.
- `AddPayloadEndpoint` with a cookie argument is not reachable from the source
  (it always passes `null`). The model passes `None`.
- A Java method that throws is modelled as a `false` result with the tree
  unchanged. The exception itself does not propagate.
- The DynamoDB client is not modelled. `sendDeviceState`'s outcome is the
  `sent` parameter of `Handler`, and the update it attempts is a
  `StoreUpdate` value. When the store throws, the model does not say how
  far the client got before the exception.
- Stream reading (`getRequest`), the `outputStream.write` of the serialised
  response and the `System.out` logging are not modelled. `Handler` returns
  the response tree, or `None` when the Java catch-all would swallow an
  exception.
- Handler: a directive or header that is present but not a JSON object
  makes the Java cast throw. So does an endpoint or scope that is present
  but not an object, when `getJSONObject` reads it at AlexaHandler.java:70-71.
  The model treats all four as absent. The outcome is the same: nothing is
  written.
- Handler: non-string values are not modelled for the fields read with
  `optString`. These are the header's `namespace`, `name` and
  `correlationToken`, the endpoint's `endpointId` and the scope's `token`.
  `optString` would render such a value with `toString`.
- JSON numbers are integers (`JNum(int)`). A fractional number in text given
  to `SetPayload` or as a cookie or property value is outside the model. The
  builder only copies such values, so no behaviour is lost.
- The test class that fetches sample requests over HTTP is not modelled.
