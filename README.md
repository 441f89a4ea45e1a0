# IBM IoT Foundation Node.js clients, modelled in Dafny

This project models three clients of the IBM Internet of Things Foundation
Node.js SDK and proves properties of them.

- **The managed device client** (`src/clients/ManagedDeviceClient.js`) is the
  device-management correlation engine. It keeps two ledgers keyed by request
  id:
  - `deviceRequests` holds requests the device sent and still waits on;
  - `dmRequests` holds requests the platform initiated.

  Eight builders validate their arguments, register a request under their
  operation's fixed topic and publish it. A router sends inbound
  device-management topics to a response handler or a request handler:
  - the response handler correlates by id, emits `dmResponse` and retires the
    entry;
  - the request handler records the platform's request and emits `dmAction`,
    `dmUpdate`, `dmObserve` or `dmCancel`.

  `respondDeviceRequest` answers a platform request and retires it.
- **The application client** (`lib/IotfApplication.js`) covers:
  - configuration checks, and the derivation of its client id and broker host;
  - the callback whitelist;
  - an append-only subscription list, replayed in order on every (re)connect;
  - the offline back-off;
  - dispatch of inbound topics to the first registered callback whose
    pattern matches;
  - topic builders, where missing levels become the `+` wildcard of MQTT
    3.1.1 (section 4.7.1.3);
  - assembly of REST API URIs.
- **The device client** (`lib/IotfDevice.js`) covers:
  - configuration checks, where token authentication is the only registered
    mode;
  - the connect callback, which fires only on a fresh connection;
  - the command subscription outside quickstart mode;
  - its own back-off thresholds;
  - command delivery;
  - event publication.

Each client is a Dafny `class` whose fields are the JavaScript object's
mutable state. The transport appears as a `trace` of effects (publications,
subscriptions, emitted events, callback invocations). Validation and topic
classification are pure functions. Each method's `ensures` ties the result
and the new state to those functions. Shared modules:
- `Js`: JavaScript values, `Option`/`Result`/`Outcome`, and the type tests.
- `Patterns`: the topic regular expressions, as greedy backtracking over
  `(.+)` groups, with soundness and completeness lemmas.
- `Platform`: hosts, credentials, QoS levels and the reconnect back-off.

The code behaves in three ways that look unintended. The model follows the
code in each case.
- The application client resets its retry counter *before* testing it, so
  its connect callback fires on every connect, including reconnects.
  `Application.IotfApplication.OnConnect` states this. The device client tests
  the counter first, so `Device.IotfDevice.OnConnect` calls back only on a
  fresh connection.
- A device-management response whose id is not pending normally throws
  "unknown request". If the id names a property every JavaScript object
  inherits (`toString`, `constructor`, …), the ledger lookup finds that
  property instead, and the `default` branch throws "unknown action response"
  (`Managed.Correlate`).
- The router's pattern `^iotdm-1` followed by any number of slashes accepts
  every topic that merely starts with `iotdm-1` (`Managed.RouteOf`).

## Model

| member | source | states |
|---|---|---|
| Patterns.Groups | lib/IotfApplication.js:24-27 | a match of `(.+)sep…(.+)sep$` yields one non-empty, line-terminator-free group per separator that spells the input back |
| Patterns.GroupsComplete | lib/IotfApplication.js:24-27 | whenever the input can be split into groups and separators as the pattern asks, the pattern matches |
| Patterns.GroupsLastSeparator | src/clients/ManagedDeviceClient.js:46 | a two-group pattern whose separator ends in `/` splits exactly at that separator when the last group holds no `/` (greedy first group) |
| Patterns.ColonJoinInjective | lib/IotfApplication.js:72 | `a:b` determines `a` and `b` when `a` holds no `:` |
| Platform.ReconnectPeriod | lib/IotfApplication.js:165-174 | the period is 3 s exactly below the fast-retry threshold, 10 s from there up to 9 retries, 60 s from 10 on |
| Platform.ReconnectPeriodMonotonic | lib/IotfDevice.js:154-163 | more retries never shorten the reconnect period |
| Managed.OperationOf | src/clients/ManagedDeviceClient.js:425-484 | the response switch recognises a topic only as the topic of the operation it returns |
| Managed.OperationOfTopic | src/clients/ManagedDeviceClient.js:24-31 | the eight publish topics are distinct, so the switch recovers every operation |
| Managed.DecodeEncode | src/clients/ManagedDeviceClient.js:146-151 | every request payload a builder assembles (`{d?, reqId}`) is read back unchanged |
| Managed.DeviceInfoCopiesListedFields | src/clients/ManagedDeviceClient.js:133-144 | `deviceInfo` carries exactly the eight listed properties, each as the caller gave it |
| Managed.ManageData | src/clients/ManagedDeviceClient.js:101-144 | success iff lifetime is absent or a number ≥ 3600 and each action flag is absent or boolean; errors in code order; `supports` present iff a flag is defined |
| Managed.LocationData | src/clients/ManagedDeviceClient.js:185-221 | success iff longitude and latitude are numbers within the inclusive ranges [-180,180] and [-90,90] and elevation and accuracy are absent or numbers; errors in code order: coordinates required, coordinates numeric, longitude range, latitude range, elevation numeric, accuracy numeric |
| Managed.ErrorCodeData | src/clients/ManagedDeviceClient.js:243-252 | success iff the error code is a number; required before type |
| Managed.LogData | src/clients/ManagedDeviceClient.js:293-320 | success iff message is a string, severity is 0, 1 or 2 and data is absent or a string; errors in code order |
| Managed.NotifyData | src/clients/ManagedDeviceClient.js:361-373 | success iff field is a string and value defined; the body is the single field update |
| Managed.ResponseData | src/clients/ManagedDeviceClient.js:389-405 | success iff reqId is a string and responseCode a number; the payload is `{rc, reqId}` |
| Managed.RouteOf | src/clients/ManagedDeviceClient.js:81-91 | a topic is ignored iff it does not start with `iotdm-1`; it goes to the response handler iff it is exactly `iotdm-1/response` |
| Managed.ActionName | src/clients/ManagedDeviceClient.js:508-510 | the action is `firmware_<verb>` exactly when the category is `firmware`, and the bare verb exactly otherwise |
| Managed.ActionOf | src/clients/ManagedDeviceClient.js:502-510 | an action is found only on initiate topics |
| Managed.ActionOfInitiateTopic | src/clients/ManagedDeviceClient.js:502-510 | `initiate/<category>/<verb>` yields `firmware_<verb>` for the firmware category and `<verb>` otherwise |
| Managed.RebootAction | src/clients/ManagedDeviceClient.js:39 | the reboot topic triggers action `reboot` |
| Managed.FactoryResetAction | src/clients/ManagedDeviceClient.js:40 | the factory-reset topic triggers action `factory_reset` |
| Managed.FirmwareDownloadAction | src/clients/ManagedDeviceClient.js:41 | the firmware-download topic triggers action `firmware_download` |
| Managed.FirmwareUpdateAction | src/clients/ManagedDeviceClient.js:42 | the firmware-update topic triggers action `firmware_update` |
| Managed.RequestEvent | src/clients/ManagedDeviceClient.js:502-524 | a platform request never yields `dmResponse`; `dmAction` carries the request's own id and the action its topic names; the other events carry the parsed payload unchanged |
| Managed.RequestEventKinds | src/clients/ManagedDeviceClient.js:502-524 | `dmAction` iff the action pattern matches; `dmUpdate`, `dmObserve`, `dmCancel` iff the topic is the update, observe or cancel topic; no event otherwise |
| Managed.Correlate | src/clients/ManagedDeviceClient.js:420-484 | success only for a pending id whose topic is the returned operation's; an id neither pending nor inherited is an unknown request; an inherited name reaches the `default` branch |
| Managed.CorrelateValidLedger | src/clients/ManagedDeviceClient.js:420-484 | on a ledger whose topics are all publish topics, correlation succeeds iff the id is pending, and the `default` branch is reached only by inherited names |
| Managed.ResponseCorrelatesToIssuer | src/clients/ManagedDeviceClient.js:153 | a response to the id a builder registered correlates to that builder's operation |
| Managed.ManagedDeviceClient.constructor | src/clients/ManagedDeviceClient.js:68-69 | both ledgers start empty |
| Managed.ManagedDeviceClient.Create | src/clients/ManagedDeviceClient.js:53-55 | construction fails iff the organisation is `quickstart`; otherwise both ledgers are empty |
| Managed.ManagedDeviceClient.Issue | src/clients/ManagedDeviceClient.js:153-156 | the tail every builder shares: the ledger gains exactly the new id, recorded with the operation's topic and the request, and the request is published once at QoS 1; nothing else changes |
| Managed.ManagedDeviceClient.OnConnect | src/clients/ManagedDeviceClient.js:77-79 | each connect subscribes to `iotdm-1/#` at QoS 1 and changes nothing else |
| Managed.ManagedDeviceClient.Manage | src/clients/ManagedDeviceClient.js:94-159 | fails unchanged when not connected or invalid; otherwise adds exactly the new id under the manage topic, publishes once, returns the id |
| Managed.ManagedDeviceClient.Unmanage | src/clients/ManagedDeviceClient.js:161-178 | fails unchanged when not connected; otherwise one new entry without `d` under the unmanage topic and one publication |
| Managed.ManagedDeviceClient.UpdateLocation | src/clients/ManagedDeviceClient.js:180-236 | as `Manage`, under the location topic, with the timestamp as `measuredDateTime` |
| Managed.ManagedDeviceClient.AddErrorCode | src/clients/ManagedDeviceClient.js:238-267 | as `Manage`, under the add-error-code topic |
| Managed.ManagedDeviceClient.ClearErrorCodes | src/clients/ManagedDeviceClient.js:269-286 | as `Unmanage`, under the clear-error-codes topic |
| Managed.ManagedDeviceClient.AddLog | src/clients/ManagedDeviceClient.js:288-335 | as `Manage`, under the add-log topic |
| Managed.ManagedDeviceClient.ClearLogs | src/clients/ManagedDeviceClient.js:337-354 | as `Unmanage`, under the clear-logs topic |
| Managed.ManagedDeviceClient.PublishDeviceNotify | src/clients/ManagedDeviceClient.js:356-382 | as `Manage`, under the notify topic, returning the client instead of the id |
| Managed.ManagedDeviceClient.RespondDeviceRequest | src/clients/ManagedDeviceClient.js:384-413 | fails unchanged when not connected or invalid; otherwise publishes `{rc, reqId}` on `iotdevice-1/response` and removes the id from `dmRequests` whether or not it was there; `deviceRequests` unchanged |
| Managed.ManagedDeviceClient.OnDmResponse | src/clients/ManagedDeviceClient.js:415-494 | an uncorrelated response throws and changes nothing; a correlated one emits exactly one `dmResponse {reqId, rc}`, whatever the code, and deletes only that id |
| Managed.ManagedDeviceClient.OnDmRequest | src/clients/ManagedDeviceClient.js:496-527 | always stores or overwrites `dmRequests[reqId]`, then emits the request's event if it has one |
| Managed.ManagedDeviceClient.OnMessage | src/clients/ManagedDeviceClient.js:81-91 | ignored topics change nothing; the response topic behaves as `OnDmResponse`, every other routed topic as `OnDmRequest` |
| Application.SettingsOf | lib/IotfApplication.js:58-109 | success iff org and id are given and, outside quickstart, auth-key and auth-token too; errors in code order; client id `a:<org>:<id>`; quickstart host and no credentials, or the organisation's TLS host and the key and token |
| Application.ClientIdInjective | lib/IotfApplication.js:72 | distinct (org, id) pairs with `:`-free organisations get distinct client ids |
| Application.DeviceEventTopic | lib/IotfApplication.js:328 | the event topic is `iot-2/type/` followed by the levels joined with the event pattern's separators, so the dispatcher parses what the builder builds |
| Application.DeviceCommandTopic | lib/IotfApplication.js:350 | the command topic is `iot-2/type/` followed by the levels joined with the command pattern's separators |
| Application.DeviceStatusTopic | lib/IotfApplication.js:368 | the device status topic is `iot-2/type/` followed by the levels joined with the status pattern's separators |
| Application.AppStatusTopic | lib/IotfApplication.js:384 | the application status topic is `iot-2/app/` followed by the id and the pattern's `/mon` |
| Application.OrWildcard | lib/IotfApplication.js:323-326 | a level is `+` iff it was missing, empty or `+` itself; otherwise it is the given value |
| Application.Route | lib/IotfApplication.js:200-231 | a message is delivered only to a registered callback |
| Application.RouteNone | lib/IotfApplication.js:200-231 | nothing is delivered iff no registered callback's pattern matches |
| Application.RouteSound | lib/IotfApplication.js:24-27 | the levels handed to a callback are non-empty and rebuild the topic received |
| Application.EventTopicRouted | lib/IotfApplication.js:328 | an event topic built from non-empty levels reaches the deviceEvent callback |
| Application.CommandTopicRouted | lib/IotfApplication.js:350 | a command topic reaches a callback, the deviceCommand one unless deviceEvent is registered |
| Application.DeviceStatusTopicRouted | lib/IotfApplication.js:368 | a device status topic reaches a callback, the deviceStatus one unless an earlier one is registered |
| Application.AppStatusTopicRouted | lib/IotfApplication.js:384 | an application status topic reaches appStatus with exactly that application id |
| Application.Resubscriptions | lib/IotfApplication.js:135-140 | a connect replays one subscription per stored topic, in list order, each at QoS 0 |
| Application.ResubscriptionsAppend | lib/IotfApplication.js:135-140 | replaying a list that grew replays the old list first and the new topics after it, so a topic subscribed later is replayed later |
| Application.ListOfAppend | lib/IotfApplication.js:277-278 | storing at index `count` and incrementing appends to the subscription list |
| Application.IotfApplication.constructor | lib/IotfApplication.js:45-56 | no callbacks, no subscriptions, counter 0, not connected |
| Application.IotfApplication.Create | lib/IotfApplication.js:35-112 | construction fails with exactly the configuration error, otherwise starts empty with the derived settings |
| Application.IotfApplication.Connect | lib/IotfApplication.js:124 | creates the transport and nothing else |
| Application.IotfApplication.OnConnect | lib/IotfApplication.js:128-155 | connected, counter 0, every stored subscription re-sent in list order at QoS 0, then the connect callback if registered, on every connect |
| Application.IotfApplication.OnOffline | lib/IotfApplication.js:158-176 | disconnected, counter incremented, reconnect period from the counter with threshold 3 |
| Application.IotfApplication.OnClose | lib/IotfApplication.js:178-183 | disconnected, nothing else changes |
| Application.IotfApplication.OnMessage | lib/IotfApplication.js:194-231 | invokes exactly the callback `Route` selects with the captured levels, payload and topic, or nothing |
| Application.IotfApplication.Disconnect | lib/IotfApplication.js:236-245 | marks the client disconnected first, then fails if there is no transport, else drops it |
| Application.IotfApplication.On | lib/IotfApplication.js:255-262 | stores the callback iff its type is supported; otherwise callbacks are unchanged |
| Application.IotfApplication.Subscribe | lib/IotfApplication.js:270-287 | fails unchanged without a transport; otherwise appends the topic to the list whether or not connected, and subscribes now only while connected |
| Application.IotfApplication.Publish | lib/IotfApplication.js:295-310 | fails unchanged without a transport; otherwise publishes only while connected |
| Application.IotfApplication.SubscribeToDeviceEvents | lib/IotfApplication.js:322-331 | subscribes to `iot-2/type/T/id/I/evt/E/fmt/F` with `+` for each missing level |
| Application.IotfApplication.SubscribeToDeviceCommands | lib/IotfApplication.js:344-353 | subscribes to `iot-2/type/T/id/I/cmd/C/fmt/F` with `+` for each missing level |
| Application.IotfApplication.SubscribeToDeviceStatus | lib/IotfApplication.js:364-371 | subscribes to `iot-2/type/T/id/I/mon` with `+` for each missing level |
| Application.IotfApplication.SubscribeToAppStatus | lib/IotfApplication.js:381-387 | subscribes to `iot-2/app/I/mon` with `+` for a missing id |
| Application.IotfApplication.PublishDeviceEvent | lib/IotfApplication.js:400-404 | publishes on the event topic built from the given levels, without wildcards |
| Application.IotfApplication.PublishDeviceCommand | lib/IotfApplication.js:416-420 | publishes on the command topic built from the given levels, without wildcards |
| Application.IotfApplication.CallApiUri | lib/IotfApplication.js:445-454 | the URI is the organisation's API base followed by `/p` for each path element, in order |
| Application.PathSuffixAppend | lib/IotfApplication.js:450-454 | the suffix of a concatenated path list is the concatenation of the suffixes |
| Application.PathSuffixCons | lib/IotfApplication.js:450-454 | the first path element becomes the first level |
| Application.DeviceDetailsUri | lib/IotfApplication.js:538-541 | device details are requested at `/devices/<type>/<id>` |
| Device.SettingsOf | lib/IotfDevice.js:57-107 | success iff org, type and id are given and, outside quickstart, auth-method is `token` and auth-token is given; errors in code order; client id `d:<org>:<type>:<id>`; user `use-token-auth` |
| Device.ClientIdInjective | lib/IotfDevice.js:72 | distinct devices with `:`-free organisations and types get distinct client ids |
| Device.EventTopic | lib/IotfDevice.js:207 | an event topic starts with `iot-2/evt/` and never with the command prefix, so a device does not receive its own events as commands |
| Device.CommandTopic | lib/IotfDevice.js:23 | a command topic is the command pattern's prefix followed by the command and format joined with `/fmt/` |
| Device.CommandOf | lib/IotfDevice.js:23 | a matched command and format are non-empty and rebuild the topic |
| Device.CommandTopicParsed | lib/IotfDevice.js:23 | a command topic whose format holds no `/` is read back as exactly that command and format |
| Device.IotfDevice.constructor | lib/IotfDevice.js:46-55 | no callbacks, counter 0, not connected |
| Device.IotfDevice.Create | lib/IotfDevice.js:35-111 | construction fails with exactly the configuration error, otherwise starts empty with the derived settings |
| Device.IotfDevice.Connect | lib/IotfDevice.js:121 | creates the transport and nothing else |
| Device.IotfDevice.OnConnect | lib/IotfDevice.js:125-144 | connected, counter 0; the connect callback runs iff registered and the counter was 0; `iot-2/cmd/+/fmt/+` at QoS 2 iff not quickstart |
| Device.IotfDevice.OnOffline | lib/IotfDevice.js:147-164 | disconnected, counter incremented, reconnect period from the counter with threshold 5 |
| Device.IotfDevice.OnClose | lib/IotfDevice.js:166-171 | disconnected, nothing else changes |
| Device.IotfDevice.OnMessage | lib/IotfDevice.js:181-193 | the command callback is invoked iff registered and the topic matches, with the command, format, payload and topic |
| Device.IotfDevice.Publish | lib/IotfDevice.js:205-220 | fails unchanged without a transport; otherwise publishes on `iot-2/evt/<type>/fmt/<format>`, connected or not, at the QoS given or at 0 when none is (`qos || 0`, line 208) |
| Device.IotfDevice.Disconnect | lib/IotfDevice.js:226-240 | fails unchanged without a transport; otherwise disconnected and the transport dropped |
| Device.IotfDevice.On | lib/IotfDevice.js:248-255 | stores the callback iff the type is `command` or `connect` |

## Left out

- The MQTT transport: connecting, TLS options, the CA path, and the real
  publish and subscribe calls. These are recorded as effects in each client's
  `trace`. The `error` handlers, which mark the client disconnected and
  rethrow, are not modelled.
- The base device client that `ManagedDeviceClient` extends
  (`src/clients/DeviceClient.js`) is not part of this model. Its connection
  state enters as the `isConnected` field, and its configuration handling is
  omitted.
- `util.js` is not part of this model. `isDefined` is taken to mean "neither
  `undefined` nor `null`", and `isNumber`, `isString` and `isBoolean` are taken
  to be `typeof` tests.
- `generateUUID` and `new Date().toISOString()`: ids and timestamps are
  parameters. Nothing checks that an id is fresh, so a repeated id overwrites
  its entry, as in the code.
- `JSON.stringify` and `JSON.parse`: payloads are `JsValue` records. Inbound
  device-management messages are `Inbound(reqId, rc, d)` after parsing.
  `Managed.DecodeEncode` is stated on these records, not on serialised text.
- Numbers are mathematical reals: floating point, `NaN` and the infinities are
  not modelled.
- Managed.ManagedDeviceClient.OnDmResponse: a `reqId` that is not a string
  (JavaScript coerces property keys to strings) is not modelled.
- Managed.ManagedDeviceClient.OnDmRequest: an id of `__proto__` would replace
  the ledger object's prototype in JavaScript. The model treats it as an
  ordinary key.
- Application.IotfApplication.On: a callback registered as a falsy value,
  which the handlers treat as absent, is not modelled. Handlers are opaque
  identities.
- Application.Route: greedy matching of the four-group patterns is modelled
  exactly. Only `AppStatusTopicRouted` proves that the levels come back
  exactly, because levels that contain separator text can be split
  differently.
- Configuration values are strings or absent. Other JavaScript types, and
  their string conversion in client ids and hosts, are not modelled.
- HTTP: the `request`/`Q` calls of `callApi` and the REST wrappers built on
  it. Only the URI is modelled.
- `parseConfigFile` (file I/O) and all logging. In `_onDmResponse` the
  `rc == 200` test only chooses a log level.
- The `ResponseCode` table is kept as data (`Managed.ResponseCode`). No
  operation depends on it.
