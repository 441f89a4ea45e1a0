/**
 * The device-management correlation engine of the managed device client.
 *
 * The client keeps two ledgers keyed by request id: requests the device sent
 * and still waits on (`deviceRequests`), and requests the platform initiated
 * and the device has not answered yet (`dmRequests`). Builders validate their
 * arguments, register a request under their operation's fixed topic and
 * publish it; a router hands inbound device-management traffic to the
 * response handler (which correlates by id, emits `dmResponse` and retires the
 * entry) or to the request handler (which records the platform's request and
 * emits `dmAction`, `dmUpdate`, `dmObserve` or `dmCancel`). The transport is
 * represented by the `trace` of effects the client produces: publications,
 * subscriptions and emitted events.
 */
module Managed {
  import opened Js
  import opened Patterns
  import opened Platform

  // Topics the device publishes to.
  const ResponseTopic: string := "iotdevice-1/response"
  const ManageTopic: string := "iotdevice-1/mgmt/manage"
  const UnmanageTopic: string := "iotdevice-1/mgmt/unmanage"
  const UpdateLocationTopic: string := "iotdevice-1/device/update/location"
  const AddLogTopic: string := "iotdevice-1/add/diag/log"
  const ClearLogsTopic: string := "iotdevice-1/clear/diag/log"
  const AddErrorCodeTopic: string := "iotdevice-1/add/diag/errorCodes"
  const ClearErrorCodesTopic: string := "iotdevice-1/clear/diag/errorCodes"
  const NotifyTopic: string := "iotdevice-1/notify"

  // Topics the platform publishes to.
  const DmWildcardTopic: string := "iotdm-1/#"
  const DmNamespace: string := "iotdm-1"
  const DmResponseTopic: string := "iotdm-1/response"
  const DmUpdateTopic: string := "iotdm-1/device/update"
  const DmObserveTopic: string := "iotdm-1/observe"
  const DmCancelObserveTopic: string := "iotdm-1/cancel"
  const DmRebootTopic: string := "iotdm-1/mgmt/initiate/device/reboot"
  const DmFactoryResetTopic: string := "iotdm-1/mgmt/initiate/device/factory_reset"
  const DmFirmwareDownloadTopic: string := "iotdm-1/mgmt/initiate/firmware/download"
  const DmFirmwareUpdateTopic: string := "iotdm-1/mgmt/initiate/firmware/update"
  /** The literal prefix of the action pattern. */
  const DmInitiatePrefix: string := "iotdm-1/mgmt/initiate/"

  /** Every publish and subscribe of this client uses QoS 1. */
  const Qos: nat := AtLeastOnce

  /** The response codes the platform and the device exchange. */
  datatype ResponseCode =
    | Succeeded | Accepted | Changed | BadRequest | NotFound | Conflict | InternalError | NotImplemented
  {
    function Code(): int {
      match this
      case Succeeded => 200
      case Accepted => 202
      case Changed => 204
      case BadRequest => 400
      case NotFound => 404
      case Conflict => 409
      case InternalError => 500
      case NotImplemented => 501
    }
  }

  /** The errors the client throws. */
  datatype Error =
    | NotConnected
    | Required(what: string)
    | NotANumber(what: string)
    | NotABoolean(what: string)
    | NotAString(what: string)
    | OutOfRange(what: string)
    | UnknownRequest(reqId: string)
    | UnknownActionResponse
    | QuickstartNotAllowed

  /** The eight request families the device can send. */
  datatype Operation =
    | Manage | Unmanage | UpdateLocation | AddLog | ClearLogs | AddErrorCode | ClearErrorCodes | Notify

  function TopicOf(op: Operation): string {
    match op
    case Manage => ManageTopic
    case Unmanage => UnmanageTopic
    case UpdateLocation => UpdateLocationTopic
    case AddLog => AddLogTopic
    case ClearLogs => ClearLogsTopic
    case AddErrorCode => AddErrorCodeTopic
    case ClearErrorCodes => ClearErrorCodesTopic
    case Notify => NotifyTopic
  }

  /** The `switch (request.topic)` of the response handler; `None` is its `default` branch. */
  function OperationOf(topic: string): (r: Option<Operation>)
    ensures r.Some? ==> TopicOf(r.value) == topic
  {
    if topic == ManageTopic then Some(Manage)
    else if topic == UnmanageTopic then Some(Unmanage)
    else if topic == UpdateLocationTopic then Some(UpdateLocation)
    else if topic == AddLogTopic then Some(AddLog)
    else if topic == ClearLogsTopic then Some(ClearLogs)
    else if topic == AddErrorCodeTopic then Some(AddErrorCode)
    else if topic == ClearErrorCodesTopic then Some(ClearErrorCodes)
    else if topic == NotifyTopic then Some(Notify)
    else None
  }

  /** The eight publish topics are distinct, so the switch recovers every operation. */
  lemma OperationOfTopic(op: Operation)
    ensures OperationOf(TopicOf(op)) == Some(op)
  {
  }

  // ---------------------------------------------------------------------------
  // Payloads

  datatype Supports = Supports(deviceActions: Option<bool>, firmwareActions: Option<bool>)

  /** The eight device attributes `manage` copies from the caller's `deviceInfo`. */
  datatype DeviceInfo = DeviceInfo(
    serialNumber: JsValue, manufacturer: JsValue, model: JsValue, deviceClass: JsValue,
    description: JsValue, fwVersion: JsValue, hwVersion: JsValue, descriptiveLocation: JsValue)

  datatype FieldUpdate = FieldUpdate(field: string, value: JsValue)

  /** The `d` member of an outbound request. */
  datatype Body =
    | ManageBody(lifetime: Option<real>, supports: Option<Supports>, deviceInfo: Option<DeviceInfo>)
    | LocationBody(longitude: real, latitude: real, elevation: Option<real>, accuracy: Option<real>,
                   measuredDateTime: string)
    | LogBody(message: string, severity: real, timestamp: string, data: Option<string>)
    | ErrorCodeBody(errorCode: real)
    | NotifyBody(fields: seq<FieldUpdate>)

  /** An outbound message: a request `{d?, reqId}` or a response `{rc, reqId}`. */
  datatype Payload =
    | Request(d: Option<Body>, reqId: string)
    | Response(rc: real, reqId: string)

  /** The members of a parsed inbound device-management message that the handlers read. */
  datatype Inbound = Inbound(reqId: string, rc: JsValue, d: JsValue)

  /** Which `d` each operation carries. */
  predicate Shape(op: Operation, d: Option<Body>) {
    match op
    case Manage => d.Some? && d.value.ManageBody?
    case UpdateLocation => d.Some? && d.value.LocationBody?
    case AddLog => d.Some? && d.value.LogBody?
    case AddErrorCode => d.Some? && d.value.ErrorCodeBody?
    case Notify => d.Some? && d.value.NotifyBody? && |d.value.fields| == 1
    case _ => d.None?
  }

  const DeviceInfoNames: set<string> :=
    {"serialNumber", "manufacturer", "model", "deviceClass", "description", "fwVersion", "hwVersion",
     "descriptiveLocation"}

  /** `deviceInfo` as the code copies it: exactly the eight listed properties. */
  function DeviceInfoOf(v: JsValue): DeviceInfo {
    DeviceInfo(Prop(v, "serialNumber"), Prop(v, "manufacturer"), Prop(v, "model"), Prop(v, "deviceClass"),
               Prop(v, "description"), Prop(v, "fwVersion"), Prop(v, "hwVersion"), Prop(v, "descriptiveLocation"))
  }

  function Member(key: string, v: Option<JsValue>): map<string, JsValue> {
    if v.Some? then map[key := v.value] else map[]
  }

  function NumberOrAbsent(v: Option<real>): Option<JsValue> {
    if v.Some? then Some(Num(v.value)) else None
  }

  function BoolOrAbsent(v: Option<bool>): Option<JsValue> {
    if v.Some? then Some(Bool(v.value)) else None
  }

  function StringOrAbsent(v: Option<string>): Option<JsValue> {
    if v.Some? then Some(Str(v.value)) else None
  }

  function EncodeDeviceInfo(i: DeviceInfo): JsValue {
    Obj(map["serialNumber" := i.serialNumber, "manufacturer" := i.manufacturer, "model" := i.model,
            "deviceClass" := i.deviceClass, "description" := i.description, "fwVersion" := i.fwVersion,
            "hwVersion" := i.hwVersion, "descriptiveLocation" := i.descriptiveLocation])
  }

  function EncodeSupports(s: Supports): JsValue {
    Obj(Member("deviceActions", BoolOrAbsent(s.deviceActions)) + Member("firmwareActions", BoolOrAbsent(s.firmwareActions)))
  }

  /** The object the builders assemble as `d` (the input of `JSON.stringify`). */
  function EncodeBody(b: Body): JsValue {
    match b
    case ManageBody(lifetime, supports, deviceInfo) =>
      Obj(Member("lifetime", NumberOrAbsent(lifetime))
        + Member("supports", if supports.Some? then Some(EncodeSupports(supports.value)) else None)
        + Member("deviceInfo", if deviceInfo.Some? then Some(EncodeDeviceInfo(deviceInfo.value)) else None))
    case LocationBody(longitude, latitude, elevation, accuracy, measuredDateTime) =>
      Obj(map["longitude" := Num(longitude), "latitude" := Num(latitude)]
        + Member("elevation", NumberOrAbsent(elevation))
        + Member("accuracy", NumberOrAbsent(accuracy))
        + map["measuredDateTime" := Str(measuredDateTime)])
    case LogBody(message, severity, timestamp, data) =>
      Obj(map["message" := Str(message), "severity" := Num(severity), "timestamp" := Str(timestamp)]
        + Member("data", StringOrAbsent(data)))
    case ErrorCodeBody(errorCode) =>
      Obj(map["errorCode" := Num(errorCode)])
    case NotifyBody(fields) =>
      Obj(map["fields" := Arr(seq(|fields|, i requires 0 <= i < |fields| =>
                                Obj(map["field" := Str(fields[i].field), "value" := fields[i].value])))])
  }

  /** The object published for a payload. */
  function Encode(p: Payload): JsValue {
    match p
    case Request(d, reqId) => Obj(Member("d", if d.Some? then Some(EncodeBody(d.value)) else None)
                                  + map["reqId" := Str(reqId)])
    case Response(rc, reqId) => Obj(map["rc" := Num(rc), "reqId" := Str(reqId)])
  }

  /** How the platform reads the `d` of a request on the topic of `op`. */
  function DecodeBody(op: Operation, d: JsValue): Option<Body> {
    match op
    case Manage =>
      var s := Prop(d, "supports");
      var i := Prop(d, "deviceInfo");
      Some(ManageBody(OptionalNumber(Prop(d, "lifetime")),
                      if s.Obj? then Some(Supports(OptionalBool(Prop(s, "deviceActions")),
                                                   OptionalBool(Prop(s, "firmwareActions"))))
                      else None,
                      if i.Obj? then Some(DeviceInfoOf(i)) else None))
    case UpdateLocation =>
      var lon, lat, t := Prop(d, "longitude"), Prop(d, "latitude"), Prop(d, "measuredDateTime");
      if lon.Num? && lat.Num? && t.Str? then
        Some(LocationBody(lon.n, lat.n, OptionalNumber(Prop(d, "elevation")), OptionalNumber(Prop(d, "accuracy")), t.s))
      else None
    case AddLog =>
      var m, s, t := Prop(d, "message"), Prop(d, "severity"), Prop(d, "timestamp");
      if m.Str? && s.Num? && t.Str? then Some(LogBody(m.s, s.n, t.s, OptionalString(Prop(d, "data")))) else None
    case AddErrorCode =>
      var c := Prop(d, "errorCode");
      if c.Num? then Some(ErrorCodeBody(c.n)) else None
    case Notify =>
      var fs := Prop(d, "fields");
      if fs.Arr? && |fs.elems| == 1 && Prop(fs.elems[0], "field").Str? then
        Some(NotifyBody([FieldUpdate(Prop(fs.elems[0], "field").s, Prop(fs.elems[0], "value"))]))
      else None
    case _ => None
  }

  /** How the platform reads a request published on the topic of `op`. */
  function Decode(op: Operation, v: JsValue): Option<Payload> {
    var reqId := Prop(v, "reqId");
    if !reqId.Str? then None
    else if Shape(op, None) then Some(Request(None, reqId.s))
    else
      match DecodeBody(op, Prop(v, "d"))
      case Some(b) => Some(Request(Some(b), reqId.s))
      case None => None
  }

  /** Every request a builder can produce is read back unchanged by the platform. */
  lemma DecodeEncode(op: Operation, d: Option<Body>, reqId: string)
    requires Shape(op, d)
    ensures Decode(op, Encode(Request(d, reqId))) == Some(Request(d, reqId))
  {
    var v := Encode(Request(d, reqId));
    assert Prop(v, "reqId") == Str(reqId);
    if d.Some? {
      assert Prop(v, "d") == EncodeBody(d.value);
      match d.value
      case ManageBody(_, _, _) => DecodeEncodeManage(d.value);
      case LocationBody(_, _, _, _, _) => DecodeEncodeLocation(d.value);
      case LogBody(_, _, _, _) => DecodeEncodeLog(d.value);
      case ErrorCodeBody(_) =>
      case NotifyBody(_) => DecodeEncodeNotify(d.value);
    }
  }

  lemma DecodeEncodeManage(b: Body)
    requires b.ManageBody?
    ensures DecodeBody(Manage, EncodeBody(b)) == Some(b)
  {
    var e := EncodeBody(b);
    var supports := if b.supports.Some? then Some(EncodeSupports(b.supports.value)) else None;
    var deviceInfo := if b.deviceInfo.Some? then Some(EncodeDeviceInfo(b.deviceInfo.value)) else None;
    assert e == Obj(Member("lifetime", NumberOrAbsent(b.lifetime)) + Member("supports", supports)
                    + Member("deviceInfo", deviceInfo));
    assert OptionalNumber(Prop(e, "lifetime")) == b.lifetime;
    if b.supports.Some? {
      assert Prop(e, "supports") == EncodeSupports(b.supports.value);
      DecodeEncodeSupports(b.supports.value);
    } else {
      assert Prop(e, "supports") == Undefined;
    }
    if b.deviceInfo.Some? {
      assert Prop(e, "deviceInfo") == EncodeDeviceInfo(b.deviceInfo.value);
      DecodeEncodeDeviceInfo(b.deviceInfo.value);
    } else {
      assert Prop(e, "deviceInfo") == Undefined;
    }
  }

  lemma DecodeEncodeSupports(s: Supports)
    ensures OptionalBool(Prop(EncodeSupports(s), "deviceActions")) == s.deviceActions
    ensures OptionalBool(Prop(EncodeSupports(s), "firmwareActions")) == s.firmwareActions
  {
  }

  lemma DecodeEncodeDeviceInfo(i: DeviceInfo)
    ensures DeviceInfoOf(EncodeDeviceInfo(i)) == i
  {
  }

  lemma DecodeEncodeLocation(b: Body)
    requires b.LocationBody?
    ensures DecodeBody(UpdateLocation, EncodeBody(b)) == Some(b)
  {
    var e := EncodeBody(b);
    assert Prop(e, "longitude") == Num(b.longitude) && Prop(e, "latitude") == Num(b.latitude);
    assert Prop(e, "measuredDateTime") == Str(b.measuredDateTime);
    assert OptionalNumber(Prop(e, "elevation")) == b.elevation;
    assert OptionalNumber(Prop(e, "accuracy")) == b.accuracy;
  }

  lemma DecodeEncodeLog(b: Body)
    requires b.LogBody?
    ensures DecodeBody(AddLog, EncodeBody(b)) == Some(b)
  {
    var e := EncodeBody(b);
    assert Prop(e, "message") == Str(b.message) && Prop(e, "severity") == Num(b.severity);
    assert Prop(e, "timestamp") == Str(b.timestamp);
    assert OptionalString(Prop(e, "data")) == b.data;
  }

  lemma DecodeEncodeNotify(b: Body)
    requires b.NotifyBody? && |b.fields| == 1
    ensures DecodeBody(Notify, EncodeBody(b)) == Some(b)
  {
    var fs := Prop(EncodeBody(b), "fields");
    assert fs.Arr? && |fs.elems| == 1;
    assert fs.elems[0] == Obj(map["field" := Str(b.fields[0].field), "value" := b.fields[0].value]);
    assert [FieldUpdate(b.fields[0].field, b.fields[0].value)] == b.fields;
  }

  /** `deviceInfo` carries exactly the eight listed properties, each as the caller gave it. */
  lemma DeviceInfoCopiesListedFields(v: JsValue)
    ensures EncodeDeviceInfo(DeviceInfoOf(v)).members.Keys == DeviceInfoNames
    ensures forall name | name in DeviceInfoNames :: EncodeDeviceInfo(DeviceInfoOf(v)).members[name] == Prop(v, name)
  {
  }

  // ---------------------------------------------------------------------------
  // Argument validation of the builders, in the order the code performs it

  predicate AbsentOrNumber(v: JsValue) { !IsDefined(v) || IsNumber(v) }
  predicate AbsentOrBool(v: JsValue) { !IsDefined(v) || IsBoolean(v) }
  predicate AbsentOrString(v: JsValue) { !IsDefined(v) || IsString(v) }

  /** `lifetime`, when given, is a number of at least 3600 seconds. */
  predicate LifetimeAccepted(v: JsValue) {
    !IsDefined(v) || (IsNumber(v) && v.n >= 3600.0)
  }

  function ManageData(lifetime: JsValue, deviceActions: JsValue, firmwareActions: JsValue, deviceInfo: JsValue)
    : (r: Result<Body, Error>)
    ensures r.Success? <==> LifetimeAccepted(lifetime) && AbsentOrBool(deviceActions) && AbsentOrBool(firmwareActions)
    ensures IsDefined(lifetime) && !IsNumber(lifetime) ==> r == Failure(NotANumber("lifetime"))
    ensures IsNumber(lifetime) && lifetime.n < 3600.0 ==> r == Failure(OutOfRange("lifetime"))
    ensures LifetimeAccepted(lifetime) && !AbsentOrBool(deviceActions) ==> r == Failure(NotABoolean("supportDeviceActions"))
    ensures LifetimeAccepted(lifetime) && AbsentOrBool(deviceActions) && !AbsentOrBool(firmwareActions) ==>
              r == Failure(NotABoolean("supportFirmwareActions"))
    ensures r.Success? ==> Shape(Manage, Some(r.value)) && r.value.lifetime == OptionalNumber(lifetime)
    ensures r.Success? ==> (r.value.supports.Some? <==> IsDefined(deviceActions) || IsDefined(firmwareActions))
    ensures r.Success? && r.value.supports.Some? ==>
              r.value.supports.value == Supports(OptionalBool(deviceActions), OptionalBool(firmwareActions))
    ensures r.Success? ==> (r.value.deviceInfo.Some? <==> IsDefined(deviceInfo))
    ensures r.Success? && r.value.deviceInfo.Some? ==> r.value.deviceInfo.value == DeviceInfoOf(deviceInfo)
  {
    if IsDefined(lifetime) && !IsNumber(lifetime) then Failure(NotANumber("lifetime"))
    else if IsDefined(lifetime) && lifetime.n < 3600.0 then Failure(OutOfRange("lifetime"))
    else if IsDefined(deviceActions) && !IsBoolean(deviceActions) then Failure(NotABoolean("supportDeviceActions"))
    else if IsDefined(firmwareActions) && !IsBoolean(firmwareActions) then Failure(NotABoolean("supportFirmwareActions"))
    else
      Success(ManageBody(
        if IsDefined(lifetime) then Some(lifetime.n) else None,
        if IsDefined(deviceActions) || IsDefined(firmwareActions) then
          Some(Supports(OptionalBool(deviceActions), OptionalBool(firmwareActions)))
        else None,
        if IsDefined(deviceInfo) then Some(DeviceInfoOf(deviceInfo)) else None))
  }

  /** Both coordinates are numbers within the inclusive WGS84 ranges. */
  predicate ValidCoordinates(longitude: JsValue, latitude: JsValue) {
    IsNumber(longitude) && IsNumber(latitude) && -180.0 <= longitude.n <= 180.0 && -90.0 <= latitude.n <= 90.0
  }

  function LocationData(longitude: JsValue, latitude: JsValue, elevation: JsValue, accuracy: JsValue, now: string)
    : (r: Result<Body, Error>)
    ensures r.Success? <==>
              IsNumber(longitude) && IsNumber(latitude)
              && -180.0 <= longitude.n <= 180.0 && -90.0 <= latitude.n <= 90.0
              && AbsentOrNumber(elevation) && AbsentOrNumber(accuracy)
    ensures !IsDefined(longitude) || !IsDefined(latitude) ==> r == Failure(Required("longitude and latitude"))
    ensures IsDefined(longitude) && IsDefined(latitude) && !(IsNumber(longitude) && IsNumber(latitude)) ==>
              r == Failure(NotANumber("longitude and latitude"))
    ensures IsNumber(longitude) && IsNumber(latitude) && !(-180.0 <= longitude.n <= 180.0) ==>
              r == Failure(OutOfRange("longitude"))
    ensures IsNumber(longitude) && IsNumber(latitude) && -180.0 <= longitude.n <= 180.0 && !(-90.0 <= latitude.n <= 90.0) ==>
              r == Failure(OutOfRange("latitude"))
    ensures ValidCoordinates(longitude, latitude) && IsDefined(elevation) && !IsNumber(elevation) ==>
              r == Failure(NotANumber("elevation"))
    ensures ValidCoordinates(longitude, latitude) && AbsentOrNumber(elevation) && IsDefined(accuracy) && !IsNumber(accuracy) ==>
              r == Failure(NotANumber("accuracy"))
    ensures r.Success? ==>
              && Shape(UpdateLocation, Some(r.value))
              && r.value.longitude == longitude.n && r.value.latitude == latitude.n
              && r.value.elevation == OptionalNumber(elevation) && r.value.accuracy == OptionalNumber(accuracy)
              && r.value.measuredDateTime == now
  {
    if !IsDefined(longitude) || !IsDefined(latitude) then Failure(Required("longitude and latitude"))
    else if !IsNumber(longitude) || !IsNumber(latitude) then Failure(NotANumber("longitude and latitude"))
    else if longitude.n < -180.0 || longitude.n > 180.0 then Failure(OutOfRange("longitude"))
    else if latitude.n < -90.0 || latitude.n > 90.0 then Failure(OutOfRange("latitude"))
    else if IsDefined(elevation) && !IsNumber(elevation) then Failure(NotANumber("elevation"))
    else if IsDefined(accuracy) && !IsNumber(accuracy) then Failure(NotANumber("accuracy"))
    else Success(LocationBody(longitude.n, latitude.n, OptionalNumber(elevation), OptionalNumber(accuracy), now))
  }

  function ErrorCodeData(errorCode: JsValue): (r: Result<Body, Error>)
    ensures r.Success? <==> IsNumber(errorCode)
    ensures !IsDefined(errorCode) ==> r == Failure(Required("errorCode"))
    ensures IsDefined(errorCode) && !IsNumber(errorCode) ==> r == Failure(NotANumber("errorCode"))
    ensures r.Success? ==> Shape(AddErrorCode, Some(r.value)) && Num(r.value.errorCode) == errorCode
  {
    if !IsDefined(errorCode) then Failure(Required("errorCode"))
    else if !IsNumber(errorCode) then Failure(NotANumber("errorCode"))
    else Success(ErrorCodeBody(errorCode.n))
  }

  /** Log severities: 0 (information), 1 (warning), 2 (error). */
  predicate IsSeverity(n: real) {
    n == 0.0 || n == 1.0 || n == 2.0
  }

  function LogData(message: JsValue, severity: JsValue, data: JsValue, now: string): (r: Result<Body, Error>)
    ensures r.Success? <==> IsString(message) && IsNumber(severity) && IsSeverity(severity.n) && AbsentOrString(data)
    ensures !IsDefined(message) || !IsDefined(severity) ==> r == Failure(Required("message and severity"))
    ensures IsDefined(message) && IsDefined(severity) && !IsString(message) ==> r == Failure(NotAString("message"))
    ensures IsString(message) && IsDefined(severity) && !IsNumber(severity) ==> r == Failure(NotANumber("severity"))
    ensures IsString(message) && IsNumber(severity) && !IsSeverity(severity.n) ==> r == Failure(OutOfRange("severity"))
    ensures IsString(message) && IsNumber(severity) && IsSeverity(severity.n) && !AbsentOrString(data) ==>
              r == Failure(NotAString("data"))
    ensures r.Success? ==>
              && Shape(AddLog, Some(r.value))
              && r.value.message == message.s && r.value.severity == severity.n
              && r.value.timestamp == now && r.value.data == OptionalString(data)
  {
    if !IsDefined(message) || !IsDefined(severity) then Failure(Required("message and severity"))
    else if !IsString(message) then Failure(NotAString("message"))
    else if !IsNumber(severity) then Failure(NotANumber("severity"))
    else if !IsSeverity(severity.n) then Failure(OutOfRange("severity"))
    else if IsDefined(data) && !IsString(data) then Failure(NotAString("data"))
    else Success(LogBody(message.s, severity.n, now, OptionalString(data)))
  }

  function NotifyData(field: JsValue, value: JsValue): (r: Result<Body, Error>)
    ensures r.Success? <==> IsString(field) && IsDefined(value)
    ensures !IsDefined(field) || !IsDefined(value) ==> r == Failure(Required("field and value"))
    ensures IsDefined(field) && IsDefined(value) && !IsString(field) ==> r == Failure(NotAString("field"))
    ensures r.Success? ==> Shape(Notify, Some(r.value)) && r.value.fields == [FieldUpdate(field.s, value)]
  {
    if !IsDefined(field) || !IsDefined(value) then Failure(Required("field and value"))
    else if !IsString(field) then Failure(NotAString("field"))
    else Success(NotifyBody([FieldUpdate(field.s, value)]))
  }

  function ResponseData(reqId: JsValue, responseCode: JsValue): (r: Result<Payload, Error>)
    ensures r.Success? <==> IsString(reqId) && IsNumber(responseCode)
    ensures !IsDefined(reqId) || !IsDefined(responseCode) ==> r == Failure(Required("reqId and responseCode"))
    ensures IsDefined(reqId) && IsDefined(responseCode) && !IsString(reqId) ==> r == Failure(NotAString("reqId"))
    ensures IsString(reqId) && IsDefined(responseCode) && !IsNumber(responseCode) ==>
              r == Failure(NotANumber("responseCode"))
    ensures r.Success? ==> r.value == Response(responseCode.n, reqId.s)
  {
    if !IsDefined(reqId) || !IsDefined(responseCode) then Failure(Required("reqId and responseCode"))
    else if !IsString(reqId) then Failure(NotAString("reqId"))
    else if !IsNumber(responseCode) then Failure(NotANumber("responseCode"))
    else Success(Response(responseCode.n, reqId.s))
  }

  // ---------------------------------------------------------------------------
  // Inbound routing

  datatype Route = ToResponse | ToRequest | Ignored

  /**
   * The message handler: its pattern `^iotdm-1` followed by any number of
   * slashes accepts every topic that starts with `iotdm-1` (the slashes are
   * optional), the exact response topic goes to the
   * response handler and everything else accepted to the request handler.
   */
  function RouteOf(topic: string): (r: Route)
    ensures r == Ignored <==> !StartsWith(topic, DmNamespace)
    ensures r == ToResponse <==> topic == DmResponseTopic
  {
    if !StartsWith(topic, DmNamespace) then Ignored
    else if topic == DmResponseTopic then ToResponse
    else ToRequest
  }

  /** The action name of `dmAction`: firmware actions get a `firmware_` prefix. */
  function ActionName(category: string, verb: string): (r: string)
    ensures category == "firmware" <==> r == "firmware_" + verb
    ensures category != "firmware" <==> r == verb
  {
    if category == "firmware" then category + "_" + verb else verb
  }

  /**
   * `/^iotdm-1\/mgmt\/initiate\/(.+)\/(.+)$/`: the category is the first
   * greedy group, the verb the second.
   */
  function ActionOf(topic: string): (r: Option<string>)
    ensures r.Some? ==> StartsWith(topic, DmInitiatePrefix)
  {
    if StartsWith(topic, DmInitiatePrefix) then
      match Groups(topic[|DmInitiatePrefix|..], ["/", ""])
      case Some(g) => Some(ActionName(g[0], g[1]))
      case None => None
    else None
  }

  /** A platform request `initiate/<category>/<verb>` yields the action named after that category and verb. */
  lemma ActionOfInitiateTopic(category: string, verb: string)
    requires IsGroup(category) && IsGroup(verb) && Excludes(verb, '/')
    ensures ActionOf(DmInitiatePrefix + category + "/" + verb) == Some(ActionName(category, verb))
  {
    var topic := DmInitiatePrefix + category + "/" + verb;
    assert topic[|DmInitiatePrefix|..] == category + "/" + verb;
    GroupsLastSeparator(category, "/", verb);
  }

  /** The four initiate topics the platform defines, and the actions they trigger. */
  lemma RebootAction()
    ensures ActionOf(DmRebootTopic) == Some("reboot")
  {
    InitiateAction("device", "reboot");
    assert DmInitiatePrefix + "device" + "/" + "reboot" == DmRebootTopic;
    assert ActionName("device", "reboot") == "reboot";
  }

  lemma FactoryResetAction()
    ensures ActionOf(DmFactoryResetTopic) == Some("factory_reset")
  {
    InitiateAction("device", "factory_reset");
    assert DmInitiatePrefix + "device" + "/" + "factory_reset" == DmFactoryResetTopic;
    assert ActionName("device", "factory_reset") == "factory_reset";
  }

  lemma FirmwareDownloadAction()
    ensures ActionOf(DmFirmwareDownloadTopic) == Some("firmware_download")
  {
    InitiateAction("firmware", "download");
    assert DmInitiatePrefix + "firmware" + "/" + "download" == DmFirmwareDownloadTopic;
    assert ActionName("firmware", "download") == "firmware_download";
  }

  lemma FirmwareUpdateAction()
    ensures ActionOf(DmFirmwareUpdateTopic) == Some("firmware_update")
  {
    InitiateAction("firmware", "update");
    assert DmInitiatePrefix + "firmware" + "/" + "update" == DmFirmwareUpdateTopic;
    assert ActionName("firmware", "update") == "firmware_update";
  }

  lemma InitiateAction(category: string, verb: string)
    requires category == "device" || category == "firmware"
    requires verb == "reboot" || verb == "factory_reset" || verb == "download" || verb == "update"
    ensures ActionOf(DmInitiatePrefix + category + "/" + verb) == Some(ActionName(category, verb))
  {
    assert IsGroup(category) && IsGroup(verb) && Excludes(verb, '/');
    ActionOfInitiateTopic(category, verb);
  }

  datatype Event =
    | DmResponse(reqId: string, rc: JsValue)
    | DmAction(reqId: string, action: string)
    | DmUpdate(payload: Inbound)
    | DmObserve(payload: Inbound)
    | DmCancel(payload: Inbound)

  /** The event the request handler emits for a platform request, if any. */
  function RequestEvent(topic: string, payload: Inbound): (r: Option<Event>)
    ensures r.Some? ==> !r.value.DmResponse?
    ensures r.Some? && r.value.DmAction? ==> r.value.reqId == payload.reqId && ActionOf(topic) == Some(r.value.action)
    ensures r.Some? && !r.value.DmAction? ==> r.value.payload == payload
  {
    match ActionOf(topic)
    case Some(action) => Some(DmAction(payload.reqId, action))
    case None =>
      if topic == DmUpdateTopic then Some(DmUpdate(payload))
      else if topic == DmObserveTopic then Some(DmObserve(payload))
      else if topic == DmCancelObserveTopic then Some(DmCancel(payload))
      else None
  }

  /** Which platform requests produce which event. */
  lemma RequestEventKinds(topic: string, payload: Inbound)
    ensures RequestEvent(topic, payload).Some? && RequestEvent(topic, payload).value.DmAction? <==>
              ActionOf(topic).Some?
    ensures RequestEvent(topic, payload) == Some(DmUpdate(payload)) <==> topic == DmUpdateTopic
    ensures RequestEvent(topic, payload) == Some(DmObserve(payload)) <==> topic == DmObserveTopic
    ensures RequestEvent(topic, payload) == Some(DmCancel(payload)) <==> topic == DmCancelObserveTopic
    ensures RequestEvent(topic, payload).None? <==>
              ActionOf(topic).None? && topic != DmUpdateTopic && topic != DmObserveTopic && topic != DmCancelObserveTopic
  {
    if topic == DmUpdateTopic || topic == DmObserveTopic || topic == DmCancelObserveTopic {
      NotInitiateTopic(topic);
    }
  }

  lemma NotInitiateTopic(topic: string)
    requires topic == DmUpdateTopic || topic == DmObserveTopic || topic == DmCancelObserveTopic
    ensures ActionOf(topic).None?
  {
    assert |topic| < |DmInitiatePrefix|;
  }

  // ---------------------------------------------------------------------------
  // Ledgers

  datatype DeviceRequest = DeviceRequest(topic: string, payload: Payload)
  datatype PlatformRequest = PlatformRequest(topic: string, payload: Inbound)

  /** Every pending device request sits under its own id and one of the eight publish topics. */
  predicate DeviceLedgerValid(ledger: map<string, DeviceRequest>) {
    forall id | id in ledger ::
      OperationOf(ledger[id].topic).Some? && ledger[id].payload.Request? && ledger[id].payload.reqId == id
  }

  /** Every pending platform request sits under its own id and a routed request topic. */
  predicate PlatformLedgerValid(ledger: map<string, PlatformRequest>) {
    forall id | id in ledger :: RouteOf(ledger[id].topic) == ToRequest && ledger[id].payload.reqId == id
  }

  /**
   * Property names every plain JavaScript object inherits: a ledger lookup
   * `ledger[reqId]` with one of them finds a defined value that is not an
   * entry, whose `topic` is `undefined`.
   */
  const ObjectPrototypeNames: set<string> :=
    {"constructor", "toString", "toLocaleString", "valueOf", "hasOwnProperty", "isPrototypeOf",
     "propertyIsEnumerable", "__proto__", "__defineGetter__", "__defineSetter__", "__lookupGetter__",
     "__lookupSetter__"}

  /** The lookup and `switch` of the response handler. */
  function Correlate(ledger: map<string, DeviceRequest>, reqId: string): (r: Result<Operation, Error>)
    ensures r.Success? ==> reqId in ledger && TopicOf(r.value) == ledger[reqId].topic
    ensures reqId !in ledger && reqId !in ObjectPrototypeNames ==> r == Failure(UnknownRequest(reqId))
    ensures reqId in ObjectPrototypeNames - ledger.Keys ==> r == Failure(UnknownActionResponse)
  {
    if reqId in ledger then
      match OperationOf(ledger[reqId].topic)
      case Some(op) => Success(op)
      case None => Failure(UnknownActionResponse)
    else if reqId in ObjectPrototypeNames then Failure(UnknownActionResponse)
    else Failure(UnknownRequest(reqId))
  }

  /**
   * On a valid ledger the `default: throw "unknown action response"` branch is
   * unreachable for registered ids: a response correlates exactly when its id
   * is pending, and is otherwise an unknown request unless its id names an
   * inherited object property.
   */
  lemma CorrelateValidLedger(ledger: map<string, DeviceRequest>, reqId: string)
    requires DeviceLedgerValid(ledger)
    ensures Correlate(ledger, reqId).Success? <==> reqId in ledger
    ensures Correlate(ledger, reqId).Failure? ==>
              (Correlate(ledger, reqId).error == UnknownRequest(reqId) <==> reqId !in ObjectPrototypeNames)
  {
  }

  /** A response to the id a builder just registered correlates to that builder's operation. */
  lemma ResponseCorrelatesToIssuer(ledger: map<string, DeviceRequest>, op: Operation, d: Option<Body>, reqId: string)
    ensures Correlate(ledger[reqId := DeviceRequest(TopicOf(op), Request(d, reqId))], reqId) == Success(op)
  {
    OperationOfTopic(op);
  }

  // ---------------------------------------------------------------------------
  // The client

  datatype Effect =
    | Published(topic: string, payload: Payload, qos: nat)
    | Subscribed(topic: string, qos: nat)
    | Emitted(event: Event)

  class ManagedDeviceClient {
    const org: string
    /** Maintained by the base device client's connection handlers. */
    var isConnected: bool
    var deviceRequests: map<string, DeviceRequest>
    var dmRequests: map<string, PlatformRequest>
    var trace: seq<Effect>

    ghost predicate Valid()
      reads this
    {
      DeviceLedgerValid(deviceRequests) && PlatformLedgerValid(dmRequests)
    }

    constructor (org: string)
      ensures this.org == org && !isConnected
      ensures deviceRequests == map[] && dmRequests == map[] && trace == []
      ensures Valid()
    {
      this.org := org;
      isConnected := false;
      deviceRequests := map[];
      dmRequests := map[];
      trace := [];
    }

    /** `new ManagedDeviceClient(config)`: a managed device cannot use the quickstart organisation. */
    static method Create(org: string) returns (r: Result<ManagedDeviceClient, Error>)
      ensures r.Failure? <==> org == QuickstartOrg
      ensures r.Failure? ==> r.error == QuickstartNotAllowed
      ensures r.Success? ==> fresh(r.value) && r.value.org == org && r.value.Valid() && !r.value.isConnected
      ensures r.Success? ==> r.value.deviceRequests == map[] && r.value.dmRequests == map[] && r.value.trace == []
    {
      if org == QuickstartOrg {
        return Failure(QuickstartNotAllowed);
      }
      var c := new ManagedDeviceClient(org);
      r := Success(c);
    }

    /** What a successful builder call does: one new ledger entry and one publication. */
    twostate predicate Issued(op: Operation, d: Option<Body>, reqId: string)
      reads this
    {
      && deviceRequests == old(deviceRequests)[reqId := DeviceRequest(TopicOf(op), Request(d, reqId))]
      && dmRequests == old(dmRequests)
      && isConnected == old(isConnected)
      && trace == old(trace) + [Published(TopicOf(op), Request(d, reqId), Qos)]
    }

    method Issue(op: Operation, d: Option<Body>, reqId: string)
      requires Valid()
      modifies this
      ensures Valid()
      ensures Issued(op, d, reqId)
      ensures deviceRequests.Keys == old(deviceRequests).Keys + {reqId}
    {
      var payload := Request(d, reqId);
      deviceRequests := deviceRequests[reqId := DeviceRequest(TopicOf(op), payload)];
      trace := trace + [Published(TopicOf(op), payload, Qos)];
      OperationOfTopic(op);
    }

    /** The `connect` handler the managed client adds: subscribe to all device-management topics. */
    method OnConnect()
      modifies this
      ensures trace == old(trace) + [Subscribed(DmWildcardTopic, Qos)]
      ensures deviceRequests == old(deviceRequests) && dmRequests == old(dmRequests) && isConnected == old(isConnected)
    {
      trace := trace + [Subscribed(DmWildcardTopic, Qos)];
    }

    method Manage(lifetime: JsValue, deviceActions: JsValue, firmwareActions: JsValue, deviceInfo: JsValue,
                  reqId: string) returns (r: Result<string, Error>)
      requires Valid()
      modifies this
      ensures Valid()
      ensures !old(isConnected) ==> r == Failure(NotConnected) && unchanged(this)
      ensures old(isConnected) && ManageData(lifetime, deviceActions, firmwareActions, deviceInfo).Failure? ==>
                r == Failure(ManageData(lifetime, deviceActions, firmwareActions, deviceInfo).error) && unchanged(this)
      ensures old(isConnected) && ManageData(lifetime, deviceActions, firmwareActions, deviceInfo).Success? ==>
                r == Success(reqId)
                && Issued(Operation.Manage, Some(ManageData(lifetime, deviceActions, firmwareActions, deviceInfo).value), reqId)
    {
      if !isConnected {
        return Failure(NotConnected);
      }
      var d := ManageData(lifetime, deviceActions, firmwareActions, deviceInfo);
      if d.Failure? {
        return Failure(d.error);
      }
      Issue(Operation.Manage, Some(d.value), reqId);
      r := Success(reqId);
    }

    method Unmanage(reqId: string) returns (r: Result<string, Error>)
      requires Valid()
      modifies this
      ensures Valid()
      ensures !old(isConnected) ==> r == Failure(NotConnected) && unchanged(this)
      ensures old(isConnected) ==> r == Success(reqId) && Issued(Operation.Unmanage, None, reqId)
    {
      if !isConnected {
        return Failure(NotConnected);
      }
      Issue(Operation.Unmanage, None, reqId);
      r := Success(reqId);
    }

    method UpdateLocation(longitude: JsValue, latitude: JsValue, elevation: JsValue, accuracy: JsValue,
                          now: string, reqId: string) returns (r: Result<string, Error>)
      requires Valid()
      modifies this
      ensures Valid()
      ensures !old(isConnected) ==> r == Failure(NotConnected) && unchanged(this)
      ensures old(isConnected) && LocationData(longitude, latitude, elevation, accuracy, now).Failure? ==>
                r == Failure(LocationData(longitude, latitude, elevation, accuracy, now).error) && unchanged(this)
      ensures old(isConnected) && LocationData(longitude, latitude, elevation, accuracy, now).Success? ==>
                r == Success(reqId)
                && Issued(Operation.UpdateLocation, Some(LocationData(longitude, latitude, elevation, accuracy, now).value), reqId)
    {
      if !isConnected {
        return Failure(NotConnected);
      }
      var d := LocationData(longitude, latitude, elevation, accuracy, now);
      if d.Failure? {
        return Failure(d.error);
      }
      Issue(Operation.UpdateLocation, Some(d.value), reqId);
      r := Success(reqId);
    }

    method AddErrorCode(errorCode: JsValue, reqId: string) returns (r: Result<string, Error>)
      requires Valid()
      modifies this
      ensures Valid()
      ensures !old(isConnected) ==> r == Failure(NotConnected) && unchanged(this)
      ensures old(isConnected) && ErrorCodeData(errorCode).Failure? ==>
                r == Failure(ErrorCodeData(errorCode).error) && unchanged(this)
      ensures old(isConnected) && ErrorCodeData(errorCode).Success? ==>
                r == Success(reqId) && Issued(Operation.AddErrorCode, Some(ErrorCodeData(errorCode).value), reqId)
    {
      if !isConnected {
        return Failure(NotConnected);
      }
      var d := ErrorCodeData(errorCode);
      if d.Failure? {
        return Failure(d.error);
      }
      Issue(Operation.AddErrorCode, Some(d.value), reqId);
      r := Success(reqId);
    }

    method ClearErrorCodes(reqId: string) returns (r: Result<string, Error>)
      requires Valid()
      modifies this
      ensures Valid()
      ensures !old(isConnected) ==> r == Failure(NotConnected) && unchanged(this)
      ensures old(isConnected) ==> r == Success(reqId) && Issued(Operation.ClearErrorCodes, None, reqId)
    {
      if !isConnected {
        return Failure(NotConnected);
      }
      Issue(Operation.ClearErrorCodes, None, reqId);
      r := Success(reqId);
    }

    method AddLog(message: JsValue, severity: JsValue, data: JsValue, now: string, reqId: string)
      returns (r: Result<string, Error>)
      requires Valid()
      modifies this
      ensures Valid()
      ensures !old(isConnected) ==> r == Failure(NotConnected) && unchanged(this)
      ensures old(isConnected) && LogData(message, severity, data, now).Failure? ==>
                r == Failure(LogData(message, severity, data, now).error) && unchanged(this)
      ensures old(isConnected) && LogData(message, severity, data, now).Success? ==>
                r == Success(reqId) && Issued(Operation.AddLog, Some(LogData(message, severity, data, now).value), reqId)
    {
      if !isConnected {
        return Failure(NotConnected);
      }
      var d := LogData(message, severity, data, now);
      if d.Failure? {
        return Failure(d.error);
      }
      Issue(Operation.AddLog, Some(d.value), reqId);
      r := Success(reqId);
    }

    method ClearLogs(reqId: string) returns (r: Result<string, Error>)
      requires Valid()
      modifies this
      ensures Valid()
      ensures !old(isConnected) ==> r == Failure(NotConnected) && unchanged(this)
      ensures old(isConnected) ==> r == Success(reqId) && Issued(Operation.ClearLogs, None, reqId)
    {
      if !isConnected {
        return Failure(NotConnected);
      }
      Issue(Operation.ClearLogs, None, reqId);
      r := Success(reqId);
    }

    /** Returns the client itself in JavaScript, hence no request id here. */
    method PublishDeviceNotify(field: JsValue, value: JsValue, reqId: string) returns (r: Outcome<Error>)
      requires Valid()
      modifies this
      ensures Valid()
      ensures !old(isConnected) ==> r == Fail(NotConnected) && unchanged(this)
      ensures old(isConnected) && NotifyData(field, value).Failure? ==>
                r == Fail(NotifyData(field, value).error) && unchanged(this)
      ensures old(isConnected) && NotifyData(field, value).Success? ==>
                r == Pass && Issued(Operation.Notify, Some(NotifyData(field, value).value), reqId)
    {
      if !isConnected {
        return Fail(NotConnected);
      }
      var d := NotifyData(field, value);
      if d.Failure? {
        return Fail(d.error);
      }
      Issue(Operation.Notify, Some(d.value), reqId);
      r := Pass;
    }

    /** Answers a platform request and retires it, whether or not it was pending. */
    method RespondDeviceRequest(reqId: JsValue, responseCode: JsValue) returns (r: Outcome<Error>)
      requires Valid()
      modifies this
      ensures Valid()
      ensures !old(isConnected) ==> r == Fail(NotConnected) && unchanged(this)
      ensures old(isConnected) && ResponseData(reqId, responseCode).Failure? ==>
                r == Fail(ResponseData(reqId, responseCode).error) && unchanged(this)
      ensures old(isConnected) && ResponseData(reqId, responseCode).Success? ==>
                && r == Pass
                && dmRequests == old(dmRequests) - {reqId.s}
                && reqId.s !in dmRequests
                && deviceRequests == old(deviceRequests) && isConnected == old(isConnected)
                && trace == old(trace) + [Published(ResponseTopic, ResponseData(reqId, responseCode).value, Qos)]
    {
      if !isConnected {
        return Fail(NotConnected);
      }
      var payload := ResponseData(reqId, responseCode);
      if payload.Failure? {
        return Fail(payload.error);
      }
      trace := trace + [Published(ResponseTopic, payload.value, Qos)];
      dmRequests := dmRequests - {reqId.s};
      r := Pass;
    }

    /** The response handler: correlate, emit `dmResponse` whatever the code, retire the request. */
    method OnDmResponse(payload: Inbound) returns (r: Outcome<Error>)
      requires Valid()
      modifies this
      ensures Valid()
      ensures Correlate(old(deviceRequests), payload.reqId).Failure? ==>
                r == Fail(Correlate(old(deviceRequests), payload.reqId).error) && unchanged(this)
      ensures Correlate(old(deviceRequests), payload.reqId).Success? ==>
                && r == Pass
                && deviceRequests == old(deviceRequests) - {payload.reqId}
                && dmRequests == old(dmRequests) && isConnected == old(isConnected)
                && trace == old(trace) + [Emitted(DmResponse(payload.reqId, payload.rc))]
    {
      var op := Correlate(deviceRequests, payload.reqId);
      if op.Failure? {
        return Fail(op.error);
      }
      trace := trace + [Emitted(DmResponse(payload.reqId, payload.rc))];
      deviceRequests := deviceRequests - {payload.reqId};
      r := Pass;
    }

    /** The request handler: record (or overwrite) the platform request, then emit its event if it has one. */
    method OnDmRequest(topic: string, payload: Inbound)
      requires Valid() && RouteOf(topic) == ToRequest
      modifies this
      ensures Valid()
      ensures dmRequests == old(dmRequests)[payload.reqId := PlatformRequest(topic, payload)]
      ensures deviceRequests == old(deviceRequests) && isConnected == old(isConnected)
      ensures trace == old(trace) + EmittedFor(RequestEvent(topic, payload))
    {
      dmRequests := dmRequests[payload.reqId := PlatformRequest(topic, payload)];
      var e := RequestEvent(topic, payload);
      if e.Some? {
        trace := trace + [Emitted(e.value)];
      }
    }

    /** The `message` handler of the transport. */
    method OnMessage(topic: string, payload: Inbound) returns (r: Outcome<Error>)
      requires Valid()
      modifies this
      ensures Valid()
      ensures RouteOf(topic) == Ignored ==> r == Pass && unchanged(this)
      ensures RouteOf(topic) == ToResponse && Correlate(old(deviceRequests), payload.reqId).Failure? ==>
                r == Fail(Correlate(old(deviceRequests), payload.reqId).error) && unchanged(this)
      ensures RouteOf(topic) == ToResponse && Correlate(old(deviceRequests), payload.reqId).Success? ==>
                && r == Pass
                && deviceRequests == old(deviceRequests) - {payload.reqId}
                && dmRequests == old(dmRequests)
                && trace == old(trace) + [Emitted(DmResponse(payload.reqId, payload.rc))]
      ensures RouteOf(topic) == ToRequest ==>
                && r == Pass
                && dmRequests == old(dmRequests)[payload.reqId := PlatformRequest(topic, payload)]
                && deviceRequests == old(deviceRequests)
                && trace == old(trace) + EmittedFor(RequestEvent(topic, payload))
      ensures isConnected == old(isConnected)
    {
      match RouteOf(topic)
      case Ignored =>
        r := Pass;
      case ToResponse =>
        r := OnDmResponse(payload);
      case ToRequest =>
        OnDmRequest(topic, payload);
        r := Pass;
    }
  }

  function EmittedFor(e: Option<Event>): seq<Effect> {
    if e.Some? then [Emitted(e.value)] else []
  }
}
