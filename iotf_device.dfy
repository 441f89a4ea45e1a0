/**
 * The device client: validates its configuration (token authentication is the
 * only method supported in registered mode), calls the connect callback only
 * on a fresh connection, subscribes to every command outside quickstart mode,
 * backs off when the transport goes offline, delivers commands to the command
 * callback and publishes events on `iot-2/evt/<event>/fmt/<format>`.
 */
module Device {
  import opened Js
  import opened Patterns
  import opened Platform

  /** The properties of the configuration object the client reads; `None` is `undefined` or `null`. */
  datatype DeviceConfig = DeviceConfig(org: Option<string>, deviceType: Option<string>, id: Option<string>,
                                       authMethod: Option<string>, authToken: Option<string>)

  /** What the constructor derives from a valid configuration. */
  datatype DeviceSettings = DeviceSettings(org: string, deviceType: string, id: string, clientId: string,
                                           host: string, isQuickstart: bool, credentials: Option<Credentials>)

  datatype Error =
    | MissingProperty(name: string)
    | UnsupportedAuthMethod(authMethod: string)
    /** `publish` or `disconnect` before `connect`. */
    | NotInitialized

  /** The only authentication method of registered mode, and the user name it implies. */
  const TokenAuth: string := "token"
  const TokenAuthUser: string := "use-token-auth"

  /** A retry counter below this gets the short reconnect period. */
  const FastRetries: nat := 5

  const CommandPrefix: string := "iot-2/cmd/"
  /** Every command in every format; MQTT 3.1.1 single-level wildcards. */
  const AllCommandsTopic: string := "iot-2/cmd/+/fmt/+"
  const FormatSeparator: string := "/fmt/"

  function ClientId(org: string, deviceType: string, id: string): string {
    "d:" + org + ":" + deviceType + ":" + id
  }

  /** The constructor's checks, in order, and what it derives. */
  function SettingsOf(config: DeviceConfig): (r: Result<DeviceSettings, Error>)
    ensures r.Success? <==>
              && config.org.Some? && config.deviceType.Some? && config.id.Some?
              && (config.org.value != QuickstartOrg ==>
                    config.authMethod == Some(TokenAuth) && config.authToken.Some?)
    ensures config.org.None? ==> r == Failure(MissingProperty("org"))
    ensures config.org.Some? && config.deviceType.None? ==> r == Failure(MissingProperty("type"))
    ensures config.org.Some? && config.deviceType.Some? && config.id.None? ==> r == Failure(MissingProperty("id"))
    ensures config.org.Some? && config.deviceType.Some? && config.id.Some? && config.org.value != QuickstartOrg ==>
              && (config.authMethod.None? ==> r == Failure(MissingProperty("auth-method")))
              && (config.authMethod.Some? && config.authMethod.value != TokenAuth ==>
                    r == Failure(UnsupportedAuthMethod(config.authMethod.value)))
              && (config.authMethod == Some(TokenAuth) && config.authToken.None? ==>
                    r == Failure(MissingProperty("auth-token")))
    ensures r.Success? ==>
              && r.value.org == config.org.value && r.value.deviceType == config.deviceType.value
              && r.value.id == config.id.value
              && r.value.clientId == ClientId(config.org.value, config.deviceType.value, config.id.value)
              && (r.value.isQuickstart <==> config.org.value == QuickstartOrg)
    ensures r.Success? && r.value.isQuickstart ==> r.value.host == QuickstartHost && r.value.credentials.None?
    ensures r.Success? && !r.value.isQuickstart ==>
              && r.value.host == RegisteredHost(config.org.value)
              && r.value.credentials == Some(Credentials(TokenAuthUser, config.authToken.value))
  {
    if config.org.None? then Failure(MissingProperty("org"))
    else if config.deviceType.None? then Failure(MissingProperty("type"))
    else if config.id.None? then Failure(MissingProperty("id"))
    else
      var org, deviceType, id := config.org.value, config.deviceType.value, config.id.value;
      var clientId := ClientId(org, deviceType, id);
      if org == QuickstartOrg then
        Success(DeviceSettings(org, deviceType, id, clientId, QuickstartHost, true, None))
      else if config.authMethod.None? then Failure(MissingProperty("auth-method"))
      else if config.authMethod.value != TokenAuth then Failure(UnsupportedAuthMethod(config.authMethod.value))
      else if config.authToken.None? then Failure(MissingProperty("auth-token"))
      else
        Success(DeviceSettings(org, deviceType, id, clientId, RegisteredHost(org), false,
                               Some(Credentials(TokenAuthUser, config.authToken.value))))
  }

  /** Devices whose organisation and type hold no ':' get distinct MQTT client identifiers. */
  lemma ClientIdInjective(org1: string, type1: string, id1: string, org2: string, type2: string, id2: string)
    requires Excludes(org1, ':') && Excludes(org2, ':') && Excludes(type1, ':') && Excludes(type2, ':')
    requires ClientId(org1, type1, id1) == ClientId(org2, type2, id2)
    ensures org1 == org2 && type1 == type2 && id1 == id2
  {
    var s := ClientId(org1, type1, id1);
    assert s == "d:" + (org1 + ":" + (type1 + ":" + id1));
    assert ClientId(org2, type2, id2) == "d:" + (org2 + ":" + (type2 + ":" + id2));
    assert s[2..] == org1 + ":" + (type1 + ":" + id1) == org2 + ":" + (type2 + ":" + id2);
    ColonJoinInjective(org1, type1 + ":" + id1, org2, type2 + ":" + id2);
    ColonJoinInjective(type1, id1, type2, id2);
  }

  // ---------------------------------------------------------------------------
  // Topics

  /**
   * `util.format("iot-2/evt/%s/fmt/%s", eventType, eventFormat)`. An event
   * topic lies outside the command subscription, so a device never receives
   * its own events as commands.
   */
  function EventTopic(eventType: string, eventFormat: string): (r: string)
    ensures StartsWith(r, "iot-2/evt/")
    ensures !StartsWith(r, CommandPrefix)
  {
    var r := "iot-2/evt/" + eventType + "/fmt/" + eventFormat;
    assert r[..10] == "iot-2/evt/";
    assert r[6] == 'e' && CommandPrefix[6] == 'c';
    r
  }

  /** A command topic is the command pattern's prefix and separators around the two levels. */
  function CommandTopic(command: string, format: string): (r: string)
    ensures StartsWith(r, CommandPrefix)
    ensures r == CommandPrefix + Join([command, format], [FormatSeparator, ""])
  {
    var r := CommandPrefix + command + FormatSeparator + format;
    assert Join([format], [""]) == format + "" + Join([], []);
    assert Join([command, format], [FormatSeparator, ""]) == command + FormatSeparator + format;
    assert r[..|CommandPrefix|] == CommandPrefix;
    r
  }

  datatype Command = Command(command: string, format: string)

  /** `^iot-2/cmd/(.+)/fmt/(.+)$`. */
  function CommandOf(topic: string): (r: Option<Command>)
    ensures r.Some? ==> CommandTopic(r.value.command, r.value.format) == topic
    ensures r.Some? ==> IsGroup(r.value.command) && IsGroup(r.value.format)
  {
    if StartsWith(topic, CommandPrefix) then
      match Groups(topic[|CommandPrefix|..], [FormatSeparator, ""])
      case Some(g) =>
        var seps := [FormatSeparator, ""];
        assert Join(g[1..], seps[1..]) == g[1] + "" + Join([], []);
        assert Join(g, seps) == g[0] + FormatSeparator + g[1];
        assert topic == CommandPrefix + topic[|CommandPrefix|..];
        assert IsGroup(g[0]) && IsGroup(g[1]);
        Some(Command(g[0], g[1]))
      case None => None
    else None
  }

  /** A command topic whose format level holds no '/' is read back as exactly that command and format. */
  lemma CommandTopicParsed(command: string, format: string)
    requires IsGroup(command) && IsGroup(format) && Excludes(format, '/')
    ensures CommandOf(CommandTopic(command, format)) == Some(Command(command, format))
  {
    var topic := CommandTopic(command, format);
    assert topic == CommandPrefix + (command + FormatSeparator + format);
    assert topic[|CommandPrefix|..] == command + FormatSeparator + format;
    GroupsLastSeparator(command, FormatSeparator, format);
  }

  // ---------------------------------------------------------------------------
  // The client

  const SupportedCallbacks: set<string> := {"command", "connect"}

  /** What a registered callback is invoked with. */
  datatype Call = Connected | CommandReceived(command: string, format: string, payload: string, topic: string)

  datatype Effect =
    | Published(topic: string, payload: string, qos: nat)
    | Subscribed(topic: string, qos: nat)
    | Invoked(handler: Handler, call: Call)

  class IotfDevice {
    const settings: DeviceSettings
    var callbacks: map<string, Handler>
    var retryCount: nat
    var isConnected: bool
    /** Whether a transport exists: set by `connect`, cleared by `disconnect`. */
    var hasMqtt: bool
    /** The transport's `reconnectPeriod` as last set by the offline handler. */
    var reconnectPeriod: Option<nat>
    var trace: seq<Effect>

    ghost predicate Valid()
      reads this`callbacks
    {
      callbacks.Keys <= SupportedCallbacks
    }

    constructor (settings: DeviceSettings)
      ensures this.settings == settings && Valid()
      ensures callbacks == map[] && retryCount == 0 && !isConnected && !hasMqtt
      ensures reconnectPeriod.None? && trace == []
    {
      this.settings := settings;
      callbacks := map[];
      retryCount := 0;
      isConnected := false;
      hasMqtt := false;
      reconnectPeriod := None;
      trace := [];
    }

    /** `new IotfDevice(config)`. */
    static method Create(config: DeviceConfig) returns (r: Result<IotfDevice, Error>)
      ensures SettingsOf(config).Failure? ==> r == Failure(SettingsOf(config).error)
      ensures SettingsOf(config).Success? ==>
                && r.Success? && fresh(r.value) && r.value.settings == SettingsOf(config).value
                && r.value.Valid() && r.value.callbacks == map[] && r.value.retryCount == 0
                && !r.value.isConnected && !r.value.hasMqtt && r.value.trace == []
    {
      var s := SettingsOf(config);
      if s.Failure? {
        return Failure(s.error);
      }
      var device := new IotfDevice(s.value);
      r := Success(device);
    }

    /** `connect`: creates the transport; the connection itself is reported by the handlers below. */
    method Connect()
      modifies this
      ensures hasMqtt
      ensures callbacks == old(callbacks) && retryCount == old(retryCount) && isConnected == old(isConnected)
      ensures reconnectPeriod == old(reconnectPeriod) && trace == old(trace)
    {
      hasMqtt := true;
    }

    /**
     * The `connect` handler: the callback runs only when no retry was counted
     * since the last connection, then the counter is reset and, outside
     * quickstart mode, every command is subscribed to at QoS 2.
     */
    method OnConnect()
      modifies this
      ensures isConnected && retryCount == 0
      ensures trace == old(trace)
                       + (if "connect" in callbacks && old(retryCount) == 0 then [Invoked(callbacks["connect"], Connected)]
                          else [])
                       + (if settings.isQuickstart then [] else [Subscribed(AllCommandsTopic, ExactlyOnce)])
      ensures callbacks == old(callbacks) && hasMqtt == old(hasMqtt) && reconnectPeriod == old(reconnectPeriod)
    {
      isConnected := true;
      if "connect" in callbacks && retryCount == 0 {
        trace := trace + [Invoked(callbacks["connect"], Connected)];
      }
      retryCount := 0;
      if !settings.isQuickstart {
        trace := trace + [Subscribed(AllCommandsTopic, ExactlyOnce)];
      }
    }

    /** The `offline` handler: count the retry and back off. */
    method OnOffline()
      modifies this
      ensures !isConnected && retryCount == old(retryCount) + 1
      ensures reconnectPeriod == Some(ReconnectPeriod(retryCount, FastRetries))
      ensures callbacks == old(callbacks) && hasMqtt == old(hasMqtt) && trace == old(trace)
    {
      isConnected := false;
      retryCount := retryCount + 1;
      reconnectPeriod := Some(ReconnectPeriod(retryCount, FastRetries));
    }

    /** The `close` handler. */
    method OnClose()
      modifies this
      ensures !isConnected
      ensures callbacks == old(callbacks) && retryCount == old(retryCount) && hasMqtt == old(hasMqtt)
      ensures reconnectPeriod == old(reconnectPeriod) && trace == old(trace)
    {
      isConnected := false;
    }

    /** The `message` handler: a command topic goes to the command callback, if one is registered. */
    method OnMessage(topic: string, payload: string)
      modifies this
      ensures "command" in callbacks && CommandOf(topic).Some? ==>
                var c := CommandOf(topic).value;
                trace == old(trace) + [Invoked(callbacks["command"], CommandReceived(c.command, c.format, payload, topic))]
      ensures !("command" in callbacks && CommandOf(topic).Some?) ==> trace == old(trace)
      ensures callbacks == old(callbacks) && retryCount == old(retryCount) && isConnected == old(isConnected)
      ensures hasMqtt == old(hasMqtt) && reconnectPeriod == old(reconnectPeriod)
    {
      if "command" in callbacks {
        var c := CommandOf(topic);
        if c.Some? {
          trace := trace + [Invoked(callbacks["command"], CommandReceived(c.value.command, c.value.format, payload, topic))];
        }
      }
    }

    /** `publish`: handed to the transport whether or not it is connected. */
    method Publish(eventType: string, eventFormat: string, payload: string, qos: Option<nat>) returns (r: Outcome<Error>)
      modifies this
      ensures !old(hasMqtt) ==> r == Fail(NotInitialized) && unchanged(this)
      ensures old(hasMqtt) && qos.Some? ==>
                r == Pass && trace == old(trace) + [Published(EventTopic(eventType, eventFormat), payload, qos.value)]
      ensures old(hasMqtt) && qos.None? ==>
                r == Pass && trace == old(trace) + [Published(EventTopic(eventType, eventFormat), payload, AtMostOnce)]
      ensures callbacks == old(callbacks) && retryCount == old(retryCount) && isConnected == old(isConnected)
      ensures hasMqtt == old(hasMqtt) && reconnectPeriod == old(reconnectPeriod)
    {
      var topic := EventTopic(eventType, eventFormat);
      var q := if qos.Some? then qos.value else AtMostOnce;
      if !hasMqtt {
        return Fail(NotInitialized);
      }
      trace := trace + [Published(topic, payload, q)];
      r := Pass;
    }

    /** `disconnect`: refused before `connect`; otherwise drops the connection and the transport. */
    method Disconnect() returns (r: Outcome<Error>)
      modifies this
      ensures !old(hasMqtt) ==> r == Fail(NotInitialized) && unchanged(this)
      ensures old(hasMqtt) ==> r == Pass && !isConnected && !hasMqtt
      ensures callbacks == old(callbacks) && retryCount == old(retryCount)
      ensures reconnectPeriod == old(reconnectPeriod) && trace == old(trace)
    {
      if !hasMqtt {
        return Fail(NotInitialized);
      }
      isConnected := false;
      hasMqtt := false;
      r := Pass;
    }

    /** `on`: only `command` and `connect` callbacks are stored. */
    method On(callbackType: string, handler: Handler)
      requires Valid()
      modifies this
      ensures Valid()
      ensures callbacks == if callbackType in SupportedCallbacks then old(callbacks)[callbackType := handler]
                           else old(callbacks)
      ensures retryCount == old(retryCount) && isConnected == old(isConnected) && hasMqtt == old(hasMqtt)
      ensures reconnectPeriod == old(reconnectPeriod) && trace == old(trace)
    {
      if callbackType in SupportedCallbacks {
        callbacks := callbacks[callbackType := handler];
      }
    }
  }
}
