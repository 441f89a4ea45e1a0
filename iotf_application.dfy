/**
 * The application client: validates its configuration, keeps the callbacks an
 * application registered, keeps an append-only list of subscriptions that it
 * replays whenever the transport (re)connects, backs off when the transport
 * goes offline, dispatches inbound topics to the first registered callback
 * whose pattern matches, builds the device topics it subscribes and publishes
 * to, and assembles the URIs of the REST API.
 */
module Application {
  import opened Js
  import opened Patterns
  import opened Platform

  /** The properties of the configuration object the client reads; `None` is `undefined` or `null`. */
  datatype AppConfig = AppConfig(org: Option<string>, id: Option<string>, authKey: Option<string>,
                                 authToken: Option<string>)

  /** What the constructor derives from a valid configuration. */
  datatype AppSettings = AppSettings(org: string, id: string, clientId: string, host: string,
                                     isQuickstart: bool, credentials: Option<Credentials>)

  datatype Error =
    | MissingProperty(name: string)
    /** `subscribe` or `publish` before `connect`. */
    | NotInitialized
    /** `disconnect` without a transport: the call on a missing object throws. */
    | NoTransport

  /** A retry counter below this gets the short reconnect period. */
  const FastRetries: nat := 3

  function ClientId(org: string, id: string): string {
    "a:" + org + ":" + id
  }

  /** The constructor's checks, in order, and what it derives. */
  function SettingsOf(config: AppConfig): (r: Result<AppSettings, Error>)
    ensures r.Success? <==>
              && config.org.Some? && config.id.Some?
              && (config.org.value != QuickstartOrg ==> config.authKey.Some? && config.authToken.Some?)
    ensures config.org.None? ==> r == Failure(MissingProperty("org"))
    ensures config.org.Some? && config.id.None? ==> r == Failure(MissingProperty("id"))
    ensures config.org.Some? && config.id.Some? && config.org.value != QuickstartOrg && config.authKey.None? ==>
              r == Failure(MissingProperty("auth-key"))
    ensures config.org.Some? && config.id.Some? && config.org.value != QuickstartOrg && config.authKey.Some?
              && config.authToken.None? ==>
              r == Failure(MissingProperty("auth-token"))
    ensures r.Success? ==>
              && r.value.org == config.org.value && r.value.id == config.id.value
              && r.value.clientId == ClientId(config.org.value, config.id.value)
              && (r.value.isQuickstart <==> config.org.value == QuickstartOrg)
    ensures r.Success? && r.value.isQuickstart ==> r.value.host == QuickstartHost && r.value.credentials.None?
    ensures r.Success? && !r.value.isQuickstart ==>
              && r.value.host == RegisteredHost(config.org.value)
              && r.value.credentials == Some(Credentials(config.authKey.value, config.authToken.value))
  {
    if config.org.None? then Failure(MissingProperty("org"))
    else if config.id.None? then Failure(MissingProperty("id"))
    else
      var org, id := config.org.value, config.id.value;
      if org == QuickstartOrg then
        Success(AppSettings(org, id, ClientId(org, id), QuickstartHost, true, None))
      else if config.authKey.None? then Failure(MissingProperty("auth-key"))
      else if config.authToken.None? then Failure(MissingProperty("auth-token"))
      else
        Success(AppSettings(org, id, ClientId(org, id), RegisteredHost(org), false,
                            Some(Credentials(config.authKey.value, config.authToken.value))))
  }

  /** Distinct applications of organisations without ':' get distinct MQTT client identifiers. */
  lemma ClientIdInjective(org1: string, id1: string, org2: string, id2: string)
    requires Excludes(org1, ':') && Excludes(org2, ':')
    requires ClientId(org1, id1) == ClientId(org2, id2)
    ensures org1 == org2 && id1 == id2
  {
    var s := ClientId(org1, id1);
    assert s == "a:" + (org1 + ":" + id1);
    assert ClientId(org2, id2) == "a:" + (org2 + ":" + id2);
    assert s[2..] == org1 + ":" + id1 && s[2..] == org2 + ":" + id2;
    ColonJoinInjective(org1, id1, org2, id2);
  }

  // ---------------------------------------------------------------------------
  // Topics

  const DevicePrefix: string := "iot-2/type/"
  const AppPrefix: string := "iot-2/app/"
  /** The separators after each group of the four inbound patterns. */
  const EventSeparators: seq<string> := ["/id/", "/evt/", "/fmt/", ""]
  const CommandSeparators: seq<string> := ["/id/", "/cmd/", "/fmt/", ""]
  const DeviceStatusSeparators: seq<string> := ["/id/", "/mon"]
  const AppStatusSeparators: seq<string> := ["/mon"]

  /** The single-level wildcard of MQTT 3.1.1 (section 4.7.1.3). */
  const Wildcard: string := "+"

  /*
   * The topic builders. Each topic is its inbound pattern's prefix with the
   * levels joined by that pattern's separators, so what the application
   * subscribes to is what its dispatcher parses.
   */

  function DeviceEventTopic(deviceType: string, deviceId: string, event: string, format: string): (r: string)
    ensures r == DevicePrefix + Join([deviceType, deviceId, event, format], EventSeparators)
  {
    PrefixJoinFour(DevicePrefix, [deviceType, deviceId, event, format], EventSeparators);
    DevicePrefix + deviceType + "/id/" + deviceId + "/evt/" + event + "/fmt/" + format
  }

  function DeviceCommandTopic(deviceType: string, deviceId: string, command: string, format: string): (r: string)
    ensures r == DevicePrefix + Join([deviceType, deviceId, command, format], CommandSeparators)
  {
    PrefixJoinFour(DevicePrefix, [deviceType, deviceId, command, format], CommandSeparators);
    DevicePrefix + deviceType + "/id/" + deviceId + "/cmd/" + command + "/fmt/" + format
  }

  function DeviceStatusTopic(deviceType: string, deviceId: string): (r: string)
    ensures r == DevicePrefix + Join([deviceType, deviceId], DeviceStatusSeparators)
  {
    JoinTwo([deviceType, deviceId], DeviceStatusSeparators);
    var r := DevicePrefix + deviceType + "/id/" + deviceId + "/mon";
    assert r == DevicePrefix + (deviceType + "/id/" + deviceId + "/mon");
    r
  }

  function AppStatusTopic(appId: string): (r: string)
    ensures r == AppPrefix + Join([appId], AppStatusSeparators)
  {
    assert Join([appId], AppStatusSeparators) == appId + "/mon" + Join([], []);
    var r := AppPrefix + appId + "/mon";
    assert r == AppPrefix + (appId + "/mon");
    r
  }

  /** `x || '+'`: a missing or empty topic level subscribes to every value of that level. */
  function OrWildcard(level: Option<string>): (r: string)
    ensures r == Wildcard <==> level.None? || level.value == "" || level.value == Wildcard
    ensures r != Wildcard ==> level == Some(r)
  {
    if level.None? || level.value == "" then Wildcard else level.value
  }

  // ---------------------------------------------------------------------------
  // Inbound dispatch

  /** The callback an inbound message is delivered to, with the topic levels its pattern captured. */
  datatype Delivery =
    | DeviceEvent(deviceType: string, deviceId: string, event: string, format: string)
    | DeviceCommand(deviceType: string, deviceId: string, command: string, format: string)
    | DeviceStatus(deviceType: string, deviceId: string)
    | AppStatus(appId: string)
  {
    function CallbackName(): string {
      match this
      case DeviceEvent(_, _, _, _) => "deviceEvent"
      case DeviceCommand(_, _, _, _) => "deviceCommand"
      case DeviceStatus(_, _) => "deviceStatus"
      case AppStatus(_) => "appStatus"
    }

    /** The topic the captured levels spell out. */
    function Topic(): string {
      match this
      case DeviceEvent(t, i, e, f) => DeviceEventTopic(t, i, e, f)
      case DeviceCommand(t, i, c, f) => DeviceCommandTopic(t, i, c, f)
      case DeviceStatus(t, i) => DeviceStatusTopic(t, i)
      case AppStatus(a) => AppStatusTopic(a)
    }

    predicate Captured() {
      match this
      case DeviceEvent(t, i, e, f) => IsGroup(t) && IsGroup(i) && IsGroup(e) && IsGroup(f)
      case DeviceCommand(t, i, c, f) => IsGroup(t) && IsGroup(i) && IsGroup(c) && IsGroup(f)
      case DeviceStatus(t, i) => IsGroup(t) && IsGroup(i)
      case AppStatus(a) => IsGroup(a)
    }
  }

  /** `^<prefix>(.+)<seps[0]>...(.+)<seps[N-1]>$` applied to a topic. */
  function MatchAfter(topic: string, prefix: string, seps: seq<string>): (r: Option<seq<string>>)
    requires |seps| > 0
    ensures r.Some? ==> |r.value| == |seps| && AllGroups(r.value) && topic == prefix + Join(r.value, seps)
  {
    if StartsWith(topic, prefix) then
      var g := Groups(topic[|prefix|..], seps);
      if g.Some? then
        assert topic == prefix + topic[|prefix|..];
        g
      else None
    else None
  }

  function DeviceEventOf(topic: string): Option<Delivery> {
    match MatchAfter(topic, DevicePrefix, EventSeparators)
    case Some(g) => Some(DeviceEvent(g[0], g[1], g[2], g[3]))
    case None => None
  }

  function DeviceCommandOf(topic: string): Option<Delivery> {
    match MatchAfter(topic, DevicePrefix, CommandSeparators)
    case Some(g) => Some(DeviceCommand(g[0], g[1], g[2], g[3]))
    case None => None
  }

  function DeviceStatusOf(topic: string): Option<Delivery> {
    match MatchAfter(topic, DevicePrefix, DeviceStatusSeparators)
    case Some(g) => Some(DeviceStatus(g[0], g[1]))
    case None => None
  }

  function AppStatusOf(topic: string): Option<Delivery> {
    match MatchAfter(topic, AppPrefix, AppStatusSeparators)
    case Some(g) => Some(AppStatus(g[0]))
    case None => None
  }

  /**
   * The `message` handler's cascade: each pattern is tried only when its
   * callback is registered, in the order deviceEvent, deviceCommand,
   * deviceStatus, appStatus, and the first match wins.
   */
  function Route(registered: set<string>, topic: string): (r: Option<Delivery>)
    ensures r.Some? ==> r.value.CallbackName() in registered
  {
    if "deviceEvent" in registered && DeviceEventOf(topic).Some? then DeviceEventOf(topic)
    else if "deviceCommand" in registered && DeviceCommandOf(topic).Some? then DeviceCommandOf(topic)
    else if "deviceStatus" in registered && DeviceStatusOf(topic).Some? then DeviceStatusOf(topic)
    else if "appStatus" in registered && AppStatusOf(topic).Some? then AppStatusOf(topic)
    else None
  }

  /** Nothing is delivered exactly when no registered callback's pattern matches. */
  lemma RouteNone(registered: set<string>, topic: string)
    ensures Route(registered, topic).None? <==>
              && ("deviceEvent" in registered ==> DeviceEventOf(topic).None?)
              && ("deviceCommand" in registered ==> DeviceCommandOf(topic).None?)
              && ("deviceStatus" in registered ==> DeviceStatusOf(topic).None?)
              && ("appStatus" in registered ==> AppStatusOf(topic).None?)
  {
  }

  /** Soundness: the levels handed to a callback are non-empty and rebuild the topic received. */
  lemma RouteSound(registered: set<string>, topic: string)
    requires Route(registered, topic).Some?
    ensures Route(registered, topic).value.Topic() == topic
    ensures Route(registered, topic).value.Captured()
  {
    if "deviceEvent" in registered && DeviceEventOf(topic).Some? {
      EventSound(topic);
    } else if "deviceCommand" in registered && DeviceCommandOf(topic).Some? {
      CommandSound(topic);
    } else if "deviceStatus" in registered && DeviceStatusOf(topic).Some? {
      DeviceStatusSound(topic);
    } else {
      AppStatusSound(topic);
    }
  }

  lemma EventSound(topic: string)
    requires DeviceEventOf(topic).Some?
    ensures DeviceEventOf(topic).value.Topic() == topic && DeviceEventOf(topic).value.Captured()
  {
    var g := MatchAfter(topic, DevicePrefix, EventSeparators).value;
    assert DeviceEventOf(topic).value == DeviceEvent(g[0], g[1], g[2], g[3]);
    assert topic == DevicePrefix + Join(g, EventSeparators);
    PrefixJoinFour(DevicePrefix, g, EventSeparators);
    assert IsGroup(g[0]) && IsGroup(g[1]) && IsGroup(g[2]) && IsGroup(g[3]);
  }

  // Proof helpers: `Join` unfolded for two and four groups, and the
  // re-bracketing of concatenation the topic builders need.

  lemma PrefixJoinFour(prefix: string, gs: seq<string>, seps: seq<string>)
    requires |gs| == |seps| == 4 && seps[3] == ""
    ensures prefix + Join(gs, seps) == prefix + gs[0] + seps[0] + gs[1] + seps[1] + gs[2] + seps[2] + gs[3]
  {
    JoinFour(gs, seps);
    var x5 := gs[0] + seps[0] + gs[1] + seps[1] + gs[2];
    var x6 := x5 + seps[2];
    Associative(prefix, x6, gs[3]);
    Associative(prefix, x5, seps[2]);
    var x3 := gs[0] + seps[0] + gs[1];
    Associative(prefix, x3 + seps[1], gs[2]);
    Associative(prefix, x3, seps[1]);
    Associative(prefix, gs[0] + seps[0], gs[1]);
    Associative(prefix, gs[0], seps[0]);
  }

  lemma Associative(a: string, b: string, c: string)
    ensures a + (b + c) == a + b + c
  {
  }

  lemma CommandSound(topic: string)
    requires DeviceCommandOf(topic).Some?
    ensures DeviceCommandOf(topic).value.Topic() == topic && DeviceCommandOf(topic).value.Captured()
  {
    var g := MatchAfter(topic, DevicePrefix, CommandSeparators).value;
    assert DeviceCommandOf(topic).value == DeviceCommand(g[0], g[1], g[2], g[3]);
    assert topic == DevicePrefix + Join(g, CommandSeparators);
    PrefixJoinFour(DevicePrefix, g, CommandSeparators);
    assert IsGroup(g[0]) && IsGroup(g[1]) && IsGroup(g[2]) && IsGroup(g[3]);
  }

  lemma DeviceStatusSound(topic: string)
    requires DeviceStatusOf(topic).Some?
    ensures DeviceStatusOf(topic).value.Topic() == topic && DeviceStatusOf(topic).value.Captured()
  {
    var g := MatchAfter(topic, DevicePrefix, DeviceStatusSeparators).value;
    JoinTwo(g, DeviceStatusSeparators);
    assert IsGroup(g[0]) && IsGroup(g[1]);
  }

  lemma AppStatusSound(topic: string)
    requires AppStatusOf(topic).Some?
    ensures AppStatusOf(topic).value.Topic() == topic && AppStatusOf(topic).value.Captured()
  {
    var g := MatchAfter(topic, AppPrefix, AppStatusSeparators).value;
    assert Join(g, AppStatusSeparators) == g[0] + "/mon" + Join([], []);
    assert IsGroup(g[0]);
  }

  lemma JoinFour(gs: seq<string>, seps: seq<string>)
    requires |gs| == |seps| == 4 && seps[3] == ""
    ensures Join(gs, seps) == gs[0] + seps[0] + gs[1] + seps[1] + gs[2] + seps[2] + gs[3]
  {
    assert Join(gs[3..], seps[3..]) == gs[3] + "" + Join([], []);
    assert Join(gs[2..], seps[2..]) == gs[2] + seps[2] + gs[3];
    assert Join(gs[1..], seps[1..]) == gs[1] + seps[1] + (gs[2] + seps[2] + gs[3]);
  }

  lemma JoinTwo(gs: seq<string>, seps: seq<string>)
    requires |gs| == |seps| == 2
    ensures Join(gs, seps) == gs[0] + seps[0] + gs[1] + seps[1]
  {
    assert Join(gs[1..], seps[1..]) == gs[1] + seps[1] + Join([], []);
  }

  /** Completeness: an event topic built from non-empty levels reaches the deviceEvent callback. */
  lemma EventTopicRouted(registered: set<string>, t: string, i: string, e: string, f: string)
    requires "deviceEvent" in registered
    requires IsGroup(t) && IsGroup(i) && IsGroup(e) && IsGroup(f)
    ensures Route(registered, DeviceEventTopic(t, i, e, f)).Some?
    ensures Route(registered, DeviceEventTopic(t, i, e, f)).value.DeviceEvent?
  {
    var gs := [t, i, e, f];
    AllFour(t, i, e, f);
    JoinFour(gs, EventSeparators);
    GroupsComplete(gs, EventSeparators);
    PrefixedMatch(DeviceEventTopic(t, i, e, f), DevicePrefix, Join(gs, EventSeparators), EventSeparators);
  }

  /** A command topic reaches a callback; the deviceCommand one unless deviceEvent is registered too. */
  lemma CommandTopicRouted(registered: set<string>, t: string, i: string, c: string, f: string)
    requires "deviceCommand" in registered
    requires IsGroup(t) && IsGroup(i) && IsGroup(c) && IsGroup(f)
    ensures Route(registered, DeviceCommandTopic(t, i, c, f)).Some?
    ensures "deviceEvent" !in registered ==> Route(registered, DeviceCommandTopic(t, i, c, f)).value.DeviceCommand?
  {
    var gs := [t, i, c, f];
    AllFour(t, i, c, f);
    JoinFour(gs, CommandSeparators);
    GroupsComplete(gs, CommandSeparators);
    PrefixedMatch(DeviceCommandTopic(t, i, c, f), DevicePrefix, Join(gs, CommandSeparators), CommandSeparators);
  }

  /** A device status topic reaches a callback; the deviceStatus one unless an earlier one is registered. */
  lemma DeviceStatusTopicRouted(registered: set<string>, t: string, i: string)
    requires "deviceStatus" in registered
    requires IsGroup(t) && IsGroup(i)
    ensures Route(registered, DeviceStatusTopic(t, i)).Some?
    ensures "deviceEvent" !in registered && "deviceCommand" !in registered ==>
              Route(registered, DeviceStatusTopic(t, i)).value.DeviceStatus?
  {
    var gs := [t, i];
    assert AllGroups(gs);
    JoinTwo(gs, DeviceStatusSeparators);
    GroupsComplete(gs, DeviceStatusSeparators);
    PrefixedMatch(DeviceStatusTopic(t, i), DevicePrefix, Join(gs, DeviceStatusSeparators), DeviceStatusSeparators);
  }

  /** An application status topic is delivered to appStatus with exactly the application id. */
  lemma AppStatusTopicRouted(registered: set<string>, appId: string)
    requires "appStatus" in registered
    requires IsGroup(appId)
    ensures Route(registered, AppStatusTopic(appId)) == Some(AppStatus(appId))
  {
    var topic := AppStatusTopic(appId);
    var rest := appId + "/mon";
    assert topic == AppPrefix + rest;
    assert topic[|AppPrefix|..] == rest;
    assert rest[|appId|..] == "/mon" && rest[..|appId|] == appId;
    assert topic[6] == 'a';
    assert !StartsWith(topic, DevicePrefix);
  }

  lemma AllFour(a: string, b: string, c: string, d: string)
    requires IsGroup(a) && IsGroup(b) && IsGroup(c) && IsGroup(d)
    ensures AllGroups([a, b, c, d])
  {
  }

  lemma PrefixedMatch(topic: string, prefix: string, rest: string, seps: seq<string>)
    requires |seps| > 0 && topic == prefix + rest && Groups(rest, seps).Some?
    ensures MatchAfter(topic, prefix, seps).Some?
  {
    assert topic[..|prefix|] == prefix && topic[|prefix|..] == rest;
  }

  // ---------------------------------------------------------------------------
  // Subscriptions

  /** `subscriptions` holds exactly the indices below `subscriptionCount`. */
  ghost predicate Dense(m: map<nat, string>, n: nat) {
    forall i: nat :: i in m <==> i < n
  }

  ghost function ListOf(m: map<nat, string>, n: nat): seq<string>
    requires Dense(m, n)
  {
    seq(n, i requires 0 <= i < n => m[i])
  }

  lemma ListOfAppend(m: map<nat, string>, n: nat, topic: string)
    requires Dense(m, n)
    ensures Dense(m[n := topic], n + 1)
    ensures ListOf(m[n := topic], n + 1) == ListOf(m, n) + [topic]
  {
    var l, l' := ListOf(m, n), ListOf(m[n := topic], n + 1);
    forall i | 0 <= i < n + 1 ensures l'[i] == (l + [topic])[i] {
      if i < n {
        assert l[i] == m[i];
      }
    }
  }

  /** The subscriptions a connect replays, in list order, at QoS 0. */
  function Resubscriptions(topics: seq<string>): (r: seq<Effect>)
    ensures |r| == |topics|
    ensures forall i :: 0 <= i < |r| ==> r[i].Subscribed? && r[i].topic == topics[i] && r[i].qos == AtMostOnce
  {
    seq(|topics|, i requires 0 <= i < |topics| => Subscribed(topics[i], AtMostOnce))
  }

  /** Replaying a longer list replays the shorter one first, then the rest in order. */
  lemma ResubscriptionsAppend(a: seq<string>, b: seq<string>)
    ensures Resubscriptions(a + b) == Resubscriptions(a) + Resubscriptions(b)
  {
    var l, r := Resubscriptions(a + b), Resubscriptions(a) + Resubscriptions(b);
    forall i | 0 <= i < |l| ensures l[i] == r[i] {
      if i < |a| {
        assert (a + b)[i] == a[i];
      } else {
        assert (a + b)[i] == b[i - |a|];
      }
    }
  }

  // ---------------------------------------------------------------------------
  // The client

  const SupportedCallbacks: set<string> := {"deviceEvent", "deviceCommand", "deviceStatus", "appStatus", "connect"}

  /** What a registered callback is invoked with. */
  datatype Call = Connected | Delivered(delivery: Delivery, payload: string, topic: string)

  datatype Effect =
    | Published(topic: string, message: string)
    | Subscribed(topic: string, qos: nat)
    | Invoked(handler: Handler, call: Call)

  /** The connect callback's invocation, if one is registered. */
  function ConnectCallback(callbacks: map<string, Handler>): seq<Effect> {
    if "connect" in callbacks then [Invoked(callbacks["connect"], Connected)] else []
  }

  class IotfApplication {
    const settings: AppSettings
    var callbacks: map<string, Handler>
    var subscriptions: map<nat, string>
    var subscriptionCount: nat
    var retryCount: nat
    var isConnected: bool
    /** Whether a transport exists: set by `connect`, cleared by `disconnect`. */
    var hasMqtt: bool
    /** The transport's `reconnectPeriod` as last set by the offline handler. */
    var reconnectPeriod: Option<nat>
    var trace: seq<Effect>

    ghost predicate Valid()
      reads this`subscriptions, this`subscriptionCount, this`callbacks
    {
      Dense(subscriptions, subscriptionCount) && callbacks.Keys <= SupportedCallbacks
    }

    /** The subscription list, in the order `subscribe` was called. */
    ghost function Subscriptions(): seq<string>
      reads this`subscriptions, this`subscriptionCount, this`callbacks
      requires Valid()
    {
      ListOf(subscriptions, subscriptionCount)
    }

    constructor (settings: AppSettings)
      ensures this.settings == settings && Valid()
      ensures callbacks == map[] && subscriptions == map[] && subscriptionCount == 0 && Subscriptions() == []
      ensures retryCount == 0 && !isConnected && !hasMqtt && reconnectPeriod.None? && trace == []
    {
      this.settings := settings;
      callbacks := map[];
      subscriptions := map[];
      subscriptionCount := 0;
      retryCount := 0;
      isConnected := false;
      hasMqtt := false;
      reconnectPeriod := None;
      trace := [];
    }

    /** `new IotfApplication(config)`. */
    static method Create(config: AppConfig) returns (r: Result<IotfApplication, Error>)
      ensures SettingsOf(config).Failure? ==> r == Failure(SettingsOf(config).error)
      ensures SettingsOf(config).Success? ==>
                && r.Success? && fresh(r.value) && r.value.settings == SettingsOf(config).value
                && r.value.Valid() && r.value.Subscriptions() == [] && r.value.callbacks == map[]
                && !r.value.isConnected && !r.value.hasMqtt && r.value.retryCount == 0 && r.value.trace == []
    {
      var s := SettingsOf(config);
      if s.Failure? {
        return Failure(s.error);
      }
      var app := new IotfApplication(s.value);
      r := Success(app);
    }

    /** `connect`: creates the transport; the connection itself is reported by the handlers below. */
    method Connect()
      modifies this
      ensures hasMqtt
      ensures callbacks == old(callbacks) && subscriptions == old(subscriptions)
      ensures subscriptionCount == old(subscriptionCount) && retryCount == old(retryCount)
      ensures isConnected == old(isConnected) && reconnectPeriod == old(reconnectPeriod) && trace == old(trace)
    {
      hasMqtt := true;
    }

    /** The `connect` handler: replay every subscription in order, reset the counter, call back. */
    method OnConnect()
      requires Valid()
      modifies this
      ensures Valid()
      ensures isConnected && retryCount == 0
      ensures trace == old(trace) + Resubscriptions(old(Subscriptions())) + ConnectCallback(callbacks)
      ensures callbacks == old(callbacks) && subscriptions == old(subscriptions)
      ensures subscriptionCount == old(subscriptionCount) && hasMqtt == old(hasMqtt)
      ensures reconnectPeriod == old(reconnectPeriod)
    {
      isConnected := true;
      var count := 0;
      while count < subscriptionCount
        invariant 0 <= count <= subscriptionCount
        invariant isConnected && callbacks == old(callbacks) && subscriptions == old(subscriptions)
        invariant subscriptionCount == old(subscriptionCount) && hasMqtt == old(hasMqtt)
        invariant reconnectPeriod == old(reconnectPeriod)
        invariant Valid() && Subscriptions() == old(Subscriptions())
        invariant trace == old(trace) + Resubscriptions(Subscriptions()[..count])
      {
        assert Subscriptions()[..count + 1] == Subscriptions()[..count] + [subscriptions[count]];
        ResubscriptionsAppend(Subscriptions()[..count], [subscriptions[count]]);
        trace := trace + [Subscribed(subscriptions[count], AtMostOnce)];
        count := count + 1;
      }
      assert Subscriptions()[..count] == Subscriptions();
      retryCount := 0;
      if "connect" in callbacks {
        trace := trace + [Invoked(callbacks["connect"], Connected)];
      }
    }

    /** The `offline` handler: count the retry and back off. */
    method OnOffline()
      modifies this
      ensures !isConnected && retryCount == old(retryCount) + 1
      ensures reconnectPeriod == Some(ReconnectPeriod(retryCount, FastRetries))
      ensures callbacks == old(callbacks) && subscriptions == old(subscriptions)
      ensures subscriptionCount == old(subscriptionCount) && hasMqtt == old(hasMqtt) && trace == old(trace)
    {
      isConnected := false;
      retryCount := retryCount + 1;
      reconnectPeriod := Some(ReconnectPeriod(retryCount, FastRetries));
    }

    /** The `close` handler. */
    method OnClose()
      modifies this
      ensures !isConnected
      ensures callbacks == old(callbacks) && subscriptions == old(subscriptions)
      ensures subscriptionCount == old(subscriptionCount) && retryCount == old(retryCount)
      ensures hasMqtt == old(hasMqtt) && reconnectPeriod == old(reconnectPeriod) && trace == old(trace)
    {
      isConnected := false;
    }

    /** The `message` handler: invoke the callback `Route` selects, or nothing. */
    method OnMessage(topic: string, payload: string)
      modifies this
      ensures Route(callbacks.Keys, topic).None? ==> unchanged(this)
      ensures Route(callbacks.Keys, topic).Some? ==>
                var d := Route(callbacks.Keys, topic).value;
                trace == old(trace) + [Invoked(callbacks[d.CallbackName()], Delivered(d, payload, topic))]
      ensures callbacks == old(callbacks) && subscriptions == old(subscriptions)
      ensures subscriptionCount == old(subscriptionCount) && retryCount == old(retryCount)
      ensures isConnected == old(isConnected) && hasMqtt == old(hasMqtt) && reconnectPeriod == old(reconnectPeriod)
    {
      var d := Route(callbacks.Keys, topic);
      if d.Some? {
        trace := trace + [Invoked(callbacks[d.value.CallbackName()], Delivered(d.value, payload, topic))];
      }
    }

    /** `disconnect`: marks the client disconnected first, then drops the transport. */
    method Disconnect() returns (r: Outcome<Error>)
      modifies this
      ensures !isConnected && !hasMqtt
      ensures r == (if old(hasMqtt) then Pass else Fail(NoTransport))
      ensures callbacks == old(callbacks) && subscriptions == old(subscriptions)
      ensures subscriptionCount == old(subscriptionCount) && retryCount == old(retryCount)
      ensures reconnectPeriod == old(reconnectPeriod) && trace == old(trace)
    {
      isConnected := false;
      if !hasMqtt {
        return Fail(NoTransport);
      }
      hasMqtt := false;
      r := Pass;
    }

    /** `on`: only the supported callback types are stored. */
    method On(callbackType: string, handler: Handler)
      requires Valid()
      modifies this
      ensures Valid()
      ensures callbacks == if callbackType in SupportedCallbacks then old(callbacks)[callbackType := handler]
                           else old(callbacks)
      ensures subscriptions == old(subscriptions) && subscriptionCount == old(subscriptionCount)
      ensures retryCount == old(retryCount) && isConnected == old(isConnected) && hasMqtt == old(hasMqtt)
      ensures reconnectPeriod == old(reconnectPeriod) && trace == old(trace)
    {
      if callbackType in SupportedCallbacks {
        callbacks := callbacks[callbackType := handler];
      }
    }

    /** What a successful `subscribe(topic)` does. */
    twostate predicate Added(topic: string)
      reads this
    {
      && subscriptions == old(subscriptions)[old(subscriptionCount) := topic]
      && subscriptionCount == old(subscriptionCount) + 1
      && trace == old(trace) + (if old(isConnected) then [Subscribed(topic, AtMostOnce)] else [])
      && callbacks == old(callbacks) && retryCount == old(retryCount) && isConnected == old(isConnected)
      && hasMqtt == old(hasMqtt) && reconnectPeriod == old(reconnectPeriod)
    }

    /** `subscribe`: remembered for every later reconnect, sent now only while connected. */
    method Subscribe(topic: string) returns (r: Outcome<Error>)
      requires Valid()
      modifies this
      ensures Valid()
      ensures !old(hasMqtt) ==> r == Fail(NotInitialized) && unchanged(this)
      ensures old(hasMqtt) ==> r == Pass && Added(topic) && Subscriptions() == old(Subscriptions()) + [topic]
    {
      if !hasMqtt {
        return Fail(NotInitialized);
      }
      ListOfAppend(subscriptions, subscriptionCount, topic);
      subscriptions := subscriptions[subscriptionCount := topic];
      subscriptionCount := subscriptionCount + 1;
      if isConnected {
        trace := trace + [Subscribed(topic, AtMostOnce)];
      }
      r := Pass;
    }

    /** `publish`: sent only while connected, silently dropped otherwise. */
    method Publish(topic: string, message: string) returns (r: Outcome<Error>)
      modifies this
      ensures !old(hasMqtt) ==> r == Fail(NotInitialized) && unchanged(this)
      ensures old(hasMqtt) ==> r == Pass && trace == old(trace) + (if isConnected then [Published(topic, message)] else [])
      ensures callbacks == old(callbacks) && subscriptions == old(subscriptions)
      ensures subscriptionCount == old(subscriptionCount) && retryCount == old(retryCount)
      ensures isConnected == old(isConnected) && hasMqtt == old(hasMqtt) && reconnectPeriod == old(reconnectPeriod)
    {
      if !hasMqtt {
        return Fail(NotInitialized);
      }
      if isConnected {
        trace := trace + [Published(topic, message)];
      }
      r := Pass;
    }

    method SubscribeToDeviceEvents(deviceType: Option<string>, deviceId: Option<string>, event: Option<string>,
                                   format: Option<string>) returns (r: Outcome<Error>)
      requires Valid()
      modifies this
      ensures Valid()
      ensures !old(hasMqtt) ==> r == Fail(NotInitialized) && unchanged(this)
      ensures old(hasMqtt) ==>
                r == Pass
                && Added(DeviceEventTopic(OrWildcard(deviceType), OrWildcard(deviceId), OrWildcard(event), OrWildcard(format)))
    {
      r := Subscribe(DeviceEventTopic(OrWildcard(deviceType), OrWildcard(deviceId), OrWildcard(event), OrWildcard(format)));
    }

    method SubscribeToDeviceCommands(deviceType: Option<string>, deviceId: Option<string>, command: Option<string>,
                                     format: Option<string>) returns (r: Outcome<Error>)
      requires Valid()
      modifies this
      ensures Valid()
      ensures !old(hasMqtt) ==> r == Fail(NotInitialized) && unchanged(this)
      ensures old(hasMqtt) ==>
                r == Pass
                && Added(DeviceCommandTopic(OrWildcard(deviceType), OrWildcard(deviceId), OrWildcard(command), OrWildcard(format)))
    {
      r := Subscribe(DeviceCommandTopic(OrWildcard(deviceType), OrWildcard(deviceId), OrWildcard(command), OrWildcard(format)));
    }

    method SubscribeToDeviceStatus(deviceType: Option<string>, deviceId: Option<string>) returns (r: Outcome<Error>)
      requires Valid()
      modifies this
      ensures Valid()
      ensures !old(hasMqtt) ==> r == Fail(NotInitialized) && unchanged(this)
      ensures old(hasMqtt) ==> r == Pass && Added(DeviceStatusTopic(OrWildcard(deviceType), OrWildcard(deviceId)))
    {
      r := Subscribe(DeviceStatusTopic(OrWildcard(deviceType), OrWildcard(deviceId)));
    }

    method SubscribeToAppStatus(appId: Option<string>) returns (r: Outcome<Error>)
      requires Valid()
      modifies this
      ensures Valid()
      ensures !old(hasMqtt) ==> r == Fail(NotInitialized) && unchanged(this)
      ensures old(hasMqtt) ==> r == Pass && Added(AppStatusTopic(OrWildcard(appId)))
    {
      r := Subscribe(AppStatusTopic(OrWildcard(appId)));
    }

    method PublishDeviceEvent(deviceType: string, deviceId: string, event: string, format: string, data: string)
      returns (r: Outcome<Error>)
      modifies this
      ensures !old(hasMqtt) ==> r == Fail(NotInitialized) && unchanged(this)
      ensures old(hasMqtt) ==>
                r == Pass
                && trace == old(trace) + (if isConnected then [Published(DeviceEventTopic(deviceType, deviceId, event, format), data)]
                                          else [])
      ensures callbacks == old(callbacks) && subscriptions == old(subscriptions)
      ensures subscriptionCount == old(subscriptionCount) && retryCount == old(retryCount)
      ensures isConnected == old(isConnected) && hasMqtt == old(hasMqtt) && reconnectPeriod == old(reconnectPeriod)
    {
      r := Publish(DeviceEventTopic(deviceType, deviceId, event, format), data);
    }

    method PublishDeviceCommand(deviceType: string, deviceId: string, command: string, format: string, data: string)
      returns (r: Outcome<Error>)
      modifies this
      ensures !old(hasMqtt) ==> r == Fail(NotInitialized) && unchanged(this)
      ensures old(hasMqtt) ==>
                r == Pass
                && trace == old(trace) + (if isConnected then [Published(DeviceCommandTopic(deviceType, deviceId, command, format), data)]
                                          else [])
      ensures callbacks == old(callbacks) && subscriptions == old(subscriptions)
      ensures subscriptionCount == old(subscriptionCount) && retryCount == old(retryCount)
      ensures isConnected == old(isConnected) && hasMqtt == old(hasMqtt) && reconnectPeriod == old(reconnectPeriod)
    {
      r := Publish(DeviceCommandTopic(deviceType, deviceId, command, format), data);
    }

    /** The URI `callApi` requests: the organisation's API base, then one `/`-prefixed level per path element. */
    method CallApiUri(paths: Option<seq<string>>) returns (uri: string)
      ensures uri == ApiBase(settings.org) + (if paths.Some? then PathSuffix(paths.value) else "")
    {
      uri := ApiBase(settings.org);
      if paths.Some? {
        var ps := paths.value;
        for i := 0 to |ps|
          invariant uri == ApiBase(settings.org) + PathSuffix(ps[..i])
        {
          assert ps[..i + 1][..i] == ps[..i];
          uri := uri + "/" + ps[i];
        }
        assert ps[..|ps|] == ps;
      }
    }
  }

  /** `util.format("https://%s.internetofthings.ibmcloud.com/api/v0001", org)`. */
  function ApiBase(org: string): string {
    "https://" + org + ".internetofthings.ibmcloud.com/api/v0001"
  }

  /** `'/' + p` for each path element `p`, in order. */
  function PathSuffix(paths: seq<string>): string {
    if paths == [] then "" else PathSuffix(paths[..|paths| - 1]) + "/" + paths[|paths| - 1]
  }

  /** The suffix of a path list is the suffixes of its parts, one after the other. */
  lemma {:induction false} PathSuffixAppend(a: seq<string>, b: seq<string>)
    ensures PathSuffix(a + b) == PathSuffix(a) + PathSuffix(b)
    decreases |b|
  {
    if b != [] {
      var b' := b[..|b| - 1];
      assert (a + b)[..|a + b| - 1] == a + b';
      PathSuffixAppend(a, b');
    } else {
      assert a + b == a;
    }
  }

  /** Each element becomes exactly one level: the suffix begins with the first element's level. */
  lemma PathSuffixCons(p: string, rest: seq<string>)
    ensures PathSuffix([p] + rest) == "/" + p + PathSuffix(rest)
  {
    PathSuffixAppend([p], rest);
    assert [p][..0] == [];
  }

  /** The URI of the device-details request names the device type and id as two levels. */
  lemma DeviceDetailsUri(org: string, deviceType: string, deviceId: string)
    ensures ApiBase(org) + PathSuffix(["devices", deviceType, deviceId])
            == ApiBase(org) + "/devices/" + deviceType + "/" + deviceId
  {
    var ps := ["devices", deviceType, deviceId];
    assert ps[..2] == ["devices", deviceType];
    assert ps[..2][..1] == ["devices"];
    assert ps[..2][..1][..0] == [];
    assert PathSuffix(["devices"]) == "/devices";
  }
}
