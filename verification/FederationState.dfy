/** The process-wide federation transport as a state machine
    (backend/agent-manager.ts, lines 61-124, 222-237, 262-330, 447-631). */
module FederationState {
  import opened Common

  type Endpoint = string
  type ClientId = nat
  type SocketId = nat

  /** A parsed URL; `host` is its endpoint. */
  datatype Url = Url(host: Endpoint, text: string)

  datatype Config = Config(url: Url, username: string, password: string, suppressOfflineAlerts: bool)

  /** What a client was created with, as its callbacks remember it. */
  datatype Client = Client(endpoint: Endpoint, url: Url, username: string, password: string)

  datatype Notice = Alert(endpoint: Endpoint) | LoggedIn(endpoint: Endpoint) | Forgotten(endpoint: Endpoint)

  const FAILURE_THRESHOLD: nat := 6

  datatype State = State(
    clients: map<Endpoint, ClientId>,
    loggedIn: map<Endpoint, bool>,
    failures: map<Endpoint, nat>,
    timers: set<Endpoint>,
    configs: map<Endpoint, Config>,
    incidents: set<Endpoint>,
    authFailures: set<Endpoint>,
    reverseSockets: map<Endpoint, SocketId>,
    reverseEndpoints: set<Endpoint>,
    created: seq<Client>,              // every client ever created; its index is its identity
    connected: set<ClientId>,          // clients whose transport is up
    attached: map<SocketId, Endpoint>, // endpoint under which a reverse socket was attached
    reverseConnected: set<SocketId>,
    notices: seq<Notice>)

  datatype Event =
    | Connect(config: Config)
    | Disconnect(endpoint: Endpoint)
    | ClientUp(client: ClientId)
    | LoginAnswer(client: ClientId, ok: bool)
    | ConnectError(client: ClientId)
    | ReconnectFailed(client: ClientId)
    | ClientDown(client: ClientId)
    | VersionInfo(client: ClientId, supported: bool)
    | TimerFires(endpoint: Endpoint)
    | AttachReverse(endpoint: Endpoint, socket: SocketId)
    | ReverseDown(socket: SocketId)
    | AddReverse(endpoint: Endpoint)

  const INITIAL := State(map[], map[], map[], {}, map[], {}, {}, map[], {}, [], {}, map[], {}, [])

  // --------------------------------------------------------------- transitions

  predicate SameCredentials(a: Config, b: Config) {
    a.url == b.url && a.username == b.username && a.password == b.password
  }

  function FailureCount(s: State, e: Endpoint): nat {
    if e in s.failures then s.failures[e] else 0
  }

  function Down(connected: set<ClientId>, clients: map<Endpoint, ClientId>, e: Endpoint): set<ClientId> {
    if e in clients then connected - {clients[e]} else connected
  }

  /** Forget the current client of `e` and disconnect it. */
  function DropClient(s: State, e: Endpoint): State {
    s.(clients := s.clients - {e}, loggedIn := s.loggedIn - {e}, connected := Down(s.connected, s.clients, e))
  }

  function DropReverse(s: State, e: Endpoint): State {
    s.(reverseConnected := if e in s.reverseSockets then s.reverseConnected - {s.reverseSockets[e]} else s.reverseConnected,
       reverseSockets := s.reverseSockets - {e},
       reverseEndpoints := s.reverseEndpoints - {e})
  }

  function ForgetEndpoint(s: State, e: Endpoint): State {
    s.(timers := s.timers - {e},
       failures := s.failures - {e},
       configs := s.configs - {e},
       incidents := s.incidents - {e},
       notices := s.notices + [Forgotten(e)])
  }

  function DoDisconnect(s: State, e: Endpoint): State {
    ForgetEndpoint(DropClient(DropReverse(s, e), e), e)
  }

  /** A stored config with other credentials is disconnected first. */
  function Supersede(s: State, config: Config): State {
    var e := config.url.host;
    if e in s.configs && !SameCredentials(s.configs[e], config) then DoDisconnect(s, e) else s
  }

  function StoreConfig(s: State, config: Config): State {
    s.(configs := s.configs[config.url.host := config])
  }

  /** Create a client unless there is one or a retry is pending. */
  function EnsureClient(s: State, config: Config): State {
    var e := config.url.host;
    if e in s.timers || e in s.clients then s
    else s.(created := s.created + [Client(e, config.url, config.username, config.password)],
            clients := s.clients[e := |s.created|])
  }

  function DoConnect(s: State, config: Config): State {
    if config.url.host == "" then s else EnsureClient(StoreConfig(Supersede(s, config), config), config)
  }

  function OpenCircuit(s: State, e: Endpoint): State {
    if e in s.timers || e !in s.configs then s
    else
      var alert := !s.configs[e].suppressOfflineAlerts && e !in s.incidents;
      DropClient(s, e).(
        incidents := if alert then s.incidents + {e} else s.incidents,
        notices := if alert then s.notices + [Alert(e)] else s.notices,
        timers := s.timers + {e})
  }

  /** `sharedAgentSocketList[endpoint] === client` */
  predicate Current(s: State, c: ClientId) {
    c < |s.created| && s.created[c].endpoint in s.clients && s.clients[s.created[c].endpoint] == c
  }

  function OnLogin(s: State, c: ClientId, ok: bool): State
    requires c < |s.created|
  {
    var e := s.created[c].endpoint;
    if !Current(s, c) then s
    else if ok then
      s.(authFailures := s.authFailures - {e}, failures := s.failures[e := 0], loggedIn := s.loggedIn[e := true],
         incidents := s.incidents - {e}, notices := s.notices + [LoggedIn(e)])
    else DropClient(s.(authFailures := s.authFailures + {e}), e)
  }

  function OnConnectError(s: State, c: ClientId): State
    requires c < |s.created|
  {
    var e := s.created[c].endpoint;
    if !Current(s, c) then s
    else
      var n := FailureCount(s, e) + 1;
      var s := s.(failures := s.failures[e := n]);
      if n >= FAILURE_THRESHOLD then OpenCircuit(s, e) else s
  }

  function OnTimer(s: State, e: Endpoint): State {
    if e !in s.timers then s
    else
      var s := s.(timers := s.timers - {e}, failures := s.failures[e := 0]);
      if e in s.configs then DoConnect(s, s.configs[e]) else s
  }

  function DoAttachReverse(s: State, e: Endpoint, socket: SocketId): State {
    if socket in s.attached then s
    else
      s.(reverseSockets := s.reverseSockets[e := socket],
         reverseEndpoints := s.reverseEndpoints + {e},
         attached := s.attached[socket := e],
         reverseConnected := (if e in s.reverseSockets then s.reverseConnected - {s.reverseSockets[e]} else s.reverseConnected) + {socket})
  }

  function OnReverseDown(s: State, socket: SocketId): State {
    if socket !in s.attached then s
    else
      var e := s.attached[socket];
      s.(reverseConnected := s.reverseConnected - {socket},
         reverseSockets := if e in s.reverseSockets && s.reverseSockets[e] == socket then s.reverseSockets - {e} else s.reverseSockets)
  }

  function Step(s: State, event: Event): State {
    match event
    case Connect(config) => DoConnect(s, config)
    case Disconnect(e) => DoDisconnect(s, e)
    case ClientUp(c) => if c < |s.created| then s.(connected := s.connected + {c}) else s
    case LoginAnswer(c, ok) => if c < |s.created| then OnLogin(s, c, ok) else s
    case ConnectError(c) => if c < |s.created| then OnConnectError(s, c) else s
    case ReconnectFailed(c) => if Current(s, c) then OpenCircuit(s, s.created[c].endpoint) else s
    case ClientDown(c) =>
      var t := s.(connected := s.connected - {c});
      if Current(s, c) then t.(loggedIn := s.loggedIn[s.created[c].endpoint := false]) else t
    case VersionInfo(c, supported) => if Current(s, c) && !supported then DropClient(s, s.created[c].endpoint) else s
    case TimerFires(e) => OnTimer(s, e)
    case AttachReverse(e, socket) => DoAttachReverse(s, e, socket)
    case ReverseDown(socket) => OnReverseDown(s, socket)
    case AddReverse(e) => s.(reverseEndpoints := s.reverseEndpoints + {e})
  }

  function Run(s: State, events: seq<Event>): State {
    if events == [] then s else Step(Run(s, events[..|events| - 1]), events[|events| - 1])
  }

  // ---------------------------------------------------------- what users observe

  datatype Status = Connecting | Online | Offline

  datatype Failure = Authentication | Unreachable

  predicate ReverseUp(s: State, e: Endpoint) {
    e in s.reverseSockets && s.reverseSockets[e] in s.reverseConnected
  }

  predicate ClientReady(s: State, e: Endpoint) {
    e in s.clients && s.clients[e] in s.connected && e in s.loggedIn && s.loggedIn[e]
  }

  function StatusFor(s: State, e: Endpoint): Status {
    if e in s.reverseEndpoints then (if ReverseUp(s, e) then Online else Offline)
    else if ClientReady(s, e) then Online
    else if e in s.clients && e !in s.timers then Connecting
    else Offline
  }

  function ConnectionFailure(s: State, e: Endpoint): Option<Failure> {
    if e in s.reverseEndpoints then (if ReverseUp(s, e) then None else Some(Unreachable))
    else if e in s.authFailures then Some(Authentication)
    else if ClientReady(s, e) then None
    else Some(Unreachable)
  }

  // ------------------------------------------------------------------ invariant

  ghost predicate TransportOk(s: State, e: Endpoint) {
    && (e in s.timers ==> e !in s.clients)
    && (e in s.timers || e in s.clients ==> e in s.configs)
    && (e in s.configs ==> e == s.configs[e].url.host && e != "")
    && (e in s.loggedIn ==> e in s.clients)
    && (e in s.loggedIn && s.loggedIn[e] ==> e !in s.authFailures)
  }

  /** Only an open circuit may hold a full failure count. */
  ghost predicate CountOk(s: State, e: Endpoint) {
    e !in s.timers ==> FailureCount(s, e) < FAILURE_THRESHOLD
  }

  ghost predicate ClientMatchesConfig(s: State, e: Endpoint)
    requires e in s.clients && e in s.configs
  {
    var c := s.clients[e];
    c < |s.created| && s.created[c] == Client(e, s.configs[e].url, s.configs[e].username, s.configs[e].password)
  }

  ghost predicate ClientOk(s: State, e: Endpoint) {
    e in s.clients && e in s.configs ==> ClientMatchesConfig(s, e)
  }

  ghost predicate ReverseOk(s: State, e: Endpoint) {
    e in s.reverseSockets ==>
      && e in s.reverseEndpoints
      && s.reverseSockets[e] in s.reverseConnected
      && s.reverseSockets[e] in s.attached && s.attached[s.reverseSockets[e]] == e
  }

  ghost predicate EntryOk(s: State, e: Endpoint, exempt: set<Endpoint>) {
    TransportOk(s, e) && ClientOk(s, e) && ReverseOk(s, e) && (e !in exempt ==> CountOk(s, e))
  }

  /** The invariant, without the bound on the failure counts of some endpoints. */
  ghost predicate InvBut(s: State, exempt: set<Endpoint>) {
    forall e :: EntryOk(s, e, exempt)
  }

  ghost predicate Inv(s: State) {
    InvBut(s, {})
  }

  lemma DropClientKeepsInv(s: State, e: Endpoint, exempt: set<Endpoint>)
    requires InvBut(s, exempt)
    ensures InvBut(DropClient(s, e), exempt)
  {
    var t := DropClient(s, e);
    forall f ensures EntryOk(t, f, exempt) {
      assert EntryOk(s, f, exempt);
    }
  }

  lemma DisconnectKeepsInv(s: State, e: Endpoint, exempt: set<Endpoint>)
    requires InvBut(s, exempt)
    ensures InvBut(DoDisconnect(s, e), exempt)
  {
    var t := DoDisconnect(s, e);
    forall f ensures EntryOk(t, f, exempt) {
      assert EntryOk(s, f, exempt);
      assert EntryOk(s, e, exempt);
    }
  }

  lemma StoreConfigKeepsInv(s: State, config: Config, exempt: set<Endpoint>)
    requires InvBut(s, exempt) && config.url.host != ""
    requires config.url.host in s.configs ==> SameCredentials(s.configs[config.url.host], config)
    ensures InvBut(StoreConfig(s, config), exempt)
  {
    var t := StoreConfig(s, config);
    forall f ensures EntryOk(t, f, exempt) {
      assert EntryOk(s, f, exempt);
    }
  }

  lemma EnsureClientKeepsInv(s: State, config: Config, exempt: set<Endpoint>)
    requires InvBut(s, exempt) && config.url.host in s.configs && s.configs[config.url.host] == config
    ensures InvBut(EnsureClient(s, config), exempt)
  {
    var t := EnsureClient(s, config);
    forall f ensures EntryOk(t, f, exempt) {
      assert EntryOk(s, f, exempt);
    }
  }

  lemma ConnectKeepsInv(s: State, config: Config, exempt: set<Endpoint>)
    requires InvBut(s, exempt)
    ensures InvBut(DoConnect(s, config), exempt)
  {
    if config.url.host != "" {
      DisconnectKeepsInv(s, config.url.host, exempt);
      StoreConfigKeepsInv(Supersede(s, config), config, exempt);
      EnsureClientKeepsInv(StoreConfig(Supersede(s, config), config), config, exempt);
    }
  }

  /** The circuit may be opened with the failure count already at the threshold. */
  lemma OpenCircuitKeepsInv(s: State, e: Endpoint, n: nat, exempt: set<Endpoint>)
    requires InvBut(s, exempt) && e in s.clients
    ensures InvBut(OpenCircuit(s.(failures := s.failures[e := n]), e), exempt)
    ensures InvBut(OpenCircuit(s, e), exempt)
  {
    var t, u := OpenCircuit(s.(failures := s.failures[e := n]), e), OpenCircuit(s, e);
    assert EntryOk(s, e, exempt);
    forall f ensures EntryOk(t, f, exempt) && EntryOk(u, f, exempt) {
      assert EntryOk(s, f, exempt);
    }
  }

  lemma LoginKeepsInv(s: State, c: ClientId, ok: bool, exempt: set<Endpoint>)
    requires InvBut(s, exempt) && c < |s.created|
    ensures InvBut(OnLogin(s, c, ok), exempt)
  {
    var t := OnLogin(s, c, ok);
    forall f ensures EntryOk(t, f, exempt) {
      assert EntryOk(s, f, exempt);
    }
  }

  lemma ConnectErrorKeepsInv(s: State, c: ClientId, exempt: set<Endpoint>)
    requires InvBut(s, exempt) && c < |s.created|
    ensures InvBut(OnConnectError(s, c), exempt)
  {
    var e := s.created[c].endpoint;
    if Current(s, c) {
      var n := FailureCount(s, e) + 1;
      if n >= FAILURE_THRESHOLD {
        OpenCircuitKeepsInv(s, e, n, exempt);
      } else {
        var t := s.(failures := s.failures[e := n]);
        forall f ensures EntryOk(t, f, exempt) {
          assert EntryOk(s, f, exempt);
        }
      }
    }
  }

  lemma TimerKeepsInv(s: State, e: Endpoint, exempt: set<Endpoint>)
    requires InvBut(s, exempt)
    ensures InvBut(OnTimer(s, e), exempt)
  {
    if e in s.timers {
      var t := s.(timers := s.timers - {e}, failures := s.failures[e := 0]);
      forall f ensures EntryOk(t, f, exempt) {
        assert EntryOk(s, f, exempt);
      }
      if e in t.configs {
        ConnectKeepsInv(t, t.configs[e], exempt);
      }
    }
  }

  lemma FlagsKeepInv(s: State, c: ClientId, up: bool, exempt: set<Endpoint>)
    requires InvBut(s, exempt)
    ensures InvBut(s.(connected := if up then s.connected + {c} else s.connected - {c}), exempt)
    ensures Current(s, c) ==> InvBut(s.(connected := s.connected - {c}, loggedIn := s.loggedIn[s.created[c].endpoint := false]), exempt)
  {
    var t := s.(connected := if up then s.connected + {c} else s.connected - {c});
    forall f ensures EntryOk(t, f, exempt) {
      assert EntryOk(s, f, exempt);
    }
    if Current(s, c) {
      var u := s.(connected := s.connected - {c}, loggedIn := s.loggedIn[s.created[c].endpoint := false]);
      forall f ensures EntryOk(u, f, exempt) {
        assert EntryOk(s, f, exempt);
      }
    }
  }

  lemma ReverseEventsKeepInv(s: State, t: State, exempt: set<Endpoint>)
    requires InvBut(s, exempt)
    requires t == s.(reverseSockets := t.reverseSockets, reverseEndpoints := t.reverseEndpoints,
                     attached := t.attached, reverseConnected := t.reverseConnected)
    requires forall e :: ReverseOk(t, e)
    ensures InvBut(t, exempt)
  {
    forall f ensures EntryOk(t, f, exempt) {
      assert EntryOk(s, f, exempt) && ReverseOk(t, f);
    }
  }

  lemma AttachKeepsInv(s: State, e: Endpoint, socket: SocketId, exempt: set<Endpoint>)
    requires InvBut(s, exempt)
    ensures InvBut(DoAttachReverse(s, e, socket), exempt)
  {
    var t := DoAttachReverse(s, e, socket);
    forall f ensures ReverseOk(t, f) {
      assert EntryOk(s, f, exempt) && EntryOk(s, e, exempt);
    }
    ReverseEventsKeepInv(s, t, exempt);
  }

  lemma ReverseDownKeepsInv(s: State, socket: SocketId, exempt: set<Endpoint>)
    requires InvBut(s, exempt)
    ensures InvBut(OnReverseDown(s, socket), exempt)
  {
    var t := OnReverseDown(s, socket);
    forall f ensures ReverseOk(t, f) {
      assert EntryOk(s, f, exempt);
    }
    ReverseEventsKeepInv(s, t, exempt);
  }

  lemma AddReverseKeepsInv(s: State, e: Endpoint, exempt: set<Endpoint>)
    requires InvBut(s, exempt)
    ensures InvBut(s.(reverseEndpoints := s.reverseEndpoints + {e}), exempt)
  {
    var t := s.(reverseEndpoints := s.reverseEndpoints + {e});
    forall f ensures ReverseOk(t, f) {
      assert EntryOk(s, f, exempt);
    }
    ReverseEventsKeepInv(s, t, exempt);
  }

  lemma StepKeepsInvBut(s: State, event: Event, exempt: set<Endpoint>)
    requires InvBut(s, exempt)
    ensures InvBut(Step(s, event), exempt)
  {
    match event
    case Connect(config) => ConnectKeepsInv(s, config, exempt);
    case Disconnect(e) => DisconnectKeepsInv(s, e, exempt);
    case LoginAnswer(c, ok) => if c < |s.created| { LoginKeepsInv(s, c, ok, exempt); }
    case ConnectError(c) => if c < |s.created| { ConnectErrorKeepsInv(s, c, exempt); }
    case ReconnectFailed(c) => if Current(s, c) { OpenCircuitKeepsInv(s, s.created[c].endpoint, 0, exempt); }
    case VersionInfo(c, supported) => if Current(s, c) { DropClientKeepsInv(s, s.created[c].endpoint, exempt); }
    case TimerFires(e) => TimerKeepsInv(s, e, exempt);
    case ClientUp(c) => FlagsKeepInv(s, c, true, exempt);
    case ClientDown(c) => FlagsKeepInv(s, c, false, exempt);
    case AttachReverse(e, socket) => AttachKeepsInv(s, e, socket, exempt);
    case ReverseDown(socket) => ReverseDownKeepsInv(s, socket, exempt);
    case AddReverse(e) => AddReverseKeepsInv(s, e, exempt);
  }

  lemma {:induction false} RunKeepsInvBut(s: State, events: seq<Event>, exempt: set<Endpoint>)
    requires InvBut(s, exempt)
    ensures InvBut(Run(s, events), exempt)
  {
    if events == [] {
    } else {
      RunKeepsInvBut(s, events[..|events| - 1], exempt);
      StepKeepsInvBut(Run(s, events[..|events| - 1]), events[|events| - 1], exempt);
    }
  }

  lemma StepKeepsInv(s: State, event: Event)
    requires Inv(s)
    ensures Inv(Step(s, event))
  {
    StepKeepsInvBut(s, event, {});
  }

  lemma RunKeepsInv(s: State, events: seq<Event>)
    requires Inv(s)
    ensures Inv(Run(s, events))
  {
    RunKeepsInvBut(s, events, {});
  }

  // ---------------------------------------------------------------- main results

  /** In every reachable state, for every endpoint: a pending retry excludes a client, clients and
      retries have a stored config, a login has a client, a present client is below the failure
      threshold, and it was created with exactly the credentials stored now. */
  lemma ReachableTransport(events: seq<Event>, e: Endpoint)
    ensures var s := Run(INITIAL, events);
            && (e in s.timers ==> e !in s.clients)
            && (e in s.timers || e in s.clients ==> e in s.configs)
            && (e in s.loggedIn ==> e in s.clients)
            && (e in s.clients ==> FailureCount(s, e) < FAILURE_THRESHOLD && ClientMatchesConfig(s, e))
  {
    RunKeepsInv(INITIAL, events);
    var s := Run(INITIAL, events);
    assert EntryOk(s, e, {});
  }

  /** No failure is reported exactly when the endpoint is shown as online. */
  lemma NoFailureIffOnline(events: seq<Event>, e: Endpoint)
    ensures var s := Run(INITIAL, events);
            ConnectionFailure(s, e).None? <==> StatusFor(s, e) == Online
  {
    RunKeepsInv(INITIAL, events);
    assert EntryOk(Run(INITIAL, events), e, {});
  }

  /** A callback of a client that is no longer current changes nothing but that client's own flag. */
  lemma SupersededClientIsInert(s: State, event: Event)
    requires event.ClientUp? || event.LoginAnswer? || event.ConnectError? || event.ReconnectFailed? || event.ClientDown? || event.VersionInfo?
    requires !Current(s, event.client)
    ensures Step(s, event).(connected := s.connected) == s
    ensures forall c | c != event.client :: c in Step(s, event).connected <==> c in s.connected
  {
  }

  /** Once superseded, a client never becomes current again. */
  lemma {:induction false} SupersededForever(s: State, events: seq<Event>, c: ClientId)
    requires Inv(s) && c < |s.created| && !Current(s, c)
    ensures c < |Run(s, events).created| && Run(s, events).created[c] == s.created[c] && !Current(Run(s, events), c)
  {
    if events == [] {
    } else {
      var front := events[..|events| - 1];
      SupersededForever(s, front, c);
      RunKeepsInv(s, front);
      StepNeverRevives(Run(s, front), events[|events| - 1], c);
    }
  }

  /** `t` is reached from `s` without making an old client current. */
  ghost predicate NoRevival(s: State, t: State) {
    && s.created <= t.created
    && forall e | e in t.clients :: (e in s.clients && t.clients[e] == s.clients[e]) || t.clients[e] >= |s.created|
  }

  lemma DropNoRevival(s: State, e: Endpoint)
    ensures NoRevival(s, DropClient(s, e)) && NoRevival(s, DoDisconnect(s, e)) && NoRevival(s, OpenCircuit(s, e))
  {
  }

  lemma EnsureClientNoRevival(s: State, t: State, config: Config)
    requires NoRevival(s, t)
    ensures NoRevival(s, EnsureClient(StoreConfig(t, config), config))
  {
  }

  lemma ConnectNoRevival(s: State, config: Config)
    ensures NoRevival(s, DoConnect(s, config))
  {
    DropNoRevival(s, config.url.host);
    EnsureClientNoRevival(s, Supersede(s, config), config);
  }

  lemma TimerNoRevival(s: State, e: Endpoint)
    ensures NoRevival(s, OnTimer(s, e))
  {
    if e in s.timers && e in s.configs {
      ConnectNoRevival(s.(timers := s.timers - {e}, failures := s.failures[e := 0]), s.configs[e]);
    }
  }

  lemma ConnectErrorNoRevival(s: State, c: ClientId)
    requires c < |s.created|
    ensures NoRevival(s, OnConnectError(s, c))
  {
    var e := s.created[c].endpoint;
    DropNoRevival(s.(failures := s.failures[e := FailureCount(s, e) + 1]), e);
  }

  lemma LoginNoRevival(s: State, c: ClientId, ok: bool)
    requires c < |s.created|
    ensures NoRevival(s, OnLogin(s, c, ok))
  {
    var e := s.created[c].endpoint;
    DropNoRevival(s.(authFailures := s.authFailures + {e}), e);
  }

  lemma ReverseNoRevival(s: State, event: Event)
    requires event.AttachReverse? || event.ReverseDown? || event.AddReverse? || event.ClientUp? || event.ClientDown?
    ensures NoRevival(s, Step(s, event))
  {
  }

  lemma StepNoRevival(s: State, event: Event)
    ensures NoRevival(s, Step(s, event))
  {
    match event
    case Connect(config) => ConnectNoRevival(s, config);
    case Disconnect(e) => DropNoRevival(s, e);
    case TimerFires(e) => TimerNoRevival(s, e);
    case LoginAnswer(c, ok) => if c < |s.created| { LoginNoRevival(s, c, ok); }
    case ConnectError(c) => if c < |s.created| { ConnectErrorNoRevival(s, c); }
    case ReconnectFailed(c) => if Current(s, c) { DropNoRevival(s, s.created[c].endpoint); }
    case VersionInfo(c, _) => if Current(s, c) { DropNoRevival(s, s.created[c].endpoint); }
    case _ => ReverseNoRevival(s, event);
  }

  lemma StepNeverRevives(s: State, event: Event, c: ClientId)
    requires c < |s.created| && !Current(s, c)
    ensures c < |Step(s, event).created| && Step(s, event).created[c] == s.created[c] && !Current(Step(s, event), c)
  {
    StepNoRevival(s, event);
  }

  // -------------------------------------------------------- one endpoint at a time

  ghost predicate SameAt<T>(a: map<Endpoint, T>, b: map<Endpoint, T>, e: Endpoint) {
    (e in a <==> e in b) && (e in a ==> a[e] == b[e])
  }

  /** The two states keep the same information about endpoint `e`. */
  ghost predicate SameEntry(s: State, t: State, e: Endpoint) {
    && SameAt(s.clients, t.clients, e) && SameAt(s.loggedIn, t.loggedIn, e) && SameAt(s.failures, t.failures, e)
    && SameAt(s.configs, t.configs, e) && SameAt(s.reverseSockets, t.reverseSockets, e)
    && (e in s.timers <==> e in t.timers) && (e in s.incidents <==> e in t.incidents)
    && (e in s.authFailures <==> e in t.authFailures) && (e in s.reverseEndpoints <==> e in t.reverseEndpoints)
  }

  function Concerns(s: State, event: Event): Option<Endpoint> {
    match event
    case Connect(config) => Some(config.url.host)
    case Disconnect(e) => Some(e)
    case TimerFires(e) => Some(e)
    case AttachReverse(e, _) => Some(e)
    case AddReverse(e) => Some(e)
    case ReverseDown(socket) => if socket in s.attached then Some(s.attached[socket]) else None
    case _ => if event.client < |s.created| then Some(s.created[event.client].endpoint) else None
  }

  lemma DropClientConcernsOne(s: State, f: Endpoint, e: Endpoint)
    requires f != e
    ensures SameEntry(s, DropClient(s, f), e)
  {
  }

  lemma OpenCircuitConcernsOne(s: State, f: Endpoint, e: Endpoint)
    requires f != e
    ensures SameEntry(s, OpenCircuit(s, f), e)
  {
    DropClientConcernsOne(s, f, e);
    SameEntryTransitive(s, DropClient(s, f), OpenCircuit(s, f), e);
  }

  lemma DisconnectConcernsOne(s: State, f: Endpoint, e: Endpoint)
    requires f != e
    ensures SameEntry(s, DoDisconnect(s, f), e)
  {
  }

  lemma SameEntryTransitive(s: State, t: State, u: State, e: Endpoint)
    requires SameEntry(s, t, e) && SameEntry(t, u, e)
    ensures SameEntry(s, u, e)
  {
  }

  lemma SupersedeConcernsOne(s: State, config: Config, e: Endpoint)
    requires config.url.host != e
    ensures SameEntry(s, Supersede(s, config), e)
  {
    DisconnectConcernsOne(s, config.url.host, e);
  }

  lemma StoreConfigConcernsOne(s: State, config: Config, e: Endpoint)
    requires config.url.host != e
    ensures SameEntry(s, StoreConfig(s, config), e)
  {
  }

  lemma EnsureClientConcernsOne(s: State, config: Config, e: Endpoint)
    requires config.url.host != e
    ensures SameEntry(s, EnsureClient(s, config), e)
  {
  }

  lemma ChainConcernsOne(s: State, t: State, config: Config, e: Endpoint)
    requires SameEntry(s, t, e) && config.url.host != e
    ensures SameEntry(s, EnsureClient(StoreConfig(t, config), config), e)
  {
    StoreConfigConcernsOne(t, config, e);
    SameEntryTransitive(s, t, StoreConfig(t, config), e);
    EnsureClientConcernsOne(StoreConfig(t, config), config, e);
    SameEntryTransitive(s, StoreConfig(t, config), EnsureClient(StoreConfig(t, config), config), e);
  }

  lemma ConnectConcernsItsHost(s: State, config: Config, e: Endpoint)
    requires config.url.host != e
    ensures SameEntry(s, DoConnect(s, config), e)
  {
    SupersedeConcernsOne(s, config, e);
    ChainConcernsOne(s, Supersede(s, config), config, e);
  }

  lemma ReverseConcernsOne(s: State, f: Endpoint, socket: SocketId, e: Endpoint)
    ensures f != e ==> SameEntry(s, DoAttachReverse(s, f, socket), e)
    ensures socket !in s.attached || s.attached[socket] != e ==> SameEntry(s, OnReverseDown(s, socket), e)
  {
  }

  lemma LoginConcernsOne(s: State, c: ClientId, ok: bool, e: Endpoint)
    requires c < |s.created| && s.created[c].endpoint != e
    ensures SameEntry(s, OnLogin(s, c, ok), e)
  {
    if Current(s, c) && !ok {
      RefusalConcernsOne(s, s.created[c].endpoint, e);
    }
  }

  lemma RefusalConcernsOne(s: State, f: Endpoint, e: Endpoint)
    requires f != e
    ensures SameEntry(s, DropClient(s.(authFailures := s.authFailures + {f}), f), e)
  {
    var t := s.(authFailures := s.authFailures + {f});
    DropClientConcernsOne(t, f, e);
    SameEntryTransitive(s, t, DropClient(t, f), e);
  }

  lemma CountConcernsOne(s: State, f: Endpoint, n: nat, e: Endpoint)
    requires f != e
    ensures SameEntry(s, s.(failures := s.failures[f := n]), e)
  {
  }

  lemma ConnectErrorConcernsOne(s: State, c: ClientId, e: Endpoint)
    requires c < |s.created| && s.created[c].endpoint != e
    ensures SameEntry(s, OnConnectError(s, c), e)
  {
    if Current(s, c) {
      var f := s.created[c].endpoint;
      var n := FailureCount(s, f) + 1;
      var t := s.(failures := s.failures[f := n]);
      CountConcernsOne(s, f, n, e);
      if n >= FAILURE_THRESHOLD {
        OpenCircuitConcernsOne(t, f, e);
        SameEntryTransitive(s, t, OpenCircuit(t, f), e);
      }
    }
  }

  lemma TimerConcernsItsEndpoint(s: State, f: Endpoint, e: Endpoint)
    requires Inv(s) && f != e
    ensures SameEntry(s, OnTimer(s, f), e)
  {
    assert EntryOk(s, f, {});
    if f in s.timers && f in s.configs {
      ConnectConcernsItsHost(s.(timers := s.timers - {f}, failures := s.failures[f := 0]), s.configs[f], e);
    }
  }

  lemma ClientDownConcernsOne(s: State, c: ClientId, e: Endpoint)
    requires c < |s.created| ==> s.created[c].endpoint != e
    ensures SameEntry(s, Step(s, ClientDown(c)), e)
  {
  }

  lemma FlagsConcernOne(s: State, event: Event, e: Endpoint)
    requires event.ClientUp? || event.AddReverse?
    requires Concerns(s, event) != Some(e)
    ensures SameEntry(s, Step(s, event), e)
  {
  }

  lemma ClientEventsConcernOne(s: State, event: Event, e: Endpoint)
    requires event.LoginAnswer? || event.ConnectError? || event.ReconnectFailed? || event.VersionInfo?
    requires event.client < |s.created| && s.created[event.client].endpoint != e
    ensures SameEntry(s, Step(s, event), e)
  {
    match event
    case LoginAnswer(c, ok) => LoginConcernsOne(s, c, ok, e);
    case ConnectError(c) => ConnectErrorConcernsOne(s, c, e);
    case ReconnectFailed(c) => OpenCircuitConcernsOne(s, s.created[c].endpoint, e);
    case VersionInfo(c, _) => DropClientConcernsOne(s, s.created[c].endpoint, e);
  }

  /** No event of one endpoint disturbs another. */
  lemma EndpointsAreIndependent(s: State, event: Event, e: Endpoint)
    requires Inv(s) && Concerns(s, event) != Some(e)
    ensures SameEntry(s, Step(s, event), e)
  {
    match event
    case Connect(config) => ConnectConcernsItsHost(s, config, e);
    case Disconnect(f) => DisconnectConcernsOne(s, f, e);
    case AttachReverse(f, socket) => ReverseConcernsOne(s, f, socket, e);
    case ReverseDown(socket) => ReverseConcernsOne(s, "", socket, e);
    case TimerFires(f) => TimerConcernsItsEndpoint(s, f, e);
    case ClientUp(_) => FlagsConcernOne(s, event, e);
    case ClientDown(c) => ClientDownConcernsOne(s, c, e);
    case AddReverse(_) => FlagsConcernOne(s, event, e);
    case _ => if event.client < |s.created| { ClientEventsConcernOne(s, event, e); }
  }

  // ---------------------------------------------------------- availability alerts

  /** The latest alert for `e` has been followed by neither a login nor a disconnect. */
  ghost predicate AlertOpen(notices: seq<Notice>, e: Endpoint) {
    notices != [] &&
    var last := notices[|notices| - 1];
    if last.endpoint == e then last.Alert? else AlertOpen(notices[..|notices| - 1], e)
  }

  ghost predicate AlertsSeparated(notices: seq<Notice>) {
    notices == [] ||
    var front, last := notices[..|notices| - 1], notices[|notices| - 1];
    && AlertsSeparated(front)
    && (last.Alert? ==> !AlertOpen(front, last.endpoint))
  }

  ghost predicate AlertsTracked(s: State) {
    && (forall e :: e in s.incidents <==> AlertOpen(s.notices, e))
    && AlertsSeparated(s.notices)
  }

  lemma AddNotice(notices: seq<Notice>, n: Notice)
    ensures forall e :: AlertOpen(notices + [n], e) <==> if n.endpoint == e then n.Alert? else AlertOpen(notices, e)
    ensures AlertsSeparated(notices + [n]) <==> AlertsSeparated(notices) && (n.Alert? ==> !AlertOpen(notices, n.endpoint))
  {
    assert (notices + [n])[..|notices|] == notices;
  }

  /** `t` adds at most one notice to `s`, and an alert only for an endpoint whose circuit opens,
      without an open alert and without suppression. */
  ghost predicate Notifies(s: State, t: State) {
    || (t.notices == s.notices && t.incidents == s.incidents)
    || (|t.notices| == |s.notices| + 1 && t.notices == s.notices + [t.notices[|s.notices|]]
        && var last := t.notices[|s.notices|]; var e := last.endpoint;
           if last.Alert? then
             && t.incidents == s.incidents + {e} && e !in s.incidents
             && e in s.configs && !s.configs[e].suppressOfflineAlerts && e in t.timers && e !in s.timers
           else t.incidents == s.incidents - {e})
  }

  lemma ConnectNotifies(s: State, config: Config)
    ensures Notifies(s, DoConnect(s, config))
  {
  }

  lemma ConnectErrorNotifies(s: State, c: ClientId)
    requires c < |s.created|
    ensures Notifies(s, OnConnectError(s, c))
  {
  }

  lemma TimerNotifies(s: State, e: Endpoint)
    ensures Notifies(s, OnTimer(s, e))
  {
    if e in s.timers && e in s.configs {
      ConnectNotifies(s.(timers := s.timers - {e}, failures := s.failures[e := 0]), s.configs[e]);
    }
  }

  lemma LoginNotifies(s: State, c: ClientId, ok: bool)
    requires c < |s.created|
    ensures Notifies(s, OnLogin(s, c, ok))
  {
  }

  lemma OpenCircuitNotifies(s: State, e: Endpoint)
    ensures Notifies(s, OpenCircuit(s, e))
  {
  }

  lemma SocketsNotify(s: State, event: Event)
    requires event.ClientUp? || event.ClientDown? || event.AttachReverse? || event.ReverseDown? || event.AddReverse?
    ensures Step(s, event).notices == s.notices && Step(s, event).incidents == s.incidents
  {
    match event
    case ClientUp(c) =>
    case ClientDown(c) =>
    case AttachReverse(e, socket) =>
    case ReverseDown(socket) =>
    case AddReverse(e) =>
  }

  lemma StepNotifies(s: State, event: Event)
    ensures Notifies(s, Step(s, event))
  {
    match event
    case Connect(config) => ConnectNotifies(s, config);
    case Disconnect(e) =>
    case ConnectError(c) => if c < |s.created| { ConnectErrorNotifies(s, c); }
    case TimerFires(e) => TimerNotifies(s, e);
    case LoginAnswer(c, ok) => if c < |s.created| { LoginNotifies(s, c, ok); }
    case ReconnectFailed(c) => if Current(s, c) { OpenCircuitNotifies(s, s.created[c].endpoint); }
    case VersionInfo(_, _) =>
    case _ => SocketsNotify(s, event);
  }

  lemma {:induction false} AlertsAlwaysTracked(events: seq<Event>)
    ensures AlertsTracked(Run(INITIAL, events))
  {
    if events == [] {
    } else {
      var front := events[..|events| - 1];
      AlertsAlwaysTracked(front);
      var s, t := Run(INITIAL, front), Run(INITIAL, events);
      StepNotifies(s, events[|events| - 1]);
      if t.notices != s.notices {
        AddNotice(s.notices, t.notices[|s.notices|]);
      }
    }
  }

  lemma {:induction false} OpenUntilClosed(notices: seq<Notice>, i: nat, e: Endpoint)
    requires i < |notices| && notices[i] == Alert(e)
    requires forall k | i < k < |notices| :: notices[k] != LoggedIn(e) && notices[k] != Forgotten(e)
    ensures AlertOpen(notices, e)
  {
    if i == |notices| - 1 {
    } else {
      OpenUntilClosed(notices[..|notices| - 1], i, e);
    }
  }

  lemma {:induction false} SeparatedPrefix(notices: seq<Notice>, j: nat)
    requires AlertsSeparated(notices) && j <= |notices|
    ensures AlertsSeparated(notices[..j])
  {
    if j < |notices| {
      SeparatedPrefix(notices[..|notices| - 1], j);
      assert notices[..|notices| - 1][..j] == notices[..j];
    } else {
      assert notices[..j] == notices;
    }
  }

  lemma SeparatedMeans(notices: seq<Notice>, i: nat, j: nat, e: Endpoint)
    requires AlertsSeparated(notices) && i < j < |notices| && notices[i] == Alert(e) && notices[j] == Alert(e)
    ensures exists k :: i < k < j && (notices[k] == LoggedIn(e) || notices[k] == Forgotten(e))
  {
    if forall k | i < k < j :: notices[k] != LoggedIn(e) && notices[k] != Forgotten(e) {
      SeparatedPrefix(notices, j + 1);
      assert notices[..j + 1][..j] == notices[..j];
      OpenUntilClosed(notices[..j], i, e);
    }
  }

  /** Between two availability alerts for an endpoint it logged in or was disconnected. */
  lemma AlertsNeedRecovery(events: seq<Event>, i: nat, j: nat, e: Endpoint)
    requires var notices := Run(INITIAL, events).notices;
             i < j < |notices| && notices[i] == Alert(e) && notices[j] == Alert(e)
    ensures var notices := Run(INITIAL, events).notices;
            exists k :: i < k < j && (notices[k] == LoggedIn(e) || notices[k] == Forgotten(e))
  {
    AlertsAlwaysTracked(events);
    SeparatedMeans(Run(INITIAL, events).notices, i, j, e);
  }

  /** An alert is only emitted by opening a circuit whose stored config does not suppress it. */
  lemma SuppressedEndpointsAreSilent(s: State, event: Event, e: Endpoint)
    requires Step(s, event).notices == s.notices + [Alert(e)]
    ensures e in s.configs && !s.configs[e].suppressOfflineAlerts
    ensures e !in s.timers && e in Step(s, event).timers
  {
    StepNotifies(s, event);
    assert Step(s, event).notices[|s.notices|] == Alert(e);
  }

  // ---------------------------------------------------------------------- refresh

  /** A row of the agent table. */
  datatype StoredAgent = ReverseAgent(key: Endpoint) | DirectAgent(config: Config) {
    function Key(): Endpoint {
      if ReverseAgent? then key else config.url.host
    }
  }

  ghost predicate Gone(s: State, e: Endpoint) {
    e !in s.configs && e !in s.clients && e !in s.timers && e !in s.reverseEndpoints
  }

  /** What a refresh owes to a row: a direct agent has its stored config and a client or a pending
      retry, and an existing connection with the same credentials is left alone. */
  ghost predicate Settled(s: State, t: State, agent: StoredAgent) {
    var e := agent.Key();
    match agent
    case ReverseAgent(_) => e in t.reverseEndpoints && SameAt(s.reverseSockets, t.reverseSockets, e)
    case DirectAgent(config) =>
      && e in t.configs && t.configs[e] == config
      && (e in t.timers || e in t.clients)
      && (e in s.configs && SameCredentials(s.configs[e], config) ==>
            && (e in s.timers <==> e in t.timers)
            && (e in s.clients ==> e in t.clients && t.clients[e] == s.clients[e]))
  }

  lemma ConnectSettles(s: State, t: State, config: Config)
    requires Inv(t) && config.url.host != "" && SameEntry(s, t, config.url.host)
    ensures Settled(s, DoConnect(t, config), DirectAgent(config))
  {
  }

  lemma SettledIsLocal(s: State, t: State, u: State, agent: StoredAgent)
    requires Settled(s, t, agent) && SameEntry(t, u, agent.Key())
    ensures Settled(s, u, agent)
  {
  }

  lemma GoneIsLocal(t: State, u: State, e: Endpoint)
    requires Gone(t, e) && SameEntry(t, u, e)
    ensures Gone(u, e)
  {
  }

  lemma RunOneMore(s: State, events: seq<Event>, event: Event)
    ensures Run(s, events + [event]) == Step(Run(s, events), event)
  {
    assert (events + [event])[..|events|] == events;
  }
}
