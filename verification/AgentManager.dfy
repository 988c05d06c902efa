/** The imperative federation transport: static maps updated by methods and callbacks
    (backend/agent-manager.ts, lines 61-124, 143-199, 262-330, 447-631;
    backend/federation-health.ts, lines 55-77). Every method is the code between two awaits. */
module AgentManager {
  import opened Common
  import opened FederationState
  import opened FederationShutdown

  class FederationAvailabilityAlertTracker {
    var activeIncidents: set<Endpoint>

    constructor ()
      ensures activeIncidents == {}
    {
      activeIncidents := {};
    }

    method ShouldNotify(endpoint: Endpoint, suppressed: bool) returns (notify: bool)
      modifies this
      ensures notify <==> !suppressed && endpoint !in old(activeIncidents)
      ensures activeIncidents == if notify then old(activeIncidents) + {endpoint} else old(activeIncidents)
    {
      if suppressed || endpoint in activeIncidents {
        return false;
      }
      activeIncidents := activeIncidents + {endpoint};
      return true;
    }

    method MarkOnline(endpoint: Endpoint)
      modifies this
      ensures activeIncidents == old(activeIncidents) - {endpoint}
    {
      activeIncidents := activeIncidents - {endpoint};
    }

    method Forget(endpoint: Endpoint)
      modifies this
      ensures activeIncidents == old(activeIncidents) - {endpoint}
    {
      activeIncidents := activeIncidents - {endpoint};
    }
  }

  class AgentManager {
    const availabilityAlerts: FederationAvailabilityAlertTracker
    var agentSockets: map<Endpoint, ClientId>
    var agentLoggedIn: map<Endpoint, bool>
    var reconnectFailures: map<Endpoint, nat>
    var circuitRetryTimers: set<Endpoint>
    var configs: map<Endpoint, Config>
    var authenticationFailures: set<Endpoint>
    var reverseSockets: map<Endpoint, SocketId>
    var reverseEndpoints: set<Endpoint>
    // The sockets themselves.
    var created: seq<Client>
    var connected: set<ClientId>
    var attached: map<SocketId, Endpoint>
    var reverseConnected: set<SocketId>
    ghost var notices: seq<Notice>

    ghost function View(): State
      reads this, availabilityAlerts
    {
      State(agentSockets, agentLoggedIn, reconnectFailures, circuitRetryTimers, configs, availabilityAlerts.activeIncidents,
            authenticationFailures, reverseSockets, reverseEndpoints, created, connected, attached, reverseConnected, notices)
    }

    constructor ()
      ensures View() == INITIAL && fresh(availabilityAlerts)
    {
      availabilityAlerts := new FederationAvailabilityAlertTracker();
      agentSockets, agentLoggedIn, reconnectFailures, circuitRetryTimers := map[], map[], map[], {};
      configs, authenticationFailures, reverseSockets, reverseEndpoints := map[], {}, map[], {};
      created, connected, attached, reverseConnected, notices := [], {}, map[], {}, [];
    }

    /** Remove the current client of an endpoint and disconnect it. */
    method DropAgent(endpoint: Endpoint)
      modifies this
      ensures View() == DropClient(old(View()), endpoint)
    {
      var client := if endpoint in agentSockets then Some(agentSockets[endpoint]) else None;
      agentSockets := agentSockets - {endpoint};
      agentLoggedIn := agentLoggedIn - {endpoint};
      if client.Some? {
        connected := connected - {client.value};
      }
    }

    method DropReverseAgent(endpoint: Endpoint)
      modifies this
      ensures View() == DropReverse(old(View()), endpoint)
    {
      if endpoint in reverseSockets {
        reverseConnected := reverseConnected - {reverseSockets[endpoint]};
      }
      reverseSockets := reverseSockets - {endpoint};
      reverseEndpoints := reverseEndpoints - {endpoint};
    }

    method Disconnect(endpoint: Endpoint)
      modifies this, availabilityAlerts
      ensures View() == DoDisconnect(old(View()), endpoint)
    {
      DropReverseAgent(endpoint);
      DropAgent(endpoint);
      circuitRetryTimers := circuitRetryTimers - {endpoint};
      reconnectFailures := reconnectFailures - {endpoint};
      configs := configs - {endpoint};
      availabilityAlerts.Forget(endpoint);
      notices := notices + [Forgotten(endpoint)];
    }

    method OpenReconnectCircuit(endpoint: Endpoint)
      modifies this, availabilityAlerts
      ensures View() == OpenCircuit(old(View()), endpoint)
    {
      if endpoint in circuitRetryTimers {
        return;
      }
      if endpoint !in configs {
        return;
      }
      DropAgent(endpoint);
      var notify := availabilityAlerts.ShouldNotify(endpoint, configs[endpoint].suppressOfflineAlerts);
      if notify {
        notices := notices + [Alert(endpoint)];
      }
      circuitRetryTimers := circuitRetryTimers + {endpoint};
    }

    method Connect(config: Config)
      modifies this, availabilityAlerts
      ensures View() == DoConnect(old(View()), config)
    {
      var endpoint := config.url.host;
      if endpoint == "" {
        return;
      }
      if endpoint in configs && !SameCredentials(configs[endpoint], config) {
        Disconnect(endpoint);
      }
      configs := configs[endpoint := config];
      if endpoint in circuitRetryTimers {
        return;
      }
      if endpoint in agentSockets {
        return;
      }
      var client := |created|;
      created := created + [Client(endpoint, config.url, config.username, config.password)];
      agentSockets := agentSockets[endpoint := client];
    }

    predicate IsCurrent(endpoint: Endpoint, client: ClientId)
      reads this
    {
      endpoint in agentSockets && agentSockets[endpoint] == client
    }

    /** The answer to the login sent when the transport came up. */
    method OnLoginAnswer(client: ClientId, ok: bool)
      requires client < |created|
      modifies this, availabilityAlerts
      ensures View() == Step(old(View()), LoginAnswer(client, ok))
    {
      var endpoint := created[client].endpoint;
      if !IsCurrent(endpoint, client) {
        return;
      }
      if ok {
        authenticationFailures := authenticationFailures - {endpoint};
        reconnectFailures := reconnectFailures[endpoint := 0];
        agentLoggedIn := agentLoggedIn[endpoint := true];
        availabilityAlerts.MarkOnline(endpoint);
        notices := notices + [LoggedIn(endpoint)];
        return;
      }
      authenticationFailures := authenticationFailures + {endpoint};
      DropAgent(endpoint);
    }

    method OnConnectFailure(client: ClientId)
      requires client < |created|
      modifies this, availabilityAlerts
      ensures View() == Step(old(View()), ConnectError(client))
    {
      var endpoint := created[client].endpoint;
      if !IsCurrent(endpoint, client) {
        return;
      }
      var failures := (if endpoint in reconnectFailures then reconnectFailures[endpoint] else 0) + 1;
      reconnectFailures := reconnectFailures[endpoint := failures];
      if failures >= FAILURE_THRESHOLD {
        OpenReconnectCircuit(endpoint);
      }
    }

    method OnReconnectFailed(client: ClientId)
      requires client < |created|
      modifies this, availabilityAlerts
      ensures View() == Step(old(View()), ReconnectFailed(client))
    {
      var endpoint := created[client].endpoint;
      if !IsCurrent(endpoint, client) {
        return;
      }
      OpenReconnectCircuit(endpoint);
    }

    method OnDisconnect(client: ClientId)
      requires client < |created|
      modifies this
      ensures View() == Step(old(View()), ClientDown(client))
    {
      connected := connected - {client};
      var endpoint := created[client].endpoint;
      if !IsCurrent(endpoint, client) {
        return;
      }
      agentLoggedIn := agentLoggedIn[endpoint := false];
    }

    method OnInfo(client: ClientId, supported: bool)
      requires client < |created|
      modifies this
      ensures View() == Step(old(View()), VersionInfo(client, supported))
    {
      var endpoint := created[client].endpoint;
      if !IsCurrent(endpoint, client) {
        return;
      }
      if !supported {
        DropAgent(endpoint);
      }
    }

    method OnCircuitRetry(endpoint: Endpoint)
      requires endpoint in circuitRetryTimers
      modifies this, availabilityAlerts
      ensures View() == Step(old(View()), TimerFires(endpoint))
    {
      circuitRetryTimers := circuitRetryTimers - {endpoint};
      reconnectFailures := reconnectFailures[endpoint := 0];
      if endpoint !in configs {
        return;
      }
      Connect(configs[endpoint]);
    }

    method Attach(endpoint: Endpoint, socket: SocketId)
      requires socket !in attached
      modifies this
      ensures View() == DoAttachReverse(old(View()), endpoint, socket)
    {
      var previous := if endpoint in reverseSockets then Some(reverseSockets[endpoint]) else None;
      reverseSockets := reverseSockets[endpoint := socket];
      reverseEndpoints := reverseEndpoints + {endpoint};
      if previous.Some? {
        // Its disconnect handler runs here and finds that it has been replaced.
        reverseConnected := reverseConnected - {previous.value};
      }
      attached := attached[socket := endpoint];
      reverseConnected := reverseConnected + {socket};
    }

    method OnReverseDisconnect(socket: SocketId)
      requires socket in attached
      modifies this
      ensures View() == Step(old(View()), ReverseDown(socket))
    {
      reverseConnected := reverseConnected - {socket};
      var endpoint := attached[socket];
      if endpoint in reverseSockets && reverseSockets[endpoint] == socket {
        reverseSockets := reverseSockets - {endpoint};
      }
    }

    /** A refresh is a sequence of disconnects and connects. */
    ghost predicate Replays(before: State, trace: seq<Event>)
      reads this, availabilityAlerts
    {
      && View() == Run(before, trace)
      && Inv(View())
      && forall event | event in trace :: event.Disconnect? || event.Connect? || event.AddReverse?
    }

    /** Disconnect every known endpoint that has no row any more. */
    method DropUnwanted(wanted: set<Endpoint>) returns (ghost trace: seq<Event>)
      requires Inv(View())
      modifies this, availabilityAlerts
      ensures Replays(old(View()), trace)
      ensures forall e | e in wanted :: SameEntry(old(View()), View(), e)
      ensures forall e | e !in wanted :: Gone(View(), e)
    {
      trace := [];
      var todo := configs.Keys + reverseEndpoints - wanted;
      ghost var before := View();
      forall e | e !in wanted && e !in todo ensures Gone(View(), e) {
        assert EntryOk(View(), e, {});
      }
      while todo != {}
        invariant Replays(before, trace)
        invariant todo !! wanted
        invariant forall e | e in wanted :: SameEntry(before, View(), e)
        invariant forall e | e !in wanted && e !in todo :: Gone(View(), e)
        decreases todo
      {
        var endpoint :| endpoint in todo;
        ghost var s := View();
        Disconnect(endpoint);
        AfterDisconnect(before, s, endpoint, wanted, todo);
        RunOneMore(before, trace, Event.Disconnect(endpoint));
        trace := trace + [Event.Disconnect(endpoint)];
        todo := todo - {endpoint};
      }
    }

    /** Install one row. */
    method Adopt(agent: StoredAgent, ghost before: State, ghost trace0: seq<Event>) returns (ghost trace: seq<Event>)
      requires Replays(before, trace0) && agent.Key() != "" && SameEntry(before, View(), agent.Key())
      modifies this, availabilityAlerts
      ensures Replays(before, trace) && Settled(before, View(), agent)
      ensures forall e | e != agent.Key() :: SameEntry(old(View()), View(), e)
    {
      trace := trace0;
      ghost var s := View();
      ghost var event;
      match agent {
        case ReverseAgent(key) =>
          AddReverseEndpoint(key);
          event := AddReverse(key);
        case DirectAgent(config) =>
          ConnectSettles(before, s, config);
          if config.url.host in configs && !SameCredentials(configs[config.url.host], config) {
            Disconnect(config.url.host);
          }
          Connect(config);
          event := Event.Connect(config);
      }
      assert View() == Step(s, event);
      RunOneMore(before, trace, event);
      trace := trace + [event];
      StepKeepsInv(s, event);
      forall e | e != agent.Key() ensures SameEntry(s, View(), e) {
        EndpointsAreIndependent(s, event, e);
      }
    }

    /** `refreshFromDatabase`, once the agent list has been read. */
    method RefreshFromDatabase(agents: seq<StoredAgent>) returns (ghost trace: seq<Event>)
      requires Inv(View())
      requires forall i | 0 <= i < |agents| :: agents[i].Key() != ""
      requires forall i, j | 0 <= i < j < |agents| :: agents[i].Key() != agents[j].Key()
      modifies this, availabilityAlerts
      ensures Replays(old(View()), trace)
      ensures forall i | 0 <= i < |agents| :: Settled(old(View()), View(), agents[i])
      ensures forall e | e !in (set a | a in agents :: a.Key()) :: Gone(View(), e)
    {
      var wanted := set a | a in agents :: a.Key();
      trace := DropUnwanted(wanted);
      ghost var before := old(View());
      forall i | 0 <= i < |agents| ensures agents[i].Key() in wanted { assert agents[i] in agents; }
      for i := 0 to |agents|
        invariant Replays(before, trace)
        invariant forall j | 0 <= j < i :: Settled(before, View(), agents[j])
        invariant forall j | i <= j < |agents| :: SameEntry(before, View(), agents[j].Key())
        invariant forall e | e !in wanted :: Gone(View(), e)
      {
        ghost var s := View();
        trace := Adopt(agents[i], before, trace);
        forall j | 0 <= j < i ensures Settled(before, View(), agents[j]) {
          SettledIsLocal(before, s, View(), agents[j]);
        }
        forall j | i < j < |agents| ensures SameEntry(before, View(), agents[j].Key()) {
          SameEntryTransitive(before, s, View(), agents[j].Key());
        }
        forall e | e !in wanted ensures Gone(View(), e) {
          GoneIsLocal(s, View(), e);
        }
      }
    }

    /** `trace` disconnects each endpoint of a set once. */
    ghost predicate Disconnects(before: State, trace: seq<Event>, done: set<Endpoint>)
      reads this, availabilityAlerts
    {
      && View() == Run(before, trace)
      && Distinct(trace)
      && (forall event :: event in trace <==> event.Disconnect? && event.endpoint in done)
      && View().(notices := before.notices) == DisconnectAll(before, done)
    }

    method DisconnectEach(endpoints: set<Endpoint>, ghost before: State, ghost trace0: seq<Event>, ghost done0: set<Endpoint>)
      returns (ghost trace: seq<Event>)
      requires Disconnects(before, trace0, done0) && endpoints !! done0
      modifies this, availabilityAlerts
      ensures Disconnects(before, trace, done0 + endpoints)
    {
      trace := trace0;
      var todo := endpoints;
      ghost var done := done0;
      while todo != {}
        invariant done + todo == done0 + endpoints && done !! todo
        invariant Disconnects(before, trace, done)
        decreases todo
      {
        var endpoint :| endpoint in todo;
        ghost var s := View();
        Disconnect(endpoint);
        DisconnectIgnoresNotices(DisconnectAll(before, done), s, endpoint);
        DisconnectOneMore(before, done, endpoint);
        RunOneMore(before, trace, Event.Disconnect(endpoint));
        trace := trace + [Event.Disconnect(endpoint)];
        todo := todo - {endpoint};
        done := done + {endpoint};
      }
      assert done == done0 + endpoints;
    }

    method ClearCircuitRetries()
      modifies this
      ensures View() == old(View()).(timers := {})
    {
      circuitRetryTimers := {};
    }

    /** Endpoints with a client first, then the reverse endpoints that are left. */
    method ShutDown() returns (ghost trace: seq<Event>)
      modifies this, availabilityAlerts
      ensures View() == Run(old(View()).(timers := {}), trace) && Distinct(trace)
      ensures forall event :: event in trace <==>
                event.Disconnect? && (event.endpoint in old(agentSockets) || event.endpoint in old(reverseEndpoints))
      ensures View().(notices := old(View()).notices) == Shutdown(old(View()))
    {
      ClearCircuitRetries();
      ghost var before := View();
      DisconnectNone(before);
      var withClient := agentSockets.Keys;
      trace := DisconnectEach(withClient, before, [], {});
      assert reverseEndpoints == before.reverseEndpoints - withClient;
      assert {} + withClient == withClient;
      trace := DisconnectEach(reverseEndpoints, before, trace, withClient);
      assert withClient + (before.reverseEndpoints - withClient) == before.clients.Keys + before.reverseEndpoints;
    }

    // --------------------------------------------------------------- the event loop

    method OnTransportUp(client: ClientId)
      modifies this
      ensures View() == Step(old(View()), ClientUp(client))
    {
      if client < |created| {
        connected := connected + {client};
      }
    }

    method AddReverseEndpoint(endpoint: Endpoint)
      modifies this
      ensures View() == Step(old(View()), AddReverse(endpoint))
    {
      reverseEndpoints := reverseEndpoints + {endpoint};
    }

    /** Run the handler of an event; callbacks exist only for clients and sockets that do. */
    method Deliver(event: Event)
      modifies this, availabilityAlerts
      ensures View() == Step(old(View()), event)
    {
      match event {
        case Connect(config) => Connect(config);
        case Disconnect(endpoint) => Disconnect(endpoint);
        case ClientUp(client) => OnTransportUp(client);
        case LoginAnswer(client, ok) => if client < |created| { OnLoginAnswer(client, ok); }
        case ConnectError(client) => if client < |created| { OnConnectFailure(client); }
        case ReconnectFailed(client) => if client < |created| { OnReconnectFailed(client); }
        case ClientDown(client) =>
          if client < |created| { OnDisconnect(client); } else { connected := connected - {client}; }
        case VersionInfo(client, supported) => if client < |created| { OnInfo(client, supported); }
        case TimerFires(endpoint) => if endpoint in circuitRetryTimers { OnCircuitRetry(endpoint); }
        case AttachReverse(endpoint, socket) => if socket !in attached { Attach(endpoint, socket); }
        case ReverseDown(socket) => if socket in attached { OnReverseDisconnect(socket); }
        case AddReverse(endpoint) => AddReverseEndpoint(endpoint);
      }
    }

    /** Handlers run one at a time, so any history of the object is a run of the state machine. */
    method DeliverAll(events: seq<Event>)
      modifies this, availabilityAlerts
      ensures View() == Run(old(View()), events)
    {
      ghost var before := View();
      for i := 0 to |events|
        invariant View() == Run(before, events[..i])
      {
        Deliver(events[i]);
        assert events[..i + 1] == events[..i] + [events[i]];
        RunOneMore(before, events[..i], events[i]);
      }
      assert events[..|events|] == events;
    }
  }

  lemma DisconnectIgnoresNotices(s: State, t: State, e: Endpoint)
    requires s == t.(notices := s.notices)
    ensures DoDisconnect(s, e).(notices := s.notices) == DoDisconnect(t, e).(notices := s.notices)
  {
  }

  lemma AfterDisconnect(before: State, s: State, endpoint: Endpoint, wanted: set<Endpoint>, todo: set<Endpoint>)
    requires Inv(s) && endpoint in todo && todo !! wanted
    requires forall e | e in wanted :: SameEntry(before, s, e)
    requires forall e | e !in wanted && e !in todo :: Gone(s, e)
    ensures Inv(DoDisconnect(s, endpoint))
    ensures forall e | e in wanted :: SameEntry(before, DoDisconnect(s, endpoint), e)
    ensures forall e | e !in wanted && e !in todo - {endpoint} :: Gone(DoDisconnect(s, endpoint), e)
  {
    DisconnectKeepsInv(s, endpoint, {});
    forall e | e in wanted ensures SameEntry(before, DoDisconnect(s, endpoint), e) {
      DisconnectConcernsOne(s, endpoint, e);
      SameEntryTransitive(before, s, DoDisconnect(s, endpoint), e);
    }
    forall e | e !in wanted && e !in todo - {endpoint} ensures Gone(DoDisconnect(s, endpoint), e) {
      if e != endpoint {
        DisconnectConcernsOne(s, endpoint, e);
        GoneIsLocal(s, DoDisconnect(s, endpoint), e);
      }
    }
  }
}
